/** What the URL composition promises, stated over `UrlModel`. */
module UrlProperties {
  import opened Strings
  import opened UrlModel

  // ---------------------------------------------------------------------
  // one parameter's cell

  /** A scalar parameter's cell is empty exactly when the value equals its
    * default; otherwise it is the encoded `name=value`. */
  lemma ScalarCell(p: Params, d: Params, name: string, encode: string -> string)
    requires PreservesEmptiness(encode) && !IsListParam(name)
    ensures Cell(p, d, name, encode) == "" <==> Get(p, name) == Get(d, name)
    ensures Get(p, name) != Get(d, name) ==>
              Cell(p, d, name, encode) == encode(name + "=" + Show(Get(p, name)))
  {
    var raw := RawCell(p, d, name);
    assert encode(raw) == "" <==> raw == "";
    if Get(p, name) != Get(d, name) {
      assert |raw| > |name|;
    }
  }

  /** A country or region list's cell is empty exactly when every selected
    * entry occurs in the default list; otherwise it is the encoded
    * `name=` followed by the sorted entries joined with commas. */
  lemma ListCell(p: Params, d: Params, name: string, encode: string -> string)
    requires PreservesEmptiness(encode) && IsListParam(name)
    ensures Cell(p, d, name, encode) == "" <==>
              forall x :: x in ListOf(Get(p, name)) ==> x in ListOf(Get(d, name))
    ensures Cell(p, d, name, encode) != "" ==>
              Cell(p, d, name, encode) == encode(name + "=" + Join(Sort(ListOf(Get(p, name))), ','))
  {
    var mine, base := ListOf(Get(p, name)), ListOf(Get(d, name));
    var raw := RawCell(p, d, name);
    assert encode(raw) == "" <==> raw == "";
    DifferenceEmpty(Sort(mine), Sort(base));
    assert forall x :: x in Sort(mine) <==> x in mine by {
      forall x ensures x in Sort(mine) <==> x in mine {
        assert x in Sort(mine) <==> x in multiset(Sort(mine));
      }
    }
    assert forall x :: x in Sort(base) <==> x in base by {
      forall x ensures x in Sort(base) <==> x in base {
        assert x in Sort(base) <==> x in multiset(Sort(base));
      }
    }
    if |Difference(Sort(mine), Sort(base))| > 0 {
      assert |raw| > |name|;
    }
  }

  // ---------------------------------------------------------------------
  // the in-place sorts change nothing a cell depends on

  /** Sorting one array parameter keeps every other parameter and keeps
    * the sorted one an array with the same entries in the same sorted
    * order. */
  lemma SortedAtKeeps(p: Params, name: string, k: string)
    ensures Get(SortedAt(p, name), k).Items? == Get(p, k).Items?
    ensures multiset(ListOf(Get(SortedAt(p, name), k))) == multiset(ListOf(Get(p, k)))
    ensures Sort(ListOf(Get(SortedAt(p, name), k))) == Sort(ListOf(Get(p, k)))
    ensures !IsListParam(k) || k != name ==> Get(SortedAt(p, name), k) == Get(p, k)
  {
    if IsListParam(name) && name in p && p[name].Items? && k == name {
      SortIdempotent(p[name].items);
    }
  }

  lemma {:induction false} SortedAlongKeeps(p: Params, names: seq<string>, k: string)
    ensures Get(SortedAlong(p, names), k).Items? == Get(p, k).Items?
    ensures multiset(ListOf(Get(SortedAlong(p, names), k))) == multiset(ListOf(Get(p, k)))
    ensures Sort(ListOf(Get(SortedAlong(p, names), k))) == Sort(ListOf(Get(p, k)))
    ensures !IsListParam(k) ==> Get(SortedAlong(p, names), k) == Get(p, k)
  {
    if |names| > 0 {
      SortedAlongKeeps(p, names[..|names| - 1], k);
      SortedAtKeeps(SortedAlong(p, names[..|names| - 1]), names[|names| - 1], k);
    }
  }

  /** A cell reads an array parameter only through its sorted entries, so
    * earlier sorts do not change it. */
  lemma CellIgnoresSorting(p: Params, d: Params, names: seq<string>, name: string,
                           encode: string -> string)
    ensures Cell(SortedAlong(p, names), SortedAlong(d, names), name, encode) == Cell(p, d, name, encode)
  {
    SortedAlongKeeps(p, names, name);
    SortedAlongKeeps(d, names, name);
  }

  lemma {:induction false} SortedAlongRenderable(p: Params, d: Params, sorted: seq<string>, names: seq<string>)
    requires RenderableAll(p, d, names)
    ensures RenderableAll(SortedAlong(p, sorted), SortedAlong(d, sorted), names)
  {
    forall i | 0 <= i < |names|
      ensures Renderable(SortedAlong(p, sorted), SortedAlong(d, sorted), names[i])
    {
      SortedAlongKeeps(p, sorted, names[i]);
      SortedAlongKeeps(d, sorted, names[i]);
    }
  }

  /** A setter that assigns the scalar `key` and then recombines the URL
    * changes no other scalar parameter, stores `v` under `key`, and leaves
    * every country or region list an array with the same entries. */
  lemma SetterChangesOnly(p: Params, key: string, v: Value, names: seq<string>, k: string)
    requires !IsListParam(key)
    ensures k == key ==> Get(SortedAlong(Assigned(p, key, v), names), k) == v
    ensures k != key && !IsListParam(k) ==> Get(SortedAlong(Assigned(p, key, v), names), k) == Get(p, k)
    ensures IsListParam(k) ==>
              Get(SortedAlong(Assigned(p, key, v), names), k).Items? == Get(p, k).Items?
              && multiset(ListOf(Get(SortedAlong(Assigned(p, key, v), names), k))) == multiset(ListOf(Get(p, k)))
  {
    SortedAlongKeeps(Assigned(p, key, v), names, k);
  }

  // ---------------------------------------------------------------------
  // the page's line

  /** The cells of a longer list of names are those of its parts, in order. */
  lemma {:induction false} CellsAppend(p: Params, d: Params, a: seq<string>, b: seq<string>,
                                       encode: string -> string)
    ensures Cells(p, d, a + b, encode) == Cells(p, d, a, encode) + Cells(p, d, b, encode)
  {
    if |b| > 0 {
      assert (a + b)[..|a + b| - 1] == a + b[..|b| - 1];
      assert (a + b)[|a + b| - 1] == b[|b| - 1];
      CellsAppend(p, d, a, b[..|b| - 1], encode);
    } else {
      assert a + b == a;
    }
  }

  /** Every non-empty cell of a visible parameter is in the line's cells,
    * and every one of those cells is the cell of a visible parameter. */
  lemma {:induction false} CellsComplete(p: Params, d: Params, names: seq<string>, encode: string -> string)
    ensures forall i :: 0 <= i < |names| && |Cell(p, d, names[i], encode)| > 0 ==>
              Cell(p, d, names[i], encode) in Cells(p, d, names, encode)
    ensures forall c :: c in Cells(p, d, names, encode) ==>
              exists i :: 0 <= i < |names| && c == Cell(p, d, names[i], encode)
  {
    if |names| > 0 {
      var front := names[..|names| - 1];
      CellsComplete(p, d, front, encode);
      assert forall i :: 0 <= i < |front| ==> front[i] == names[i];
    }
  }

  /** When no cell holds `&`, splitting the line at `&` gives back exactly
    * the non-empty cells, so the line never has an empty segment. */
  lemma LineSegments(p: Params, d: Params, names: seq<string>, encode: string -> string)
    requires forall i :: 0 <= i < |names| ==> '&' !in Cell(p, d, names[i], encode)
    requires |Cells(p, d, names, encode)| > 0
    ensures Split(ParamsLine(p, d, names, encode), '&') == Cells(p, d, names, encode)
    ensures forall s :: s in Split(ParamsLine(p, d, names, encode), '&') ==> |s| > 0
  {
    var cells := Cells(p, d, names, encode);
    CellsComplete(p, d, names, encode);
    forall i | 0 <= i < |cells| ensures '&' !in cells[i] {
      assert cells[i] in cells;
    }
    SplitJoin(cells, '&');
  }

  /** The line is empty exactly when no visible parameter has a cell. */
  lemma {:induction false} LineEmpty(p: Params, d: Params, names: seq<string>, encode: string -> string)
    ensures ParamsLine(p, d, names, encode) == "" <==> |Cells(p, d, names, encode)| == 0
  {
    var cells := Cells(p, d, names, encode);
    if |cells| > 1 {
      assert |Join(cells, '&')| > 0;
    }
  }

  /** An unknown page shows the parameters of `other`. */
  lemma VisibleFallback(visible: map<string, seq<string>>, page: string)
    ensures page in visible ==> VisibleFor(visible, page) == visible[page]
    ensures page !in visible && "other" in visible ==> VisibleFor(visible, page) == visible["other"]
  {
  }

  // ---------------------------------------------------------------------
  // parseString

  /** Without a `?` the defaults come back unchanged. */
  lemma ParseWithoutQuery(url: string, d: Params, parseUrl: string -> Params)
    requires '?' !in url
    ensures ParseString(url, d, parseUrl) == d
  {
  }

  /** With a `?` the parameters parsed from what follows the first `?`
    * overlay the defaults: parsed keys win, every other key keeps its
    * default. */
  lemma ParseOverlay(url: string, d: Params, parseUrl: string -> Params)
    requires '?' in url
    ensures var q := parseUrl(After(url, '?'));
            forall k :: Get(ParseString(url, d, parseUrl), k) == (if k in q then q[k] else Get(d, k))
    ensures PathOf(url) + "?" + After(url, '?') == url
  {
    BeforeAfter(url, '?');
  }

  // ---------------------------------------------------------------------
  // combineUrlPerPage

  /** The path is the URL up to its first `?`, and holds no `?`; with no `?`
    * it is the whole URL. */
  lemma PathIsPrefix(url: string)
    ensures '?' !in PathOf(url)
    ensures '?' !in url ==> PathOf(url) == url
    ensures '?' in url ==> PathOf(url) + "?" + After(url, '?') == url
  {
    if '?' in url {
      BeforeAfter(url, '?');
    }
  }

  /** The query is `?` followed by the parameters when there are any, and
    * empty otherwise. */
  lemma QueryPrefix(params: string)
    ensures QueryLine(params) == "" <==> params == ""
    ensures params != "" ==> QueryLine(params)[0] == '?' && QueryLine(params)[1..] == params
  {
  }

  // ---------------------------------------------------------------------
  // dispatchToStore

  /** Incoming values beat current ones, current ones beat the defaults. */
  lemma MergePriority(defaults: Params, current: Params, incoming: Params, k: string)
    ensures k in incoming ==> Get(Merged(defaults, current, incoming), k) == incoming[k]
    ensures k !in incoming && k in current ==> Get(Merged(defaults, current, incoming), k) == current[k]
    ensures k !in incoming && k !in current ==> Get(Merged(defaults, current, incoming), k) == Get(defaults, k)
  {
  }
}
