/**
 * The JavaScript string and array operations the URL composition relies on:
 * `indexOf`, `split`, `join`, the default `Array.prototype.sort` (ordering
 * strings by their code points) and lodash's `difference`.
 */
module Strings {

  /** `s.indexOf(c)`: the first position of `c`, or -1. */
  function IndexOf(s: string, c: char): (r: int)
    ensures -1 <= r < |s|
    ensures r == -1 <==> c !in s
    ensures r >= 0 ==> s[r] == c && c !in s[..r]
  {
    if |s| == 0 then -1
    else if s[0] == c then 0
    else
      var k := IndexOf(s[1..], c);
      assert s[1..][..if k < 0 then 0 else k] == s[1..if k < 0 then 1 else k + 1];
      if k == -1 then -1 else k + 1
  }

  /** `s.split(c)[0]`: everything before the first `c`. */
  function Before(s: string, c: char): (r: string)
    ensures c !in r
  {
    var i := IndexOf(s, c);
    if i == -1 then s else s[..i]
  }

  /** `s.slice(s.indexOf(c) + 1)` when `c` occurs: everything after the first `c`. */
  function After(s: string, c: char): string
    requires c in s
  {
    s[IndexOf(s, c) + 1..]
  }

  lemma BeforeAfter(s: string, c: char)
    requires c in s
    ensures Before(s, c) + [c] + After(s, c) == s
    ensures |Before(s, c)| < |s|
  {
    var i := IndexOf(s, c);
    assert s == s[..i] + [s[i]] + s[i + 1..];
  }

  /** `parts.join([sep])`. */
  function Join(parts: seq<string>, sep: char): (r: string)
    ensures |parts| == 1 ==> r == parts[0]
  {
    if |parts| == 0 then ""
    else if |parts| == 1 then parts[0]
    else parts[0] + [sep] + Join(parts[1..], sep)
  }

  /** `s.split(sep)` for a one-character separator; never empty. */
  function Split(s: string, sep: char): (r: seq<string>)
    ensures |r| >= 1
    ensures r[0] == Before(s, sep)
    ensures forall i :: 0 <= i < |r| ==> sep !in r[i]
    decreases |s|
  {
    if sep !in s then [s]
    else
      BeforeAfter(s, sep);
      [Before(s, sep)] + Split(After(s, sep), sep)
  }

  /** Splitting and joining again gives back the string. */
  lemma {:induction false} JoinSplit(s: string, sep: char)
    ensures Join(Split(s, sep), sep) == s
    decreases |s|
  {
    if sep in s {
      BeforeAfter(s, sep);
      JoinSplit(After(s, sep), sep);
    }
  }

  /** Joining parts free of the separator and splitting again gives back
    * the parts. */
  lemma {:induction false} SplitJoin(parts: seq<string>, sep: char)
    requires |parts| >= 1
    requires forall i :: 0 <= i < |parts| ==> sep !in parts[i]
    ensures Split(Join(parts, sep), sep) == parts
  {
    if |parts| > 1 {
      var rest := Join(parts[1..], sep);
      var s := parts[0] + [sep] + rest;
      assert s[|parts[0]|] == sep;
      assert IndexOf(s, sep) == |parts[0]| by {
        assert s[..|parts[0]|] == parts[0];
      }
      assert Before(s, sep) == parts[0] by {
        assert s[..|parts[0]|] == parts[0];
      }
      assert After(s, sep) == rest;
      SplitJoin(parts[1..], sep);
      assert parts == [parts[0]] + parts[1..];
    }
  }

  // ---------------------------------------------------------------------
  // the default sort: strings ordered by their code points

  /** `a` sorts before or equal to `b`. */
  predicate LexLe(a: string, b: string) {
    if |a| == 0 then true
    else if |b| == 0 then false
    else if a[0] != b[0] then a[0] < b[0]
    else LexLe(a[1..], b[1..])
  }

  lemma {:induction false} LexLeReflexive(a: string)
    ensures LexLe(a, a)
  {
    if |a| > 0 {
      LexLeReflexive(a[1..]);
    }
  }

  lemma {:induction false} LexLeTotal(a: string, b: string)
    ensures LexLe(a, b) || LexLe(b, a)
  {
    if |a| > 0 && |b| > 0 && a[0] == b[0] {
      LexLeTotal(a[1..], b[1..]);
    }
  }

  lemma {:induction false} LexLeAntisymmetric(a: string, b: string)
    requires LexLe(a, b) && LexLe(b, a)
    ensures a == b
  {
    if |a| > 0 && |b| > 0 {
      LexLeAntisymmetric(a[1..], b[1..]);
      assert a == [a[0]] + a[1..] && b == [b[0]] + b[1..];
    }
  }

  lemma {:induction false} LexLeTransitive(a: string, b: string, c: string)
    requires LexLe(a, b) && LexLe(b, c)
    ensures LexLe(a, c)
  {
    if |a| > 0 && |b| > 0 && |c| > 0 && a[0] == b[0] && b[0] == c[0] {
      LexLeTransitive(a[1..], b[1..], c[1..]);
    }
  }

  predicate Sorted(xs: seq<string>) {
    forall i, j :: 0 <= i < j < |xs| ==> LexLe(xs[i], xs[j])
  }

  /** Places `x` after every trailing element of `sorted` that it does not
    * sort before. */
  function Insert(sorted: seq<string>, x: string): (r: seq<string>)
    ensures multiset(r) == multiset(sorted) + multiset{x}
  {
    if |sorted| == 0 then [x]
    else
      var last := sorted[|sorted| - 1];
      if LexLe(last, x) then sorted + [x]
      else
        assert sorted == sorted[..|sorted| - 1] + [last];
        Insert(sorted[..|sorted| - 1], x) + [last]
  }

  lemma {:induction false} InsertSorted(sorted: seq<string>, x: string)
    requires Sorted(sorted)
    ensures Sorted(Insert(sorted, x))
  {
    if |sorted| > 0 {
      var last := sorted[|sorted| - 1];
      if LexLe(last, x) {
        forall i | 0 <= i < |sorted| ensures LexLe(sorted[i], x) {
          if i < |sorted| - 1 {
            LexLeTransitive(sorted[i], last, x);
          }
        }
      } else {
        var front := sorted[..|sorted| - 1];
        var r' := Insert(front, x);
        InsertSorted(front, x);
        LexLeTotal(last, x);
        forall i | 0 <= i < |r'| ensures LexLe(r'[i], last) {
          assert r'[i] in multiset(r');
          assert r'[i] in front || r'[i] == x;
        }
        assert Insert(sorted, x) == r' + [last];
      }
    }
  }

  /** `xs.sort()`: the elements in ascending order (`SortSorts`). */
  function Sort(xs: seq<string>): (r: seq<string>)
    ensures multiset(r) == multiset(xs)
  {
    if |xs| == 0 then []
    else
      assert xs == xs[..|xs| - 1] + [xs[|xs| - 1]];
      Insert(Sort(xs[..|xs| - 1]), xs[|xs| - 1])
  }

  lemma {:induction false} SortSorts(xs: seq<string>)
    ensures Sorted(Sort(xs))
  {
    if |xs| > 0 {
      SortSorts(xs[..|xs| - 1]);
      InsertSorted(Sort(xs[..|xs| - 1]), xs[|xs| - 1]);
    }
  }

  /** Sorting a sorted sequence leaves it as it is. */
  lemma {:induction false} SortSorted(xs: seq<string>)
    requires Sorted(xs)
    ensures Sort(xs) == xs
  {
    if |xs| > 0 {
      var front := xs[..|xs| - 1];
      assert Sorted(front);
      SortSorted(front);
      assert xs == front + [xs[|xs| - 1]];
      if |front| > 0 {
        assert LexLe(front[|front| - 1], xs[|xs| - 1]);
      }
    }
  }

  /** Sorting twice is sorting once. */
  lemma SortIdempotent(xs: seq<string>)
    ensures Sort(Sort(xs)) == Sort(xs)
  {
    SortSorts(xs);
    SortSorted(Sort(xs));
  }

  // ---------------------------------------------------------------------
  // lodash `difference`

  /** `_.difference(a, b)`: the elements of `a`, in order, that `b` lacks. */
  function Difference(a: seq<string>, b: seq<string>): (r: seq<string>)
    ensures |r| <= |a|
  {
    if |a| == 0 then []
    else
      var rest := Difference(a[1..], b);
      if a[0] in b then rest else [a[0]] + rest
  }

  /** The difference holds exactly the elements of `a` that `b` lacks. */
  lemma {:induction false} DifferenceMembers(a: seq<string>, b: seq<string>)
    ensures forall x :: x in Difference(a, b) <==> x in a && x !in b
  {
    if |a| > 0 {
      DifferenceMembers(a[1..], b);
      assert forall x :: x in a <==> x == a[0] || x in a[1..];
    }
  }

  /** The difference is empty exactly when `b` holds every element of `a`. */
  lemma DifferenceEmpty(a: seq<string>, b: seq<string>)
    ensures |Difference(a, b)| == 0 <==> forall x :: x in a ==> x in b
  {
    DifferenceMembers(a, b);
    var r := Difference(a, b);
    if |r| > 0 {
      assert r[0] in r;
    }
  }
}
