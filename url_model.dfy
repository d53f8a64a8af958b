/**
 * The URL parameters of the page as values: a parameter object, the query
 * cell of one parameter, the query line of a page, `parseString` and the
 * merge of `dispatchToStore`.  `encodeURI` and `utilsService.parseUrl`
 * are passed in as functions; `DefaultUrlParameters` and
 * `VisibleParametersPerPage` are passed in as values.
 */
module UrlModel {
  import opened Strings

  /** A parameter's value: a string, an array of strings (`countries`,
    * `regions`), or `undefined`. */
  datatype Value = Text(text: string) | Items(items: seq<string>) | Undefined

  /** A `UrlParameters` object. */
  type Params = map<string, Value>

  /** `p[k]`: a missing key reads as `undefined`. */
  function Get(p: Params, k: string): (r: Value)
    ensures k in p ==> r == p[k]
    ensures k !in p ==> r.Undefined?
  {
    if k in p then p[k] else Undefined
  }

  /** `p` with `k` set to `v`, as `this.parameters.k = v` does. */
  function Assigned(p: Params, k: string, v: Value): (r: Params)
    ensures Get(r, k) == v
    ensures forall j :: j != k ==> Get(r, j) == Get(p, j)
    ensures r.Keys == p.Keys + {k}
  {
    p[k := v]
  }

  /** The two parameters whose value is an array of strings. */
  predicate IsListParam(name: string) {
    name == "countries" || name == "regions"
  }

  /** The elements of an array value (no elements for anything else). */
  function ListOf(v: Value): seq<string> {
    if v.Items? then v.items else []
  }

  /** A value as a template literal shows it. */
  function Show(v: Value): string {
    match v
    case Text(s) => s
    case Items(xs) => Join(xs, ',')
    case Undefined => "undefined"
  }

  /** A list parameter's text from its sorted entries `mine` and the sorted
    * default entries `base`. */
  function ListText(name: string, mine: seq<string>, base: seq<string>): string {
    if |Difference(mine, base)| > 0 then name + "=" + Join(mine, ',') else ""
  }

  /** `getStringFromParams` before `encodeURI`: `name=value` for a value
    * other than its default, `name=a,b,...` (sorted) for a country or
    * region list holding an entry the default list lacks, or nothing. */
  function RawCell(p: Params, d: Params, name: string): string {
    if IsListParam(name) then ListText(name, Sort(ListOf(Get(p, name))), Sort(ListOf(Get(d, name))))
    else if Get(p, name) != Get(d, name) then name + "=" + Show(Get(p, name))
    else ""
  }

  /** `getStringFromParams(name)` for the parameters `p` and the defaults `d`. */
  function Cell(p: Params, d: Params, name: string, encode: string -> string): string {
    encode(RawCell(p, d, name))
  }

  /** `getStringFromParams` calls `.sort()` on an array parameter, which
    * throws unless both the parameter and its default are arrays. */
  predicate Renderable(p: Params, d: Params, name: string) {
    IsListParam(name) ==> Get(p, name).Items? && Get(d, name).Items?
  }

  predicate RenderableAll(p: Params, d: Params, names: seq<string>) {
    forall i :: 0 <= i < |names| ==> Renderable(p, d, names[i])
  }

  /** The in-place sort `getStringFromParams(name)` applies to an array
    * parameter. */
  function SortedAt(p: Params, name: string): Params {
    if IsListParam(name) && name in p && p[name].Items? then p[name := Items(Sort(p[name].items))]
    else p
  }

  /** The parameters after `getStringFromParams` ran on each of `names`. */
  function SortedAlong(p: Params, names: seq<string>): Params {
    if |names| == 0 then p
    else SortedAt(SortedAlong(p, names[..|names| - 1]), names[|names| - 1])
  }

  /** The non-empty cells of `names`, in order. */
  function Cells(p: Params, d: Params, names: seq<string>, encode: string -> string): (r: seq<string>)
    ensures forall i :: 0 <= i < |r| ==> |r[i]| > 0
    ensures |r| <= |names|
  {
    if |names| == 0 then []
    else
      var c := Cell(p, d, names[|names| - 1], encode);
      Cells(p, d, names[..|names| - 1], encode) + (if |c| > 0 then [c] else [])
  }

  /** `getParamsStingForPage`'s line for the visible parameters `names`. */
  function ParamsLine(p: Params, d: Params, names: seq<string>, encode: string -> string): string {
    Join(Cells(p, d, names, encode), '&')
  }

  /** `get(VisibleParametersPerPage, page, VisibleParametersPerPage.other)`:
    * the page's visible parameters, those of `other` for an unknown page,
    * none when `other` is missing too. */
  function VisibleFor(visible: map<string, seq<string>>, page: string): seq<string> {
    if page in visible then visible[page]
    else if "other" in visible then visible["other"]
    else []
  }

  /** `parseString(url)` with the defaults `d` and `utilsService.parseUrl`. */
  function ParseString(url: string, d: Params, parseUrl: string -> Params): Params {
    if '?' !in url then d
    else d + parseUrl(After(url, '?'))
  }

  /** `router.url.split('?')[0]`. */
  function PathOf(url: string): string {
    Split(url, '?')[0]
  }

  /** The query handed to `replaceState`: `?` and the parameters, or
    * nothing for no parameters. */
  function QueryLine(params: string): string {
    if |params| > 0 then "?" + params else params
  }

  /** `Object.assign({}, defaults, current, incoming)`. */
  function Merged(defaults: Params, current: Params, incoming: Params): Params {
    defaults + current + incoming
  }

  /** `encodeURI` maps exactly the empty string to the empty string. */
  ghost predicate PreservesEmptiness(encode: string -> string) {
    forall s :: encode(s) == "" <==> s == ""
  }
}
