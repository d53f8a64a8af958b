/** An optional value; `None` stands for JavaScript's `undefined`. */
module Optional {

  datatype Option<+T> = None | Some(value: T)

  /** `xs[0]` in JavaScript: `undefined` for an empty array. */
  function First<T>(xs: seq<T>): (r: Option<T>)
    ensures r.None? <==> |xs| == 0
    ensures r.Some? ==> r.value == xs[0]
  {
    if |xs| == 0 then None else Some(xs[0])
  }
}
