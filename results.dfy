/** Optional values and results with an error, as the resolver uses them. */
module Results {

  /** A value that may be absent (JavaScript's `undefined`). */
  datatype Option<+T> = None | Some(value: T)

  /** The outcome of a step that can throw: a value, or the error it throws. */
  datatype Result<+T, +E> = Ok(value: T) | Err(error: E)

  /**
   * `xs.map(f)` where f throws on some elements (f yields None there): the
   * mapped values in order, or the index of the first element f throws on,
   * where the map stops.
   */
  function MapOrThrow<T, U>(xs: seq<T>, f: T -> Option<U>): (r: Result<seq<U>, nat>)
    ensures r.Ok? ==> |r.value| == |xs| && forall k :: 0 <= k < |xs| ==> f(xs[k]) == Some(r.value[k])
    ensures r.Err? ==> r.error < |xs| && f(xs[r.error]) == None &&
                       forall m :: 0 <= m < r.error ==> f(xs[m]).Some?
  {
    if xs == [] then Ok([])
    else
      var head := f(xs[0]);
      var tail := MapOrThrow(xs[1..], f);
      assert forall k :: 1 <= k < |xs| ==> xs[k] == xs[1..][k - 1];
      if head.None? then Err(0)
      else if tail.Err? then Err(tail.error + 1)
      else Ok([head.value] + tail.value)
  }
}
