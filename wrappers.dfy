/** Optional values, results with an error, server replies, and the list prefix `slice(0, n)` /
    `[:n]`. */
module Wrappers {

  /** A value that may be missing: JavaScript `null`/`undefined`, Python `None` or an absent key. */
  datatype Option<T> = None | Some(value: T)

  /** The outcome of an operation that can fail with an error of type E. */
  datatype Result<T, E> = Ok(value: T) | Err(error: E)

  /** The first `n` elements of `s`, or all of them when there are fewer. */
  function Take<T>(s: seq<T>, n: nat): (r: seq<T>)
    ensures |r| == if |s| <= n then |s| else n
    ensures r == s[..|r|]
  {
    if |s| <= n then s else s[..n]
  }

  /** An answer from the server: a failure, or a body whose list field may be missing. */
  datatype Reply<T> = Failed | Replied(value: Option<T>)

  /** `list || []`: a missing list reads as empty. */
  function OrEmpty<T>(v: Option<seq<T>>): seq<T>
  {
    if v.Some? then v.value else []
  }
}
