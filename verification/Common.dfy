/** Stock types and the tail of a sequence. */
module Common {

  datatype Option<T> = None | Some(value: T)

  /** The last n elements, or all of them: what a `deque` with `maxlen` n keeps. */
  function Suffix<T>(xs: seq<T>, n: nat): seq<T> {
    if |xs| <= n then xs else xs[|xs| - n..]
  }
}
