/** Python list slicing used by the bounded logs of the service. */
module Seqs {

  /** `xs[-n:]` for a positive bound `n`, written as the service writes it:
      `if len(xs) > n: xs = xs[-n:]`. Keeps the `n` newest entries, oldest first. */
  function KeepLast<T>(xs: seq<T>, n: nat): (r: seq<T>)
    requires n > 0
    ensures |r| == if |xs| <= n then |xs| else n
    ensures forall i :: 0 <= i < |r| ==> r[i] == xs[|xs| - |r| + i]
  {
    if |xs| > n then xs[|xs| - n..] else xs
  }

  /** Python's `xs[-k:]` for any integer `k` other than 0: a positive `k` keeps the last `k`
      entries, a negative `k` drops the first `-k` entries (both clipped to the list). */
  function PyTail<T>(xs: seq<T>, k: int): (r: seq<T>)
    requires k != 0
    ensures k > 0 ==> |r| == (if k < |xs| then k else |xs|)
    ensures k < 0 ==> |r| == (if -k < |xs| then |xs| + k else 0)
    ensures forall i :: 0 <= i < |r| ==> r[i] == xs[|xs| - |r| + i]
  {
    if k > 0 then (if k < |xs| then xs[|xs| - k..] else xs)
    else (if -k < |xs| then xs[-k..] else [])
  }

  /** `list(reversed(xs))`. */
  function Reverse<T>(xs: seq<T>): (r: seq<T>)
    ensures |r| == |xs|
    ensures forall i :: 0 <= i < |xs| ==> r[i] == xs[|xs| - 1 - i]
  {
    if xs == [] then [] else Reverse(xs[1..]) + [xs[0]]
  }
}
