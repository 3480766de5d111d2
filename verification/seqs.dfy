/** Sequence operations the JavaScript code performs with `slice` and
    `reverse`. */
module Seqs {

  function Min(a: int, b: int): int {
    if a <= b then a else b
  }

  /** The last `n` elements of `s`, all of them when `s` is shorter. */
  function Newest<T>(s: seq<T>, n: nat): (r: seq<T>)
    ensures |r| == Min(n, |s|)
    ensures r == s[|s| - |r|..]
  {
    if |s| <= n then s else s[|s| - n..]
  }

  /** JavaScript's `s.slice(start)`: a negative start counts from the end,
      and either kind of start is clamped to the sequence. */
  function JsSlice<T>(s: seq<T>, start: int): seq<T> {
    var k := if start < 0 then (if |s| + start < 0 then 0 else |s| + start)
             else (if start > |s| then |s| else start);
    s[k..]
  }

  /** `s.slice(-n)`: the last `n` elements for a positive `n`; but `-0` is
      `0`, so `n == 0` yields the whole sequence, and a negative `n` drops a
      prefix instead. */
  lemma SliceFromEnd<T>(s: seq<T>, n: int)
    ensures 0 < n ==> JsSlice(s, -n) == Newest(s, n)
    ensures n == 0 ==> JsSlice(s, -n) == s
    ensures n < 0 ==> JsSlice(s, -n) == s[Min(-n, |s|)..]
  {
  }

  /** JavaScript's `s.reverse()` on a fresh array. */
  function Reverse<T>(s: seq<T>): (r: seq<T>)
    ensures |r| == |s|
    ensures forall i :: 0 <= i < |s| ==> r[i] == s[|s| - 1 - i]
  {
    if s == [] then [] else Reverse(s[1..]) + [s[0]]
  }
}
