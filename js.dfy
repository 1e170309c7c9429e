/**
 * The two pieces of JavaScript semantics the components lean on: truthiness of
 * a possibly missing string, and `String.prototype.slice` with its negative
 * and out-of-range index handling.
 */
module Js {
  import opened Wrappers

  /** `!!s` for a value that is either a string or `null`/`undefined`: only a
      present, non-empty string is truthy. */
  predicate Truthy(s: Option<string>) {
    s.Some? && s.value != ""
  }

  function Min(a: int, b: int): int { if a <= b then a else b }

  function Max(a: int, b: int): int { if a <= b then b else a }

  /** How `slice` turns an argument into a position in a string of length `n`:
      a negative index counts back from the end, and the result is clamped to
      the string. */
  function RelativeIndex(k: int, n: nat): (p: nat)
    ensures p <= n
  {
    if k < 0 then (if n + k < 0 then 0 else n + k)
    else if k > n then n
    else k
  }

  /** `s.slice(start, end)`: the characters between the two relative
      positions, or the empty string when they cross. */
  function Slice(s: string, start: int, end: int): (r: string)
    ensures |r| <= |s|
    ensures 0 <= start <= end ==> r == s[Min(start, |s|)..Min(end, |s|)]
    ensures RelativeIndex(end, |s|) <= RelativeIndex(start, |s|) ==> r == ""
  {
    var from, to := RelativeIndex(start, |s|), RelativeIndex(end, |s|);
    if from < to then s[from..to] else ""
  }

  /** `s.slice(start)`: `end` defaults to the length of the string. */
  function SliceFrom(s: string, start: int): (r: string)
    ensures start < 0 ==> r == s[Max(|s| + start, 0)..]
    ensures 0 <= start ==> r == s[Min(start, |s|)..]
  {
    Slice(s, start, |s|)
  }
}
