/**
 * Python's slicing of a sequence with step 1, `s[i:]` and `s[:j]`.
 * A negative bound counts from the end, and every bound is then clamped
 * into `[0, len(s)]`, so slicing never raises an error.
 */
module PySlice {

  /** The position a slice bound `i` denotes in a sequence of length `n`. */
  function Clamp(i: int, n: nat): (k: nat)
    ensures k <= n
  {
    if i < 0 then (if n + i < 0 then 0 else n + i)
    else if i > n then n
    else i
  }

  /** `s[i:]` */
  function From<T>(s: seq<T>, i: int): (r: seq<T>)
    ensures i >= 0 ==> |r| == if i >= |s| then 0 else |s| - i
    ensures 0 <= i <= |s| ==> r == s[i..]
    ensures i >= |s| ==> r == []
  {
    s[Clamp(i, |s|)..]
  }

  /** `s[:j]` */
  function Upto<T>(s: seq<T>, j: int): (r: seq<T>)
    ensures j < 0 ==> |r| == if -j >= |s| then 0 else |s| + j
    ensures -|s| <= j < 0 ==> r == s[..|s| + j]
    ensures j <= -|s| ==> r == []
  {
    s[..Clamp(j, |s|)]
  }

  /** `s[:-0]` is `s[:0]`, the empty sequence: the reason `change_name`
      guards its suffix trim with `suffix_ignore > 0`. */
  lemma UptoMinusZeroIsEmpty<T>(s: seq<T>)
    ensures Upto(s, -0) == []
  {
  }
}
