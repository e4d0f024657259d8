/** Python sequence slicing used when the readers trim padded archive rows. */
module PySeq {

  /** `s[:n]` (and `s[0:n]`): Python clamps a count beyond the end to the
      length and counts a negative `n` from the end. */
  function PyPrefix<T>(s: seq<T>, n: int): (r: seq<T>)
    ensures |r| <= |s| && r == s[..|r|]
    ensures 0 <= n ==> |r| == (if n < |s| then n else |s|)
    ensures n < 0 ==> |r| == (if |s| + n > 0 then |s| + n else 0)
  {
    if n >= |s| then s
    else if n >= 0 then s[..n]
    else if |s| + n > 0 then s[..|s| + n]
    else []
  }

  /** A negative count drops that many elements from the end, and what is
      dropped is exactly the tail `s[n:]`. */
  lemma {:induction false} PyPrefixNegative<T>(s: seq<T>, n: int)
    requires n < 0 && -n <= |s|
    ensures PyPrefix(s, n) + s[|s| + n..] == s
  {
  }

  /** Trimming twice to the same non-negative count is trimming once. */
  lemma {:induction false} PyPrefixIdempotent<T>(s: seq<T>, n: int)
    requires 0 <= n
    ensures PyPrefix(PyPrefix(s, n), n) == PyPrefix(s, n)
  {
  }
}
