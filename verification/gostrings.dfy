/** The three functions of Go's `strings` package that the descriptor
    endpoint relies on (`TrimSpace`, `HasSuffix`, `TrimSuffix`), on strings
    of Unicode scalar values. */
module GoStrings {

  /** Go's `unicode.IsSpace`: the Latin-1 spaces '\t' '\n' '\v' '\f' '\r' ' ',
      U+0085 and U+00A0, and above Latin-1 the characters with the Unicode
      White_Space property. */
  predicate IsSpace(c: char) {
    var n := c as int;
    if n <= 0xFF then
      (0x09 <= n <= 0x0D) || n == 0x20 || n == 0x85 || n == 0xA0
    else
      n == 0x1680 || (0x2000 <= n <= 0x200A) || n == 0x2028 || n == 0x2029
      || n == 0x202F || n == 0x205F || n == 0x3000
  }

  /** Every character of `s` is a space (vacuously true of the empty string). */
  predicate AllSpace(s: string) {
    forall i :: 0 <= i < |s| ==> IsSpace(s[i])
  }

  /** Drops the leading spaces of `s`. */
  function TrimLeftSpace(s: string): (r: string)
    ensures |r| <= |s| && r == s[|s| - |r|..]
    ensures forall i :: 0 <= i < |s| - |r| ==> IsSpace(s[i])
    ensures r == [] || !IsSpace(r[0])
    decreases |s|
  {
    if |s| > 0 && IsSpace(s[0]) then TrimLeftSpace(s[1..]) else s
  }

  /** Drops the trailing spaces of `s`. */
  function TrimRightSpace(s: string): (r: string)
    ensures |r| <= |s| && r == s[..|r|]
    ensures forall i :: |r| <= i < |s| ==> IsSpace(s[i])
    ensures r == [] || !IsSpace(r[|r| - 1])
    decreases |s|
  {
    if |s| > 0 && IsSpace(s[|s| - 1]) then TrimRightSpace(s[..|s| - 1]) else s
  }

  /** Go's `strings.TrimSpace`: `s` without its leading and trailing spaces.
      The result is the slice of `s` left between a run of leading and a run
      of trailing spaces; it is empty exactly when `s` consists of spaces
      only, and otherwise neither starts nor ends with a space. */
  function TrimSpace(s: string): (r: string)
    ensures r == [] <==> AllSpace(s)
    ensures r != [] ==> !IsSpace(r[0]) && !IsSpace(r[|r| - 1])
    ensures exists i, j :: 0 <= i <= j <= |s| && r == s[i..j] && AllSpace(s[..i]) && AllSpace(s[j..])
  {
    var left := TrimLeftSpace(s);
    var r := TrimRightSpace(left);
    TrimmedIsSlice(s, left, r);
    r
  }

  /** When `left` is what remains of `s` after a run of leading spaces, and
      `r` what remains of `left` after a run of trailing spaces, then `r` is
      the slice of `s` between those two runs. */
  lemma TrimmedIsSlice(s: string, left: string, r: string)
    requires |left| <= |s| && left == s[|s| - |left|..]
    requires forall k :: 0 <= k < |s| - |left| ==> IsSpace(s[k])
    requires |r| <= |left| && r == left[..|r|]
    requires forall k :: |r| <= k < |left| ==> IsSpace(left[k])
    ensures r == s[|s| - |left|..|s| - |left| + |r|]
    ensures AllSpace(s[..|s| - |left|]) && AllSpace(s[|s| - |left| + |r|..])
  {
    var i := |s| - |left|;
    var head := s[..i];
    forall k | 0 <= k < |head|
      ensures IsSpace(head[k])
    {
      assert head[k] == s[k];
    }
    var tail := s[i + |r|..];
    forall k | 0 <= k < |tail|
      ensures IsSpace(tail[k])
    {
      assert tail[k] == left[|r| + k];
    }
  }

  /** Go's `strings.HasSuffix`. */
  predicate HasSuffix(s: string, suffix: string) {
    |suffix| <= |s| && s[|s| - |suffix|..] == suffix
  }

  /** Go's `strings.TrimSuffix`: removes `suffix` once if `s` ends with it,
      and otherwise returns `s` unchanged. */
  function TrimSuffix(s: string, suffix: string): (r: string)
    ensures HasSuffix(s, suffix) ==> r + suffix == s
    ensures !HasSuffix(s, suffix) ==> r == s
  {
    if HasSuffix(s, suffix) then s[..|s| - |suffix|] else s
  }

  /** Removing a suffix that was just appended gives the original back. */
  lemma TrimAppendedSuffix(p: string, suffix: string)
    ensures HasSuffix(p + suffix, suffix)
    ensures TrimSuffix(p + suffix, suffix) == p
  {
  }
}
