/** Owned strings as their UTF-8 bytes, with the character-boundary rule that
    decides whether a byte range of a string may be sliced. */
module Strings {
  import opened Num

  /** The bytes of a string; its length is a `usize`. */
  type Text = s: seq<u8> | |s| <= 0xFFFF_FFFF_FFFF_FFFF

  /** A UTF-8 continuation byte, `0b10xx_xxxx`. */
  predicate IsContinuation(b: u8) {
    0x80 <= b < 0xC0
  }

  /** `is_char_boundary(i)`: the start, the end, or an index whose byte does
      not continue a multi-byte character. */
  predicate IsCharBoundary(s: Text, i: int) {
    i == 0 || i == |s| || (0 < i < |s| && !IsContinuation(s[i]))
  }

  /** The byte range `[start, end)` of `s` can be sliced: it is ordered, in
      bounds, and starts and ends on character boundaries. */
  predicate CanSlice(s: Text, start: int, end: int) {
    0 <= start <= end <= |s| && IsCharBoundary(s, start) && IsCharBoundary(s, end)
  }

  predicate IsAscii(s: seq<u8>) {
    forall i :: 0 <= i < |s| ==> s[i] < 0x80
  }

  /** The bytes of an ASCII string literal. */
  function Bytes(s: string): (t: Text)
    requires |s| <= USIZE_MAX
    requires forall i :: 0 <= i < |s| ==> s[i] < 128 as char
    ensures |t| == |s| && IsAscii(t)
    ensures forall i :: 0 <= i < |s| ==> t[i] == s[i] as int
  {
    seq(|s|, i requires 0 <= i < |s| => s[i] as int)
  }

  /** In ASCII text every index up to the length is a character boundary. */
  lemma AsciiCanSlice(s: Text, start: int, end: int)
    requires IsAscii(s)
    requires 0 <= start <= end <= |s|
    ensures CanSlice(s, start, end)
  {
  }
}
