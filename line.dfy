/** One line of text: an owned string addressed by byte ranges. */
module Lines {
  import opened Num
  import opened Strings

  datatype Line = Line(text: Text) {

    /** `len`: the length of the line in bytes. */
    function Len(): (n: usize)
      ensures n == |text|
    {
      |text|
    }

    /** `get(start..end)`: the bytes of `[start, end)` with `end` clamped to
        the length, or the empty string when that range is reversed or cuts
        a multi-byte character. Whatever it returns is a window of the line
        lying inside the requested range. */
    function Get(start: usize, end: usize): (r: Text)
      ensures |r| <= |text|
      ensures r != [] ==> start + |r| <= end && start + |r| <= |text|
      ensures r != [] ==> r == text[start..start + |r|]
    {
      var clampedEnd := Min(end, |text|);
      if CanSlice(text, start, clampedEnd) then text[start..clampedEnd] else []
    }
  }

  /** `Line::from`: the line holds the given string verbatim, so reading the
      whole range back gives that string. */
  function From(lineStr: Text): (l: Line)
    ensures l.Len() == |lineStr|
    ensures l.Get(0, |lineStr|) == lineStr
  {
    Line(lineStr)
  }

  /** An end past the line reads the same as the line's own end. */
  lemma GetClampsEnd(l: Line, start: usize, end: usize)
    requires end > l.Len()
    ensures l.Get(start, end) == l.Get(start, l.Len())
  {
  }

  /** A start past the (clamped) end gives the empty string. */
  lemma GetPastEndIsEmpty(l: Line, start: usize, end: usize)
    requires start > Min(end, l.Len())
    ensures l.Get(start, end) == []
  {
  }

  /** On ASCII text an in-bounds range gives exactly the contiguous bytes
      `[start, end)`, of length `end - start`. */
  lemma GetAsciiSlice(l: Line, start: usize, end: usize)
    requires IsAscii(l.text)
    requires start <= end <= l.Len()
    ensures l.Get(start, end) == l.text[start..end]
    ensures |l.Get(start, end)| == end - start
  {
    AsciiCanSlice(l.text, start, end);
  }

  /** The empty line yields the empty string for every range. */
  lemma GetEmptyLine(start: usize, end: usize)
    ensures From([]).Get(start, end) == []
  {
  }

  /** A range that ends inside a two-byte character ("é" is 0xC3 0xA9)
      yields the empty string rather than half a character. */
  lemma GetSplitCharacterIsEmpty()
    ensures From([0xC3, 0xA9]).Get(0, 1) == []
    ensures From([0xC3, 0xA9]).Get(0, 2) == [0xC3, 0xA9]
  {
  }

  /** The slices the unit tests of the line expect. */
  lemma HelloWorldSlices()
    ensures From(Bytes("Hello, world!")).Len() == 13
    ensures From(Bytes("Hello, world!")).Get(0, 0) == []
    ensures From(Bytes("Hello, world!")).Get(0, 1) == Bytes("H")
    ensures From(Bytes("Hello, world!")).Get(0, 12) == Bytes("Hello, world")
    ensures From(Bytes("Hello, world!")).Get(0, 13) == Bytes("Hello, world!")
    ensures From(Bytes("Hello, world!")).Get(0, 14) == Bytes("Hello, world!")
    ensures From(Bytes("Hello, world!")).Get(1, 14) == Bytes("ello, world!")
    ensures From(Bytes("Hello, world!")).Get(14, 16) == []
  {
    var s := Bytes("Hello, world!");
    var l := From(s);
    GetAsciiSlice(l, 0, 1);
    GetAsciiSlice(l, 0, 12);
    GetAsciiSlice(l, 1, 13);
    assert s[0..1] == Bytes("H");
    assert s[0..12] == Bytes("Hello, world");
    assert s[1..13] == Bytes("ello, world!");
  }
}
