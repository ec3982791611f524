/** The document: the lines of the loaded file, in order. */
module Buffers {
  import opened Num
  import opened Results
  import opened Strings

  /** A line list whose length is a `usize`. */
  type LineSeq = s: seq<Text> | |s| <= 0xFFFF_FFFF_FFFF_FFFF

  class Buffer {
    var lines: LineSeq

    /** The default buffer holds no lines. */
    constructor ()
      ensures lines == []
      ensures IsEmpty() && NumLines() == 0
    {
      lines := [];
    }

    /** `get(index)`: the stored line, or nothing past the last line. */
    function Get(index: usize): (r: Option<Text>)
      reads this
      ensures r.Some? <==> index < |lines|
      ensures r.Some? ==> r.value == lines[index]
    {
      if index < |lines| then Some(lines[index]) else None
    }

    /** `push(line)`: appends one line, leaving every earlier line in place. */
    method Push(line: Text)
      requires |lines| < USIZE_MAX
      modifies this
      ensures lines == old(lines) + [line]
      ensures NumLines() == old(NumLines()) + 1
      ensures Get(old(NumLines())) == Some(line)
      ensures forall i :: 0 <= i < old(NumLines()) ==> Get(i) == old(Get(i))
      ensures !IsEmpty()
    {
      lines := lines + [line];
    }

    /** `is_empty()`: there are no lines. */
    function IsEmpty(): (b: bool)
      reads this
      ensures b <==> Get(0).None?
      ensures b ==> forall i: usize :: Get(i).None?
    {
      |lines| == 0
    }

    /** `num_lines()`: how many rows `Get` answers for. */
    function NumLines(): (n: usize)
      reads this
      ensures forall i: usize :: Get(i).Some? <==> i < n
    {
      |lines|
    }

    /** `line_len(row)`: the byte length of a stored line; 0 for a row past
        the last line. */
    function LineLen(row: usize): (n: usize)
      reads this
      ensures Get(row).Some? ==> n == |Get(row).value|
      ensures Get(row).None? ==> n == 0
    {
      if row < |lines| then |lines[row]| else 0
    }
  }
}
