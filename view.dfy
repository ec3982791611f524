/** The view: the cursor in document coordinates, the scroll offset of the
    window over the document, the window size, and what one redraw shows. */
module Views {
  import opened Num
  import opened Results
  import opened Strings
  import opened Terminal
  import opened Buffers
  import opened EditorCommands
  import Lines

  /** The cursor lies in the `size` window whose top-left cell is `offset`. */
  predicate IsVisible(cursor: Position, offset: Position, size: Size) {
    offset.row <= cursor.row < offset.row + size.height &&
    offset.col <= cursor.col < offset.col + size.width
  }

  /** `update_cursor_position`: the cursor after one move. Only one
      coordinate changes; Left and Up stop at 0; Right and Down go one
      further (saturating) without looking at the document; End goes to the
      last byte of the current line and PageDown to the last line. */
  function UpdateCursorPosition(cursor: Position, direction: Direction, buffer: Buffer): (p: Position)
    reads buffer
    ensures direction.Left? || direction.Right? || direction.Home? || direction.End? ==>
      p.row == cursor.row
    ensures direction.Up? || direction.Down? || direction.PageUp? || direction.PageDown? ==>
      p.col == cursor.col
    ensures direction.Left? ==> (cursor.col == 0 ==> p.col == 0) && (cursor.col > 0 ==> p.col + 1 == cursor.col)
    ensures direction.Right? ==> (cursor.col < USIZE_MAX ==> p.col == cursor.col + 1) && (cursor.col == USIZE_MAX ==> p.col == cursor.col)
    ensures direction.Up? ==> (cursor.row == 0 ==> p.row == 0) && (cursor.row > 0 ==> p.row + 1 == cursor.row)
    ensures direction.Down? ==> (cursor.row < USIZE_MAX ==> p.row == cursor.row + 1) && (cursor.row == USIZE_MAX ==> p.row == cursor.row)
    ensures direction.Home? ==> p.col == 0
    ensures direction.End? ==>
      (buffer.LineLen(cursor.row) == 0 ==> p.col == 0) &&
      (buffer.LineLen(cursor.row) > 0 ==> p.col + 1 == buffer.LineLen(cursor.row))
    ensures direction.PageUp? ==> p.row == 0
    ensures direction.PageDown? ==>
      (buffer.IsEmpty() ==> p.row == 0) &&
      (!buffer.IsEmpty() ==> buffer.Get(p.row).Some? && buffer.Get(p.row + 1).None?)
  {
    var row, col := cursor.row, cursor.col;
    match direction
    case Left => Position(SaturatingSub(col, 1), row)
    case Right => Position(SaturatingAdd(col, 1), row)
    case Up => Position(col, SaturatingSub(row, 1))
    case Down => Position(col, SaturatingAdd(row, 1))
    case Home => Position(0, row)
    case End => Position(SaturatingSub(buffer.LineLen(row), 1), row)
    case PageUp => Position(col, 0)
    case PageDown => Position(col, SaturatingSub(buffer.NumLines(), 1))
  }

  /** `update_scroll_offset`: the lazy scroll rule. On each axis the offset
      stays put while the cursor is inside the window, moves back exactly to
      the cursor when it is before the window, and moves forward exactly far
      enough to show it when it is past the window; a zero extent pins the
      offset to the cursor. */
  function UpdateScrollOffset(cursor: Position, offset: Position, size: Size): (r: Position)
    ensures size.height > 0 ==> r.row <= cursor.row < r.row + size.height
    ensures size.width > 0 ==> r.col <= cursor.col < r.col + size.width
    ensures offset.row <= cursor.row < offset.row + size.height ==> r.row == offset.row
    ensures offset.col <= cursor.col < offset.col + size.width ==> r.col == offset.col
    ensures cursor.row < offset.row ==> r.row == cursor.row
    ensures cursor.col < offset.col ==> r.col == cursor.col
    ensures size.height > 0 && offset.row + size.height <= cursor.row ==> r.row + size.height == cursor.row + 1
    ensures size.width > 0 && offset.col + size.width <= cursor.col ==> r.col + size.width == cursor.col + 1
    ensures size.height == 0 ==> r.row == cursor.row
    ensures size.width == 0 ==> r.col == cursor.col
  {
    var dy := Max(Min(offset.row, cursor.row), SaturatingSub(cursor.row, SaturatingSub(size.height, 1)));
    var dx := Max(Min(offset.col, cursor.col), SaturatingSub(cursor.col, SaturatingSub(size.width, 1)));
    Position(dx, dy)
  }

  /** `get_cursor_position`: the cursor relative to the window, saturating
      at 0 on an axis where the cursor lies before the offset. */
  function GetCursorPosition(cursor: Position, offset: Position): (p: Position)
    ensures offset.col <= cursor.col ==> p.col + offset.col == cursor.col
    ensures cursor.col < offset.col ==> p.col == 0
    ensures offset.row <= cursor.row ==> p.row + offset.row == cursor.row
    ensures cursor.row < offset.row ==> p.row == 0
  {
    Position(SaturatingSub(cursor.col, offset.col), SaturatingSub(cursor.row, offset.row))
  }

  /** After scrolling for a window of non-zero size, the cursor is visible
      and its on-screen position is inside the window and adds back to it. */
  lemma CursorOnScreenAfterScroll(cursor: Position, offset: Position, size: Size)
    requires size.width >= 1 && size.height >= 1
    ensures IsVisible(cursor, UpdateScrollOffset(cursor, offset, size), size)
    ensures GetCursorPosition(cursor, UpdateScrollOffset(cursor, offset, size)).col < size.width
    ensures GetCursorPosition(cursor, UpdateScrollOffset(cursor, offset, size)).row < size.height
    ensures GetCursorPosition(cursor, UpdateScrollOffset(cursor, offset, size)).col +
      UpdateScrollOffset(cursor, offset, size).col == cursor.col
    ensures GetCursorPosition(cursor, UpdateScrollOffset(cursor, offset, size)).row +
      UpdateScrollOffset(cursor, offset, size).row == cursor.row
  {
  }

  /** Scrolling is lazy: a visible cursor never moves the window, so a second
      scroll for the same cursor and size changes nothing. */
  lemma ScrollIsIdempotent(cursor: Position, offset: Position, size: Size)
    ensures IsVisible(cursor, offset, size) ==> UpdateScrollOffset(cursor, offset, size) == offset
    ensures UpdateScrollOffset(cursor, UpdateScrollOffset(cursor, offset, size), size) ==
      UpdateScrollOffset(cursor, offset, size)
  {
  }

  /** The scroll is the smallest that shows the cursor: no offset that keeps
      the cursor visible lies closer to the old offset on either axis. */
  lemma ScrollIsMinimal(cursor: Position, offset: Position, size: Size, other: Position)
    requires IsVisible(cursor, other, size)
    ensures var r := UpdateScrollOffset(cursor, offset, size);
      Distance(r.row, offset.row) <= Distance(other.row, offset.row) &&
      Distance(r.col, offset.col) <= Distance(other.col, offset.col)
  {
  }

  function Distance(a: int, b: int): nat {
    if a <= b then b - a else a - b
  }

  /** Opposite moves undo each other away from the saturation points, and
      the jumps (Home, End, PageUp, PageDown) are idempotent. */
  lemma MovesInvertAndJumpsSettle(cursor: Position, buffer: Buffer)
    ensures cursor.col < USIZE_MAX ==>
      UpdateCursorPosition(UpdateCursorPosition(cursor, Right, buffer), Left, buffer) == cursor
    ensures cursor.col > 0 ==>
      UpdateCursorPosition(UpdateCursorPosition(cursor, Left, buffer), Right, buffer) == cursor
    ensures cursor.row < USIZE_MAX ==>
      UpdateCursorPosition(UpdateCursorPosition(cursor, Down, buffer), Up, buffer) == cursor
    ensures cursor.row > 0 ==>
      UpdateCursorPosition(UpdateCursorPosition(cursor, Up, buffer), Down, buffer) == cursor
    ensures forall d: Direction :: d.Home? || d.End? || d.PageUp? || d.PageDown? ==>
      UpdateCursorPosition(UpdateCursorPosition(cursor, d, buffer), d, buffer) ==
      UpdateCursorPosition(cursor, d, buffer)
  {
  }

  /** The row drawn where the document has no line. */
  const TILDE: Text := [0x7E]

  /** What one row of a redraw turns out to be: its text, or a panic. */
  datatype RowOutcome = Shown(text: Text) | Panic

  /** Row `current` of a redraw (`render_buffer`'s loop body). It shows the
      document line `current + offset.row`, or "~" past the last line. A line
      longer than the window is cut to the `width` bytes from `offset.col`;
      a line that fits is shown whole, unscrolled. The row panics when the
      row index overflows, or when a long line cannot be cut there: the
      window end overflows, runs past the line, or splits a character. */
  function RenderRow(buffer: Buffer, offset: Position, size: Size, current: usize): (o: RowOutcome)
    reads buffer
    ensures USIZE_MAX < current + offset.row ==> o.Panic?
    ensures current + offset.row <= USIZE_MAX && buffer.Get(current + offset.row).None? ==>
      o == Shown(TILDE)
    ensures current + offset.row <= USIZE_MAX && buffer.Get(current + offset.row).Some? ==>
      var line := buffer.Get(current + offset.row).value;
      (|line| <= size.width ==> o == Shown(line)) &&
      (|line| > size.width && o.Shown? ==>
        offset.col + size.width <= |line| && |o.text| == size.width &&
        o.text == line[offset.col..offset.col + size.width]) &&
      (|line| > size.width && IsAscii(line) ==>
        (o.Panic? <==> |line| < offset.col + size.width))
  {
    if USIZE_MAX < current + offset.row then Panic
    else match buffer.Get(current + offset.row)
      case None => Shown(TILDE)
      case Some(line) =>
        if |line| > size.width then
          if USIZE_MAX < offset.col + size.width || !CanSlice(line, offset.col, offset.col + size.width)
          then Panic
          else Shown(line[offset.col..offset.col + size.width])
        else Shown(line)
  }

  /** `rows` are the rows of a redraw, in order, up to the first panic:
      all `height` of them, or fewer and then the next row panics. */
  ghost predicate IsRenderOf(buffer: Buffer, offset: Position, size: Size, rows: seq<Text>, panicked: bool)
    reads buffer
  {
    |rows| <= size.height &&
    (forall i :: 0 <= i < |rows| ==> RenderRow(buffer, offset, size, i) == Shown(rows[i])) &&
    (panicked <==> |rows| < size.height) &&
    (panicked ==> RenderRow(buffer, offset, size, |rows|).Panic?)
  }

  /** The row-selection loop of `render_buffer` over `0..height`. */
  method SelectRows(buffer: Buffer, offset: Position, size: Size) returns (rows: seq<Text>, panicked: bool)
    ensures IsRenderOf(buffer, offset, size, rows, panicked)
    ensures !panicked ==> |rows| == size.height
  {
    rows, panicked := [], false;
    var current: usize := 0;
    while current < size.height
      invariant current <= size.height
      invariant |rows| == current
      invariant forall i :: 0 <= i < current ==> RenderRow(buffer, offset, size, i) == Shown(rows[i])
    {
      var outcome := RenderRow(buffer, offset, size, current);
      if outcome.Panic? {
        panicked := true;
        return;
      }
      rows := rows + [outcome.text];
      current := current + 1;
    }
  }

  /** A rendered row of a buffer with lines is always a window of at most
      `width` bytes of its line or the "~" placeholder. */
  lemma RenderedRowsFit(buffer: Buffer, offset: Position, size: Size, rows: seq<Text>, panicked: bool)
    requires IsRenderOf(buffer, offset, size, rows, panicked)
    ensures forall i :: 0 <= i < |rows| ==> |rows[i]| <= size.width || rows[i] == TILDE
  {
    forall i | 0 <= i < |rows|
      ensures |rows[i]| <= size.width || rows[i] == TILDE
    {
      assert RenderRow(buffer, offset, size, i) == Shown(rows[i]);
    }
  }

  /** A line that is too long for the window and whose window runs past its
      end makes the redraw panic, and the view gets there: Right is not
      bounded by the line. On the 13-byte line "Hello, world!" in a
      10-column window, nine Right presses from the origin leave the window
      at offset 0; each further press scrolls it by one. At column 12
      (offset 3) the row is the cut `[3, 13)`; the press to column 13 moves
      the offset to 4, and the cut `[4, 14)` runs past the line. */
  lemma RenderPanicsPastLineEnd(buffer: Buffer)
    requires buffer.lines == [Bytes("Hello, world!")]
    ensures UpdateCursorPosition(Position(9, 0), Right, buffer) == Position(10, 0)
    ensures UpdateScrollOffset(Position(9, 0), Position(0, 0), Size(10, 3)) == Position(0, 0)
    ensures UpdateScrollOffset(Position(10, 0), Position(0, 0), Size(10, 3)) == Position(1, 0)
    ensures UpdateScrollOffset(Position(11, 0), Position(1, 0), Size(10, 3)) == Position(2, 0)
    ensures UpdateScrollOffset(Position(12, 0), Position(2, 0), Size(10, 3)) == Position(3, 0)
    ensures RenderRow(buffer, Position(3, 0), Size(10, 3), 0).Shown?
    ensures UpdateCursorPosition(Position(12, 0), Right, buffer) == Position(13, 0)
    ensures UpdateScrollOffset(Position(13, 0), Position(3, 0), Size(10, 3)) == Position(4, 0)
    ensures RenderRow(buffer, Position(4, 0), Size(10, 3), 0) == Panic
  {
    AsciiCanSlice(buffer.lines[0], 3, 13);
  }

  /** The evidently intended row: the window `[col, col + width)` of the line
      read through `Line::get`, which clamps instead of panicking and scrolls
      short lines like long ones. */
  function ClippedRow(line: Text, col: usize, width: usize): (r: Text)
    ensures |r| <= width
  {
    Lines.From(line).Get(col, SaturatingAdd(col, width))
  }

  /** The clipped row never fails and, on ASCII text, is exactly the part of
      the window that the line covers: empty for a window that starts past
      the end of the line. */
  lemma ClippedRowIsWindow(line: Text, col: usize, width: usize)
    requires IsAscii(line)
    ensures ClippedRow(line, col, width) ==
      if col <= |line| then line[col..Min(col + width, |line|)] else []
  {
    var l := Lines.From(line);
    var end := SaturatingAdd(col, width);
    if col > |line| {
      Lines.GetPastEndIsEmpty(l, col, end);
    } else if end > l.Len() {
      Lines.GetClampsEnd(l, col, end);
      Lines.GetAsciiSlice(l, col, l.Len());
    } else {
      Lines.GetAsciiSlice(l, col, end);
    }
  }

  /** Where `render_welcome_message` prints the message, and the message as
      printed. */
  datatype WelcomeMessage = WelcomeMessage(at: Position, message: Text)

  /** The welcome message cut to the window width, centred horizontally (the
      two margins differ by at most one cell, the right one being the wider)
      on the row a third of the way down. */
  function WelcomePlacement(size: Size, message: Text): (w: WelcomeMessage)
    requires size.width < |message| ==> IsCharBoundary(message, size.width)
    ensures |w.message| == Min(|message|, size.width)
    ensures w.message == message[..|w.message|]
    ensures w.at.col + |w.message| + w.at.col <= size.width <= w.at.col + |w.message| + w.at.col + 1
    ensures 3 * w.at.row <= size.height < 3 * w.at.row + 3
  {
    var shown := if size.width < |message| then message[..size.width] else message;
    WelcomeMessage(Position(SaturatingSub(size.width, |shown|) / 2, size.height / 3), shown)
  }

  /** What one call of `render` produced. */
  datatype Frame =
    | Skipped
    | Welcome(welcome: WelcomeMessage)
    | Rows(rows: seq<Text>, panicked: bool)

  class View {
    var buffer: Buffer
    var needsRedraw: bool
    var size: Size
    var cursorPosition: Position
    var scrollOffset: Position

    /** `View::default`, with the terminal's reported size as a parameter. */
    constructor (terminalSize: Result<Size, IoError>)
      ensures fresh(buffer) && buffer.lines == []
      ensures needsRedraw
      ensures size == terminalSize.UnwrapOr(DEFAULT_SIZE)
      ensures cursorPosition == Position(0, 0) && scrollOffset == Position(0, 0)
    {
      buffer := new Buffer();
      needsRedraw := true;
      size := terminalSize.UnwrapOr(DEFAULT_SIZE);
      cursorPosition := Position(0, 0);
      scrollOffset := Position(0, 0);
    }

    /** `render`: nothing unless a redraw is pending; the welcome message for
        an empty buffer (which leaves the redraw pending); otherwise the
        buffer's rows, after which no redraw is pending unless a row panicked. */
    method Render(welcome: Text) returns (frame: Frame)
      requires needsRedraw && buffer.IsEmpty() && size.width < |welcome| ==>
        IsCharBoundary(welcome, size.width)
      modifies this
      ensures buffer == old(buffer) && size == old(size)
      ensures cursorPosition == old(cursorPosition) && scrollOffset == old(scrollOffset)
      ensures !old(needsRedraw) ==> frame == Skipped && !needsRedraw
      ensures old(needsRedraw) && buffer.IsEmpty() ==>
        frame == Welcome(WelcomePlacement(size, welcome)) && needsRedraw
      ensures old(needsRedraw) && !buffer.IsEmpty() ==>
        frame.Rows? && IsRenderOf(buffer, scrollOffset, size, frame.rows, frame.panicked) &&
        needsRedraw == frame.panicked
    {
      if !needsRedraw {
        return Skipped;
      }
      if buffer.IsEmpty() {
        frame := Welcome(WelcomePlacement(size, welcome));
      } else {
        var rows, panicked := RenderBuffer();
        frame := Rows(rows, panicked);
      }
    }

    /** `load`: takes the loaded buffer, or keeps the old one when loading
        failed; a redraw is pending either way. */
    method Load(loaded: Result<Buffer, IoError>)
      modifies this
      ensures loaded.Ok? ==> buffer == loaded.value
      ensures loaded.Err? ==> buffer == old(buffer)
      ensures needsRedraw
      ensures size == old(size)
      ensures cursorPosition == old(cursorPosition) && scrollOffset == old(scrollOffset)
    {
      if loaded.Ok? {
        buffer := loaded.value;
      }
      needsRedraw := true;
    }

    /** `resize`: stores the new size and re-scrolls for the unchanged cursor,
        which is then visible in a window of non-zero size. */
    method Resize(to: Size)
      modifies this
      ensures size == to
      ensures scrollOffset == UpdateScrollOffset(cursorPosition, old(scrollOffset), to)
      ensures to.width >= 1 && to.height >= 1 ==> IsVisible(cursorPosition, scrollOffset, size)
      ensures needsRedraw
      ensures buffer == old(buffer) && cursorPosition == old(cursorPosition)
    {
      size := to;
      scrollOffset := UpdateScrollOffset(cursorPosition, scrollOffset, to);
      needsRedraw := true;
    }

    /** `handle_command`: moves, resizes, or ignores Quit. */
    method HandleCommand(command: EditorCommand, terminalSize: Result<Size, IoError>)
      modifies this
      ensures buffer == old(buffer)
      ensures command.Move? ==>
        cursorPosition == UpdateCursorPosition(old(cursorPosition), command.direction, buffer) &&
        scrollOffset == UpdateScrollOffset(cursorPosition, old(scrollOffset), terminalSize.UnwrapOr(DEFAULT_SIZE)) &&
        size == old(size) && needsRedraw
      ensures command.Resize? ==>
        size == command.size && cursorPosition == old(cursorPosition) &&
        scrollOffset == UpdateScrollOffset(cursorPosition, old(scrollOffset), command.size) && needsRedraw
      ensures command.Quit? ==>
        size == old(size) && cursorPosition == old(cursorPosition) &&
        scrollOffset == old(scrollOffset) && needsRedraw == old(needsRedraw)
    {
      match command
      case Move(direction) => MoveCursor(direction, terminalSize);
      case Resize(to) => Resize(to);
      case Quit =>
    }

    /** `move_cursor`: moves the cursor and scrolls it into a window of the
        terminal's current size, which is not stored as the view's size. */
    method MoveCursor(direction: Direction, terminalSize: Result<Size, IoError>)
      modifies this
      ensures cursorPosition == UpdateCursorPosition(old(cursorPosition), direction, buffer)
      ensures scrollOffset ==
        UpdateScrollOffset(cursorPosition, old(scrollOffset), terminalSize.UnwrapOr(DEFAULT_SIZE))
      ensures var s := terminalSize.UnwrapOr(DEFAULT_SIZE);
        s.width >= 1 && s.height >= 1 ==> IsVisible(cursorPosition, scrollOffset, s)
      ensures needsRedraw
      ensures buffer == old(buffer) && size == old(size)
    {
      var s := terminalSize.UnwrapOr(DEFAULT_SIZE);
      cursorPosition := UpdateCursorPosition(cursorPosition, direction, buffer);
      scrollOffset := UpdateScrollOffset(cursorPosition, scrollOffset, s);
      needsRedraw := true;
    }

    /** `render_buffer`: draws the window's rows and then clears the pending
        redraw; a panicking row stops the redraw with it still pending. */
    method RenderBuffer() returns (rows: seq<Text>, panicked: bool)
      modifies this
      ensures IsRenderOf(buffer, scrollOffset, size, rows, panicked)
      ensures needsRedraw == (panicked && old(needsRedraw))
      ensures buffer == old(buffer) && size == old(size)
      ensures cursorPosition == old(cursorPosition) && scrollOffset == old(scrollOffset)
    {
      rows, panicked := SelectRows(buffer, scrollOffset, size);
      if !panicked {
        needsRedraw := false;
      }
    }
  }
}
