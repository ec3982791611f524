# hecto core: lines, buffer, command decoding, cursor and viewport

A Dafny model of the byte-indexed core of the `hecto` terminal text editor:

- a **line**: one owned string, read back by clamped byte ranges;
- the **buffer**: the document's lines in order, which can only be appended to;
- **command decoding**: turning terminal events (keys, resizes) into the closed set
  of editor commands (`Move(direction)`, `Resize(size)`, `Quit`);
- the **view**: the cursor in document coordinates, the lazily maintained scroll
  offset that keeps it inside the `width × height` window, the pending-redraw
  flag, and what one redraw shows (the document rows, `~` past the end, or the
  centred welcome message for an empty buffer);
- the **editor**: the older screen-clamped caret move `move_point` and the
  per-event state update (quit flag, caret, resize forwarded to the view).

Strings are their UTF-8 bytes (`Strings.Text`), and slicing follows the
character-boundary rule of Rust strings: a range is readable only if it is in
bounds and neither end falls on a continuation byte. Indices and sizes are
64-bit `usize` values, and the source's saturating additions and subtractions are
written out (`Num.SaturatingAdd`, `Num.SaturatingSub`).

Modules follow the source files: `Lines` (src/editor/view/line.rs), `Buffers`
(src/editor/view/buffer.rs), `EditorCommands` (src/editor/editorcommand.rs),
`Views` (src/editor/view.rs), `Editors` (src/editor.rs). `Terminal` holds only the
`Size` and `Position` records of src/editor/terminal.rs, and `Events` holds the
terminal library's event types as far as the editor inspects them. `Line`,
`move_point`, the cursor and scroll rules and command decoding are pure functions.
`Buffer`, `View` and `Editor` are classes whose methods update their fields in
place. The view's pure helpers take the view fields they read as parameters.

Where the code differs from the editor's intended design, the model follows the
code:
- End goes to `line_len - 1`, not past the last byte.
- Right and Down are not bounded by the document.
- PageUp and PageDown jump to the first and last line rather than by a screen.
- A line that fits the window is drawn whole, ignoring the horizontal offset.

## Model

| member | source | states |
|---|---|---|
| `Lines.Line.Get` | src/editor/view/line.rs:13-17 | the result is empty or a window of the line's bytes that starts at `start` and ends by both `end` and the line's length |
| `Lines.Line.Len` | src/editor/view/line.rs:19-21 | the byte length of the stored string; `From` gives it the length of the string it was made from |
| `Lines.From` | src/editor/view/line.rs:9-11 | the line has the string's byte length and reading `0..len` gives the string back verbatim |
| `Lines.GetClampsEnd` | src/editor/view/line.rs:15 | an end past the line reads the same as the line's own end |
| `Lines.GetPastEndIsEmpty` | src/editor/view/line.rs:16 | a start past the clamped end yields the empty string |
| `Lines.GetAsciiSlice` | src/editor/view/line.rs:13-17 | on ASCII text, `start <= end <= len` yields exactly bytes `[start, end)`, of length `end - start` |
| `Lines.GetEmptyLine` | src/editor/view/line.rs:28-35 | the empty line yields the empty string for every range |
| `Lines.GetSplitCharacterIsEmpty` | src/editor/view/line.rs:16 | a range ending inside a two-byte character yields the empty string; the whole character is readable |
| `Lines.HelloWorldSlices` | src/editor/view/line.rs:37-53 | "Hello, world!" has length 13, and each range the unit tests read gives the slice they expect |
| `Buffers.Buffer.constructor` | src/editor/view/buffer.rs:1-4 | the default buffer has no lines and is empty |
| `Buffers.Buffer.Get` | src/editor/view/buffer.rs:7-9 | `get(i)` is `Some(lines[i])` exactly when `i` is below the line count, else `None` |
| `Buffers.Buffer.Push` | src/editor/view/buffer.rs:11-13 | push appends exactly one line, which is the new last line; every earlier line is unchanged; the buffer is then not empty |
| `Buffers.Buffer.IsEmpty` | src/editor/view/buffer.rs:15-17 | empty exactly when `get` finds no line, at index 0 or anywhere |
| `Buffers.Buffer.NumLines` | src/editor/view.rs:99 | the line count is the bound below which `get` finds a line |
| `Buffers.Buffer.LineLen` | src/editor/view.rs:93 | the byte length of the stored line, and 0 for a row past the last line |
| `EditorCommands.TryFrom` | src/editor/editorcommand.rs:23-49 | Quit iff Ctrl-q with exactly the control modifier; Move iff a navigation key, with that key's direction; Resize iff a resize event, carrying both values; every other key is an unsupported-key error and every other event an unsupported-event error |
| `EditorCommands.MoveKeyRoundTrip` | src/editor/editorcommand.rs:31-38 | each direction's key decodes to that direction whatever the modifiers and event kind |
| `EditorCommands.KeyOfInjective` | src/editor/editorcommand.rs:31-38 | distinct directions come from distinct keys |
| `EditorCommands.PlainQIsNotQuit` | src/editor/editorcommand.rs:30-39 | 'q' with any modifiers other than exactly control is an unsupported-key error |
| `EditorCommands.DecodeIsExhaustive` | src/editor/editorcommand.rs:26-47 | every event decodes to Quit, a Move from a key, a Resize from a resize, or an error |
| `Views.UpdateCursorPosition` | src/editor/view.rs:74-103 | one coordinate changes per move; Left/Up saturate at 0; Right/Down add one (saturating) and are not bounded by the document; Home gives column 0; End gives the last byte of the line (0 for an empty or missing line); PageUp gives row 0; PageDown gives the last line (0 for an empty buffer) |
| `Views.MovesInvertAndJumpsSettle` | src/editor/view.rs:77-100 | Right then Left, Left then Right, Down then Up and Up then Down restore the cursor away from saturation; Home, End, PageUp and PageDown are idempotent |
| `Views.UpdateScrollOffset` | src/editor/view.rs:105-126 | for a non-zero extent the cursor lies in `[d, d+extent)` on both axes; an axis whose cursor is already in the old window keeps its offset; a cursor before the window pulls the offset exactly to it, a cursor past it pushes the offset exactly far enough; a zero extent pins the offset to the cursor |
| `Views.GetCursorPosition` | src/editor/view.rs:64-72 | the cursor minus the offset on each axis, or 0 where the cursor lies before the offset |
| `Views.CursorOnScreenAfterScroll` | src/editor/view.rs:105-126 | after scrolling for a non-zero size the cursor is visible, its screen position is below width and height and adds back to the cursor |
| `Views.ScrollIsIdempotent` | src/editor/view.rs:113-123 | a visible cursor never moves the window; scrolling twice for the same cursor and size equals scrolling once |
| `Views.ScrollIsMinimal` | src/editor/view.rs:113-123 | no offset that shows the cursor is closer to the old offset on either axis |
| `Views.RenderRow` | src/editor/view.rs:132-142 | row `i` shows line `i + dy`, or "~" past the last line; a line that fits is shown whole; a longer line is cut to exactly `width` bytes from `dx`; the row panics on index overflow and, for ASCII lines, exactly when the cut runs past the line |
| `Views.SelectRows` | src/editor/view.rs:132-143 | the rows of a redraw are the rows for `0..height` in order, all of them unless one panics, in which case they stop just before it |
| `Views.RenderedRowsFit` | src/editor/view.rs:134-141 | every drawn row is at most `width` bytes or the "~" placeholder |
| `Views.RenderPanicsPastLineEnd` | src/editor/view.rs:134-135 | with line "Hello, world!" in a 10-column window, Right presses from the origin scroll the offset one by one from column 10; at column 12 (offset 3) row 0 is still drawn, and the press to column 13 moves the offset to 4, where row 0 panics |
| `Views.ClippedRow` | src/editor/view.rs:134-138 | the corrected row never fails and is at most `width` bytes |
| `Views.ClippedRowIsWindow` | src/editor/view/line.rs:13-17 | on ASCII text the corrected row is exactly the part of `[dx, dx+width)` the line covers, and empty when the window starts past the end of the line |
| `Views.WelcomePlacement` | src/editor/view.rs:152-157 | the message is cut to the width, its two margins differ by at most one cell, and it stands on the row a third of the way down |
| `Views.View.constructor` | src/editor/view.rs:164-173 | a fresh empty buffer, redraw pending, the terminal's size or 0×0, cursor and offset at the origin |
| `Views.View.Render` | src/editor/view.rs:22-33 | nothing when no redraw is pending; the welcome message for an empty buffer, still pending (the message must be cuttable at the width only then); otherwise the buffer's rows, with the redraw cleared unless a row panicked |
| `Views.View.Load` | src/editor/view.rs:35-40 | the loaded buffer replaces the old one; on a failed load the old buffer stays; the redraw is pending either way; cursor, offset and size are unchanged |
| `Views.View.Resize` | src/editor/view.rs:42-47 | the size is stored, the offset is re-scrolled for the unchanged cursor, which is then visible in a non-zero window, and the redraw is pending |
| `Views.View.HandleCommand` | src/editor/view.rs:49-55 | Move moves and scrolls, Resize resizes, Quit changes nothing |
| `Views.View.MoveCursor` | src/editor/view.rs:57-62 | the cursor moves one step, the offset is scrolled for the terminal's current size (the view's stored size is unchanged), the cursor is then visible in a non-zero window, and the redraw is pending |
| `Views.View.RenderBuffer` | src/editor/view.rs:128-145 | the rows of the window are drawn in order and the pending redraw is cleared unless a row panicked |
| `Editors.MovePoint` | src/editor.rs:105-140 | one coordinate changes per key; Left/Up saturate at 0; Right/Down add one but stop at the last column/row; Home/End/PageUp/PageDown jump to the screen's edges; other keys leave the caret unchanged |
| `Editors.MovePointStaysInside` | src/editor.rs:105-140 | on a screen with at least one cell, a caret on the screen stays on it after any key |
| `Editors.MovePointClampsToScreen` | src/editor.rs:116-136 | Right, End, Down and PageDown never leave the caret past the last column or row, wherever it started |
| `Editors.Editor.constructor` | src/editor.rs:18-23 | not quitting, the caret at the origin, a default view |
| `Editors.Editor.EvaluateEvent` | src/editor.rs:49-84 | only key presses act: Ctrl-q sets the quit flag; a navigation key moves the caret by `MovePoint` for the terminal size or returns that size's read error; a resize goes to the view; every other event changes nothing |

## Left out

- Terminal I/O (src/editor/terminal.rs): raw mode, queued escape sequences, flushing, and the `u16` casts in `move_cursor_to`. Only `Size` and `Position` are kept.
- The entry point and its error printing (src/main.rs), and `Editor::run`, `repl`, `refresh_screen` and `handle_args`. These are the blocking event loop, terminal output and argument handling. `Editor::new`, which src/main.rs calls, is not defined in src/editor.rs and is not part of this model.
- `Terminal::size()` becomes a `Result<Size, IoError>` parameter of the `View` and `Editor` constructors, `MoveCursor`, `HandleCommand` and `EvaluateEvent`.
- The 0×0 size that `unwrap_or_default` gives on a failed size query is an assumption. `Size` in src/editor/terminal.rs:7-11 derives no `Default`; 0×0 is what a derived one would give.
- `Buffer::load` is not part of this model; `View.Load` takes its outcome, a buffer or an I/O error, as a parameter.
- `render_line`, `Terminal::print_row` and the printing in `render_welcome_message`: a redraw returns what it would print (a `Frame`) instead. The `debug_assert!`s on terminal results are left out with them.
- The crate name and version of the welcome message come from the build manifest, which is not part of this model. The message is a parameter, required to be cuttable at the window width as `String::truncate` demands.
- Buffers.Buffer.LineLen: the value 0 for a row past the last line is an assumption. `line_len`, `num_lines` and `get_line` are called in src/editor/view.rs but not defined in src/editor/view/buffer.rs. `get_line` is taken to be `get`.
- `Position` is imported from a `position` module that is not part of this model; the `Position` of src/editor/terminal.rs is used instead.
- Buffers.Buffer.Push requires fewer than `usize::MAX` lines. Rust panics on capacity overflow long before that, and that panic is not modelled.
- Decoding errors carry the unsupported key code or event instead of the `Debug`-formatted message string.
- Terminal events keep only what the editor reads: key code, modifiers and kind. The key-event state and the mouse event's details are dropped, and rarely used key codes are merged into one `OtherKey`.
- Views.RenderRow: overflow of `current + row` and `col + width` is modelled as a panic, as in a debug build; the wrap-around of a release build is not modelled.
- Views.RenderRow: the exact panic condition is stated for ASCII lines only; for other lines the contract says only what a row shows when it does not panic.
- Lines.Line.Get: its contract says the result is empty or a window of the requested range; the exact slice is proved for ASCII text (`GetAsciiSlice`), and for other text the character-boundary rule decides.
- Grapheme clusters and display widths: the code indexes bytes, so the model has none of them.

## Findings

| source | as written | input that shows it | evidently intended | confidence | as-written member | corrected member |
|---|---|---|---|---|---|---|
| src/editor/view.rs:134-135 | a line longer than the window is cut with `&line[col..col + width]`, which panics when `col + width` passes the line's end; shorter lines are drawn whole, ignoring `col` | buffer `["Hello, world!"]`, window 10×3, thirteen Right presses from the origin: the cursor reaches column 13, the offset becomes 4 and the cut `[4, 14)` runs past the 13-byte line | read the window through the clamping `Line::get(col..col + width)`: never fails, at most `width` bytes, the part of the window the line covers | medium, not executed | `Views.RenderPanicsPastLineEnd` | `Views.ClippedRowIsWindow` |

The view keeps the as-written `render_buffer` behaviour (`Views.RenderRow`), with the panic as an explicit outcome.
