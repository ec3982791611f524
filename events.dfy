/** The terminal input events the editor receives from the terminal library,
    reduced to the parts the editor inspects. */
module Events {
  import opened Num

  datatype KeyCode =
    | Backspace | Enter | Left | Right | Up | Down | Home | End | PageUp | PageDown
    | Tab | BackTab | Delete | Insert | F(number: u8) | Char(c: char) | Null | Esc
    | OtherKey  // caps lock, num lock, media and lone modifier keys

  /** The eight keys that move the cursor. */
  predicate IsNavigationKey(code: KeyCode) {
    code.Up? || code.Down? || code.Left? || code.Right? ||
    code.Home? || code.End? || code.PageUp? || code.PageDown?
  }

  /** The modifier flags held during a key event. */
  datatype KeyModifiers = KeyModifiers(
    shift: bool, control: bool, alt: bool, superKey: bool, hyper: bool, meta: bool)

  const NONE: KeyModifiers := KeyModifiers(false, false, false, false, false, false)

  /** Control and nothing else. */
  const CONTROL: KeyModifiers := NONE.(control := true)

  datatype KeyEventKind = Press | Repeat | Release

  datatype KeyEvent = KeyEvent(code: KeyCode, modifiers: KeyModifiers, kind: KeyEventKind)

  datatype Event =
    | FocusGained
    | FocusLost
    | Key(key: KeyEvent)
    | Mouse(column: u16, row: u16)
    | Paste(text: string)
    | Resize(width: u16, height: u16)
}
