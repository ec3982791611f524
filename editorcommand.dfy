/** Decoding terminal events into the editor's closed set of commands. */
module EditorCommands {
  import opened Results
  import opened Terminal
  import E = Events

  datatype Direction = PageUp | PageDown | Home | End | Up | Down | Left | Right

  datatype EditorCommand = Move(direction: Direction) | Resize(size: Size) | Quit

  /** Why an event has no command: the unsupported key code or event. */
  datatype DecodeError = KeyCodeNotSupported(code: E.KeyCode) | EventNotSupported(event: E.Event)

  /** The navigation key of each direction. */
  function KeyOf(d: Direction): (code: E.KeyCode)
    ensures code != E.Char('q')
  {
    match d
    case PageUp => E.PageUp
    case PageDown => E.PageDown
    case Home => E.Home
    case End => E.End
    case Up => E.Up
    case Down => E.Down
    case Left => E.Left
    case Right => E.Right
  }

  /** `EditorCommand::try_from(event)`. Ctrl-q (exactly the control modifier)
      quits; each navigation key moves in its own direction whatever the
      modifiers and whatever the key event's kind; a resize carries the new
      size; everything else is an error naming what was not supported. */
  function TryFrom(event: E.Event): (r: Result<EditorCommand, DecodeError>)
    ensures r == Ok(Quit) <==>
      event.Key? && event.key.code == E.Char('q') && event.key.modifiers == E.CONTROL
    ensures r.Ok? && r.value.Move? <==> event.Key? && E.IsNavigationKey(event.key.code)
    ensures r.Ok? && r.value.Move? ==> KeyOf(r.value.direction) == event.key.code
    ensures r.Ok? && r.value.Resize? <==> event.Resize?
    ensures r.Ok? && r.value.Resize? ==>
      r.value.size.width == event.width && r.value.size.height == event.height
    ensures r.Err? && event.Key? ==> r.error == KeyCodeNotSupported(event.key.code)
    ensures r.Err? && !event.Key? ==> r.error == EventNotSupported(event)
  {
    match event
    case Key(key) =>
      if key.code == E.Char('q') && key.modifiers == E.CONTROL then Ok(Quit)
      else (match key.code
        case Up => Ok(Move(Up))
        case Down => Ok(Move(Down))
        case Left => Ok(Move(Left))
        case Right => Ok(Move(Right))
        case Home => Ok(Move(Home))
        case End => Ok(Move(End))
        case PageUp => Ok(Move(PageUp))
        case PageDown => Ok(Move(PageDown))
        case _ => Err(KeyCodeNotSupported(key.code)))
    case Resize(width, height) => Ok(Resize(Size(width, height)))
    case _ => Err(EventNotSupported(event))
  }

  /** Every direction's key decodes back to that direction, whatever the
      modifiers and kind: decoding inverts `KeyOf`. */
  lemma MoveKeyRoundTrip(d: Direction, modifiers: E.KeyModifiers, kind: E.KeyEventKind)
    ensures TryFrom(E.Key(E.KeyEvent(KeyOf(d), modifiers, kind))) == Ok(Move(d))
  {
  }

  /** Distinct directions come from distinct keys. */
  lemma KeyOfInjective(d1: Direction, d2: Direction)
    requires KeyOf(d1) == KeyOf(d2)
    ensures d1 == d2
  {
  }

  /** 'q' with any modifiers other than exactly control is not a command. */
  lemma PlainQIsNotQuit(modifiers: E.KeyModifiers, kind: E.KeyEventKind)
    requires modifiers != E.CONTROL
    ensures TryFrom(E.Key(E.KeyEvent(E.Char('q'), modifiers, kind))) ==
      Err(KeyCodeNotSupported(E.Char('q')))
  {
  }

  /** Decoding is total: every event is Quit, a Move decoded from a key, a
      Resize decoded from a resize, or an error. */
  lemma DecodeIsExhaustive(event: E.Event)
    ensures TryFrom(event) == Ok(Quit) || TryFrom(event).Err? ||
      (TryFrom(event).Ok? && TryFrom(event).value.Move? && event.Key?) ||
      (TryFrom(event).Ok? && TryFrom(event).value.Resize? && event.Resize?)
  {
  }
}
