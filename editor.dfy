/** The editor session: the quit flag, a screen-clamped caret location, and
    the view, updated event by event. */
module Editors {
  import opened Num
  import opened Results
  import opened Terminal
  import opened Events
  import Views

  /** A caret location on screen: column `x`, row `y`. */
  datatype Location = Location(x: usize, y: usize)

  predicate IsInside(location: Location, size: Size) {
    location.x < size.width && location.y < size.height
  }

  /** `move_point`: the caret after one key. Only one coordinate changes.
      Left and Up stop at 0; Right and Down go one further but never past the
      last column or row of the screen (pulling a caret that is past it back
      onto it); Home, End, PageUp and PageDown jump to the screen's edges;
      any other key leaves the caret where it is. */
  function MovePoint(keyCode: KeyCode, location: Location, size: Size): (r: Location)
    ensures keyCode.Left? || keyCode.Right? || keyCode.Home? || keyCode.End? ==> r.y == location.y
    ensures keyCode.Up? || keyCode.Down? || keyCode.PageUp? || keyCode.PageDown? ==> r.x == location.x
    ensures !IsNavigationKey(keyCode) ==> r == location
    ensures keyCode.Left? ==> (location.x == 0 ==> r.x == 0) && (location.x > 0 ==> r.x + 1 == location.x)
    ensures keyCode.Up? ==> (location.y == 0 ==> r.y == 0) && (location.y > 0 ==> r.y + 1 == location.y)
    ensures keyCode.Right? ==>
      (location.x + 1 < size.width ==> r.x == location.x + 1) &&
      (size.width <= location.x + 1 ==> r.x == SaturatingSub(size.width, 1))
    ensures keyCode.Down? ==>
      (location.y + 1 < size.height ==> r.y == location.y + 1) &&
      (size.height <= location.y + 1 ==> r.y == SaturatingSub(size.height, 1))
    ensures keyCode.Home? ==> r.x == 0
    ensures keyCode.End? ==> r.x == SaturatingSub(size.width, 1)
    ensures keyCode.PageUp? ==> r.y == 0
    ensures keyCode.PageDown? ==> r.y == SaturatingSub(size.height, 1)
  {
    var x, y := location.x, location.y;
    match keyCode
    case Left => Location(SaturatingSub(x, 1), y)
    case Right => Location(Min(SaturatingAdd(x, 1), SaturatingSub(size.width, 1)), y)
    case Up => Location(x, SaturatingSub(y, 1))
    case Down => Location(x, Min(SaturatingAdd(y, 1), SaturatingSub(size.height, 1)))
    case Home => Location(0, y)
    case End => Location(SaturatingSub(size.width, 1), y)
    case PageUp => Location(x, 0)
    case PageDown => Location(x, SaturatingSub(size.height, 1))
    case _ => location
  }

  /** On a screen with at least one cell, every key keeps a caret that is on
      the screen on the screen. */
  lemma MovePointStaysInside(keyCode: KeyCode, location: Location, size: Size)
    requires size.width >= 1 && size.height >= 1
    requires IsInside(location, size)
    ensures IsInside(MovePoint(keyCode, location, size), size)
  {
  }

  /** Right, End, Down and PageDown never leave the caret past the last
      column or row, wherever it started. */
  lemma MovePointClampsToScreen(location: Location, size: Size)
    requires size.width >= 1 && size.height >= 1
    ensures MovePoint(Right, location, size).x < size.width
    ensures MovePoint(End, location, size).x < size.width
    ensures MovePoint(Down, location, size).y < size.height
    ensures MovePoint(PageDown, location, size).y < size.height
  {
  }

  /** A key press of Ctrl-q (exactly the control modifier). */
  predicate IsQuitPress(event: Event) {
    event.Key? && event.key.kind == Press &&
    event.key.code == Char('q') && event.key.modifiers == CONTROL
  }

  /** A key press of a navigation key, with any modifiers. */
  predicate IsNavigationPress(event: Event) {
    event.Key? && event.key.kind == Press && IsNavigationKey(event.key.code)
  }

  class Editor {
    var shouldQuit: bool
    var location: Location
    var view: Views.View

    /** `Editor::default`, with the terminal's reported size as a parameter. */
    constructor (terminalSize: Result<Size, IoError>)
      ensures !shouldQuit && location == Location(0, 0)
      ensures fresh(view) && fresh(view.buffer) && view.buffer.lines == []
      ensures view.needsRedraw && view.size == terminalSize.UnwrapOr(DEFAULT_SIZE)
      ensures view.cursorPosition == Position(0, 0) && view.scrollOffset == Position(0, 0)
    {
      shouldQuit := false;
      location := Location(0, 0);
      view := new Views.View(terminalSize);
    }

    /** `evaluate_event`: only key presses act. Ctrl-q asks to quit; a
        navigation key moves the caret within the terminal's current size,
        or fails with the error of reading that size; a resize is handed to
        the view; every other event changes nothing. */
    method EvaluateEvent(event: Event, terminalSize: Result<Size, IoError>) returns (r: Result<(), IoError>)
      modifies this, view
      ensures view == old(view)
      ensures IsQuitPress(event) ==> shouldQuit && location == old(location) && r == Ok(())
      ensures IsNavigationPress(event) && terminalSize.Ok? ==>
        location == MovePoint(event.key.code, old(location), terminalSize.value) &&
        shouldQuit == old(shouldQuit) && r == Ok(())
      ensures IsNavigationPress(event) && terminalSize.Err? ==>
        location == old(location) && shouldQuit == old(shouldQuit) && r == Err(terminalSize.error)
      ensures !IsQuitPress(event) && !IsNavigationPress(event) ==>
        location == old(location) && shouldQuit == old(shouldQuit) && r == Ok(())
      ensures event.Resize? ==>
        view.size == Size(event.width, event.height) &&
        view.scrollOffset ==
          Views.UpdateScrollOffset(old(view.cursorPosition), old(view.scrollOffset), view.size) &&
        view.cursorPosition == old(view.cursorPosition) &&
        view.buffer == old(view.buffer) && view.needsRedraw
      ensures !event.Resize? ==> unchanged(view)
    {
      r := Ok(());
      match event
      case Key(key) =>
        if key.kind == Press {
          if key.code == Char('q') && key.modifiers == CONTROL {
            shouldQuit := true;
          } else if IsNavigationKey(key.code) {
            match terminalSize
            case Err(e) =>
              r := Err(e);
            case Ok(size) =>
              location := MovePoint(key.code, location, size);
          }
        }
      case Resize(width, height) =>
        view.Resize(Size(width, height));
      case _ =>
    }
  }
}
