/**
 * The keyboard and mouse state of src/input/input_manager.rs: the last
 * state of every key and mouse button seen, the keys updated during the
 * current frame, and the accumulated mouse-wheel delta.
 */
module Input {

  /** A physical key code (winit's `KeyCode`). */
  type KeyCode = nat

  /** winit's `ElementState`, also used as the key state. */
  datatype ElementState = Pressed | Released

  datatype MouseButton = Left | Right | Middle | Back | Forward | OtherButton(code: nat)

  datatype PhysicalKey = Code(code: KeyCode) | Unidentified

  datatype ScrollDelta = LineDelta(lx: real, ly: real) | PixelDelta(px: real, py: real)

  /** The window events the manager distinguishes; every other event is `OtherEvent`. */
  datatype WindowEvent =
    | KeyboardInput(key: PhysicalKey, state: ElementState)
    | CursorMoved
    | MouseWheel(delta: ScrollDelta)
    | MouseInput(button: MouseButton, buttonState: ElementState)
    | OtherEvent

  /** The vertical scroll amount of a wheel event. */
  function ScrollY(d: ScrollDelta): (y: real)
    ensures d.LineDelta? ==> y == d.ly
    ensures d.PixelDelta? ==> y == d.py
  {
    match d
    case LineDelta(_, y) => y
    case PixelDelta(_, y) => y
  }

  /**
   * Whether a keyboard event for a key whose recorded state is `previous`
   * is recorded as an update of this frame: every release is, and a press
   * only when the key was recorded as released. A first-ever press (no
   * recorded state) and a repeated press are not.
   */
  predicate RecordsUpdate(previous: map<KeyCode, ElementState>, code: KeyCode, state: ElementState) {
    state == Released || (code in previous && previous[code] == Released)
  }

  lemma FirstPressNotRecorded(previous: map<KeyCode, ElementState>, code: KeyCode)
    requires code !in previous
    ensures !RecordsUpdate(previous, code, Pressed)
  {
  }

  lemma RepeatedPressNotRecorded(previous: map<KeyCode, ElementState>, code: KeyCode)
    requires code in previous && previous[code] == Pressed
    ensures !RecordsUpdate(previous, code, Pressed)
  {
  }

  class InputManager {
    var keyStates: map<KeyCode, ElementState>
    var justUpdated: seq<KeyCode>
    var buttonStates: map<MouseButton, ElementState>
    var mouseWheelDelta: real

    constructor ()
      ensures keyStates == map[] && justUpdated == [] && buttonStates == map[]
      ensures mouseWheelDelta == 0.0
    {
      keyStates := map[];
      justUpdated := [];
      buttonStates := map[];
      mouseWheelDelta := 0.0;
    }

    method ProcessEvent(event: WindowEvent)
      modifies this
      ensures event.KeyboardInput? && event.key.Code? ==>
        var code := event.key.code;
        && keyStates == old(keyStates)[code := event.state]
        && justUpdated == old(justUpdated) + (if RecordsUpdate(old(keyStates), code, event.state) then [code] else [])
        && buttonStates == old(buttonStates) && mouseWheelDelta == old(mouseWheelDelta)
      ensures event.MouseWheel? ==>
        && mouseWheelDelta == old(mouseWheelDelta) + ScrollY(event.delta)
        && keyStates == old(keyStates) && justUpdated == old(justUpdated) && buttonStates == old(buttonStates)
      ensures event.MouseInput? ==>
        && buttonStates == old(buttonStates)[event.button := event.buttonState]
        && keyStates == old(keyStates) && justUpdated == old(justUpdated) && mouseWheelDelta == old(mouseWheelDelta)
      ensures (event.KeyboardInput? && event.key.Unidentified?) || event.CursorMoved? || event.OtherEvent? ==>
        && keyStates == old(keyStates) && justUpdated == old(justUpdated)
        && buttonStates == old(buttonStates) && mouseWheelDelta == old(mouseWheelDelta)
    {
      match event
      case KeyboardInput(key, state) =>
        match key {
          case Code(code) =>
            if state == Released || (code in keyStates && keyStates[code] == Released) {
              justUpdated := justUpdated + [code];
            }
            keyStates := keyStates[code := state];
          case Unidentified =>
        }
      case CursorMoved =>
      case MouseWheel(delta) =>
        var y := match delta
          case LineDelta(_, y) => y
          case PixelDelta(_, y) => y;
        mouseWheelDelta := mouseWheelDelta + y;
      case MouseInput(button, state) =>
        buttonStates := buttonStates[button := state];
      case OtherEvent =>
    }

    /** The recorded state of a key; a key never seen is released. */
    function GetKeyState(code: KeyCode): (s: ElementState)
      reads this
      ensures code in keyStates ==> s == keyStates[code]
      ensures code !in keyStates ==> s == Released
    {
      if code in keyStates then keyStates[code] else Released
    }

    /** Pressed, and updated during this frame. */
    function IsKeyDown(code: KeyCode): (r: bool)
      reads this
    {
      GetKeyState(code) == Pressed && code in justUpdated
    }

    function IsKeyPressed(code: KeyCode): (r: bool)
      reads this
    {
      GetKeyState(code) == Pressed
    }

    /** Released, and updated during this frame. */
    function IsKeyReleased(code: KeyCode): (r: bool)
      reads this
    {
      GetKeyState(code) == Released && code in justUpdated
    }

    function IsKeyUp(code: KeyCode): (r: bool)
      reads this
    {
      GetKeyState(code) == Released
    }

    /** Forgets this frame's updates; key and button states are kept. */
    method NextFrame()
      modifies this`justUpdated
      ensures justUpdated == []
    {
      justUpdated := [];
    }
  }

  /**
   * The queries read the recorded state directly: a key is pressed only
   * when a press was its last recorded event, and up when it was never seen
   * or was last released; "down" and "released" also need an update of the
   * key during this frame.
   */
  lemma KeyQueries(m: InputManager, code: KeyCode)
    ensures m.IsKeyPressed(code) <==> code in m.keyStates && m.keyStates[code] == Pressed
    ensures m.IsKeyUp(code) <==> code !in m.keyStates || m.keyStates[code] == Released
    ensures m.IsKeyDown(code) <==> code in m.keyStates && m.keyStates[code] == Pressed && code in m.justUpdated
    ensures m.IsKeyReleased(code) <==> (code !in m.keyStates || m.keyStates[code] == Released) && code in m.justUpdated
  {
  }

  /**
   * The four queries partition every key: pressed and up are complements,
   * down refines pressed, released refines up, and no key is both down and
   * released.
   */
  lemma QueriesPartition(m: InputManager, code: KeyCode)
    ensures m.IsKeyPressed(code) != m.IsKeyUp(code)
    ensures m.IsKeyDown(code) ==> m.IsKeyPressed(code)
    ensures m.IsKeyReleased(code) ==> m.IsKeyUp(code)
    ensures !(m.IsKeyDown(code) && m.IsKeyReleased(code))
    ensures m.IsKeyDown(code) || m.IsKeyReleased(code) <==> code in m.justUpdated
  {
  }

  /**
   * The very first press of a key is stored as pressed but is not reported
   * as "down", because nothing was recorded as released before it.
   */
  method FirstPressScenario(code: KeyCode) returns (pressed: bool, down: bool)
    ensures pressed && !down
  {
    var m := new InputManager();
    m.ProcessEvent(KeyboardInput(Code(code), Pressed));
    pressed, down := m.IsKeyPressed(code), m.IsKeyDown(code);
  }

  /**
   * Press, release, next frame, press again: the release is reported in its
   * frame, the frame change forgets it, and the second press is reported as
   * "down".
   */
  method PressAfterReleaseScenario(code: KeyCode)
    returns (releasedEdge: bool, releasedAfterFrame: bool, down: bool)
    ensures releasedEdge && !releasedAfterFrame && down
  {
    var m := new InputManager();
    m.ProcessEvent(KeyboardInput(Code(code), Pressed));
    m.ProcessEvent(KeyboardInput(Code(code), Released));
    releasedEdge := m.IsKeyReleased(code);
    m.NextFrame();
    releasedAfterFrame := m.IsKeyReleased(code);
    m.ProcessEvent(KeyboardInput(Code(code), Pressed));
    down := m.IsKeyDown(code);
  }
}
