/**
 * `SdlMouse`: press state per `MouseButtons` member, the last reported position,
 * motion and wheel values, and the `ButtonDown`/`ButtonUp` events.
 */
module Mice {
  import opened Sdl
  import opened InputEnums
  import opened Delegates
  import EnumUtility
  import BaseInputDevice

  /** `ButtonMap`: button -> bit index. */
  const ButtonMap: map<MouseButtons, int> := EnumUtility.IndexMap(AllMouseButtons)

  function ButtonIndex(b: MouseButtons): (i: nat)
    ensures b in ButtonMap && ButtonMap[b] == i
    ensures i < |ButtonMap| == |AllMouseButtons| && AllMouseButtons[i] == b
  {
    EnumListsComplete();
    EnumUtility.IndexOf(AllMouseButtons, b)
  }

  function Pow2(n: nat): (p: nat)
    ensures p >= 1
  {
    if n == 0 then 1 else 2 * Pow2(n - 1)
  }

  /**
   * C#'s `1 << count` on `int`: only the low five bits of `count` are used (Dafny's `%`
   * never goes negative, so `count % 32` is `count & 31`), and a shift by 31 sets the
   * sign bit, giving `int.MinValue`.
   */
  function ShiftLeftInt32(count: int): int
  {
    var n := count % 32;
    if n == 31 then -0x8000_0000 else Pow2(n)
  }

  /** `SDL_BUTTON_MASK`-style flag to button, as the `switch` in `ProcessButtonEvent` reads it. */
  function ButtonForFlag(f: int): MouseButtons
  {
    if f == MouseButtonFlagLeft then Mouse1
    else if f == MouseButtonFlagMiddle then Mouse3
    else if f == MouseButtonFlagRight then Mouse2
    else if f == MouseButtonFlagX1 then Mouse4
    else if f == MouseButtonFlagX2 then Mouse5
    else MouseButtons.None
  }

  /** The button `ProcessButtonEvent` picks for SDL button number `b`, as written: `(MouseButtonFlags)(1 << b - 1)`. */
  function MouseButtonFromSdlAsWritten(b: uint8): MouseButtons
  {
    ButtonForFlag(ShiftLeftInt32(b - 1))
  }

  /** The intended mapping: SDL buttons 1 to 5 (left, middle, right, X1, X2) and nothing else. */
  function MouseButtonFromSdl(b: uint8): (m: MouseButtons)
    ensures m != MouseButtons.None <==> 1 <= b <= 5
  {
    if b == 1 then Mouse1
    else if b == 2 then Mouse3
    else if b == 3 then Mouse2
    else if b == 4 then Mouse4
    else if b == 5 then Mouse5
    else MouseButtons.None
  }

  /** The shift wraps: SDL button 33 is read as the left button. */
  lemma MouseButtonAsWrittenAliases()
    ensures MouseButtonFromSdlAsWritten(33) == Mouse1
    ensures MouseButtonFromSdl(33) == MouseButtons.None
  {
  }

  /** Below 33 the as-written mapping and the intended one agree. */
  lemma MouseButtonAsWrittenAgreesBelow33(b: uint8)
    requires b < 33
    ensures MouseButtonFromSdlAsWritten(b) == MouseButtonFromSdl(b)
  {
    if 6 <= b {
      Pow2Grows(b - 1);
    }
  }

  lemma Pow2Grows(n: nat)
    requires 5 <= n
    ensures Pow2(n) >= 32
  {
  }

  /** Distinct SDL buttons map to distinct Radish buttons. */
  lemma MouseButtonFromSdlInjective(b: uint8, c: uint8)
    requires MouseButtonFromSdl(b) != MouseButtons.None && b != c
    ensures MouseButtonFromSdl(b) != MouseButtonFromSdl(c)
  {
  }

  // ---------------------------------------------------------------- state

  /** `System.Numerics.Vector2`, with reals for floats. */
  datatype Vector2 = Vector2(x: real, y: real)

  const Zero: Vector2 := Vector2(0.0, 0.0)

  /** The payload of `MouseButtonStateDelegate`: the button and whether it is now down. */
  datatype ButtonState = ButtonState(button: MouseButtons, pressed: bool)

  /** `IsPressed(b)` read off a button state array. */
  function Pressed(states: seq<bool>, b: MouseButtons): bool
    requires |states| == |AllMouseButtons|
  {
    if b == MouseButtons.None then false else states[ButtonIndex(b)]
  }

  /**
   * The button states after a button event, with the corrected `MouseButtonFromSdl`; the source
   * maps through `MouseButtonFromSdlAsWritten`, which agrees below button number 33.
   */
  function ButtonStep(states: seq<bool>, e: MouseButtonEvent): seq<bool>
    requires |states| == |AllMouseButtons|
  {
    var b := MouseButtonFromSdl(e.button);
    if b == MouseButtons.None then states else states[ButtonIndex(b) := e.down]
  }

  /** What a button event raises: `ButtonDown(btn, true)` on a press, `ButtonUp(btn, false)` on a release. */
  function ButtonNotifications(buttonDown: seq<HandlerId>, buttonUp: seq<HandlerId>, e: MouseButtonEvent)
    : seq<Notification<ButtonState>>
  {
    var b := MouseButtonFromSdl(e.button);
    if b == MouseButtons.None then []
    else if e.down then Raise(buttonDown, ButtonState(b, true))
    else Raise(buttonUp, ButtonState(b, false))
  }

  /**
   * A button event sets the state of its one button; the matching event is raised with
   * that button, and with `pressed` equal to the new state, exactly when a handler is
   * subscribed; an unknown button changes nothing and raises nothing.
   */
  lemma ButtonStepEffect(states: seq<bool>, buttonDown: seq<HandlerId>, buttonUp: seq<HandlerId>,
                         e: MouseButtonEvent, b: MouseButtons)
    requires |states| == |AllMouseButtons|
    ensures |ButtonStep(states, e)| == |states|
    ensures Pressed(ButtonStep(states, e), b) ==
              if b != MouseButtons.None && b == MouseButtonFromSdl(e.button) then e.down else Pressed(states, b)
    ensures var log := ButtonNotifications(buttonDown, buttonUp, e);
            && (MouseButtonFromSdl(e.button) == MouseButtons.None ==> ButtonStep(states, e) == states && log == [])
            && (log != [] <==> MouseButtonFromSdl(e.button) != MouseButtons.None &&
                                (if e.down then buttonDown else buttonUp) != [])
            && (forall n | n in log ::
                  n.payload == ButtonState(MouseButtonFromSdl(e.button), e.down) &&
                  n.recipients == if e.down then buttonDown else buttonUp)
  {
  }

  /** Position, motion and wheel as the mouse reports them. */
  datatype Cursor = Cursor(position: Vector2, positionDelta: Vector2, wheelAxes: Vector2)

  function MotionStep(p: Cursor, e: MouseMotionEvent): Cursor
  {
    p.(position := Vector2(e.x, e.y), positionDelta := Vector2(e.xrel, e.yrel))
  }

  function WheelStep(p: Cursor, e: MouseWheelEvent): Cursor
  {
    p.(wheelAxes := Vector2(e.x, e.y))
  }

  function MotionSteps(p: Cursor, es: seq<MouseMotionEvent>): Cursor
    decreases |es|
  {
    if es == [] then p else MotionSteps(MotionStep(p, es[0]), es[1..])
  }

  function WheelSteps(p: Cursor, es: seq<MouseWheelEvent>): Cursor
    decreases |es|
  {
    if es == [] then p else WheelSteps(WheelStep(p, es[0]), es[1..])
  }

  /**
   * Motion events overwrite rather than accumulate: after several in one frame the
   * delta is the last event's own relative motion, not their sum, and the wheel is untouched.
   */
  lemma {:induction false} MotionStepsKeepLast(p: Cursor, es: seq<MouseMotionEvent>)
    requires es != []
    ensures MotionSteps(p, es) ==
              p.(position := Vector2(es[|es| - 1].x, es[|es| - 1].y),
                 positionDelta := Vector2(es[|es| - 1].xrel, es[|es| - 1].yrel))
    decreases |es|
  {
    if |es| > 1 {
      MotionStepsKeepLast(MotionStep(p, es[0]), es[1..]);
    }
  }

  /** Wheel events overwrite too: the axes are the last event's, and position and motion are untouched. */
  lemma {:induction false} WheelStepsKeepLast(p: Cursor, es: seq<MouseWheelEvent>)
    requires es != []
    ensures WheelSteps(p, es) == p.(wheelAxes := Vector2(es[|es| - 1].x, es[|es| - 1].y))
    decreases |es|
  {
    if |es| > 1 {
      WheelStepsKeepLast(WheelStep(p, es[0]), es[1..]);
    }
  }

  // ---------------------------------------------------------------- the tracker

  class SdlMouse {
    const nativeHandle: int
    /** `_buttonStates`. */
    const buttonStates: array<bool>
    var position: Vector2
    var positionDelta: Vector2
    var wheelAxes: Vector2
    /** The invocation lists of `ButtonDown` and `ButtonUp`. */
    var buttonDown: seq<HandlerId>
    var buttonUp: seq<HandlerId>
    var notifications: seq<Notification<ButtonState>>

    function InstanceId(): uint32
    {
      BaseInputDevice.InstanceIdOf(nativeHandle)
    }

    predicate Valid()
    {
      buttonStates.Length == |AllMouseButtons|
    }

    ghost function Objects(): set<object>
    {
      {this, buttonStates}
    }

    function Readings(): Cursor
      reads this
    {
      Cursor(position, positionDelta, wheelAxes)
    }

    constructor (instanceId: uint32)
      ensures Valid() && InstanceId() == instanceId && fresh(buttonStates)
      ensures forall b :: !Pressed(buttonStates[..], b)
      ensures Readings() == Cursor(Zero, Zero, Zero)
      ensures buttonDown == [] && buttonUp == [] && notifications == []
    {
      nativeHandle := BaseInputDevice.HandleOf(instanceId);
      buttonStates := new bool[|AllMouseButtons|](_ => false);
      position, positionDelta, wheelAxes := Zero, Zero, Zero;
      buttonDown, buttonUp, notifications := [], [], [];
      BaseInputDevice.InstanceIdRoundTrip(instanceId);
    }

    method IsPressed(button: MouseButtons) returns (pressed: bool)
      requires Valid()
      ensures pressed == Pressed(buttonStates[..], button)
      ensures button == MouseButtons.None ==> !pressed
    {
      if button == MouseButtons.None {
        return false;
      }
      return buttonStates[ButtonIndex(button)];
    }

    method ProcessButtonEvent(e: MouseButtonEvent)
      requires Valid()
      modifies this, buttonStates
      ensures buttonStates[..] == ButtonStep(old(buttonStates[..]), e)
      ensures notifications == old(notifications) + ButtonNotifications(buttonDown, buttonUp, e)
      ensures Readings() == old(Readings()) && buttonDown == old(buttonDown) && buttonUp == old(buttonUp)
    {
      var btn := MouseButtonFromSdl(e.button);
      if btn == MouseButtons.None {
        return;
      }
      buttonStates[ButtonIndex(btn)] := e.down;
      if e.down {
        notifications := notifications + Raise(buttonDown, ButtonState(btn, true));
      } else {
        notifications := notifications + Raise(buttonUp, ButtonState(btn, false));
      }
    }

    method ProcessMotionEvent(e: MouseMotionEvent)
      modifies this
      ensures Readings() == MotionStep(old(Readings()), e)
      ensures buttonDown == old(buttonDown) && buttonUp == old(buttonUp) && notifications == old(notifications)
    {
      position := Vector2(e.x, e.y);
      positionDelta := Vector2(e.xrel, e.yrel);
    }

    method ProcessWheelEvent(e: MouseWheelEvent)
      modifies this
      ensures Readings() == WheelStep(old(Readings()), e)
      ensures buttonDown == old(buttonDown) && buttonUp == old(buttonUp) && notifications == old(notifications)
    {
      wheelAxes := Vector2(e.x, e.y);
    }

    /** Drops every subscriber of `ButtonDown` and `ButtonUp`. */
    method ClearEvents()
      modifies this
      ensures buttonDown == [] && buttonUp == []
      ensures Readings() == old(Readings()) && notifications == old(notifications)
    {
      buttonDown := [];
      buttonUp := [];
    }
  }
}
