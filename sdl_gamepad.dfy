/**
 * `SdlGamepad`: press state per `GamepadButtons` member, a normalised value per
 * `GamepadAxes` member, and one finger slot per touchpad finger SDL reports.
 */
module Gamepads {
  import opened Sdl
  import opened InputEnums
  import opened Lists
  import opened Delegates
  import EnumUtility
  import BaseInputDevice

  /** `ButtonLookup`: button -> bit index. */
  const ButtonLookup: map<GamepadButtons, int> := EnumUtility.IndexMap(AllGamepadButtons)

  /** `AxisLookup`: axis -> slot index. */
  const AxisLookup: map<GamepadAxes, int> := EnumUtility.IndexMap(AllGamepadAxes)

  /** `ButtonLookup[b]`: defined for every member; distinct members get distinct bits. */
  function ButtonIndex(b: GamepadButtons): (i: nat)
    ensures b in ButtonLookup && ButtonLookup[b] == i
    ensures i < |ButtonLookup| == |AllGamepadButtons| && AllGamepadButtons[i] == b
  {
    EnumListsComplete();
    EnumUtility.IndexOf(AllGamepadButtons, b)
  }

  /** `AxisLookup[a]`: defined for every member; distinct members get distinct slots. */
  function AxisIndex(a: GamepadAxes): (i: nat)
    ensures a in AxisLookup && AxisLookup[a] == i
    ensures i < |AxisLookup| == |AllGamepadAxes| && AllGamepadAxes[i] == a
  {
    EnumListsComplete();
    EnumUtility.IndexOf(AllGamepadAxes, a)
  }

  /** `SdlToRadishButtons`, keyed by SDL_GamepadButton code. */
  const SdlToRadishButtons: map<int, GamepadButtons> := map[
    GamepadButtonNorth := FacePadNorth,
    GamepadButtonSouth := FacePadSouth,
    GamepadButtonEast := FacePadEast,
    GamepadButtonWest := FacePadWest,
    GamepadButtonDPadUp := DPadNorth,
    GamepadButtonDPadDown := DPadSouth,
    GamepadButtonDPadLeft := DPadWest,
    GamepadButtonDPadRight := DPadEast,
    GamepadButtonLeftShoulder := LeftShoulder,
    GamepadButtonRightShoulder := RightShoulder,
    GamepadButtonStart := Start,
    GamepadButtonBack := Select,
    GamepadButtonLeftStick := LeftStickPress,
    GamepadButtonRightStick := RightStickPress,
    GamepadButtonTouchpad := TouchpadPress]

  /** `SdlToRadishAxes`, keyed by SDL_GamepadAxis code. */
  const SdlToRadishAxes: map<int, GamepadAxes> := map[
    GamepadAxisLeftTrigger := LeftTrigger,
    GamepadAxisRightTrigger := RightTrigger,
    GamepadAxisLeftX := LeftStickX,
    GamepadAxisLeftY := LeftStickY,
    GamepadAxisRightX := RightStickX,
    GamepadAxisRightY := RightStickY]

  /** `SdlToRadishButtons.GetValueOrDefault(code, None)`. */
  function ButtonFromSdl(code: int): GamepadButtons
  {
    if code in SdlToRadishButtons then SdlToRadishButtons[code] else GamepadButtons.None
  }

  /** `SdlToRadishAxes.GetValueOrDefault(code, None)`. */
  function AxisFromSdl(code: int): GamepadAxes
  {
    if code in SdlToRadishAxes then SdlToRadishAxes[code] else GamepadAxes.None
  }

  /** The SDL_GamepadButton code a Radish button comes from, read off the SDL header independently of the table. */
  function SdlButtonOf(b: GamepadButtons): int
  {
    match b
    case None => -1
    case FacePadNorth => GamepadButtonNorth
    case FacePadSouth => GamepadButtonSouth
    case FacePadEast => GamepadButtonEast
    case FacePadWest => GamepadButtonWest
    case DPadNorth => GamepadButtonDPadUp
    case DPadSouth => GamepadButtonDPadDown
    case DPadWest => GamepadButtonDPadLeft
    case DPadEast => GamepadButtonDPadRight
    case LeftShoulder => GamepadButtonLeftShoulder
    case RightShoulder => GamepadButtonRightShoulder
    case Start => GamepadButtonStart
    case Select => GamepadButtonBack
    case LeftStickPress => GamepadButtonLeftStick
    case RightStickPress => GamepadButtonRightStick
    case TouchpadPress => GamepadButtonTouchpad
  }

  /** The SDL_GamepadAxis code a Radish axis comes from. */
  function SdlAxisOf(a: GamepadAxes): int
  {
    match a
    case None => -1
    case LeftTrigger => GamepadAxisLeftTrigger
    case RightTrigger => GamepadAxisRightTrigger
    case LeftStickX => GamepadAxisLeftX
    case LeftStickY => GamepadAxisLeftY
    case RightStickX => GamepadAxisRightX
    case RightStickY => GamepadAxisRightY
  }

  /**
   * Every Radish button and axis other than `None` comes from exactly one SDL code:
   * the tables never yield `None`, they invert `SdlButtonOf`/`SdlAxisOf`, and so no
   * two SDL codes share a button or an axis.
   */
  lemma SdlTablesInvertible()
    ensures forall c | c in SdlToRadishButtons ::
              SdlToRadishButtons[c] != GamepadButtons.None && SdlButtonOf(SdlToRadishButtons[c]) == c
    ensures forall b: GamepadButtons | b != GamepadButtons.None :: ButtonFromSdl(SdlButtonOf(b)) == b
    ensures forall c | c in SdlToRadishAxes ::
              SdlToRadishAxes[c] != GamepadAxes.None && SdlAxisOf(SdlToRadishAxes[c]) == c
    ensures forall a: GamepadAxes | a != GamepadAxes.None :: AxisFromSdl(SdlAxisOf(a)) == a
  {
  }

  /** The `Model` property's table from SDL_GamepadType to `GamepadModel`. */
  function ModelForType(sdlType: int): (m: GamepadModel)
    ensures m == Generic <==> !(GamepadTypeXbox360 <= sdlType <= GamepadTypeNintendoSwitchJoyconPair)
  {
    if sdlType == GamepadTypeXbox360 then Xbox360
    else if sdlType == GamepadTypeXboxOne then XboxOne
    else if sdlType == GamepadTypePS3 then Dualshock3
    else if sdlType == GamepadTypePS4 then Dualshock4
    else if sdlType == GamepadTypePS5 then Dualsense
    else if sdlType == GamepadTypeNintendoSwitchPro then SwitchPro
    else if sdlType == GamepadTypeNintendoSwitchJoyconLeft then SwitchJoyconLeft
    else if sdlType == GamepadTypeNintendoSwitchJoyconRight then SwitchJoyconRight
    else if sdlType == GamepadTypeNintendoSwitchJoyconPair then SwitchJoyconPair
    else Generic
  }

  /** The SDL_GamepadType each specific model is read from; `Generic` has no single type. */
  function SdlTypeOf(m: GamepadModel): int
  {
    match m
    case Generic => -1
    case Xbox360 => GamepadTypeXbox360
    case XboxOne => GamepadTypeXboxOne
    case Dualshock3 => GamepadTypePS3
    case Dualshock4 => GamepadTypePS4
    case Dualsense => GamepadTypePS5
    case SwitchPro => GamepadTypeNintendoSwitchPro
    case SwitchJoyconLeft => GamepadTypeNintendoSwitchJoyconLeft
    case SwitchJoyconRight => GamepadTypeNintendoSwitchJoyconRight
    case SwitchJoyconPair => GamepadTypeNintendoSwitchJoyconPair
  }

  /** Every specific model is reported for exactly one SDL gamepad type. */
  lemma ModelForTypeInvertible()
    ensures forall m: GamepadModel | m != Generic :: ModelForType(SdlTypeOf(m)) == m
    ensures forall t: int | ModelForType(t) != Generic :: SdlTypeOf(ModelForType(t)) == t
  {
  }

  // ---------------------------------------------------------------- buttons

  /** `IsPressed(b)` read off a button state array. */
  function Pressed(states: seq<bool>, b: GamepadButtons): bool
    requires |states| == |AllGamepadButtons|
  {
    if b == GamepadButtons.None then false else states[ButtonIndex(b)]
  }

  /** `_buttonStates` after `ProcessButtonEvent(e)`. */
  function ButtonStep(states: seq<bool>, e: GamepadButtonEvent): seq<bool>
    requires |states| == |AllGamepadButtons|
  {
    var b := ButtonFromSdl(e.button);
    if b == GamepadButtons.None then states else states[ButtonIndex(b) := e.down]
  }

  /**
   * A button event sets the pressed state of the one button its SDL code maps to and
   * leaves every other button as it was; an unmapped code changes nothing.
   */
  lemma ButtonStepEffect(states: seq<bool>, e: GamepadButtonEvent, b: GamepadButtons)
    requires |states| == |AllGamepadButtons|
    ensures |ButtonStep(states, e)| == |states|
    ensures e.button !in SdlToRadishButtons ==> ButtonStep(states, e) == states
    ensures Pressed(ButtonStep(states, e), b) ==
              if b != GamepadButtons.None && b == ButtonFromSdl(e.button) then e.down else Pressed(states, b)
  {
  }

  // ---------------------------------------------------------------- axes

  /** The normalisation as written: `(float)raw / short.MaxValue`, with reals for floats. */
  function NormaliseAxisAsWritten(raw: int16): real
  {
    raw as real / ShortMaxValue as real
  }

  /** Normalisation into the documented [-1, 1]: the one raw value below `-short.MaxValue` reads as -1. */
  function NormaliseAxis(raw: int16): (v: real)
    ensures -1.0 <= v <= 1.0
  {
    if raw < -ShortMaxValue then -1.0 else raw as real / ShortMaxValue as real
  }

  /** The as-written normalisation sends the stick's lowest reading, -32768, below -1. */
  lemma NormaliseAxisAsWrittenLeavesRange()
    ensures NormaliseAxisAsWritten(-0x8000) < -1.0
  {
  }

  /** Full deflection reads 1, rest reads 0, the sign is kept, and every other reading is `raw / 32767` as written. */
  lemma NormaliseAxisProperties(raw: int16)
    ensures NormaliseAxis(ShortMaxValue) == 1.0 && NormaliseAxis(0) == 0.0
    ensures NormaliseAxis(raw) > 0.0 <==> raw > 0
    ensures NormaliseAxis(raw) < 0.0 <==> raw < 0
    ensures raw >= -ShortMaxValue ==> NormaliseAxis(raw) == NormaliseAxisAsWritten(raw)
  {
  }

  /** `GetAxisValue(a)` read off an axis state array. */
  function AxisValue(values: seq<real>, a: GamepadAxes): real
    requires |values| == |AllGamepadAxes|
  {
    if a == GamepadAxes.None then 0.0 else values[AxisIndex(a)]
  }

  /**
   * `_axisStates` after `ProcessAxisEvent(e)`, storing the corrected `NormaliseAxis`; the source
   * stores `NormaliseAxisAsWritten`, which differs only at the raw value -32768.
   */
  function AxisStep(values: seq<real>, e: GamepadAxisEvent): seq<real>
    requires |values| == |AllGamepadAxes|
  {
    var a := AxisFromSdl(e.axis);
    if a == GamepadAxes.None then values else values[AxisIndex(a) := NormaliseAxis(e.value)]
  }

  /**
   * An axis event stores the (corrected) normalised reading in its own axis only; an unmapped
   * code changes nothing.
   */
  lemma AxisStepEffect(values: seq<real>, e: GamepadAxisEvent, a: GamepadAxes)
    requires |values| == |AllGamepadAxes|
    ensures |AxisStep(values, e)| == |values|
    ensures e.axis !in SdlToRadishAxes ==> AxisStep(values, e) == values
    ensures AxisValue(AxisStep(values, e), a) ==
              if a != GamepadAxes.None && a == AxisFromSdl(e.axis) then NormaliseAxis(e.value) else AxisValue(values, a)
  {
  }

  // ---------------------------------------------------------------- touchpads

  /** A finger position: a point, or the `(NaN, NaN)` of an untouched slot. */
  datatype FingerPosition = NotANumber | At(x: real, y: real)

  /** `ITouchpad.FingerData`. */
  datatype FingerData = FingerData(position: FingerPosition, pressure: real) {
    /** `IsTouching => Pressure >= 0`. */
    predicate IsTouching() {
      pressure >= 0.0
    }
  }

  /** The sentinel of an untouched slot: position `(NaN, NaN)`, pressure -1. */
  const Untouched: FingerData := FingerData(NotANumber, -1.0)

  /** The finger slots of a new gamepad: `fingerCounts[i]` untouched slots on touchpad i. */
  function InitialFingers(fingerCounts: seq<nat>): (pads: seq<seq<FingerData>>)
    ensures |pads| == |fingerCounts|
    ensures forall i | 0 <= i < |pads| :: |pads[i]| == fingerCounts[i]
    ensures forall i, j | 0 <= i < |pads| && 0 <= j < |pads[i]| :: !pads[i][j].IsTouching()
  {
    seq(|fingerCounts|, i requires 0 <= i < |fingerCounts| => seq(fingerCounts[i], _ => Untouched))
  }

  /** The finger slots after `ProcessTouchpadEvent(e)`. */
  function TouchStep(pads: seq<seq<FingerData>>, e: GamepadTouchpadEvent): seq<seq<FingerData>>
  {
    if e.touchpad < 0 || e.touchpad >= |pads| then pads
    else if e.finger < 0 || e.finger >= |pads[e.touchpad]| then pads
    else
      var slot := if e.kind == TouchpadUp then Untouched else FingerData(At(e.x, e.y), e.pressure);
      pads[e.touchpad := pads[e.touchpad][e.finger := slot]]
  }

  /**
   * A touchpad event keeps the shape of the slots. Out-of-range indices change nothing.
   * In range, an Up event resets its slot to the untouched sentinel, so it no longer
   * reports a touch; Down and Motion write (x, y, pressure). Every other slot keeps its value.
   */
  lemma TouchStepEffect(pads: seq<seq<FingerData>>, e: GamepadTouchpadEvent, t: int, f: int)
    requires 0 <= t < |pads| && 0 <= f < |pads[t]|
    ensures |TouchStep(pads, e)| == |pads|
    ensures forall i | 0 <= i < |pads| :: |TouchStep(pads, e)[i]| == |pads[i]|
    ensures !(0 <= e.touchpad < |pads| && 0 <= e.finger < |pads[e.touchpad]|) ==> TouchStep(pads, e) == pads
    ensures TouchStep(pads, e)[t][f] ==
              if (t, f) != (e.touchpad as int, e.finger as int) then pads[t][f]
              else if e.kind == TouchpadUp then Untouched
              else FingerData(At(e.x, e.y), e.pressure)
    ensures (t, f) == (e.touchpad as int, e.finger as int) && e.kind == TouchpadUp ==>
              !TouchStep(pads, e)[t][f].IsTouching() && TouchStep(pads, e)[t][f].position == NotANumber
  {
  }

  // ---------------------------------------------------------------- the tracker

  /** What `SdlGamepad` raises. */
  datatype GamepadNotification = Remapped

  class SdlGamepad {
    const nativeHandle: int
    /** `_touchpads[i].FingersInternal`. */
    const touchpads: seq<array<FingerData>>
    /** `_buttonStates` (a `BitArray`). */
    const buttonStates: array<bool>
    /** `_axisStates`. */
    const axisStates: array<real>
    /** The `Remapped` event's invocation list. */
    var remapped: seq<HandlerId>
    var notifications: seq<Notification<GamepadNotification>>

    function InstanceId(): uint32
    {
      BaseInputDevice.InstanceIdOf(nativeHandle)
    }

    /** The arrays are sized by the index maps, and no two touchpads share a finger array. */
    predicate Valid()
    {
      && buttonStates.Length == |AllGamepadButtons|
      && axisStates.Length == |AllGamepadAxes|
      && NoDuplicates(touchpads)
    }

    /** The objects event processing writes. */
    ghost function Objects(): set<object>
    {
      {this, buttonStates, axisStates} + set a | a in touchpads
    }

    /** The finger slots, touchpad by touchpad. */
    ghost function Fingers(): seq<seq<FingerData>>
      reads set a | a in touchpads
    {
      seq(|touchpads|, i requires 0 <= i < |touchpads| reads touchpads => touchpads[i][..])
    }

    /**
     * `new SdlGamepad(instanceId)`. `fingerCounts` is what SDL reports for the device:
     * one entry per touchpad, the number of fingers it tracks.
     */
    constructor (instanceId: uint32, fingerCounts: seq<nat>)
      ensures Valid() && InstanceId() == instanceId
      ensures fresh(buttonStates) && fresh(axisStates) && forall a | a in touchpads :: fresh(a)
      ensures Fingers() == InitialFingers(fingerCounts)
      ensures forall b :: !Pressed(buttonStates[..], b)
      ensures forall a :: AxisValue(axisStates[..], a) == 0.0
      ensures remapped == [] && notifications == []
    {
      nativeHandle := BaseInputDevice.HandleOf(instanceId);
      var pads: seq<array<FingerData>> := [];
      for i := 0 to |fingerCounts|
        invariant |pads| == i
        invariant forall k | 0 <= k < i :: fresh(pads[k]) && pads[k][..] == seq(fingerCounts[k], _ => Untouched)
        invariant NoDuplicates(pads)
      {
        var fingers := new FingerData[fingerCounts[i]];
        for j := 0 to fingers.Length
          invariant forall k | 0 <= k < j :: fingers[k] == Untouched
          modifies fingers
        {
          fingers[j] := Untouched;
        }
        AppendNoDuplicates(pads, fingers);
        pads := pads + [fingers];
      }
      touchpads := pads;
      buttonStates := new bool[|AllGamepadButtons|](_ => false);
      axisStates := new real[|AllGamepadAxes|](_ => 0.0);
      remapped := [];
      notifications := [];
      BaseInputDevice.InstanceIdRoundTrip(instanceId);
    }

    method IsPressed(button: GamepadButtons) returns (pressed: bool)
      requires Valid()
      ensures pressed == Pressed(buttonStates[..], button)
      ensures button == GamepadButtons.None ==> !pressed
    {
      if button == GamepadButtons.None {
        return false;
      }
      return buttonStates[ButtonIndex(button)];
    }

    method GetAxisValue(axis: GamepadAxes) returns (value: real)
      requires Valid()
      ensures value == AxisValue(axisStates[..], axis)
      ensures axis == GamepadAxes.None ==> value == 0.0
    {
      if axis == GamepadAxes.None {
        return 0.0;
      }
      return axisStates[AxisIndex(axis)];
    }

    method ProcessButtonEvent(e: GamepadButtonEvent)
      requires Valid()
      modifies buttonStates
      ensures buttonStates[..] == ButtonStep(old(buttonStates[..]), e)
    {
      var rButton := ButtonFromSdl(e.button);
      if rButton == GamepadButtons.None {
        return;
      }
      buttonStates[ButtonIndex(rButton)] := e.down;
    }

    method ProcessAxisEvent(e: GamepadAxisEvent)
      requires Valid()
      modifies axisStates
      ensures axisStates[..] == AxisStep(old(axisStates[..]), e)
    {
      var rAxis := AxisFromSdl(e.axis);
      if rAxis == GamepadAxes.None {
        return;
      }
      axisStates[AxisIndex(rAxis)] := NormaliseAxis(e.value);
    }

    method ProcessTouchpadEvent(e: GamepadTouchpadEvent)
      requires Valid()
      modifies if 0 <= e.touchpad < |touchpads| then {touchpads[e.touchpad]} else {}
      ensures Fingers() == TouchStep(old(Fingers()), e)
    {
      if e.touchpad < 0 || e.touchpad >= |touchpads| {
        return;
      }
      var tPad := touchpads[e.touchpad];
      if e.finger < 0 || e.finger >= tPad.Length {
        return;
      }
      if e.kind == TouchpadUp {
        tPad[e.finger] := Untouched;
      } else {
        tPad[e.finger] := FingerData(At(e.x, e.y), e.pressure);
      }
      forall i | 0 <= i < |touchpads| && i != e.touchpad as int
        ensures touchpads[i] != tPad
      {
      }
    }

    method ProcessRemapEvent()
      modifies this
      ensures notifications == old(notifications) + Raise(remapped, Remapped)
      ensures remapped == old(remapped)
    {
      notifications := notifications + Raise(remapped, Remapped);
    }
  }
}
