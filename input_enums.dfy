/**
 * The Radish enums the trackers index their state by. `All*` lists the members in the
 * order `Enum.GetValues` returns them (ascending underlying value).
 */
module InputEnums {
  import opened Lists

  datatype GamepadButtons =
    | None | FacePadSouth | FacePadNorth | FacePadEast | FacePadWest
    | DPadSouth | DPadNorth | DPadEast | DPadWest
    | LeftShoulder | RightShoulder | LeftStickPress | RightStickPress
    | TouchpadPress | Start | Select

  const AllGamepadButtons: seq<GamepadButtons> := [
    GamepadButtons.None, FacePadSouth, FacePadNorth, FacePadEast, FacePadWest,
    DPadSouth, DPadNorth, DPadEast, DPadWest,
    LeftShoulder, RightShoulder, LeftStickPress, RightStickPress,
    TouchpadPress, Start, Select]

  datatype GamepadAxes = None | LeftTrigger | RightTrigger | LeftStickX | LeftStickY | RightStickX | RightStickY

  const AllGamepadAxes: seq<GamepadAxes> := [
    GamepadAxes.None, LeftTrigger, RightTrigger, LeftStickX, LeftStickY, RightStickX, RightStickY]

  datatype MouseButtons = None | Mouse1 | Mouse2 | Mouse3 | Mouse4 | Mouse5

  const AllMouseButtons: seq<MouseButtons> := [MouseButtons.None, Mouse1, Mouse2, Mouse3, Mouse4, Mouse5]

  /** A subset of `Keys` (SDL keycode values): enough members to exercise the tables. */
  datatype Keys = None | Backspace | Tab | Return | Escape | Space | A | B | Z | Delete | Right | Left | Down

  const AllKeys: seq<Keys> := [Keys.None, Backspace, Tab, Return, Escape, Space, A, B, Z, Delete, Right, Left, Down]

  datatype GamepadModel =
    | Generic | Xbox360 | XboxOne | Dualshock3 | Dualshock4 | Dualsense
    | SwitchPro | SwitchJoyconLeft | SwitchJoyconRight | SwitchJoyconPair

  /** Each member list names every member, and none twice. */
  lemma EnumListsComplete()
    ensures forall b: GamepadButtons :: b in AllGamepadButtons
    ensures forall a: GamepadAxes :: a in AllGamepadAxes
    ensures forall m: MouseButtons :: m in AllMouseButtons
    ensures forall k: Keys :: k in AllKeys
    ensures NoDuplicates(AllGamepadButtons) && NoDuplicates(AllGamepadAxes)
    ensures NoDuplicates(AllMouseButtons) && NoDuplicates(AllKeys)
  {
    forall b: GamepadButtons ensures b in AllGamepadButtons {
      match b
      case None => assert AllGamepadButtons[0] == b;
      case FacePadSouth => assert AllGamepadButtons[1] == b;
      case FacePadNorth => assert AllGamepadButtons[2] == b;
      case FacePadEast => assert AllGamepadButtons[3] == b;
      case FacePadWest => assert AllGamepadButtons[4] == b;
      case DPadSouth => assert AllGamepadButtons[5] == b;
      case DPadNorth => assert AllGamepadButtons[6] == b;
      case DPadEast => assert AllGamepadButtons[7] == b;
      case DPadWest => assert AllGamepadButtons[8] == b;
      case LeftShoulder => assert AllGamepadButtons[9] == b;
      case RightShoulder => assert AllGamepadButtons[10] == b;
      case LeftStickPress => assert AllGamepadButtons[11] == b;
      case RightStickPress => assert AllGamepadButtons[12] == b;
      case TouchpadPress => assert AllGamepadButtons[13] == b;
      case Start => assert AllGamepadButtons[14] == b;
      case Select => assert AllGamepadButtons[15] == b;
    }
    forall a: GamepadAxes ensures a in AllGamepadAxes {
      match a
      case None => assert AllGamepadAxes[0] == a;
      case LeftTrigger => assert AllGamepadAxes[1] == a;
      case RightTrigger => assert AllGamepadAxes[2] == a;
      case LeftStickX => assert AllGamepadAxes[3] == a;
      case LeftStickY => assert AllGamepadAxes[4] == a;
      case RightStickX => assert AllGamepadAxes[5] == a;
      case RightStickY => assert AllGamepadAxes[6] == a;
    }
    forall m: MouseButtons ensures m in AllMouseButtons {
      match m
      case None => assert AllMouseButtons[0] == m;
      case Mouse1 => assert AllMouseButtons[1] == m;
      case Mouse2 => assert AllMouseButtons[2] == m;
      case Mouse3 => assert AllMouseButtons[3] == m;
      case Mouse4 => assert AllMouseButtons[4] == m;
      case Mouse5 => assert AllMouseButtons[5] == m;
    }
    forall k: Keys ensures k in AllKeys {
      match k
      case None => assert AllKeys[0] == k;
      case Backspace => assert AllKeys[1] == k;
      case Tab => assert AllKeys[2] == k;
      case Return => assert AllKeys[3] == k;
      case Escape => assert AllKeys[4] == k;
      case Space => assert AllKeys[5] == k;
      case A => assert AllKeys[6] == k;
      case B => assert AllKeys[7] == k;
      case Z => assert AllKeys[8] == k;
      case Delete => assert AllKeys[9] == k;
      case Right => assert AllKeys[10] == k;
      case Left => assert AllKeys[11] == k;
      case Down => assert AllKeys[12] == k;
    }
  }
}
