/**
 * The slice of the SDL3 binding the input layer and the window read: integer widths,
 * the numeric codes of SDL's enums, and the event records `SDL_PollEvent` delivers.
 * The codes are SDL3's own values (SDL_gamepad.h, SDL_scancode.h, SDL_keycode.h,
 * SDL_mouse.h).
 */
module Sdl {
  type uint8 = x: int | 0 <= x < 0x100
  type int16 = x: int | -0x8000 <= x < 0x8000
  type int32 = x: int | -0x8000_0000 <= x < 0x8000_0000
  type uint32 = x: int | 0 <= x < 0x1_0000_0000

  /** `short.MaxValue`, the largest raw axis reading. */
  const ShortMaxValue: int := 0x7FFF

  // SDL_GamepadButton
  const GamepadButtonSouth: int := 0
  const GamepadButtonEast: int := 1
  const GamepadButtonWest: int := 2
  const GamepadButtonNorth: int := 3
  const GamepadButtonBack: int := 4
  const GamepadButtonGuide: int := 5
  const GamepadButtonStart: int := 6
  const GamepadButtonLeftStick: int := 7
  const GamepadButtonRightStick: int := 8
  const GamepadButtonLeftShoulder: int := 9
  const GamepadButtonRightShoulder: int := 10
  const GamepadButtonDPadUp: int := 11
  const GamepadButtonDPadDown: int := 12
  const GamepadButtonDPadLeft: int := 13
  const GamepadButtonDPadRight: int := 14
  const GamepadButtonTouchpad: int := 20

  // SDL_GamepadAxis
  const GamepadAxisLeftX: int := 0
  const GamepadAxisLeftY: int := 1
  const GamepadAxisRightX: int := 2
  const GamepadAxisRightY: int := 3
  const GamepadAxisLeftTrigger: int := 4
  const GamepadAxisRightTrigger: int := 5

  // SDL_GamepadType
  const GamepadTypeXbox360: int := 2
  const GamepadTypeXboxOne: int := 3
  const GamepadTypePS3: int := 4
  const GamepadTypePS4: int := 5
  const GamepadTypePS5: int := 6
  const GamepadTypeNintendoSwitchPro: int := 7
  const GamepadTypeNintendoSwitchJoyconLeft: int := 8
  const GamepadTypeNintendoSwitchJoyconRight: int := 9
  const GamepadTypeNintendoSwitchJoyconPair: int := 10

  // SDL_MouseButtonFlags (SDL_BUTTON_LMASK ... SDL_BUTTON_X2MASK)
  const MouseButtonFlagLeft: int := 1
  const MouseButtonFlagMiddle: int := 2
  const MouseButtonFlagRight: int := 4
  const MouseButtonFlagX1: int := 8
  const MouseButtonFlagX2: int := 16

  // SDL_Scancode and SDL_Keycode
  const ScancodeUnknown: int := 0
  const ScancodeA: int := 4
  const KeycodeUnknown: int := 0
  const KeycodeA: int := 0x61

  /** `SDL_KeyboardEvent`: `which` keyboard, the physical key, pressed or released. */
  datatype KeyboardEvent = KeyboardEvent(which: uint32, scancode: int, down: bool)

  /** `SDL_GamepadButtonEvent`. */
  datatype GamepadButtonEvent = GamepadButtonEvent(which: uint32, button: uint8, down: bool)

  /** `SDL_GamepadAxisEvent`: the raw signed 16-bit reading. */
  datatype GamepadAxisEvent = GamepadAxisEvent(which: uint32, axis: uint8, value: int16)

  /** The three event types that carry an `SDL_GamepadTouchpadEvent`. */
  datatype TouchpadEventType = TouchpadDown | TouchpadUp | TouchpadMotion

  /** `SDL_GamepadTouchpadEvent`. Coordinates and pressure are floats, modelled as reals. */
  datatype GamepadTouchpadEvent = GamepadTouchpadEvent(
    which: uint32, kind: TouchpadEventType, touchpad: int32, finger: int32, x: real, y: real, pressure: real)

  /** `SDL_MouseButtonEvent`: `button` is SDL's 1-based button number. */
  datatype MouseButtonEvent = MouseButtonEvent(which: uint32, button: uint8, down: bool)

  /** `SDL_MouseMotionEvent`: absolute position and the motion since the previous event. */
  datatype MouseMotionEvent = MouseMotionEvent(which: uint32, x: real, y: real, xrel: real, yrel: real)

  /** `SDL_MouseWheelEvent`. */
  datatype MouseWheelEvent = MouseWheelEvent(which: uint32, x: real, y: real)

  /**
   * `SDL_Event`, by event type. Key, button and touchpad records cover both their
   * down and up event types; `Unhandled` is every other type.
   */
  datatype Event =
    | GamepadAdded(which: uint32)
    | GamepadRemoved(which: uint32)
    | KeyboardAdded(which: uint32)
    | KeyboardRemoved(which: uint32)
    | MouseAdded(which: uint32)
    | MouseRemoved(which: uint32)
    | TextInput(text: string)
    | Key(key: KeyboardEvent)
    | GamepadButton(gbutton: GamepadButtonEvent)
    | GamepadAxisMotion(gaxis: GamepadAxisEvent)
    | GamepadTouchpad(gtouchpad: GamepadTouchpadEvent)
    | MouseButton(button: MouseButtonEvent)
    | MouseMotion(motion: MouseMotionEvent)
    | MouseWheel(wheel: MouseWheelEvent)
    | GamepadRemapped(which: uint32)
    | Quit
    | Unhandled(eventType: uint32)
}
