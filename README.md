# Radish.Windowing SDL3 input layer, in Dafny

This project models the SDL3 backend of Radish.Windowing. The backend turns SDL's event stream into per-device input state for a game.

- **The input context (`Sdl3InputContext`).** It keeps a registry of connected devices: a flat list, a list of disconnected devices kept for reuse, and one dictionary per device class keyed by SDL instance id. Device added and removed events update the registry, a text-input event is raised on the context itself, mouse wheel events are dropped, and every other input event goes to the tracker of the device it names.
- **The trackers.**
  - `SdlGamepad` holds buttons, axes and touchpad fingers.
  - `SdlMouse` holds buttons, position, motion and wheel.
  - `SdlKeyboard` holds a key bitmask and the keycode/scancode tables.

  Each is a small state machine. A button, axis, key or touch event writes one entry, mouse motion writes the position and its delta, a remap writes nothing and only raises `Remapped`, and an unknown code is ignored.
- **The helpers.** `EnumUtility.GetEnumIndexMap` numbers an enum's members densely, and the trackers' arrays are sized by it. `LinqExtensions.FirstOrDefault` is a first-match scan.
- **The window (`Sdl3Window`).**
  - the creation flags;
  - the close protocol: a Quit request that `CloseRequested` subscribers may veto;
  - the poll/update/render main loop;
  - an idempotent `Dispose`.
- **The example application's `VersionUtility.ParseSdlVersion`.**

Each C# file becomes one module, and stateful C# classes become Dafny classes:

| file | module |
|---|---|
| `sdl.dfy` | `Sdl`: the SDL codes and event records the core reads |
| `input_enums.dfy` | `InputEnums`: Radish's input enums |
| `wrappers.dfy` | `Wrappers`: results |
| `lists.dfy` | `Lists`: `List<T>.Remove` |
| `delegates.dfy` | `Delegates`: C# events |
| `base_input_device.dfy` | `BaseInputDevice` |
| `enum_utility.dfy` | `EnumUtility` |
| `linq_extensions.dfy` | `LinqExtensions` |
| `sdl_gamepad.dfy` | `Gamepads` |
| `sdl_mouse.dfy` | `Mice` |
| `sdl_keyboard.dfy` | `Keyboards` |
| `input_context.dfy` | `InputContext` |
| `sdl3_window.dfy` | `Windows` |
| `version_utility.dfy` | `VersionUtility` |

How C# constructs are modelled:

- **Trackers.** Trackers keep their `BitArray`s and `float[]`s as Dafny arrays. Every event-processing tracker method except `ProcessRemapEvent` is specified by a pure step function on the array contents or readings: `ButtonStep`, `AxisStep`, `TouchStep`, `KeyStep`, `MotionStep`, `WheelStep`. `ProcessRemapEvent`, `ClearEvents` and the `IsPressed`/`GetAxisValue` queries state their results and new state directly. Lemmas state what each step changes and what it leaves alone.
- **The registry.**
  - `Registry` is a value snapshot of the five collections.
  - `Inv` is its consistency: `_devices` holds exactly the dictionary values, once each, each keyed by its own id, and none of them is also awaiting reuse.
  - `Add` and `Remove` are the snapshot updates that `AddInputDevice` and `RemoveInputDevice` are proved to perform.
- **C# events.** An event is an invocation list of handler ids. Raising it appends one log entry, holding the payload and the recipients, when the list is non-empty; this is the `?.Invoke` pattern.
- **Exceptions.** Exceptions are `Fail`/`Err` results.
- **Floats.** Floats are reals. The NaN of an untouched finger is the constructor `NotANumber`.

## Model

| member | source | states |
|---|---|---|
| BaseInputDevice.InstanceIdRoundTrip | src/Radish.Windowing.SDL3/InputDevices/SdlBaseInputDevice.cs:9-13 | An instance id stored as `NativeHandle` reads back unchanged as `InstanceId`. |
| EnumUtility.IndexMapKeys | src/Radish.Windowing.SDL3/Utility/EnumUtility.cs:16-21 | The index map has a key for exactly the members `Enum.GetValues` lists. |
| EnumUtility.IndexMapRange | src/Radish.Windowing.SDL3/Utility/EnumUtility.cs:17-19 | Every index in the map lies in [0, N). |
| EnumUtility.IndexMapAt | src/Radish.Windowing.SDL3/Utility/EnumUtility.cs:17-19 | With distinct members, the member at position i maps to i. |
| EnumUtility.IndexMapSize | src/Radish.Windowing.SDL3/Utility/EnumUtility.cs:16-21 | With distinct members, the map has exactly N entries, so `Count` is N. |
| EnumUtility.IndexMapBijective | src/Radish.Windowing.SDL3/Utility/EnumUtility.cs:17-20 | Distinct members get distinct indices, and every index in [0, N) is used. |
| EnumUtility.IndexOf | src/Radish.Windowing.SDL3/Utility/EnumUtility.cs:17-19 | Looking up a listed member gives its position, below the map's size. |
| EnumUtility.GetEnumIndexMap | src/Radish.Windowing.SDL3/Utility/EnumUtility.cs:13-22 | The loop succeeds exactly when the members are distinct, and a repeated member makes `Dictionary.Add` fail. On success the dictionary maps each member to its position, has N entries, and holds only indices in [0, N). |
| InputEnums.EnumListsComplete | src/Radish.Windowing/InputDevices/GamepadButtons.cs:9-75 | The member lists that stand for `Enum.GetValues` name every member of each modelled enum once. |
| LinqExtensions.FirstMatchIsFirst | src/Radish.Windowing.SDL3/Utility/LinqExtensions.cs:7-17 | The first-match function finds nothing exactly when no item satisfies the predicate. Otherwise it finds an item that satisfies it, and no earlier item does. |
| LinqExtensions.FirstOrDefault | src/Radish.Windowing.SDL3/Utility/LinqExtensions.cs:7-17 | The `foreach` scan returns the first match (or `default` when nothing matches). It passes the same extra parameter on every call. It stops right after the first match, and reads every item when there is none. |
| VersionUtility.ParseFailsIffNegative | examples/SDL3Example/VersionUtility.cs:7 | With C#'s truncating `/` and `%`, parsing throws (the `Version` constructor rejects a negative part) exactly when the packed value is negative. |
| VersionUtility.ParseNonNegative | examples/SDL3Example/VersionUtility.cs:7 | For v >= 0: the major part is v / 1000000, minor and patch lie in [0, 999], and major*1000000 + minor*1000 + patch == v. |
| VersionUtility.ParseEncoded | examples/SDL3Example/VersionUtility.cs:7 | Decoding M*1000000 + m*1000 + p with m, p < 1000 gives back (M, m, p). |
| Gamepads.ButtonIndex | src/Radish.Windowing.SDL3/InputDevices/SdlGamepad.cs:18-19 | Every button has an index in `ButtonLookup`, below the size the button array is created with. |
| Gamepads.AxisIndex | src/Radish.Windowing.SDL3/InputDevices/SdlGamepad.cs:21-22 | Every axis has an index in `AxisLookup`, below the size the axis array is created with. |
| Gamepads.SdlTablesInvertible | src/Radish.Windowing.SDL3/InputDevices/SdlGamepad.cs:125-152 | The SDL-to-Radish button and axis tables never yield `None`. They are inverted by an independent reading of the SDL codes, so no two SDL codes share a slot, and every Radish button and axis is reachable. |
| Gamepads.ModelForTypeInvertible | src/Radish.Windowing.SDL3/InputDevices/SdlGamepad.cs:26-45 | Each of the nine specific models is reported for exactly one SDL gamepad type, and `SdlTypeOf` gives that type back. |
| Gamepads.ModelForType | src/Radish.Windowing.SDL3/InputDevices/SdlGamepad.cs:26-45 | `Model` is `Generic` exactly for the SDL gamepad types outside Xbox360..NintendoSwitchJoyconPair. |
| Gamepads.ButtonStepEffect | src/Radish.Windowing.SDL3/InputDevices/SdlGamepad.cs:69-76 | A button event sets the state of the one button its SDL code maps to, and every other button keeps its state. An unmapped code changes nothing. |
| Gamepads.NormaliseAxis | src/Radish.Windowing.SDL3/InputDevices/SdlGamepad.cs:84 | The corrected value always lies in [-1, 1]. The source's formula differs from it only at -32768. |
| Gamepads.NormaliseAxisProperties | src/Radish.Windowing.SDL3/InputDevices/SdlGamepad.cs:84 | Raw 32767 reads 1 and raw 0 reads 0. The sign is kept. Every raw value from -32767 up is `raw / 32767`, as written. |
| Gamepads.NormaliseAxisAsWrittenLeavesRange | src/Radish.Windowing.SDL3/InputDevices/SdlGamepad.cs:84 | As written, the lowest reading -32768 normalises below -1. |
| Gamepads.AxisStepEffect | src/Radish.Windowing.SDL3/InputDevices/SdlGamepad.cs:78-85 | An axis event stores the corrected normalised reading in its own axis only, and every other axis keeps its value. An unmapped code changes nothing. |
| Gamepads.InitialFingers | src/Radish.Windowing.SDL3/InputDevices/SdlGamepad.cs:59-66 | The initial slots have one touchpad per reported count, with that many fingers, none touching. |
| Gamepads.TouchStepEffect | src/Radish.Windowing.SDL3/InputDevices/SdlGamepad.cs:87-105 | A touchpad event keeps the slots' shape. Out-of-range touchpad or finger indices change nothing. Up resets its slot to ((NaN,NaN), -1), which reports not touching. Down and Motion write (x, y, pressure). Every other slot is unchanged. |
| Gamepads.SdlGamepad.constructor | src/Radish.Windowing.SDL3/InputDevices/SdlGamepad.cs:50-67 | The nested loops give every finger slot the untouched sentinel. No button is pressed and every axis reads 0. The arrays are sized by the index maps. |
| Gamepads.SdlGamepad.IsPressed | src/Radish.Windowing.SDL3/InputDevices/SdlGamepad.cs:107-113 | Reads the button's bit; `None` is never pressed. |
| Gamepads.SdlGamepad.GetAxisValue | src/Radish.Windowing.SDL3/InputDevices/SdlGamepad.cs:115-121 | Reads the axis' slot; `None` always reads 0. |
| Gamepads.SdlGamepad.ProcessButtonEvent | src/Radish.Windowing.SDL3/InputDevices/SdlGamepad.cs:69-76 | Writes only the button array, which becomes `ButtonStep` of its old contents. |
| Gamepads.SdlGamepad.ProcessAxisEvent | src/Radish.Windowing.SDL3/InputDevices/SdlGamepad.cs:78-85 | Writes only the axis array, which becomes `AxisStep` of its old contents (corrected normalisation). |
| Gamepads.SdlGamepad.ProcessTouchpadEvent | src/Radish.Windowing.SDL3/InputDevices/SdlGamepad.cs:87-105 | Writes at most the finger array of the event's touchpad. The finger slots become `TouchStep` of the old ones. |
| Gamepads.SdlGamepad.ProcessRemapEvent | src/Radish.Windowing.SDL3/InputDevices/SdlGamepad.cs:123 | Raises `Remapped` to its subscribers, and to no one when there are none. |
| Mice.ButtonIndex | src/Radish.Windowing.SDL3/InputDevices/SdlMouse.cs:11-12 | Every mouse button has an index in `ButtonMap`, below the size of the button array. |
| Mice.MouseButtonFromSdl | src/Radish.Windowing.SDL3/InputDevices/SdlMouse.cs:41-54 | The corrected mapping: 1 gives Mouse1, 2 gives Mouse3, 3 gives Mouse2, 4 gives Mouse4, 5 gives Mouse5. A button is found exactly for 1..5. |
| Mice.MouseButtonAsWrittenAgreesBelow33 | src/Radish.Windowing.SDL3/InputDevices/SdlMouse.cs:41-50 | For SDL button numbers below 33, the shift-and-switch as written agrees with the corrected mapping. |
| Mice.MouseButtonAsWrittenAliases | src/Radish.Windowing.SDL3/InputDevices/SdlMouse.cs:41 | As written, SDL button 33 is read as Mouse1, because C# masks the shift count to five bits. |
| Mice.MouseButtonFromSdlInjective | src/Radish.Windowing.SDL3/InputDevices/SdlMouse.cs:42-50 | Distinct SDL buttons never map to the same Radish button. |
| Mice.ButtonStepEffect | src/Radish.Windowing.SDL3/InputDevices/SdlMouse.cs:38-62 | A button event sets only its button's bit, for the button the corrected mapping gives. A press raises exactly `ButtonDown(btn, true)` and a release raises exactly `ButtonUp(btn, false)`, each only when subscribed. An unknown button changes and raises nothing. |
| Mice.MotionStepsKeepLast | src/Radish.Windowing.SDL3/InputDevices/SdlMouse.cs:64-68 | After several motion events, position and delta are the last event's own values, not a sum. The wheel is untouched. |
| Mice.WheelStepsKeepLast | src/Radish.Windowing.SDL3/InputDevices/SdlMouse.cs:70-73 | After several wheel events the wheel axes are the last event's, not a sum. Position and delta are untouched. |
| Mice.SdlMouse.constructor | src/Radish.Windowing.SDL3/InputDevices/SdlMouse.cs:23-28 | A new mouse has no button pressed, zero position, delta and wheel, and no subscribers. |
| Mice.SdlMouse.IsPressed | src/Radish.Windowing.SDL3/InputDevices/SdlMouse.cs:30-36 | Reads the button's bit; `None` is never pressed. |
| Mice.SdlMouse.ProcessButtonEvent | src/Radish.Windowing.SDL3/InputDevices/SdlMouse.cs:38-62 | The bits become `ButtonStep` of the old ones (corrected mapping), and the log grows by `ButtonNotifications`. Position, delta, wheel and subscriptions are unchanged. |
| Mice.SdlMouse.ProcessMotionEvent | src/Radish.Windowing.SDL3/InputDevices/SdlMouse.cs:64-68 | Overwrites position and delta with the event's values, and nothing else. |
| Mice.SdlMouse.ProcessWheelEvent | src/Radish.Windowing.SDL3/InputDevices/SdlMouse.cs:70-73 | Overwrites the wheel axes with the event's values, and nothing else. |
| Mice.SdlMouse.ClearEvents | src/Radish.Windowing.SDL3/InputDevices/SdlMouse.cs:75-79 | Leaves `ButtonDown` and `ButtonUp` with no subscribers. Button and position state and the log are unchanged. |
| Keyboards.KeyIndex | src/Radish.Windowing.SDL3/InputDevices/SdlKeyboard.cs:11-13 | Every key has an index in `KeyIndexLookup`, below the key mask's length, so every lookup is in bounds. |
| Keyboards.TablesInverse | src/Radish.Windowing.SDL3/InputDevices/SdlKeyboard.cs:60-82 | The keycode tables are mutual inverses, and so are the scancode tables. None of them involves `Keys.None` or SDL's `Unknown`. |
| Keyboards.KeyStepEffect | src/Radish.Windowing.SDL3/InputDevices/SdlKeyboard.cs:28-36 | A key event sets only the key its scancode maps to. An unknown scancode changes nothing. |
| Keyboards.PressThenReleaseIsUp | src/Radish.Windowing.SDL3/InputDevices/SdlKeyboard.cs:28-36 | A press followed by a release of the same scancode leaves that key up. |
| Keyboards.KeycodeToScancode | src/Radish.Windowing.SDL3/InputDevices/SdlKeyboard.cs:40-48 | A key missing from `RadishToSdlKeys` translates to `None` without consulting SDL. |
| Keyboards.ScancodeToKeycode | src/Radish.Windowing.SDL3/InputDevices/SdlKeyboard.cs:50-58 | A key missing from `RadishToSdlScancodes` translates to `None` without consulting SDL. |
| Keyboards.TranslationRoundTrip | src/Radish.Windowing.SDL3/InputDevices/SdlKeyboard.cs:40-58 | When the layout's two SDL lookups invert each other, keycode-to-scancode-to-keycode returns the key, and so does the other direction. |
| Keyboards.SdlKeyboard.constructor | src/Radish.Windowing.SDL3/InputDevices/SdlKeyboard.cs:13-18 | A new keyboard has every key unpressed, and its mask is sized by the index map. |
| Keyboards.SdlKeyboard.IsPressed | src/Radish.Windowing.SDL3/InputDevices/SdlKeyboard.cs:20-26 | Reads the key's bit; `None` is never pressed. |
| Keyboards.SdlKeyboard.ProcessKeyEvent | src/Radish.Windowing.SDL3/InputDevices/SdlKeyboard.cs:28-36 | Writes only the key mask, which becomes `KeyStep` of its old contents. |
| InputContext.LookupInsert | src/Radish.Windowing.SDL3/InputDevices/Sdl3InputContext.cs:271-282 | The dictionary insert in `AddInputDevice` changes only the entry under the device's class and id. |
| InputContext.LookupDelete | src/Radish.Windowing.SDL3/InputDevices/Sdl3InputContext.cs:291-302 | The dictionary removal in `RemoveInputDevice` clears only the entry under the device's class and id. |
| InputContext.LookupRegistered | src/Radish.Windowing.SDL3/InputDevices/Sdl3InputContext.cs:48-50 | Under the invariant, every dictionary entry is a device of that class, with that id, held in `_devices`. |
| InputContext.AddNew | src/Radish.Windowing.SDL3/InputDevices/Sdl3InputContext.cs:268-286 | Adding a device whose id is free succeeds and keeps the invariant. The device is appended to `_devices`, becomes the entry under its id, and leaves `_removedDevices`; nothing else changes. |
| InputContext.AddKeepsValid | src/Radish.Windowing.SDL3/InputDevices/Sdl3InputContext.cs:268-286 | Adding a correctly sized tracker keeps every held tracker correctly sized. |
| InputContext.AddDuplicate | src/Radish.Windowing.SDL3/InputDevices/Sdl3InputContext.cs:270-280 | Adding a device whose id is taken fails after `_devices` has grown, and leaves the registry inconsistent. |
| InputContext.RemoveRegistered | src/Radish.Windowing.SDL3/InputDevices/Sdl3InputContext.cs:288-306 | Removing a registered device keeps the invariant. It leaves `_devices` and its dictionary and is appended to `_removedDevices`. Every other device and entry stays. |
| InputContext.RemoveKeepsValid | src/Radish.Windowing.SDL3/InputDevices/Sdl3InputContext.cs:288-306 | Removal keeps every held tracker correctly sized. |
| InputContext.AddRemoveRoundTrip | src/Radish.Windowing.SDL3/InputDevices/Sdl3InputContext.cs:268-306 | Connecting a never-seen device and disconnecting it restores every collection. The exception is `_removedDevices`, which now ends with the device. |
| InputContext.FirstPickedIndex | src/Radish.Windowing.SDL3/InputDevices/Sdl3InputContext.cs:141-143 | Finds the position of the first device of the class whose id matches, or the end of the list when there is none. |
| InputContext.OfTypeFirstMatch | src/Radish.Windowing.SDL3/InputDevices/Sdl3InputContext.cs:141-143 | `OfType<T>().FirstOrDefault(id match)` returns the first device in `_removedDevices` that is of the class and has the id. |
| InputContext.ReusableIsFirst | src/Radish.Windowing.SDL3/InputDevices/Sdl3InputContext.cs:141-144 | A removed device of the right class and id is found exactly when one exists, and then it is the earliest one. |
| InputContext.Sdl3InputContext.constructor | src/Radish.Windowing.SDL3/InputDevices/Sdl3InputContext.cs:45-60 | A new context is subscribed to the window, has an empty registry that satisfies the invariant, and has no subscribers. |
| InputContext.Sdl3InputContext.AddInputDevice | src/Radish.Windowing.SDL3/InputDevices/Sdl3InputContext.cs:268-286 | Performs `Add` on the registry, including the partial update when `Dictionary.Add` throws. It raises exactly one `DeviceAdded` on success, and keeps `Valid`. |
| InputContext.Sdl3InputContext.RemoveInputDevice | src/Radish.Windowing.SDL3/InputDevices/Sdl3InputContext.cs:288-306 | Performs `Remove` on the registry and raises exactly one `DeviceRemoved`. It keeps `Valid` for a registered device. |
| InputContext.Sdl3InputContext.HandleGamepadConnectionEvent | src/Radish.Windowing.SDL3/InputDevices/Sdl3InputContext.cs:161-186 | Added reuses the earliest removed gamepad with that id, or else creates a fresh, untouched one, and adds it. Removed of an unknown id fails with nothing changed. Removed of a known id removes the device. |
| InputContext.Sdl3InputContext.Disconnect | src/Radish.Windowing.SDL3/InputDevices/Sdl3InputContext.cs:176-185 | A Removed event of an unregistered id fails with `NotRegistered` and changes nothing. A registered one is removed as by `RemoveInputDevice`. The invariant is kept. |
| InputContext.Sdl3InputContext.HandleKeyboardConnectionEvent | src/Radish.Windowing.SDL3/InputDevices/Sdl3InputContext.cs:134-159 | The same as for gamepads, for keyboards. |
| InputContext.Sdl3InputContext.HandleMouseConnectionEvent | src/Radish.Windowing.SDL3/InputDevices/Sdl3InputContext.cs:216-241 | The same as for gamepads, for mice. |
| InputContext.Sdl3InputContext.HandleKeyboardKeyEvent | src/Radish.Windowing.SDL3/InputDevices/Sdl3InputContext.cs:127-132 | Applies `KeyStep` to the key mask of the registered keyboard with the event's id, and writes nothing else. With no such keyboard, its frame is empty, so nothing changes. |
| InputContext.Sdl3InputContext.HandleGamepadButtonEvent | src/Radish.Windowing.SDL3/InputDevices/Sdl3InputContext.cs:188-193 | Applies the gamepad button step to the button array of the registered gamepad with the event's id. Its axes, fingers, `Remapped` subscribers and log are unchanged, and nothing else is written. |
| InputContext.Sdl3InputContext.HandleGamepadAxisEvent | src/Radish.Windowing.SDL3/InputDevices/Sdl3InputContext.cs:195-200 | Applies `AxisStep` (corrected normalisation) to the axis array of the registered gamepad with the event's id. Its buttons, fingers, `Remapped` subscribers and log are unchanged, and nothing else is written. |
| InputContext.Sdl3InputContext.HandleGamepadTouchEvent | src/Radish.Windowing.SDL3/InputDevices/Sdl3InputContext.cs:202-207 | Applies `TouchStep` to the fingers of the registered gamepad with the event's id, writing only the touched touchpad's array. Its buttons, axes, `Remapped` subscribers and log are unchanged. |
| InputContext.Sdl3InputContext.HandleRemappedEvent | src/Radish.Windowing.SDL3/InputDevices/Sdl3InputContext.cs:209-214 | Raises `Remapped` on the registered gamepad with that id. Its subscribers, buttons, axes and fingers are unchanged, and nothing else is written. |
| InputContext.Sdl3InputContext.HandleMouseButtonEvent | src/Radish.Windowing.SDL3/InputDevices/Sdl3InputContext.cs:243-248 | Applies the mouse button step (corrected mapping) and its notifications to the registered mouse with the event's id. Its readings and `ButtonDown`/`ButtonUp` subscribers are unchanged, and nothing else is written. |
| InputContext.Sdl3InputContext.HandleMouseMotionEvent | src/Radish.Windowing.SDL3/InputDevices/Sdl3InputContext.cs:250-255 | Applies `MotionStep` to the readings of the registered mouse with the event's id. Its button bits, log and subscribers are unchanged, and nothing else is written. |
| InputContext.Sdl3InputContext.HandleMouseWheelEvent | src/Radish.Windowing.SDL3/InputDevices/Sdl3InputContext.cs:257-262 | Applies `WheelStep` to the readings of the registered mouse with the event's id. Its log and subscribers are unchanged, and its button bits are outside the frame. Nothing calls it. |
| InputContext.Sdl3InputContext.OnEvent | src/Radish.Windowing.SDL3/InputDevices/Sdl3InputContext.cs:66-125 | Each event type goes to its handler. Connection events change the registry. `TextInput` raises `TextInput`. A state event applies its step to the part of the tracker it is routed to that the handler writes, keeps the rest of that tracker, and changes nothing when its id is unregistered. Mouse wheel, Quit and other events change nothing. `Valid` is kept whenever no exception is raised. |
| InputContext.Sdl3InputContext.Dispose | src/Radish.Windowing.SDL3/InputDevices/Sdl3InputContext.cs:374-385 | Unsubscribes from the window and empties all five collections. |
| Windows.WindowFlagsMeaning | src/Radish.Windowing.SDL3/Sdl3Window.cs:120-150 | High pixel density is always set. Hidden and Resizable are set iff requested. Exactly the API flag of the window type is set: none for `None` or for missing SDL3 parameters. No other flag is set. Any other window type is refused with `ArgumentOutOfRangeException`. |
| Windows.ShouldCloseVeto | src/Radish.Windowing.SDL3/Sdl3Window.cs:198-203 | Subscribers that leave `ShouldClose` alone let the window close. A last subscriber that always clears it keeps the window open. |
| Windows.FirstQuitFrame | src/Radish.Windowing.SDL3/Sdl3Window.cs:178-185 | The index of the first batch of events holding a Quit, and no earlier batch holds one. |
| Windows.FramesRunStopsAtFirstQuit | src/Radish.Windowing.SDL3/Sdl3Window.cs:166-174 | Once the close flag is set, the loop runs no iteration. If the subscribers veto, it runs every frame. Otherwise it stops right after the first frame with a Quit event. |
| Windows.Sdl3Window.constructor | src/Radish.Windowing.SDL3/Sdl3Window.cs:112-116 | A new window has no native handle, no close request and no subscribers. |
| Windows.Sdl3Window.ThrowIfNativeHandleInvalid | src/Radish.Windowing.SDL3/Sdl3Window.cs:225-229 | Fails with `NativeWindowException` exactly when the handle is zero. |
| Windows.Sdl3Window.CreateInput | src/Radish.Windowing.SDL3/Sdl3Window.cs:75-79 | Fails exactly when the handle is zero, and otherwise returns a fresh, empty, consistent input context. |
| Windows.Sdl3Window.CreateWindowInternal | src/Radish.Windowing.SDL3/Sdl3Window.cs:118-160 | Passes `WindowFlags` of the init parameters to SDL's window creation, and stores the handle. It fails on an unknown window type before creating anything, and fails on a zero handle. |
| Windows.Sdl3Window.ProcessQuitEvent | src/Radish.Windowing.SDL3/Sdl3Window.cs:190-204 | A forced request sets the close flag without raising `CloseRequested`. A plain one raises it with `ShouldClose = true` and sets the flag only if the subscribers leave it true. The flag is never reset. |
| Windows.Sdl3Window.Close | src/Radish.Windowing.SDL3/Sdl3Window.cs:94 | Behaves as `ProcessQuitEvent(force)`. |
| Windows.Sdl3Window.PollEvents | src/Radish.Windowing.SDL3/Sdl3Window.cs:176-188 | For each queued event in order, a Quit is handled as a plain close request before `EventProcess` is raised with the event. The flag is set iff it was, or a Quit arrived and the subscribers agreed. |
| Windows.Sdl3Window.RunIteration | src/Radish.Windowing.SDL3/Sdl3Window.cs:170-172 | One loop body: the close flag becomes the batch fold, and the log grows by the batch's raises, then `Updated(0)`, then `Rendered(0)`. The handle and subscriptions are unchanged. |
| Windows.Sdl3Window.RunMainLoop | src/Radish.Windowing.SDL3/Sdl3Window.cs:166-174 | Runs poll, then `Update`, then `Render` (each with a zero time span) for exactly `FramesRun` frames, stopping early only because the close flag is set. |
| Windows.Sdl3Window.Run | src/Radish.Windowing.SDL3/Sdl3Window.cs:85-91 | Creates the window, raises `Loaded`, runs the main loop, then raises `Closing`. If creation fails, nothing is raised and no frame runs. |
| Windows.Sdl3Window.Dispose | src/Radish.Windowing.SDL3/Sdl3Window.cs:215-223 | Destroys a live window once and zeroes the handle. A second call destroys nothing. |

## Left out

- Text input control (`BeginTextInput`, `EndTextInput`, `SetTextInputArea`) is left out. These only pass settings to SDL. The `TextInput` event itself is modelled, with its text given as a string.
- SDL queries are parameters of the operation that makes them, not calls:
  - the touchpad and finger counts of a new gamepad (`fingerCounts`);
  - `GetScancodeFromKey` and `GetKeyFromScancode` (`scancodeFromKey` and `keyFromScancode`);
  - the gamepad type behind `Model` (`sdlType`);
  - window creation (`createWindow`, from flags to handle).

  The SDL event queue is a sequence of events per main-loop iteration.
- Windows.Sdl3Window.RunMainLoop: the C# loop runs until closed. The model receives a finite sequence of per-iteration event batches, and also stops when they run out.
- The `EventProcess` subscribers, including the input context's `OnEvent`, are recorded in the log as recipients but not run from the window. `OnEvent` is modelled on its own. The context's subscription is the flag `subscribed`, not an entry in the window's list.
- `CloseRequested` subscribers are modelled by what they do to `ShouldClose` (`decide`). Each subscriber's decision is the same on every request: a subscriber with its own state, such as one that vetoes the first Quit and accepts the second, is not modelled. No subscriber changes a subscription list while it runs.
- The window's `Loaded`, `Update`, `Render` and `Closing` subscribers are only recorded in the log as recipients. They do not run. So no `Update` subscriber can call `Close`, and `FramesRun` ends the loop only on a Quit event whose close request is not vetoed (or when the frames run out).
- Floating point is modelled with reals, with `NotANumber` for the untouched finger position. IEEE rounding of `raw / 32767` is not modelled.
- `Keys` is a subset of the 677-line enum, holding the members the tables name and a few others. Only the `A` entry of the keycode and scancode tables exists in the source.
- `Sdl3Window.Title` and `IsVisible` are left out: they are SDL property calls behind `ThrowIfNativeHandleInvalid`. So is the default title from the application domain's name, and the window's size.
- The static SDL initialisation, the AppDomain unload hook, the window finaliser, `SdlDisplay`, `ToString` names and the `WindowingProvider` registration are not modelled.
- `WindowInitParameters` is not part of this model beyond the three fields window creation reads (`Hidden`, `Resizable`, `BackendParameters`).
- Mice.ShiftLeftInt32: returns the C# `int` result as a Dafny `int` in [-2^31, 2^31). Only the values the `switch` compares against matter.
- The keyboard follows `SdlKeyboard`, whose `IsPressed` takes `Keys`, where the `IKeyboard` interface speaks of scancodes.
- Lazy device registration on first input, per-frame wheel reset and delta accumulation are not modelled, because the source does none of these. Devices register only on Added events, motion and wheel values are overwritten, and wheel events are dropped by `OnEvent`.
- Mice.ButtonStepEffect: states the corrected button mapping `MouseButtonFromSdl`, not the source's `1 << Button - 1`. The two agree for every button number below 33 (`Mice.MouseButtonAsWrittenAgreesBelow33`). Above that the source aliases numbers onto buttons (the first Findings row).
- Mice.SdlMouse.ProcessButtonEvent: stores and raises the button the corrected mapping gives, for the same reason as `Mice.ButtonStepEffect`.
- InputContext.Sdl3InputContext.HandleMouseButtonEvent: routes to `Mice.SdlMouse.ProcessButtonEvent` and so follows the corrected mapping too.
- Gamepads.AxisStepEffect: states the corrected `NormaliseAxis`, not the source's `value / 32767`. The two agree for every raw value except -32768, where the source stores a value below -1 (`Gamepads.NormaliseAxisProperties`, second Findings row).
- Gamepads.SdlGamepad.ProcessAxisEvent: stores the corrected value, for the same reason as `Gamepads.AxisStepEffect`.
- InputContext.Sdl3InputContext.HandleGamepadAxisEvent: routes to `Gamepads.SdlGamepad.ProcessAxisEvent` and so stores the corrected value too.
- InputContext.Sdl3InputContext.OnEvent: mouse button and axis events follow the two corrected definitions above.
- The trackers' arrays are sized by the length of the member lists. `ButtonIndex`, `AxisIndex` and `KeyIndex` prove this length equal to the index map's `Count`.

## Findings

| source | as written | input that shows it | evidently intended | confidence | as-written member | corrected member |
|---|---|---|---|---|---|---|
| src/Radish.Windowing.SDL3/InputDevices/SdlMouse.cs:41 | `1 << @event.Button - 1` on `int`; C# uses only the low five bits of the shift count | SDL button number 33 (shift 32 acts as shift 0, giving the Left flag) | buttons 1..5 map to Mouse1, Mouse3, Mouse2, Mouse4, Mouse5, and every other number is ignored | not executed | Mice.MouseButtonAsWrittenAliases | Mice.MouseButtonFromSdl |
| src/Radish.Windowing.SDL3/InputDevices/SdlGamepad.cs:84 | `(float)@event.Value / short.MaxValue` | raw axis value -32768 gives about -1.00003 | axis values lie in [-1, 1] | not executed | Gamepads.NormaliseAxisAsWrittenLeavesRange | Gamepads.NormaliseAxis |

The rest of the model (`Mice.ButtonStep`, `Gamepads.AxisStep`) uses the corrected definitions. `Mice.MouseButtonAsWrittenAgreesBelow33` shows that the mouse correction changes nothing for real SDL button numbers below 33. `Gamepads.NormaliseAxisProperties` shows that the axis correction changes only the value -32768.
