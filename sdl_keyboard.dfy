/**
 * `SdlKeyboard`: press state per `Keys` member, and the translation between
 * keycodes (what a key types) and scancodes (where the key sits).
 */
module Keyboards {
  import opened Sdl
  import opened InputEnums
  import EnumUtility
  import BaseInputDevice

  /** `KeyIndexLookup`: key -> bit index. */
  const KeyIndexLookup: map<Keys, int> := EnumUtility.IndexMap(AllKeys)

  function KeyIndex(k: Keys): (i: nat)
    ensures k in KeyIndexLookup && KeyIndexLookup[k] == i
    ensures i < |KeyIndexLookup| == |AllKeys| && AllKeys[i] == k
  {
    EnumListsComplete();
    EnumUtility.IndexOf(AllKeys, k)
  }

  // The four translation tables. Only the `A` key is filled in.
  const SdlToRadishKeys: map<int, Keys> := map[KeycodeA := Keys.A]
  const RadishToSdlKeys: map<Keys, int> := map[Keys.A := KeycodeA]
  const SdlToRadishScancodes: map<int, Keys> := map[ScancodeA := Keys.A]
  const RadishToSdlScancodes: map<Keys, int> := map[Keys.A := ScancodeA]

  /** Each pair of tables is mutually inverse, and no table involves `None` or SDL's `Unknown` code. */
  lemma TablesInverse()
    ensures forall c | c in SdlToRadishKeys ::
              SdlToRadishKeys[c] in RadishToSdlKeys && RadishToSdlKeys[SdlToRadishKeys[c]] == c
    ensures forall k | k in RadishToSdlKeys ::
              RadishToSdlKeys[k] in SdlToRadishKeys && SdlToRadishKeys[RadishToSdlKeys[k]] == k
    ensures forall c | c in SdlToRadishScancodes ::
              SdlToRadishScancodes[c] in RadishToSdlScancodes && RadishToSdlScancodes[SdlToRadishScancodes[c]] == c
    ensures forall k | k in RadishToSdlScancodes ::
              RadishToSdlScancodes[k] in SdlToRadishScancodes && SdlToRadishScancodes[RadishToSdlScancodes[k]] == k
    ensures Keys.None !in RadishToSdlKeys && Keys.None !in RadishToSdlScancodes
    ensures KeycodeUnknown !in SdlToRadishKeys && ScancodeUnknown !in SdlToRadishScancodes
  {
  }

  /** `SdlToRadishScancodes.GetValueOrDefault(code, Keys.None)`. */
  function KeyFromScancode(code: int): Keys
  {
    if code in SdlToRadishScancodes then SdlToRadishScancodes[code] else Keys.None
  }

  /** `IsPressed(k)` read off a key mask. */
  function Pressed(mask: seq<bool>, k: Keys): bool
    requires |mask| == |AllKeys|
  {
    if k == Keys.None then false else mask[KeyIndex(k)]
  }

  /** The key mask after `ProcessKeyEvent(e)`. */
  function KeyStep(mask: seq<bool>, e: KeyboardEvent): seq<bool>
    requires |mask| == |AllKeys|
  {
    var k := KeyFromScancode(e.scancode);
    if k == Keys.None then mask else mask[KeyIndex(k) := e.down]
  }

  /** A key event sets the state of the key its scancode maps to and no other; an unknown scancode changes nothing. */
  lemma KeyStepEffect(mask: seq<bool>, e: KeyboardEvent, k: Keys)
    requires |mask| == |AllKeys|
    ensures |KeyStep(mask, e)| == |mask|
    ensures e.scancode !in SdlToRadishScancodes ==> KeyStep(mask, e) == mask
    ensures Pressed(KeyStep(mask, e), k) ==
              if k != Keys.None && k == KeyFromScancode(e.scancode) then e.down else Pressed(mask, k)
  {
  }

  /** A press followed by a release of the same key leaves that key up, whatever it was before. */
  lemma PressThenReleaseIsUp(mask: seq<bool>, which: uint32, scancode: int)
    requires |mask| == |AllKeys|
    ensures !Pressed(KeyStep(KeyStep(mask, KeyboardEvent(which, scancode, true)), KeyboardEvent(which, scancode, false)),
                     KeyFromScancode(scancode))
  {
  }

  /**
   * `KeycodeToScancode(keycode)`: SDL's `GetScancodeFromKey`, which depends on the active
   * keyboard layout, is the parameter `scancodeFromKey`.
   */
  function KeycodeToScancode(keycode: Keys, scancodeFromKey: int -> int): (r: Keys)
    ensures keycode !in RadishToSdlKeys ==> r == Keys.None
  {
    var sdlKey := if keycode in RadishToSdlKeys then RadishToSdlKeys[keycode] else KeycodeUnknown;
    if sdlKey == KeycodeUnknown then Keys.None
    else KeyFromScancode(scancodeFromKey(sdlKey))
  }

  /** `ScancodeToKeycode(scancode)`: SDL's `GetKeyFromScancode` (with no modifiers) is the parameter `keyFromScancode`. */
  function ScancodeToKeycode(scancode: Keys, keyFromScancode: int -> int): (r: Keys)
    ensures scancode !in RadishToSdlScancodes ==> r == Keys.None
  {
    var sdlScancode := if scancode in RadishToSdlScancodes then RadishToSdlScancodes[scancode] else ScancodeUnknown;
    if sdlScancode == ScancodeUnknown then Keys.None
    else
      var key := keyFromScancode(sdlScancode);
      if key in SdlToRadishKeys then SdlToRadishKeys[key] else Keys.None
  }

  /**
   * When the layout's two lookups invert each other on the key in the tables, translating
   * a keycode to a scancode and back returns it, and the other way round.
   */
  lemma TranslationRoundTrip(k: Keys, scancodeFromKey: int -> int, keyFromScancode: int -> int)
    requires scancodeFromKey(KeycodeA) == ScancodeA && keyFromScancode(ScancodeA) == KeycodeA
    ensures k in RadishToSdlKeys ==> ScancodeToKeycode(KeycodeToScancode(k, scancodeFromKey), keyFromScancode) == k
    ensures k in RadishToSdlScancodes ==> KeycodeToScancode(ScancodeToKeycode(k, keyFromScancode), scancodeFromKey) == k
  {
  }

  class SdlKeyboard {
    const nativeHandle: int
    /** `_keyMask`. */
    const keyMask: array<bool>

    function InstanceId(): uint32
    {
      BaseInputDevice.InstanceIdOf(nativeHandle)
    }

    predicate Valid()
    {
      keyMask.Length == |AllKeys|
    }

    ghost function Objects(): set<object>
    {
      {this, keyMask}
    }

    constructor (instanceId: uint32)
      ensures Valid() && InstanceId() == instanceId && fresh(keyMask)
      ensures forall k :: !Pressed(keyMask[..], k)
    {
      nativeHandle := BaseInputDevice.HandleOf(instanceId);
      keyMask := new bool[|AllKeys|](_ => false);
      BaseInputDevice.InstanceIdRoundTrip(instanceId);
    }

    method IsPressed(scancode: Keys) returns (pressed: bool)
      requires Valid()
      ensures pressed == Pressed(keyMask[..], scancode)
      ensures scancode == Keys.None ==> !pressed
    {
      if scancode == Keys.None {
        return false;
      }
      return keyMask[KeyIndex(scancode)];
    }

    method ProcessKeyEvent(kb: KeyboardEvent)
      requires Valid()
      modifies keyMask
      ensures keyMask[..] == KeyStep(old(keyMask[..]), kb)
    {
      var sc := KeyFromScancode(kb.scancode);
      if sc == Keys.None {
        return;
      }
      keyMask[KeyIndex(sc)] := kb.down;
    }
  }
}
