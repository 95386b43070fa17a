/**
 * `Sdl3InputContext`: the registry of connected input devices and the router that hands
 * each SDL event to the tracker it concerns.
 *
 * The registry is five collections: `_devices` (every registered device, in connection
 * order), `_removedDevices` (disconnected devices kept for reuse), and one dictionary per
 * device class keyed by instance id. `Registry` is a snapshot of them, and `Inv` is the
 * consistency the add and remove operations keep.
 */
module InputContext {
  import opened Wrappers
  import opened Sdl
  import opened Lists
  import opened Delegates
  import opened LinqExtensions
  import opened Gamepads
  import opened Mice
  import opened Keyboards

  datatype DeviceKind = GamepadKind | MouseKind | KeyboardKind

  /** An `SdlBaseInputDevice`: a reference to one of the three trackers. Equality is reference equality. */
  datatype Device = Gamepad(gamepad: SdlGamepad) | Mouse(mouse: SdlMouse) | Keyboard(keyboard: SdlKeyboard)
  {
    function Kind(): DeviceKind
    {
      match this
      case Gamepad(_) => GamepadKind
      case Mouse(_) => MouseKind
      case Keyboard(_) => KeyboardKind
    }

    function InstanceId(): uint32
    {
      match this
      case Gamepad(g) => g.InstanceId()
      case Mouse(m) => m.InstanceId()
      case Keyboard(k) => k.InstanceId()
    }

    predicate Valid()
    {
      match this
      case Gamepad(g) => g.Valid()
      case Mouse(m) => m.Valid()
      case Keyboard(k) => k.Valid()
    }

    ghost function Objects(): set<object>
    {
      match this
      case Gamepad(g) => g.Objects()
      case Mouse(m) => m.Objects()
      case Keyboard(k) => k.Objects()
    }
  }

  datatype ContextError =
    | DuplicateKey   // `Dictionary.Add` on an id that is already registered
    | NotRegistered  // the `InvalidOperationException` of a Removed event for an unknown id

  /** What the context raises: `DeviceAdded`, `DeviceRemoved` and `TextInput`. */
  datatype ContextNotification = DeviceAdded(device: Device) | DeviceRemoved(device: Device) | TextInputted(text: string)

  // ---------------------------------------------------------------- the registry

  datatype Registry = Registry(
    devices: seq<Device>,
    removedDevices: seq<Device>,
    gamepads: map<uint32, SdlGamepad>,
    mice: map<uint32, SdlMouse>,
    keyboards: map<uint32, SdlKeyboard>)

  const EmptyRegistry: Registry := Registry([], [], map[], map[], map[])

  /** The dictionary of `kind` has an entry under `which`. */
  function Lookup(r: Registry, kind: DeviceKind, which: uint32): Option<Device>
  {
    match kind
    case GamepadKind => if which in r.gamepads then Some(Gamepad(r.gamepads[which])) else None
    case MouseKind => if which in r.mice then Some(Mouse(r.mice[which])) else None
    case KeyboardKind => if which in r.keyboards then Some(Keyboard(r.keyboards[which])) else None
  }

  /** `d`'s class dictionary has an entry under `d`'s id, for `d` or for another device. */
  predicate IdRegistered(r: Registry, d: Device)
  {
    Lookup(r, d.Kind(), d.InstanceId()).Some?
  }

  /** `d` itself is the entry under its id in its class dictionary. */
  predicate Registered(r: Registry, d: Device)
  {
    Lookup(r, d.Kind(), d.InstanceId()) == Some(d)
  }

  /**
   * The registry is consistent: `_devices` holds exactly the values of the three
   * dictionaries, once each; every dictionary entry is keyed by its device's own id;
   * and a device is never both registered and awaiting reuse.
   */
  predicate Inv(r: Registry)
  {
    && NoDuplicates(r.devices)
    && NoDuplicates(r.removedDevices)
    && (forall d | d in r.devices :: Registered(r, d))
    && (forall kind, which | Lookup(r, kind, which).Some? ::
          Lookup(r, kind, which).value in r.devices && Lookup(r, kind, which).value.InstanceId() == which)
    && (forall d | d in r.removedDevices :: d !in r.devices)
  }

  /** Every tracker the registry holds, registered or removed, has correctly sized state. */
  predicate AllValid(r: Registry)
  {
    && (forall d | d in r.devices :: d.Valid())
    && (forall d | d in r.removedDevices :: d.Valid())
  }

  /** The `switch` in `AddInputDevice`: `Dictionary.Add` under the device's id. */
  function Insert(r: Registry, d: Device): (r': Registry)
    ensures r'.devices == r.devices && r'.removedDevices == r.removedDevices
  {
    match d
    case Gamepad(g) => r.(gamepads := r.gamepads[g.InstanceId() := g])
    case Mouse(m) => r.(mice := r.mice[m.InstanceId() := m])
    case Keyboard(k) => r.(keyboards := r.keyboards[k.InstanceId() := k])
  }

  /** The `switch` in `RemoveInputDevice`: `Dictionary.Remove` of the device's id, whatever it maps to. */
  function Delete(r: Registry, d: Device): (r': Registry)
    ensures r'.devices == r.devices && r'.removedDevices == r.removedDevices
  {
    match d
    case Gamepad(g) => r.(gamepads := r.gamepads - {g.InstanceId()})
    case Mouse(m) => r.(mice := r.mice - {m.InstanceId()})
    case Keyboard(k) => r.(keyboards := r.keyboards - {k.InstanceId()})
  }

  /**
   * `AddInputDevice(d)` on a snapshot. The device is appended to `_devices` first; if its
   * id is already taken, `Dictionary.Add` throws and the append is all that happened.
   */
  function Add(r: Registry, d: Device): (Registry, Outcome<ContextError>)
  {
    var appended := r.(devices := r.devices + [d]);
    if IdRegistered(r, d) then (appended, Fail(DuplicateKey))
    else (Insert(appended, d).(removedDevices := RemoveFirst(r.removedDevices, d)), Pass)
  }

  /** `RemoveInputDevice(d)` on a snapshot. */
  function Remove(r: Registry, d: Device): Registry
  {
    Delete(r, d).(devices := RemoveFirst(r.devices, d), removedDevices := r.removedDevices + [d])
  }

  lemma LookupInsert(r: Registry, d: Device, kind: DeviceKind, which: uint32)
    ensures Lookup(Insert(r, d), kind, which) ==
              if kind == d.Kind() && which == d.InstanceId() then Some(d) else Lookup(r, kind, which)
  {
  }

  lemma LookupDelete(r: Registry, d: Device, kind: DeviceKind, which: uint32)
    ensures Lookup(Delete(r, d), kind, which) ==
              if kind == d.Kind() && which == d.InstanceId() then None else Lookup(r, kind, which)
  {
  }

  /** Under `Inv`, every dictionary entry is a registered device. */
  lemma LookupRegistered(r: Registry, kind: DeviceKind, which: uint32)
    requires Inv(r) && Lookup(r, kind, which).Some?
    ensures var d := Lookup(r, kind, which).value;
            d.Kind() == kind && d.InstanceId() == which && Registered(r, d) && d in r.devices
  {
  }

  /**
   * Adding a device whose id is free succeeds and keeps the registry consistent: the
   * device is appended to `_devices`, becomes the entry under its id, and leaves
   * `_removedDevices`; every other device keeps its place.
   */
  lemma AddNew(r: Registry, d: Device)
    requires Inv(r) && !IdRegistered(r, d)
    ensures var (r', outcome) := Add(r, d);
            && outcome == Pass
            && Inv(r')
            && r'.devices == r.devices + [d]
            && Registered(r', d)
            && (forall e :: e in r'.removedDevices <==> e in r.removedDevices && e != d)
            && (forall kind, which | kind != d.Kind() || which != d.InstanceId() ::
                  Lookup(r', kind, which) == Lookup(r, kind, which))
  {
    var (r', _) := Add(r, d);
    assert d !in r.devices;
    AppendNoDuplicates(r.devices, d);
    RemoveFirstElements(r.removedDevices, d);
    forall kind, which
      ensures Lookup(r', kind, which) ==
                if kind == d.Kind() && which == d.InstanceId() then Some(d) else Lookup(r, kind, which)
    {
      LookupInsert(r.(devices := r.devices + [d]), d, kind, which);
    }
    forall e | e in r'.devices
      ensures Registered(r', e)
    {
      if e != d {
        assert Registered(r, e);
      }
    }
  }

  /** Adding a valid device keeps every tracker the registry holds correctly sized. */
  lemma AddKeepsValid(r: Registry, d: Device)
    requires NoDuplicates(r.removedDevices) && AllValid(r) && d.Valid()
    ensures AllValid(Add(r, d).0)
  {
    var r' := Add(r, d).0;
    if !IdRegistered(r, d) {
      assert r'.removedDevices == RemoveFirst(r.removedDevices, d);
      RemoveFirstElements(r.removedDevices, d);
      forall e | e in r'.removedDevices
        ensures e.Valid()
      {
        RemoveFirstMember(r.removedDevices, d, e);
      }
    }
    assert r'.devices == r.devices + [d];
  }

  /**
   * Adding a device whose id is taken fails with `DuplicateKey` after `_devices` has
   * grown, and the registry it leaves behind is no longer consistent.
   */
  lemma AddDuplicate(r: Registry, d: Device)
    requires Inv(r) && IdRegistered(r, d)
    ensures var (r', outcome) := Add(r, d);
            && outcome == Fail(DuplicateKey)
            && r' == r.(devices := r.devices + [d])
            && !Inv(r')
  {
    var (r', _) := Add(r, d);
    if d in r.devices {
      var i :| 0 <= i < |r.devices| && r.devices[i] == d;
      assert r'.devices[i] == r'.devices[|r.devices|];
    } else {
      assert d in r'.devices && !Registered(r', d);
    }
  }

  /**
   * Removing a registered device keeps the registry consistent: it leaves `_devices` and
   * its dictionary, every other device stays, and it is appended to `_removedDevices`.
   */
  lemma RemoveRegistered(r: Registry, d: Device)
    requires Inv(r) && Registered(r, d)
    ensures var r' := Remove(r, d);
            && Inv(r')
            && (forall e :: e in r'.devices <==> e in r.devices && e != d)
            && r'.removedDevices == r.removedDevices + [d]
            && !IdRegistered(r', d)
            && (forall kind, which | kind != d.Kind() || which != d.InstanceId() ::
                  Lookup(r', kind, which) == Lookup(r, kind, which))
  {
    var r' := Remove(r, d);
    assert d in r.devices && d !in r.removedDevices;
    RemoveFirstElements(r.devices, d);
    AppendNoDuplicates(r.removedDevices, d);
    forall kind, which
      ensures Lookup(r', kind, which) ==
                if kind == d.Kind() && which == d.InstanceId() then None else Lookup(r, kind, which)
    {
      LookupDelete(r, d, kind, which);
      assert Lookup(r', kind, which) == Lookup(Delete(r, d), kind, which);
    }
    forall e | e in r'.devices
      ensures Registered(r', e)
    {
      assert Registered(r, e);
    }
    forall kind, which | Lookup(r', kind, which).Some?
      ensures Lookup(r', kind, which).value in r'.devices
    {
      var v := Lookup(r', kind, which).value;
      assert Lookup(r, kind, which) == Some(v);
      assert v != d;
    }
  }

  /** Removal keeps every tracker the registry holds correctly sized. */
  lemma RemoveKeepsValid(r: Registry, d: Device)
    requires NoDuplicates(r.devices) && d in r.devices && AllValid(r)
    ensures AllValid(Remove(r, d))
  {
    var r' := Remove(r, d);
    assert r'.devices == RemoveFirst(r.devices, d) && r'.removedDevices == r.removedDevices + [d];
    RemoveFirstElements(r.devices, d);
    forall e | e in r'.devices
      ensures e.Valid()
    {
      RemoveFirstMember(r.devices, d, e);
    }
  }

  /**
   * Connecting a device that was never seen and disconnecting it again restores every
   * collection except `_removedDevices`, which now remembers it for reuse.
   */
  lemma AddRemoveRoundTrip(r: Registry, d: Device)
    requires Inv(r) && !IdRegistered(r, d) && d !in r.removedDevices
    ensures Remove(Add(r, d).0, d) == r.(removedDevices := r.removedDevices + [d])
  {
    var r' := Add(r, d).0;
    assert d !in r.devices;
    RemoveFirstAbsent(r.removedDevices, d);
    RemoveFirstAbsent(r.devices, d);
    assert RemoveFirst(r.devices + [d], d) == r.devices by {
      RemoveFirstSplit(r.devices + [d], d);
      assert FirstIndex(r.devices + [d], d) == |r.devices|;
    }
    match d
    case Gamepad(g) => assert r'.gamepads - {g.InstanceId()} == r.gamepads;
    case Mouse(m) => assert r'.mice - {m.InstanceId()} == r.mice;
    case Keyboard(k) => assert r'.keyboards - {k.InstanceId()} == r.keyboards;
  }

  // ---------------------------------------------------------------- reuse of removed devices

  /** `OfType<B>()`: the elements `pick` accepts, in order. */
  function OfType<B>(ds: seq<Device>, pick: Device -> Option<B>): seq<B>
  {
    if ds == [] then []
    else (match pick(ds[0]) case Some(b) => [b] case None => []) + OfType(ds[1..], pick)
  }

  predicate Picked<B>(pick: Device -> Option<B>, matches: (B, uint32) -> bool, d: Device, which: uint32)
  {
    pick(d).Some? && matches(pick(d).value, which)
  }

  /** The position of the first device `pick` accepts and `matches` approves, or `|ds|` if there is none. */
  function FirstPickedIndex<B>(ds: seq<Device>, pick: Device -> Option<B>, matches: (B, uint32) -> bool,
                               which: uint32): (k: nat)
    ensures k <= |ds|
    ensures k < |ds| ==> Picked(pick, matches, ds[k], which)
    ensures forall j | 0 <= j < k :: !Picked(pick, matches, ds[j], which)
  {
    if ds == [] then 0
    else if Picked(pick, matches, ds[0], which) then 0
    else 1 + FirstPickedIndex(ds[1..], pick, matches, which)
  }

  /** Searching the filtered list finds the first device of the original list that is of the type and matches. */
  lemma {:induction false} OfTypeFirstMatch<B>(ds: seq<Device>, pick: Device -> Option<B>,
                                              matches: (B, uint32) -> bool, which: uint32)
    ensures var k := FirstPickedIndex(ds, pick, matches, which);
            FirstMatch(OfType(ds, pick), matches, which) == if k < |ds| then pick(ds[k]) else None
  {
    if ds != [] {
      var rest := ds[1..];
      OfTypeFirstMatch(rest, pick, matches, which);
      match pick(ds[0])
      case None =>
        assert OfType(ds, pick) == OfType(rest, pick);
      case Some(b) =>
        assert OfType(ds, pick) == [b] + OfType(rest, pick);
        assert ([b] + OfType(rest, pick))[1..] == OfType(rest, pick);
    }
  }

  function AsGamepad(d: Device): Option<SdlGamepad> { if d.Gamepad? then Some(d.gamepad) else None }
  function AsMouse(d: Device): Option<SdlMouse> { if d.Mouse? then Some(d.mouse) else None }
  function AsKeyboard(d: Device): Option<SdlKeyboard> { if d.Keyboard? then Some(d.keyboard) else None }

  /** The lambdas `(x, gpId) => x.InstanceId == gpId`. */
  predicate GamepadHasId(g: SdlGamepad, id: uint32) { g.InstanceId() == id }
  predicate MouseHasId(m: SdlMouse, id: uint32) { m.InstanceId() == id }
  predicate KeyboardHasId(k: SdlKeyboard, id: uint32) { k.InstanceId() == id }

  /** `_removedDevices.OfType<…>().FirstOrDefault(…, which)` for the class `kind`. */
  function Reusable(kind: DeviceKind, ds: seq<Device>, which: uint32): Option<Device>
  {
    match kind
    case GamepadKind =>
      (match FirstMatch(OfType(ds, AsGamepad), GamepadHasId, which) case Some(g) => Some(Gamepad(g)) case None => None)
    case MouseKind =>
      (match FirstMatch(OfType(ds, AsMouse), MouseHasId, which) case Some(m) => Some(Mouse(m)) case None => None)
    case KeyboardKind =>
      (match FirstMatch(OfType(ds, AsKeyboard), KeyboardHasId, which) case Some(k) => Some(Keyboard(k)) case None => None)
  }

  /**
   * The reuse lookup finds a removed device of the right class and id exactly when one
   * exists, and then the earliest one in `_removedDevices`.
   */
  lemma ReusableIsFirst(kind: DeviceKind, ds: seq<Device>, which: uint32)
    ensures Reusable(kind, ds, which).None? <==>
              forall i | 0 <= i < |ds| :: !(ds[i].Kind() == kind && ds[i].InstanceId() == which)
    ensures Reusable(kind, ds, which).Some? ==> exists k | 0 <= k < |ds| ::
              && ds[k] == Reusable(kind, ds, which).value
              && ds[k].Kind() == kind && ds[k].InstanceId() == which
              && forall j | 0 <= j < k :: !(ds[j].Kind() == kind && ds[j].InstanceId() == which)
  {
    var k: nat;
    match kind {
      case GamepadKind =>
        OfTypeFirstMatch(ds, AsGamepad, GamepadHasId, which);
        k := FirstPickedIndex(ds, AsGamepad, GamepadHasId, which);
      case MouseKind =>
        OfTypeFirstMatch(ds, AsMouse, MouseHasId, which);
        k := FirstPickedIndex(ds, AsMouse, MouseHasId, which);
      case KeyboardKind =>
        OfTypeFirstMatch(ds, AsKeyboard, KeyboardHasId, which);
        k := FirstPickedIndex(ds, AsKeyboard, KeyboardHasId, which);
    }
    assert Reusable(kind, ds, which) == if k < |ds| then Some(ds[k]) else None;
  }

  /** Where the router sends a per-device event: the registered device of that class and id, if any. */
  function Target(r: Registry, e: Event): Option<Device>
  {
    match e
    case Key(k) => Lookup(r, KeyboardKind, k.which)
    case GamepadButton(b) => Lookup(r, GamepadKind, b.which)
    case GamepadAxisMotion(a) => Lookup(r, GamepadKind, a.which)
    case GamepadTouchpad(t) => Lookup(r, GamepadKind, t.which)
    case GamepadRemapped(which) => Lookup(r, GamepadKind, which)
    case MouseButton(b) => Lookup(r, MouseKind, b.which)
    case MouseMotion(m) => Lookup(r, MouseKind, m.which)
    case _ => None
  }

  /**
   * The part of device `d` that the tracker method handling `e` writes: one state array, the
   * touched touchpad's finger array, or the tracker object itself for its event lists and readings.
   */
  ghost function Written(d: Device, e: Event): set<object>
  {
    match e
    case Key(_) => if d.Keyboard? then {d.keyboard.keyMask} else {}
    case GamepadButton(_) => if d.Gamepad? then {d.gamepad.buttonStates} else {}
    case GamepadAxisMotion(_) => if d.Gamepad? then {d.gamepad.axisStates} else {}
    case GamepadTouchpad(t) =>
      if d.Gamepad? && 0 <= t.touchpad < |d.gamepad.touchpads| then {d.gamepad.touchpads[t.touchpad]} else {}
    case GamepadRemapped(_) => if d.Gamepad? then {d.gamepad} else {}
    case MouseButton(_) => if d.Mouse? then {d.mouse, d.mouse.buttonStates} else {}
    case MouseMotion(_) => if d.Mouse? then {d.mouse} else {}
    case _ => {}
  }

  /** The gamepad's `Remapped` subscribers and its raised notifications are as they were. */
  twostate predicate GamepadListsKept(g: SdlGamepad)
    reads g
  {
    g.remapped == old(g.remapped) && g.notifications == old(g.notifications)
  }

  /** The mouse's `ButtonDown` and `ButtonUp` subscribers are as they were. */
  twostate predicate MouseListsKept(m: SdlMouse)
    reads m
  {
    m.buttonDown == old(m.buttonDown) && m.buttonUp == old(m.buttonUp)
  }

  // ---------------------------------------------------------------- the context

  class Sdl3InputContext {
    var devices: seq<Device>
    var removedDevices: seq<Device>
    var gamepads: map<uint32, SdlGamepad>
    var mice: map<uint32, SdlMouse>
    var keyboards: map<uint32, SdlKeyboard>
    /** The invocation lists of `TextInput`, `DeviceAdded` and `DeviceRemoved`. */
    var textInput: seq<HandlerId>
    var deviceAdded: seq<HandlerId>
    var deviceRemoved: seq<HandlerId>
    var notifications: seq<Notification<ContextNotification>>
    /** `OnEvent` is subscribed to the owner window's `EventProcess`. */
    var subscribed: bool

    function State(): Registry
      reads this
    {
      Registry(devices, removedDevices, gamepads, mice, keyboards)
    }

    predicate Valid()
      reads this
    {
      Inv(State()) && AllValid(State())
    }

    /** The trackers of the registered devices. */
    ghost function Footprint(): set<object>
      reads this
    {
      set d, o | d in devices && o in d.Objects() :: o
    }

    twostate predicate EventListsUnchanged()
      reads this
    {
      textInput == old(textInput) && deviceAdded == old(deviceAdded) && deviceRemoved == old(deviceRemoved)
      && subscribed == old(subscribed)
    }

    /** The effect of `AddInputDevice(d)`: the snapshot update, and `DeviceAdded` raised when it succeeds. */
    twostate predicate AddEffect(new d: Device, new outcome: Outcome<ContextError>)
      reads this
    {
      && (State(), outcome) == Add(old(State()), d)
      && notifications == old(notifications) + (if outcome.Pass? then Raise(deviceAdded, DeviceAdded(d)) else [])
      && EventListsUnchanged()
    }

    /** The effect of `RemoveInputDevice(d)`. */
    twostate predicate RemoveEffect(new d: Device)
      reads this
    {
      && State() == Remove(old(State()), d)
      && notifications == old(notifications) + Raise(deviceRemoved, DeviceRemoved(d))
      && EventListsUnchanged()
    }

    /** A newly created tracker of class `kind` for `which`, in its initial state. */
    twostate predicate NewDevice(new d: Device, kind: DeviceKind, which: uint32, fingerCounts: seq<nat>)
      reads d.Objects()
    {
      && d.Kind() == kind && d.InstanceId() == which && d.Valid()
      && match d
         case Gamepad(g) =>
           && fresh(g) && fresh(g.buttonStates) && fresh(g.axisStates) && (forall a | a in g.touchpads :: fresh(a))
           && g.Fingers() == InitialFingers(fingerCounts)
           && (forall b :: !Gamepads.Pressed(g.buttonStates[..], b))
           && (forall a :: AxisValue(g.axisStates[..], a) == 0.0)
         case Mouse(m) =>
           && fresh(m) && fresh(m.buttonStates)
           && (forall b :: !Mice.Pressed(m.buttonStates[..], b))
           && m.Readings() == Cursor(Zero, Zero, Zero)
         case Keyboard(k) =>
           && fresh(k) && fresh(k.keyMask)
           && (forall b :: !Keyboards.Pressed(k.keyMask[..], b))
    }

    /**
     * The effect of an Added event: the first removed device of that class and id is
     * reused, or else a new one is created, and it is added.
     */
    twostate predicate ConnectEffect(kind: DeviceKind, which: uint32, fingerCounts: seq<nat>,
                                     new outcome: Outcome<ContextError>)
      reads this, if |devices| > 0 then devices[|devices| - 1].Objects() else {}
    {
      && |devices| == |old(devices)| + 1
      && var d := devices[|devices| - 1];
      && (match Reusable(kind, old(removedDevices), which)
          case Some(reused) => d == reused
          case None => NewDevice(d, kind, which, fingerCounts))
      && AddEffect(d, outcome)
    }

    /** The effect of a Removed event: the registered device is removed, or the event fails. */
    twostate predicate DisconnectEffect(kind: DeviceKind, which: uint32, new outcome: Outcome<ContextError>)
      reads this
    {
      match Lookup(old(State()), kind, which)
      case Some(d) => outcome == Pass && RemoveEffect(d)
      case None => outcome == Fail(NotRegistered) && Quiet()
    }

    /** No collection, event list or log changes. */
    twostate predicate Quiet()
      reads this
    {
      State() == old(State()) && notifications == old(notifications) && EventListsUnchanged()
    }

    constructor ()
      ensures Valid() && State() == EmptyRegistry && subscribed
      ensures textInput == [] && deviceAdded == [] && deviceRemoved == [] && notifications == []
    {
      devices, removedDevices := [], [];
      gamepads, mice, keyboards := map[], map[], map[];
      textInput, deviceAdded, deviceRemoved := [], [], [];
      notifications := [];
      subscribed := true;
    }

    method AddInputDevice(device: Device) returns (outcome: Outcome<ContextError>)
      modifies this
      ensures AddEffect(device, outcome)
      ensures old(Valid()) && device.Valid() && outcome.Pass? ==> Valid()
    {
      devices := devices + [device];
      match device {
        case Gamepad(gp) =>
          if gp.InstanceId() in gamepads {
            return Fail(DuplicateKey);
          }
          gamepads := gamepads[gp.InstanceId() := gp];
        case Mouse(m) =>
          if m.InstanceId() in mice {
            return Fail(DuplicateKey);
          }
          mice := mice[m.InstanceId() := m];
        case Keyboard(k) =>
          if k.InstanceId() in keyboards {
            return Fail(DuplicateKey);
          }
          keyboards := keyboards[k.InstanceId() := k];
      }
      removedDevices := RemoveFirst(removedDevices, device);
      notifications := notifications + Raise(deviceAdded, DeviceAdded(device));
      outcome := Pass;
      if old(Valid()) {
        AddNew(old(State()), device);
        if device.Valid() {
          AddKeepsValid(old(State()), device);
        }
      }
    }

    method RemoveInputDevice(device: Device)
      modifies this
      ensures RemoveEffect(device)
      ensures old(Valid()) && Registered(old(State()), device) ==> Valid()
    {
      devices := RemoveFirst(devices, device);
      match device {
        case Gamepad(gp) => gamepads := gamepads - {gp.InstanceId()};
        case Mouse(m) => mice := mice - {m.InstanceId()};
        case Keyboard(k) => keyboards := keyboards - {k.InstanceId()};
      }
      removedDevices := removedDevices + [device];
      notifications := notifications + Raise(deviceRemoved, DeviceRemoved(device));
      assert State() == Remove(old(State()), device);
      if old(Valid()) && Registered(old(State()), device) {
        RemoveRegistered(old(State()), device);
        RemoveKeepsValid(old(State()), device);
      }
    }

    /** Removal for a Removed event of class `kind`; shared by the three connection handlers. */
    method Disconnect(kind: DeviceKind, which: uint32) returns (outcome: Outcome<ContextError>)
      requires Valid()
      modifies this
      ensures DisconnectEffect(kind, which, outcome)
      ensures Valid()
    {
      var existing := Lookup(State(), kind, which);
      if existing.None? {
        return Fail(NotRegistered);
      }
      LookupRegistered(State(), kind, which);
      RemoveInputDevice(existing.value);
      outcome := Pass;
    }

    method HandleGamepadConnectionEvent(e: Event, fingerCounts: seq<nat>) returns (outcome: Outcome<ContextError>)
      requires Valid()
      modifies this
      ensures e.GamepadAdded? ==> ConnectEffect(GamepadKind, e.which, fingerCounts, outcome)
      ensures e.GamepadRemoved? ==> DisconnectEffect(GamepadKind, e.which, outcome)
      ensures !e.GamepadAdded? && !e.GamepadRemoved? ==> outcome == Pass && Quiet()
      ensures outcome.Pass? ==> Valid()
    {
      if e.GamepadAdded? {
        var candidates := OfType(removedDevices, AsGamepad);
        var existing, _ := FirstOrDefault(candidates, GamepadHasId, e.which);
        var gp: SdlGamepad;
        if existing.Some? {
          gp := existing.value;
          ReusableIsFirst(GamepadKind, removedDevices, e.which);
        } else {
          gp := new SdlGamepad(e.which, fingerCounts);
        }
        outcome := AddInputDevice(Gamepad(gp));
      } else if e.GamepadRemoved? {
        outcome := Disconnect(GamepadKind, e.which);
      } else {
        outcome := Pass;
      }
    }

    method HandleKeyboardConnectionEvent(e: Event) returns (outcome: Outcome<ContextError>)
      requires Valid()
      modifies this
      ensures e.KeyboardAdded? ==> ConnectEffect(KeyboardKind, e.which, [], outcome)
      ensures e.KeyboardRemoved? ==> DisconnectEffect(KeyboardKind, e.which, outcome)
      ensures !e.KeyboardAdded? && !e.KeyboardRemoved? ==> outcome == Pass && Quiet()
      ensures outcome.Pass? ==> Valid()
    {
      if e.KeyboardAdded? {
        var candidates := OfType(removedDevices, AsKeyboard);
        var existing, _ := FirstOrDefault(candidates, KeyboardHasId, e.which);
        var kb: SdlKeyboard;
        if existing.Some? {
          kb := existing.value;
          ReusableIsFirst(KeyboardKind, removedDevices, e.which);
        } else {
          kb := new SdlKeyboard(e.which);
        }
        outcome := AddInputDevice(Keyboard(kb));
      } else if e.KeyboardRemoved? {
        outcome := Disconnect(KeyboardKind, e.which);
      } else {
        outcome := Pass;
      }
    }

    method HandleMouseConnectionEvent(e: Event) returns (outcome: Outcome<ContextError>)
      requires Valid()
      modifies this
      ensures e.MouseAdded? ==> ConnectEffect(MouseKind, e.which, [], outcome)
      ensures e.MouseRemoved? ==> DisconnectEffect(MouseKind, e.which, outcome)
      ensures !e.MouseAdded? && !e.MouseRemoved? ==> outcome == Pass && Quiet()
      ensures outcome.Pass? ==> Valid()
    {
      if e.MouseAdded? {
        var candidates := OfType(removedDevices, AsMouse);
        var existing, _ := FirstOrDefault(candidates, MouseHasId, e.which);
        var m: SdlMouse;
        if existing.Some? {
          m := existing.value;
          ReusableIsFirst(MouseKind, removedDevices, e.which);
        } else {
          m := new SdlMouse(e.which);
        }
        outcome := AddInputDevice(Mouse(m));
      } else if e.MouseRemoved? {
        outcome := Disconnect(MouseKind, e.which);
      } else {
        outcome := Pass;
      }
    }

    /** The trackers an event may write: the part of its target's state that the event's handler updates. */
    ghost function EventObjects(e: Event): set<object>
      reads this
    {
      match Target(State(), e)
      case Some(d) => Written(d, e)
      case None => {}
    }

    /** What a per-device event does to the tracker it is routed to; every other part of that tracker is kept. */
    twostate predicate Routed(target: Device, e: Event)
      reads target.Objects()
    {
      && target.Valid()
      && match e
         case Key(k) =>
           target.Keyboard? && target.keyboard.keyMask[..] == KeyStep(old(target.keyboard.keyMask[..]), k)
         case GamepadButton(b) =>
           && target.Gamepad?
           && target.gamepad.buttonStates[..] == Gamepads.ButtonStep(old(target.gamepad.buttonStates[..]), b)
           && target.gamepad.axisStates[..] == old(target.gamepad.axisStates[..])
           && target.gamepad.Fingers() == old(target.gamepad.Fingers())
           && GamepadListsKept(target.gamepad)
         case GamepadAxisMotion(a) =>
           && target.Gamepad?
           && target.gamepad.axisStates[..] == AxisStep(old(target.gamepad.axisStates[..]), a)
           && target.gamepad.buttonStates[..] == old(target.gamepad.buttonStates[..])
           && target.gamepad.Fingers() == old(target.gamepad.Fingers())
           && GamepadListsKept(target.gamepad)
         case GamepadTouchpad(t) =>
           && target.Gamepad?
           && target.gamepad.Fingers() == TouchStep(old(target.gamepad.Fingers()), t)
           && target.gamepad.buttonStates[..] == old(target.gamepad.buttonStates[..])
           && target.gamepad.axisStates[..] == old(target.gamepad.axisStates[..])
           && GamepadListsKept(target.gamepad)
         case GamepadRemapped(_) =>
           && target.Gamepad?
           && target.gamepad.notifications == old(target.gamepad.notifications) + Raise(target.gamepad.remapped, Remapped)
           && target.gamepad.remapped == old(target.gamepad.remapped)
           && target.gamepad.buttonStates[..] == old(target.gamepad.buttonStates[..])
           && target.gamepad.axisStates[..] == old(target.gamepad.axisStates[..])
           && target.gamepad.Fingers() == old(target.gamepad.Fingers())
         case MouseButton(b) =>
           && target.Mouse?
           && target.mouse.buttonStates[..] == Mice.ButtonStep(old(target.mouse.buttonStates[..]), b)
           && target.mouse.notifications ==
                old(target.mouse.notifications) + ButtonNotifications(target.mouse.buttonDown, target.mouse.buttonUp, b)
           && target.mouse.Readings() == old(target.mouse.Readings())
           && MouseListsKept(target.mouse)
         case MouseMotion(m) =>
           && target.Mouse?
           && target.mouse.Readings() == MotionStep(old(target.mouse.Readings()), m)
           && target.mouse.buttonStates[..] == old(target.mouse.buttonStates[..])
           && target.mouse.notifications == old(target.mouse.notifications)
           && MouseListsKept(target.mouse)
         case _ => true
    }

    method HandleKeyboardKeyEvent(e: KeyboardEvent)
      requires Valid()
      modifies EventObjects(Key(e))
      ensures Target(State(), Key(e)).Some? ==> Routed(Target(State(), Key(e)).value, Key(e))
    {
      var kb := Lookup(State(), KeyboardKind, e.which);
      if kb.Some? {
        LookupRegistered(State(), KeyboardKind, e.which);
        kb.value.keyboard.ProcessKeyEvent(e);
      }
    }

    method HandleGamepadButtonEvent(e: GamepadButtonEvent)
      requires Valid()
      modifies EventObjects(GamepadButton(e))
      ensures Target(State(), GamepadButton(e)).Some? ==> Routed(Target(State(), GamepadButton(e)).value, GamepadButton(e))
    {
      var gp := Lookup(State(), GamepadKind, e.which);
      if gp.Some? {
        LookupRegistered(State(), GamepadKind, e.which);
        gp.value.gamepad.ProcessButtonEvent(e);
      }
    }

    method HandleGamepadAxisEvent(e: GamepadAxisEvent)
      requires Valid()
      modifies EventObjects(GamepadAxisMotion(e))
      ensures Target(State(), GamepadAxisMotion(e)).Some? ==>
                Routed(Target(State(), GamepadAxisMotion(e)).value, GamepadAxisMotion(e))
    {
      var gp := Lookup(State(), GamepadKind, e.which);
      if gp.Some? {
        LookupRegistered(State(), GamepadKind, e.which);
        gp.value.gamepad.ProcessAxisEvent(e);
      }
    }

    method HandleGamepadTouchEvent(e: GamepadTouchpadEvent)
      requires Valid()
      modifies EventObjects(GamepadTouchpad(e))
      ensures Target(State(), GamepadTouchpad(e)).Some? ==>
                Routed(Target(State(), GamepadTouchpad(e)).value, GamepadTouchpad(e))
    {
      var gp := Lookup(State(), GamepadKind, e.which);
      if gp.Some? {
        LookupRegistered(State(), GamepadKind, e.which);
        gp.value.gamepad.ProcessTouchpadEvent(e);
      }
    }

    method HandleRemappedEvent(which: uint32)
      requires Valid()
      modifies EventObjects(GamepadRemapped(which))
      ensures Target(State(), GamepadRemapped(which)).Some? ==>
                Routed(Target(State(), GamepadRemapped(which)).value, GamepadRemapped(which))
    {
      var gp := Lookup(State(), GamepadKind, which);
      if gp.Some? {
        LookupRegistered(State(), GamepadKind, which);
        gp.value.gamepad.ProcessRemapEvent();
      }
    }

    method HandleMouseButtonEvent(e: MouseButtonEvent)
      requires Valid()
      modifies EventObjects(MouseButton(e))
      ensures Target(State(), MouseButton(e)).Some? ==> Routed(Target(State(), MouseButton(e)).value, MouseButton(e))
    {
      var m := Lookup(State(), MouseKind, e.which);
      if m.Some? {
        LookupRegistered(State(), MouseKind, e.which);
        m.value.mouse.ProcessButtonEvent(e);
      }
    }

    method HandleMouseMotionEvent(e: MouseMotionEvent)
      requires Valid()
      modifies EventObjects(MouseMotion(e))
      ensures Target(State(), MouseMotion(e)).Some? ==> Routed(Target(State(), MouseMotion(e)).value, MouseMotion(e))
    {
      var m := Lookup(State(), MouseKind, e.which);
      if m.Some? {
        LookupRegistered(State(), MouseKind, e.which);
        m.value.mouse.ProcessMotionEvent(e);
      }
    }

    /** Never called: `OnEvent` drops wheel events without reaching it. */
    method HandleMouseWheelEvent(e: MouseWheelEvent)
      requires Valid()
      modifies if e.which in mice then {mice[e.which]} else {}
      ensures e.which in mice ==> mice[e.which].Readings() == WheelStep(old(mice[e.which].Readings()), e)
      ensures e.which in mice ==>
                && mice[e.which].notifications == old(mice[e.which].notifications)
                && MouseListsKept(mice[e.which])
    {
      var m := Lookup(State(), MouseKind, e.which);
      if m.Some? {
        m.value.mouse.ProcessWheelEvent(e);
      }
    }

    /**
     * `OnEvent`: routes one SDL event. `fingerCounts` is what SDL reports for a gamepad
     * that a GamepadAdded event creates.
     */
    method OnEvent(e: Event, fingerCounts: seq<nat>) returns (outcome: Outcome<ContextError>)
      requires Valid()
      modifies this, EventObjects(e)
      ensures outcome.Pass? ==> Valid()
      ensures match e
        case GamepadAdded(which) => ConnectEffect(GamepadKind, which, fingerCounts, outcome)
        case GamepadRemoved(which) => DisconnectEffect(GamepadKind, which, outcome)
        case KeyboardAdded(which) => ConnectEffect(KeyboardKind, which, [], outcome)
        case KeyboardRemoved(which) => DisconnectEffect(KeyboardKind, which, outcome)
        case MouseAdded(which) => ConnectEffect(MouseKind, which, [], outcome)
        case MouseRemoved(which) => DisconnectEffect(MouseKind, which, outcome)
        case TextInput(text) =>
          && outcome == Pass && State() == old(State()) && EventListsUnchanged()
          && notifications == old(notifications) + Raise(textInput, TextInputted(text))
        case _ =>
          && outcome == Pass && Quiet()
          && (old(Target(State(), e)).Some? ==> Routed(old(Target(State(), e)).value, e))
    {
      match e {
        case GamepadAdded(_) =>
          outcome := HandleGamepadConnectionEvent(e, fingerCounts);
        case GamepadRemoved(_) =>
          outcome := HandleGamepadConnectionEvent(e, fingerCounts);
        case KeyboardAdded(_) =>
          outcome := HandleKeyboardConnectionEvent(e);
        case KeyboardRemoved(_) =>
          outcome := HandleKeyboardConnectionEvent(e);
        case MouseAdded(_) =>
          outcome := HandleMouseConnectionEvent(e);
        case MouseRemoved(_) =>
          outcome := HandleMouseConnectionEvent(e);
        case TextInput(text) =>
          notifications := notifications + Raise(textInput, TextInputted(text));
          outcome := Pass;
        case Key(k) =>
          HandleKeyboardKeyEvent(k);
          outcome := Pass;
        case GamepadButton(b) =>
          HandleGamepadButtonEvent(b);
          outcome := Pass;
        case GamepadAxisMotion(a) =>
          HandleGamepadAxisEvent(a);
          outcome := Pass;
        case GamepadTouchpad(t) =>
          HandleGamepadTouchEvent(t);
          outcome := Pass;
        case MouseButton(b) =>
          HandleMouseButtonEvent(b);
          outcome := Pass;
        case MouseMotion(m) =>
          HandleMouseMotionEvent(m);
          outcome := Pass;
        case MouseWheel(_) =>
          outcome := Pass;
        case GamepadRemapped(which) =>
          HandleRemappedEvent(which);
          outcome := Pass;
        case Quit =>
          outcome := Pass;
        case Unhandled(_) =>
          outcome := Pass;
      }
    }

    /** Unsubscribes from the window and empties all five collections. */
    method Dispose()
      modifies this
      ensures State() == EmptyRegistry && Valid() && !subscribed
      ensures notifications == old(notifications)
      ensures textInput == old(textInput) && deviceAdded == old(deviceAdded) && deviceRemoved == old(deviceRemoved)
    {
      subscribed := false;
      devices := [];
      removedDevices := [];
      gamepads := map[];
      mice := map[];
      keyboards := map[];
    }
  }
}
