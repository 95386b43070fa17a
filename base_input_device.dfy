/** `SdlBaseInputDevice`: a device's identity is its SDL instance id, stored as `NativeHandle`. */
module BaseInputDevice {
  import opened Sdl

  /** `NativeHandle = (IntPtr)instanceId`: the id zero-extended into a `IntPtr`. */
  function HandleOf(instanceId: uint32): int
  {
    instanceId
  }

  /** `InstanceId => (uint)NativeHandle`: the low 32 bits of the handle. */
  function InstanceIdOf(handle: int): uint32
  {
    handle % 0x1_0000_0000
  }

  /** The instance id survives the trip through `NativeHandle`. */
  lemma InstanceIdRoundTrip(instanceId: uint32)
    ensures InstanceIdOf(HandleOf(instanceId)) == instanceId
  {
  }
}
