# Device-manipulation registry of the input-emulator server driver

This project models, in Dafny, the bookkeeping core of the input-emulator
server driver (`ServerDriver`) and the interface-identity dispatch of the
motion-compensation driver's hooking layer (`InterfaceHooks::hookInterface`).

- `Registry.ServerDriver` is a class with the driver's containers as fields:
  the fixed 64-slot table from device index to handle (an `array`), the map
  from native driver reference to handle, the map from property container to
  handle, the per-sink injection queues, a 64-slot table of virtual devices,
  and the three property override strings plus the fake-controller flag.
  Its methods are the intercepted host callbacks (device added, device
  activated, pose updated, property batch written), the two handle lookups and
  the push and pop of injection events. `Valid()` states the registry's
  invariant: every handle reachable by index or by container is a registered
  handle. `Resolves` states the three-key agreement that activation
  establishes.
- `Registry.DeviceHandle` is the per-device handle, with the fields the
  registry writes: device index, property container, validity, hooks.
- `PropertyBatch` gives the meaning of a property-write pass as functions:
  `RewriteEntry` for one entry and `RewriteBatch` for a batch. `FirstMatch`
  is the device found by the fallback scan. Lemmas prove the pointwise
  reading, idempotence and least-index properties.
- `InjectionQueues` gives the queue map as values (`Push`, `Pop`). Its lemmas
  prove FIFO order and that other sinks are untouched.
- `HookDispatch.HookInterface` maps an interface name/version string to one
  of five hook kinds, or to nothing. Its lemmas prove that the match is exact.

Host services are parameters. `containerOf` stands for
`TrackedDeviceToPropertyContainer`, and `handlePoseUpdate` stands for the
handle's own pose logic. Pointers (driver, host, sink, event, interface) are
opaque `nat` tokens, and the event token 0 is the empty shared pointer.
Settings-store reads become `Option` parameters of `ApplySettings`.

The OpenVR constants come from the OpenVR driver header, which is not part of
this model: 64 tracked devices, HMD index 0, invalid index `0xFFFFFFFF`,
invalid container 0, and the property ids TrackingSystemName 1000,
ModelNumber 1001 and ManufacturerName 1005.

Points of the code worth knowing:
- `hookInterface` signals an unknown identity only by returning an empty
  handle; it has no duplicate-interception check.
- Re-reporting a driver reference keeps its first handle, because
  `std::map::insert` does not overwrite an existing key.
- The three keys agree right after an activation (`Resolves`). A later
  activation may reuse an index or a container and overwrite that slot. So
  the lasting invariant is only that every reachable handle is registered.

## Model

| member | source | states |
|---|---|---|
| `Registry.ServerDriver.constructor` | driver_vrinputemulator/src/driver/ServerDriver.cpp:18-21 | every slot of the index table is null (so every by-index lookup misses), no handles, no container entries, no queues, no overrides; the invariant holds |
| `Registry.DeviceHandle.constructor` | driver_vrinputemulator/src/driver/ServerDriver.cpp:55 | a new handle carries the serial, the reported class, the driver and host references and the interface version; its index and container are the invalid sentinels |
| `Registry.ServerDriver.ApplySettings` | driver_vrinputemulator/src/driver/ServerDriver.cpp:187-209 | each override string and the fake-controller flag takes the value read from the settings store when the read succeeds and otherwise keeps its value; the registry is untouched |
| `Registry.DisguisedClass` | driver_vrinputemulator/src/driver/ServerDriver.cpp:48-52 | the class changes exactly when it is GenericTracker and the fake-controller setting is on, and then it becomes Controller |
| `Registry.DisguiseHidesTrackers` | driver_vrinputemulator/src/driver/ServerDriver.cpp:49-52 | with the setting on no device is reported as a generic tracker; disguising is idempotent |
| `Registry.ServerDriver.TrackedDeviceAdded` | driver_vrinputemulator/src/driver/ServerDriver.cpp:43-61 | the reported class is the disguised class; a new driver reference gets a fresh handle with that class, unactivated, hooked as ITrackedDeviceServerDriver_005; a known reference keeps its old handle; the container map and queues are unchanged; the invariant is kept |
| `Registry.ServerDriver.TrackedDeviceActivated` | driver_vrinputemulator/src/driver/ServerDriver.cpp:64-79 | an unknown driver reference changes nothing; otherwise the handle records the index and the host's container, the table slot and the container entry point at it, and the driver reference, index and container all resolve to that one handle; the handle's validity and hooks are unchanged; the invariant is kept |
| `Registry.ServerDriver.TrackedDevicePoseUpdated` | driver_vrinputemulator/src/driver/ServerDriver.cpp:29-34 | an empty slot or an invalid handle means default delivery proceeds with the index, pose and struct size unchanged; otherwise the result and the three by-reference values are what the handle's pose logic decides |
| `Registry.ServerDriver.PropertiesWritePropertyBatch` | driver_vrinputemulator/src/driver/ServerDriver.cpp:127-161 | the batch becomes `RewriteBatch` of the old batch for the device resolved through the container map or, failing that, through the fallback scan |
| `Registry.WritePropertyBatchTwice` | driver_vrinputemulator/src/driver/ServerDriver.cpp:127-161 | writing the same batch twice leaves it as one write does |
| `Registry.ServerDriver.TrackedVirtualDeviceActivated` | driver_vrinputemulator/src/driver/ServerDriver.cpp:234-236 | the virtual-device slot for the index holds the device; the other slots are unchanged |
| `Registry.ServerDriver.TrackedVirtualDeviceDeactivated` | driver_vrinputemulator/src/driver/ServerDriver.cpp:238-240 | the virtual-device slot for the index is cleared; the other slots are unchanged |
| `Registry.ServerDriver.GetDeviceManipulationHandleById` | driver_vrinputemulator/src/driver/ServerDriver.cpp:263-269 | returns a handle exactly when the slot is non-empty and its handle valid, and then that handle, which is a registered one |
| `Registry.ServerDriver.GetDeviceManipulationHandleByPropertyContainer` | driver_vrinputemulator/src/driver/ServerDriver.cpp:272-279 | returns a handle exactly when the container is mapped, and then the mapped (registered) handle; nothing changes |
| `Registry.ServerDriver.AddDriverEventForInjection` | driver_vrinputemulator/src/driver/ServerDriver.cpp:287-290 | the queue map becomes `Push` of the old one; the registry and settings are unchanged |
| `Registry.ServerDriver.GetDriverEventForInjection` | driver_vrinputemulator/src/driver/ServerDriver.cpp:292-303 | the returned event and the new queue map are `Pop` of the old queue map; the registry and settings are unchanged |
| `Registry.DiscoverThenActivate` | driver_vrinputemulator/src/driver/ServerDriver.cpp:43-79 | after a device is reported and activated, the driver reference, index and container resolve to one handle, the by-container lookup returns it, and the by-index lookup does too while it is valid, in particular always for a driver reference reported for the first time |
| `PropertyBatch.OverrideBuffer` | driver_vrinputemulator/src/driver/ServerDriver.cpp:149-150 | an override buffer holds the override's characters followed by the terminator |
| `PropertyBatch.PointAt` | driver_vrinputemulator/src/driver/ServerDriver.cpp:149-150 | only the buffer and its size change; the size is the override's length plus one |
| `PropertyBatch.RewriteEntry` | driver_vrinputemulator/src/driver/ServerDriver.cpp:147-159 | ManufacturerName and TrackingSystemName entries with a non-empty override point at it; a ModelNumber entry does so only on the HMD index; entries with an empty override and all other properties are unchanged; the property and tag never change |
| `PropertyBatch.RewrittenSizeMatchesString` | driver_vrinputemulator/src/driver/ServerDriver.cpp:147-158 | every entry that is rewritten points at a driver string whose size counts the terminator |
| `PropertyBatch.RewriteEntryIdempotent` | driver_vrinputemulator/src/driver/ServerDriver.cpp:147-158 | rewriting an entry twice gives the entry rewritten once |
| `PropertyBatch.RewriteBatch` | driver_vrinputemulator/src/driver/ServerDriver.cpp:144-160 | the entry count is unchanged |
| `PropertyBatch.RewriteBatchAt` | driver_vrinputemulator/src/driver/ServerDriver.cpp:144-160 | entry k of the rewritten batch is entry k of the old batch, rewritten |
| `PropertyBatch.RewriteBatchIdempotent` | driver_vrinputemulator/src/driver/ServerDriver.cpp:144-160 | rewriting a batch twice gives the batch rewritten once |
| `PropertyBatch.FirstMatchIsLeast` | driver_vrinputemulator/src/driver/ServerDriver.cpp:136-142 | the scanned device is the smallest index below 64 whose container is the argument, or the invalid index when there is none |
| `PropertyBatch.ScanDevices` | driver_vrinputemulator/src/driver/ServerDriver.cpp:129-143 | the loop returns the smallest matching index below 64, or the invalid sentinel when no index matches |
| `InjectionQueues.Push` | driver_vrinputemulator/src/driver/ServerDriver.cpp:287-290 | the event is appended to the sink's queue, which is created if absent; every other sink's queue is unchanged |
| `InjectionQueues.Pop` | driver_vrinputemulator/src/driver/ServerDriver.cpp:292-303 | a non-empty queue yields its oldest event and loses only that one; an unknown sink or an empty queue yields (null, 0) and nothing changes; other sinks are untouched |
| `InjectionQueues.PushAllAppends` | driver_vrinputemulator/src/driver/ServerDriver.cpp:287-290 | pushing a sequence of events appends it in order and leaves other sinks alone |
| `InjectionQueues.PopManyTakesOldest` | driver_vrinputemulator/src/driver/ServerDriver.cpp:292-303 | popping n times yields the n oldest events, oldest first |
| `InjectionQueues.Fifo` | driver_vrinputemulator/src/driver/ServerDriver.cpp:287-303 | events leave a sink's queue in the order they were pushed, after those already pending |
| `HookDispatch.HookInterface` | driver_vrmotioncompensation/src/hooks/common.cpp:16-40 | a result is produced exactly when the string equals one of the five supported identities, and it is that identity's hook kind around the given instance; otherwise the handle is empty |
| `HookDispatch.RecognizesEveryIdentity` | driver_vrmotioncompensation/src/hooks/common.cpp:19-38 | IVRDriverContext, IVRServerDriverHost_004/_005/_006 and ITrackedDeviceServerDriver_005 each yield their own hook kind |
| `HookDispatch.IdentitiesDistinct` | driver_vrmotioncompensation/src/hooks/common.cpp:19-38 | the five identities are distinct, so exactly one branch can fire for any string |
| `HookDispatch.NoIdentityIsPrefixOfAnother` | driver_vrmotioncompensation/src/hooks/common.cpp:19-38 | no supported identity is a proper prefix of another |
| `HookDispatch.PrefixesUnrecognized` | driver_vrmotioncompensation/src/hooks/common.cpp:18-39 | a proper prefix of a supported identity yields the empty handle |
| `HookDispatch.ExtensionsUnrecognized` | driver_vrmotioncompensation/src/hooks/common.cpp:18-39 | a supported identity with anything appended yields the empty handle |

## Left out

- `ServerDriver::Init` and `Cleanup`: hook-library start-up, the install-path query, the IPC thread and context teardown are foreign calls and I/O. Only the settings reads are modelled, by `ApplySettings`.
- `RunFrame`: it runs each handle's frame work and the motion-compensation step. Neither body is part of this model, so nothing observable remains.
- `openvr_poseUpdate`: it reads the wall clock and computes time offsets in floating point.
- `_propertyValueToString`: float formatting and raw pointer casts, used only by disabled logging.
- `hooksPollNextEvent`, `openvr_vendorSpecificEvent`, `sendReplySetMotionCompensationMode`: logging and forwarding to the host or to IPC. `hooksPropertiesReadPropertyBatch` has an empty body.
- The two mutexes: only the sequential behaviour is modelled.
- The hook factories (`createHooks`) and the function-table patching they do: foreign code. A hook object is modelled as its kind and the instance it wraps.
- The handle's pose logic and validity changes are in the handle's own source, which is not part of this model. Pose logic is a parameter, and validity is a field that something outside may clear.
- The input-emulator's own `InterfaceHooks::hookInterface` is not part of this model. `TrackedDeviceAdded` uses the motion-compensation driver's dispatch, which has the same identity string.
- Registry.ServerDriver.TrackedDeviceActivated: requires the device index to be below 64. The source indexes its 64-slot arrays without a check and relies on the host never passing a larger index.
- Registry.ServerDriver.TrackedDevicePoseUpdated: requires the device index to be below 64. The source indexes its 64-slot arrays without a check and relies on the host never passing a larger index.
- Registry.ServerDriver.GetDeviceManipulationHandleById: requires the device index to be below 64. The source indexes its 64-slot arrays without a check and relies on the host never passing a larger index.
- Registry.ServerDriver.TrackedVirtualDeviceActivated: requires the device index to be below 64. The source indexes its 64-slot arrays without a check and relies on the host never passing a larger index.
- Registry.ServerDriver.TrackedVirtualDeviceDeactivated: requires the device index to be below 64. The source indexes its 64-slot arrays without a check and relies on the host never passing a larger index.
- Registry.ServerDriver.PropertiesWritePropertyBatch: `unBatchEntryCount` is taken to be the length of the batch array, and the `(uint32_t)` size computation is not wrapped. Override strings come from a 32768-byte settings buffer, so their size plus one always fits.
- The virtual-device table's initial contents are not shown (the constructor does not reset it). The model starts it empty.
- Registry.DeviceHandle.constructor: the handle's own source is not part of this model. Its contract keeps the arguments passed at ServerDriver.cpp:55. It also assumes a new handle starts with the invalid index, the invalid container and the valid flag set.
- Registry.ServerDriver.constructor: the initial value of the fake-controller flag is in the unshown header. The model assumes false, and empty override strings, which is what a default-constructed `std::string` gives.
- Registry.ServerDriver.TrackedDevicePoseUpdated: the handle's pose logic is a parameter. Its type lets it rewrite the index, the pose and the struct size, as the by-reference arguments allow, but nothing about what it actually does is modelled.
- PropertyBatch.PointAt: override strings are modelled with one `char` per byte of the setting's value. So `bufferSize` is the byte length plus one, as `std::string::size() + 1` gives; a non-ASCII setting must be read as its UTF-8 bytes, one byte per `char`.
- PropertyBatch.OverrideBuffer: the same one-`char`-per-byte reading applies to the buffer's contents.
- The IPC client library header and the motion-compensation `dllmain.cpp`: thread, IPC and logging plumbing.
