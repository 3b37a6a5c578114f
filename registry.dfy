/**
 * The server driver's device-manipulation registry: the handles it keeps for
 * every device the host reports, the three ways of finding a handle (by
 * native driver reference, by device index, by property container), the
 * hooks that route intercepted host callbacks to those handles, and the
 * per-sink queues of events waiting to be injected.
 */
module Registry {
  import opened Wrappers
  import opened OpenVr
  import opened PropertyBatch
  import opened InjectionQueues
  import HookDispatch

  /** An opaque pointer to a device's native driver object. */
  type DriverRef = nat

  /** An opaque pointer to the host's server-driver-host interface. */
  type HostRef = nat

  /**
   * The manipulation state of one device. Its pose logic and frame work are
   * not part of this model; the registry reads its identity, its index, its
   * property container and its validity.
   */
  class DeviceHandle {
    const serialNumber: string
    const deviceClass: DeviceClass
    const driverRef: DriverRef
    const hostRef: HostRef
    const interfaceVersion: int
    var openvrId: nat
    var propertyContainer: PropertyContainer
    var valid: bool
    var serverDriverHooks: Option<HookDispatch.InterfaceHooks>

    /** A handle for a newly reported device, not yet activated. */
    constructor (serial: string, cls: DeviceClass, driver: DriverRef, host: HostRef, version: int)
      ensures serialNumber == serial && deviceClass == cls && driverRef == driver
      ensures hostRef == host && interfaceVersion == version
      ensures openvrId == TrackedDeviceIndexInvalid && propertyContainer == InvalidPropertyContainer
      ensures valid && serverDriverHooks == None
    {
      serialNumber, deviceClass, driverRef, hostRef, interfaceVersion := serial, cls, driver, host, version;
      openvrId, propertyContainer := TrackedDeviceIndexInvalid, InvalidPropertyContainer;
      valid, serverDriverHooks := true, None;
    }
  }

  /** A virtual device created by this driver; only its identity matters here. */
  class VirtualDevice {
    const serialNumber: string

    constructor (serial: string)
      ensures serialNumber == serial
    {
      serialNumber := serial;
    }
  }

  /**
   * The class a device is reported to the host with: a generic tracker is
   * disguised as a controller when the fake-controller setting is on.
   */
  function DisguisedClass(cls: DeviceClass, genericTrackerFakeController: bool): (r: DeviceClass)
    ensures r != cls <==> cls == GenericTracker && genericTrackerFakeController
    ensures r != cls ==> r == Controller
  {
    if cls == GenericTracker && genericTrackerFakeController then Controller else cls
  }

  /** With the setting on, no device is ever reported as a generic tracker, and disguising twice changes nothing more. */
  lemma DisguiseHidesTrackers(cls: DeviceClass, genericTrackerFakeController: bool)
    ensures genericTrackerFakeController ==> DisguisedClass(cls, true) != GenericTracker
    ensures DisguisedClass(DisguisedClass(cls, genericTrackerFakeController), genericTrackerFakeController)
            == DisguisedClass(cls, genericTrackerFakeController)
  {
  }

  class ServerDriver {
    /** Device index to handle; null where no device has been activated. */
    const table: array<DeviceHandle?>
    /** Device index to the virtual device occupying it, if any. */
    const virtualDevices: array<VirtualDevice?>
    /** Native driver reference to handle: every handle the driver has created and kept. */
    var handles: map<DriverRef, DeviceHandle>
    /** Property container to handle, filled in on activation. */
    var containerMap: map<PropertyContainer, DeviceHandle>
    /** Events waiting to be injected, per host-side sink. */
    var queues: QueueMap
    /** Settings: the three override strings ("" for none) and the fake-controller flag. */
    var overrideManufacturer: string
    var overrideModel: string
    var overrideTrackingSystem: string
    var genericTrackerFakeController: bool

    /**
     * The registry's invariant: both index tables have one slot per possible
     * device, and every handle reachable by index or by property container is
     * one of the handles registered under a native driver reference.
     */
    ghost predicate Valid()
      reads this, table
    {
      && table.Length == MaxTrackedDeviceCount
      && virtualDevices.Length == MaxTrackedDeviceCount
      && (forall i :: 0 <= i < table.Length && table[i] != null ==> table[i] in handles.Values)
      && (forall c :: c in containerMap ==> containerMap[c] in handles.Values)
    }

    /** The overrides currently configured. */
    function CurrentOverrides(): (ov: Overrides)
      reads this
      ensures ov.manufacturer == overrideManufacturer && ov.model == overrideModel
      ensures ov.trackingSystem == overrideTrackingSystem
    {
      Overrides(overrideManufacturer, overrideModel, overrideTrackingSystem)
    }

    /**
     * The three keys of an activated device agree: the driver reference, the
     * device index and the property container all lead to one handle, which
     * records that index and that container.
     */
    ghost predicate Resolves(driver: DriverRef, id: nat, container: PropertyContainer)
      reads this, table, handles.Values
    {
      && driver in handles
      && id < table.Length && table[id] == handles[driver]
      && container in containerMap && containerMap[container] == handles[driver]
      && handles[driver].openvrId == id && handles[driver].propertyContainer == container
    }

    /** A fresh driver: the index table cleared, no handles, no queued events, no overrides. */
    constructor ()
      ensures Valid() && fresh(table) && fresh(virtualDevices)
      ensures forall i :: 0 <= i < table.Length ==> table[i] == null
      ensures forall i :: 0 <= i < virtualDevices.Length ==> virtualDevices[i] == null
      ensures handles == map[] && containerMap == map[] && queues == map[]
      ensures overrideManufacturer == "" && overrideModel == "" && overrideTrackingSystem == ""
      ensures !genericTrackerFakeController
    {
      table := new DeviceHandle?[MaxTrackedDeviceCount](_ => null);
      virtualDevices := new VirtualDevice?[MaxTrackedDeviceCount](_ => null);
      handles, containerMap, queues := map[], map[], map[];
      overrideManufacturer, overrideModel, overrideTrackingSystem := "", "", "";
      genericTrackerFakeController := false;
    }

    /**
     * The settings reads at start-up: each setting is taken over when the
     * settings store produced it (Some) and otherwise keeps its value.
     */
    method ApplySettings(manufacturer: Option<string>, model: Option<string>,
                         trackingSystem: Option<string>, fakeController: Option<bool>)
      modifies this
      ensures overrideManufacturer == if manufacturer.Some? then manufacturer.value else old(overrideManufacturer)
      ensures overrideModel == if model.Some? then model.value else old(overrideModel)
      ensures overrideTrackingSystem == if trackingSystem.Some? then trackingSystem.value else old(overrideTrackingSystem)
      ensures genericTrackerFakeController == if fakeController.Some? then fakeController.value else old(genericTrackerFakeController)
      ensures handles == old(handles) && containerMap == old(containerMap) && queues == old(queues)
    {
      if manufacturer.Some? {
        overrideManufacturer := manufacturer.value;
      }
      if model.Some? {
        overrideModel := model.value;
      }
      if trackingSystem.Some? {
        overrideTrackingSystem := trackingSystem.value;
      }
      if fakeController.Some? {
        genericTrackerFakeController := fakeController.value;
      }
    }

    /**
     * The host reports a new device. The class it is reported with may be
     * rewritten (and is returned); a handle is created and, unless the driver
     * reference already has one, registered under that reference.
     */
    method TrackedDeviceAdded(host: HostRef, version: int, serial: string, deviceClass: DeviceClass, driver: DriverRef)
      returns (reportedClass: DeviceClass)
      requires Valid()
      modifies this
      ensures Valid()
      ensures reportedClass == DisguisedClass(deviceClass, genericTrackerFakeController)
      ensures driver in handles
      ensures driver in old(handles) ==> handles == old(handles)
      ensures driver !in old(handles) ==>
                var h := handles[driver];
                && fresh(h)
                && handles == old(handles)[driver := h]
                && h.serialNumber == serial && h.deviceClass == reportedClass
                && h.driverRef == driver && h.hostRef == host && h.interfaceVersion == version
                && h.openvrId == TrackedDeviceIndexInvalid && h.propertyContainer == InvalidPropertyContainer
                && h.valid
                && h.serverDriverHooks == Some(HookDispatch.InterfaceHooks(HookDispatch.TrackedDeviceServerDriver005Hooks, driver))
      ensures containerMap == old(containerMap) && queues == old(queues)
      ensures genericTrackerFakeController == old(genericTrackerFakeController)
      ensures CurrentOverrides() == old(CurrentOverrides())
    {
      reportedClass := deviceClass;
      if deviceClass == GenericTracker && genericTrackerFakeController {
        reportedClass := Controller;
      }
      var handle := new DeviceHandle(serial, reportedClass, driver, host, version);
      if driver !in handles {
        ghost var before := handles;
        handles := handles[driver := handle];
        assert before.Values <= handles.Values by {
          forall h | h in before.Values ensures h in handles.Values {
            var d :| d in before && before[d] == h;
            assert handles[d] == h;
          }
        }
      }
      handle.serverDriverHooks := HookDispatch.HookInterface(driver, "ITrackedDeviceServerDriver_005");
    }

    /**
     * The host activates a device under index `objectId`. A driver reference
     * that was never reported is ignored. Otherwise its handle records the
     * index and the property container the host gives for it, and is entered
     * under both.
     */
    method TrackedDeviceActivated(driver: DriverRef, version: int, objectId: nat, containerOf: nat -> PropertyContainer)
      requires Valid() && objectId < MaxTrackedDeviceCount
      modifies this, table, if driver in handles then {handles[driver]} else {}
      ensures Valid()
      ensures handles == old(handles) && queues == old(queues)
      ensures genericTrackerFakeController == old(genericTrackerFakeController)
      ensures CurrentOverrides() == old(CurrentOverrides())
      ensures driver !in handles ==> containerMap == old(containerMap) && table[..] == old(table[..])
      ensures driver in handles ==>
                var h, c := handles[driver], containerOf(objectId);
                && table[..] == old(table[..])[objectId := h]
                && containerMap == old(containerMap)[c := h]
                && Resolves(driver, objectId, c)
      ensures driver in handles ==>
                && handles[driver].valid == old(handles[driver].valid)
                && handles[driver].serverDriverHooks == old(handles[driver].serverDriverHooks)
    {
      if driver in handles {
        var handle := handles[driver];
        handle.openvrId := objectId;
        table[objectId] := handle;
        var container := containerOf(objectId);
        handle.propertyContainer := container;
        containerMap := containerMap[container := handle];
      }
    }

    /**
     * A pose update from the host for device `which`. The index, the pose and
     * the struct size are passed by reference, so they come back as results.
     * Without a valid handle at that index all three pass through unchanged
     * and default delivery proceeds; otherwise the handle's own pose logic (a
     * parameter here) decides all four results.
     */
    method TrackedDevicePoseUpdated(host: HostRef, version: int, which: nat, pose: DriverPose, poseStructSize: nat,
                                    handlePoseUpdate: (DeviceHandle, nat, DriverPose, nat) -> (bool, nat, DriverPose, nat))
      returns (proceed: bool, newWhich: nat, newPose: DriverPose, newPoseStructSize: nat)
      requires Valid() && which < MaxTrackedDeviceCount
      ensures table[which] == null || !table[which].valid ==>
                proceed && newWhich == which && newPose == pose && newPoseStructSize == poseStructSize
      ensures table[which] != null && table[which].valid ==>
                (proceed, newWhich, newPose, newPoseStructSize) == handlePoseUpdate(table[which], which, pose, poseStructSize)
    {
      var handle := table[which];
      if handle != null && handle.valid {
        var decision := handlePoseUpdate(handle, which, pose, poseStructSize);
        proceed, newWhich, newPose, newPoseStructSize := decision.0, decision.1, decision.2, decision.3;
        return;
      }
      proceed, newWhich, newPose, newPoseStructSize := true, which, pose, poseStructSize;
    }

    /** The device index a property batch is written for, as the driver determines it. */
    function ResolvedDeviceId(container: PropertyContainer, containerOf: nat -> PropertyContainer): (deviceId: nat)
      reads this, containerMap.Values
    {
      if container in containerMap then containerMap[container].openvrId
      else FirstMatch(containerOf, container, 0)
    }

    /**
     * The host writes a batch of properties to `container`. The device is
     * found through the container map or, failing that, by scanning every
     * device index; then every entry is rewritten in place by the overrides.
     */
    method PropertiesWritePropertyBatch(properties: nat, version: int, container: PropertyContainer,
                                        batch: array<PropertyWrite>, containerOf: nat -> PropertyContainer)
      modifies batch
      ensures batch[..] == RewriteBatch(old(batch[..]), ResolvedDeviceId(container, containerOf), CurrentOverrides())
    {
      var deviceId := TrackedDeviceIndexInvalid;
      if container in containerMap {
        deviceId := containerMap[container].openvrId;
      } else {
        deviceId := ScanDevices(containerOf, container);
      }
      ghost var ov := CurrentOverrides();
      var i := 0;
      while i < batch.Length
        invariant 0 <= i <= batch.Length
        invariant forall k :: 0 <= k < i ==> batch[k] == RewriteEntry(old(batch[k]), deviceId, ov)
        invariant forall k :: i <= k < batch.Length ==> batch[k] == old(batch[k])
      {
        var be := batch[i];
        if be.prop == PropManufacturerName && overrideManufacturer != "" {
          batch[i] := be.(buffer := CString(overrideManufacturer + "\0"), bufferSize := |overrideManufacturer| + 1);
        } else if deviceId == TrackedDeviceIndexHmd && be.prop == PropModelNumber && overrideModel != "" {
          batch[i] := be.(buffer := CString(overrideModel + "\0"), bufferSize := |overrideModel| + 1);
        } else if be.prop == PropTrackingSystemName && overrideTrackingSystem != "" {
          batch[i] := be.(buffer := CString(overrideTrackingSystem + "\0"), bufferSize := |overrideTrackingSystem| + 1);
        }
        i := i + 1;
      }
      ghost var was := old(batch[..]);
      forall k | 0 <= k < batch.Length
        ensures batch[..][k] == RewriteBatch(was, deviceId, ov)[k]
      {
        RewriteBatchAt(was, deviceId, ov, k);
      }
    }

    /** A virtual device takes index `deviceId`. */
    method TrackedVirtualDeviceActivated(deviceId: nat, device: VirtualDevice)
      requires Valid() && deviceId < MaxTrackedDeviceCount
      modifies virtualDevices
      ensures virtualDevices[..] == old(virtualDevices[..])[deviceId := device]
    {
      virtualDevices[deviceId] := device;
    }

    /** The virtual device at index `deviceId` goes away. */
    method TrackedVirtualDeviceDeactivated(deviceId: nat)
      requires Valid() && deviceId < MaxTrackedDeviceCount
      modifies virtualDevices
      ensures virtualDevices[..] == old(virtualDevices[..])[deviceId := null]
    {
      virtualDevices[deviceId] := null;
    }

    /** The handle at device index `which`, when there is one and it is valid; null otherwise. */
    method GetDeviceManipulationHandleById(which: nat) returns (h: DeviceHandle?)
      requires Valid() && which < MaxTrackedDeviceCount
      ensures h != null <==> table[which] != null && table[which].valid
      ensures h != null ==> h == table[which] && h in handles.Values
    {
      h := table[which];
      if h != null && h.valid {
        return;
      }
      h := null;
    }

    /** The handle registered for a property container, or null. */
    method GetDeviceManipulationHandleByPropertyContainer(container: PropertyContainer) returns (h: DeviceHandle?)
      requires Valid()
      ensures h != null <==> container in containerMap
      ensures h != null ==> h == containerMap[container] && h in handles.Values
    {
      h := null;
      if container in containerMap {
        h := containerMap[container];
      }
    }

    /** Queue an event for injection into `sink`. */
    method AddDriverEventForInjection(sink: SinkRef, event: EventRef, size: nat)
      modifies this
      ensures queues == Push(old(queues), sink, InjectedEvent(event, size))
      ensures handles == old(handles) && containerMap == old(containerMap)
      ensures genericTrackerFakeController == old(genericTrackerFakeController)
      ensures CurrentOverrides() == old(CurrentOverrides())
    {
      var pending := if sink in queues then queues[sink] else [];
      queues := queues[sink := pending + [InjectedEvent(event, size)]];
    }

    /** Take the oldest event queued for `sink`, or NoEvent when there is none. */
    method GetDriverEventForInjection(sink: SinkRef) returns (e: InjectedEvent)
      modifies this
      ensures (e, queues) == Pop(old(queues), sink)
      ensures handles == old(handles) && containerMap == old(containerMap)
      ensures genericTrackerFakeController == old(genericTrackerFakeController)
      ensures CurrentOverrides() == old(CurrentOverrides())
    {
      if sink in queues {
        if |queues[sink]| > 0 {
          e := queues[sink][0];
          queues := queues[sink := queues[sink][1..]];
          return;
        }
      }
      e := NoEvent;
    }
  }

  /**
   * The same batch written twice: the second pass finds the same device and
   * changes nothing the first pass did not.
   */
  method WritePropertyBatchTwice(sd: ServerDriver, container: PropertyContainer,
                                 batch: array<PropertyWrite>, containerOf: nat -> PropertyContainer)
    modifies batch
    ensures batch[..] == RewriteBatch(old(batch[..]), sd.ResolvedDeviceId(container, containerOf), sd.CurrentOverrides())
  {
    sd.PropertiesWritePropertyBatch(0, 0, container, batch, containerOf);
    sd.PropertiesWritePropertyBatch(0, 0, container, batch, containerOf);
    RewriteBatchIdempotent(old(batch[..]), sd.ResolvedDeviceId(container, containerOf), sd.CurrentOverrides());
  }

  /**
   * A device reported and then activated is found by all three keys: by
   * its driver reference, by its index and by its property container, and
   * the by-index and by-container lookups return that same handle while it
   * stays valid.
   */
  method DiscoverThenActivate(sd: ServerDriver, host: HostRef, version: int, serial: string, cls: DeviceClass,
                              driver: DriverRef, id: nat, containerOf: nat -> PropertyContainer)
    returns (byIndex: DeviceHandle?, byContainer: DeviceHandle?)
    requires sd.Valid() && id < MaxTrackedDeviceCount
    modifies sd, sd.table, sd.handles.Values
    ensures sd.Valid() && sd.Resolves(driver, id, containerOf(id))
    ensures byContainer == sd.handles[driver]
    ensures sd.handles[driver].valid ==> byIndex == sd.handles[driver]
    ensures driver !in old(sd.handles) ==> byIndex == sd.handles[driver]
  {
    var _ := sd.TrackedDeviceAdded(host, version, serial, cls, driver);
    sd.TrackedDeviceActivated(driver, version, id, containerOf);
    byIndex := sd.GetDeviceManipulationHandleById(id);
    byContainer := sd.GetDeviceManipulationHandleByPropertyContainer(containerOf(id));
  }

}
