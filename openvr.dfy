/**
 * The parts of the host runtime's driver interface (OpenVR) that the device
 * registry touches: the device-count bound, the index sentinels, the device
 * classes, the property identifiers that can be overridden, and the shapes of
 * a property-write entry and a driver pose.
 */
module OpenVr {

  /** k_unMaxTrackedDeviceCount: the size of every index-addressed table. */
  const MaxTrackedDeviceCount: nat := 64

  /** k_unTrackedDeviceIndex_Hmd: the head-mounted display always has index 0. */
  const TrackedDeviceIndexHmd: nat := 0

  /** k_unTrackedDeviceIndexInvalid: the 32-bit all-ones sentinel. */
  const TrackedDeviceIndexInvalid: nat := 0xFFFF_FFFF

  /** A host-assigned property container handle (a 64-bit integer). */
  type PropertyContainer = nat

  /** k_ulInvalidPropertyContainer */
  const InvalidPropertyContainer: PropertyContainer := 0

  /** ETrackedDeviceProperty values */
  type PropertyId = nat

  const PropTrackingSystemName: PropertyId := 1000
  const PropModelNumber: PropertyId := 1001
  const PropManufacturerName: PropertyId := 1005

  /** ETrackedDeviceClass */
  datatype DeviceClass = Invalid | Hmd | Controller | GenericTracker | TrackingReference | DisplayRedirect

  /**
   * What an entry's buffer pointer designates: a buffer owned by the host
   * (known only by its address), or the character data of a string owned by
   * the driver, terminator included.
   */
  datatype Buffer = HostBuffer(address: nat) | CString(chars: string)

  /** PropertyWrite_t, reduced to the fields the driver reads or rewrites. */
  datatype PropertyWrite = PropertyWrite(prop: PropertyId, tag: nat, buffer: Buffer, bufferSize: nat)

  /**
   * DriverPose_t. The registry only passes poses on, so the fields are kept
   * as uninterpreted numbers.
   */
  datatype DriverPose = DriverPose(
    poseTimeOffset: real,
    position: seq<real>,
    velocity: seq<real>,
    rotation: seq<real>,
    poseIsValid: bool,
    deviceIsConnected: bool)

}
