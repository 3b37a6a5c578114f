/**
 * Rewriting of a property-write batch: which entries the configured override
 * strings replace, and how the device a property container belongs to is
 * found when the registry does not know the container.
 */
module PropertyBatch {
  import opened OpenVr

  /**
   * The three override strings read from the settings store; "" means "no
   * override". Each `char` stands for one byte of the stored value, so a
   * string's length is its size in bytes.
   */
  datatype Overrides = Overrides(manufacturer: string, model: string, trackingSystem: string)

  /** The buffer an overridden entry points at: the override's characters and the terminator. */
  function OverrideBuffer(s: string): (b: Buffer)
    ensures b.CString? && |b.chars| == |s| + 1 && b.chars[..|s|] == s && b.chars[|s|] == '\0'
  {
    CString(s + "\0")
  }

  /** Entry `e` made to point at the override string `s`, size counting the terminator. */
  function PointAt(e: PropertyWrite, s: string): (r: PropertyWrite)
    ensures r.prop == e.prop && r.tag == e.tag
    ensures r.buffer == OverrideBuffer(s) && r.bufferSize == |s| + 1
  {
    e.(buffer := OverrideBuffer(s), bufferSize := |s| + 1)
  }

  /**
   * The effect of the driver on one entry of a batch written for device
   * `deviceId`: manufacturer and tracking-system names are overridden on every
   * device, the model number only on the head-mounted display, and only by a
   * non-empty override. Nothing else about the entry changes.
   */
  function RewriteEntry(e: PropertyWrite, deviceId: nat, ov: Overrides): (r: PropertyWrite)
    ensures r.prop == e.prop && r.tag == e.tag
    ensures e.prop == PropManufacturerName && ov.manufacturer != "" ==> r == PointAt(e, ov.manufacturer)
    ensures e.prop == PropModelNumber && ov.model != "" ==>
              r == if deviceId == TrackedDeviceIndexHmd then PointAt(e, ov.model) else e
    ensures e.prop == PropTrackingSystemName && ov.trackingSystem != "" ==> r == PointAt(e, ov.trackingSystem)
    ensures e.prop !in {PropManufacturerName, PropModelNumber, PropTrackingSystemName} ==> r == e
    ensures e.prop == PropManufacturerName && ov.manufacturer == "" ==> r == e
    ensures e.prop == PropModelNumber && ov.model == "" ==> r == e
    ensures e.prop == PropTrackingSystemName && ov.trackingSystem == "" ==> r == e
  {
    if e.prop == PropManufacturerName && ov.manufacturer != "" then
      PointAt(e, ov.manufacturer)
    else if deviceId == TrackedDeviceIndexHmd && e.prop == PropModelNumber && ov.model != "" then
      PointAt(e, ov.model)
    else if e.prop == PropTrackingSystemName && ov.trackingSystem != "" then
      PointAt(e, ov.trackingSystem)
    else
      e
  }

  /** An entry's size agrees with its buffer when it is a driver string: the size counts the terminator. */
  predicate SizeMatchesString(e: PropertyWrite)
  {
    e.buffer.CString? ==> e.bufferSize == |e.buffer.chars|
  }

  /** Every entry the driver rewrites is left with a size that counts its characters and the terminator. */
  lemma RewrittenSizeMatchesString(e: PropertyWrite, deviceId: nat, ov: Overrides)
    requires RewriteEntry(e, deviceId, ov) != e
    ensures SizeMatchesString(RewriteEntry(e, deviceId, ov))
    ensures RewriteEntry(e, deviceId, ov).buffer.CString?
  {
  }

  /** Overriding an entry a second time changes nothing more. */
  lemma RewriteEntryIdempotent(e: PropertyWrite, deviceId: nat, ov: Overrides)
    ensures RewriteEntry(RewriteEntry(e, deviceId, ov), deviceId, ov) == RewriteEntry(e, deviceId, ov)
  {
  }

  /** The batch after the driver's pass: every entry rewritten, in order. */
  function RewriteBatch(batch: seq<PropertyWrite>, deviceId: nat, ov: Overrides): (r: seq<PropertyWrite>)
    ensures |r| == |batch|
  {
    if batch == [] then [] else [RewriteEntry(batch[0], deviceId, ov)] + RewriteBatch(batch[1..], deviceId, ov)
  }

  /** Entry k of the rewritten batch is entry k of the original, rewritten. */
  lemma {:induction false} RewriteBatchAt(batch: seq<PropertyWrite>, deviceId: nat, ov: Overrides, k: nat)
    requires k < |batch|
    ensures RewriteBatch(batch, deviceId, ov)[k] == RewriteEntry(batch[k], deviceId, ov)
  {
    if k > 0 {
      RewriteBatchAt(batch[1..], deviceId, ov, k - 1);
    }
  }

  /** Writing the same overrides over a batch twice yields the batch written once. */
  lemma {:induction false} RewriteBatchIdempotent(batch: seq<PropertyWrite>, deviceId: nat, ov: Overrides)
    ensures RewriteBatch(RewriteBatch(batch, deviceId, ov), deviceId, ov) == RewriteBatch(batch, deviceId, ov)
  {
    if batch != [] {
      var once := RewriteBatch(batch, deviceId, ov);
      assert once[1..] == RewriteBatch(batch[1..], deviceId, ov);
      RewriteBatchIdempotent(batch[1..], deviceId, ov);
      RewriteEntryIdempotent(batch[0], deviceId, ov);
    }
  }

  /**
   * The first device index at or after `from` whose property container is
   * `container`, or the invalid index when there is none.
   */
  function FirstMatch(containerOf: nat -> PropertyContainer, container: PropertyContainer, from: nat): (id: nat)
    requires from <= MaxTrackedDeviceCount
    decreases MaxTrackedDeviceCount - from
  {
    if from == MaxTrackedDeviceCount then TrackedDeviceIndexInvalid
    else if containerOf(from) == container then from
    else FirstMatch(containerOf, container, from + 1)
  }

  /** FirstMatch is the least matching index in [from, MaxTrackedDeviceCount), or the sentinel when none matches. */
  lemma {:induction false} FirstMatchIsLeast(containerOf: nat -> PropertyContainer, container: PropertyContainer, from: nat)
    requires from <= MaxTrackedDeviceCount
    ensures var id := FirstMatch(containerOf, container, from);
            || (id == TrackedDeviceIndexInvalid
                && forall j :: from <= j < MaxTrackedDeviceCount ==> containerOf(j) != container)
            || (from <= id < MaxTrackedDeviceCount && containerOf(id) == container
                && forall j :: from <= j < id ==> containerOf(j) != container)
    decreases MaxTrackedDeviceCount - from
  {
    if from < MaxTrackedDeviceCount && containerOf(from) != container {
      FirstMatchIsLeast(containerOf, container, from + 1);
    }
  }

  /**
   * The fallback scan over all device indices, asking the host for each
   * index's property container and stopping at the first match.
   */
  method ScanDevices(containerOf: nat -> PropertyContainer, container: PropertyContainer) returns (deviceId: nat)
    ensures deviceId == FirstMatch(containerOf, container, 0)
    ensures deviceId == TrackedDeviceIndexInvalid || (deviceId < MaxTrackedDeviceCount && containerOf(deviceId) == container)
    ensures forall j :: 0 <= j < MaxTrackedDeviceCount && j < deviceId ==> containerOf(j) != container
  {
    deviceId := TrackedDeviceIndexInvalid;
    var id := 0;
    while id < MaxTrackedDeviceCount
      invariant 0 <= id <= MaxTrackedDeviceCount
      invariant deviceId == TrackedDeviceIndexInvalid
      invariant forall j :: 0 <= j < id ==> containerOf(j) != container
      invariant FirstMatch(containerOf, container, id) == FirstMatch(containerOf, container, 0)
    {
      if containerOf(id) == container {
        deviceId := id;
        break;
      }
      id := id + 1;
    }
  }

}
