/** Vocabulary shared by all components of the gateway. */
module Common {

  const TWO_32: nat := 0x1_0000_0000

  type byte = b: int | 0 <= b < 256

  /** The value range of `uint32_t`, used for counters and priorities. */
  type uint32 = n: int | 0 <= n < TWO_32

  /** A byte string. A `Buffer` without bytes is one that is not allocated. */
  type Bytes = seq<byte>
  type Buffer = Bytes

  datatype Option<+T> = None | Some(value: T)

  /** What two device identifications are compared by: the name and the priority do not take part. */
  datatype Identity = Identity(moduleNumber: int, deviceType: uint32, role: string)

  datatype DeviceId = DeviceId(identity: Identity, name: string, priority: uint32)

  datatype DeviceStatus = DeviceStatus(device: DeviceId, data: Buffer)

  /** What the module handler queues for the external client. */
  datatype ExternalItem = ExternalItem(disconnected: bool, status: DeviceStatus)

  /** The functions of a module library. A function that fails with an error code returns `None`. */
  datatype Module = Module(
    supports: uint32 -> bool,
    sendCondition: (Buffer, Buffer, uint32) -> bool,
    aggregateStatus: (Buffer, Buffer, uint32) -> Option<Buffer>,
    aggregateError: (Buffer, Buffer, uint32) -> Option<Buffer>,
    firstCommand: uint32 -> Option<Buffer>,
    generateCommand: (Buffer, Buffer, Buffer, uint32) -> Option<Buffer>,
    statusValid: (Buffer, uint32) -> bool,
    commandValid: (Buffer, uint32) -> bool,
    forwardOnReceive: uint32 -> bool)

  predicate Listed(devices: seq<DeviceId>, device: DeviceId) {
    exists k :: 0 <= k < |devices| && devices[k].identity == device.identity
  }

  /** The list without the first entry for the device. */
  function Unlisted(devices: seq<DeviceId>, device: DeviceId): seq<DeviceId> {
    if devices == [] then []
    else if devices[0].identity == device.identity then devices[1..]
    else [devices[0]] + Unlisted(devices[1..], device)
  }
}
