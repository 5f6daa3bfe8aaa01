/** The USB/IP wire format: the frames a client sends and the replies the server writes. */
module Wire {
  import opened Bytes

  const USBIP_VERSION: U16 := 0x0111
  const OP_REQ_DEVLIST: U16 := 0x8005
  const OP_REQ_IMPORT: U16 := 0x8003
  const OP_REP_DEVLIST: U16 := 0x0005
  const OP_REP_IMPORT: U16 := 0x0003
  const CMD_SUBMIT: U32 := 1
  const CMD_UNLINK: U32 := 2
  const RET_SUBMIT: U32 := 3
  const RET_UNLINK: U32 := 4
  const ECONNRESET := 104
  const OP_HEADER_SIZE := 8
  const BUSID_SIZE := 32
  const USB_HEADER_SIZE := 48
  const DEVICE_SIZE := 312
  const INTERFACE_SIZE := 4

  /** The fields of a USBIP_CMD_SUBMIT header after byte-order conversion. */
  datatype SubmitHeader = SubmitHeader(
    seqnum: U32, devid: U32, direction: U32, ep: U32, flags: U32, length: U32,
    startFrame: U32, packets: U32, interval: U32, setup: seq<Byte>)

  /** What one frame asks for. `Rejected` is a frame that makes the server hang up. */
  datatype Command =
    | Devlist
    | Import(busid: seq<Byte>)
    | Submit(header: SubmitHeader, payload: seq<Byte>)
    | Unlink(seqnum: U32, target: U32)
    | OtherUsb(command: U32, seqnum: U32)
    | Rejected

  /** A frame some client can put on the wire. Only OUT submits carry a payload. */
  predicate WellFormed(c: Command) {
    match c
    case Devlist => true
    case Import(busid) => |busid| == BUSID_SIZE
    case Submit(h, payload) =>
      |h.setup| == 8 && if h.direction == 0 then |payload| == h.length else payload == []
    case Unlink(_, _) => true
    case OtherUsb(command, _) => command != CMD_SUBMIT && command != CMD_UNLINK
    case Rejected => false
  }

  function OpHeader(op: U16, status: U32): (b: seq<Byte>)
    ensures |b| == OP_HEADER_SIZE
  {
    Be16(USBIP_VERSION) + Be16(op) + Be32(status)
  }

  /** How a USB/IP client writes a command. */
  function EncodeCommand(c: Command): seq<Byte> {
    match c
    case Devlist => OpHeader(OP_REQ_DEVLIST, 0)
    case Import(busid) => OpHeader(OP_REQ_IMPORT, 0) + busid
    case Submit(h, payload) =>
      Words([CMD_SUBMIT, h.seqnum, h.devid, h.direction, h.ep, h.flags, h.length,
             h.startFrame, h.packets, h.interval]) + h.setup + payload
    case Unlink(seqnum, target) => Words([CMD_UNLINK, seqnum, 0, 0, 0, target]) + Zeros(24)
    case OtherUsb(command, seqnum) => Words([command, seqnum, 0, 0, 0]) + Zeros(28)
    case Rejected => []
  }

  function EncodeCommands(cs: seq<Command>): seq<Byte> {
    if cs == [] then [] else EncodeCommand(cs[0]) + EncodeCommands(cs[1..])
  }

  /** One exported device: its 312-byte record and a 4-byte record for each interface. */
  datatype DeviceEntry = DeviceEntry(record: seq<Byte>, interfaces: seq<seq<Byte>>)

  datatype Reply =
    | RepDevlist(devices: seq<DeviceEntry>)
    | RepImport(status: U32, device: seq<Byte>)
    | RetSubmit(seqnum: U32, startFrame: U32, data: seq<Byte>)
    | RetUnlink(seqnum: U32, result: int)
    | RetOther(seqnum: U32)

  predicate GoodEntry(e: DeviceEntry) {
    && |e.record| == DEVICE_SIZE
    && e.record[DEVICE_SIZE - 1] == |e.interfaces|
    && forall i | i in e.interfaces :: |i| == INTERFACE_SIZE
  }

  predicate GoodReply(r: Reply) {
    match r
    case RepDevlist(ds) => |ds| < 0x1_0000_0000 && forall d | d in ds :: GoodEntry(d)
    case RepImport(status, device) => |device| == if status == 0 then DEVICE_SIZE else 0
    case RetSubmit(_, _, data) => |data| < 0x1_0000_0000
    case RetUnlink(_, result) => -0x8000_0000 <= result < 0x8000_0000
    case RetOther(_) => true
  }

  function Join(parts: seq<seq<Byte>>): seq<Byte> {
    if parts == [] then [] else parts[0] + Join(parts[1..])
  }

  function EncodeEntry(e: DeviceEntry): seq<Byte> {
    e.record + Join(e.interfaces)
  }

  function EncodeEntries(ds: seq<DeviceEntry>): seq<Byte> {
    if ds == [] then [] else EncodeEntry(ds[0]) + EncodeEntries(ds[1..])
  }

  /** The bytes `send_response` writes for a reply. */
  function EncodeReply(r: Reply): seq<Byte>
    requires GoodReply(r)
  {
    match r
    case RepDevlist(ds) => OpHeader(OP_REP_DEVLIST, 0) + Be32(|ds|) + EncodeEntries(ds)
    case RepImport(status, device) => OpHeader(OP_REP_IMPORT, status) + device
    case RetSubmit(seqnum, startFrame, data) =>
      Words([RET_SUBMIT, seqnum, 0, 0, 0, 0, |data|, startFrame, 0, 0]) + Zeros(8) + data
    case RetUnlink(seqnum, result) =>
      Words([RET_UNLINK, seqnum, 0, 0, 0, Unsigned32(result)]) + Zeros(24)
    case RetOther(seqnum) => Words([0, seqnum, 0, 0, 0, 1]) + Zeros(24)
  }
}
