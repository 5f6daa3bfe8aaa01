/** The device the server exports: its USB/IP record and its control endpoint. */
module Exported {
  import opened Bytes
  import opened Wire
  import opened Parser
  import opened UpsStatus
  import opened Control
  import opened Engine
  import opened EngineReplies
  import opened EngineRoom

  /** Text in a fixed-size field, zero filled. */
  function Field(text: string, size: nat): (f: seq<Byte>)
    requires |text| <= size
    ensures |f| == size
  {
    seq(|text|, i requires 0 <= i < |text| => text[i] as int % 0x100) + Zeros(size - |text|)
  }

  const BUSID_OFFSET := 256

  /** `global_devinfo` once the constructor has stored the configured ids. */
  function Record(c: Config): (r: seq<Byte>)
    ensures |r| == DEVICE_SIZE
  {
    Field("/sys/devices/usb1/1-1", BUSID_OFFSET) + Field("1-1", BUSID_SIZE) + Be32(1) + Be32(0x10) + Be32(2) +
    Be16(c.vendorId) + Be16(c.productId) + Be16(0x0100) + [3, 0, 0, 0, 1, 1]
  }

  function UpsDevice(c: Config): Device {
    Device(DeviceEntry(Record(c), [[3, 0, 0, 0]]), (status, setup) => ControlReply(InitDescriptors(c), status, setup))
  }

  lemma UpsIsGood(c: Config)
    ensures GoodDevice(UpsDevice(c))
  {
    forall st: Status, su: Setup ensures |UpsDevice(c).control(st, su)| <= su.length {
      RepliesAreTruncatedViews(InitDescriptors(c), st, su, su.length);
    }
    assert Record(c)[DEVICE_SIZE - 1] == 1;
  }

  lemma UpsIsSteady(c: Config)
    ensures Steady(UpsDevice(c))
  {
    forall st: Status, other: Status, su: Setup | UpsDevice(c).control(st, su) == []
      ensures UpsDevice(c).control(other, su) == []
    {
      RepliesExactlyWhen(c, st, su);
      RepliesExactlyWhen(c, other, su);
    }
  }

  /** Configured with strings of at most 2047 characters, the server has room for every reply of every run. */
  lemma ShortStringsHaveRoom(c: Config, status: Status, es: seq<Event>)
    requires |c.manufacturer| <= 2047 && |c.product| <= 2047 && |c.serial| <= 2047
    ensures RoomThroughout(Init(UpsDevice(c), status), es)
  {
    InitialDescriptorsFit(c);
    forall st: Status, su: Setup ensures |UpsDevice(c).control(st, su)| <= REPLY_ROOM {
      FittingReply(InitDescriptors(c), st, su);
    }
    ConciseThroughout(Init(UpsDevice(c), status), es);
  }

  /** The record as a client reads it: the path and the bus id as zero-filled text, bus 1, device 16, full speed, the
      configured ids, release 1.00, HID class, no configuration chosen, one configuration and one interface. */
  lemma RecordFields(c: Config)
    ensures var r := Record(c);
      && r[..21] == [0x2F, 0x73, 0x79, 0x73, 0x2F, 0x64, 0x65, 0x76, 0x69, 0x63, 0x65,
                     0x73, 0x2F, 0x75, 0x73, 0x62, 0x31, 0x2F, 0x31, 0x2D, 0x31]
      && (forall i | 21 <= i < 256 :: r[i] == 0)
      && r[256..259] == [0x31, 0x2D, 0x31] && (forall i | 259 <= i < 288 :: r[i] == 0)
      && r[288..300] == [0, 0, 0, 1, 0, 0, 0, 16, 0, 0, 0, 2]
      && r[300..306] == [c.vendorId / 256, c.vendorId % 256, c.productId / 256, c.productId % 256, 1, 0]
      && r[306..] == [3, 0, 0, 0, 1, 1]
  {
    PathBytes();
    BusidBytes();
    var a, b := Field("/sys/devices/usb1/1-1", BUSID_OFFSET), Field("1-1", BUSID_SIZE);
    NumbersOf(c);
    RecordParts(a, b, c);
  }

  lemma PathBytes()
    ensures var f := Field("/sys/devices/usb1/1-1", BUSID_OFFSET);
      && f[..21] == [0x2F, 0x73, 0x79, 0x73, 0x2F, 0x64, 0x65, 0x76, 0x69, 0x63, 0x65,
                     0x73, 0x2F, 0x75, 0x73, 0x62, 0x31, 0x2F, 0x31, 0x2D, 0x31]
      && forall i | 21 <= i < 256 :: f[i] == 0
  {
  }

  lemma BusidBytes()
    ensures var f := Field("1-1", BUSID_SIZE); f[..3] == [0x31, 0x2D, 0x31] && forall i | 3 <= i < 32 :: f[i] == 0
  {
  }

  function NumberPart(c: Config): seq<Byte> {
    Be32(1) + Be32(0x10) + Be32(2) + Be16(c.vendorId) + Be16(c.productId) + Be16(0x0100) + [3, 0, 0, 0, 1, 1]
  }

  lemma NumbersOf(c: Config)
    ensures NumberPart(c) == [0, 0, 0, 1, 0, 0, 0, 16, 0, 0, 0, 2]
      + [c.vendorId / 256, c.vendorId % 256, c.productId / 256, c.productId % 256, 1, 0] + [3, 0, 0, 0, 1, 1]
  {
  }

  lemma RecordParts(a: seq<Byte>, b: seq<Byte>, c: Config)
    requires a == Field("/sys/devices/usb1/1-1", BUSID_OFFSET) && b == Field("1-1", BUSID_SIZE)
    ensures Record(c) == a + b + NumberPart(c)
  {
  }

  /** A client that asks for the bus id it found in the device list is let in. */
  lemma AdvertisedBusidIsKnown(c: Config)
    ensures KnownBusid(Record(c)[BUSID_OFFSET..BUSID_OFFSET + BUSID_SIZE])
  {
    var f := Field("1-1", BUSID_SIZE);
    assert Record(c)[BUSID_OFFSET..BUSID_OFFSET + BUSID_SIZE] == f;
    assert f[..4] == [0x31, 0x2D, 0x31, 0];
  }

  /** A command whose reply a client can delimit: one the server knows, and no OUT control request of a
      kind the device answers with data. `isOut` tells which sequence numbers were OUT requests. */
  predicate Delimits(cmd: Command, isOut: U32 -> bool) {
    && !cmd.OtherUsb?
    && (cmd.Submit? && cmd.header.ep == 0 && |cmd.header.setup| == 8 && isOut(cmd.header.seqnum) ==>
          !HasReply(SetupOf(cmd.header.setup)))
  }

  lemma DelimitsIsDelimited(c: Config, status: Status, cmd: Command, isOut: U32 -> bool)
    ensures Delimits(cmd, isOut) <==> Delimited(UpsDevice(c), cmd, isOut)
  {
    if cmd.Submit? && |cmd.header.setup| == 8 {
      var su := SetupOf(cmd.header.setup);
      assert UpsDevice(c).control(status, su) == ControlReply(InitDescriptors(c), status, su);
      forall st ensures UpsDevice(c).control(st, su) == [] <==> !HasReply(su) {
        RepliesExactlyWhen(c, st, su);
      }
    }
  }

  /** Standard and HID requests whose data goes to the device can be delimited. */
  lemma OutRequestsDelimit(cmd: Command, isOut: U32 -> bool)
    requires cmd.Submit? && |cmd.header.setup| == 8 && OutRequest(SetupOf(cmd.header.setup))
    ensures Delimits(cmd, isOut)
  {
  }

  /** Over any run, the client takes the output of the server apart into the replies it sent, if and only if
      each of the client's accepted commands was one whose reply can be delimited. */
  lemma ServerOutputDecodes(config: Config, status: Status, es: seq<Event>, c: nat, isOut: U32 -> bool)
    requires c < Run(Init(UpsDevice(config), status), es).nextClient
    ensures var t := Run(Init(UpsDevice(config), status), es);
      c in t.logs && (Decodes(t.logs[c], isOut) <==> forall cmd | cmd in Commands(t.logs[c]) :: Delimits(cmd, isOut))
  {
    UpsIsGood(config);
    UpsIsSteady(config);
    OutputIsDecodable(UpsDevice(config), status, es, c, isOut);
    forall cmd ensures Delimits(cmd, isOut) <==> Delimited(UpsDevice(config), cmd, isOut) {
      DelimitsIsDelimited(config, status, cmd, isOut);
    }
  }
}
