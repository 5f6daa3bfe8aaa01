/** USB descriptors and `handle_control_request`. */
module Control {
  import opened Bytes
  import opened UpsStatus
  import opened Reports
  import opened HidDescriptor

  /** What the device was configured with. The serial number carries the build date. */
  datatype Config = Config(manufacturer: seq<Byte>, product: seq<Byte>, serial: seq<Byte>,
                           vendorId: U16, productId: U16)

  /** "OPEN" and "LiFePO4" */
  const OEM_INFO: seq<Byte> := [0x4F, 0x50, 0x45, 0x4E]
  const BATTERY_TYPE: seq<Byte> := [0x4C, 0x69, 0x46, 0x65, 0x50, 0x4F, 0x34]

  const DT_DEVICE := 1
  const DT_CONFIG := 2
  const DT_STRING := 3
  const DT_INTERFACE := 4
  const DT_ENDPOINT := 5
  const DT_HID := 0x21
  const DT_REPORT := 0x22

  /** A one-byte length limits a string descriptor to 126 characters. */
  const MAX_STRING := 126

  /** Each character followed by a zero byte. */
  function Utf16(text: seq<Byte>): (b: seq<Byte>)
    ensures |b| == 2 * |text|
  {
    if text == [] then [] else [text[0], 0] + Utf16(text[1..])
  }

  /** `create_string_descriptor`; the length byte wraps around. */
  function StringDescriptor(text: seq<Byte>): seq<Byte> {
    [(2 + 2 * |text|) % 0x100, DT_STRING] + Utf16(text)
  }

  function DeviceDescriptor(c: Config): (d: seq<Byte>)
    ensures |d| == 18
  {
    [18, DT_DEVICE, 0x10, 0x01, 0x03, 0x00, 0x00, 64,
     c.vendorId % 0x100, c.vendorId / 0x100, c.productId % 0x100, c.productId / 0x100,
     0x00, 0x01, 1, 2, 3, 1]
  }

  const INTERFACE_DESCRIPTOR: seq<Byte> := [9, DT_INTERFACE, 0, 0, 2, 0x03, 0, 0, 0]
  const HID_DESCRIPTOR: seq<Byte> :=
    [9, DT_HID, 0x10, 0x01, 33, 1, DT_REPORT, DESCRIPTOR_LENGTH % 0x100, DESCRIPTOR_LENGTH / 0x100]
  const ENDPOINT_SIZE := 7
  const ENDPOINT_IN: seq<Byte> := [7, DT_ENDPOINT, 0x81, 3, 64, 0, 10]
  const ENDPOINT_OUT: seq<Byte> := [7, DT_ENDPOINT, 0x02, 3, 64, 0, 10]
  const CONFIG_HEADER: seq<Byte> := [9, DT_CONFIG, 41, 0, 1, 1, 0, 0x80, 50]

  /** The configuration descriptor with the others appended, as `init_descriptors` leaves it. */
  const CONFIG_DESCRIPTOR: seq<Byte> :=
    CONFIG_HEADER + INTERFACE_DESCRIPTOR + HID_DESCRIPTOR + ENDPOINT_IN + ENDPOINT_OUT

  /** The descriptor members of the device object. */
  datatype Descriptors = Descriptors(
    device: seq<Byte>, config: seq<Byte>, interface: seq<Byte>, hid: seq<Byte>, endpoint: seq<Byte>,
    report: seq<Byte>, strings: seq<seq<Byte>>)

  /** `init_descriptors` */
  function InitDescriptors(c: Config): Descriptors {
    Descriptors(
      DeviceDescriptor(c), CONFIG_DESCRIPTOR, INTERFACE_DESCRIPTOR, HID_DESCRIPTOR, ENDPOINT_IN + ENDPOINT_OUT,
      DESCRIPTOR,
      [[4, DT_STRING, 0x09, 0x04], StringDescriptor(c.manufacturer), StringDescriptor(c.product),
       StringDescriptor(c.serial), StringDescriptor(OEM_INFO), StringDescriptor(BATTERY_TYPE), [], [], [], []])
  }

  /** `get_string_descriptor` */
  function StringAt(d: Descriptors, index: nat): seq<Byte> {
    if index < |d.strings| then d.strings[index] else []
  }

  datatype Setup = Setup(requestType: Byte, request: Byte, value: U16, index: U16, length: U16)

  function SetupOf(b: seq<Byte>): Setup
    requires |b| == 8
  {
    Setup(b[0], b[1], LeAt16(b, 2), LeAt16(b, 4), LeAt16(b, 6))
  }

  const GET_STATUS := 0x00
  const GET_REPORT := 0x01
  const GET_IDLE := 0x02
  const GET_PROTOCOL := 0x03
  const GET_DESCRIPTOR := 0x06
  const GET_CONFIGURATION := 0x08
  const GET_INTERFACE := 0x0A

  /** An answer given only if the host leaves room for `need` bytes, and cut to the room it leaves. */
  function IfRoom(b: seq<Byte>, need: nat, room: nat): seq<Byte> {
    if room >= need then Truncate(b, room) else []
  }

  /** One of the endpoint descriptors standing one after the other in `d.endpoint`. */
  function EndpointAt(d: Descriptors, off: nat): seq<Byte> {
    if |d.endpoint| >= off + ENDPOINT_SIZE then d.endpoint[off..off + ENDPOINT_SIZE] else []
  }

  function DescriptorReply(d: Descriptors, s: Setup): seq<Byte> {
    var kind, id := s.value / 0x100, s.value % 0x100;
    match kind
    case 1 => Truncate(d.device, s.length)
    case 2 => Truncate(d.config, s.length)
    case 3 => Truncate(StringAt(d, id), s.length)
    case 4 => IfRoom(d.interface, 9, s.length)
    case 5 =>
      if id == 2 || s.index == 2 then IfRoom(EndpointAt(d, ENDPOINT_SIZE), ENDPOINT_SIZE, s.length)
      else if id == 0x81 || id == 1 || s.index == 0 || s.index == 1 then
        IfRoom(EndpointAt(d, 0), ENDPOINT_SIZE, s.length)
      else []
    case 0x21 => Truncate(d.hid, s.length)
    case 0x22 => Truncate(d.report, s.length)
    case _ => []
  }

  /** The data stage of a control request. Standard and HID requests share one code space: SET_REPORT is
      SET_CONFIGURATION, SET_IDLE is GET_INTERFACE, CLEAR_FEATURE is GET_REPORT, and so on. */
  function ControlReply(d: Descriptors, status: Status, s: Setup): seq<Byte> {
    match s.request
    case 0x06 => DescriptorReply(d, s)
    case 0x00 => IfRoom([1, 0], 2, s.length)
    case 0x08 => IfRoom([1], 1, s.length)
    case 0x0A => IfRoom([0], 1, s.length)
    case 0x01 => GetReport(status, s.value / 0x100, s.value % 0x100, s.length)
    case 0x02 => IfRoom([0], 1, s.length)
    case 0x03 => IfRoom([1], 1, s.length)
    case _ => []
  }

  /** Control replies are truncated views: never longer than wLength, and the reply for a smaller
      wLength is a prefix of the reply for a larger one. */
  lemma RepliesAreTruncatedViews(d: Descriptors, status: Status, s: Setup, m: U16)
    requires m <= s.length
    ensures |ControlReply(d, status, s)| <= s.length
    ensures ControlReply(d, status, s.(length := m)) <= ControlReply(d, status, s)
  {
  }

  /** A request that carries no data stage gets none, whatever its code collides with. */
  lemma NoRoomNoData(d: Descriptors, status: Status, s: Setup)
    requires s.length == 0
    ensures ControlReply(d, status, s) == []
  {
  }

  /** Standard and HID class requests whose data stage, if any, goes from host to device. */
  predicate OutRequest(s: Setup) {
    s.requestType < 0x80 &&
    if s.requestType / 0x20 == 0 then
      // CLEAR_FEATURE, SET_FEATURE, SET_ADDRESS, SET_CONFIGURATION and SET_INTERFACE have no data stage
      s.request == 0x07 ||
      ((s.request == 0x01 || s.request == 0x03 || s.request == 0x05 || s.request == 0x09 || s.request == 0x0B)
       && s.length == 0)
    else
      // SET_REPORT has one; SET_IDLE and SET_PROTOCOL do not
      s.requestType / 0x20 == 1 &&
      (s.request == 0x09 || ((s.request == 0x0A || s.request == 0x0B) && s.length == 0))
  }

  lemma OutRequestsGetNoData(d: Descriptors, status: Status, s: Setup)
    requires OutRequest(s)
    ensures ControlReply(d, status, s) == []
  {
  }

  /** Which requests the device answers with data at all. */
  predicate HasReply(s: Setup) {
    var kind, id := s.value / 0x100, s.value % 0x100;
    match s.request
    case 0x06 =>
      if kind == DT_STRING then id < 6 && s.length > 0
      else if kind == DT_INTERFACE then s.length >= 9
      else if kind == DT_ENDPOINT then s.length >= ENDPOINT_SIZE && (id == 1 || id == 2 || id == 0x81 || s.index <= 2)
      else (kind == DT_DEVICE || kind == DT_CONFIG || kind == DT_HID || kind == DT_REPORT) && s.length > 0
    case 0x00 => s.length >= 2
    case 0x01 => (kind == INPUT_REPORT || kind == FEATURE_REPORT) && 1 <= id <= 3 && s.length > 0
    case 0x02 => s.length > 0
    case 0x03 => s.length > 0
    case 0x08 => s.length > 0
    case 0x0A => s.length > 0
    case _ => false
  }

  /** Whether a request is answered with data depends on the request alone: not on the status, and not on
      the configured names. */
  lemma RepliesExactlyWhen(c: Config, status: Status, s: Setup)
    ensures ControlReply(InitDescriptors(c), status, s) != [] <==> HasReply(s)
  {
    DescriptorLength();
    if s.request == GET_DESCRIPTOR {
      DescribesExactlyWhen(c, s);
    }
  }

  lemma DescribesExactlyWhen(c: Config, s: Setup)
    requires s.request == GET_DESCRIPTOR && |DESCRIPTOR| > 0
    ensures DescriptorReply(InitDescriptors(c), s) != [] <==> HasReply(s)
  {
  }

  const REPLY_ROOM := 4096

  /** No descriptor outgrows the server's reply buffer. */
  predicate Fitting(d: Descriptors) {
    && |d.device| <= REPLY_ROOM && |d.config| <= REPLY_ROOM && |d.interface| <= REPLY_ROOM
    && |d.hid| <= REPLY_ROOM && |d.report| <= REPLY_ROOM
    && forall i | 0 <= i < |d.strings| :: |d.strings[i]| <= REPLY_ROOM
  }

  /** What the server must be configured with: strings of at most 2047 characters. */
  lemma InitialDescriptorsFit(c: Config)
    ensures Fitting(InitDescriptors(c)) <==>
      |c.manufacturer| <= 2047 && |c.product| <= 2047 && |c.serial| <= 2047
  {
    DescriptorLength();
    var d := InitDescriptors(c);
    assert d.strings[1] == StringDescriptor(c.manufacturer);
    assert d.strings[2] == StringDescriptor(c.product);
    assert d.strings[3] == StringDescriptor(c.serial);
  }

  lemma FittingReply(d: Descriptors, status: Status, s: Setup)
    requires Fitting(d)
    ensures |ControlReply(d, status, s)| <= REPLY_ROOM
  {
  }

  /** The request for a whole descriptor. */
  function AskFor(kind: Byte, id: Byte): Setup {
    Setup(0x80, GET_DESCRIPTOR, kind * 0x100 + id, 0, 0xFFFF)
  }

  lemma AskedFor(d: Descriptors, status: Status, kind: Byte, id: Byte)
    ensures ControlReply(d, status, AskFor(kind, id)) == DescriptorReply(d, AskFor(kind, id))
    ensures AskFor(kind, id).value / 0x100 == kind && AskFor(kind, id).value % 0x100 == id
  {
  }

  lemma TooLongToFit(d: Descriptors, status: Status) returns (s: Setup)
    requires |d.strings| <= 0x100 && !Fitting(d)
    ensures |ControlReply(d, status, s)| > REPLY_ROOM
  {
    var kind, id: Byte := DT_STRING, 0;
    if |d.device| > REPLY_ROOM {
      kind := DT_DEVICE;
    } else if |d.config| > REPLY_ROOM {
      kind := DT_CONFIG;
    } else if |d.interface| > REPLY_ROOM {
      kind := DT_INTERFACE;
    } else if |d.hid| > REPLY_ROOM {
      kind := DT_HID;
    } else if |d.report| > REPLY_ROOM {
      kind := DT_REPORT;
    } else {
      var i :| 0 <= i < |d.strings| && |d.strings[i]| > REPLY_ROOM;
      id := i;
    }
    s := AskFor(kind, id);
    AskedFor(d, status, kind, id);
  }

  /** No reply outgrows the server's buffer exactly when no descriptor does. */
  lemma RepliesFit(d: Descriptors, status: Status)
    requires |d.strings| <= 0x100
    ensures (forall s :: |ControlReply(d, status, s)| <= REPLY_ROOM) <==> Fitting(d)
  {
    if Fitting(d) {
      forall s ensures |ControlReply(d, status, s)| <= REPLY_ROOM {
        FittingReply(d, status, s);
      }
    } else {
      var s := TooLongToFit(d, status);
    }
  }

  function DecodeUtf16(b: seq<Byte>): seq<Byte> {
    if |b| < 2 then [] else [b[0]] + DecodeUtf16(b[2..])
  }

  lemma {:induction false} Utf16Inverse(text: seq<Byte>)
    ensures DecodeUtf16(Utf16(text)) == text
  {
    if text == [] {
    } else {
      Utf16Inverse(text[1..]);
      assert Utf16(text)[2..] == Utf16(text[1..]);
    }
  }

  /** A host that trusts the length byte recovers the string exactly when it is short enough. */
  lemma StringRoundTrip(text: seq<Byte>)
    ensures var d := StringDescriptor(text);
      2 <= d[0] <= |d| ==> (DecodeUtf16(d[2..d[0]]) == text <==> |text| <= MAX_STRING)
    ensures var d := StringDescriptor(text);
      d[0] == |d| <==> |text| <= MAX_STRING
  {
    var d := StringDescriptor(text);
    assert d[2..] == Utf16(text);
    Utf16Inverse(text);
    if 2 <= d[0] <= |d| {
      Utf16Length(d[2..d[0]]);
      if |text| <= MAX_STRING {
        assert d[2..d[0]] == Utf16(text);
      }
    }
  }

  lemma {:induction false} Utf16Length(b: seq<Byte>)
    ensures |DecodeUtf16(b)| == |b| / 2
  {
    if |b| < 2 {
    } else {
      Utf16Length(b[2..]);
    }
  }

  /** The string indices that report 1 and the device descriptor hand out lead to the strings they are
      named for. */
  lemma StringIndicesResolve(c: Config, status: Status)
    ensures var r, d := FullReport(status, 1), InitDescriptors(c);
      && StringAt(d, r[2]) == StringAt(d, d.device[14]) == StringDescriptor(c.manufacturer)
      && StringAt(d, r[3]) == StringAt(d, d.device[15]) == StringDescriptor(c.product)
      && StringAt(d, r[4]) == StringAt(d, d.device[16]) == StringDescriptor(c.serial)
      && StringAt(d, r[5]) == StringDescriptor(BATTERY_TYPE)
      && StringAt(d, r[6]) == StringDescriptor(OEM_INFO)
  {
  }

  /** The descriptor types met when walking a configuration by its length bytes. */
  function Walk(b: seq<Byte>): Option<seq<Byte>>
    decreases |b|
  {
    if b == [] then Some([])
    else if |b| < 2 || b[0] < 2 || |b| < b[0] then None
    else match Walk(b[b[0]..]) case None => None case Some(types) => Some([b[1]] + types)
  }

  lemma WalkOne(d: seq<Byte>, rest: seq<Byte>)
    requires |d| >= 2 && d[0] == |d| && Walk(rest).Some?
    ensures Walk(d + rest) == Some([d[1]] + Walk(rest).value)
  {
  }

  /** The configuration is a chain of whole descriptors; it announces its own length, two endpoints for
      its one interface, and the length of the report descriptor. */
  lemma ConfigurationIsWellFormed()
    ensures Walk(CONFIG_DESCRIPTOR).Some?
    ensures Walk(CONFIG_DESCRIPTOR).value == [DT_CONFIG, DT_INTERFACE, DT_HID, DT_ENDPOINT, DT_ENDPOINT]
    ensures LeAt16(CONFIG_DESCRIPTOR, 2) == |CONFIG_DESCRIPTOR|
    ensures LeAt16(HID_DESCRIPTOR, 7) == |DESCRIPTOR|
  {
    DescriptorLength();
    var c5: seq<Byte> := ENDPOINT_OUT;
    var c4 := ENDPOINT_IN + c5;
    var c3 := HID_DESCRIPTOR + c4;
    var c2 := INTERFACE_DESCRIPTOR + c3;
    var none: seq<Byte> := [];
    assert c5 + none == c5;
    WalkOne(ENDPOINT_OUT, none);
    assert Walk(c5).Some? && Walk(c5).value == [DT_ENDPOINT];
    WalkOne(ENDPOINT_IN, c5);
    assert Walk(c4).Some? && Walk(c4).value == [DT_ENDPOINT, DT_ENDPOINT];
    WalkOne(HID_DESCRIPTOR, c4);
    assert Walk(c3).Some? && Walk(c3).value == [DT_HID, DT_ENDPOINT, DT_ENDPOINT];
    WalkOne(INTERFACE_DESCRIPTOR, c3);
    assert Walk(c2).Some? && Walk(c2).value == [DT_INTERFACE, DT_HID, DT_ENDPOINT, DT_ENDPOINT];
    WalkOne(CONFIG_HEADER, c2);
    assert CONFIG_DESCRIPTOR == CONFIG_HEADER + c2;
    assert [DT_CONFIG] + [DT_INTERFACE, DT_HID, DT_ENDPOINT, DT_ENDPOINT] ==
      [DT_CONFIG, DT_INTERFACE, DT_HID, DT_ENDPOINT, DT_ENDPOINT];
  }

  /** The request handler, writing into the caller's buffer. */
  method HandleControlRequest(d: Descriptors, status: Status, s: Setup, buffer: array<Byte>) returns (n: nat)
    requires |ControlReply(d, status, s)| <= buffer.Length == REPLY_ROOM
    modifies buffer
    ensures n == |ControlReply(d, status, s)|
    ensures buffer[..] == ControlReply(d, status, s) + old(buffer[..])[n..]
  {
    if s.request == GET_REPORT {
      n := WriteReport(status, s.value / 0x100, s.value % 0x100, buffer, s.length);
    } else if s.request == GET_DESCRIPTOR {
      n := CopyOut(DescriptorReply(d, s), buffer);
    } else if s.request == GET_STATUS && s.length >= 2 {
      n := CopyOut([0x01, 0x00], buffer);
    } else if (s.request == GET_CONFIGURATION || s.request == GET_PROTOCOL) && s.length >= 1 {
      n := CopyOut([1], buffer);
    } else if (s.request == GET_INTERFACE || s.request == GET_IDLE) && s.length >= 1 {
      n := CopyOut([0], buffer);
    } else {
      n := 0;
    }
  }

  /** `memcpy` to the front of a buffer. */
  method CopyOut(b: seq<Byte>, buffer: array<Byte>) returns (n: nat)
    requires |b| <= buffer.Length
    modifies buffer
    ensures n == |b| && buffer[..] == b + old(buffer[..])[n..]
  {
    n := |b|;
    forall i | 0 <= i < n {
      buffer[i] := b[i];
    }
  }

  lemma {:induction false} Utf16Append(text: seq<Byte>, c: Byte)
    ensures Utf16(text + [c]) == Utf16(text) + [c, 0]
  {
    if text == [] {
      assert [] + [c] == [c] && [c][1..] == [];
    } else {
      assert (text + [c])[1..] == text[1..] + [c];
      Utf16Append(text[1..], c);
    }
  }

  /** `create_string_descriptor`: two header bytes, then two bytes a character. */
  method CreateStringDescriptor(text: seq<Byte>) returns (descriptor: seq<Byte>)
    ensures descriptor == StringDescriptor(text)
  {
    var length: Byte := (2 + |text| * 2) % 0x100;
    descriptor := [length, DT_STRING];
    var i := 0;
    while i < |text|
      invariant 0 <= i <= |text|
      invariant descriptor == [length, DT_STRING] + Utf16(text[..i])
    {
      assert text[..i + 1] == text[..i] + [text[i]];
      Utf16Append(text[..i], text[i]);
      descriptor := descriptor + [text[i]];
      descriptor := descriptor + [0];
      i := i + 1;
    }
    assert text[..i] == text;
  }

  /** `init_descriptors`, one vector after the other. */
  method BuildDescriptors(c: Config) returns (d: Descriptors)
    ensures d == InitDescriptors(c)
  {
    var manufacturer := CreateStringDescriptor(c.manufacturer);
    var product := CreateStringDescriptor(c.product);
    var serial := CreateStringDescriptor(c.serial);
    var oem := CreateStringDescriptor(OEM_INFO);
    var battery := CreateStringDescriptor(BATTERY_TYPE);
    var endpoint := ENDPOINT_IN;
    endpoint := endpoint + ENDPOINT_OUT;
    var config := BuildConfiguration();
    d := Descriptors(DeviceDescriptor(c), config, INTERFACE_DESCRIPTOR, HID_DESCRIPTOR, endpoint, DESCRIPTOR,
                     [[4, DT_STRING, 0x09, 0x04], manufacturer, product, serial, oem, battery, [], [], [], []]);
  }

  method BuildConfiguration() returns (config: seq<Byte>)
    ensures config == CONFIG_DESCRIPTOR
  {
    config := CONFIG_HEADER;
    config := config + INTERFACE_DESCRIPTOR;
    config := config + HID_DESCRIPTOR;
    config := config + ENDPOINT_IN;
    config := config + ENDPOINT_OUT;
  }
}
