/** What a host gets for each control request, on the eight bytes it sends: chapter 9 of the USB specification
    for the standard requests and HID 1.11, section 7.2, for the others. */
module Enumeration {
  import opened Bytes
  import opened UpsStatus
  import opened Reports
  import opened HidDescriptor
  import opened Control

  /** Two bytes as a number, the low one first. */
  function Little(low: int, high: int): int {
    low + 256 * high
  }

  /** At most the first `n` bytes. */
  function First(n: nat, b: seq<Byte>): seq<Byte> {
    if n < |b| then b[..n] else b
  }

  /** The text of a string descriptor, two bytes to a character. */
  function Wide(text: seq<Byte>): seq<Byte> {
    seq(2 * |text|, i requires 0 <= i < 2 * |text| => if i % 2 == 0 then text[i / 2] else 0)
  }

  function StringReply(text: seq<Byte>): seq<Byte> {
    [(2 + 2 * |text|) % 256, 3] + Wide(text)
  }

  const INTERFACE_REPLY: seq<Byte> := [9, 4, 0, 0, 2, 3, 0, 0, 0]
  const HID_REPLY: seq<Byte> := [9, 0x21, 0x10, 0x01, 33, 1, 0x22, 29, 1]
  const IN_REPLY: seq<Byte> := [7, 5, 0x81, 3, 64, 0, 10]
  const OUT_REPLY: seq<Byte> := [7, 5, 0x02, 3, 64, 0, 10]

  function DeviceReply(c: Config): seq<Byte> {
    [18, 1, 0x10, 0x01, 3, 0, 0, 64] +
    [c.vendorId % 256, c.vendorId / 256, c.productId % 256, c.productId / 256] + [0x00, 0x01, 1, 2, 3, 1]
  }

  function ConfigReply(): seq<Byte> {
    [9, 2, 41, 0, 1, 1, 0, 0x80, 50] + INTERFACE_REPLY + HID_REPLY + IN_REPLY + OUT_REPLY
  }

  /** The descriptor of a kind; strings and endpoints come in several. */
  function Described(c: Config, kind: Byte, id: Byte, index: nat, n: nat): seq<Byte> {
    match kind
    case 1 => DeviceReply(c)
    case 2 => ConfigReply()
    case 3 =>
      if id == 0 then [4, 3, 0x09, 0x04]
      else if id == 1 then StringReply(c.manufacturer)
      else if id == 2 then StringReply(c.product)
      else if id == 3 then StringReply(c.serial)
      else if id == 4 then [10, 3, 0x4F, 0, 0x50, 0, 0x45, 0, 0x4E, 0]
      else if id == 5 then [16, 3, 0x4C, 0, 0x69, 0, 0x46, 0, 0x65, 0, 0x50, 0, 0x4F, 0, 0x34, 0]
      else []
    case 4 => if n < 9 then [] else INTERFACE_REPLY
    case 5 =>
      if n < 7 then []
      else if id == 2 || index == 2 then OUT_REPLY
      else if id == 0x81 || id == 1 || index < 2 then IN_REPLY
      else []
    case 0x21 => HID_REPLY
    case 0x22 => DESCRIPTOR
    case _ => []
  }

  /** A report by its ID: the names, what the status says, and the capacity. */
  function Reported(s: Status, id: Byte): seq<Byte> {
    if id == 1 then [1, 0, 1, 2, 3, 5, 4, 2]
    else if id == 2 then FullReport(s, 2)
    else if id == 3 then [3, if s.batteryCapacity < 100 then s.batteryCapacity else 100]
    else []
  }

  /** The data a host gets for the setup packet `r`: the request code is byte 1, wValue bytes 2 and 3, wIndex
      bytes 4 and 5, wLength bytes 6 and 7, the low byte first. */
  function Expected(c: Config, s: Status, r: seq<Byte>): seq<Byte>
    requires |r| == 8
  {
    var n: nat := Little(r[6], r[7]);
    match r[1]
    case 6 => First(n, Described(c, r[3], r[2], Little(r[4], r[5]), n))
    case 1 => if r[3] == 1 || r[3] == 3 then First(n, Reported(s, r[2])) else []
    case 0 => if n < 2 then [] else [1, 0]
    case 8 => First(n, [1])
    case 3 => First(n, [1])
    case 10 => First(n, [0])
    case 2 => First(n, [0])
    case _ => []
  }

  lemma SetupFields(r: seq<Byte>)
    requires |r| == 8
    ensures var s := SetupOf(r);
      && s.requestType == r[0] && s.request == r[1] && s.value / 0x100 == r[3] && s.value % 0x100 == r[2]
      && s.index == Little(r[4], r[5]) && s.length == Little(r[6], r[7])
  {
  }

  lemma {:induction false} WideText(text: seq<Byte>)
    ensures Utf16(text) == Wide(text)
  {
    if text == [] {
    } else {
      WideText(text[1..]);
      var b := Wide(text);
      assert b[..2] == [text[0], 0];
      assert b[2..] == Wide(text[1..]);
      assert b == b[..2] + b[2..];
    }
  }

  lemma StringsAre(c: Config, id: Byte)
    ensures StringAt(InitDescriptors(c), id) == Described(c, 3, id, 0, 0)
  {
    var d := InitDescriptors(c);
    assert |d.strings| == 10;
    if id >= 6 {
    } else if id >= 4 {
      FixedStrings(id);
    } else if id > 0 {
      TextIsWide(if id == 1 then c.manufacturer else if id == 2 then c.product else c.serial);
    }
  }

  lemma TextIsWide(text: seq<Byte>)
    ensures StringDescriptor(text) == StringReply(text)
  {
    WideText(text);
  }

  lemma FixedStrings(id: Byte)
    ensures id == 4 ==> StringDescriptor(OEM_INFO) == [10, 3, 0x4F, 0, 0x50, 0, 0x45, 0, 0x4E, 0]
    ensures id == 5 ==>
      StringDescriptor(BATTERY_TYPE) == [16, 3, 0x4C, 0, 0x69, 0, 0x46, 0, 0x65, 0, 0x50, 0, 0x4F, 0, 0x34, 0]
  {
    if id == 4 {
      WideText(OEM_INFO);
      assert Wide(OEM_INFO) == [0x4F, 0, 0x50, 0, 0x45, 0, 0x4E, 0];
    } else if id == 5 {
      WideText(BATTERY_TYPE);
      assert Wide(BATTERY_TYPE) == [0x4C, 0, 0x69, 0, 0x46, 0, 0x65, 0, 0x50, 0, 0x4F, 0, 0x34, 0];
    }
  }

  lemma OtherDescriptors(c: Config)
    ensures var d := InitDescriptors(c);
      && d.device == DeviceReply(c) && d.interface == INTERFACE_REPLY && d.hid == HID_REPLY && d.report == DESCRIPTOR
      && d.config == ConfigReply() && EndpointAt(d, 0) == IN_REPLY && EndpointAt(d, ENDPOINT_SIZE) == OUT_REPLY
  {
    DescriptorLength();
    assert (ENDPOINT_IN + ENDPOINT_OUT)[..7] == IN_REPLY && (ENDPOINT_IN + ENDPOINT_OUT)[7..14] == OUT_REPLY;
  }

  lemma DescriptorAnswers(c: Config, s: Setup)
    ensures DescriptorReply(InitDescriptors(c), s) ==
      First(s.length, Described(c, s.value / 0x100, s.value % 0x100, s.index, s.length))
  {
    OtherDescriptors(c);
    if s.value / 0x100 == 3 {
      StringsAre(c, s.value % 0x100);
    } else {
      OthersAnswered(InitDescriptors(c), c, s);
    }
  }

  lemma OthersAnswered(d: Descriptors, c: Config, s: Setup)
    requires s.value / 0x100 != 3 && d.device == DeviceReply(c) && d.report == DESCRIPTOR
    requires d.interface == INTERFACE_REPLY && d.hid == HID_REPLY && d.config == ConfigReply()
    requires EndpointAt(d, 0) == IN_REPLY && EndpointAt(d, ENDPOINT_SIZE) == OUT_REPLY
    ensures DescriptorReply(d, s) ==
      First(s.length, Described(c, s.value / 0x100, s.value % 0x100, s.index, s.length))
  {
  }

  /** Every control request is answered with the data a host expects, whatever it asks for and whatever room
      it leaves. */
  lemma ControlAnswers(c: Config, status: Status, r: seq<Byte>)
    requires |r| == 8
    ensures ControlReply(InitDescriptors(c), status, SetupOf(r)) == Expected(c, status, r)
  {
    var s := SetupOf(r);
    SetupFields(r);
    if s.request == GET_DESCRIPTOR {
      DescriptorAnswers(c, s);
    }
  }

  /** A descriptor names its kind, and its first byte is its length, as far as one byte can hold it. */
  lemma DescribedShape(c: Config, kind: Byte, id: Byte, index: nat, n: nat)
    requires kind != 0x22
    ensures var d := Described(c, kind, id, index, n);
      d == [] || (|d| >= 2 && d[1] == kind && if kind == 2 then |d| == 41 && d[2] == 41 else d[0] == |d| % 256)
  {
  }

  /** So does every reply to a descriptor request, cut to the room there is. Report descriptors have no header. */
  lemma RepliesNameTheirKind(c: Config, status: Status, r: seq<Byte>)
    requires |r| == 8 && r[1] == 6 && r[3] != 0x22
    ensures var d, n := ControlReply(InitDescriptors(c), status, SetupOf(r)), Little(r[6], r[7]);
      && (|d| >= 2 ==> d[1] == r[3])
      && (0 < |d| < n ==> if r[3] == 2 then |d| == d[2] else d[0] == |d| % 256)
  {
    ControlAnswers(c, status, r);
    DescribedShape(c, r[3], r[2], Little(r[4], r[5]), Little(r[6], r[7]));
    FirstKeeps(Little(r[6], r[7]), Described(c, r[3], r[2], Little(r[4], r[5]), Little(r[6], r[7])));
  }

  lemma FirstKeeps(n: nat, b: seq<Byte>)
    ensures First(n, b) <= b && |First(n, b)| <= n && (|First(n, b)| < n ==> First(n, b) == b)
  {
  }
}
