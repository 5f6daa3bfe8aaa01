/** Reading the reports the way a host does, through the layout its descriptor declares. */
module HidMeaning {
  import opened Bytes
  import opened Numbers
  import opened UpsStatus
  import opened Reports
  import opened HidItems
  import opened HidLayout
  import opened HidDescriptor
  import opened HidBits

  /** What a usage stands for in the collection it is declared in, by the HID usage tables for power
      devices (page 0x84) and battery systems (page 0x85). */
  function Meaning(s: Status, place: Usage, u: Usage): Option<int> {
    if u.page == 0x84 then
      match u.id
      case 0x30 => Voltage(s, place)
      case 0x31 => Current(s, place)
      case 0x36 => Some(TemperatureRaw(s.batteryTemperature))
      case 0x1F | 0x25 => Some(0)                            // FlowID, PowerSummaryID
      case 0xFD => Some(1)                                   // iManufacturer
      case 0xFE => Some(2)                                   // iProduct
      case 0xFF => Some(3)                                   // iSerialNumber
      case 0x61 => Some(1)                                   // Good
      case 0x62 | 0x67 => Some(0)                            // InternalFailure, OverTemperature
      case 0x65 => Some(Bit(s.power.overload, 1))            // Overload
      case 0x69 => Some(Bit(s.power.lowRuntime, 1))          // ShutdownImminent
      case _ => None
    else if u.page == 0x85 then
      match u.id
      case 0x29 => Some(PercentToU8(s.batteryChargeLow))     // RemainingCapacityLimit
      case 0x2C => Some(2)                                   // CapacityMode: percent
      case 0x42 => Some(Bit(LowCharge(s), 1))                // BelowRemainingCapacityLimit
      case 0x43 => Some(Bit(LowRuntime(s), 1))               // RemainingTimeLimitExpired
      case 0x44 => Some(Bit(s.power.charging, 1))            // Charging
      case 0x45 => Some(Bit(s.power.discharging, 1))         // Discharging
      case 0x4B => Some(0)                                   // NeedReplacement
      case 0x66 => Some(PercentToU8(s.batteryCharge))        // RemainingCapacity
      case 0x67 | 0x83 => Some(PercentToU8(s.batteryCapacity)) // FullChargeCapacity, DesignCapacity
      case 0x68 => Some(s.runtime)                           // RunTimeToEmpty
      case 0x89 => Some(5)                                   // iDeviceChemistry
      case 0x8C => Some(PercentToU8(s.batteryChargeWarning)) // WarningCapacityLimit
      case 0x8F => Some(4)                                   // iOEMInformation
      case 0xD0 => Some(Bit(s.power.acPresent, 1))           // ACPresent
      case 0xD1 => Some(1)                                   // BatteryPresent
      case _ => None
    else None
  }

  function Voltage(s: Status, place: Usage): Option<int> {
    if place == OUTPUT then Some(s.outputVoltage)
    else if place == INPUT then Some(s.inputVoltage)
    else if place == SUMMARY[1] then Some(s.batteryVoltage)
    else None
  }

  function Current(s: Status, place: Usage): Option<int> {
    if place == OUTPUT then Some(s.outputCurrent)
    else if place == INPUT then Some(s.inputCurrent)
    else if place == SUMMARY[1] then Some(s.batteryCurrent)
    else None
  }

  /** A declaration whose fields lie inside the report. */
  predicate Fits(d: Decl, s: Status) {
    d.path != [] && d.offset + d.count * d.size <= 8 * |FullReport(s, d.report)|
  }

  /** Field `k` of a declaration, out of the bytes of a report. */
  function ReadField(d: Decl, k: nat, b: seq<Byte>): nat
    requires d.offset + d.count * d.size <= 8 * |b| && k < d.count
  {
    assert k * d.size + d.size <= d.count * d.size by { Inside(k, d.count, d.size); }
    ReadBits(b, d.offset + k * d.size, d.size)
  }

  function Read(d: Decl, k: nat, s: Status): nat
    requires Fits(d, s) && k < d.count
  {
    ReadField(d, k, FullReport(s, d.report))
  }

  lemma Inside(k: nat, count: nat, size: nat)
    requires k < count
    ensures 0 <= k * size && k * size + size <= count * size
  {
    assert (count - k - 1) * size >= 0;
    assert count * size == k * size + size + (count - k - 1) * size;
  }

  /** Field `k` of a declaration reads back what its usage stands for; padding reads zero. */
  predicate FieldFaithful(d: Decl, k: nat, s: Status)
    requires Fits(d, s) && k < d.count
  {
    var v := Read(d, k, s);
    match UsageOf(d, k)
    case None => v == 0
    case Some(u) => Meaning(s, d.path[|d.path| - 1], u) == Some(v) && (d.stringIndex != 0 ==> v == d.stringIndex)
  }

  predicate Faithful(d: Decl, s: Status) {
    Fits(d, s) && AllMeasured(d) && forall k | 0 <= k < d.count :: FieldFaithful(d, k, s)
  }

  datatype Unit = NoUnit | Unit(code: nat, exponent: int)

  /** The unit and the exponent a measurement is declared with, as HID 1.11, section 6.2.2.7, writes them: volts are
      0xF0D121 with exponent 7, amperes 0x100001, seconds 0x1001 and kelvins 0x10001 with exponent 0. */
  function MeasuredIn(place: Usage, u: Usage): Unit {
    if u == Usage(0x84, 0x30) then Unit(0xF0D121, if place == SUMMARY[1] then 4 else 5)
    else if u == Usage(0x84, 0x31) then Unit(0x100001, if place == SUMMARY[1] then -3 else -2)
    else if u == Usage(0x84, 0x36) then Unit(0x10001, -2)
    else if u == Usage(0x85, 0x68) then Unit(0x1001, 0)
    else NoUnit
  }

  predicate Measured(d: Decl, u: Usage)
    requires d.path != []
  {
    var m := MeasuredIn(d.path[|d.path| - 1], u);
    m.Unit? ==> m.code == d.unit && m.exponent == d.exponent
  }

  predicate AllMeasured(d: Decl) {
    d.path != [] && forall k | 0 <= k < |d.usages| :: Measured(d, d.usages[k])
  }

  predicate AllFaithful(ds: List<Decl>, s: Status) {
    match ds
    case Nil => true
    case Cons(d, rest) => Faithful(d, s) && AllFaithful(rest, s)
  }

  lemma ReadWord(d: Decl, i: nat, b: seq<Byte>)
    requires d.count == 1 && d.size == 16 && d.offset == 8 * i && i + 1 < |b|
    ensures ReadField(d, 0, b) == LeAt16(b, i)
  {
    Word(b, i);
  }

  lemma ReadByte(d: Decl, i: nat, k: nat, b: seq<Byte>)
    requires k < d.count && d.size == 8 && d.offset == 8 * i && i + d.count <= |b|
    ensures d.count * d.size == 8 * d.count && ReadField(d, k, b) == b[i + k]
  {
    var n := i + k;
    WholeByte(b, n);
    assert d.offset + k * d.size == 8 * n;
  }

  lemma ReadBit(d: Decl, k: nat, b: seq<Byte>)
    requires k < d.count && d.size == 1 && d.offset + d.count <= 8 * |b|
    ensures d.count * d.size == d.count && ReadField(d, k, b) == BitAt(b, d.offset + k)
  {
    assert k * d.size == k;
    OneBit(b, d.offset + k);
  }

  /** A declaration of one 16-bit field at byte `i`. */
  lemma WordField(d: Decl, i: nat, s: Status)
    requires Fits(d, s) && d.count == 1 && d.size == 16 && d.offset == 8 * i && |d.usages| == 1 && d.stringIndex == 0
    requires Measured(d, d.usages[0])
    requires Meaning(s, d.path[|d.path| - 1], d.usages[0]) == Some(LeAt16(FullReport(s, d.report), i))
    ensures Faithful(d, s)
  {
    WordReads(d, i, s);
    SingleUsage(d);
    OneField(d, s);
  }

  lemma WordReads(d: Decl, i: nat, s: Status)
    requires Fits(d, s) && d.count == 1 && d.size == 16 && d.offset == 8 * i
    ensures i + 1 < |FullReport(s, d.report)| && Read(d, 0, s) == LeAt16(FullReport(s, d.report), i)
  {
    ReadWord(d, i, FullReport(s, d.report));
  }

  lemma SingleUsage(d: Decl)
    requires |d.usages| == 1
    ensures UsageOf(d, 0) == Some(d.usages[0])
  {
  }

  lemma OneField(d: Decl, s: Status)
    requires Fits(d, s) && d.count == 1 && FieldFaithful(d, 0, s) && |d.usages| == 1 && Measured(d, d.usages[0])
    ensures Faithful(d, s)
  {
  }

  /** A declaration of byte fields from byte `i` on. */
  lemma ByteFields(d: Decl, i: nat, s: Status)
    requires Fits(d, s) && d.count == |d.usages| && d.size == 8 && d.offset == 8 * i && AllMeasured(d)
    requires i + d.count <= |FullReport(s, d.report)|
    requires forall k | 0 <= k < d.count ::
      Meaning(s, d.path[|d.path| - 1], d.usages[k]) == Some(FullReport(s, d.report)[i + k] as int)
      && (d.stringIndex != 0 ==> FullReport(s, d.report)[i + k] == d.stringIndex)
    ensures Faithful(d, s)
  {
    forall k | 0 <= k < d.count ensures FieldFaithful(d, k, s) {
      assert Read(d, k, s) == FullReport(s, d.report)[i + k] by { ReadByte(d, i, k, FullReport(s, d.report)); }
      assert UsageOf(d, k) == Some(d.usages[k]);
    }
  }

  /** A declaration of single bits with the given values. */
  lemma BitFields(d: Decl, bits: seq<nat>, s: Status)
    requires Fits(d, s) && d.size == 1 && d.stringIndex == 0 && |bits| == d.count && AllMeasured(d)
    requires d.offset + d.count <= 8 * |FullReport(s, d.report)|
    requires forall k | 0 <= k < d.count :: BitAt(FullReport(s, d.report), d.offset + k) == bits[k]
    requires forall k | 0 <= k < d.count :: BitMeans(d, k, bits[k], s)
    ensures Faithful(d, s)
  {
    forall k | 0 <= k < d.count ensures FieldFaithful(d, k, s) {
      assert BitMeans(d, k, bits[k], s);
      assert Read(d, k, s) == bits[k] by { ReadBit(d, k, FullReport(s, d.report)); }
    }
  }

  predicate BitMeans(d: Decl, k: nat, v: nat, s: Status)
    requires d.path != []
  {
    match UsageOf(d, k)
    case None => v == 0
    case Some(u) => Meaning(s, d.path[|d.path| - 1], u) == Some(v)
  }

  /** The low and the high byte of the status word, bit by bit. */
  function LowBits(s: Status): seq<nat> {
    [1, 0, Bit(s.power.overload, 1), 0, Bit(s.power.lowRuntime, 1),
     Bit(LowCharge(s), 1), Bit(LowRuntime(s), 1), Bit(s.power.charging, 1)]
  }

  function HighBits(s: Status): seq<nat> {
    [Bit(s.power.discharging, 1), 0, Bit(s.power.acPresent, 1), 1, 0, 0, 0, 0]
  }

  /** The status word is the number with these bits. */
  lemma StatusSum(s: Status)
    ensures StatusBits(s) == Sum(LowBits(s)) + 256 * Sum(HighBits(s)) && Sum(LowBits(s)) < 256
  {
    var p := s.power;
    SumOfEight(LowBits(s));
    SumOfEight(HighBits(s));
    WeightOfBit(p.overload, 0x4);
    WeightOfBit(p.lowRuntime, 0x10);
    WeightOfBit(LowCharge(s), 0x20);
    WeightOfBit(LowRuntime(s), 0x40);
    WeightOfBit(p.charging, 0x80);
    WeightOfBit(p.discharging, 0x100);
    WeightOfBit(p.acPresent, 0x400);
  }

  lemma WeightOfBit(on: bool, w: nat)
    ensures Bit(on, w) == w * Bit(on, 1) && Bit(on, 1) < 2
  {
  }

  lemma StatusWord(s: Status)
    ensures StatusBits(s) % 0x100 == Sum(LowBits(s)) && StatusBits(s) / 0x100 == Sum(HighBits(s))
  {
    StatusSum(s);
    LowAndHigh(Sum(LowBits(s)), Sum(HighBits(s)));
  }

  lemma LowAndHigh(low: nat, high: nat)
    requires low < 256
    ensures (low + 256 * high) % 256 == low && (low + 256 * high) / 256 == high
  {
  }

  /** Where the status bits stand in report 2. */
  lemma StatusBitsAt(s: Status)
    ensures forall k | 0 <= k < 16 :: BitAt(FullReport(s, 2), 168 + k) == (LowBits(s) + HighBits(s))[k]
  {
    StatusWord(s);
    StatusBytes(s);
    AreBits(s);
    TwoBytesAt(FullReport(s, 2), 21, LowBits(s), HighBits(s));
  }

  lemma StatusBytes(s: Status)
    ensures FullReport(s, 2)[21] == StatusBits(s) % 0x100 && FullReport(s, 2)[22] == StatusBits(s) / 0x100
  {
  }

  lemma AreBits(s: Status)
    ensures forall m | 0 <= m < 8 :: LowBits(s)[m] < 2 && HighBits(s)[m] < 2
  {
  }

  lemma TwoBytesAt(b: seq<Byte>, i: nat, low: seq<nat>, high: seq<nat>)
    requires i + 1 < |b| && |low| == |high| == 8
    requires forall m | 0 <= m < 8 :: low[m] < 2 && high[m] < 2
    requires b[i] == Sum(low) && b[i + 1] == Sum(high)
    ensures forall k | 0 <= k < 16 :: BitAt(b, 8 * i + k) == (low + high)[k]
  {
    forall k | 0 <= k < 16 ensures BitAt(b, 8 * i + k) == (low + high)[k] {
      BitOfTwo(b, i, low, high, k);
    }
  }

  lemma StatusMeanings(s: Status)
    ensures forall k | 0 <= k < 12 :: BitMeans(DECLS_18.head, k, (LowBits(s) + HighBits(s))[k], s)
  {
  }

  lemma Faithful2(s: Status)
    ensures AllFaithful(DECLS_2, s)
  {
    NoFlow(DECLS_2.head, s);
    ByteFields(DECLS_2.tail.head, 2, s);
  }

  /** The first declaration of report 1, two half bytes of a zero byte. */
  lemma NoFlow(d: Decl, s: Status)
    requires d == DECLS_2.head
    ensures Faithful(d, s)
  {
    var b := FullReport(s, d.report);
    assert b[1] == 0;
    ZeroHalves(d, b);
    assert UsageOf(d, 0) == Some(d.usages[0]) && UsageOf(d, 1) == Some(d.usages[1]);
    assert FieldFaithful(d, 0, s) && FieldFaithful(d, 1, s);
  }

  lemma ZeroHalves(d: Decl, b: seq<Byte>)
    requires d.offset == 8 && d.size == 4 && d.count == 2 && |b| > 1 && b[1] == 0
    ensures ReadField(d, 0, b) == 0 && ReadField(d, 1, b) == 0
  {
    ZeroField(b, 1, 0, d.size);
    ZeroField(b, 1, d.size, d.size);
  }

  lemma Faithful3(s: Status)
    ensures AllFaithful(DECLS_3, s)
  {
    ByteFields(DECLS_3.head, 3, s);
    ByteFields(DECLS_3.tail.head, 4, s);
  }

  lemma Faithful4(s: Status)
    ensures AllFaithful(DECLS_4, s)
  {
    ByteFields(DECLS_4.head, 5, s);
    ByteFields(DECLS_4.tail.head, 6, s);
    ByteFields(DECLS_4.tail.tail.head, 7, s);
    assert AllFaithful(DECLS_4.tail.tail, s);
  }

  lemma Faithful6(s: Status)
    ensures AllFaithful(DECLS_6, s)
  {
    WordField(DECLS_6.head, 1, s);
    WordField(DECLS_6.tail.head, 3, s);
  }

  lemma Faithful8(s: Status)
    ensures AllFaithful(DECLS_8, s)
  {
    ByteFields(DECLS_8.head, 5, s);
  }

  lemma Faithful9(s: Status)
    ensures AllFaithful(DECLS_9, s)
  {
    WordField(DECLS_9.head, 9, s);
  }

  lemma Faithful10(s: Status)
    ensures AllFaithful(DECLS_10, s)
  {
    WordField(DECLS_10.head, 11, s);
  }

  lemma Faithful12(s: Status)
    ensures AllFaithful(DECLS_12, s)
  {
    WordField(DECLS_12.head, 13, s);
  }

  lemma Faithful13(s: Status)
    ensures AllFaithful(DECLS_13, s)
  {
    WordField(DECLS_13.head, 15, s);
  }

  lemma Faithful14(s: Status)
    ensures AllFaithful(DECLS_14, s)
  {
    WordField(DECLS_14.head, 17, s);
  }

  lemma Faithful15(s: Status)
    ensures AllFaithful(DECLS_15, s)
  {
    WordField(DECLS_15.head, 19, s);
  }

  /** Flags have no unit. */
  lemma FlagsUnmeasured()
    ensures AllMeasured(DECLS_18.head)
  {
  }

  lemma Faithful18(s: Status)
    ensures AllFaithful(DECLS_18, s)
  {
    StatusBitsAt(s);
    StatusMeanings(s);
    FlagsUnmeasured();
    BitFields(DECLS_18.head, (LowBits(s) + HighBits(s))[..12], s);
  }

  lemma Faithful19(s: Status)
    ensures AllFaithful(DECLS_19, s)
  {
    StatusBitsAt(s);
    var d := DECLS_19.head;
    var bits := (LowBits(s) + HighBits(s))[12..];
    assert bits == [0, 0, 0, 0];
    BitFields(d, bits, s);
  }

  lemma Faithful21(s: Status)
    ensures AllFaithful(DECLS_21, s)
  {
    ByteFields(DECLS_21.head, 1, s);
  }

  /** Every field of a declaration reads a value within its declared logical limits. */
  predicate InRange(d: Decl, s: Status) {
    Fits(d, s) && forall k | 0 <= k < d.count :: d.min <= Read(d, k, s) <= d.max
  }

  predicate AllInRange(ds: List<Decl>, s: Status) {
    match ds
    case Nil => true
    case Cons(d, rest) => InRange(d, s) && AllInRange(rest, s)
  }

  /** The readings the descriptor's limits leave room for, among the fields from part `k` on. */
  predicate WithinLimits(k: nat, s: Status) {
    && (k <= 6 ==> s.batteryVoltage <= 0x7FFF && s.batteryCurrent <= 0x7FFF)
    && (k <= 9 ==> s.runtime <= 0xFFFE)
    && (k <= 12 ==> s.outputVoltage <= 0xFFFE)
    && (k <= 13 ==> s.outputCurrent <= 0xFFFE)
    && (k <= 14 ==> s.inputVoltage <= 0xFFFE)
    && (k <= 15 ==> s.inputCurrent <= 0xFFFE)
  }

  /** The value a usage stands for lies within the limits of its declaration. */
  predicate MeaningInRange(d: Decl, k: nat, s: Status)
    requires d.path != []
  {
    match UsageOf(d, k)
    case None => d.min <= 0 <= d.max
    case Some(u) => (match Meaning(s, d.path[|d.path| - 1], u) case None => false case Some(v) => d.min <= v <= d.max)
  }

  lemma RangeByMeaning(d: Decl, s: Status)
    requires Faithful(d, s)
    ensures InRange(d, s) <==> forall k | 0 <= k < d.count :: MeaningInRange(d, k, s)
  {
    forall k | 0 <= k < d.count ensures MeaningInRange(d, k, s) <==> d.min <= Read(d, k, s) <= d.max {
      assert FieldFaithful(d, k, s);
    }
  }

  lemma {:induction false} RangeAppend(a: List<Decl>, b: List<Decl>, s: Status)
    ensures AllInRange(Append(a, b), s) <==> AllInRange(a, s) && AllInRange(b, s)
  {
    match a
    case Nil =>
    case Cons(_, rest) => RangeAppend(rest, b, s);
  }

  lemma Range2(s: Status)
    requires AllFaithful(DECLS_2, s)
    ensures AllInRange(DECLS_2, s)
  {
    RangeByMeaning(DECLS_2.head, s);
    RangeByMeaning(DECLS_2.tail.head, s);
  }

  lemma Range3(s: Status)
    requires AllFaithful(DECLS_3, s)
    ensures AllInRange(DECLS_3, s)
  {
    RangeByMeaning(DECLS_3.head, s);
    RangeByMeaning(DECLS_3.tail.head, s);
  }

  lemma Range4(s: Status)
    requires AllFaithful(DECLS_4, s)
    ensures AllInRange(DECLS_4, s)
  {
    RangeByMeaning(DECLS_4.head, s);
    RangeByMeaning(DECLS_4.tail.head, s);
    assert AllFaithful(DECLS_4.tail.tail, s);
    RangeByMeaning(DECLS_4.tail.tail.head, s);
    assert AllInRange(DECLS_4.tail.tail, s);
  }

  lemma Range6(s: Status)
    requires AllFaithful(DECLS_6, s)
    ensures AllInRange(DECLS_6, s) <==> s.batteryVoltage <= 0x7FFF && s.batteryCurrent <= 0x7FFF
  {
    var d, e := DECLS_6.head, DECLS_6.tail.head;
    RangeByMeaning(d, s);
    RangeByMeaning(e, s);
    assert MeaningInRange(d, 0, s) <==> s.batteryVoltage <= 0x7FFF;
    assert MeaningInRange(e, 0, s) <==> s.batteryCurrent <= 0x7FFF;
    assert AllInRange(DECLS_6.tail, s) <==> InRange(e, s);
    assert InRange(d, s) <==> MeaningInRange(d, 0, s);
    assert InRange(e, s) <==> MeaningInRange(e, 0, s);
  }

  lemma Range8(s: Status)
    requires AllFaithful(DECLS_8, s)
    ensures AllInRange(DECLS_8, s)
  {
    RangeByMeaning(DECLS_8.head, s);
  }

  lemma Range9(s: Status)
    requires AllFaithful(DECLS_9, s)
    ensures AllInRange(DECLS_9, s) <==> s.runtime <= 0xFFFE
  {
    RangeByMeaning(DECLS_9.head, s);
    assert MeaningInRange(DECLS_9.head, 0, s) <==> s.runtime <= 0xFFFE;
  }

  lemma Range10(s: Status)
    requires AllFaithful(DECLS_10, s)
    ensures AllInRange(DECLS_10, s)
  {
    var d := DECLS_10.head;
    RangeByMeaning(d, s);
    TemperatureInRange(d, s);
  }

  lemma TemperatureInRange(d: Decl, s: Status)
    requires d.path != [] && d.usages == [Usage(0x84, 0x36)] && d.min == 0 && d.max == 65534
    ensures MeaningInRange(d, 0, s)
  {
    RawInRange(s.batteryTemperature);
    assert UsageOf(d, 0) == Some(d.usages[0]);
  }

  lemma Range12(s: Status)
    requires AllFaithful(DECLS_12, s)
    ensures AllInRange(DECLS_12, s) <==> s.outputVoltage <= 0xFFFE
  {
    RangeByMeaning(DECLS_12.head, s);
    assert MeaningInRange(DECLS_12.head, 0, s) <==> s.outputVoltage <= 0xFFFE;
  }

  lemma Range13(s: Status)
    requires AllFaithful(DECLS_13, s)
    ensures AllInRange(DECLS_13, s) <==> s.outputCurrent <= 0xFFFE
  {
    RangeByMeaning(DECLS_13.head, s);
    assert MeaningInRange(DECLS_13.head, 0, s) <==> s.outputCurrent <= 0xFFFE;
  }

  lemma Range14(s: Status)
    requires AllFaithful(DECLS_14, s)
    ensures AllInRange(DECLS_14, s) <==> s.inputVoltage <= 0xFFFE
  {
    RangeByMeaning(DECLS_14.head, s);
    assert MeaningInRange(DECLS_14.head, 0, s) <==> s.inputVoltage <= 0xFFFE;
  }

  lemma Range15(s: Status)
    requires AllFaithful(DECLS_15, s)
    ensures AllInRange(DECLS_15, s) <==> s.inputCurrent <= 0xFFFE
  {
    RangeByMeaning(DECLS_15.head, s);
    assert MeaningInRange(DECLS_15.head, 0, s) <==> s.inputCurrent <= 0xFFFE;
  }

  lemma Range18(s: Status)
    requires AllFaithful(DECLS_18, s)
    ensures AllInRange(DECLS_18, s)
  {
    RangeByMeaning(DECLS_18.head, s);
  }

  lemma Range19(s: Status)
    requires AllFaithful(DECLS_19, s)
    ensures AllInRange(DECLS_19, s)
  {
    RangeByMeaning(DECLS_19.head, s);
  }

  lemma Range21(s: Status)
    requires AllFaithful(DECLS_21, s)
    ensures AllInRange(DECLS_21, s)
  {
    RangeByMeaning(DECLS_21.head, s);
  }

  predicate In(d: Decl, ds: List<Decl>) {
    match ds
    case Nil => false
    case Cons(e, rest) => d == e || In(d, rest)
  }

  lemma {:induction false} InAppend(d: Decl, a: List<Decl>, b: List<Decl>)
    ensures In(d, Append(a, b)) <==> In(d, a) || In(d, b)
  {
    match a
    case Nil =>
    case Cons(_, rest) => InAppend(d, rest, b);
  }

  /** The part of the descriptor that declares a reading's field of report 2. The load, the frequency and the
      runtime limit are not reported. */
  function PartOf(f: Field): nat {
    match f
    case BatteryVoltage | BatteryCurrent => 6
    case BatteryCapacity | BatteryCharge | BatteryChargeLow | BatteryChargeWarning => 8
    case BatteryRuntime => 9
    case BatteryTemperature => 10
    case OutputVoltage => 12
    case OutputCurrent => 13
    case InputVoltage => 14
    case InputCurrent => 15
    case UpsLoad | InputFrequency | BatteryRuntimeLow => 22
  }

  predicate Reported(f: Field) {
    PartOf(f) < 22
  }

  function DeclOf(f: Field): Decl
    requires Reported(f)
  {
    match f
    case BatteryVoltage => DECLS_6.head
    case BatteryCurrent => DECLS_6.tail.head
    case BatteryRuntime => DECLS_9.head
    case BatteryTemperature => DECLS_10.head
    case OutputVoltage => DECLS_12.head
    case OutputCurrent => DECLS_13.head
    case InputVoltage => DECLS_14.head
    case InputCurrent => DECLS_15.head
    case _ => DECLS_8.head
  }

  /** The readings of the parts from `k` to `end` are declared in `ds`. */
  ghost predicate Declares(ds: List<Decl>, k: nat, end: nat) {
    forall x {:trigger Seen(x)} | Seen(x) :: forall f: Field | k <= PartOf(f) < end && end <= 22 :: In(DeclOf(f), ds)
  }

  lemma DeclaresNothing(ds: List<Decl>, k: nat)
    requires k !in {6, 8, 9, 10, 12, 13, 14, 15}
    ensures Declares(ds, k, k + 1)
  {
  }

  lemma Declares6() ensures Declares(DECLS_6, 6, 7) {}
  lemma Declares8() ensures Declares(DECLS_8, 8, 9) {}
  lemma Declares9() ensures Declares(DECLS_9, 9, 10) {}
  lemma Declares10() ensures Declares(DECLS_10, 10, 11) {}
  lemma Declares12() ensures Declares(DECLS_12, 12, 13) {}
  lemma Declares13() ensures Declares(DECLS_13, 13, 14) {}
  lemma Declares14() ensures Declares(DECLS_14, 14, 15) {}
  lemma Declares15() ensures Declares(DECLS_15, 15, 16) {}

  lemma DeclaresMore(a: List<Decl>, b: List<Decl>, k: nat)
    requires k < 22 && Declares(a, k, k + 1) && Declares(b, k + 1, 22)
    ensures Declares(Append(a, b), k, 22)
  {
    assert Seen(0);
    forall f: Field | k <= PartOf(f) < 22 ensures In(DeclOf(f), Append(a, b)) {
      InAppend(DeclOf(f), a, b);
    }
  }

  /** Items from part `k` on: they print to `bytes`, leave the scanner in the state `END`, declare only
      fields that read back the status, and keep their limits exactly when the readings allow it. */
  ghost predicate Means(items: List<Item>, bytes: seq<Byte>, before: Scan, k: nat, s: Status) {
    && AllShort(items) && Print(items) == bytes
    && ScanAll(items, before) == END
    && AllFaithful(Decls(items, before), s)
    && (AllInRange(Decls(items, before), s) <==> WithinLimits(k, s))
    && Declares(Decls(items, before), k, 22)
  }

  lemma {:induction false} FaithfulAppend(a: List<Decl>, b: List<Decl>, s: Status)
    requires AllFaithful(a, s) && AllFaithful(b, s)
    ensures AllFaithful(Append(a, b), s)
  {
    match a
    case Nil =>
    case Cons(_, rest) => FaithfulAppend(rest, b, s);
  }

  lemma Prepend(items: List<Item>, bytes: seq<Byte>, before: Scan, after: Scan, decls: List<Decl>,
                rest: List<Item>, restBytes: seq<Byte>, k: nat, s: Status)
    requires PrintedAt(items, bytes, 0) && ScanAll(items, before) == after && Decls(items, before) == decls
    requires AllFaithful(decls, s) && Means(rest, restBytes, after, k + 1, s)
    requires AllInRange(decls, s) && WithinLimits(k + 1, s) <==> WithinLimits(k, s)
    requires k < 22 && Declares(decls, k, k + 1)
    ensures Means(Append(items, rest), bytes + restBytes, before, k, s)
  {
    PrintedAtPrints(items, bytes, 0);
    assert bytes[0..] == bytes;
    PrintAppend(items, rest);
    ScanAppend(items, rest, before);
    FaithfulAppend(decls, Decls(rest, after), s);
    RangeAppend(decls, Decls(rest, after), s);
    DeclaresMore(decls, Decls(rest, after), k);
  }

  lemma From21(s: Status) returns (items: List<Item>)
    ensures Means(items, REST_21, SCAN_21, 21, s)
  {
    Bytes21();
    Scan21();
    Faithful21(s);
    Range21(s);
    var none: List<Item> := Nil;
    DeclaresNothing(DECLS_21, 21);
    Prepend(ITEMS_21, BYTES_21, SCAN_21, END, DECLS_21, none, [], 21, s);
    assert BYTES_21 + [] == REST_21;
    items := Append(ITEMS_21, none);
  }

  lemma From20(s: Status) returns (items: List<Item>)
    ensures Means(items, REST_20, SCAN_20, 20, s)
  {
    Bytes20();
    Scan20();
    var rest := From21(s);
    DeclaresNothing(DECLS_20, 20);
    Prepend(ITEMS_20, BYTES_20, SCAN_20, SCAN_21, DECLS_20, rest, REST_21, 20, s);
    items := Append(ITEMS_20, rest);
  }

  lemma From19(s: Status) returns (items: List<Item>)
    ensures Means(items, REST_19, SCAN_19, 19, s)
  {
    Bytes19();
    Scan19();
    Faithful19(s);
    Range19(s);
    var rest := From20(s);
    DeclaresNothing(DECLS_19, 19);
    Prepend(ITEMS_19, BYTES_19, SCAN_19, SCAN_20, DECLS_19, rest, REST_20, 19, s);
    items := Append(ITEMS_19, rest);
  }

  lemma From18(s: Status) returns (items: List<Item>)
    ensures Means(items, REST_18, SCAN_18, 18, s)
  {
    Bytes18();
    Scan18();
    Faithful18(s);
    Range18(s);
    var rest := From19(s);
    DeclaresNothing(DECLS_18, 18);
    Prepend(ITEMS_18, BYTES_18, SCAN_18, SCAN_19, DECLS_18, rest, REST_19, 18, s);
    items := Append(ITEMS_18, rest);
  }

  lemma From17(s: Status) returns (items: List<Item>)
    ensures Means(items, REST_17, SCAN_17, 17, s)
  {
    Bytes17();
    Scan17();
    var rest := From18(s);
    DeclaresNothing(DECLS_17, 17);
    Prepend(ITEMS_17, BYTES_17, SCAN_17, SCAN_18, DECLS_17, rest, REST_18, 17, s);
    items := Append(ITEMS_17, rest);
  }

  lemma From16(s: Status) returns (items: List<Item>)
    ensures Means(items, REST_16, SCAN_16, 16, s)
  {
    Bytes16();
    Scan16();
    var rest := From17(s);
    DeclaresNothing(DECLS_16, 16);
    Prepend(ITEMS_16, BYTES_16, SCAN_16, SCAN_17, DECLS_16, rest, REST_17, 16, s);
    items := Append(ITEMS_16, rest);
  }

  lemma From15(s: Status) returns (items: List<Item>)
    ensures Means(items, REST_15, SCAN_15, 15, s)
  {
    Bytes15();
    Scan15();
    Faithful15(s);
    Range15(s);
    var rest := From16(s);
    Declares15();
    Prepend(ITEMS_15, BYTES_15, SCAN_15, SCAN_16, DECLS_15, rest, REST_16, 15, s);
    items := Append(ITEMS_15, rest);
  }

  lemma From14(s: Status) returns (items: List<Item>)
    ensures Means(items, REST_14, SCAN_14, 14, s)
  {
    Bytes14();
    Scan14();
    Faithful14(s);
    Range14(s);
    var rest := From15(s);
    Declares14();
    Prepend(ITEMS_14, BYTES_14, SCAN_14, SCAN_15, DECLS_14, rest, REST_15, 14, s);
    items := Append(ITEMS_14, rest);
  }

  lemma From13(s: Status) returns (items: List<Item>)
    ensures Means(items, REST_13, SCAN_13, 13, s)
  {
    Bytes13();
    Scan13();
    Faithful13(s);
    Range13(s);
    var rest := From14(s);
    Declares13();
    Prepend(ITEMS_13, BYTES_13, SCAN_13, SCAN_14, DECLS_13, rest, REST_14, 13, s);
    items := Append(ITEMS_13, rest);
  }

  lemma From12(s: Status) returns (items: List<Item>)
    ensures Means(items, REST_12, SCAN_12, 12, s)
  {
    Bytes12();
    Scan12();
    Faithful12(s);
    Range12(s);
    var rest := From13(s);
    Declares12();
    Prepend(ITEMS_12, BYTES_12, SCAN_12, SCAN_13, DECLS_12, rest, REST_13, 12, s);
    items := Append(ITEMS_12, rest);
  }

  lemma From11(s: Status) returns (items: List<Item>)
    ensures Means(items, REST_11, SCAN_11, 11, s)
  {
    Bytes11();
    Scan11();
    var rest := From12(s);
    DeclaresNothing(DECLS_11, 11);
    Prepend(ITEMS_11, BYTES_11, SCAN_11, SCAN_12, DECLS_11, rest, REST_12, 11, s);
    items := Append(ITEMS_11, rest);
  }

  lemma From10(s: Status) returns (items: List<Item>)
    ensures Means(items, REST_10, SCAN_10, 10, s)
  {
    Bytes10();
    Scan10();
    Faithful10(s);
    Range10(s);
    var rest := From11(s);
    Declares10();
    Prepend(ITEMS_10, BYTES_10, SCAN_10, SCAN_11, DECLS_10, rest, REST_11, 10, s);
    items := Append(ITEMS_10, rest);
  }

  lemma From9(s: Status) returns (items: List<Item>)
    ensures Means(items, REST_9, SCAN_9, 9, s)
  {
    Bytes9();
    Scan9();
    Faithful9(s);
    Range9(s);
    var rest := From10(s);
    Declares9();
    Prepend(ITEMS_9, BYTES_9, SCAN_9, SCAN_10, DECLS_9, rest, REST_10, 9, s);
    items := Append(ITEMS_9, rest);
  }

  lemma From8(s: Status) returns (items: List<Item>)
    ensures Means(items, REST_8, SCAN_8, 8, s)
  {
    Bytes8();
    Scan8();
    Faithful8(s);
    Range8(s);
    var rest := From9(s);
    Declares8();
    Prepend(ITEMS_8, BYTES_8, SCAN_8, SCAN_9, DECLS_8, rest, REST_9, 8, s);
    items := Append(ITEMS_8, rest);
  }

  lemma From7(s: Status) returns (items: List<Item>)
    ensures Means(items, REST_7, SCAN_7, 7, s)
  {
    Bytes7();
    Scan7();
    var rest := From8(s);
    DeclaresNothing(DECLS_7, 7);
    Prepend(ITEMS_7, BYTES_7, SCAN_7, SCAN_8, DECLS_7, rest, REST_8, 7, s);
    items := Append(ITEMS_7, rest);
  }

  lemma From6(s: Status) returns (items: List<Item>)
    ensures Means(items, REST_6, SCAN_6, 6, s)
  {
    Bytes6();
    Scan6();
    Faithful6(s);
    Range6(s);
    var rest := From7(s);
    Declares6();
    Prepend(ITEMS_6, BYTES_6, SCAN_6, SCAN_7, DECLS_6, rest, REST_7, 6, s);
    items := Append(ITEMS_6, rest);
  }

  lemma From5(s: Status) returns (items: List<Item>)
    ensures Means(items, REST_5, SCAN_5, 5, s)
  {
    Bytes5();
    Scan5();
    var rest := From6(s);
    DeclaresNothing(DECLS_5, 5);
    Prepend(ITEMS_5, BYTES_5, SCAN_5, SCAN_6, DECLS_5, rest, REST_6, 5, s);
    items := Append(ITEMS_5, rest);
  }

  lemma From4(s: Status) returns (items: List<Item>)
    ensures Means(items, REST_4, SCAN_4, 4, s)
  {
    Bytes4();
    Scan4();
    Faithful4(s);
    Range4(s);
    var rest := From5(s);
    DeclaresNothing(DECLS_4, 4);
    Prepend(ITEMS_4, BYTES_4, SCAN_4, SCAN_5, DECLS_4, rest, REST_5, 4, s);
    items := Append(ITEMS_4, rest);
  }

  lemma From3(s: Status) returns (items: List<Item>)
    ensures Means(items, REST_3, SCAN_3, 3, s)
  {
    Bytes3();
    Scan3();
    Faithful3(s);
    Range3(s);
    var rest := From4(s);
    DeclaresNothing(DECLS_3, 3);
    Prepend(ITEMS_3, BYTES_3, SCAN_3, SCAN_4, DECLS_3, rest, REST_4, 3, s);
    items := Append(ITEMS_3, rest);
  }

  lemma From2(s: Status) returns (items: List<Item>)
    ensures Means(items, REST_2, SCAN_2, 2, s)
  {
    Bytes2();
    Scan2();
    Faithful2(s);
    Range2(s);
    var rest := From3(s);
    DeclaresNothing(DECLS_2, 2);
    Prepend(ITEMS_2, BYTES_2, SCAN_2, SCAN_3, DECLS_2, rest, REST_3, 2, s);
    items := Append(ITEMS_2, rest);
  }

  lemma From1(s: Status) returns (items: List<Item>)
    ensures Means(items, REST_1, SCAN_1, 1, s)
  {
    Bytes1();
    Scan1();
    var rest := From2(s);
    DeclaresNothing(DECLS_1, 1);
    Prepend(ITEMS_1, BYTES_1, SCAN_1, SCAN_2, DECLS_1, rest, REST_2, 1, s);
    items := Append(ITEMS_1, rest);
  }

  lemma From0(s: Status) returns (items: List<Item>)
    ensures Means(items, REST_0, SCAN_0, 0, s)
  {
    Bytes0();
    Scan0();
    var rest := From1(s);
    DeclaresNothing(DECLS_0, 0);
    Prepend(ITEMS_0, BYTES_0, SCAN_0, SCAN_1, DECLS_0, rest, REST_1, 0, s);
    items := Append(ITEMS_0, rest);
  }

  /** The descriptor gives the reports their meaning. For every status, its bytes parse as HID items;
      every field the items declare reads back, from the report `get_report` builds, exactly what its
      usage stands for, with padding zero; and the declared fields fill the three reports completely. */
  lemma ReportsMeanTheStatus(s: Status)
    ensures Parse(DESCRIPTOR).Some?
    ensures AllFaithful(Decls(Parse(DESCRIPTOR).value, Begin), s)
    ensures var end := ScanAll(Parse(DESCRIPTOR).value, Begin);
      end.path == [] && end.taken.Keys == {1, 2, 3} &&
      forall id | id in end.taken :: end.taken[id] == 8 * |FullReport(s, id)|
  {
    var items := From0(s);
    ItemsBijective(items, DESCRIPTOR);
  }

  /** The descriptor declares a field for every reading that is reported. */
  lemma ReadingsAreDeclared(s: Status)
    ensures Parse(DESCRIPTOR).Some? && Declares(Decls(Parse(DESCRIPTOR).value, Begin), 0, 22)
  {
    var items := From0(s);
    ItemsBijective(items, DESCRIPTOR);
  }

  /** Percentages and flags always stay within the limits the descriptor declares. The 16-bit readings
      do not: every field of every report is within its limits exactly when no battery reading has its
      top bit set and neither the runtime nor an input or output reading is 65535. */
  lemma LimitsKeptExactlyWhen(s: Status)
    ensures Parse(DESCRIPTOR).Some?
    ensures AllInRange(Decls(Parse(DESCRIPTOR).value, Begin), s) <==>
      && s.batteryVoltage <= 0x7FFF && s.batteryCurrent <= 0x7FFF && s.runtime <= 0xFFFE
      && s.outputVoltage <= 0xFFFE && s.outputCurrent <= 0xFFFE
      && s.inputVoltage <= 0xFFFE && s.inputCurrent <= 0xFFFE
  {
    var items := From0(s);
    ItemsBijective(items, DESCRIPTOR);
  }

  /** They are left, for one, by a NUT server that reports a battery at 327.68 volts. */
  lemma LimitsAreLeft(s: Status)
    ensures Parse(DESCRIPTOR).Some?
    ensures !AllInRange(Decls(Parse(DESCRIPTOR).value, Begin), Put(s, BatteryVoltage, Finite(327.68)))
  {
    HundredTimes();
    LimitsKeptExactlyWhen(Put(s, BatteryVoltage, Finite(327.68)));
  }

  lemma HundredTimes()
    ensures ClampU16(Scale(Finite(327.68), Factor(BatteryVoltage))) == 0x8000
  {
    assert 327.68 * 100.0 == 32768.0;
  }
}
