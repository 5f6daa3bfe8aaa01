/** What a host that knows the usage tables and the report descriptor makes of report 2. */
module HidReadings {
  import opened Bytes
  import opened Numbers
  import opened UpsStatus
  import opened Reports
  import opened HidItems
  import opened HidLayout
  import opened HidDescriptor
  import opened HidMeaning

  /** Every field the descriptor declares. */
  function Declared(): List<Decl> {
    match Parse(DESCRIPTOR)
    case None => Nil
    case Some(items) => Decls(items, Begin)
  }

  /** The collection and the usage under which a host looks for a reading. */
  function PlaceFor(f: Field): Usage {
    match f
    case OutputVoltage | OutputCurrent => OUTPUT
    case InputVoltage | InputCurrent => INPUT
    case _ => SUMMARY[1]
  }

  function UsageFor(f: Field): Usage
    requires Reported(f)
  {
    match f
    case InputVoltage | OutputVoltage | BatteryVoltage => Usage(0x84, 0x30)
    case InputCurrent | OutputCurrent | BatteryCurrent => Usage(0x84, 0x31)
    case BatteryTemperature => Usage(0x84, 0x36)
    case BatteryCapacity => Usage(0x85, 0x83)
    case BatteryCharge => Usage(0x85, 0x66)
    case BatteryChargeLow => Usage(0x85, 0x29)
    case BatteryChargeWarning => Usage(0x85, 0x8C)
    case BatteryRuntime => Usage(0x85, 0x68)
  }

  /** How a stored reading appears in a report. */
  function Shown(f: Field, v: int): int {
    match f
    case BatteryCapacity | BatteryCharge | BatteryChargeLow | BatteryChargeWarning => if v < 100 then v else 100
    case BatteryTemperature => if -32768 <= v < 32768 then TemperatureRaw(v) else 0
    case _ => v
  }

  /** Field `k` of a declaration is where the host finds the reading `u` of a collection. */
  predicate Shows(d: Decl, k: nat, place: Usage, u: Usage) {
    && d.report == 2 && d.path != [] && d.path[|d.path| - 1] == place
    && k < d.count && UsageOf(d, k) == Some(u)
  }

  /** A host that goes by the declarations `ds` finds a reading in report 2, and reads `v` wherever it finds it. */
  ghost predicate HostReads(ds: List<Decl>, data: seq<Byte>, place: Usage, u: Usage, v: int) {
    && IsShown(ds, place, u)
    && forall x {:trigger Seen(x)} | Seen(x) :: forall d, k | In(d, ds) && Shows(d, k, place, u) ::
         d.offset + d.count * d.size <= 8 * |data| && ReadField(d, k, data) == v
  }

  ghost predicate IsShown(ds: List<Decl>, place: Usage, u: Usage) {
    forall x {:trigger Seen(x)} | Seen(x) :: exists d, k :: In(d, ds) && Shows(d, k, place, u)
  }

  /** A number times a power of ten. */
  function Quantity(v: int, e: int): real
    decreases if e < 0 then -e else e
  {
    if e == 0 then v as real else if e > 0 then 10.0 * Quantity(v, e - 1) else Quantity(v, e + 1) / 10.0
  }

  /** The quantity a host computes from a reading: the number times the declared power of ten, in `unit`. */
  ghost predicate HostMeasures(ds: List<Decl>, data: seq<Byte>, place: Usage, u: Usage, unit: nat, x: real) {
    && IsShown(ds, place, u)
    && forall y {:trigger Seen(y)} | Seen(y) :: forall d, k | In(d, ds) && Shows(d, k, place, u) ::
         && d.unit == unit && d.offset + d.count * d.size <= 8 * |data|
         && Quantity(ReadField(d, k, data), d.exponent) == x
  }

  function IndexOf(f: Field): nat {
    match f
    case BatteryCharge => 1
    case BatteryChargeLow => 2
    case BatteryChargeWarning => 3
    case _ => 0
  }

  lemma DeclShows(f: Field)
    requires Reported(f)
    ensures Shows(DeclOf(f), IndexOf(f), PlaceFor(f), UsageFor(f))
  {
  }

  lemma {:induction false} InFaithful(d: Decl, ds: List<Decl>, s: Status)
    requires In(d, ds) && AllFaithful(ds, s)
    ensures Faithful(d, s)
  {
    match ds
    case Cons(e, rest) =>
      if d != e {
        InFaithful(d, rest, s);
      }
  }

  /** What the usage tables say about a reading. */
  lemma MeaningOfReading(s: Status, f: Field)
    requires Reported(f)
    ensures Meaning(s, PlaceFor(f), UsageFor(f)) == Some(Shown(f, Get(s, f)))
  {
  }

  lemma ReadsAs(d: Decl, k: nat, s: Status, f: Field)
    requires Reported(f) && Faithful(d, s) && Shows(d, k, PlaceFor(f), UsageFor(f))
    ensures d.offset + d.count * d.size <= 8 * |FullReport(s, 2)|
    ensures ReadField(d, k, FullReport(s, 2)) == Shown(f, Get(s, f))
    ensures Measured(d, UsageFor(f))
  {
    MeaningOfReading(s, f);
    assert FieldFaithful(d, k, s);
  }

  /** Declarations that fit the reports of a status, and the bytes of its report 2. */
  ghost predicate Describes(ds: List<Decl>, data: seq<Byte>, s: Status) {
    forall x {:trigger Seen(x)} | Seen(x) :: AllFaithful(ds, s) && Declares(ds, 0, 22) && data == FullReport(s, 2)
  }

  lemma IsDeclared(ds: List<Decl>, data: seq<Byte>, s: Status, f: Field)
    requires Reported(f) && Describes(ds, data, s)
    ensures IsShown(ds, PlaceFor(f), UsageFor(f))
  {
    assert Seen(0);
    assert In(DeclOf(f), ds);
    DeclShows(f);
  }

  lemma ReadIn(ds: List<Decl>, data: seq<Byte>, s: Status, f: Field, d: Decl, k: nat)
    requires Reported(f) && Describes(ds, data, s) && In(d, ds) && Shows(d, k, PlaceFor(f), UsageFor(f))
    ensures d.offset + d.count * d.size <= 8 * |data|
    ensures ReadField(d, k, data) == Shown(f, Get(s, f)) && Measured(d, UsageFor(f))
  {
    assert Seen(0);
    InFaithful(d, ds, s);
    ReadsAs(d, k, s, f);
  }

  /** Every reading that is reported at all is found in report 2, with the value the status has for it. */
  lemma FindsReading(ds: List<Decl>, data: seq<Byte>, s: Status, f: Field, place: Usage, u: Usage, v: int)
    requires Reported(f) && Describes(ds, data, s)
    requires place == PlaceFor(f) && u == UsageFor(f) && v == Shown(f, Get(s, f))
    ensures HostReads(ds, data, place, u, v)
  {
    IsDeclared(ds, data, s, f);
    forall d, k | In(d, ds) && Shows(d, k, place, u)
      ensures d.offset + d.count * d.size <= 8 * |data| && ReadField(d, k, data) == v
    {
      ReadIn(ds, data, s, f, d, k);
    }
  }

  /** A measurement is declared in its unit. */
  lemma FindsMeasure(ds: List<Decl>, data: seq<Byte>, s: Status, f: Field, place: Usage, u: Usage, v: int, unit: nat,
                     exponent: int)
    requires Reported(f) && Describes(ds, data, s)
    requires place == PlaceFor(f) && u == UsageFor(f) && v == Shown(f, Get(s, f))
    requires MeasuredIn(place, u) == Unit(unit, exponent)
    ensures HostMeasures(ds, data, place, u, unit, Quantity(v, exponent))
  {
    IsDeclared(ds, data, s, f);
    forall d, k | In(d, ds) && Shows(d, k, place, u)
      ensures && d.offset + d.count * d.size <= 8 * |data| && ReadField(d, k, data) == v
              && d.unit == unit && d.exponent == exponent
    {
      ReadIn(ds, data, s, f, d, k);
    }
  }

  lemma IsDescribed(s: Status)
    ensures Describes(Declared(), FullReport(s, 2), s)
  {
    ReportsMeanTheStatus(s);
    ReadingsAreDeclared(s);
  }

  const VOLTAGE := Usage(0x84, 0x30)
  const CURRENT := Usage(0x84, 0x31)
  const BATTERY := Usage(0x84, 0x24)

  function Percent(v: int): int {
    if v < 100 then v else 100
  }

  /** The readings of a status as a host finds them in report 2. */
  ghost predicate ReadsStatus(ds: List<Decl>, data: seq<Byte>, s: Status) {
    && HostReads(ds, data, INPUT, VOLTAGE, s.inputVoltage)
    && HostReads(ds, data, INPUT, CURRENT, s.inputCurrent)
    && HostReads(ds, data, OUTPUT, VOLTAGE, s.outputVoltage)
    && HostReads(ds, data, OUTPUT, CURRENT, s.outputCurrent)
    && HostReads(ds, data, BATTERY, VOLTAGE, s.batteryVoltage)
    && HostReads(ds, data, BATTERY, CURRENT, s.batteryCurrent)
    && HostReads(ds, data, BATTERY, Usage(0x84, 0x36), TemperatureRaw(s.batteryTemperature))
    && HostReads(ds, data, BATTERY, Usage(0x85, 0x83), Percent(s.batteryCapacity))
    && HostReads(ds, data, BATTERY, Usage(0x85, 0x66), Percent(s.batteryCharge))
    && HostReads(ds, data, BATTERY, Usage(0x85, 0x29), Percent(s.batteryChargeLow))
    && HostReads(ds, data, BATTERY, Usage(0x85, 0x8C), Percent(s.batteryChargeWarning))
    && HostReads(ds, data, BATTERY, Usage(0x85, 0x68), s.runtime)
  }

  /** A host that goes by the usage tables finds every reading of a status in its report 2. */
  lemma ReadingsAreFound(s: Status)
    ensures ReadsStatus(Declared(), FullReport(s, 2), s)
  {
    IsDescribed(s);
    MainsAreFound(Declared(), FullReport(s, 2), s);
    BatteryIsFound(Declared(), FullReport(s, 2), s);
    ChargeIsFound(Declared(), FullReport(s, 2), s);
  }

  lemma MainsAreFound(ds: List<Decl>, data: seq<Byte>, s: Status)
    requires Describes(ds, data, s)
    ensures HostReads(ds, data, INPUT, VOLTAGE, s.inputVoltage) && HostReads(ds, data, INPUT, CURRENT, s.inputCurrent)
    ensures HostReads(ds, data, OUTPUT, VOLTAGE, s.outputVoltage)
    ensures HostReads(ds, data, OUTPUT, CURRENT, s.outputCurrent)
  {
    FindsReading(ds, data, s, InputVoltage, INPUT, VOLTAGE, s.inputVoltage);
    FindsReading(ds, data, s, InputCurrent, INPUT, CURRENT, s.inputCurrent);
    FindsReading(ds, data, s, OutputVoltage, OUTPUT, VOLTAGE, s.outputVoltage);
    FindsReading(ds, data, s, OutputCurrent, OUTPUT, CURRENT, s.outputCurrent);
  }

  lemma BatteryIsFound(ds: List<Decl>, data: seq<Byte>, s: Status)
    requires Describes(ds, data, s)
    ensures HostReads(ds, data, BATTERY, VOLTAGE, s.batteryVoltage)
    ensures HostReads(ds, data, BATTERY, CURRENT, s.batteryCurrent)
    ensures HostReads(ds, data, BATTERY, Usage(0x84, 0x36), TemperatureRaw(s.batteryTemperature))
    ensures HostReads(ds, data, BATTERY, Usage(0x85, 0x68), s.runtime)
  {
    FindsReading(ds, data, s, BatteryVoltage, BATTERY, VOLTAGE, s.batteryVoltage);
    FindsReading(ds, data, s, BatteryCurrent, BATTERY, CURRENT, s.batteryCurrent);
    FindsReading(ds, data, s, BatteryTemperature, BATTERY, Usage(0x84, 0x36), TemperatureRaw(s.batteryTemperature));
    FindsReading(ds, data, s, BatteryRuntime, BATTERY, Usage(0x85, 0x68), s.runtime);
  }

  lemma ChargeIsFound(ds: List<Decl>, data: seq<Byte>, s: Status)
    requires Describes(ds, data, s)
    ensures HostReads(ds, data, BATTERY, Usage(0x85, 0x83), Percent(s.batteryCapacity))
    ensures HostReads(ds, data, BATTERY, Usage(0x85, 0x66), Percent(s.batteryCharge))
    ensures HostReads(ds, data, BATTERY, Usage(0x85, 0x29), Percent(s.batteryChargeLow))
    ensures HostReads(ds, data, BATTERY, Usage(0x85, 0x8C), Percent(s.batteryChargeWarning))
  {
    FindsReading(ds, data, s, BatteryCapacity, BATTERY, Usage(0x85, 0x83), Percent(s.batteryCapacity));
    FindsReading(ds, data, s, BatteryCharge, BATTERY, Usage(0x85, 0x66), Percent(s.batteryCharge));
    FindsReading(ds, data, s, BatteryChargeLow, BATTERY, Usage(0x85, 0x29), Percent(s.batteryChargeLow));
    FindsReading(ds, data, s, BatteryChargeWarning, BATTERY, Usage(0x85, 0x8C), Percent(s.batteryChargeWarning));
  }

  /** The unit of voltages, 0xF0D121, is a ten-millionth of a volt. */
  const VOLT := 10000000.0

  /** What a host that goes by the declared units makes of the readings. */
  ghost predicate MeasuresStatus(ds: List<Decl>, data: seq<Byte>, s: Status) {
    && HostMeasures(ds, data, INPUT, VOLTAGE, 0xF0D121, s.inputVoltage as real / 100.0 * VOLT)
    && HostMeasures(ds, data, OUTPUT, VOLTAGE, 0xF0D121, s.outputVoltage as real / 100.0 * VOLT)
    && HostMeasures(ds, data, BATTERY, VOLTAGE, 0xF0D121, s.batteryVoltage as real / 1000.0 * VOLT)
    && HostMeasures(ds, data, INPUT, CURRENT, 0x100001, s.inputCurrent as real / 100.0)
    && HostMeasures(ds, data, OUTPUT, CURRENT, 0x100001, s.outputCurrent as real / 100.0)
    && HostMeasures(ds, data, BATTERY, CURRENT, 0x100001, s.batteryCurrent as real / 1000.0)
    && HostMeasures(ds, data, BATTERY, Usage(0x85, 0x68), 0x1001, s.runtime as real)
    && HostMeasures(ds, data, BATTERY, Usage(0x84, 0x36), 0x10001, TemperatureRaw(s.batteryTemperature) as real / 100.0)
  }

  /** The voltages are all stored in hundredths of a volt and the currents in thousandths of an ampere, but the
      descriptor does not declare them alike: the battery's voltage comes out as thousandths of a volt, and the input
      and output currents as hundredths of an ampere. The temperature is a count of the thermistor table taken for
      hundredths of a kelvin. */
  lemma QuantitiesOfReport(s: Status)
    ensures MeasuresStatus(Declared(), FullReport(s, 2), s)
  {
    IsDescribed(s);
    VoltagesMeasured(Declared(), FullReport(s, 2), s);
    CurrentsMeasured(Declared(), FullReport(s, 2), s);
    RestMeasured(Declared(), FullReport(s, 2), s);
  }

  lemma Measure(ds: List<Decl>, data: seq<Byte>, s: Status, f: Field, place: Usage, u: Usage, v: int, unit: nat,
                exponent: int, x: real)
    requires Reported(f) && Describes(ds, data, s)
    requires place == PlaceFor(f) && u == UsageFor(f) && v == Shown(f, Get(s, f))
    requires MeasuredIn(place, u) == Unit(unit, exponent) && x == Quantity(v, exponent)
    ensures HostMeasures(ds, data, place, u, unit, x)
  {
    FindsMeasure(ds, data, s, f, place, u, v, unit, exponent);
  }

  lemma InVolts(v: nat)
    ensures v as real / 100.0 * VOLT == Quantity(v, 5) && v as real / 1000.0 * VOLT == Quantity(v, 4)
  {
    assert Quantity(v, 1) == 10.0 * v as real && Quantity(v, 2) == 100.0 * v as real;
    assert Quantity(v, 3) == 1000.0 * v as real;
  }

  lemma InAmperes(v: nat)
    ensures v as real / 100.0 == Quantity(v, -2) && v as real / 1000.0 == Quantity(v, -3) && v as real == Quantity(v, 0)
  {
    assert Quantity(v, -1) == v as real / 10.0;
  }

  lemma VoltagesMeasured(ds: List<Decl>, data: seq<Byte>, s: Status)
    requires Describes(ds, data, s)
    ensures HostMeasures(ds, data, INPUT, VOLTAGE, 0xF0D121, s.inputVoltage as real / 100.0 * VOLT)
    ensures HostMeasures(ds, data, OUTPUT, VOLTAGE, 0xF0D121, s.outputVoltage as real / 100.0 * VOLT)
    ensures HostMeasures(ds, data, BATTERY, VOLTAGE, 0xF0D121, s.batteryVoltage as real / 1000.0 * VOLT)
  {
    var i, o, b := s.inputVoltage, s.outputVoltage, s.batteryVoltage;
    InVolts(i);
    InVolts(o);
    InVolts(b);
    Measure(ds, data, s, InputVoltage, INPUT, VOLTAGE, i, 0xF0D121, 5, i as real / 100.0 * VOLT);
    Measure(ds, data, s, OutputVoltage, OUTPUT, VOLTAGE, o, 0xF0D121, 5, o as real / 100.0 * VOLT);
    Measure(ds, data, s, BatteryVoltage, BATTERY, VOLTAGE, b, 0xF0D121, 4, b as real / 1000.0 * VOLT);
  }

  lemma CurrentsMeasured(ds: List<Decl>, data: seq<Byte>, s: Status)
    requires Describes(ds, data, s)
    ensures HostMeasures(ds, data, INPUT, CURRENT, 0x100001, s.inputCurrent as real / 100.0)
    ensures HostMeasures(ds, data, OUTPUT, CURRENT, 0x100001, s.outputCurrent as real / 100.0)
    ensures HostMeasures(ds, data, BATTERY, CURRENT, 0x100001, s.batteryCurrent as real / 1000.0)
  {
    var i, o, b := s.inputCurrent, s.outputCurrent, s.batteryCurrent;
    InAmperes(i);
    InAmperes(o);
    InAmperes(b);
    Measure(ds, data, s, InputCurrent, INPUT, CURRENT, i, 0x100001, -2, i as real / 100.0);
    Measure(ds, data, s, OutputCurrent, OUTPUT, CURRENT, o, 0x100001, -2, o as real / 100.0);
    Measure(ds, data, s, BatteryCurrent, BATTERY, CURRENT, b, 0x100001, -3, b as real / 1000.0);
  }

  lemma RestMeasured(ds: List<Decl>, data: seq<Byte>, s: Status)
    requires Describes(ds, data, s)
    ensures HostMeasures(ds, data, BATTERY, Usage(0x85, 0x68), 0x1001, s.runtime as real)
    ensures HostMeasures(ds, data, BATTERY, Usage(0x84, 0x36), 0x10001,
                         TemperatureRaw(s.batteryTemperature) as real / 100.0)
  {
    var r, t := s.runtime, TemperatureRaw(s.batteryTemperature);
    InAmperes(r);
    InAmperes(t);
    Measure(ds, data, s, BatteryRuntime, BATTERY, Usage(0x85, 0x68), r, 0x1001, 0, r as real);
    Measure(ds, data, s, BatteryTemperature, BATTERY, Usage(0x84, 0x36), t, 0x10001, -2, t as real / 100.0);
  }
}
