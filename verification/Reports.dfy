/** `get_report`: packing the cached status into the three feature reports. */
module Reports {
  import opened Bytes
  import opened Numbers
  import opened UpsStatus

  const OUTPUT_REPORT := 2
  const INPUT_REPORT := 1
  const FEATURE_REPORT := 3

  /** `power_summary.low_battery || battery_charge <= battery_charge_low` */
  predicate LowCharge(s: Status) {
    s.power.lowBattery || s.batteryCharge <= s.batteryChargeLow
  }

  predicate LowRuntime(s: Status) {
    s.power.lowRuntime || s.runtime <= s.runtimeLow
  }

  function Bit(on: bool, weight: nat): nat {
    if on then weight else 0
  }

  /** The PresentStatus word, one weight for each bit the code sets. */
  function StatusBits(s: Status): U16 {
    Bit(true, 0x1) + Bit(s.power.overload, 0x4) + Bit(s.power.lowRuntime, 0x10) +
    Bit(LowCharge(s), 0x20) + Bit(LowRuntime(s), 0x40) + Bit(s.power.charging, 0x80) +
    Bit(s.power.discharging, 0x100) + Bit(s.power.acPresent, 0x400) + Bit(true, 0x800)
  }

  /** Report 2: sixteen-bit fields are little endian. */
  function UpsReport(s: Status): seq<Byte> {
    var temperature, bits := TemperatureRaw(s.batteryTemperature), StatusBits(s);
    [2, s.batteryVoltage % 0x100, s.batteryVoltage / 0x100, s.batteryCurrent % 0x100, s.batteryCurrent / 0x100,
     PercentToU8(s.batteryCapacity), PercentToU8(s.batteryCharge),
     PercentToU8(s.batteryChargeLow), PercentToU8(s.batteryChargeWarning),
     s.runtime % 0x100, s.runtime / 0x100, temperature % 0x100, temperature / 0x100,
     s.outputVoltage % 0x100, s.outputVoltage / 0x100, s.outputCurrent % 0x100, s.outputCurrent / 0x100,
     s.inputVoltage % 0x100, s.inputVoltage / 0x100, s.inputCurrent % 0x100, s.inputCurrent / 0x100,
     bits % 0x100, bits / 0x100]
  }

  /** A report before it is cut to the length asked for; unknown IDs have none. */
  function FullReport(s: Status, id: nat): seq<Byte> {
    if id == 1 then [1, 0, 1, 2, 3, 5, 4, 2]
    else if id == 2 then UpsReport(s)
    else if id == 3 then [3, PercentToU8(s.batteryCapacity)]
    else []
  }

  function Truncate(b: seq<Byte>, n: nat): seq<Byte> {
    if |b| <= n then b else b[..n]
  }

  /** The bytes `get_report` copies out. */
  function GetReport(s: Status, kind: Byte, id: Byte, length: U16): seq<Byte> {
    if kind == INPUT_REPORT || kind == FEATURE_REPORT then Truncate(FullReport(s, id), length) else []
  }

  /** `get_report` writes the report to the front of the caller's buffer and leaves the rest alone. */
  method WriteReport(s: Status, kind: Byte, id: Byte, buffer: array<Byte>, length: U16) returns (n: nat)
    requires buffer.Length >= 23
    modifies buffer
    ensures n == |GetReport(s, kind, id, length)|
    ensures buffer[..] == GetReport(s, kind, id, length) + old(buffer[..])[n..]
  {
    n := 0;
    if kind == OUTPUT_REPORT { return; }
    if kind != INPUT_REPORT && kind != FEATURE_REPORT { return; }
    var report := BuildReport(s, id);
    n := if |report| < length then |report| else length;
    forall i | 0 <= i < n {
      buffer[i] := report[i];
    }
  }

  method AppendU16(report: seq<Byte>, value: U16) returns (more: seq<Byte>)
    ensures more == report + [value % 0x100, value / 0x100]
  {
    more := report + [value % 0x100];
    more := more + [value / 0x100];
  }

  /** The status word, set one bit at a time. */
  method BuildStatusBits(s: Status) returns (bits: U16)
    ensures bits == StatusBits(s)
  {
    bits := 0x1;
    if s.power.overload { bits := bits + 0x4; }
    if s.power.lowRuntime { bits := bits + 0x10; }
    if LowCharge(s) { bits := bits + 0x20; }
    if LowRuntime(s) { bits := bits + 0x40; }
    if s.power.charging { bits := bits + 0x80; }
    if s.power.discharging { bits := bits + 0x100; }
    if s.power.acPresent { bits := bits + 0x400; }
    bits := bits + 0x800;
  }

  /** The report, one field at a time. */
  method BuildReport(s: Status, id: Byte) returns (report: seq<Byte>)
    ensures report == FullReport(s, id) && |report| <= 23
  {
    if id == 1 {
      report := [1, 0, 1, 2, 3, 5, 4, 2];
    } else if id == 2 {
      var bits := BuildStatusBits(s);
      report := [2];
      report := AppendU16(report, s.batteryVoltage);
      report := AppendU16(report, s.batteryCurrent);
      report := report + [PercentToU8(s.batteryCapacity)];
      report := report + [PercentToU8(s.batteryCharge)];
      report := report + [PercentToU8(s.batteryChargeLow)];
      report := report + [PercentToU8(s.batteryChargeWarning)];
      report := AppendU16(report, s.runtime);
      report := AppendU16(report, TemperatureRaw(s.batteryTemperature));
      report := AppendU16(report, s.outputVoltage);
      report := AppendU16(report, s.outputCurrent);
      report := AppendU16(report, s.inputVoltage);
      report := AppendU16(report, s.inputCurrent);
      report := AppendU16(report, bits);
      assert report == UpsReport(s);
    } else if id == 3 {
      report := [3, PercentToU8(s.batteryCapacity)];
    } else {
      report := [];
    }
  }
}
