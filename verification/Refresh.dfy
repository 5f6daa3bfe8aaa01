/** What the polling loop stores for each variable, by its name and its scale. */
module Refresh {
  import opened Numbers
  import opened StatusTokens
  import opened UpsStatus

  /** `n` is `x` rounded to the nearest integer, halves away from zero, and kept between `low` and `high`. */
  predicate Rounds(x: real, low: int, high: int, n: int) {
    if x <= low as real then n == low
    else if x >= high as real then n == high
    else
      && low <= n <= high && -0.5 <= n as real - x <= 0.5
      && (n as real - x == 0.5 ==> x > 0.0) && (x - n as real == 0.5 ==> x < 0.0)
  }

  /** What becomes of a reading whose variable is `name`, in units of which `scale` make one of the variable's. */
  predicate Takes(vars: map<string, string>, name: string, stod: Stod, scale: real, low: int, high: int,
                  before: int, after: int) {
    if name !in vars || stod(vars[name]).None? then after == before else
    match stod(vars[name]).value
    case NotANumber => after == 0
    case Infinite(positive) => after == if positive then high else low
    case Finite(v) => Rounds(v * scale, low, high, after)
  }

  predicate TakesU16(vars: map<string, string>, name: string, stod: Stod, scale: real, before: int, after: int) {
    Takes(vars, name, stod, scale, 0, 65535, before, after)
  }

  /** The status after a merge: voltages in hundredths, currents in thousandths, the frequency in tenths, the
      temperature in hundredths and with a sign, and the rest as they are. */
  predicate Refreshed(s: Status, vars: map<string, string>, stod: Stod, t: Status) {
    && TakesU16(vars, "input.voltage", stod, 100.0, s.inputVoltage, t.inputVoltage)
    && TakesU16(vars, "output.voltage", stod, 100.0, s.outputVoltage, t.outputVoltage)
    && TakesU16(vars, "battery.voltage", stod, 100.0, s.batteryVoltage, t.batteryVoltage)
    && TakesU16(vars, "input.current", stod, 1000.0, s.inputCurrent, t.inputCurrent)
    && TakesU16(vars, "output.current", stod, 1000.0, s.outputCurrent, t.outputCurrent)
    && TakesU16(vars, "battery.current", stod, 1000.0, s.batteryCurrent, t.batteryCurrent)
    && Takes(vars, "battery.temperature", stod, 100.0, -32768, 32767, s.batteryTemperature, t.batteryTemperature)
    && TakesU16(vars, "battery.capacity", stod, 1.0, s.batteryCapacity, t.batteryCapacity)
    && TakesU16(vars, "battery.charge", stod, 1.0, s.batteryCharge, t.batteryCharge)
    && TakesU16(vars, "battery.charge.low", stod, 1.0, s.batteryChargeLow, t.batteryChargeLow)
    && TakesU16(vars, "battery.charge.warning", stod, 1.0, s.batteryChargeWarning, t.batteryChargeWarning)
    && TakesU16(vars, "ups.load", stod, 1.0, s.loadPercent, t.loadPercent)
    && TakesU16(vars, "battery.runtime", stod, 1.0, s.runtime, t.runtime)
    && TakesU16(vars, "battery.runtime.low", stod, 1.0, s.runtimeLow, t.runtimeLow)
    && TakesU16(vars, "input.frequency", stod, 10.0, s.inputFrequency, t.inputFrequency)
    && t.power == if "ups.status" in vars then ParseStatus(vars["ups.status"]) else s.power
  }

  lemma U16Rounds(x: real)
    ensures Rounds(x, 0, 65535, ClampU16(Finite(x)))
  {
  }

  lemma I16Rounds(x: real)
    ensures Rounds(x, -32768, 32767, ClampI16(Finite(x)))
  {
  }

  lemma FieldTakes(s: Status, vars: map<string, string>, stod: Stod, f: Field, name: string, scale: real)
    requires name == NameOf(f) && scale == Factor(f) && f != BatteryTemperature
    ensures TakesU16(vars, name, stod, scale, Get(s, f), MergedField(s, vars, stod, f))
  {
    if name in vars && stod(vars[name]).Some? && stod(vars[name]).value.Finite? {
      U16Rounds(stod(vars[name]).value.value * scale);
    }
  }

  lemma TemperatureTakes(s: Status, vars: map<string, string>, stod: Stod, name: string)
    requires name == "battery.temperature"
    ensures Takes(vars, name, stod, 100.0, -32768, 32767, s.batteryTemperature,
                  MergedField(s, vars, stod, BatteryTemperature))
  {
    if name in vars && stod(vars[name]).Some? && stod(vars[name]).value.Finite? {
      I16Rounds(stod(vars[name]).value.value * 100.0);
    }
  }

  /** A merge stores exactly these values. */
  lemma MergeRefreshes(s: Status, vars: map<string, string>, stod: Stod, t: Status)
    requires Merged(s, vars, stod, t)
    ensures Refreshed(s, vars, stod, t)
  {
    MainsTaken(s, vars, stod, t);
    BatteryTaken(s, vars, stod, t);
    ChargeTaken(s, vars, stod, t);
    TemperatureTakes(s, vars, stod, "battery.temperature");
    assert Get(t, BatteryTemperature) == MergedField(s, vars, stod, BatteryTemperature);
  }

  /** So does the loop for a single variable. */
  lemma ApplyRefreshes(s: Status, name: string, value: string, stod: Stod)
    ensures Refreshed(s, map[name := value], stod, Apply(s, name, value, stod))
  {
    var none: map<string, string> := map[];
    assert Merged(s, none, stod, s);
    MergeOneMore(s, none, name, value, stod, s);
    assert none[name := value] == map[name := value];
    MergeRefreshes(s, map[name := value], stod, Apply(s, name, value, stod));
  }

  lemma Taken(s: Status, vars: map<string, string>, stod: Stod, t: Status, f: Field, name: string, scale: real)
    requires Get(t, f) == MergedField(s, vars, stod, f)
    requires name == NameOf(f) && scale == Factor(f) && f != BatteryTemperature
    ensures TakesU16(vars, name, stod, scale, Get(s, f), Get(t, f))
  {
    FieldTakes(s, vars, stod, f, name, scale);
  }

  lemma MainsTaken(s: Status, vars: map<string, string>, stod: Stod, t: Status)
    requires forall f: Field :: Get(t, f) == MergedField(s, vars, stod, f)
    ensures TakesU16(vars, "input.voltage", stod, 100.0, s.inputVoltage, t.inputVoltage)
    ensures TakesU16(vars, "output.voltage", stod, 100.0, s.outputVoltage, t.outputVoltage)
    ensures TakesU16(vars, "input.current", stod, 1000.0, s.inputCurrent, t.inputCurrent)
    ensures TakesU16(vars, "output.current", stod, 1000.0, s.outputCurrent, t.outputCurrent)
    ensures TakesU16(vars, "input.frequency", stod, 10.0, s.inputFrequency, t.inputFrequency)
  {
    Taken(s, vars, stod, t, InputVoltage, "input.voltage", 100.0);
    Taken(s, vars, stod, t, OutputVoltage, "output.voltage", 100.0);
    Taken(s, vars, stod, t, InputCurrent, "input.current", 1000.0);
    Taken(s, vars, stod, t, OutputCurrent, "output.current", 1000.0);
    Taken(s, vars, stod, t, InputFrequency, "input.frequency", 10.0);
  }

  lemma BatteryTaken(s: Status, vars: map<string, string>, stod: Stod, t: Status)
    requires forall f: Field :: Get(t, f) == MergedField(s, vars, stod, f)
    ensures TakesU16(vars, "battery.voltage", stod, 100.0, s.batteryVoltage, t.batteryVoltage)
    ensures TakesU16(vars, "battery.current", stod, 1000.0, s.batteryCurrent, t.batteryCurrent)
    ensures TakesU16(vars, "battery.runtime", stod, 1.0, s.runtime, t.runtime)
    ensures TakesU16(vars, "battery.runtime.low", stod, 1.0, s.runtimeLow, t.runtimeLow)
    ensures TakesU16(vars, "ups.load", stod, 1.0, s.loadPercent, t.loadPercent)
  {
    Taken(s, vars, stod, t, BatteryVoltage, "battery.voltage", 100.0);
    Taken(s, vars, stod, t, BatteryCurrent, "battery.current", 1000.0);
    Taken(s, vars, stod, t, BatteryRuntime, "battery.runtime", 1.0);
    Taken(s, vars, stod, t, BatteryRuntimeLow, "battery.runtime.low", 1.0);
    Taken(s, vars, stod, t, UpsLoad, "ups.load", 1.0);
  }

  lemma ChargeTaken(s: Status, vars: map<string, string>, stod: Stod, t: Status)
    requires forall f: Field :: Get(t, f) == MergedField(s, vars, stod, f)
    ensures TakesU16(vars, "battery.capacity", stod, 1.0, s.batteryCapacity, t.batteryCapacity)
    ensures TakesU16(vars, "battery.charge", stod, 1.0, s.batteryCharge, t.batteryCharge)
    ensures TakesU16(vars, "battery.charge.low", stod, 1.0, s.batteryChargeLow, t.batteryChargeLow)
    ensures TakesU16(vars, "battery.charge.warning", stod, 1.0, s.batteryChargeWarning, t.batteryChargeWarning)
  {
    Taken(s, vars, stod, t, BatteryCapacity, "battery.capacity", 1.0);
    Taken(s, vars, stod, t, BatteryCharge, "battery.charge", 1.0);
    Taken(s, vars, stod, t, BatteryChargeLow, "battery.charge.low", 1.0);
    Taken(s, vars, stod, t, BatteryChargeWarning, "battery.charge.warning", 1.0);
  }
}
