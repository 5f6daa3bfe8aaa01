/** The cached UPS status and how a set of NUT variables is merged into it. */
module UpsStatus {
  import opened Bytes
  import opened Numbers
  import opened StatusTokens

  /** `ups_status` */
  datatype Status = Status(
    inputVoltage: U16, outputVoltage: U16, batteryVoltage: U16,
    inputCurrent: U16, outputCurrent: U16, batteryCurrent: U16,
    batteryTemperature: I16, batteryCapacity: U16, batteryChargeLow: U16,
    batteryChargeWarning: U16, batteryCharge: U16, loadPercent: U16,
    runtime: U16, runtimeLow: U16, inputFrequency: U16,
    power: Power)

  datatype Field =
    | InputVoltage | OutputVoltage | BatteryVoltage | InputCurrent | OutputCurrent | BatteryCurrent
    | BatteryTemperature | BatteryCapacity | BatteryCharge | BatteryChargeLow | BatteryChargeWarning
    | UpsLoad | BatteryRuntime | BatteryRuntimeLow | InputFrequency

  /** The NUT variable a field is read from. */
  function NameOf(f: Field): string {
    match f
    case InputVoltage => "input.voltage"
    case OutputVoltage => "output.voltage"
    case BatteryVoltage => "battery.voltage"
    case InputCurrent => "input.current"
    case OutputCurrent => "output.current"
    case BatteryCurrent => "battery.current"
    case BatteryTemperature => "battery.temperature"
    case BatteryCapacity => "battery.capacity"
    case BatteryCharge => "battery.charge"
    case BatteryChargeLow => "battery.charge.low"
    case BatteryChargeWarning => "battery.charge.warning"
    case UpsLoad => "ups.load"
    case BatteryRuntime => "battery.runtime"
    case BatteryRuntimeLow => "battery.runtime.low"
    case InputFrequency => "input.frequency"
  }

  const STATUS_NAME := "ups.status"

  /** The comparison chain of `update_status_loop`, in its order. */
  function FieldOf(name: string): Option<Field> {
    if name == "input.voltage" then Some(InputVoltage)
    else if name == "output.voltage" then Some(OutputVoltage)
    else if name == "battery.voltage" then Some(BatteryVoltage)
    else if name == "input.current" then Some(InputCurrent)
    else if name == "output.current" then Some(OutputCurrent)
    else if name == "battery.current" then Some(BatteryCurrent)
    else if name == "battery.temperature" then Some(BatteryTemperature)
    else if name == "battery.capacity" then Some(BatteryCapacity)
    else if name == "battery.charge" then Some(BatteryCharge)
    else if name == "battery.charge.low" then Some(BatteryChargeLow)
    else if name == "battery.charge.warning" then Some(BatteryChargeWarning)
    else if name == "ups.load" then Some(UpsLoad)
    else if name == "battery.runtime" then Some(BatteryRuntime)
    else if name == "battery.runtime.low" then Some(BatteryRuntimeLow)
    else if name == "input.frequency" then Some(InputFrequency)
    else None
  }

  function Factor(f: Field): real {
    match f
    case InputVoltage | OutputVoltage | BatteryVoltage | BatteryTemperature => 100.0
    case InputCurrent | OutputCurrent | BatteryCurrent => 1000.0
    case InputFrequency => 10.0
    case _ => 1.0
  }

  function Get(s: Status, f: Field): int {
    match f
    case InputVoltage => s.inputVoltage
    case OutputVoltage => s.outputVoltage
    case BatteryVoltage => s.batteryVoltage
    case InputCurrent => s.inputCurrent
    case OutputCurrent => s.outputCurrent
    case BatteryCurrent => s.batteryCurrent
    case BatteryTemperature => s.batteryTemperature
    case BatteryCapacity => s.batteryCapacity
    case BatteryCharge => s.batteryCharge
    case BatteryChargeLow => s.batteryChargeLow
    case BatteryChargeWarning => s.batteryChargeWarning
    case UpsLoad => s.loadPercent
    case BatteryRuntime => s.runtime
    case BatteryRuntimeLow => s.runtimeLow
    case InputFrequency => s.inputFrequency
  }

  /** A field's stored value for a parsed number: scaled, rounded and clamped to the field's type. */
  function Stored(f: Field, x: Number): int {
    var scaled := Scale(x, Factor(f));
    if f == BatteryTemperature then ClampI16(scaled) else ClampU16(scaled)
  }

  function Put(s: Status, f: Field, x: Number): Status {
    var v := Scale(x, Factor(f));
    match f
    case InputVoltage => s.(inputVoltage := ClampU16(v))
    case OutputVoltage => s.(outputVoltage := ClampU16(v))
    case BatteryVoltage => s.(batteryVoltage := ClampU16(v))
    case InputCurrent => s.(inputCurrent := ClampU16(v))
    case OutputCurrent => s.(outputCurrent := ClampU16(v))
    case BatteryCurrent => s.(batteryCurrent := ClampU16(v))
    case BatteryTemperature => s.(batteryTemperature := ClampI16(v))
    case BatteryCapacity => s.(batteryCapacity := ClampU16(v))
    case BatteryCharge => s.(batteryCharge := ClampU16(v))
    case BatteryChargeLow => s.(batteryChargeLow := ClampU16(v))
    case BatteryChargeWarning => s.(batteryChargeWarning := ClampU16(v))
    case UpsLoad => s.(loadPercent := ClampU16(v))
    case BatteryRuntime => s.(runtime := ClampU16(v))
    case BatteryRuntimeLow => s.(runtimeLow := ClampU16(v))
    case InputFrequency => s.(inputFrequency := ClampU16(v))
  }

  /** `std::stod`: a number, or an exception. */
  type Stod = string -> Option<Number>

  /** One variable of the update loop. A parse failure is caught and leaves the status alone. */
  function Apply(s: Status, name: string, value: string, stod: Stod): Status {
    match FieldOf(name)
    case Some(f) => (match stod(value) case None => s case Some(x) => Put(s, f, x))
    case None => if name == STATUS_NAME then s.(power := ParseStatus(value)) else s
  }

  /** What merging `vars` makes of each field, with no order in sight: the parsed value of the field's
      own variable if there is one, and the old value otherwise. */
  ghost predicate Merged(s: Status, vars: map<string, string>, stod: Stod, t: Status) {
    && (forall f: Field :: Get(t, f) == MergedField(s, vars, stod, f))
    && t.power == if STATUS_NAME in vars then ParseStatus(vars[STATUS_NAME]) else s.power
  }

  function MergedField(s: Status, vars: map<string, string>, stod: Stod, f: Field): int {
    if NameOf(f) in vars && stod(vars[NameOf(f)]).Some? then Stored(f, stod(vars[NameOf(f)]).value)
    else Get(s, f)
  }

  lemma FieldOfNameOf(f: Field)
    ensures FieldOf(NameOf(f)) == Some(f) && NameOf(f) != STATUS_NAME
  {
  }

  lemma NameOfFieldOf(name: string)
    ensures FieldOf(name).Some? ==> NameOf(FieldOf(name).value) == name
  {
  }

  lemma GetPut(s: Status, f: Field, x: Number, g: Field)
    ensures Get(Put(s, f, x), g) == if f == g then Stored(f, x) else Get(s, g)
    ensures Put(s, f, x).power == s.power
  {
  }

  /** A status is determined by its fields and its flags. */
  lemma SameFields(s: Status, t: Status)
    requires (forall f: Field :: Get(s, f) == Get(t, f)) && s.power == t.power
    ensures s == t
  {
    assert Get(s, InputVoltage) == Get(t, InputVoltage) && Get(s, OutputVoltage) == Get(t, OutputVoltage);
    assert Get(s, BatteryVoltage) == Get(t, BatteryVoltage) && Get(s, InputCurrent) == Get(t, InputCurrent);
    assert Get(s, OutputCurrent) == Get(t, OutputCurrent) && Get(s, BatteryCurrent) == Get(t, BatteryCurrent);
    assert Get(s, BatteryTemperature) == Get(t, BatteryTemperature);
    assert Get(s, BatteryCapacity) == Get(t, BatteryCapacity);
    assert Get(s, BatteryCharge) == Get(t, BatteryCharge) && Get(s, BatteryChargeLow) == Get(t, BatteryChargeLow);
    assert Get(s, BatteryChargeWarning) == Get(t, BatteryChargeWarning) && Get(s, UpsLoad) == Get(t, UpsLoad);
    assert Get(s, BatteryRuntime) == Get(t, BatteryRuntime) && Get(s, BatteryRuntimeLow) == Get(t, BatteryRuntimeLow);
    assert Get(s, InputFrequency) == Get(t, InputFrequency);
  }

  /** Merging one more variable, not merged before. */
  lemma MergeOneMore(s: Status, vars: map<string, string>, name: string, value: string, stod: Stod, t: Status)
    requires Merged(s, vars, stod, t) && name !in vars
    ensures Merged(s, vars[name := value], stod, Apply(t, name, value, stod))
  {
    forall f: Field
      ensures Get(Apply(t, name, value, stod), f) == MergedField(s, vars[name := value], stod, f)
    {
      assert Get(t, f) == MergedField(s, vars, stod, f);
      MergeOneMoreField(s, vars, name, value, stod, t, f);
    }
    MergeOneMorePower(t, name, value, stod);
  }

  lemma MergeOneMoreField(s: Status, vars: map<string, string>, name: string, value: string, stod: Stod, t: Status,
                          f: Field)
    requires Get(t, f) == MergedField(s, vars, stod, f) && name !in vars
    ensures Get(Apply(t, name, value, stod), f) == MergedField(s, vars[name := value], stod, f)
  {
    NameOfFieldOf(name);
    FieldOfNameOf(f);
    if FieldOf(name).Some? && stod(value).Some? {
      GetPut(t, FieldOf(name).value, stod(value).value, f);
    }
  }

  lemma MergeOneMorePower(t: Status, name: string, value: string, stod: Stod)
    ensures Apply(t, name, value, stod).power == if name == STATUS_NAME then ParseStatus(value) else t.power
  {
  }

  /** The variables applied one after another in the order given. */
  function ApplyAll(s: Status, order: seq<string>, vars: map<string, string>, stod: Stod): Status
    requires forall n | n in order :: n in vars
  {
    if order == [] then s else
    var last := order[|order| - 1];
    Apply(ApplyAll(s, order[..|order| - 1], vars, stod), last, vars[last], stod)
  }

  lemma {:induction false} ApplyAllMerges(s: Status, order: seq<string>, vars: map<string, string>, stod: Stod)
    requires forall n | n in order :: n in vars
    requires forall i, j | 0 <= i < j < |order| :: order[i] != order[j]
    ensures Merged(s, map n | n in order :: vars[n], stod, ApplyAll(s, order, vars, stod))
  {
    if order == [] {
    } else {
      var front, last := order[..|order| - 1], order[|order| - 1];
      ApplyAllMerges(s, front, vars, stod);
      var before := map n | n in front :: vars[n];
      MergeOneMore(s, before, last, vars[last], stod, ApplyAll(s, front, vars, stod));
      assert order == front + [last];
      assert (map n | n in order :: vars[n]) == before[last := vars[last]];
    }
  }

  /** Any order of the same variables gives the same status. */
  lemma MergeOrderIndependent(s: Status, a: seq<string>, b: seq<string>, vars: map<string, string>, stod: Stod)
    requires (set n | n in a) == vars.Keys == (set n | n in b)
    requires forall i, j | 0 <= i < j < |a| :: a[i] != a[j]
    requires forall i, j | 0 <= i < j < |b| :: b[i] != b[j]
    ensures forall n | n in a :: n in vars
    ensures forall n | n in b :: n in vars
    ensures ApplyAll(s, a, vars, stod) == ApplyAll(s, b, vars, stod)
  {
    assert forall n | n in a :: n in (set m | m in a);
    assert forall n | n in b :: n in (set m | m in b);
    ApplyAllMerges(s, a, vars, stod);
    ApplyAllMerges(s, b, vars, stod);
    assert forall n :: n in (set m | m in a) <==> n in vars.Keys;
    assert forall n :: n in (set m | m in b) <==> n in vars.Keys;
    assert (map n | n in a :: vars[n]) == vars == (map n | n in b :: vars[n]);
    SameFields(ApplyAll(s, a, vars, stod), ApplyAll(s, b, vars, stod));
  }

  /** A value that does not parse, under any name but `ups.status`, is as good as absent: no other
      field notices it. */
  lemma FaultIsolated(s: Status, vars: map<string, string>, bad: string, stod: Stod, t: Status)
    requires bad in vars && bad != STATUS_NAME && stod(vars[bad]).None?
    ensures Merged(s, vars, stod, t) <==> Merged(s, vars - {bad}, stod, t)
  {
  }
}
