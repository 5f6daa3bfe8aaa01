/** The poller thread and the readers of the cached status, one memory cell at a time, under `status_mutex`. */
module Snapshot {
  import opened Numbers
  import opened StatusTokens
  import opened UpsStatus
  import opened Reports

  datatype Flag =
    | AcPresent | LowBattery | LowRuntimeFlag | Charging | Discharging | FullyCharged | Overload | Boost | Buck

  function FlagOf(p: Power, flag: Flag): bool {
    match flag
    case AcPresent => p.acPresent
    case LowBattery => p.lowBattery
    case LowRuntimeFlag => p.lowRuntime
    case Charging => p.charging
    case Discharging => p.discharging
    case FullyCharged => p.fullyCharged
    case Overload => p.overload
    case Boost => p.boost
    case Buck => p.buck
  }

  function SetFlag(p: Power, flag: Flag, on: bool): Power {
    match flag
    case AcPresent => p.(acPresent := on)
    case LowBattery => p.(lowBattery := on)
    case LowRuntimeFlag => p.(lowRuntime := on)
    case Charging => p.(charging := on)
    case Discharging => p.(discharging := on)
    case FullyCharged => p.(fullyCharged := on)
    case Overload => p.(overload := on)
    case Boost => p.(boost := on)
    case Buck => p.(buck := on)
  }

  lemma FlagOfSetFlag(p: Power, flag: Flag, on: bool, other: Flag)
    ensures FlagOf(SetFlag(p, flag, on), other) == if other == flag then on else FlagOf(p, other)
  {
  }

  lemma SamePower(p: Power, q: Power)
    requires forall flag :: FlagOf(p, flag) == FlagOf(q, flag)
    ensures p == q
  {
    assert FlagOf(p, AcPresent) == FlagOf(q, AcPresent) && FlagOf(p, LowBattery) == FlagOf(q, LowBattery);
    assert FlagOf(p, LowRuntimeFlag) == FlagOf(q, LowRuntimeFlag) && FlagOf(p, Charging) == FlagOf(q, Charging);
    assert FlagOf(p, Discharging) == FlagOf(q, Discharging) && FlagOf(p, FullyCharged) == FlagOf(q, FullyCharged);
    assert FlagOf(p, Overload) == FlagOf(q, Overload) && FlagOf(p, Boost) == FlagOf(q, Boost);
    assert FlagOf(p, Buck) == FlagOf(q, Buck);
  }

  /** What one machine load or store touches. */
  datatype Cell = FieldCell(field: Field) | FlagCell(flag: Flag)

  predicate Agree(s: Status, t: Status, cell: Cell) {
    match cell
    case FieldCell(f) => Get(s, f) == Get(t, f)
    case FlagCell(flag) => FlagOf(s.power, flag) == FlagOf(t.power, flag)
  }

  /** `to` with one field taken from `from`. */
  function CopyField(to: Status, from: Status, f: Field): Status {
    match f
    case InputVoltage => to.(inputVoltage := from.inputVoltage)
    case OutputVoltage => to.(outputVoltage := from.outputVoltage)
    case BatteryVoltage => to.(batteryVoltage := from.batteryVoltage)
    case InputCurrent => to.(inputCurrent := from.inputCurrent)
    case OutputCurrent => to.(outputCurrent := from.outputCurrent)
    case BatteryCurrent => to.(batteryCurrent := from.batteryCurrent)
    case BatteryTemperature => to.(batteryTemperature := from.batteryTemperature)
    case BatteryCapacity => to.(batteryCapacity := from.batteryCapacity)
    case BatteryCharge => to.(batteryCharge := from.batteryCharge)
    case BatteryChargeLow => to.(batteryChargeLow := from.batteryChargeLow)
    case BatteryChargeWarning => to.(batteryChargeWarning := from.batteryChargeWarning)
    case UpsLoad => to.(loadPercent := from.loadPercent)
    case BatteryRuntime => to.(runtime := from.runtime)
    case BatteryRuntimeLow => to.(runtimeLow := from.runtimeLow)
    case InputFrequency => to.(inputFrequency := from.inputFrequency)
  }

  function CopyCell(to: Status, from: Status, cell: Cell): Status {
    match cell
    case FieldCell(f) => CopyField(to, from, f)
    case FlagCell(flag) => to.(power := SetFlag(to.power, flag, FlagOf(from.power, flag)))
  }

  lemma CopyFieldAgrees(to: Status, from: Status, f: Field, other: Cell)
    ensures Agree(CopyField(to, from, f), from, other) <==> other == FieldCell(f) || Agree(to, from, other)
  {
  }

  lemma CopyAgrees(to: Status, from: Status, cell: Cell, other: Cell)
    ensures Agree(CopyCell(to, from, cell), from, other) <==> other == cell || Agree(to, from, other)
  {
    match cell
    case FieldCell(f) => CopyFieldAgrees(to, from, f, other);
    case FlagCell(flag) =>
      if other.FlagCell? {
        FlagOfSetFlag(to.power, flag, FlagOf(from.power, flag), other.flag);
      }
  }

  /** A copy of every cell is a copy of the status. */
  lemma AllCells(s: Status, t: Status)
    requires forall cell :: Agree(s, t, cell)
    ensures s == t
  {
    forall f: Field ensures Get(s, f) == Get(t, f) { assert Agree(s, t, FieldCell(f)); }
    forall flag ensures FlagOf(s.power, flag) == FlagOf(t.power, flag) { assert Agree(s, t, FlagCell(flag)); }
    SamePower(s.power, t.power);
    SameFields(s, t);
  }

  /** One store by the poller. */
  datatype Store = SetField(field: Field, value: Number) | SetPower(flag: Flag, on: bool)

  function PerformOne(s: Status, w: Store): Status {
    match w
    case SetField(f, x) => Put(s, f, x)
    case SetPower(flag, on) => s.(power := SetFlag(s.power, flag, on))
  }

  function Perform(s: Status, ws: seq<Store>): Status
    decreases |ws|
  {
    if ws == [] then s else Perform(PerformOne(s, ws[0]), ws[1..])
  }

  lemma {:induction false} PerformMore(s: Status, a: seq<Store>, b: seq<Store>)
    ensures Perform(s, a + b) == Perform(Perform(s, a), b)
    decreases |a|
  {
    if a == [] {
      assert a + b == b;
    } else {
      assert (a + b)[1..] == a[1..] + b;
      PerformMore(PerformOne(s, a[0]), a[1..], b);
    }
  }

  const ALL_FLAGS: seq<Flag> :=
    [AcPresent, Charging, Discharging, FullyCharged, LowRuntimeFlag, LowBattery, Overload, Boost, Buck]

  lemma EveryFlag(flag: Flag)
    ensures flag in ALL_FLAGS
  {
  }

  function ClearStores(flags: seq<Flag>): seq<Store> {
    if flags == [] then [] else [SetPower(flags[0], false)] + ClearStores(flags[1..])
  }

  function SetStores(flags: seq<Flag>, power: Power): seq<Store> {
    if flags == [] then []
    else (if FlagOf(power, flags[0]) then [SetPower(flags[0], true)] else []) + SetStores(flags[1..], power)
  }

  lemma {:induction false} Cleared(s: Status, flags: seq<Flag>, flag: Flag)
    ensures var t := Perform(s, ClearStores(flags));
      FlagOf(t.power, flag) == (FlagOf(s.power, flag) && flag !in flags) && t == s.(power := t.power)
    decreases |flags|
  {
    if flags == [] {
    } else {
      var t := PerformOne(s, SetPower(flags[0], false));
      assert ClearStores(flags)[1..] == ClearStores(flags[1..]);
      FlagOfSetFlag(s.power, flags[0], false, flag);
      assert flag in flags <==> flag == flags[0] || flag in flags[1..];
      Cleared(t, flags[1..], flag);
    }
  }

  lemma {:induction false} WereSet(s: Status, flags: seq<Flag>, power: Power, flag: Flag)
    ensures var t := Perform(s, SetStores(flags, power));
      && FlagOf(t.power, flag) == (FlagOf(s.power, flag) || (flag in flags && FlagOf(power, flag)))
      && t == s.(power := t.power)
    decreases |flags|
  {
    if flags == [] {
    } else {
      var w := if FlagOf(power, flags[0]) then [SetPower(flags[0], true)] else [];
      PerformMore(s, w, SetStores(flags[1..], power));
      FlagOfSetFlag(s.power, flags[0], true, flag);
      WereSet(Perform(s, w), flags[1..], power, flag);
    }
  }

  /** `parse_nut_status` clears the nine flags and then sets those it finds. */
  function StatusStores(power: Power): seq<Store> {
    ClearStores(ALL_FLAGS) + SetStores(ALL_FLAGS, power)
  }

  lemma StatusStoresSetPower(s: Status, power: Power)
    ensures Perform(s, StatusStores(power)) == s.(power := power)
  {
    var t, u := Perform(s, ClearStores(ALL_FLAGS)), Perform(s, StatusStores(power));
    PerformMore(s, ClearStores(ALL_FLAGS), SetStores(ALL_FLAGS, power));
    forall flag ensures FlagOf(u.power, flag) == FlagOf(power, flag) {
      EveryFlag(flag);
      Cleared(s, ALL_FLAGS, flag);
      WereSet(t, ALL_FLAGS, power, flag);
    }
    SamePower(u.power, power);
    Cleared(s, ALL_FLAGS, Buck);
    WereSet(t, ALL_FLAGS, power, Buck);
  }

  /** The stores the update loop makes for one variable. */
  function StoresFor(name: string, value: string, stod: Stod): seq<Store> {
    match FieldOf(name)
    case Some(f) => (match stod(value) case None => [] case Some(x) => [SetField(f, x)])
    case None => if name == STATUS_NAME then StatusStores(ParseStatus(value)) else []
  }

  lemma StoresApply(s: Status, name: string, value: string, stod: Stod)
    ensures Perform(s, StoresFor(name, value, stod)) == Apply(s, name, value, stod)
  {
    if FieldOf(name).None? && name == STATUS_NAME {
      StatusStoresSetPower(s, ParseStatus(value));
    }
  }

  /** The stores of a whole poll, visiting the variables in the given order. */
  function PollStores(order: seq<string>, vars: map<string, string>, stod: Stod): seq<Store>
    requires forall n | n in order :: n in vars
  {
    if order == [] then [] else
    var last := order[|order| - 1];
    PollStores(order[..|order| - 1], vars, stod) + StoresFor(last, vars[last], stod)
  }

  lemma {:induction false} PollStoresApply(s: Status, order: seq<string>, vars: map<string, string>, stod: Stod)
    requires forall n | n in order :: n in vars
    ensures Perform(s, PollStores(order, vars, stod)) == ApplyAll(s, order, vars, stod)
    decreases |order|
  {
    if order == [] {
    } else {
      var front, last := order[..|order| - 1], order[|order| - 1];
      PollStoresApply(s, front, vars, stod);
      PerformMore(s, PollStores(front, vars, stod), StoresFor(last, vars[last], stod));
      StoresApply(ApplyAll(s, front, vars, stod), last, vars[last], stod);
    }
  }

  datatype Holder = Free | ByPoller | ByReader(reader: nat)

  /** A reader's local copy in the making. */
  datatype Copying = Copying(partial: Status, copied: set<Cell>)

  /** A finished read, and how many statuses had been committed by then, the initial one included. */
  datatype Snap = Snap(reader: nat, commits: nat, status: Status)

  /** `current_status` and `status_mutex` with the threads around them, and the history: the status each
      poll committed, the variables it merged, and every finished read. */
  datatype Shared = Shared(
    memory: Status, lock: Holder, todo: seq<Store>, local: map<nat, Copying>,
    committed: seq<Status>, polls: seq<map<string, string>>, snaps: seq<Snap>)

  datatype Action =
    | BeginPoll(order: seq<string>, vars: map<string, string>)
    | DoStore
    | EndPoll
    | BeginRead(reader: nat, garbage: Status)
    | LoadCell(reader: nat, cell: Cell)
    | EndRead(reader: nat)

  predicate Lists(order: seq<string>, vars: map<string, string>) {
    (set n | n in order) == vars.Keys && forall i, j | 0 <= i < j < |order| :: order[i] != order[j]
  }

  ghost predicate Complete(copied: set<Cell>) {
    forall cell: Cell :: cell in copied
  }

  /** The lock is only taken when it is free; stores and loads happen under it, in any order. */
  ghost predicate Enabled(m: Shared, a: Action) {
    match a
    case BeginPoll(order, vars) => m.lock == Free && Lists(order, vars)
    case DoStore => m.lock == ByPoller && m.todo != []
    case EndPoll => m.lock == ByPoller && m.todo == []
    case BeginRead(_, _) => m.lock == Free
    case LoadCell(r, _) => m.lock == ByReader(r) && r in m.local
    case EndRead(r) => m.lock == ByReader(r) && r in m.local && Complete(m.local[r].copied)
  }

  ghost function Step(m: Shared, a: Action, stod: Stod): Shared {
    if !Enabled(m, a) then m else
    match a
    case BeginPoll(order, vars) =>
      assert forall n | n in order :: n in (set k | k in order);
      m.(lock := ByPoller, todo := PollStores(order, vars, stod), polls := m.polls + [vars])
    case DoStore => m.(memory := PerformOne(m.memory, m.todo[0]), todo := m.todo[1..])
    case EndPoll => m.(lock := Free, committed := m.committed + [m.memory])
    case BeginRead(r, garbage) => m.(lock := ByReader(r), local := m.local[r := Copying(garbage, {})])
    case LoadCell(r, cell) =>
      var x := m.local[r];
      m.(local := m.local[r := Copying(CopyCell(x.partial, m.memory, cell), x.copied + {cell})])
    case EndRead(r) => m.(lock := Free, snaps := m.snaps + [Snap(r, |m.committed|, m.local[r].partial)])
  }

  ghost function Run(m: Shared, actions: seq<Action>, stod: Stod): Shared
    decreases |actions|
  {
    if actions == [] then m else Run(Step(m, actions[0], stod), actions[1..], stod)
  }

  function Boot(status: Status): Shared {
    Shared(status, Free, [], map[], [status], [], [])
  }

  /** The committed statuses are a chain of merges. */
  ghost predicate Chain(m: Shared, stod: Stod) {
    && |m.committed| > 0
    && |m.polls| == |m.committed| - (if m.lock == ByPoller then 0 else 1)
    && forall k | 0 <= k < |m.committed| - 1 :: Merged(m.committed[k], m.polls[k], stod, m.committed[k + 1])
  }

  /** While the poller holds the lock its remaining stores lead to the merged status; otherwise memory is
      what was committed last, and whatever a reader has copied so far is still so. */
  ghost predicate Current(m: Shared, stod: Stod)
    requires Chain(m, stod)
  {
    var last := m.committed[|m.committed| - 1];
    match m.lock
    case ByPoller => Merged(last, m.polls[|m.polls| - 1], stod, Perform(m.memory, m.todo))
    case Free => m.memory == last
    case ByReader(r) =>
      m.memory == last && r in m.local &&
      (forall cell | cell in m.local[r].copied :: Agree(m.local[r].partial, m.memory, cell))
  }

  ghost predicate Whole(m: Shared) {
    && (forall s | s in m.snaps :: 0 < s.commits <= |m.committed| && s.status == m.committed[s.commits - 1])
    && forall i, j | 0 <= i <= j < |m.snaps| :: m.snaps[i].commits <= m.snaps[j].commits
  }

  ghost predicate Inv(m: Shared, stod: Stod) {
    Chain(m, stod) && Current(m, stod) && Whole(m)
  }

  lemma PollLeadsToMerge(s: Status, order: seq<string>, vars: map<string, string>, stod: Stod)
    requires Lists(order, vars)
    ensures forall n | n in order :: n in vars
    ensures Merged(s, vars, stod, Perform(s, PollStores(order, vars, stod)))
  {
    assert forall n | n in order :: n in (set k | k in order);
    PollStoresApply(s, order, vars, stod);
    ApplyAllMerges(s, order, vars, stod);
    assert forall n :: n in (set k | k in order) <==> n in vars.Keys;
    assert (map n | n in order :: vars[n]) == vars;
  }

  lemma LoadKeeps(partial: Status, memory: Status, copied: set<Cell>, cell: Cell)
    requires forall x | x in copied :: Agree(partial, memory, x)
    ensures forall x | x in copied + {cell} :: Agree(CopyCell(partial, memory, cell), memory, x)
  {
    forall x | x in copied + {cell} ensures Agree(CopyCell(partial, memory, cell), memory, x) {
      CopyAgrees(partial, memory, cell, x);
    }
  }

  lemma StepKeepsInv(m: Shared, a: Action, stod: Stod)
    requires Inv(m, stod)
    ensures Inv(Step(m, a, stod), stod)
  {
    if Enabled(m, a) {
      match a
      case BeginPoll(order, vars) => PollLeadsToMerge(m.memory, order, vars, stod);
      case BeginRead(_, _) => ReadKeepsInv(m, a, stod);
      case LoadCell(_, _) => ReadKeepsInv(m, a, stod);
      case EndRead(_) => ReadKeepsInv(m, a, stod);
      case _ =>
    }
  }

  lemma ReadKeepsInv(m: Shared, a: Action, stod: Stod)
    requires Inv(m, stod) && Enabled(m, a) && (a.BeginRead? || a.LoadCell? || a.EndRead?)
    ensures Inv(Step(m, a, stod), stod)
  {
    match a
    case BeginRead(_, _) =>
    case LoadCell(r, cell) => LoadKeeps(m.local[r].partial, m.memory, m.local[r].copied, cell);
    case EndRead(r) =>
      forall cell: Cell ensures Agree(m.local[r].partial, m.memory, cell) {
        assert cell in m.local[r].copied;
      }
      AllCells(m.local[r].partial, m.memory);
  }

  lemma {:induction false} RunKeepsInv(m: Shared, actions: seq<Action>, stod: Stod)
    requires Inv(m, stod)
    ensures Inv(Run(m, actions, stod), stod)
    decreases |actions|
  {
    if actions == [] {
    } else {
      StepKeepsInv(m, actions[0], stod);
      RunKeepsInv(Step(m, actions[0], stod), actions[1..], stod);
    }
  }

  /** Snapshot reads: however stores and loads interleave, every report 2 is built from one status that
      was committed as a whole, reads never go back in time, and every committed status is the merge of
      one poll into the one before it. */
  lemma ReportsComeFromCommittedStatuses(initial: Status, actions: seq<Action>, stod: Stod, i: nat)
    requires i < |Run(Boot(initial), actions, stod).snaps|
    ensures var m := Run(Boot(initial), actions, stod);
      var snap := m.snaps[i];
      && 0 < snap.commits <= |m.committed| && FullReport(snap.status, 2) == UpsReport(m.committed[snap.commits - 1])
      && (i > 0 ==> m.snaps[i - 1].commits <= snap.commits)
      && m.committed[0] == initial && |m.polls| >= |m.committed| - 1
      && forall k | 0 <= k < |m.committed| - 1 :: Merged(m.committed[k], m.polls[k], stod, m.committed[k + 1])
  {
    var m := Run(Boot(initial), actions, stod);
    RunKeepsInv(Boot(initial), actions, stod);
    assert m.snaps[i] in m.snaps;
    FirstCommit(Boot(initial), actions, stod);
  }

  lemma {:induction false} FirstCommit(m: Shared, actions: seq<Action>, stod: Stod)
    requires m.committed != []
    ensures Run(m, actions, stod).committed != [] && Run(m, actions, stod).committed[0] == m.committed[0]
    decreases |actions|
  {
    if actions == [] {
    } else {
      FirstCommit(Step(m, actions[0], stod), actions[1..], stod);
    }
  }

  /** What the lock rules out: a copy with one cell from before a poll and another from after it is
      neither status, if the poll changed both cells. */
  lemma MixedCopyIsNeither(before: Status, after: Status, early: Cell, late: Cell)
    requires !Agree(before, after, early) && !Agree(before, after, late) && early != late
    ensures var mixed := CopyCell(before, after, late); mixed != before && mixed != after
  {
    CopyAgrees(before, after, late, early);
    CopyAgrees(before, after, late, late);
  }
}
