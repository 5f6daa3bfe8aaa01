/** The polling side of `UPSDevice`: when NUT is asked for everything, and what is kept in between. */
module UpsDevice {
  import opened StatusTokens
  import opened UpsStatus
  import opened Refresh

  /** `full_query_interval`, in milliseconds of the steady clock. */
  const FULL_QUERY_INTERVAL := 60_000

  /** What the NUT server answers during one poll: `GET VAR ups.status`, `LIST VAR`, and on battery
      `GET VAR battery.charge` and `GET VAR battery.runtime`. A failed GET reads as the empty string. */
  datatype Answers = Answers(status: string, list: map<string, string>, charge: string, runtime: string)

  datatype Poll = Poll(now: int, nut: Answers)

  /** The fields the poller keeps between polls. */
  datatype Cache = Cache(status: Status, lastStatus: string, lastFull: int)

  predicate FullQuery(c: Cache, p: Poll) {
    p.now - c.lastFull >= FULL_QUERY_INTERVAL || p.nut.status != c.lastStatus
  }

  /** The variables one poll fetches. */
  function Fetched(c: Cache, p: Poll): map<string, string> {
    if FullQuery(c, p) then
      if STATUS_NAME in p.nut.list then p.nut.list else p.nut.list[STATUS_NAME := p.nut.status]
    else if Contains(p.nut.status, "OB") then
      map["battery.charge" := p.nut.charge, "battery.runtime" := p.nut.runtime]
    else map[]
  }

  ghost predicate Polled(c: Cache, p: Poll, stod: Stod, d: Cache) {
    && Merged(c.status, Fetched(c, p), stod, d.status)
    && d.lastStatus == (if FullQuery(c, p) then p.nut.status else c.lastStatus)
    && d.lastFull == (if FullQuery(c, p) then p.now else c.lastFull)
  }

  /** A history of polls: `cs[i]` is the cache before poll `i`. */
  ghost predicate History(cs: seq<Cache>, ps: seq<Poll>, stod: Stod) {
    |cs| == |ps| + 1 && forall i | 0 <= i < |ps| :: Polled(cs[i], ps[i], stod, cs[i + 1])
  }

  /** `LIST VAR` announces the same flags as the `GET VAR ups.status` just before it. */
  predicate Coherent(p: Poll) {
    STATUS_NAME in p.nut.list ==> ParseStatus(p.nut.list[STATUS_NAME]) == ParseStatus(p.nut.status)
  }

  class UPSDevice {
    var currentStatus: Status
    var lastStatus: string
    var lastFullQueryTime: int

    ghost function View(): Cache
      reads this
    {
      Cache(currentStatus, lastStatus, lastFullQueryTime)
    }

    constructor (initial: Status, now: int)
      ensures View() == Cache(initial, "", now)
    {
      currentStatus, lastStatus, lastFullQueryTime := initial, "", now;
    }

    /** The nine flags, cleared and then set one search at a time. */
    method ParseNutStatus(nutStatus: string)
      modifies this`currentStatus
      ensures currentStatus == old(currentStatus).(power := ParseStatus(nutStatus))
    {
      var power := Power(false, false, false, false, false, false, false, false, false);
      if Announces(nutStatus, "OL") {
        power := power.(acPresent := true);
      } else if Announces(nutStatus, "OB") {
        power := power.(discharging := true);
      }
      if Announces(nutStatus, "CHRG") { power := power.(charging := true); }
      if Announces(nutStatus, "DISCHRG") { power := power.(discharging := true); }
      if Announces(nutStatus, "LB") { power := power.(lowBattery := true); }
      if Announces(nutStatus, "OVER") { power := power.(overload := true); }
      if Announces(nutStatus, "BOOST") { power := power.(boost := true); }
      if Announces(nutStatus, "BUCK") { power := power.(buck := true); }
      if Announces(nutStatus, "FSD") { power := power.(lowRuntime := true); }
      currentStatus := currentStatus.(power := power);
    }

    method GetStatusFromNut(now: int, nut: Answers) returns (vars: map<string, string>)
      modifies this`lastStatus, this`lastFullQueryTime
      ensures vars == old(Fetched(View(), Poll(now, nut)))
      ensures old(FullQuery(View(), Poll(now, nut))) ==> lastStatus == nut.status && lastFullQueryTime == now
      ensures !old(FullQuery(View(), Poll(now, nut))) ==> unchanged(this)
    {
      var force := now - lastFullQueryTime >= FULL_QUERY_INTERVAL;
      if force || nut.status != lastStatus {
        lastStatus, lastFullQueryTime := nut.status, now;
        vars := nut.list;
        if STATUS_NAME !in vars {
          vars := vars[STATUS_NAME := nut.status];
        }
      } else if Contains(nut.status, "OB") {
        vars := map["battery.charge" := nut.charge, "battery.runtime" := nut.runtime];
      } else {
        vars := map[];
      }
    }

    /** One variable of the update loop. */
    method ApplyVariable(name: string, value: string, stod: Stod)
      modifies this`currentStatus
      ensures currentStatus == Apply(old(currentStatus), name, value, stod)
    {
      match FieldOf(name)
      case Some(f) =>
        match stod(value) {
          case None =>
          case Some(x) => currentStatus := Put(currentStatus, f, x);
        }
      case None =>
        if name == STATUS_NAME {
          ParseNutStatus(value);
        }
    }

    /** The update loop, visiting the variables in no particular order. */
    method MergeVariables(vars: map<string, string>, stod: Stod)
      modifies this`currentStatus
      ensures Merged(old(currentStatus), vars, stod, currentStatus)
    {
      var todo := vars.Keys;
      assert vars - todo == map[];
      while todo != {}
        invariant todo <= vars.Keys
        invariant Merged(old(currentStatus), vars - todo, stod, currentStatus)
        decreases |todo|
      {
        var name :| name in todo;
        ghost var seen, was := vars - todo, currentStatus;
        assert vars - (todo - {name}) == seen[name := vars[name]];
        ApplyVariable(name, vars[name], stod);
        MergeOneMore(old(currentStatus), seen, name, vars[name], stod, was);
        todo := todo - {name};
      }
      assert vars - todo == vars;
    }

    /** One turn of `update_status_loop`. */
    method PollOnce(now: int, nut: Answers, stod: Stod)
      modifies this
      ensures Polled(old(View()), Poll(now, nut), stod, View())
    {
      var vars := GetStatusFromNut(now, nut);
      if |vars| > 0 {
        MergeVariables(vars, stod);
      }
    }
  }

  /** The flags are those of the last status the cache remembers. */
  predicate Synced(c: Cache) {
    c.status.power == ParseStatus(c.lastStatus)
  }

  lemma PollSyncs(c: Cache, p: Poll, stod: Stod, d: Cache)
    requires Polled(c, p, stod, d)
    ensures d.lastStatus == p.nut.status
    ensures Synced(d) <==> if FullQuery(c, p) then Coherent(p) else Synced(c)
  {
  }

  /** The cache agrees with always querying: after every poll, even one that skipped the query, the
      flags are those of the status just fetched, exactly when the last full query was coherent. */
  lemma {:induction false} CacheAgreesWithQuerying(cs: seq<Cache>, ps: seq<Poll>, stod: Stod, last: nat)
    requires History(cs, ps, stod)
    requires last < |ps| && FullQuery(cs[last], ps[last])
    requires forall i | last < i < |ps| :: !FullQuery(cs[i], ps[i])
    ensures cs[|ps|].status.power == ParseStatus(ps[|ps| - 1].nut.status) <==> Coherent(ps[last])
    decreases |ps|
  {
    var n := |ps| - 1;
    PollSyncs(cs[n], ps[n], stod, cs[n + 1]);
    if last >= n {
    } else {
      CacheAgreesWithQuerying(cs[..n + 1], ps[..n], stod, last);
      PollSyncs(cs[n - 1], ps[n - 1], stod, cs[n]);
    }
  }

  /** The poll of a UPS that loses power between the two questions of a full query. */
  function PowerLost(now: int): Poll {
    Poll(now, Answers("OL", map[STATUS_NAME := "OB"], "", ""))
  }

  /** It is remembered as one that found the UPS on line, with the flags of one on battery. */
  lemma CacheCanDisagree(c: Cache, now: int, stod: Stod, d: Cache)
    requires FullQuery(c, PowerLost(now)) && Polled(c, PowerLost(now), stod, d)
    ensures d.lastStatus == "OL" && d.status.power == ParseStatus("OB") != ParseStatus("OL")
  {
    ParseStatusIsFlagsOf("OL");
    ParseStatusIsFlagsOf("OB");
    TokensOfWord("OL");
    TokensOfWord("OB");
  }

  /** After every poll the last full query is less than a minute old. */
  lemma {:induction false} FullQueryIsRecent(cs: seq<Cache>, ps: seq<Poll>, stod: Stod, n: nat)
    requires History(cs, ps, stod) && n < |ps|
    requires cs[0].lastFull <= ps[0].now && forall i | 0 < i < |ps| :: ps[i - 1].now <= ps[i].now
    ensures 0 <= ps[n].now - cs[n + 1].lastFull < 60_000
  {
    assert Polled(cs[n], ps[n], stod, cs[n + 1]);
    if n == 0 {
    } else {
      FullQueryIsRecent(cs, ps, stod, n - 1);
    }
  }

  /** On battery a skipped query still refreshes charge and runtime, and touches nothing else. */
  lemma QuickPollRefreshes(c: Cache, p: Poll, stod: Stod, d: Cache, f: Field)
    requires Polled(c, p, stod, d) && !FullQuery(c, p) && Contains(p.nut.status, "OB")
    ensures stod(p.nut.charge).Some? ==> Get(d.status, BatteryCharge) == Stored(BatteryCharge, stod(p.nut.charge).value)
    ensures stod(p.nut.runtime).Some? ==>
      Get(d.status, BatteryRuntime) == Stored(BatteryRuntime, stod(p.nut.runtime).value)
    ensures f != BatteryCharge && f != BatteryRuntime ==> Get(d.status, f) == Get(c.status, f)
    ensures d.status.power == c.status.power
  {
  }

  /** The listing, with the status asked for just before when it has none itself. */
  function WithStatus(list: map<string, string>, status: string): map<string, string> {
    if "ups.status" in list then list else list["ups.status" := status]
  }

  /** What one poll does. A minute after the last full query, or when the status is another one, everything listed
      is stored; otherwise on battery the charge and the runtime are, and in all other cases nothing changes. */
  lemma PollRule(c: Cache, p: Poll, stod: Stod, d: Cache)
    requires Polled(c, p, stod, d)
    ensures if p.now - c.lastFull >= 60_000 || p.nut.status != c.lastStatus then
        && d.lastStatus == p.nut.status && d.lastFull == p.now
        && Refreshed(c.status, WithStatus(p.nut.list, p.nut.status), stod, d.status)
      else
        && d.lastStatus == c.lastStatus && d.lastFull == c.lastFull
        && if Contains(p.nut.status, "OB") then
             Refreshed(c.status, map["battery.charge" := p.nut.charge, "battery.runtime" := p.nut.runtime], stod,
                       d.status)
           else d == c
  {
    var vars := Fetched(c, p);
    MergeRefreshes(c.status, vars, stod, d.status);
    if !FullQuery(c, p) && !Contains(p.nut.status, "OB") {
      forall f: Field ensures Get(d.status, f) == Get(c.status, f) {
        assert Get(d.status, f) == MergedField(c.status, vars, stod, f);
      }
      SameFields(d.status, c.status);
    }
  }
}
