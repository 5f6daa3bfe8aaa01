/** Stopping for good: what `stop` leaves behind. */
module EngineStop {
  import opened Bytes
  import opened Engine
  import opened EngineMemory

  /** No connection is accepted any more, and every one there is is going down. */
  predicate Stopped(s: State) {
    !s.running && s.listed == {} && forall c | c in s.clients :: s.clients[c].closing
  }

  /** What was written on a connection, if there is one. */
  function Sent(s: State, c: nat): seq<Byte> {
    if c in s.logs then Written(s.logs[c]) else []
  }

  lemma StopStops(s: State)
    requires Sound(s) && s.running
    ensures Stopped(Step(s, Stop))
  {
  }

  lemma QuietEntry(s: State, c: nat, e: Entry)
    requires EntryBytes(e) == []
    ensures forall d :: Sent(Log(s, c, e), d) == Sent(s, d)
  {
    NoBytes(if c in s.logs then s.logs[c] else [], e);
  }

  lemma NoBytes(log: seq<Entry>, e: Entry)
    requires EntryBytes(e) == []
    ensures Written(log + [e]) == Written(log)
  {
    assert (log + [e])[..|log|] == log;
    assert Written(log + [e]) == Written(log) + [];
  }

  lemma StoppedStep(s: State, e: Event)
    requires Stopped(s)
    ensures var t := Step(s, e);
      Stopped(t) && t.nextClient == s.nextClient && t.nextTimer == s.nextTimer && forall c :: Sent(t, c) == Sent(s, c)
  {
    if Enabled(s, e) {
      match e
      case CloseCallback(c) => StoppedClose(s, c);
      case Fire(i) => StoppedFire(s, i);
      case FreeTimer(_) =>
      case Tick(_) =>
      case Poll(_) =>
    }
  }

  lemma StoppedClose(s: State, c: nat)
    requires Stopped(s) && c in s.clients
    ensures var t := Close(s, c);
      Stopped(t) && t.nextClient == s.nextClient && t.nextTimer == s.nextTimer && forall c :: Sent(t, c) == Sent(s, c)
  {
    QuietEntry(s, c, Dropped(s.clients[c].pending.Keys));
  }

  lemma StoppedFire(s: State, i: nat)
    requires Stopped(s) && i in s.armed
    ensures var t := Expire(s, i);
      Stopped(t) && t.nextClient == s.nextClient && t.nextTimer == s.nextTimer && forall c :: Sent(t, c) == Sent(s, c)
  {
    if s.armed[i].client in s.clients {
      QuietEntry(s, s.armed[i].client, Swallowed(s.armed[i].seqnum, s.now));
    }
  }

  lemma {:induction false} StoppedRun(s: State, es: seq<Event>)
    requires Stopped(s)
    ensures var t := Run(s, es);
      Stopped(t) && t.nextClient == s.nextClient && t.nextTimer == s.nextTimer && forall c :: Sent(t, c) == Sent(s, c)
    decreases |es|
  {
    if es == [] {
    } else {
      StoppedStep(s, es[0]);
      StoppedRun(Step(s, es[0]), es[1..]);
    }
  }

  /** Once a running server was stopped, whatever happens then: no connection is accepted, no request is taken, no
      byte is written, and every connection that is left is closing. */
  lemma StoppedForGood(device: Device, status: UpsStatus.Status, es: seq<Event>, more: seq<Event>)
    requires Run(Init(device, status), es).running
    ensures var s := Run(Init(device, status), es);
      var t := Run(Step(s, Stop), more);
      && t.nextClient == s.nextClient && t.nextTimer == s.nextTimer && t.listed == {}
      && (forall c | c in t.clients :: t.clients[c].closing)
      && forall c :: Sent(t, c) == Sent(s, c)
  {
    var s := Run(Init(device, status), es);
    InitSound(device, status);
    RunSound(Init(device, status), es);
    StopStops(s);
    StopSends(s);
    StoppedRun(Step(s, Stop), more);
  }

  lemma StopSends(s: State)
    requires s.running
    ensures var t := Step(s, Stop);
      t.nextClient == s.nextClient && t.nextTimer == s.nextTimer && forall c :: Sent(t, c) == Sent(s, c)
  {
    forall c ensures Sent(Step(s, Stop), c) == Sent(s, c) {
      if c in s.logs {
        NoBytes(s.logs[c], HungUp);
      }
    }
  }
}
