/** Which runs end in a fault: those in which a client leaves while requests it made under one number
    overlap. */
module EngineFaults {
  import opened Bytes
  import opened Engine
  import opened EngineMemory
  import opened EngineIsolation
  import opened EngineOwnership
  import opened EngineHistory

  /** A running timer whose client is gone. */
  predicate HasOrphan(s: State) {
    exists i | i in s.armed :: s.armed[i].client !in s.clients
  }

  /** A connection's timers are all in its map exactly when, by its own log, none of its requests overlap:
      no number was submitted again before an earlier timer for it had fired, with one of the two timers
      running still. */
  lemma TidyExactlyWhen(s: State, c: nat)
    requires Recorded(s, c) && c in s.clients
    ensures Tidy(s, c) <==> !Overlaps(BookOf(s.logs[c]))
  {
    var b := BookOf(s.logs[c]);
    NamedExactlyWhen(b, s.nextTimer);
    if Tidy(s, c) {
      forall a | a in b.running ensures IsNamed(b, a) {
        assert a.timer in s.armed;
      }
    } else {
      var i :| i in s.armed && s.armed[i].client == c &&
        !(s.armed[i].seqnum in b.named && b.named[s.armed[i].seqnum] == i);
      assert Alarm(i, s.armed[i].seqnum) in b.running;
    }
  }

  /** A client's connection goes down while requests of it overlap. */
  predicate Abandons(s: State, e: Event) {
    e.CloseCallback? && Enabled(s, e) && e.client in s.logs && Overlaps(BookOf(s.logs[e.client]))
  }

  predicate LeavesSome(s: State, es: seq<Event>)
    decreases |es|
  {
    es != [] && (Abandons(s, es[0]) || LeavesSome(Step(s, es[0]), es[1..]))
  }

  /** A close leaves timers behind exactly when the client was not tidy. */
  lemma CloseOrphans(s: State, c: nat)
    requires Sound(s) && c in s.clients
    ensures HasOrphan(Close(s, c)) <==> HasOrphan(s) || !Tidy(s, c)
  {
    var t, ids := Close(s, c), s.clients[c].pending.Values;
    CloseShape(s, c);
    if HasOrphan(s) {
      var i :| i in s.armed && s.armed[i].client !in s.clients;
      assert i !in ids;
      assert i in t.armed;
    } else if !Tidy(s, c) {
      var i :| i in s.armed && s.armed[i].client == c &&
        !(s.armed[i].seqnum in s.clients[c].pending && s.clients[c].pending[s.armed[i].seqnum] == i);
      assert i !in ids;
      assert i in t.armed;
    }
    if HasOrphan(t) && Tidy(s, c) {
      var i :| i in t.armed && t.armed[i].client !in t.clients;
      assert i in s.armed && i !in ids;
    }
  }

  /** Reading leaves the timers of the connections that are gone as they are. */
  lemma RecvOrphans(s: State, c: nat, chunk: seq<Byte>)
    requires Sound(s) && Open(s, c)
    ensures HasOrphan(Serve(Buffered(s, c, chunk), c)) <==> HasOrphan(s)
  {
    var t := Serve(Buffered(s, c, chunk), c);
    ParserSound(s, c, s.clients[c].parser.(buf := s.clients[c].parser.buf + chunk));
    ServeSound(Buffered(s, c, chunk), c);
    forall d: nat | d != c ensures Untouched(s, t, d) {
      RecvOthers(s, c, chunk, d);
    }
    if HasOrphan(s) {
      var i :| i in s.armed && s.armed[i].client !in s.clients;
      assert Untouched(s, t, s.armed[i].client);
      assert i in t.armed;
    }
    if HasOrphan(t) {
      var i :| i in t.armed && t.armed[i].client !in t.clients;
      assert Untouched(s, t, t.armed[i].client);
      assert i in s.armed;
    }
  }

  lemma ExpireOrphans(s: State, i: nat)
    requires i in s.armed && s.armed[i].client in s.clients
    ensures HasOrphan(Expire(s, i)) <==> HasOrphan(s)
  {
    var t := Expire(s, i);
    assert t.clients.Keys == s.clients.Keys && t.armed == s.armed - {i};
    if HasOrphan(s) {
      var j :| j in s.armed && s.armed[j].client !in s.clients;
      assert j in t.armed;
    }
  }

  lemma ArriveOrphans(s: State, accepted: bool)
    requires Sound(s)
    ensures HasOrphan(Arrive(s, accepted)) <==> HasOrphan(s)
  {
    var t := Arrive(s, accepted);
    assert t.armed == s.armed && t.clients.Keys == s.clients.Keys + {s.nextClient};
  }

  /** One step: a fault has happened or is bound to, afterwards, if that was so before or a client leaves
      overlapping requests. */
  lemma StepOrphans(s: State, e: Event)
    requires AllRecorded(s)
    ensures var t := Step(s, e); t.fault || HasOrphan(t) <==> s.fault || HasOrphan(s) || Abandons(s, e)
  {
    StepFaults(s, e);
    if Enabled(s, e) {
      match e
      case Connect(accepted) => ArriveOrphans(s, accepted);
      case Recv(c, chunk) => RecvOrphans(s, c, chunk);
      case CloseCallback(c) =>
        assert Recorded(s, c);
        TidyExactlyWhen(s, c);
        CloseOrphans(s, c);
      case Fire(i) => if s.armed[i].client in s.clients { ExpireOrphans(s, i); }
      case Eof(c) => assert HangUp(s, c).clients.Keys == s.clients.Keys;
      case Stop => assert StopAll(s).clients.Keys == s.clients.Keys;
      case _ =>
    }
  }

  lemma {:induction false} RunOrphans(s: State, es: seq<Event>)
    requires AllRecorded(s)
    ensures var t := Run(s, es); t.fault || HasOrphan(t) <==> s.fault || HasOrphan(s) || LeavesSome(s, es)
    decreases |es|
  {
    if es == [] {
    } else {
      StepOrphans(s, es[0]);
      StepRecorded(s, es[0]);
      RunOrphans(Step(s, es[0]), es[1..]);
    }
  }

  /** Over every run from the start: a timer has reached a released context, or one is still running that
      will, if and only if some client's connection went down while requests it had made under one number
      overlapped. Once the timers of the gone clients have fired, that is to say: the run made a fault if
      and only if some client did that. */
  lemma FaultExactlyWhen(device: Device, status: UpsStatus.Status, es: seq<Event>)
    ensures var s := Init(device, status);
      var t := Run(s, es);
      && (t.fault || HasOrphan(t) <==> LeavesSome(s, es))
      && (t.armed == map[] ==> (t.fault <==> LeavesSome(s, es)))
  {
    InitSound(device, status);
    RunOrphans(Init(device, status), es);
  }

  /** Reusing a number is no fault when the client stays: its own log says so in any run. */
  lemma TidyInEveryRun(device: Device, status: UpsStatus.Status, es: seq<Event>, c: nat)
    requires c in Run(Init(device, status), es).clients
    ensures var t := Run(Init(device, status), es);
      c in t.logs && (Tidy(t, c) <==> !Overlaps(BookOf(t.logs[c])))
  {
    EveryRunIsRecorded(device, status, es);
    assert Recorded(Run(Init(device, status), es), c);
    TidyExactlyWhen(Run(Init(device, status), es), c);
  }
}
