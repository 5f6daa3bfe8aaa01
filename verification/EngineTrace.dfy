/** Every connection's log, in every run, is the life of a first-in first-out queue of requests. */
module EngineTrace {
  import opened Bytes
  import opened Wire
  import opened Parser
  import opened Engine
  import opened EngineMemory
  import opened EngineIsolation
  import opened EngineOwnership
  import opened RequestLog

  /** Timers are started with one delay on one clock, so their start order is their deadline order. */
  predicate Ordered(s: State) {
    && (forall i, j | i in s.armed && j in s.armed && i <= j :: s.armed[i].deadline <= s.armed[j].deadline)
    && forall i | i in s.armed :: s.armed[i].deadline <= s.now + NAK_DELAY
  }

  /** Requests in the order their timers were started, each with its own entry in the client's map. */
  predicate InMap(pending: map<U32, nat>, q: seq<Request>) {
    && (forall j, k :: 0 <= j < k < |q| ==> q[j].timer < q[k].timer)
    && forall k | 0 <= k < |q| :: q[k].seqnum in pending && pending[q[k].seqnum] == q[k].timer
  }

  /** A client's map and timers stand for a queue: the same requests, with their timers running. */
  predicate Queued(pending: map<U32, nat>, armed: map<nat, Timer>, q: seq<Request>) {
    && InMap(pending, q)
    && (forall k | 0 <= k < |q| :: q[k].timer in armed && armed[q[k].timer].deadline == q[k].at + NAK_DELAY)
    && forall n | n in pending :: Waiting(q, n)
  }

  /** The log of connection `c` is legal and agrees with what the server keeps for it. */
  predicate Tracks(s: State, c: nat) {
    && c in s.logs && Legal(s.logs[c])
    && var t := Replay(s.logs[c]).value;
       if c in s.clients then
         t.hung == s.clients[c].closing && !t.ended && Queued(s.clients[c].pending, s.armed, t.queue)
       else t.ended
  }

  /** Every connection there has been has a log. */
  predicate Logged(s: State) {
    (forall c: nat | c in s.logs :: c < s.nextClient) && forall c | 0 <= c < s.nextClient :: c in s.logs
  }

  /** Every connection's log keeps in step, as long as it has not reused a pending number itself. */
  ghost predicate Traced(s: State) {
    && Ordered(s)
    && (forall c: nat :: c < s.nextClient && c !in s.reusers ==> Tracks(s, c))
    && Logged(s)
  }

  /** A connection that a step does not touch stays in step with its log. */
  lemma UntouchedTracks(s: State, t: State, c: nat)
    requires Named(s) && Tracks(s, c) && Untouched(s, t, c)
    ensures Tracks(t, c)
  {
  }

  /** Handing a client a new parser changes nothing here. */
  lemma ParserTracks(s: State, c: nat, p: Parser)
    requires Tracks(s, c) && c in s.clients
    ensures Tracks(WithClient(s, c, s.clients[c].(parser := p)), c)
  {
  }

  /** The queue after one more entry, when the entry leaves client and timers alone. */
  lemma LogTracks(s: State, c: nat, e: Entry)
    requires Tracks(s, c) && c in s.clients
    requires Follow(Replay(s.logs[c]).value, e) == Replay(s.logs[c])
    ensures Tracks(Log(s, c, e), c)
  {
  }

  lemma HangUpTracks(s: State, c: nat)
    requires Tracks(s, c) && Open(s, c)
    ensures Tracks(HangUp(s, c), c)
  {
  }

  lemma QueuedMore(pending: map<U32, nat>, armed: map<nat, Timer>, q: seq<Request>, r: Request, x: Timer)
    requires Queued(pending, armed, q) && r.seqnum !in pending && x.deadline == r.at + NAK_DELAY
    requires forall i | i in armed :: i < r.timer
    ensures Queued(pending[r.seqnum := r.timer], armed[r.timer := x], q + [r])
  {
    var more, p := q + [r], pending[r.seqnum := r.timer];
    assert forall k | 0 <= k < |q| :: more[k] == q[k];
    forall n | n in p ensures Waiting(more, n) {
      if n == r.seqnum {
        assert more[|q|].seqnum == n;
      } else {
        var k :| 0 <= k < |q| && q[k].seqnum == n;
        assert more[k].seqnum == n;
      }
    }
  }

  lemma InMapLess(pending: map<U32, nat>, q: seq<Request>, at: nat)
    requires InMap(pending, q) && at < |q|
    ensures InMap(pending - {q[at].seqnum}, Removed(q, at))
    ensures forall k | 0 <= k < |Removed(q, at)| :: Removed(q, at)[k] in q && Removed(q, at)[k].timer != q[at].timer
  {
  }

  lemma QueuedLess(pending: map<U32, nat>, armed: map<nat, Timer>, q: seq<Request>, at: nat)
    requires Queued(pending, armed, q) && at < |q|
    ensures Queued(pending - {q[at].seqnum}, armed - {q[at].timer}, Removed(q, at))
  {
    InMapLess(pending, q, at);
    forall n | n in pending - {q[at].seqnum} ensures Waiting(Removed(q, at), n) {
      WaitingLess(q, at, n);
    }
  }

  lemma WaitingLess(q: seq<Request>, at: nat, n: U32)
    requires at < |q| && Waiting(q, n) && n != q[at].seqnum
    ensures Waiting(Removed(q, at), n)
  {
    var k :| 0 <= k < |q| && q[k].seqnum == n;
    assert k != at;
    assert Removed(q, at)[if k < at then k else k - 1] == q[k];
  }

  lemma ParkTracks(s: State, c: nat, cmd: Command)
    requires Sound(s) && Tracks(s, c) && Open(s, c) && IsInterrupt(cmd)
    requires cmd.header.seqnum !in s.clients[c].pending
    ensures Tracks(Park(s, c, cmd), c)
  {
    var tr := Replay(s.logs[c]).value;
    ReplayNext(s.logs[c], Parked(cmd, s.nextTimer, s.now));
    var r := Request(cmd.header.seqnum, s.now, s.nextTimer);
    QueuedMore(s.clients[c].pending, s.armed, tr.queue, r, Timer(c, r.seqnum, s.now + NAK_DELAY));
  }

  /** An UNLINK is answered by whether its target is still in the queue. */
  lemma UnlinkTracks(s: State, c: nat, cmd: Command)
    requires Sound(s) && Tracks(s, c) && Open(s, c) && cmd.Unlink?
    ensures Tracks(Handle(s, c, cmd), c)
  {
    var tr, n := Replay(s.logs[c]).value, cmd.target;
    var e := Answered(cmd, RetUnlink(cmd.seqnum, UnlinkStatus(s.clients[c], n)));
    ReplayNext(s.logs[c], e);
    assert Waiting(tr.queue, n) <==> n in s.clients[c].pending;
    if n in s.clients[c].pending {
      QueuedLess(s.clients[c].pending, s.armed, tr.queue, Position(tr.queue, n));
    }
  }

  /** libuv picks the head of its client's queue. */
  lemma DueIsOldest(s: State, i: nat)
    requires Ordered(s) && Due(s, i) && Tidy(s, s.armed[i].client) && Tracks(s, s.armed[i].client)
    ensures var q := Replay(s.logs[s.armed[i].client]).value.queue;
      q != [] && q[0].timer == i && q[0].seqnum == s.armed[i].seqnum && q[0].at + NAK_DELAY <= s.now
  {
  }

  lemma {:induction false} SmallestOf(ids: set<nat>) returns (i: nat)
    requires ids != {}
    ensures i in ids && forall j | j in ids :: i <= j
    decreases ids
  {
    var k :| k in ids;
    var below := set j | j in ids && j < k;
    if below == {} {
      i := k;
      forall j | j in ids ensures i <= j { assert j < k ==> j in below; }
    } else {
      i := SmallestOf(below);
      forall j | j in ids ensures i <= j { assert j < k ==> j in below; }
    }
  }

  /** No expired request is stuck: once any timer's time has come, libuv has one it will fire. */
  lemma SomeTimerIsDue(s: State, i: nat) returns (j: nat)
    requires Ordered(s) && i in s.armed && s.armed[i].deadline <= s.now
    ensures Due(s, j)
  {
    j := SmallestOf(s.armed.Keys);
  }

  lemma ExpireTracks(s: State, i: nat)
    requires Ordered(s) && Due(s, i) && Tidy(s, s.armed[i].client) && Tracks(s, s.armed[i].client)
    ensures Tracks(Expire(s, i), s.armed[i].client)
  {
    var Timer(c, n, _) := s.armed[i];
    var tr, x, t := Replay(s.logs[c]).value, s.clients[c], Expire(s, i);
    DueIsOldest(s, i);
    ExpireQueue(x.pending, s.armed, tr.queue);
    var e := if x.closing then Swallowed(n, s.now) else Nak(n, s.now);
    assert t.logs[c] == s.logs[c] + [e];
    ReplayNext(s.logs[c], e);
    assert Follow(tr, e) == Some(tr.(queue := tr.queue[1..]));
  }

  lemma ExpireQueue(pending: map<U32, nat>, armed: map<nat, Timer>, q: seq<Request>)
    requires Queued(pending, armed, q) && q != []
    ensures Queued(pending - {q[0].seqnum}, armed - {q[0].timer}, q[1..])
  {
  }

  lemma CloseTracks(s: State, c: nat)
    requires Tracks(s, c) && c in s.clients && s.clients[c].closing
    ensures Tracks(Close(s, c), c)
  {
    var q := Replay(s.logs[c]).value.queue;
    ReplayNext(s.logs[c], Dropped(s.clients[c].pending.Keys));
    assert s.clients[c].pending.Keys == (set r | r in q :: r.seqnum) by {
      forall n | n in s.clients[c].pending ensures n in (set r | r in q :: r.seqnum) {
        var k :| 0 <= k < |q| && q[k].seqnum == n;
        assert q[k] in q;
      }
    }
  }

  lemma AnswerTracks(s: State, c: nat, cmd: Command, reply: Reply)
    requires Tracks(s, c) && Open(s, c) && Answers(cmd, reply) && !cmd.Unlink?
    ensures Tracks(Log(s, c, Answered(cmd, reply)), c)
  {
  }

  lemma HandleTracks(s: State, c: nat, cmd: Command)
    requires Sound(s) && Tracks(s, c) && Open(s, c) && c !in Handle(s, c, cmd).reusers
    ensures Tracks(Handle(s, c, cmd), c)
  {
    match cmd
    case Devlist => AnswerTracks(s, c, cmd, RepDevlist([s.device.entry]));
    case Import(busid) =>
      if KnownBusid(busid) {
        AnswerTracks(s, c, cmd, RepImport(0, s.device.entry.record));
      } else {
        AnswerTracks(s, c, cmd, RepImport(1, []));
        HangUpTracks(Log(s, c, Answered(cmd, RepImport(1, []))), c);
      }
    case Rejected =>
      LogTracks(s, c, Refused(cmd));
      HangUpTracks(Log(s, c, Refused(cmd)), c);
    case Submit(h, _) =>
      if InterruptEndpoint(h.ep) {
        ParkTracks(s, c, cmd);
      } else {
        AnswerTracks(s, c, cmd, RetSubmit(h.seqnum, h.startFrame, SubmitData(s, h)));
      }
    case Unlink(_, _) => UnlinkTracks(s, c, cmd);
    case OtherUsb(_, seqnum) => AnswerTracks(s, c, cmd, RetOther(seqnum));
  }

  lemma ParkOrdered(s: State, c: nat, cmd: Command)
    requires Sound(s) && Ordered(s) && c in s.clients && cmd.Submit?
    ensures Ordered(Park(s, c, cmd))
  {
  }

  lemma HandleOrdered(s: State, c: nat, cmd: Command)
    requires Sound(s) && Ordered(s) && c in s.clients
    ensures Ordered(Handle(s, c, cmd))
  {
    match cmd
    case Submit(h, _) => if InterruptEndpoint(h.ep) { ParkOrdered(s, c, cmd); }
    case Unlink(_, target) => assert Ordered(Cancel(s, c, target));
    case _ =>
  }

  lemma HandleKeepsNumbers(s: State, c: nat, cmd: Command)
    requires c in s.clients && c in s.logs
    ensures SameNumbers(s, Handle(s, c, cmd))
  {
    match cmd
    case Submit(h, _) => if InterruptEndpoint(h.ep) { ParkKeepsNumbers(s, c, cmd); }
    case Unlink(_, target) => assert SameNumbers(s, Cancel(s, c, target));
    case _ =>
  }

  predicate SameNumbers(s: State, t: State) {
    t.nextClient == s.nextClient && t.logs.Keys == s.logs.Keys
  }

  lemma ParkKeepsNumbers(s: State, c: nat, cmd: Command)
    requires c in s.clients && c in s.logs && cmd.Submit?
    ensures SameNumbers(s, Park(s, c, cmd))
  {
    assert SameNumbers(s, StartTimer(s, c, cmd.header.seqnum));
  }

  lemma TurnTraced(s: State, c: nat, f: Cut)
    requires Owned(s) && Traced(s) && Open(s, c) && f.Frame? && f.size <= |s.clients[c].parser.buf|
    ensures Traced(Turn(s, c, f))
  {
    var h, t := Handle(s, c, f.cmd), Turn(s, c, f);
    HandleOrdered(s, c, f.cmd);
    HandleKeepsNumbers(s, c, f.cmd);
    HandleReusers(s, c, f.cmd);
    forall d: nat | d < t.nextClient && d !in t.reusers ensures Tracks(t, d) {
      if d == c {
        assert Tracks(s, c);
        HandleTracks(s, c, f.cmd);
        ParserTracks(h, c, Accept(s.clients[c].parser, f));
      } else {
        TurnOthers(s, c, f, d);
        UntouchedTracks(s, t, d);
      }
    }
  }

  lemma {:induction false} ServeTraced(s: State, c: nat)
    requires Owned(s) && Traced(s) && Serving(s, c)
    ensures Traced(Serve(s, c))
    decreases |s.clients[c].parser.buf|
  {
    var p := s.clients[c].parser;
    if p.buf == [] || CutFrame(p.phase, p.buf).NeedMore? {
    } else {
      var f := CutFrame(p.phase, p.buf);
      if HangsUp(f.cmd) { HangUpTakesAll(p.phase, p.buf); }
      TurnOwned(s, c, f);
      TurnTraced(s, c, f);
      ServeTraced(Turn(s, c, f), c);
    }
  }

  lemma BufferedTraced(s: State, c: nat, chunk: seq<Byte>)
    requires Owned(s) && Traced(s) && Open(s, c)
    ensures Traced(Buffered(s, c, chunk))
  {
    var p, t := s.clients[c].parser.(buf := s.clients[c].parser.buf + chunk), Buffered(s, c, chunk);
    forall d: nat | d < t.nextClient && d !in t.reusers ensures Tracks(t, d) {
      if d == c { ParserTracks(s, c, p); } else { UntouchedTracks(s, t, d); }
    }
  }

  /** What concerns connection `d` keeps its log in step. */
  lemma OwnStepTracks(s: State, e: Event, d: nat)
    requires Sound(s) && Ordered(s) && Enabled(s, e) && Concerns(s, e, d) && !e.Recv?
    requires Tidy(s, d) && (d == s.nextClient || Tracks(s, d))
    ensures Tracks(Step(s, e), d)
  {
    match e
    case Connect(accepted) => ArriveTracks(s, accepted);
    case Eof(c) => HangUpTracks(s, c);
    case CloseCallback(c) => CloseTracks(s, c);
    case Fire(i) => ExpireTracks(s, i);
    case Stop => StopTracks(s, d);
    case _ =>
  }

  lemma ArriveTracks(s: State, accepted: bool)
    requires Numbered(s)
    ensures Tracks(Arrive(s, accepted), s.nextClient)
  {
    FirstEntriesLegal(accepted);
  }

  lemma FirstEntriesLegal(accepted: bool)
    ensures Replay(FirstEntries(accepted)) == Some(Tracker([], !accepted, false))
  {
  }

  lemma StopTracks(s: State, d: nat)
    requires Sound(s) && d in s.listed && Tracks(s, d)
    ensures Tracks(StopAll(s), d)
  {
  }

  lemma StepOrdered(s: State, e: Event)
    requires Sound(s) && Ordered(s) && Enabled(s, e) && !e.Recv?
    ensures Ordered(Step(s, e))
  {
  }

  lemma StepNumbers(s: State, e: Event)
    requires Sound(s) && Logged(s) && Enabled(s, e) && !e.Recv?
    ensures Step(s, e).nextClient == s.nextClient + One(e.Connect?) && Logged(Step(s, e))
  {
    match e
    case Fire(i) => ExpireNumbers(s, i);
    case CloseCallback(c) => CloseNumbers(s, c);
    case _ =>
  }

  lemma ExpireNumbers(s: State, i: nat)
    requires Sound(s) && Logged(s) && i in s.armed
    ensures Expire(s, i).nextClient == s.nextClient && Logged(Expire(s, i))
  {
  }

  lemma CloseNumbers(s: State, c: nat)
    requires Sound(s) && Logged(s) && c in s.clients
    ensures Close(s, c).nextClient == s.nextClient && Logged(Close(s, c))
  {
  }

  lemma StepTraced(s: State, e: Event)
    requires Owned(s) && Traced(s)
    ensures Traced(Step(s, e))
  {
    if Enabled(s, e) {
      if e.Recv? {
        BufferedOwned(s, e.client, e.chunk);
        BufferedTraced(s, e.client, e.chunk);
        ServeTraced(Buffered(s, e.client, e.chunk), e.client);
      } else {
        OtherStepTraced(s, e);
      }
    }
  }

  lemma OtherStepTraced(s: State, e: Event)
    requires Owned(s) && Traced(s) && Enabled(s, e) && !e.Recv?
    ensures Traced(Step(s, e))
  {
    var t := Step(s, e);
    StepOrdered(s, e);
    StepNumbers(s, e);
    OtherStepsReuseNothing(s, e);
    forall d: nat | d < t.nextClient && d !in t.reusers ensures Tracks(t, d) {
      if Concerns(s, e, d) {
        OwnStepTracks(s, e, d);
      } else {
        StepLeavesOthersAlone(s, e, d);
        UntouchedTracks(s, t, d);
      }
    }
  }

  lemma {:induction false} RunTraced(s: State, es: seq<Event>)
    requires Owned(s) && Traced(s)
    ensures Traced(Run(s, es)) && Owned(Run(s, es))
    decreases |es|
  {
    if es == [] {
    } else {
      StepOwned(s, es[0]);
      StepTraced(s, es[0]);
      RunTraced(Step(s, es[0]), es[1..]);
    }
  }

  /** The invariant over every run of the server, whatever the clients send. */
  lemma EveryRunIsTraced(device: Device, status: UpsStatus.Status, es: seq<Event>)
    ensures Traced(Run(Init(device, status), es)) && Owned(Run(Init(device, status), es))
  {
    InitOwned(device, status);
    RunTraced(Init(device, status), es);
  }

  /** Exactly once over every run: on every connection that ever existed, the interrupt requests accepted
      under a sequence number are those answered by a NAK, those taken back by an UNLINK, those lost with
      the connection, and the one in the map. */
  lemma SubmitsAreAccountedFor(device: Device, status: UpsStatus.Status, es: seq<Event>, c: nat, n: U32)
    requires var t := Run(Init(device, status), es); c < t.nextClient && c !in t.reusers
    ensures var t := Run(Init(device, status), es);
      c in t.logs &&
      ParkedCount(t.logs[c], n) == NakCount(t.logs[c], n) + UnlinkedCount(t.logs[c], n) + LostCount(t.logs[c], n) +
        One(c in t.clients && n in t.clients[c].pending)
  {
    var t := Run(Init(device, status), es);
    EveryRunIsTraced(device, status, es);
    assert Tracks(t, c);
    ExactlyOnce(t.logs[c], n);
    EndedQueue(t.logs[c]);
    var q := Replay(t.logs[c]).value.queue;
    if c in t.clients {
      assert Waiting(q, n) <==> n in t.clients[c].pending;
    } else {
      assert q == [];
    }
  }

  lemma {:induction false} EndedQueue(log: seq<Entry>)
    requires Legal(log)
    ensures Replay(log).value.ended ==> Replay(log).value.queue == [] && Replay(log).value.hung
    decreases |log|
  {
    if log == [] {
    } else {
      EndedQueue(log[..|log| - 1]);
    }
  }

  /** Interrupt NAKs are first in, first out in every run, whatever is cancelled in between. */
  lemma NaksAreFifo(device: Device, status: UpsStatus.Status, es: seq<Event>, c: nat) returns (done: seq<Request>)
    requires var t := Run(Init(device, status), es); c < t.nextClient && c !in t.reusers
    ensures var t := Run(Init(device, status), es);
      c in t.logs && done <= Survivors(t.logs[c]) && InOrder(done, Fired(t.logs[c]))
  {
    var t := Run(Init(device, status), es);
    EveryRunIsTraced(device, status, es);
    assert Tracks(t, c);
    done := FirstInFirstOut(t.logs[c]);
  }
}
