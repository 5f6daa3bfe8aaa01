/** Non-interference: what happens on one connection is invisible to every other. */
module EngineIsolation {
  import opened Bytes
  import opened Wire
  import opened Parser
  import opened Engine
  import opened EngineMemory

  /** Connection `c` looks the same in both states: its buffer and state, its requests, its timers and
      everything that was ever answered on it. */
  predicate Untouched(s: State, t: State, c: nat) {
    && (c in s.clients <==> c in t.clients) && (c in s.clients ==> t.clients[c] == s.clients[c])
    && (c in s.logs <==> c in t.logs) && (c in s.logs ==> t.logs[c] == s.logs[c])
    && (forall i | i in s.armed && s.armed[i].client == c :: i in t.armed && t.armed[i] == s.armed[i])
    && forall i | i in t.armed && t.armed[i].client == c :: i in s.armed && s.armed[i] == t.armed[i]
  }

  /** The connection an event is about; stopping the server is about every listed one. */
  predicate Concerns(s: State, e: Event, c: nat) {
    match e
    case Connect(_) => c == s.nextClient
    case Recv(d, _) => d == c
    case Eof(d) => d == c
    case CloseCallback(d) => d == c
    case Fire(i) => i in s.armed && s.armed[i].client == c
    case Stop => c in s.listed
    case _ => false
  }

  lemma UntouchedTrans(s: State, t: State, u: State, c: nat)
    requires Untouched(s, t, c) && Untouched(t, u, c)
    ensures Untouched(s, u, c)
  {
  }

  lemma CancelOthers(s: State, c: nat, q: U32, d: nat)
    requires Sound(s) && c in s.clients && d != c
    ensures Untouched(s, Cancel(s, c, q), d)
  {
  }

  lemma ParkOthers(s: State, c: nat, cmd: Command, d: nat)
    requires Sound(s) && c in s.clients && d != c && cmd.Submit?
    ensures Untouched(s, Park(s, c, cmd), d)
  {
  }

  lemma HandleOthers(s: State, c: nat, cmd: Command, d: nat)
    requires Sound(s) && c in s.clients && d != c
    ensures Untouched(s, Handle(s, c, cmd), d)
  {
    match cmd
    case Devlist => LogOthers(s, c, Answered(cmd, RepDevlist([s.device.entry])), d);
    case Import(busid) =>
      if KnownBusid(busid) {
        LogOthers(s, c, Answered(cmd, RepImport(0, s.device.entry.record)), d);
      } else {
        RefuseOthers(s, c, Answered(cmd, RepImport(1, [])), d);
      }
    case Rejected => RefuseOthers(s, c, Refused(cmd), d);
    case Submit(h, _) =>
      if InterruptEndpoint(h.ep) {
        ParkOthers(s, c, cmd, d);
      } else {
        LogOthers(s, c, Answered(cmd, RetSubmit(h.seqnum, h.startFrame, SubmitData(s, h))), d);
      }
    case Unlink(seqnum, target) =>
      var t := Cancel(s, c, target);
      var e := Answered(cmd, RetUnlink(seqnum, UnlinkStatus(s.clients[c], target)));
      CancelOthers(s, c, target, d);
      LogOthers(t, c, e, d);
      UntouchedTrans(s, t, Log(t, c, e), d);
    case OtherUsb(_, seqnum) => LogOthers(s, c, Answered(cmd, RetOther(seqnum)), d);
  }

  lemma LogOthers(s: State, c: nat, e: Entry, d: nat)
    requires d != c
    ensures Untouched(s, Log(s, c, e), d)
  {
  }

  lemma HangUpOthers(s: State, c: nat, d: nat)
    requires c in s.clients && d != c
    ensures Untouched(s, HangUp(s, c), d)
  {
  }

  lemma RefuseOthers(s: State, c: nat, e: Entry, d: nat)
    requires c in s.clients && d != c
    ensures Untouched(s, HangUp(Log(s, c, e), c), d)
  {
  }

  lemma TurnOthers(s: State, c: nat, f: Cut, d: nat)
    requires Sound(s) && c in s.clients && d != c && f.Frame? && f.size <= |s.clients[c].parser.buf|
    ensures Untouched(s, Turn(s, c, f), d)
  {
    HandleOthers(s, c, f.cmd, d);
  }

  lemma {:induction false} ServeOthers(s: State, c: nat, d: nat)
    requires Sound(s) && Serving(s, c) && d != c
    ensures Untouched(s, Serve(s, c), d)
    decreases |s.clients[c].parser.buf|
  {
    var p := s.clients[c].parser;
    if p.buf == [] || CutFrame(p.phase, p.buf).NeedMore? {
    } else {
      var f := CutFrame(p.phase, p.buf);
      var t := Turn(s, c, f);
      if HangsUp(f.cmd) { HangUpTakesAll(p.phase, p.buf); }
      TurnSound(s, c, f);
      TurnOthers(s, c, f, d);
      ServeOthers(t, c, d);
      UntouchedTrans(s, t, Serve(t, c), d);
    }
  }

  lemma CloseOthers(s: State, c: nat, d: nat)
    requires Sound(s) && c in s.clients && d != c
    ensures Untouched(s, Close(s, c), d)
  {
  }

  /** Any step of one connection, even an UNLINK or a close that names the same sequence numbers, leaves
      every other connection's buffer, state, timers and replies unchanged. */
  lemma StepLeavesOthersAlone(s: State, e: Event, d: nat)
    requires Sound(s) && !Concerns(s, e, d)
    ensures Untouched(s, Step(s, e), d)
  {
    if Enabled(s, e) {
      match e
      case Recv(c, chunk) => RecvOthers(s, c, chunk, d);
      case Eof(c) => HangUpOthers(s, c, d);
      case CloseCallback(c) => CloseOthers(s, c, d);
      case Connect(accepted) => ArriveOthers(s, accepted, d);
      case Stop => StopOthers(s, d);
      case Fire(i) => ExpireOthers(s, i, d);
      case _ =>
    }
  }

  lemma RecvOthers(s: State, c: nat, chunk: seq<Byte>, d: nat)
    requires Sound(s) && Open(s, c) && d != c
    ensures Untouched(s, Serve(Buffered(s, c, chunk), c), d)
  {
    var t := Buffered(s, c, chunk);
    ParserSound(s, c, s.clients[c].parser.(buf := s.clients[c].parser.buf + chunk));
    ServeOthers(t, c, d);
    UntouchedTrans(s, t, Serve(t, c), d);
  }

  lemma ArriveOthers(s: State, accepted: bool, d: nat)
    requires Sound(s) && d != s.nextClient
    ensures Untouched(s, Arrive(s, accepted), d)
  {
  }

  lemma StopOthers(s: State, d: nat)
    requires d !in s.listed
    ensures Untouched(s, StopAll(s), d)
  {
  }

  lemma ExpireOthers(s: State, i: nat, d: nat)
    requires Sound(s) && i in s.armed && s.armed[i].client != d
    ensures Untouched(s, Expire(s, i), d)
  {
  }

  /** None of the events of a run is about connection `c`. */
  predicate Elsewhere(s: State, es: seq<Event>, c: nat)
    decreases |es|
  {
    es == [] || (!Concerns(s, es[0], c) && Elsewhere(Step(s, es[0]), es[1..], c))
  }

  lemma {:induction false} RunLeavesOthersAlone(s: State, es: seq<Event>, d: nat)
    requires Sound(s) && Elsewhere(s, es, d)
    ensures Untouched(s, Run(s, es), d)
    decreases |es|
  {
    if es == [] {
    } else {
      var t := Step(s, es[0]);
      StepSound(s, es[0]);
      StepLeavesOthersAlone(s, es[0], d);
      RunLeavesOthersAlone(t, es[1..], d);
      UntouchedTrans(s, t, Run(t, es[1..]), d);
    }
  }

  /** Non-interference from any point of any run on: whatever clients did before, and whatever the others
      do now, a connection that nothing is about stays as it is. */
  lemma NobodyInterferes(device: Device, status: UpsStatus.Status, before: seq<Event>, after: seq<Event>, d: nat)
    requires Elsewhere(Run(Init(device, status), before), after, d)
    ensures var s := Run(Init(device, status), before); Untouched(s, Run(s, after), d)
  {
    InitSound(device, status);
    RunSound(Init(device, status), before);
    RunLeavesOthersAlone(Run(Init(device, status), before), after, d);
  }
}
