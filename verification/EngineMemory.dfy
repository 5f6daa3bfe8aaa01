/** Ownership on every reachable state: timers, their data and connection contexts. */
module EngineMemory {
  import opened Bytes
  import opened Wire
  import opened Parser
  import opened Engine

  /** Every map entry names a started timer that carries its client and key. */
  predicate Named(s: State) {
    forall c, q | c in s.clients && q in s.clients[c].pending ::
      var i := s.clients[c].pending[q];
      i in s.armed && s.armed[i].client == c && s.armed[i].seqnum == q
  }

  /** Every block ever allocated was released once or is still in use, never both. */
  ghost predicate Accounted(s: State) {
    && (forall c: nat :: s.freed[Context(c)] == if c < s.nextClient && c !in s.clients then 1 else 0)
    && (forall i: nat :: s.freed[TimerData(i)] == if i < s.nextTimer && i !in s.armed then 1 else 0)
    && forall i: nat :: s.freed[TimerHandle(i)] ==
         if i < s.nextTimer && i !in s.armed && i !in s.retired then 1 else 0
  }

  predicate Numbered(s: State) {
    && (forall c | c in s.clients :: c < s.nextClient)
    && (forall i | i in s.armed :: i < s.nextTimer && i !in s.retired && s.armed[i].client < s.nextClient)
    && forall i | i in s.retired :: i < s.nextTimer
  }

  /** The server's client list holds the connections that no one asked to close. */
  ghost predicate ListedAreOpen(s: State) {
    && (forall c | c in s.listed :: Open(s, c))
    && forall c | Open(s, c) :: c in s.listed
  }

  /** What every reachable state satisfies, whatever the clients send. */
  ghost predicate Sound(s: State) {
    Named(s) && Accounted(s) && Numbered(s) && ListedAreOpen(s)
  }

  lemma InitSound(device: Device, status: UpsStatus.Status)
    ensures Sound(Init(device, status))
  {
  }

  lemma LogSound(s: State, c: nat, e: Entry)
    requires Sound(s)
    ensures Sound(Log(s, c, e))
  {
  }

  lemma HangUpSound(s: State, c: nat)
    requires Sound(s) && Open(s, c)
    ensures Sound(HangUp(s, c))
  {
  }

  lemma StartSound(s: State, c: nat, q: U32)
    requires Sound(s) && c in s.clients
    ensures Sound(StartTimer(s, c, q))
  {
  }

  lemma ParkSound(s: State, c: nat, cmd: Command)
    requires Sound(s) && c in s.clients && cmd.Submit?
    ensures Sound(Park(s, c, cmd))
  {
    StartSound(s, c, cmd.header.seqnum);
    LogSound(StartTimer(s, c, cmd.header.seqnum), c, Parked(cmd, s.nextTimer, s.now));
  }

  lemma CloseTimerSound(s: State, i: nat)
    requires Accounted(s) && Numbered(s) && ListedAreOpen(s) && i in s.armed
    ensures var t := CloseTimer(s, i); Accounted(t) && Numbered(t) && ListedAreOpen(t)
  {
    var t := CloseTimer(s, i);
    forall j: nat ensures t.freed[TimerData(j)] == s.freed[TimerData(j)] + if j == i then 1 else 0 {
    }
    forall j: nat ensures t.freed[TimerHandle(j)] == s.freed[TimerHandle(j)] {
    }
    forall d: nat ensures t.freed[Context(d)] == s.freed[Context(d)] {
    }
  }

  lemma ForgetKeepsRest(s: State, c: nat, q: U32)
    requires Accounted(s) && Numbered(s) && ListedAreOpen(s) && c in s.clients
    ensures var t := Forget(s, c, q); Accounted(t) && Numbered(t) && ListedAreOpen(t)
  {
  }

  /** A timer of client `c` that stops may be forgotten under its own number. */
  lemma StopNamed(s: State, i: nat)
    requires Named(s) && i in s.armed && s.armed[i].client in s.clients
    ensures var Timer(c, q, _) := s.armed[i]; Named(Forget(CloseTimer(s, i), c, q))
  {
  }

  lemma CancelSound(s: State, c: nat, q: U32)
    requires Sound(s) && c in s.clients
    ensures Sound(Cancel(s, c, q)) && Cancel(s, c, q).fault == s.fault
  {
    if q in s.clients[c].pending {
      var i := s.clients[c].pending[q];
      CloseTimerSound(s, i);
      ForgetKeepsRest(CloseTimer(s, i), c, q);
      StopNamed(s, i);
    }
  }

  lemma ExpireSound(s: State, i: nat)
    requires Sound(s) && i in s.armed
    ensures Sound(Expire(s, i))
  {
    var Timer(c, q, _) := s.armed[i];
    CloseTimerSound(s, i);
    if c in s.clients {
      var t := Forget(CloseTimer(s, i), c, q);
      ForgetKeepsRest(CloseTimer(s, i), c, q);
      StopNamed(s, i);
      LogSound(t, c, if s.clients[c].closing then Swallowed(q, s.now) else Nak(q, s.now));
    } else {
      OrphanNamed(s, i);
    }
  }

  lemma OrphanNamed(s: State, i: nat)
    requires Named(s) && i in s.armed && s.armed[i].client !in s.clients
    ensures Named(CloseTimer(s, i))
  {
  }

  lemma CloseShape(s: State, c: nat)
    requires c in s.clients
    ensures var t, ids := Close(s, c), s.clients[c].pending.Values;
      && t.clients == s.clients - {c} && t.armed == s.armed - ids && t.retired == s.retired + ids
      && t.freed == s.freed + multiset(TimerBlocks(ids)) + multiset{Context(c)}
      && (t.fault <==> s.fault || exists i | i in ids :: i !in s.armed)
  {
    assert Release(s, c).clients == s.clients - {c};
  }

  /** How many times a close releases each block. */
  function ReleasedBy(ids: set<nat>, c: nat, b: Block): nat {
    match b
    case TimerData(i) => if i in ids then 1 else 0
    case Context(d) => if d == c then 1 else 0
    case TimerHandle(_) => 0
  }

  lemma CloseReleases(before: multiset<Block>, ids: set<nat>, c: nat, b: Block)
    ensures (before + multiset(TimerBlocks(ids)) + multiset{Context(c)})[b] == before[b] + ReleasedBy(ids, c, b)
  {
  }

  lemma CloseAccounted(s: State, c: nat)
    requires Sound(s) && c in s.clients
    ensures Accounted(Close(s, c)) && Close(s, c).fault == s.fault
  {
    var t, ids := Close(s, c), s.clients[c].pending.Values;
    CloseShape(s, c);
    assert forall i | i in ids :: i in s.armed;
    forall b ensures t.freed[b] == s.freed[b] + ReleasedBy(ids, c, b) {
      CloseReleases(s.freed, ids, c, b);
    }
    CloseKeepsCounts(s, t, ids, c);
  }

  lemma CloseKeepsCounts(s: State, t: State, ids: set<nat>, c: nat)
    requires Accounted(s) && Numbered(s) && c in s.clients && (forall i | i in ids :: i in s.armed)
    requires t.clients == s.clients - {c} && t.armed == s.armed - ids && t.retired == s.retired + ids
    requires t.nextClient == s.nextClient && t.nextTimer == s.nextTimer
    requires forall b :: t.freed[b] == s.freed[b] + ReleasedBy(ids, c, b)
    ensures Accounted(t)
  {
  }

  lemma CloseNamed(s: State, c: nat)
    requires Named(s) && c in s.clients
    ensures Named(Close(s, c))
  {
    CloseShape(s, c);
    assert forall i | i in s.clients[c].pending.Values :: s.armed[i].client == c;
  }

  lemma CloseSound(s: State, c: nat)
    requires Sound(s) && c in s.clients && s.clients[c].closing
    ensures Sound(Close(s, c)) && Close(s, c).fault == s.fault
  {
    CloseNamed(s, c);
    CloseAccounted(s, c);
    CloseKeepsNumbers(s, c);
  }

  lemma CloseKeepsNumbers(s: State, c: nat)
    requires Sound(s) && c in s.clients && s.clients[c].closing
    ensures var t := Close(s, c); Numbered(t) && ListedAreOpen(t)
  {
    CloseShape(s, c);
    assert forall i | i in s.clients[c].pending.Values :: i in s.armed;
  }

  lemma ArriveSound(s: State, accepted: bool)
    requires Sound(s)
    ensures Sound(Arrive(s, accepted))
  {
  }

  lemma StopAllSound(s: State)
    requires Sound(s)
    ensures Sound(StopAll(s))
  {
  }

  lemma FreeTimerSound(s: State, i: nat)
    requires Sound(s) && i in s.retired
    ensures Sound(Step(s, FreeTimer(i)))
  {
  }

  /** The read loop only runs while the connection is open: a frame that closes it empties the buffer. */
  predicate Serving(s: State, c: nat) {
    c in s.clients && (s.clients[c].parser.buf != [] ==> Open(s, c))
  }

  lemma HandleSound(s: State, c: nat, cmd: Command)
    requires Sound(s) && Open(s, c)
    ensures Sound(Handle(s, c, cmd)) && Handle(s, c, cmd).fault == s.fault
    ensures HangsUp(cmd) || Open(Handle(s, c, cmd), c)
  {
    match cmd
    case Devlist => LogSound(s, c, Answered(cmd, RepDevlist([s.device.entry])));
    case Import(busid) =>
      if KnownBusid(busid) {
        LogSound(s, c, Answered(cmd, RepImport(0, s.device.entry.record)));
      } else {
        RefuseSound(s, c, Answered(cmd, RepImport(1, [])));
      }
    case Rejected => RefuseSound(s, c, Refused(cmd));
    case Submit(h, _) =>
      if InterruptEndpoint(h.ep) {
        ParkSound(s, c, cmd);
      } else {
        LogSound(s, c, Answered(cmd, RetSubmit(h.seqnum, h.startFrame, SubmitData(s, h))));
      }
    case Unlink(seqnum, target) =>
      var t := Cancel(s, c, target);
      CancelSound(s, c, target);
      LogSound(t, c, Answered(cmd, RetUnlink(seqnum, UnlinkStatus(s.clients[c], target))));
    case OtherUsb(_, seqnum) => LogSound(s, c, Answered(cmd, RetOther(seqnum)));
  }

  lemma RefuseSound(s: State, c: nat, e: Entry)
    requires Sound(s) && Open(s, c)
    ensures Sound(HangUp(Log(s, c, e), c))
  {
    LogSound(s, c, e);
    HangUpSound(Log(s, c, e), c);
  }

  /** Replacing a client's parser touches nothing the ownership invariant speaks of. */
  lemma ParserSound(s: State, c: nat, p: Parser)
    requires Sound(s) && c in s.clients
    ensures Sound(WithClient(s, c, s.clients[c].(parser := p)))
  {
  }

  lemma TurnSound(s: State, c: nat, f: Cut)
    requires Sound(s) && Open(s, c) && f.Frame? && f.size <= |s.clients[c].parser.buf|
    requires HangsUp(f.cmd) ==> f.size == |s.clients[c].parser.buf|
    ensures Sound(Turn(s, c, f)) && Serving(Turn(s, c, f), c) && Turn(s, c, f).fault == s.fault
  {
    HandleSound(s, c, f.cmd);
    ParserSound(Handle(s, c, f.cmd), c, Accept(s.clients[c].parser, f));
  }

  /** A frame that ends the connection takes the whole buffer. */
  lemma HangUpTakesAll(phase: Phase, buf: seq<Byte>)
    requires buf != [] && CutFrame(phase, buf).Frame? && HangsUp(CutFrame(phase, buf).cmd)
    ensures CutFrame(phase, buf).size == |buf|
  {
  }

  lemma {:induction false} ServeSound(s: State, c: nat)
    requires Sound(s) && Serving(s, c)
    ensures Sound(Serve(s, c)) && c in Serve(s, c).clients && Serve(s, c).fault == s.fault
    decreases |s.clients[c].parser.buf|
  {
    var p := s.clients[c].parser;
    if p.buf == [] || CutFrame(p.phase, p.buf).NeedMore? {
    } else {
      var f := CutFrame(p.phase, p.buf);
      var t := Turn(s, c, f);
      if HangsUp(f.cmd) { HangUpTakesAll(p.phase, p.buf); }
      TurnSound(s, c, f);
      ServeSound(t, c);
    }
  }

  /** Every step keeps the invariant. */
  lemma StepSound(s: State, e: Event)
    requires Sound(s)
    ensures Sound(Step(s, e))
  {
    if Enabled(s, e) {
      match e
      case Connect(accepted) => ArriveSound(s, accepted);
      case Recv(c, chunk) =>
        ParserSound(s, c, s.clients[c].parser.(buf := s.clients[c].parser.buf + chunk));
        ServeSound(Buffered(s, c, chunk), c);
      case Eof(c) => HangUpSound(s, c);
      case CloseCallback(c) => CloseSound(s, c);
      case Fire(i) => ExpireSound(s, i);
      case FreeTimer(i) => FreeTimerSound(s, i);
      case Tick(_) =>
      case Poll(_) =>
      case Stop => StopAllSound(s);
    }
  }

  /** In every run, whatever the clients send, every map entry names a started timer with its own client
      and key, and every block is released once or still in use. */
  lemma {:induction false} RunSound(s: State, es: seq<Event>)
    requires Sound(s)
    ensures Sound(Run(s, es))
    decreases |es|
  {
    if es == [] {
    } else {
      StepSound(s, es[0]);
      RunSound(Step(s, es[0]), es[1..]);
    }
  }

  predicate Started(s: State, c: nat)
    requires c in s.clients
  {
    forall q | q in s.clients[c].pending :: s.clients[c].pending[q] in s.armed
  }

  /** What the read loop relies on at every turn: the connection is open and its timers are running. */
  predicate Servable(s: State, c: nat)
    requires c in s.clients
    decreases |s.clients[c].parser.buf|
  {
    var p := s.clients[c].parser;
    p.buf == [] ||
    (&& Open(s, c) && Started(s, c)
     && var f := CutFrame(p.phase, p.buf);
        f.Frame? ==> Servable(Turn(s, c, f), c))
  }

  lemma {:induction false} SoundIsServable(s: State, c: nat)
    requires Sound(s) && Serving(s, c)
    ensures Servable(s, c)
    decreases |s.clients[c].parser.buf|
  {
    var p := s.clients[c].parser;
    if p.buf == [] || CutFrame(p.phase, p.buf).NeedMore? {
    } else {
      var f := CutFrame(p.phase, p.buf);
      var t := Turn(s, c, f);
      if HangsUp(f.cmd) { HangUpTakesAll(p.phase, p.buf); }
      TurnSound(s, c, f);
      SoundIsServable(t, c);
    }
  }

  /** What the callbacks for a chunk, a close and an expiring timer rely on. */
  lemma ReadyToRecv(s: State, c: nat, chunk: seq<Byte>)
    requires Sound(s) && Open(s, c)
    ensures Servable(Buffered(s, c, chunk), c)
  {
    ParserSound(s, c, s.clients[c].parser.(buf := s.clients[c].parser.buf + chunk));
    SoundIsServable(Buffered(s, c, chunk), c);
  }

  predicate Separate(pending: map<U32, nat>) {
    forall q, r | q in pending && r in pending && q != r :: pending[q] != pending[r]
  }

  lemma ReadyToClose(s: State, c: nat)
    requires Sound(s) && c in s.clients && s.clients[c].closing
    ensures Started(s, c) && Separate(s.clients[c].pending) && c !in s.listed
  {
  }

  /** Closing a client whose timers are all running is no fault. */
  lemma CloseWithoutFault(s: State, c: nat)
    requires c in s.clients && Started(s, c)
    ensures Close(s, c) == Log(Release(s, c), c, Dropped(s.clients[c].pending.Keys))
  {
  }

  lemma StopNone(s: State)
    requires s.running
    ensures StopSome(s, {}) == s.(running := false)
  {
  }

  /** Removing one more client takes `stop` one client further. */
  lemma StopOneMore(s: State, done: set<nat>, c: nat)
    requires Open(s, c) && c !in done && c in s.logs
    ensures HangUp(StopSome(s, done), c) == StopSome(s, done + {c})
  {
  }
}
