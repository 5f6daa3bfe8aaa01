/** Who owns a timer: connections that keep to the protocol never leave one behind. */
module EngineOwnership {
  import opened Bytes
  import opened Wire
  import opened Parser
  import opened Engine
  import opened EngineMemory
  import opened EngineIsolation

  /** No timer of connection `c` is left over: each belongs to the live client and its map names it. */
  predicate Tidy(s: State, c: nat) {
    forall i | i in s.armed && s.armed[i].client == c ::
      var n := s.armed[i].seqnum;
      c in s.clients && n in s.clients[c].pending && s.clients[c].pending[n] == i
  }

  /** Together with `Sound` this is a bijection between timers and map entries, for every connection that
      did not submit a pending number again; and nothing else can lead to a fault. */
  ghost predicate Owned(s: State) {
    && Sound(s)
    && (forall c: nat :: c !in s.reusers ==> Tidy(s, c))
    && (s.fault ==> s.reusers != {})
  }

  lemma InitOwned(device: Device, status: UpsStatus.Status)
    ensures Owned(Init(device, status))
  {
    InitSound(device, status);
  }

  lemma UntouchedTidy(s: State, t: State, c: nat)
    requires Tidy(s, c) && Untouched(s, t, c)
    ensures Tidy(t, c)
  {
  }

  /** Starting a timer leaves none over exactly when its number is not pending. */
  lemma StartTidy(s: State, c: nat, q: U32)
    requires Sound(s) && c in s.clients && Tidy(s, c)
    ensures Tidy(StartTimer(s, c, q), c) <==> q !in s.clients[c].pending
  {
    if q in s.clients[c].pending {
      var i, t := s.clients[c].pending[q], StartTimer(s, c, q);
      assert i in t.armed && t.armed[i].client == c && t.clients[c].pending[q] != i;
    }
  }

  /** Parking an interrupt request leaves every timer owned exactly when its sequence number is not
      pending already. */
  lemma ParkTidy(s: State, c: nat, cmd: Command)
    requires Sound(s) && c in s.clients && cmd.Submit? && Tidy(s, c)
    ensures Tidy(Park(s, c, cmd), c) <==> cmd.header.seqnum !in s.clients[c].pending
    ensures Park(s, c, cmd).reusers == s.reusers + if cmd.header.seqnum in s.clients[c].pending then {c} else {}
  {
    StartTidy(s, c, cmd.header.seqnum);
  }

  lemma CancelTidy(s: State, c: nat, q: U32)
    requires Sound(s) && c in s.clients && Tidy(s, c)
    ensures Tidy(Cancel(s, c, q), c)
  {
  }

  lemma HandleTidy(s: State, c: nat, cmd: Command)
    requires Sound(s) && c in s.clients && Tidy(s, c) && c !in Handle(s, c, cmd).reusers
    ensures Tidy(Handle(s, c, cmd), c)
  {
    match cmd
    case Submit(h, _) => if InterruptEndpoint(h.ep) { ParkTidy(s, c, cmd); }
    case Unlink(_, target) => CancelTidy(s, c, target);
    case _ =>
  }

  /** Only the client's own reuse makes it a reuser, and for good. */
  lemma HandleReusers(s: State, c: nat, cmd: Command)
    requires c in s.clients
    ensures s.reusers <= Handle(s, c, cmd).reusers <= s.reusers + {c}
  {
    match cmd
    case Submit(_, _) =>
    case Unlink(_, target) => assert Cancel(s, c, target).reusers == s.reusers;
    case _ =>
  }

  lemma TurnOwned(s: State, c: nat, f: Cut)
    requires Owned(s) && Open(s, c) && f.Frame? && f.size <= |s.clients[c].parser.buf|
    requires HangsUp(f.cmd) ==> f.size == |s.clients[c].parser.buf|
    ensures Owned(Turn(s, c, f)) && Serving(Turn(s, c, f), c)
    ensures s.reusers <= Turn(s, c, f).reusers <= s.reusers + {c}
  {
    var t := Turn(s, c, f);
    TurnSound(s, c, f);
    HandleReusers(s, c, f.cmd);
    forall d: nat | d !in t.reusers ensures Tidy(t, d) {
      if d == c {
        HandleTidy(s, c, f.cmd);
      } else {
        TurnOthers(s, c, f, d);
        UntouchedTidy(s, t, d);
      }
    }
  }

  lemma {:induction false} ServeOwned(s: State, c: nat)
    requires Owned(s) && Serving(s, c)
    ensures Owned(Serve(s, c)) && s.reusers <= Serve(s, c).reusers <= s.reusers + {c}
    decreases |s.clients[c].parser.buf|
  {
    var p := s.clients[c].parser;
    if p.buf == [] || CutFrame(p.phase, p.buf).NeedMore? {
    } else {
      var f := CutFrame(p.phase, p.buf);
      if HangsUp(f.cmd) { HangUpTakesAll(p.phase, p.buf); }
      TurnOwned(s, c, f);
      ServeOwned(Turn(s, c, f), c);
    }
  }

  lemma BufferedOwned(s: State, c: nat, chunk: seq<Byte>)
    requires Owned(s) && c in s.clients
    ensures Owned(Buffered(s, c, chunk))
  {
    var t := Buffered(s, c, chunk);
    ParserSound(s, c, t.clients[c].parser);
    forall d: nat | d !in t.reusers ensures Tidy(t, d) {
      assert Tidy(s, d);
    }
  }

  /** What concerns a connection leaves it tidy. */
  lemma OwnStepTidy(s: State, e: Event, c: nat)
    requires Sound(s) && Enabled(s, e) && Concerns(s, e, c) && Tidy(s, c) && !e.Recv?
    ensures Tidy(Step(s, e), c)
  {
    match e
    case Connect(_) => assert Tidy(Arrive(s, e.accepted), c);
    case CloseCallback(_) => CloseTidy(s, c);
    case Fire(i) => ExpireTidy(s, i);
    case _ =>
  }

  lemma CloseTidy(s: State, c: nat)
    requires Sound(s) && c in s.clients && Tidy(s, c)
    ensures Tidy(Close(s, c), c)
  {
    CloseShape(s, c);
  }

  lemma ExpireTidy(s: State, i: nat)
    requires Sound(s) && i in s.armed && Tidy(s, s.armed[i].client)
    ensures Tidy(Expire(s, i), s.armed[i].client)
  {
  }

  /** Only an expiring timer whose client is gone is a fault. */
  lemma StepFaults(s: State, e: Event)
    requires Sound(s)
    ensures Step(s, e).fault <==> s.fault || (e.Fire? && Enabled(s, e) && s.armed[e.timer].client !in s.clients)
  {
    if Enabled(s, e) {
      match e
      case Recv(c, chunk) =>
        ParserSound(s, c, s.clients[c].parser.(buf := s.clients[c].parser.buf + chunk));
        ServeSound(Buffered(s, c, chunk), c);
      case CloseCallback(c) => CloseSound(s, c);
      case _ =>
    }
  }

  lemma OtherStepsReuseNothing(s: State, e: Event)
    requires !e.Recv?
    ensures Step(s, e).reusers == s.reusers
  {
  }

  /** Every step keeps the ownership invariant, whatever the clients send. */
  lemma StepOwned(s: State, e: Event)
    requires Owned(s)
    ensures Owned(Step(s, e)) && s.reusers <= Step(s, e).reusers
  {
    var t := Step(s, e);
    StepSound(s, e);
    StepFaults(s, e);
    if Enabled(s, e) {
      if e.Recv? {
        BufferedOwned(s, e.client, e.chunk);
        ServeOwned(Buffered(s, e.client, e.chunk), e.client);
      } else {
        OtherStepsReuseNothing(s, e);
        forall d: nat | d !in t.reusers ensures Tidy(t, d) {
          if Concerns(s, e, d) {
            OwnStepTidy(s, e, d);
          } else {
            StepLeavesOthersAlone(s, e, d);
            UntouchedTidy(s, t, d);
          }
        }
        if e.Fire? {
          var c := s.armed[e.timer].client;
          assert c !in s.reusers ==> Tidy(s, c);
        }
      }
    }
  }

  lemma {:induction false} RunOwned(s: State, es: seq<Event>)
    requires Owned(s)
    ensures Owned(Run(s, es)) && s.reusers <= Run(s, es).reusers
    decreases |es|
  {
    if es == [] {
    } else {
      StepOwned(s, es[0]);
      RunOwned(Step(s, es[0]), es[1..]);
    }
  }

  /** Ownership over every run from the start: the timers of a connection that did not reuse a pending
      number are in bijection with its map entries, and its context outlives them all; and unless some
      connection did, no callback ever touched a released block or closed a handle twice. */
  lemma EveryRunIsOwned(device: Device, status: UpsStatus.Status, es: seq<Event>, c: nat)
    ensures var t := Run(Init(device, status), es);
      && Sound(t) && (t.fault ==> t.reusers != {}) && (c !in t.reusers ==> Tidy(t, c))
  {
    InitOwned(device, status);
    RunOwned(Init(device, status), es);
  }

  /** A timer that fires finds its client's context alive, unless that client reused a pending number. */
  lemma FiringFindsContext(device: Device, status: UpsStatus.Status, es: seq<Event>, i: nat)
    requires Due(Run(Init(device, status), es), i)
    ensures var t := Run(Init(device, status), es);
      var Timer(c, n, _) := t.armed[i];
      c in t.reusers ||
      (c in t.clients && n in t.clients[c].pending && t.clients[c].pending[n] == i && t.freed[Context(c)] == 0)
  {
    var t := Run(Init(device, status), es);
    EveryRunIsOwned(device, status, es, t.armed[i].client);
  }

  /** Nothing leaks: once no connection and no timer is left, everything ever allocated was released
      exactly once. */
  lemma DrainedRunReleasesEverything(device: Device, status: UpsStatus.Status, es: seq<Event>)
    requires var t := Run(Init(device, status), es); t.clients == map[] && t.armed == map[] && t.retired == {}
    ensures var t := Run(Init(device, status), es);
      && (forall c: nat :: t.freed[Context(c)] == if c < t.nextClient then 1 else 0)
      && forall i: nat :: t.freed[TimerData(i)] == t.freed[TimerHandle(i)] == if i < t.nextTimer then 1 else 0
  {
    InitSound(device, status);
    RunSound(Init(device, status), es);
  }

  /** Without reuse the connections take their timers along. */
  lemma NoClientsNoTimers(device: Device, status: UpsStatus.Status, es: seq<Event>)
    requires var t := Run(Init(device, status), es); t.clients == map[] && t.reusers == {}
    ensures Run(Init(device, status), es).armed == map[]
  {
    var t := Run(Init(device, status), es);
    InitOwned(device, status);
    RunOwned(Init(device, status), es);
    assert forall i | i in t.armed :: Tidy(t, t.armed[i].client);
  }

  /** The loop makes every callback of `es` when its turn comes. */
  predicate Made(s: State, es: seq<Event>)
    decreases |es|
  {
    es == [] || (Enabled(s, es[0]) && Made(Step(s, es[0]), es[1..]))
  }

  /** What a callback finds when the loop makes it: the memory it is going to touch is still there. */
  predicate Ready(s: State, e: Event) {
    && Enabled(s, e)
    && match e
       case Connect(_) => s.nextClient !in s.clients
       case Recv(c, chunk) => Servable(Buffered(s, c, chunk), c)
       case CloseCallback(c) => Started(s, c) && Separate(s.clients[c].pending) && c !in s.listed
       case Fire(i) => s.armed[i].client in s.clients
       case Stop => forall c | c in s.listed :: Open(s, c)
       case _ => true
  }

  predicate AllReady(s: State, es: seq<Event>)
    decreases |es|
  {
    es == [] || (Ready(s, es[0]) && AllReady(Step(s, es[0]), es[1..]))
  }

  lemma SoundIsReady(s: State, e: Event)
    requires Sound(s) && Enabled(s, e) && !Step(s, e).fault
    ensures Ready(s, e)
  {
    match e
    case Recv(c, chunk) => ReadyToRecv(s, c, chunk);
    case CloseCallback(c) => ReadyToClose(s, c);
    case Fire(_) => StepFaults(s, e);
    case _ =>
  }

  lemma {:induction false} FaultStays(s: State, es: seq<Event>)
    requires Sound(s) && s.fault
    ensures Run(s, es).fault
    decreases |es|
  {
    if es == [] {
    } else {
      StepSound(s, es[0]);
      StepFaults(s, es[0]);
      FaultStays(Step(s, es[0]), es[1..]);
    }
  }

  /** As long as no fault happens, every callback finds what it needs. */
  lemma {:induction false} RunIsReady(s: State, es: seq<Event>)
    requires Sound(s) && Made(s, es) && !Run(s, es).fault
    ensures AllReady(s, es)
    decreases |es|
  {
    if es == [] {
    } else {
      var t := Step(s, es[0]);
      StepSound(s, es[0]);
      if t.fault { FaultStays(t, es[1..]); }
      SoundIsReady(s, es[0]);
      RunIsReady(t, es[1..]);
    }
  }
}
