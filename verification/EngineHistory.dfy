/** What a connection's log says about its timers, in every run and whatever the client sends. */
module EngineHistory {
  import opened Bytes
  import opened Wire
  import opened Parser
  import opened Engine
  import opened EngineMemory
  import opened EngineIsolation
  import opened RequestLog
  import opened EngineTrace

  /** A running timer and the sequence number it was started for. */
  datatype Alarm = Alarm(timer: nat, seqnum: U32)

  /** The timers that run; the one each map entry holds; and those that ever ran side by side with another
      one for the same number. */
  datatype Book = Book(running: set<Alarm>, named: map<U32, nat>, doubled: set<nat>)

  /** A timer is started under a number, whatever runs under it already. */
  function Begun(b: Book, n: U32, timer: nat): Book {
    var same := set a | a in b.running && a.seqnum == n :: a.timer;
    Book(b.running + {Alarm(timer, n)}, b.named[n := timer],
         if same == {} then b.doubled else b.doubled + same + {timer})
  }

  /** The oldest timer fires, and its number leaves the map. */
  function Fired(b: Book, n: U32): Book {
    b.(running := (set a | a in b.running && Younger(b.running, a)), named := b.named - {n})
  }

  predicate Younger(running: set<Alarm>, a: Alarm) {
    exists o | o in running :: o.timer < a.timer
  }

  /** The timer that the map holds for a number is stopped. */
  function Cancelled(b: Book, n: U32): Book {
    if n in b.named then Book(b.running - {Alarm(b.named[n], n)}, b.named - {n}, b.doubled) else b
  }

  /** What an entry does to the book of its connection. */
  function Enter(b: Book, e: Entry): Book {
    match e
    case Parked(cmd, timer, _) => if cmd.Submit? then Begun(b, cmd.header.seqnum, timer) else b
    case Nak(n, _) => Fired(b, n)
    case Swallowed(n, _) => Fired(b, n)
    case Answered(cmd, _) => if cmd.Unlink? && Unlinks(e, cmd.target) then Cancelled(b, cmd.target) else b
    case _ => b
  }

  function BookOf(log: seq<Entry>): Book
    decreases |log|
  {
    if log == [] then Book({}, map[], {}) else Enter(BookOf(log[..|log| - 1]), log[|log| - 1])
  }

  lemma BookNext(log: seq<Entry>, e: Entry)
    ensures BookOf(log + [e]) == Enter(BookOf(log), e)
  {
  }

  predicate IsNamed(b: Book, a: Alarm) {
    a.seqnum in b.named && b.named[a.seqnum] == a.timer
  }

  predicate HasTwin(running: set<Alarm>, a: Alarm) {
    exists o | o in running :: o != a && o.seqnum == a.seqnum
  }

  /** Every map entry is a running timer's; a timer without its entry has run beside another one, and so
      have two that run for one number; and one that has, but kept its entry, still runs beside another. */
  predicate Kept(b: Book, next: nat) {
    && (forall a | a in b.running :: a.timer < next)
    && (forall a, o | a in b.running && o in b.running :: a.timer == o.timer ==> a == o)
    && (forall i | i in b.doubled :: i < next)
    && (forall n | n in b.named :: Alarm(b.named[n], n) in b.running)
    && (forall a | a in b.running :: if a.timer in b.doubled then IsNamed(b, a) ==> HasTwin(b.running, a)
                                     else IsNamed(b, a) && !HasTwin(b.running, a))
  }

  /** A number was submitted again before an earlier timer for it had fired, and one of the timers involved
      is still running. */
  predicate Overlaps(b: Book) {
    exists a | a in b.running :: a.timer in b.doubled
  }

  lemma BegunKept(b: Book, n: U32, timer: nat)
    requires Kept(b, timer)
    ensures Kept(Begun(b, n, timer), timer + 1)
  {
    var t, x := Begun(b, n, timer), Alarm(timer, n);
    var same := set a | a in b.running && a.seqnum == n :: a.timer;
    forall a | a in b.running ensures a.timer in same <==> a.seqnum == n {
    }
    forall a | a in t.running
      ensures if a.timer in t.doubled then IsNamed(t, a) ==> HasTwin(t.running, a)
              else IsNamed(t, a) && !HasTwin(t.running, a)
    {
      if a == x {
        if same != {} {
          var i :| i in same;
          assert Alarm(i, n) in t.running;
        }
      } else {
        assert HasTwin(b.running, a) ==> HasTwin(t.running, a);
      }
    }
  }

  /** A timer is gone together with the map entry of its number. */
  lemma LessKept(b: Book, x: Alarm, next: nat)
    requires Kept(b, next) && x in b.running
    ensures Kept(Book(b.running - {x}, b.named - {x.seqnum}, b.doubled), next)
  {
    var t := Book(b.running - {x}, b.named - {x.seqnum}, b.doubled);
    forall a | a in t.running
      ensures if a.timer in t.doubled then IsNamed(t, a) ==> HasTwin(t.running, a)
              else IsNamed(t, a) && !HasTwin(t.running, a)
    {
      assert HasTwin(t.running, a) ==> HasTwin(b.running, a);
      if a.seqnum == x.seqnum {
        assert HasTwin(b.running, a);
      } else if HasTwin(b.running, a) {
        var o :| o in b.running && o != a && o.seqnum == a.seqnum;
        assert o in t.running;
      }
    }
  }

  /** Every running timer still has its map entry exactly when none of them overlap. */
  lemma NamedExactlyWhen(b: Book, next: nat)
    requires Kept(b, next)
    ensures (forall a | a in b.running :: IsNamed(b, a)) <==> !Overlaps(b)
  {
    if Overlaps(b) {
      var a :| a in b.running && a.timer in b.doubled;
      if IsNamed(b, a) {
        var o :| o in b.running && o != a && o.seqnum == a.seqnum;
        assert !IsNamed(b, o);
      }
    }
  }

  predicate Hung(log: seq<Entry>) {
    exists e | e in log :: e.HungUp?
  }

  predicate Ended(log: seq<Entry>) {
    exists e | e in log :: e.Dropped?
  }

  /** What may come next on a connection as far as its end is concerned. */
  predicate MayFollow(log: seq<Entry>, e: Entry) {
    !Ended(log) && if e.Swallowed? || e.Dropped? then Hung(log) else !Hung(log)
  }

  predicate Quiet(log: seq<Entry>)
    decreases |log|
  {
    log == [] || (Quiet(log[..|log| - 1]) && MayFollow(log[..|log| - 1], log[|log| - 1]))
  }

  lemma QuietNext(log: seq<Entry>, e: Entry)
    requires Quiet(log) && MayFollow(log, e)
    ensures Quiet(log + [e])
    ensures Hung(log + [e]) <==> Hung(log) || e.HungUp?
    ensures Ended(log + [e]) <==> Ended(log) || e.Dropped?
  {
    assert (log + [e])[..|log|] == log;
  }

  /** The book agrees with what the server keeps for a connection. */
  predicate Agreed(s: State, c: nat, b: Book)
    requires c in s.clients
  {
    && Kept(b, s.nextTimer) && b.named == s.clients[c].pending
    && (forall a | a in b.running ::
          a.timer in s.armed && s.armed[a.timer].client == c && s.armed[a.timer].seqnum == a.seqnum)
    && forall i | i in s.armed && s.armed[i].client == c :: Alarm(i, s.armed[i].seqnum) in b.running
  }

  /** Nothing is handled after a close was requested, and a live connection's map and timers are those its
      log tells of. */
  predicate Recorded(s: State, c: nat) {
    && c in s.logs && Quiet(s.logs[c])
    && (c in s.clients ==>
          && !Ended(s.logs[c]) && (Hung(s.logs[c]) <==> s.clients[c].closing) && Agreed(s, c, BookOf(s.logs[c])))
  }

  lemma UntouchedRecorded(s: State, t: State, c: nat)
    requires Recorded(s, c) && Untouched(s, t, c) && s.nextTimer <= t.nextTimer
    ensures Recorded(t, c)
  {
  }

  lemma ParserRecorded(s: State, c: nat, p: Parser)
    requires Recorded(s, c) && c in s.clients
    ensures Recorded(WithClient(s, c, s.clients[c].(parser := p)), c)
  {
  }

  /** An entry that starts and stops no timer. */
  lemma AnswerRecorded(s: State, c: nat, e: Entry)
    requires Recorded(s, c) && Open(s, c) && (e.Refused? || (e.Answered? && !e.cmd.Unlink?))
    ensures Recorded(Log(s, c, e), c)
  {
    QuietNext(s.logs[c], e);
    BookNext(s.logs[c], e);
  }

  lemma HangUpRecorded(s: State, c: nat)
    requires Recorded(s, c) && Open(s, c)
    ensures Recorded(HangUp(s, c), c)
  {
    QuietNext(s.logs[c], HungUp);
    BookNext(s.logs[c], HungUp);
  }

  lemma RefuseRecorded(s: State, c: nat, e: Entry)
    requires Recorded(s, c) && Open(s, c) && (e.Refused? || (e.Answered? && !e.cmd.Unlink?))
    ensures Recorded(HangUp(Log(s, c, e), c), c)
  {
    AnswerRecorded(s, c, e);
    HangUpRecorded(Log(s, c, e), c);
  }

  lemma ParkRecorded(s: State, c: nat, cmd: Command)
    requires Recorded(s, c) && Open(s, c) && Numbered(s) && cmd.Submit?
    ensures Recorded(Park(s, c, cmd), c)
  {
    var e := Parked(cmd, s.nextTimer, s.now);
    QuietNext(s.logs[c], e);
    BookNext(s.logs[c], e);
    BegunKept(BookOf(s.logs[c]), cmd.header.seqnum, s.nextTimer);
  }

  lemma UnlinkRecorded(s: State, c: nat, cmd: Command)
    requires Recorded(s, c) && Open(s, c) && cmd.Unlink?
    ensures Recorded(Handle(s, c, cmd), c)
  {
    var b, n := BookOf(s.logs[c]), cmd.target;
    var e := Answered(cmd, RetUnlink(cmd.seqnum, UnlinkStatus(s.clients[c], n)));
    QuietNext(s.logs[c], e);
    BookNext(s.logs[c], e);
    assert Unlinks(e, n) <==> n in b.named;
    if n in b.named { LessKept(b, Alarm(b.named[n], n), s.nextTimer); }
  }

  lemma HandleRecorded(s: State, c: nat, cmd: Command)
    requires Recorded(s, c) && Open(s, c) && Numbered(s)
    ensures Recorded(Handle(s, c, cmd), c)
  {
    match cmd
    case Devlist => AnswerRecorded(s, c, Answered(cmd, RepDevlist([s.device.entry])));
    case Import(busid) =>
      if KnownBusid(busid) {
        AnswerRecorded(s, c, Answered(cmd, RepImport(0, s.device.entry.record)));
      } else {
        RefuseRecorded(s, c, Answered(cmd, RepImport(1, [])));
      }
    case Rejected => RefuseRecorded(s, c, Refused(cmd));
    case Submit(h, _) =>
      if InterruptEndpoint(h.ep) {
        ParkRecorded(s, c, cmd);
      } else {
        AnswerRecorded(s, c, Answered(cmd, RetSubmit(h.seqnum, h.startFrame, SubmitData(s, h))));
      }
    case Unlink(_, _) => UnlinkRecorded(s, c, cmd);
    case OtherUsb(_, seqnum) => AnswerRecorded(s, c, Answered(cmd, RetOther(seqnum)));
  }

  lemma HandleTimers(s: State, c: nat, cmd: Command)
    requires c in s.clients
    ensures s.nextTimer <= Handle(s, c, cmd).nextTimer
  {
    match cmd
    case Unlink(_, target) => assert Cancel(s, c, target).nextTimer == s.nextTimer;
    case _ =>
  }

  /** The timer that fires is the oldest of its connection. */
  lemma DueIsFirst(s: State, i: nat, b: Book)
    requires Ordered(s) && Due(s, i) && s.armed[i].client in s.clients && Agreed(s, s.armed[i].client, b)
    ensures Fired(b, s.armed[i].seqnum).running == b.running - {Alarm(i, s.armed[i].seqnum)}
  {
    var x := Alarm(i, s.armed[i].seqnum);
    assert forall a | a in b.running && a != x :: i < a.timer;
    assert !Younger(b.running, x);
    forall a | a in b.running && a != x ensures Younger(b.running, a) {
      assert x in b.running;
    }
  }

  lemma ExpireRecorded(s: State, i: nat)
    requires Sound(s) && Ordered(s) && Due(s, i) && Recorded(s, s.armed[i].client)
    ensures Recorded(Expire(s, i), s.armed[i].client)
  {
    var Timer(c, n, _) := s.armed[i];
    if c in s.clients {
      DueIsFirst(s, i, BookOf(s.logs[c]));
      FireRecorded(s, i, c, n, if s.clients[c].closing then Swallowed(n, s.now) else Nak(n, s.now));
    }
  }

  lemma FireRecorded(s: State, i: nat, c: nat, n: U32, e: Entry)
    requires Sound(s) && i in s.armed && s.armed[i].client == c && s.armed[i].seqnum == n && c in s.clients
    requires Recorded(s, c) && e == if s.clients[c].closing then Swallowed(n, s.now) else Nak(n, s.now)
    requires Fired(BookOf(s.logs[c]), n).running == BookOf(s.logs[c]).running - {Alarm(i, n)}
    ensures Recorded(Log(Forget(CloseTimer(s, i), c, n), c, e), c)
  {
    var t := Forget(CloseTimer(s, i), c, n);
    FireAgreed(s, i, c, n, BookOf(s.logs[c]));
    assert t.logs == s.logs && t.clients[c].closing == s.clients[c].closing;
    EntryRecorded(t, c, e, BookOf(s.logs[c]));
  }

  lemma FireAgreed(s: State, i: nat, c: nat, n: U32, b: Book)
    requires i in s.armed && s.armed[i].client == c && s.armed[i].seqnum == n && c in s.clients && Agreed(s, c, b)
    ensures Agreed(Forget(CloseTimer(s, i), c, n), c, Book(b.running - {Alarm(i, n)}, b.named - {n}, b.doubled))
  {
    LessKept(b, Alarm(i, n), s.nextTimer);
  }

  /** An entry is logged once its effect on the timers has been made. */
  lemma EntryRecorded(t: State, c: nat, e: Entry, b: Book)
    requires c in t.clients && c in t.logs && Quiet(t.logs[c]) && b == BookOf(t.logs[c]) && !Ended(t.logs[c])
    requires (Hung(t.logs[c]) <==> t.clients[c].closing) && MayFollow(t.logs[c], e) && !e.HungUp? && !e.Dropped?
    requires Agreed(t, c, Enter(b, e))
    ensures Recorded(Log(t, c, e), c)
  {
    QuietNext(t.logs[c], e);
    BookNext(t.logs[c], e);
    assert Agreed(Log(t, c, e), c, Enter(b, e));
  }

  lemma CloseRecorded(s: State, c: nat)
    requires Recorded(s, c) && c in s.clients && s.clients[c].closing
    ensures Recorded(Close(s, c), c)
  {
    QuietNext(s.logs[c], Dropped(s.clients[c].pending.Keys));
  }

  lemma ArriveRecorded(s: State, accepted: bool)
    requires Numbered(s)
    ensures Recorded(Arrive(s, accepted), s.nextClient)
  {
    var log := FirstEntries(accepted);
    if !accepted {
      QuietNext([], HungUp);
      BookNext([], HungUp);
      assert [] + [HungUp] == log;
    }
    assert Kept(BookOf(log), s.nextTimer);
  }

  lemma StopRecorded(s: State, c: nat)
    requires Sound(s) && c in s.listed && Recorded(s, c)
    ensures Recorded(StopAll(s), c)
  {
    QuietNext(s.logs[c], HungUp);
    BookNext(s.logs[c], HungUp);
  }

  /** The invariant, for every connection there has been. */
  ghost predicate AllRecorded(s: State) {
    Sound(s) && Ordered(s) && Logged(s) && forall c: nat :: c < s.nextClient ==> Recorded(s, c)
  }

  lemma TurnRecorded(s: State, c: nat, f: Cut)
    requires AllRecorded(s) && Open(s, c) && f.Frame? && f.size <= |s.clients[c].parser.buf|
    requires HangsUp(f.cmd) ==> f.size == |s.clients[c].parser.buf|
    ensures AllRecorded(Turn(s, c, f)) && Serving(Turn(s, c, f), c)
  {
    var h, t := Handle(s, c, f.cmd), Turn(s, c, f);
    TurnSound(s, c, f);
    HandleOrdered(s, c, f.cmd);
    HandleKeepsNumbers(s, c, f.cmd);
    HandleTimers(s, c, f.cmd);
    forall d: nat | d < t.nextClient ensures Recorded(t, d) {
      if d == c {
        HandleRecorded(s, c, f.cmd);
        ParserRecorded(h, c, Accept(s.clients[c].parser, f));
      } else {
        TurnOthers(s, c, f, d);
        UntouchedRecorded(s, t, d);
      }
    }
  }

  lemma {:induction false} ServeRecorded(s: State, c: nat)
    requires AllRecorded(s) && Serving(s, c)
    ensures AllRecorded(Serve(s, c))
    decreases |s.clients[c].parser.buf|
  {
    var p := s.clients[c].parser;
    if p.buf == [] || CutFrame(p.phase, p.buf).NeedMore? {
    } else {
      var f := CutFrame(p.phase, p.buf);
      if HangsUp(f.cmd) { HangUpTakesAll(p.phase, p.buf); }
      TurnRecorded(s, c, f);
      ServeRecorded(Turn(s, c, f), c);
    }
  }

  lemma BufferedRecorded(s: State, c: nat, chunk: seq<Byte>)
    requires AllRecorded(s) && Open(s, c)
    ensures AllRecorded(Buffered(s, c, chunk))
  {
    var p, t := s.clients[c].parser.(buf := s.clients[c].parser.buf + chunk), Buffered(s, c, chunk);
    ParserSound(s, c, p);
    forall d: nat | d < t.nextClient ensures Recorded(t, d) {
      if d == c { ParserRecorded(s, c, p); } else { UntouchedRecorded(s, t, d); }
    }
  }

  lemma OwnStepRecorded(s: State, e: Event, c: nat)
    requires Sound(s) && Ordered(s) && Enabled(s, e) && Concerns(s, e, c) && !e.Recv?
    requires c == s.nextClient || Recorded(s, c)
    ensures Recorded(Step(s, e), c)
  {
    match e
    case Connect(accepted) => ArriveRecorded(s, accepted);
    case Eof(_) => HangUpRecorded(s, c);
    case CloseCallback(_) => CloseRecorded(s, c);
    case Fire(i) => ExpireRecorded(s, i);
    case Stop => StopRecorded(s, c);
    case _ =>
  }

  lemma OtherStepRecorded(s: State, e: Event)
    requires AllRecorded(s) && Enabled(s, e) && !e.Recv?
    ensures AllRecorded(Step(s, e))
  {
    var t := Step(s, e);
    StepSound(s, e);
    StepOrdered(s, e);
    StepNumbers(s, e);
    forall c: nat | c < t.nextClient ensures Recorded(t, c) {
      if Concerns(s, e, c) {
        OwnStepRecorded(s, e, c);
      } else {
        StepLeavesOthersAlone(s, e, c);
        UntouchedRecorded(s, t, c);
      }
    }
  }

  lemma StepRecorded(s: State, e: Event)
    requires AllRecorded(s)
    ensures AllRecorded(Step(s, e))
  {
    if Enabled(s, e) {
      if e.Recv? {
        BufferedRecorded(s, e.client, e.chunk);
        ServeRecorded(Buffered(s, e.client, e.chunk), e.client);
      } else {
        OtherStepRecorded(s, e);
      }
    }
  }

  lemma {:induction false} RunRecorded(s: State, es: seq<Event>)
    requires AllRecorded(s)
    ensures AllRecorded(Run(s, es))
    decreases |es|
  {
    if es == [] {
    } else {
      StepRecorded(s, es[0]);
      RunRecorded(Step(s, es[0]), es[1..]);
    }
  }

  /** Every run keeps the books of all its connections, whatever the clients send. */
  lemma EveryRunIsRecorded(device: Device, status: UpsStatus.Status, es: seq<Event>)
    ensures AllRecorded(Run(Init(device, status), es))
  {
    InitSound(device, status);
    RunRecorded(Init(device, status), es);
  }

  lemma {:induction false} QuietAfter(log: seq<Entry>, i: nat, j: nat)
    requires Quiet(log) && i < j < |log|
    ensures log[i].HungUp? ==> log[j].Swallowed? || log[j].Dropped?
    ensures !log[i].Dropped?
    decreases |log|
  {
    var before := log[..|log| - 1];
    if j == |log| - 1 {
      assert before[i] in before;
    } else {
      QuietAfter(before, i, j);
    }
  }

  /** On every connection of every run, nothing is handled or answered once a close was requested, and
      nothing at all happens after the close callback. */
  lemma SilentAfterClose(device: Device, status: UpsStatus.Status, es: seq<Event>, c: nat, i: nat, j: nat)
    requires var t := Run(Init(device, status), es); c < t.nextClient && (c in t.logs ==> i < j < |t.logs[c]|)
    ensures var t := Run(Init(device, status), es);
      && c in t.logs
      && (t.logs[c][i].HungUp? ==> t.logs[c][j].Swallowed? || t.logs[c][j].Dropped?)
      && !t.logs[c][i].Dropped?
  {
    EveryRunIsRecorded(device, status, es);
    var t := Run(Init(device, status), es);
    assert Recorded(t, c);
    QuietAfter(t.logs[c], i, j);
  }
}
