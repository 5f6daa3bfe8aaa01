/** Bytes out: which replies a connection gets, and that its client can take them apart again. */
module EngineReplies {
  import opened Bytes
  import opened Wire
  import opened Parser
  import opened Reader
  import opened UpsStatus
  import opened Control
  import opened Engine
  import opened EngineMemory
  import opened EngineIsolation
  import opened EngineStream
  import opened RequestLog

  /** The commands a connection's log says were accepted. */
  function Commands(log: seq<Entry>): seq<Command> {
    if log == [] then [] else
    var e := log[|log| - 1];
    Commands(log[..|log| - 1]) + if e.Answered? || e.Parked? || e.Refused? then [e.cmd] else []
  }

  /** The replies it says were written. A NAK is an empty RET_SUBMIT. */
  function Replies(log: seq<Entry>): seq<Reply> {
    if log == [] then [] else
    var e := log[|log| - 1];
    Replies(log[..|log| - 1]) + if e.Answered? then [e.reply] else if e.Nak? then [RetSubmit(e.seqnum, 0, [])] else []
  }

  lemma LogGrows(log: seq<Entry>, e: Entry)
    ensures Commands(log + [e]) == Commands(log) + if e.Answered? || e.Parked? || e.Refused? then [e.cmd] else []
    ensures Replies(log + [e]) ==
      Replies(log) + if e.Answered? then [e.reply] else if e.Nak? then [RetSubmit(e.seqnum, 0, [])] else []
  {
  }

  /** Whether the client has been told of a successful import. */
  function ImportedBy(rs: seq<Reply>): bool {
    rs != [] && (ImportedBy(rs[..|rs| - 1]) || Imports(rs[|rs| - 1]))
  }

  lemma {:induction false} ShapedNext(imported: bool, rs: seq<Reply>, r: Reply)
    requires Shaped(imported, rs) && InPhase(imported || ImportedBy(rs), r)
    ensures Shaped(imported, rs + [r])
    decreases |rs|
  {
    var more := rs + [r];
    if rs == [] {
      assert more[1..] == [];
    } else {
      assert more[0] == rs[0] && more[1..] == rs[1..] + [r];
      ImportedHead(rs);
      ShapedNext(imported || Imports(rs[0]), rs[1..], r);
    }
  }

  lemma {:induction false} ImportedHead(rs: seq<Reply>)
    requires rs != []
    ensures ImportedBy(rs) == (Imports(rs[0]) || ImportedBy(rs[1..]))
    decreases |rs|
  {
    if |rs| > 1 {
      assert rs[..|rs| - 1][1..] == rs[1..][..|rs| - 2];
      ImportedHead(rs[..|rs| - 1]);
    } else {
      assert rs[..0] == [];
    }
  }

  lemma ImportedNext(rs: seq<Reply>, r: Reply)
    ensures ImportedBy(rs + [r]) == (ImportedBy(rs) || Imports(r))
  {
  }

  /** A device whose record and control replies fit the wire format. */
  ghost predicate GoodDevice(d: Device) {
    && GoodEntry(d.entry)
    && forall st, su :: |d.control(st, su)| <= su.length
  }

  /** Whether the device answers a request with data does not depend on what the status is. */
  ghost predicate Steady(d: Device) {
    forall st, other, su :: d.control(st, su) == [] ==> d.control(other, su) == []
  }

  ghost predicate HonestData(d: Device, h: SubmitHeader, data: seq<Byte>) {
    if h.ep == 0 && |h.setup| == 8 then exists st :: data == d.control(st, SetupOf(h.setup)) else data == []
  }

  /** Every reply is of the right kind and carries its request's number, and what the device exports is
      what the replies carry: its one entry in the device list, its record in a
      granted import, and data only on the control endpoint, as its answer to the setup packet. */
  ghost predicate Honest(d: Device, e: Entry) {
    && (e.Answered? ==> Answers(e.cmd, e.reply) && HonestReply(d, e.cmd, e.reply))
    && (e.Parked? ==> IsInterrupt(e.cmd))
    && (e.Refused? ==> e.cmd == Rejected)
  }

  ghost predicate HonestReply(d: Device, cmd: Command, r: Reply)
    requires Answers(cmd, r)
  {
    match cmd
    case Devlist => r == RepDevlist([d.entry])
    case Import(busid) => r == if KnownBusid(busid) then RepImport(0, d.entry.record) else RepImport(1, [])
    case Submit(h, _) => HonestData(d, h, r.data)
    case Unlink(_, _) => r.result == 0 || r.result == -ECONNRESET
    case _ => true
  }

  ghost predicate HonestLog(d: Device, log: seq<Entry>) {
    forall k | 0 <= k < |log| :: Honest(d, log[k])
  }

  lemma HonestNext(d: Device, log: seq<Entry>, e: Entry)
    requires HonestLog(d, log) && Honest(d, e)
    ensures HonestLog(d, log + [e])
  {
  }

  predicate HasTimer(s: State, c: nat) {
    exists i | i in s.armed :: s.armed[i].client == c
  }

  /** What the server keeps for a connection agrees with its log: the accepted commands, and the imported
      state exactly after a successful import reply. Only two states occur, and only an importing
      connection has timers running. */
  ghost predicate Agrees(s: State, c: nat) {
    && c in s.logs && Shaped(false, Replies(s.logs[c])) && HonestLog(s.device, s.logs[c])
    && (c in s.clients ==>
          var x := s.clients[c];
          && Commands(s.logs[c]) == x.parser.cmds
          && (x.parser.closed ==> x.closing)
          && (x.parser.phase == WaitingCommand || x.parser.phase == Imported)
          && (x.parser.phase == Imported <==> ImportedBy(Replies(s.logs[c])))
          && (HasTimer(s, c) ==> x.parser.phase == Imported))
  }

  /** Each state accepts its own kind of commands. */
  lemma CutKind(phase: Phase, buf: seq<Byte>)
    requires buf != [] && CutFrame(phase, buf).Frame?
    ensures var cmd := CutFrame(phase, buf).cmd;
      && (phase == WaitingCommand ==> cmd.Devlist? || cmd.Import? || cmd.Rejected?)
      && (phase == Imported ==> cmd.Submit? || cmd.Unlink? || cmd.OtherUsb?)
  {
  }

  /** One command and its reply keep a connection in agreement, whatever else the log entry does. */
  lemma AnswerAgrees(log: seq<Entry>, p: Parser, f: Cut, e: Entry)
    requires f.Frame? && f.size <= |p.buf|
    requires Shaped(false, Replies(log)) && Commands(log) == p.cmds
    requires (p.phase == Imported <==> ImportedBy(Replies(log))) && (p.phase == WaitingCommand || p.phase == Imported)
    requires (e.Answered? || e.Parked? || e.Refused?) && e.cmd == f.cmd
    requires e.Answered? ==>
      InPhase(p.phase == Imported, e.reply) && (Imports(e.reply) <==> f.cmd.Import? && KnownBusid(f.cmd.busid))
    requires !e.Answered? ==> !f.cmd.Import?
    ensures var q, l := Accept(p, f), log + [e];
      && Shaped(false, Replies(l)) && Commands(l) == q.cmds
      && (q.phase == Imported <==> ImportedBy(Replies(l))) && (q.phase == WaitingCommand || q.phase == Imported)
  {
    LogGrows(log, e);
    if e.Answered? {
      ShapedNext(false, Replies(log), e.reply);
      ImportedNext(Replies(log), e.reply);
    } else {
      assert Replies(log) + [] == Replies(log);
    }
  }

  /** The log entry a command gets. */
  function EntryFor(s: State, c: nat, cmd: Command): Entry
    requires c in s.clients
  {
    match cmd
    case Devlist => Answered(cmd, RepDevlist([s.device.entry]))
    case Import(busid) =>
      Answered(cmd, if KnownBusid(busid) then RepImport(0, s.device.entry.record) else RepImport(1, []))
    case Rejected => Refused(cmd)
    case Submit(h, _) =>
      if InterruptEndpoint(h.ep) then Parked(cmd, s.nextTimer, s.now)
      else Answered(cmd, RetSubmit(h.seqnum, h.startFrame, SubmitData(s, h)))
    case Unlink(seqnum, target) => Answered(cmd, RetUnlink(seqnum, UnlinkStatus(s.clients[c], target)))
    case OtherUsb(_, seqnum) => Answered(cmd, RetOther(seqnum))
  }

  lemma HandleLog(s: State, c: nat, cmd: Command)
    requires c in s.clients && c in s.logs
    ensures var t := Handle(s, c, cmd);
      c in t.logs && t.logs[c] == s.logs[c] + [EntryFor(s, c, cmd)] + if HangsUp(cmd) then [HungUp] else []
  {
    match cmd
    case Unlink(_, target) => assert Cancel(s, c, target).logs == s.logs;
    case Submit(h, _) =>
      if InterruptEndpoint(h.ep) {
        assert Park(s, c, cmd).logs[c] == s.logs[c] + [EntryFor(s, c, cmd)];
      }
    case _ =>
  }

  lemma HandleClient(s: State, c: nat, cmd: Command)
    requires c in s.clients
    ensures var x, y := s.clients[c], Handle(s, c, cmd).clients[c];
      && y.closing == (x.closing || HangsUp(cmd))
      && (!cmd.Submit? && !HasTimer(s, c) ==> !HasTimer(Handle(s, c, cmd), c))
  {
    match cmd
    case Unlink(_, target) => assert Cancel(s, c, target).clients[c].closing == s.clients[c].closing;
    case Submit(_, _) =>
    case _ =>
  }

  lemma HandleNumbers(s: State, c: nat, cmd: Command)
    requires c in s.clients
    ensures Handle(s, c, cmd).nextClient == s.nextClient && Handle(s, c, cmd).device == s.device
  {
    match cmd
    case Unlink(_, _) =>
    case Submit(_, _) =>
    case _ =>
  }

  /** The reply to a command is well formed and of the kind the connection's state allows. */
  lemma ReplyInPhase(s: State, c: nat, cmd: Command, phase: Phase)
    requires c in s.clients && GoodDevice(s.device)
    requires phase == WaitingCommand ==> cmd.Devlist? || cmd.Import? || cmd.Rejected?
    requires phase == Imported ==> cmd.Submit? || cmd.Unlink? || cmd.OtherUsb?
    requires phase == WaitingCommand || phase == Imported
    ensures var e := EntryFor(s, c, cmd);
      && (e.Answered? ==>
            InPhase(phase == Imported, e.reply) && (Imports(e.reply) <==> cmd.Import? && KnownBusid(cmd.busid)))
      && (!e.Answered? ==> !cmd.Import?)
  {
  }

  /** A log entry that is neither a command nor a NAK leaves the agreement as it is. */
  lemma QuietAgrees(log: seq<Entry>, e: Entry)
    requires e.HungUp? || e.Swallowed? || e.Dropped?
    ensures Commands(log + [e]) == Commands(log) && Replies(log + [e]) == Replies(log)
  {
  }

  lemma TurnAgrees(s: State, c: nat, f: Cut)
    requires Agrees(s, c) && Open(s, c) && GoodDevice(s.device)
    requires s.clients[c].parser.buf != [] && f.Frame?
      && f == CutFrame(s.clients[c].parser.phase, s.clients[c].parser.buf)
    ensures Agrees(Turn(s, c, f), c) && Turn(s, c, f).device == s.device
  {
    var p, e := s.clients[c].parser, EntryFor(s, c, f.cmd);
    CutKind(p.phase, p.buf);
    ReplyInPhase(s, c, f.cmd, p.phase);
    AnswerAgrees(s.logs[c], p, f, e);
    QuietAgrees(s.logs[c] + [e], HungUp);
    TurnLog(s, c, f, e);
    HonestEntry(s, c, f.cmd);
    HonestNext(s.device, s.logs[c], e);
    HonestNext(s.device, s.logs[c] + [e], HungUp);
  }

  lemma HonestEntry(s: State, c: nat, cmd: Command)
    requires c in s.clients
    ensures Honest(s.device, EntryFor(s, c, cmd))
  {
  }

  lemma TurnLog(s: State, c: nat, f: Cut, e: Entry)
    requires c in s.clients && c in s.logs && f.Frame? && f.size <= |s.clients[c].parser.buf|
      && e == EntryFor(s, c, f.cmd)
    ensures var t := Turn(s, c, f);
      && c in t.logs && t.logs[c] == (if HangsUp(f.cmd) then s.logs[c] + [e] + [HungUp] else s.logs[c] + [e])
      && t.clients[c].closing == (s.clients[c].closing || HangsUp(f.cmd))
      && t.device == s.device
      && (!f.cmd.Submit? && !HasTimer(s, c) ==> !HasTimer(t, c))
  {
    HandleLog(s, c, f.cmd);
    HandleClient(s, c, f.cmd);
    HandleNumbers(s, c, f.cmd);
    assert s.logs[c] + [e] + [] == s.logs[c] + [e];
  }

  /** The read loop of the server is the read loop of the connection's parser. */
  lemma {:induction false} ServeDrains(s: State, c: nat)
    requires c in s.clients
    ensures c in Serve(s, c).clients && Serve(s, c).clients[c].parser == Drain(s.clients[c].parser)
    decreases |s.clients[c].parser.buf|
  {
    var p := s.clients[c].parser;
    if p.buf == [] || CutFrame(p.phase, p.buf).NeedMore? {
    } else {
      ServeDrains(Turn(s, c, CutFrame(p.phase, p.buf)), c);
    }
  }

  lemma TurnServing(s: State, c: nat)
    requires Open(s, c) && s.clients[c].parser.buf != []
    requires CutFrame(s.clients[c].parser.phase, s.clients[c].parser.buf).Frame?
    ensures Serving(Turn(s, c, CutFrame(s.clients[c].parser.phase, s.clients[c].parser.buf)), c)
  {
    var p := s.clients[c].parser;
    var f := CutFrame(p.phase, p.buf);
    if HangsUp(f.cmd) {
      HangUpTakesAll(p.phase, p.buf);
    }
    HandleStaysOpen(s, c, f.cmd);
  }

  lemma {:induction false} ServeAgrees(s: State, c: nat)
    requires Agrees(s, c) && Serving(s, c) && GoodDevice(s.device)
    ensures Agrees(Serve(s, c), c) && Serve(s, c).device == s.device
    decreases |s.clients[c].parser.buf|
  {
    var p := s.clients[c].parser;
    if p.buf == [] || CutFrame(p.phase, p.buf).NeedMore? {
    } else {
      var f := CutFrame(p.phase, p.buf);
      var t := Turn(s, c, f);
      ServeTurn(s, c, f);
      TurnServing(s, c);
      TurnAgrees(s, c, f);
      ServeAgrees(t, c);
    }
  }

  lemma ServeTurn(s: State, c: nat, f: Cut)
    requires c in s.clients && s.clients[c].parser.buf != []
    requires f.Frame? && f == CutFrame(s.clients[c].parser.phase, s.clients[c].parser.buf)
    ensures Serve(s, c) == Serve(Turn(s, c, f), c)
    ensures Turn(s, c, f).clients[c].parser == Accept(s.clients[c].parser, f)
  {
  }

  /** Receiving bytes feeds them to the connection's parser. */
  lemma RecvAgrees(s: State, c: nat, chunk: seq<Byte>)
    requires Agrees(s, c) && GoodDevice(s.device) && Open(s, c) && chunk != []
    ensures var t := Step(s, Recv(c, chunk));
      && Agrees(t, c) && c in t.clients && t.clients[c].parser == Feed(s.clients[c].parser, chunk)
      && t.device == s.device
  {
    ServeAgrees(Buffered(s, c, chunk), c);
    ServeDrains(Buffered(s, c, chunk), c);
  }

  lemma ExpireAgrees(s: State, i: nat)
    requires Sound(s) && i in s.armed && Agrees(s, s.armed[i].client)
    ensures Agrees(Expire(s, i), s.armed[i].client)
  {
    var Timer(c, n, _) := s.armed[i];
    var log := s.logs[c];
    assert c in s.clients ==> HasTimer(s, c);
    if c !in s.clients {
    } else if s.clients[c].closing {
      QuietAgrees(log, Swallowed(n, s.now));
    } else {
      var nak := RetSubmit(n, 0, []);
      LogGrows(log, Nak(n, s.now));
      assert s.clients[c].parser.phase == Imported;
      ShapedNext(false, Replies(log), nak);
      ImportedNext(Replies(log), nak);
    }
  }

  ghost predicate AllAgree(s: State) {
    GoodDevice(s.device) && forall c: nat :: c < s.nextClient ==> Agrees(s, c)
  }

  lemma UntouchedAgrees(s: State, t: State, c: nat)
    requires Agrees(s, c) && Untouched(s, t, c) && t.device == s.device
    ensures Agrees(t, c)
  {
  }

  lemma HangUpAgrees(s: State, c: nat)
    requires Agrees(s, c) && c in s.clients
    ensures Agrees(HangUp(s, c), c)
  {
    UnlistedAgrees(s, c);
    LogQuietly(Unlisted(s, c), c, HungUp);
  }

  lemma UnlistedAgrees(s: State, c: nat)
    requires Agrees(s, c) && c in s.clients
    ensures Agrees(Unlisted(s, c), c)
  {
    var t := Unlisted(s, c);
    assert t.logs == s.logs && t.armed == s.armed && t.device == s.device;
    assert HasTimer(t, c) ==> HasTimer(s, c);
  }

  lemma LogQuietly(s: State, c: nat, e: Entry)
    requires Agrees(s, c) && (e.HungUp? || e.Swallowed? || e.Dropped?)
    ensures Agrees(Log(s, c, e), c)
  {
    var t := Log(s, c, e);
    QuietAgrees(s.logs[c], e);
    HonestNext(s.device, s.logs[c], e);
    assert t.logs[c] == s.logs[c] + [e] && t.clients == s.clients && t.armed == s.armed;
    assert HasTimer(t, c) ==> HasTimer(s, c);
  }

  lemma CloseAgrees(s: State, c: nat)
    requires Agrees(s, c) && c in s.clients
    ensures Agrees(Close(s, c), c)
  {
    QuietAgrees(s.logs[c], Dropped(s.clients[c].pending.Keys));
  }

  lemma StopAgrees(s: State, c: nat)
    requires Agrees(s, c) && c in s.listed
    ensures Agrees(StopAll(s), c)
  {
    QuietAgrees(s.logs[c], HungUp);
  }

  lemma ArriveAgrees(s: State, accepted: bool)
    requires Numbered(s)
    ensures Agrees(Arrive(s, accepted), s.nextClient)
  {
  }

  lemma OwnStepAgrees(s: State, e: Event, c: nat)
    requires Sound(s) && AllAgree(s) && Enabled(s, e) && Concerns(s, e, c) && (e.Connect? || c < s.nextClient)
    ensures Agrees(Step(s, e), c)
  {
    match e
    case Connect(accepted) => ArriveAgrees(s, accepted);
    case Recv(_, chunk) => RecvAgrees(s, c, chunk);
    case Eof(_) => HangUpAgrees(s, c);
    case CloseCallback(_) => CloseAgrees(s, c);
    case Fire(i) => ExpireAgrees(s, i);
    case Stop => StopAgrees(s, c);
    case _ =>
  }

  lemma {:induction false} ServeNumbers(s: State, c: nat)
    requires c in s.clients && c in s.logs
    ensures Serve(s, c).nextClient == s.nextClient && Serve(s, c).device == s.device
    decreases |s.clients[c].parser.buf|
  {
    var p := s.clients[c].parser;
    if p.buf == [] || CutFrame(p.phase, p.buf).NeedMore? {
    } else {
      var f := CutFrame(p.phase, p.buf);
      HandleLog(s, c, f.cmd);
      HandleNumbers(s, c, f.cmd);
      ServeNumbers(Turn(s, c, f), c);
    }
  }

  lemma DeviceStays(s: State, e: Event)
    requires Sound(s) && AllAgree(s)
    ensures var t := Step(s, e);
      t.device == s.device && t.nextClient == s.nextClient + One(e.Connect? && Enabled(s, e))
  {
    if Enabled(s, e) && e.Recv? {
      assert e.client < s.nextClient && Agrees(s, e.client);
      ServeNumbers(Buffered(s, e.client, e.chunk), e.client);
    }
  }

  lemma StepAgrees(s: State, e: Event)
    requires Sound(s) && AllAgree(s)
    ensures AllAgree(Step(s, e))
  {
    var t := Step(s, e);
    DeviceStays(s, e);
    if Enabled(s, e) {
      forall c: nat | c < t.nextClient ensures Agrees(t, c) {
        if Concerns(s, e, c) {
          OwnStepAgrees(s, e, c);
        } else {
          StepLeavesOthersAlone(s, e, c);
          UntouchedAgrees(s, t, c);
        }
      }
    }
  }

  lemma {:induction false} RunAgrees(s: State, es: seq<Event>)
    requires Sound(s) && AllAgree(s)
    ensures AllAgree(Run(s, es)) && Run(s, es).device == s.device
    decreases |es|
  {
    if es == [] {
    } else {
      var t := Step(s, es[0]);
      StepSound(s, es[0]);
      StepAgrees(s, es[0]);
      DeviceStays(s, es[0]);
      RunAgrees(t, es[1..]);
    }
  }

  /** The import gate, over every run: only two of the four states are ever reached, requests are only
      pending on importing connections, and no USB reply precedes a successful import reply. */
  lemma ImportGate(device: Device, status: Status, es: seq<Event>, c: nat)
    requires GoodDevice(device)
    requires var t := Run(Init(device, status), es); c < t.nextClient
    ensures var t := Run(Init(device, status), es);
      && c in t.logs && Shaped(false, Replies(t.logs[c]))
      && (c in t.clients ==>
            var x := t.clients[c];
            && (x.parser.phase == WaitingCommand || x.parser.phase == Imported)
            && (x.parser.phase == Imported <==> ImportedBy(Replies(t.logs[c])))
            && (x.pending != map[] ==> x.parser.phase == Imported))
  {
    var t := Run(Init(device, status), es);
    InitSound(device, status);
    RunSound(Init(device, status), es);
    RunAgrees(Init(device, status), es);
    assert Agrees(t, c);
    if c in t.clients && t.clients[c].pending != map[] {
      var q :| q in t.clients[c].pending;
      assert HasTimer(t, c);
    }
  }

  /** The bytes one event hands to connection `c`. */
  function Given(s: State, e: Event, c: nat): seq<Byte> {
    if e.Recv? && e.client == c && Enabled(s, e) then e.chunk else []
  }

  /** All the bytes a run hands to connection `c`. */
  function Delivered(s: State, es: seq<Event>, c: nat): seq<Byte>
    decreases |es|
  {
    if es == [] then [] else Given(s, es[0], c) + Delivered(Step(s, es[0]), es[1..], c)
  }

  /** An event that hands no bytes to a connection neither accepts commands on it nor moves its parser. */
  lemma QuietStep(s: State, e: Event, c: nat)
    requires Sound(s) && AllAgree(s) && c < s.nextClient && Given(s, e, c) == []
    ensures var t := Step(s, e);
      && c in s.logs && c in t.logs && Commands(t.logs[c]) == Commands(s.logs[c])
      && (c in t.clients ==> c in s.clients && t.clients[c].parser == s.clients[c].parser)
  {
    assert Agrees(s, c);
    if !Concerns(s, e, c) {
      StepLeavesOthersAlone(s, e, c);
    } else if Enabled(s, e) {
      QuietOwnStep(s, e, c);
    }
  }

  lemma QuietOwnStep(s: State, e: Event, c: nat)
    requires Sound(s) && Enabled(s, e) && Concerns(s, e, c) && c < s.nextClient && c in s.logs && !e.Recv?
    ensures var t := Step(s, e);
      && c in t.logs && Commands(t.logs[c]) == Commands(s.logs[c])
      && (c in t.clients ==> c in s.clients && t.clients[c].parser == s.clients[c].parser)
  {
    match e
    case Eof(_) => QuietAgrees(s.logs[c], HungUp);
    case CloseCallback(_) => QuietAgrees(s.logs[c], Dropped(s.clients[c].pending.Keys));
    case Stop => QuietAgrees(s.logs[c], HungUp);
    case Fire(i) =>
      if c in s.clients {
        var n := s.armed[i].seqnum;
        LogGrows(s.logs[c], if s.clients[c].closing then Swallowed(n, s.now) else Nak(n, s.now));
      }
    case _ =>
  }

  lemma StepParses(s: State, e: Event, c: nat, p: Parser)
    requires Sound(s) && AllAgree(s) && c < s.nextClient
    requires c in s.logs && Commands(s.logs[c]) == p.cmds && (c in s.clients ==> s.clients[c].parser == p)
    ensures var t, q := Step(s, e), Feed(p, Given(s, e, c));
      c in t.logs && Commands(t.logs[c]) == q.cmds && (c in t.clients ==> t.clients[c].parser == q)
  {
    if Given(s, e, c) == [] {
      QuietStep(s, e, c);
    } else {
      assert Agrees(s, c);
      RecvAgrees(s, c, e.chunk);
    }
  }

  lemma {:induction false} RunParses(s: State, es: seq<Event>, c: nat, p: Parser)
    requires Sound(s) && AllAgree(s) && c < s.nextClient
    requires c in s.logs && Commands(s.logs[c]) == p.cmds && (c in s.clients ==> s.clients[c].parser == p)
    ensures var t, q := Run(s, es), Feed(p, Delivered(s, es, c));
      c in t.logs && Commands(t.logs[c]) == q.cmds && (c in t.clients ==> t.clients[c].parser == q)
    decreases |es|
  {
    if es == [] {
    } else {
      var t := Step(s, es[0]);
      StepSound(s, es[0]);
      StepAgrees(s, es[0]);
      DeviceStays(s, es[0]);
      StepParses(s, es[0], c, p);
      RunParses(t, es[1..], c, Feed(p, Given(s, es[0], c)));
      FeedSplit(p, Given(s, es[0], c), Delivered(t, es[1..], c));
    }
  }

  lemma NoCommandsYet(accepted: bool)
    ensures Commands(FirstEntries(accepted)) == [] && Replies(FirstEntries(accepted)) == []
  {
  }

  lemma {:induction false} NewcomerParses(s: State, es: seq<Event>, c: nat)
    requires Sound(s) && AllAgree(s) && s.nextClient <= c < Run(s, es).nextClient
    ensures var t, q := Run(s, es), Feed(Start, Delivered(s, es, c));
      c in t.logs && Commands(t.logs[c]) == q.cmds && (c in t.clients ==> t.clients[c].parser == q)
    decreases |es|
  {
    if es == [] {
    } else {
      var e, rest, t := es[0], es[1..], Step(s, es[0]);
      StepSound(s, e);
      StepAgrees(s, e);
      DeviceStays(s, e);
      assert Given(s, e, c) == [];
      assert Delivered(s, es, c) == Delivered(t, rest, c);
      if c < t.nextClient {
        NoCommandsYet(e.accepted);
        RunParses(t, rest, c, Start);
      } else {
        NewcomerParses(t, rest, c);
      }
    }
  }

  /** The commands accepted on a connection are a function of the bytes it was handed, in one piece or
      many, whatever other connections and timers did in between. */
  lemma CommandsComeFromBytes(device: Device, status: Status, es: seq<Event>, c: nat)
    requires GoodDevice(device)
    requires var t := Run(Init(device, status), es); c < t.nextClient
    ensures var t := Run(Init(device, status), es);
      var q := Feed(Start, Delivered(Init(device, status), es, c));
      c in t.logs && Commands(t.logs[c]) == q.cmds && (c in t.clients ==> t.clients[c].parser == q)
  {
    InitSound(device, status);
    NewcomerParses(Init(device, status), es, c);
  }

  /** A command whose reply a client can delimit, when `isOut` tells which of its requests were OUT: not
      one the server does not know, and not an OUT request that the device answers with data. */
  ghost predicate Delimited(d: Device, cmd: Command, isOut: U32 -> bool) {
    && !cmd.OtherUsb?
    && (cmd.Submit? && cmd.header.ep == 0 && |cmd.header.setup| == 8 && isOut(cmd.header.seqnum) ==>
          forall st :: d.control(st, SetupOf(cmd.header.setup)) == [])
  }

  /** A log entry's command can be delimited exactly when the reply it got is clean. */
  lemma EntryIsClean(d: Device, e: Entry, isOut: U32 -> bool)
    requires Honest(d, e) && Steady(d)
    ensures e.Answered? ==> (Clean(e.reply, isOut) <==> Delimited(d, e.cmd, isOut))
    ensures e.Parked? || e.Refused? ==> Delimited(d, e.cmd, isOut)
  {
  }

  lemma {:induction false} RepliesAreClean(d: Device, log: seq<Entry>, isOut: U32 -> bool)
    requires HonestLog(d, log) && Steady(d)
    ensures (forall r | r in Replies(log) :: Clean(r, isOut)) <==>
      forall cmd | cmd in Commands(log) :: Delimited(d, cmd, isOut)
    decreases |log|
  {
    if log == [] {
    } else {
      var before, e := log[..|log| - 1], log[|log| - 1];
      assert before + [e] == log;
      RepliesAreClean(d, before, isOut);
      EntryIsClean(d, e, isOut);
      LogGrows(before, e);
    }
  }

  /** The bytes written on a connection are its replies one after the other. */
  lemma {:induction false} WrittenIsOutput(log: seq<Entry>)
    requires Shaped(false, Replies(log))
    ensures Written(log) == Output(false, Replies(log))
    decreases |log|
  {
    if log == [] {
    } else {
      var before, e := log[..|log| - 1], log[|log| - 1];
      assert before + [e] == log;
      LogGrows(before, e);
      var rs := Replies(before);
      if e.Answered? {
        ShapedBefore(false, rs, e.reply);
        WrittenIsOutput(before);
      } else if e.Nak? {
        ShapedBefore(false, rs, RetSubmit(e.seqnum, 0, []));
        WrittenIsOutput(before);
      } else {
        assert rs + [] == rs;
        WrittenIsOutput(before);
      }
    }
  }

  lemma {:induction false} ShapedBefore(imported: bool, rs: seq<Reply>, r: Reply)
    requires Shaped(imported, rs + [r])
    ensures Shaped(imported, rs) && GoodReply(r)
    ensures Output(imported, rs + [r]) == Output(imported, rs) + EncodeReply(r)
    decreases |rs|
  {
    var more := rs + [r];
    if rs == [] {
      assert more == [r] && more[1..] == [];
    } else {
      assert more[0] == rs[0] && more[1..] == rs[1..] + [r];
      var now := imported || Imports(rs[0]);
      ShapedBefore(now, rs[1..], r);
      OutputHead(imported, more, rs[1..] + [r]);
      OutputHead(imported, rs, rs[1..]);
      Associative(EncodeReply(rs[0]), Output(now, rs[1..]), EncodeReply(r));
    }
  }

  lemma OutputHead(imported: bool, rs: seq<Reply>, rest: seq<Reply>)
    requires rs != [] && rest == rs[1..] && InPhase(imported, rs[0]) && Shaped(imported || Imports(rs[0]), rest)
    ensures Shaped(imported, rs) &&
      Output(imported, rs) == EncodeReply(rs[0]) + Output(imported || Imports(rs[0]), rest)
  {
  }

  /** The client gets back exactly the replies the server meant, in order and with their numbers, from the
      bytes written on its connection. */
  predicate Decodes(log: seq<Entry>, isOut: U32 -> bool) {
    ReadAll(false, Written(log), isOut) == Some(Replies(log))
  }

  /** Over every run, a client can take the server's output apart exactly when every command it had
      accepted is one whose reply can be delimited. */
  lemma OutputIsDecodable(device: Device, status: Status, es: seq<Event>, c: nat, isOut: U32 -> bool)
    requires GoodDevice(device) && Steady(device)
    requires c < Run(Init(device, status), es).nextClient
    ensures var t := Run(Init(device, status), es);
      c in t.logs &&
      (Decodes(t.logs[c], isOut) <==> forall cmd | cmd in Commands(t.logs[c]) :: Delimited(device, cmd, isOut))
  {
    var t := Run(Init(device, status), es);
    InitSound(device, status);
    RunAgrees(Init(device, status), es);
    assert Agrees(t, c);
    RepliesAreClean(device, t.logs[c], isOut);
    WrittenIsOutput(t.logs[c]);
    OutputDecodes(false, Replies(t.logs[c]), isOut);
  }
}
