/** What a client does to the server by submitting a pending sequence number again. */
module EngineReuse {
  import opened Bytes
  import opened Wire
  import opened Parser
  import opened RequestLog
  import opened Engine
  import opened EngineMemory
  import opened EngineOwnership
  import opened EngineStream

  /** "1-1", zero filled. */
  const BUSID: seq<Byte> := [0x31, 0x2D, 0x31, 0] + Zeros(BUSID_SIZE - 4)

  /** A client imports the device, makes the same interrupt request twice, and leaves; half a second later
      its first timer fires. */
  function ReuseRun(request: Command): seq<Event> {
    [Connect(true), Recv(0, EncodeCommand(Import(BUSID))), Recv(0, EncodeCommand(request)),
     Recv(0, EncodeCommand(request)), Eof(0), CloseCallback(0), Tick(NAK_DELAY), Fire(0)]
  }

  /** One whole command arrives on a connection that has nothing buffered. */
  lemma RecvOne(s: State, c: nat, cmd: Command)
    requires Open(s, c) && s.clients[c].parser.buf == [] && Fits(s.clients[c].parser.phase, cmd) && !HangsUp(cmd)
    ensures var p := s.clients[c].parser;
      && Enabled(s, Recv(c, EncodeCommand(cmd)))
      && Step(s, Recv(c, EncodeCommand(cmd))) ==
           WithParser(Handle(s, c, cmd), c, Parser(Next(p.phase, cmd), [], false, p.cmds + [cmd]))
  {
    var p, chunk := s.clients[c].parser, EncodeCommand(cmd);
    assert chunk + [] == chunk == [] + chunk;
    CutEncoded(p.phase, cmd, []);
    var q := p.(buf := chunk);
    HandleIgnoresParser(s, c, cmd, q);
    assert Buffered(s, c, chunk) == WithParser(s, c, q);
    assert chunk[|chunk|..] == [];
    ParserTwice(Handle(s, c, cmd), c, q, Parser(Next(p.phase, cmd), [], false, p.cmds + [cmd]));
    Served(s, c, cmd, q);
  }

  lemma Served(s: State, c: nat, cmd: Command, q: Parser)
    requires c in s.clients && q.buf != [] && CutFrame(q.phase, q.buf) == Frame(cmd, |q.buf|)
    requires !HangsUp(cmd) && Handle(WithParser(s, c, q), c, cmd) == WithParser(Handle(s, c, cmd), c, q)
    ensures Serve(WithParser(s, c, q), c) ==
      WithParser(WithParser(Handle(s, c, cmd), c, q), c, Parser(Next(q.phase, cmd), [], false, q.cmds + [cmd]))
  {
    assert q.buf[|q.buf|..] == [];
  }

  /** The server after `parked` requests under number `n` on its only connection. */
  ghost predicate Holding(s: State, n: U32, parked: nat) {
    && s.clients.Keys == {0} && s.listed == {0} && s.now == 0 && s.running && !s.fault
    && !s.clients[0].closing && s.clients[0].parser.phase == Imported && s.clients[0].parser.buf == []
    && s.nextTimer == parked
    && (forall i :: i in s.armed <==> 0 <= i < parked)
    && (forall i | i in s.armed :: s.armed[i] == Timer(0, n, NAK_DELAY))
    && s.clients[0].pending == if parked == 0 then map[] else map[n := parked - 1]
  }

  lemma ParkHolds(s: State, request: Command, parked: nat, p: Parser)
    requires IsInterrupt(request) && Holding(s, request.header.seqnum, parked) && p.phase == Imported && p.buf == []
    ensures Holding(WithParser(Park(s, 0, request), 0, p), request.header.seqnum, parked + 1)
  {
    StartHolds(s, request.header.seqnum, parked);
    assert Park(s, 0, request).clients == StartTimer(s, 0, request.header.seqnum).clients;
  }

  lemma StartHolds(s: State, n: U32, parked: nat)
    requires Holding(s, n, parked)
    ensures Holding(StartTimer(s, 0, n), n, parked + 1)
  {
  }

  lemma ParkAgain(s: State, request: Command, parked: nat)
    requires IsInterrupt(request) && Fits(Imported, request) && Holding(s, request.header.seqnum, parked)
    ensures var e := Recv(0, EncodeCommand(request));
      Enabled(s, e) && Holding(Step(s, e), request.header.seqnum, parked + 1)
  {
    RecvOne(s, 0, request);
    var p := s.clients[0].parser;
    ParkHolds(s, request, parked, Parser(Next(p.phase, request), [], false, p.cmds + [request]));
  }

  /** A server that nobody has connected to. */
  predicate Idle(s: State) {
    && s.clients == map[] && s.listed == {} && s.armed == map[] && s.now == 0 && s.running && !s.fault
    && s.nextClient == 0 && s.nextTimer == 0
  }

  lemma ImportFirst(s: State, n: U32)
    requires Idle(s)
    ensures var a, e := Step(s, Connect(true)), Recv(0, EncodeCommand(Import(BUSID)));
      Enabled(s, Connect(true)) && Enabled(a, e) && Holding(Step(a, e), n, 0)
  {
    assert KnownBusid(BUSID);
    RecvOne(Step(s, Connect(true)), 0, Import(BUSID));
  }

  /** When the client leaves, the second timer goes and the first stays. */
  lemma Leave(s: State, n: U32)
    requires Holding(s, n, 2)
    ensures var a := HangUp(s, 0);
      && 0 in a.clients && a.clients[0].closing
      && Orphaned(Close(a, 0), n)
  {
    var a := HangUp(s, 0);
    CloseShape(a, 0);
    assert 1 in a.clients[0].pending.Values by { assert n in a.clients[0].pending; }
    assert forall i | i in a.clients[0].pending.Values :: i == 1;
  }

  lemma LeaveSteps(s: State, n: U32)
    requires Holding(s, n, 2)
    ensures var a := Step(s, Eof(0));
      Enabled(s, Eof(0)) && Enabled(a, CloseCallback(0)) && Orphaned(Step(a, CloseCallback(0)), n)
  {
    Leave(s, n);
  }

  /** No client is left, and one timer. */
  predicate Orphaned(b: State, n: U32) {
    b.clients.Keys == {} && b.armed.Keys == {0} && b.armed[0] == Timer(0, n, NAK_DELAY) && b.now == 0
  }

  lemma LeaveAndFire(s: State, n: U32)
    requires Holding(s, n, 2)
    ensures var es := [Eof(0), CloseCallback(0), Tick(NAK_DELAY), Fire(0)]; Made(s, es) && Run(s, es).fault
  {
    LeaveSteps(s, n);
    var last := [Tick(NAK_DELAY), Fire(0)];
    FireOrphan(Step(Step(s, Eof(0)), CloseCallback(0)), n);
    RunTwo(s, Eof(0), CloseCallback(0), last);
    assert [Eof(0), CloseCallback(0), Tick(NAK_DELAY), Fire(0)] == [Eof(0), CloseCallback(0)] + last;
  }

  lemma FireOrphan(b: State, n: U32)
    requires Orphaned(b, n)
    ensures var es := [Tick(NAK_DELAY), Fire(0)]; Made(b, es) && Run(b, es).fault
  {
    var none: seq<Event> := [];
    var c := Step(b, Tick(NAK_DELAY));
    assert Due(c, 0);
    RunNext(c, Fire(0), none);
    RunNext(b, Tick(NAK_DELAY), [Fire(0)] + none);
    assert [Tick(NAK_DELAY), Fire(0)] == [Tick(NAK_DELAY)] + ([Fire(0)] + none);
  }

  lemma RunNext(s: State, e: Event, es: seq<Event>)
    ensures Run(s, [e] + es) == Run(Step(s, e), es)
    ensures Made(s, [e] + es) <==> Enabled(s, e) && Made(Step(s, e), es)
  {
    assert ([e] + es)[1..] == es;
  }

  lemma RunTwo(s: State, e: Event, f: Event, es: seq<Event>)
    ensures Run(s, [e, f] + es) == Run(Step(Step(s, e), f), es)
    ensures Made(s, [e, f] + es) <==> Enabled(s, e) && Enabled(Step(s, e), f) && Made(Step(Step(s, e), f), es)
  {
    assert [e, f] + es == [e] + ([f] + es);
    RunNext(s, e, [f] + es);
    RunNext(Step(s, e), f, es);
  }

  lemma TwiceAndLeave(b: State, request: Command)
    requires IsInterrupt(request) && Fits(Imported, request) && Holding(b, request.header.seqnum, 0)
    ensures var e := Recv(0, EncodeCommand(request));
      var es := [e, e] + [Eof(0), CloseCallback(0), Tick(NAK_DELAY), Fire(0)];
      Made(b, es) && Run(b, es).fault
  {
    var e := Recv(0, EncodeCommand(request));
    ParkAgain(b, request, 0);
    var c := Step(b, e);
    ParkAgain(c, request, 1);
    LeaveAndFire(Step(c, e), request.header.seqnum);
    RunTwo(b, e, e, [Eof(0), CloseCallback(0), Tick(NAK_DELAY), Fire(0)]);
  }

  lemma ConnectAndGo(s: State, request: Command, rest: seq<Event>)
    requires Idle(s) && IsInterrupt(request) && Fits(Imported, request)
    requires forall b | Holding(b, request.header.seqnum, 0) :: Made(b, rest) && Run(b, rest).fault
    ensures var es := [Connect(true), Recv(0, EncodeCommand(Import(BUSID)))] + rest; Made(s, es) && Run(s, es).fault
  {
    var e := Recv(0, EncodeCommand(Import(BUSID)));
    ImportFirst(s, request.header.seqnum);
    assert Holding(Step(Step(s, Connect(true)), e), request.header.seqnum, 0);
    RunTwo(s, Connect(true), e, rest);
  }

  /** The fault is reachable: a run in which every event is one the loop makes, on which one client submits
      a sequence number twice, ends with a timer reaching a released context. */
  lemma ReuseEndsInFault(device: Device, status: UpsStatus.Status, request: Command)
    requires IsInterrupt(request) && Fits(Imported, request)
    ensures var s := Init(device, status); Made(s, ReuseRun(request)) && Run(s, ReuseRun(request)).fault
  {
    var e := Recv(0, EncodeCommand(request));
    var rest := [e, e] + [Eof(0), CloseCallback(0), Tick(NAK_DELAY), Fire(0)];
    forall b | Holding(b, request.header.seqnum, 0) ensures Made(b, rest) && Run(b, rest).fault {
      TwiceAndLeave(b, request);
    }
    assert ReuseRun(request) == [Connect(true), Recv(0, EncodeCommand(Import(BUSID)))] + rest;
    ConnectAndGo(Init(device, status), request, rest);
  }
}
