/** Bytes in: how a connection's byte stream determines what the server does with it. */
module EngineStream {
  import opened Bytes
  import opened Wire
  import opened Parser
  import opened Engine
  import opened EngineMemory
  import opened EngineRoom

  function WithParser(s: State, c: nat, p: Parser): State
    requires c in s.clients
  {
    WithClient(s, c, s.clients[c].(parser := p))
  }

  /** The parser's side of accepting a command: the state the handlers set, and what was accepted. */
  function Accepting(s: State, c: nat, cmd: Command): State
    requires c in s.clients
  {
    var p := s.clients[c].parser;
    WithParser(s, c, Parser(Next(p.phase, cmd), p.buf, HangsUp(cmd), p.cmds + [cmd]))
  }

  /** A command is handled and accepted, its bytes still in the buffer. */
  function Taken(s: State, c: nat, cmd: Command): State
    requires c in s.clients
  {
    Accepting(Handle(s, c, cmd), c, cmd)
  }

  /** `handle_client_data` on its own: how much of the buffer it consumes, and what it does before the
      read loop takes those bytes off. */
  function HandleData(s: State, c: nat): (nat, State)
    requires c in s.clients && s.clients[c].parser.buf != []
  {
    var p := s.clients[c].parser;
    match CutFrame(p.phase, p.buf)
    case NeedMore => (0, s)
    case Frame(cmd, size) => (size, Taken(s, c, cmd))
  }

  /** `HandleData` as a relation. */
  ghost predicate Handled(s: State, c: nat, n: nat, t: State) {
    forall x {:trigger Seen(x)} | Seen(x) ::
      c in s.clients && s.clients[c].parser.buf != [] && (n, t) == HandleData(s, c)
  }

  lemma FrameHandled(s: State, c: nat, cmd: Command, size: nat)
    requires c in s.clients && s.clients[c].parser.buf != []
    requires CutFrame(s.clients[c].parser.phase, s.clients[c].parser.buf) == Frame(cmd, size)
    ensures Handled(s, c, size, Taken(s, c, cmd))
  {
  }

  lemma NothingHandled(s: State, c: nat)
    requires c in s.clients && s.clients[c].parser.buf != []
    requires CutFrame(s.clients[c].parser.phase, s.clients[c].parser.buf).NeedMore?
    ensures Handled(s, c, 0, s)
  {
  }

  /** The read loop can go on, and will end in `t`. */
  ghost predicate Ahead(s: State, c: nat, t: State) {
    forall x {:trigger Seen(x)} | Seen(x) ::
      c in s.clients && Servable(s, c) && RoomAhead(s, c) && Serve(s, c) == t
  }

  lemma AheadOf(s: State, c: nat)
    requires c in s.clients && Servable(s, c) && RoomAhead(s, c)
    ensures Ahead(s, c, Serve(s, c))
  {
  }

  lemma NothingAhead(s: State, c: nat, t: State)
    requires Ahead(s, c, t) && c in s.clients && s.clients[c].parser.buf == []
    ensures s == t
  {
    assert Seen(c);
  }

  lemma ParserTwice(s: State, c: nat, p: Parser, q: Parser)
    requires c in s.clients
    ensures WithParser(WithParser(s, c, p), c, q) == WithParser(s, c, q)
  {
  }

  /** Handling a frame and then taking its bytes off the buffer is one turn of the read loop. */
  lemma HandleThenConsume(s: State, c: nat)
    requires c in s.clients && s.clients[c].parser.buf != []
    ensures var p := s.clients[c].parser;
      var f, (n, t) := CutFrame(p.phase, p.buf), HandleData(s, c);
      && c in t.clients && t.clients[c].parser.buf == p.buf
      && (f.Frame? ==>
            && 0 < n <= |p.buf|
            && WithParser(t, c, t.clients[c].parser.(buf := p.buf[n..])) == Turn(s, c, f))
      && (f.NeedMore? ==> n == 0 && t == s)
  {
    var p := s.clients[c].parser;
    var f := CutFrame(p.phase, p.buf);
    if f.Frame? {
      ParserTwice(Handle(s, c, f.cmd), c, Parser(Next(p.phase, f.cmd), p.buf, HangsUp(f.cmd), p.cmds + [f.cmd]),
                  Accept(p, f));
    }
  }

  /** The same, once the first `n` bytes are taken off the buffer. */
  ghost predicate AheadWithout(s: State, c: nat, n: nat, t: State) {
    forall x {:trigger Seen(x)} | Seen(x) ::
      && c in s.clients && n <= |s.clients[c].parser.buf|
      && var p := s.clients[c].parser;
         Ahead(WithParser(s, c, p.(buf := p.buf[n..])), c, t)
  }

  /** What handling a submit, an unlink or an import comes to. */
  lemma SubmitAnswered(s: State, c: nat, cmd: Command, data: seq<Byte>)
    requires c in s.clients && cmd.Submit? && !InterruptEndpoint(cmd.header.ep) && data == SubmitData(s, cmd.header)
    ensures Handle(s, c, cmd) == Log(s, c, Answered(cmd, RetSubmit(cmd.header.seqnum, cmd.header.startFrame, data)))
  {
  }

  lemma ImportRefused(s: State, t: State, c: nat, busid: seq<Byte>)
    requires c in s.clients && !KnownBusid(busid)
    requires t == HangUp(Log(s, c, Answered(Import(busid), RepImport(1, []))), c)
    ensures t == Handle(s, c, Import(busid))
  {
  }

  lemma UnlinkAnswered(s: State, c: nat, cmd: Command, result: int)
    requires c in s.clients && cmd.Unlink? && result == UnlinkStatus(s.clients[c], cmd.target)
    ensures Handle(s, c, cmd) == Log(Cancel(s, c, cmd.target), c, Answered(cmd, RetUnlink(cmd.seqnum, result)))
  {
  }

  /** Handling a frame and then taking its bytes off the buffer leaves the read loop where it was going. */
  lemma TurnAhead(s: State, c: nat, n: nat, t: State, target: State)
    requires Ahead(s, c, target) && Handled(s, c, n, t)
    ensures if n == 0 then t == target else AheadWithout(t, c, n, target)
  {
    assert Seen(0);
    HandleThenConsume(s, c);
  }

  /** While there are bytes to read the connection is open, its timers are running and there is room for the
      next reply. */
  lemma AheadIsOpen(s: State, c: nat, target: State)
    requires Ahead(s, c, target) && c in s.clients && s.clients[c].parser.buf != []
    ensures Open(s, c) && Started(s, c) && RoomAtHead(s, c)
  {
    assert Seen(0);
  }

  predicate RoomAtHead(s: State, c: nat)
    requires c in s.clients && s.clients[c].parser.buf != []
  {
    var f := CutFrame(s.clients[c].parser.phase, s.clients[c].parser.buf);
    f.Frame? ==> HasRoom(s.device, s.status, f.cmd)
  }

  lemma ParkIgnoresParser(s: State, c: nat, cmd: Command, p: Parser)
    requires c in s.clients && cmd.Submit?
    ensures Park(WithParser(s, c, p), c, cmd) == WithParser(Park(s, c, cmd), c, p)
  {
  }

  lemma CancelIgnoresParser(s: State, c: nat, q: U32, p: Parser)
    requires c in s.clients
    ensures Cancel(WithParser(s, c, p), c, q) == WithParser(Cancel(s, c, q), c, p)
  {
  }

  lemma UnlinkIgnoresParser(s: State, c: nat, cmd: Command, p: Parser)
    requires c in s.clients && cmd.Unlink?
    ensures Handle(WithParser(s, c, p), c, cmd) == WithParser(Handle(s, c, cmd), c, p)
  {
    CancelIgnoresParser(s, c, cmd.target, p);
    LogIgnoresParser(Cancel(s, c, cmd.target), c,
                     Answered(cmd, RetUnlink(cmd.seqnum, UnlinkStatus(s.clients[c], cmd.target))), p);
  }

  lemma LogIgnoresParser(s: State, c: nat, e: Entry, p: Parser)
    requires c in s.clients
    ensures Log(WithParser(s, c, p), c, e) == WithParser(Log(s, c, e), c, p)
  {
  }

  /** Handling a command does not look at the bytes still buffered. */
  lemma HandleIgnoresParser(s: State, c: nat, cmd: Command, p: Parser)
    requires c in s.clients
    ensures Handle(WithParser(s, c, p), c, cmd) == WithParser(Handle(s, c, cmd), c, p)
  {
    match cmd
    case Devlist => LogIgnoresParser(s, c, Answered(cmd, RepDevlist([s.device.entry])), p);
    case Import(busid) =>
      if KnownBusid(busid) {
        LogIgnoresParser(s, c, Answered(cmd, RepImport(0, s.device.entry.record)), p);
      } else {
        RefuseIgnoresParser(s, c, Answered(cmd, RepImport(1, [])), p);
      }
    case Rejected => RefuseIgnoresParser(s, c, Refused(cmd), p);
    case Submit(h, _) =>
      if InterruptEndpoint(h.ep) {
        ParkIgnoresParser(s, c, cmd, p);
      } else {
        LogIgnoresParser(s, c, Answered(cmd, RetSubmit(h.seqnum, h.startFrame, SubmitData(s, h))), p);
      }
    case Unlink(_, _) => UnlinkIgnoresParser(s, c, cmd, p);
    case OtherUsb(_, seqnum) => LogIgnoresParser(s, c, Answered(cmd, RetOther(seqnum)), p);
  }

  lemma RefuseIgnoresParser(s: State, c: nat, e: Entry, p: Parser)
    requires c in s.clients
    ensures HangUp(Log(WithParser(s, c, p), c, e), c) == WithParser(HangUp(Log(s, c, e), c), c, p)
  {
  }

  /** A command that does not hang up leaves the connection open. */
  lemma HandleStaysOpen(s: State, c: nat, cmd: Command)
    requires Open(s, c)
    ensures Open(Handle(s, c, cmd), c) <==> !HangsUp(cmd)
  {
  }

  /** One turn on a buffer with more bytes behind it. */
  lemma TurnWithMore(s: State, c: nat, more: seq<Byte>)
    requires Open(s, c) && s.clients[c].parser.buf != []
    requires CutFrame(s.clients[c].parser.phase, s.clients[c].parser.buf).Frame?
    ensures var p := s.clients[c].parser;
      var f, g := CutFrame(p.phase, p.buf), CutFrame(p.phase, p.buf + more);
      && g.Frame? && g.size <= |p.buf + more|
      && Turn(Buffered(s, c, more), c, g) ==
           if HangsUp(f.cmd) then Turn(s, c, f) else Buffered(Turn(s, c, f), c, more)
  {
    var p := s.clients[c].parser;
    CutStable(p.phase, p.buf, more);
    var f, g := CutFrame(p.phase, p.buf), CutFrame(p.phase, p.buf + more);
    var q := p.(buf := p.buf + more);
    HandleIgnoresParser(s, c, f.cmd, q);
    AcceptMore(p, f, g, more);
    var h := Handle(s, c, f.cmd);
    ParserTwice(h, c, q, Accept(q, g));
    ParserTwice(h, c, Accept(p, f), Accept(q, g));
    assert Buffered(s, c, more) == WithParser(s, c, q);
    assert Turn(WithParser(s, c, q), c, g) == WithParser(WithParser(h, c, q), c, Accept(q, g));
    assert Turn(s, c, f) == WithParser(h, c, Accept(p, f));
  }

  lemma AcceptMore(p: Parser, f: Cut, g: Cut, more: seq<Byte>)
    requires f.Frame? && g.Frame? && f.size <= |p.buf| && g.cmd == f.cmd
    requires if HangsUp(f.cmd) then f.size == |p.buf| && g.size == |p.buf + more| else g.size == f.size
    ensures var q := p.(buf := p.buf + more);
      Accept(q, g) == if HangsUp(f.cmd) then Accept(p, f) else Accept(p, f).(buf := Accept(p, f).buf + more)
  {
  }

  lemma {:induction false} ServeThenRecv(s: State, c: nat, more: seq<Byte>)
    requires Open(s, c) && more != []
    ensures Serve(Buffered(s, c, more), c) == Step(Serve(s, c), Recv(c, more))
    decreases |s.clients[c].parser.buf|
  {
    var p := s.clients[c].parser;
    if p.buf == [] || CutFrame(p.phase, p.buf).NeedMore? {
    } else {
      var f := CutFrame(p.phase, p.buf);
      var t := Turn(s, c, f);
      TurnWithMore(s, c, more);
      HandleStaysOpen(s, c, f.cmd);
      if HangsUp(f.cmd) {
        HangUpTakesAll(p.phase, p.buf);
        assert t.clients[c].parser.buf == [];
      } else {
        ServeThenRecv(t, c, more);
      }
    }
  }

  lemma BufferedTwice(s: State, c: nat, a: seq<Byte>, b: seq<Byte>)
    requires c in s.clients
    ensures Buffered(Buffered(s, c, a), c, b) == Buffered(s, c, a + b)
  {
    var p := s.clients[c].parser;
    assert p.buf + a + b == p.buf + (a + b);
    ParserTwice(s, c, p.(buf := p.buf + a), p.(buf := p.buf + (a + b)));
  }

  /** Chunking independence of the whole server: with nothing in between, receiving a chunk in two parts
      leaves exactly the state, timers and replies that receiving it whole does. */
  lemma RecvSplit(s: State, c: nat, a: seq<Byte>, b: seq<Byte>)
    ensures Step(Step(s, Recv(c, a)), Recv(c, b)) == Step(s, Recv(c, a + b))
  {
    if a == [] {
      assert a + b == b;
    } else if b == [] {
      assert a + b == a;
    } else if Open(s, c) {
      var t := Buffered(s, c, a);
      ServeThenRecv(t, c, b);
      BufferedTwice(s, c, a, b);
    }
  }

  function Recvs(c: nat, chunks: seq<seq<Byte>>): seq<Event> {
    if chunks == [] then [] else [Recv(c, chunks[0])] + Recvs(c, chunks[1..])
  }

  /** However the network splits a stream of bytes, the server ends up in the same state. */
  lemma {:induction false} AnySplitting(s: State, c: nat, chunks: seq<seq<Byte>>)
    ensures Run(s, Recvs(c, chunks)) == Step(s, Recv(c, Join(chunks)))
    decreases |chunks|
  {
    if chunks == [] {
    } else {
      var es := Recvs(c, chunks);
      assert es[0] == Recv(c, chunks[0]) && es[1..] == Recvs(c, chunks[1..]);
      AnySplitting(Step(s, es[0]), c, chunks[1..]);
      RecvSplit(s, c, chunks[0], Join(chunks[1..]));
    }
  }
}
