/** Cutting a connection's byte stream into frames (`on_client_read` and `handle_client_data`). */
module Parser {
  import opened Bytes
  import opened Wire

  datatype Phase = WaitingCommand | WaitingImportBusid | Imported | DevlistRequested

  /** What the framing code keeps for a connection: its state, the bytes not yet consumed,
      whether it asked for the connection to be closed, and the commands accepted so far. */
  datatype Parser = Parser(phase: Phase, buf: seq<Byte>, closed: bool, cmds: seq<Command>)

  const Start := Parser(WaitingCommand, [], false, [])

  datatype Cut = NeedMore | Frame(cmd: Command, size: nat)

  /** `strcmp(busid, "1-1") == 0` on a 32-byte field. */
  predicate KnownBusid(busid: seq<Byte>) {
    |busid| >= 4 && busid[..4] == [0x31, 0x2D, 0x31, 0]
  }

  /** The frame at the head of a non-empty buffer, if it is complete. A frame that ends the
      connection consumes everything that is buffered. */
  function CutFrame(phase: Phase, buf: seq<Byte>): (c: Cut)
    requires buf != []
    ensures c.Frame? ==> 1 <= c.size <= |buf|
  {
    match phase
    case WaitingCommand => CutOperation(buf)
    case Imported => CutUsb(buf)
    case _ => Frame(Rejected, |buf|)
  }

  function CutOperation(buf: seq<Byte>): (c: Cut)
    requires buf != []
    ensures c.Frame? ==> 1 <= c.size <= |buf|
  {
    if |buf| < OP_HEADER_SIZE then NeedMore
    else if At16(buf, 0) != USBIP_VERSION then Frame(Rejected, |buf|)
    else if At16(buf, 2) == OP_REQ_DEVLIST then Frame(Devlist, OP_HEADER_SIZE)
    else if At16(buf, 2) == OP_REQ_IMPORT then
      var size := OP_HEADER_SIZE + BUSID_SIZE;
      if |buf| < size then NeedMore else
      var busid := buf[OP_HEADER_SIZE..size];
      Frame(Import(busid), if KnownBusid(busid) then size else |buf|)
    else Frame(Rejected, |buf|)
  }

  function CutUsb(buf: seq<Byte>): (c: Cut)
    ensures c.Frame? ==> 1 <= c.size <= |buf|
  {
    if |buf| < USB_HEADER_SIZE then NeedMore else
    var size := USB_HEADER_SIZE +
      if At32(buf, 0) == CMD_SUBMIT && At32(buf, 12) == 0 then At32(buf, 24) else 0;
    if |buf| < size then NeedMore else Frame(UsbCommand(buf[..size]), size)
  }

  function UsbCommand(frame: seq<Byte>): Command
    requires |frame| >= USB_HEADER_SIZE
  {
    if At32(frame, 0) == CMD_SUBMIT then
      Submit(SubmitHeader(At32(frame, 4), At32(frame, 8), At32(frame, 12), At32(frame, 16), At32(frame, 20),
                          At32(frame, 24), At32(frame, 28), At32(frame, 32), At32(frame, 36), frame[40..48]),
             frame[USB_HEADER_SIZE..])
    else if At32(frame, 0) == CMD_UNLINK then Unlink(At32(frame, 4), At32(frame, 20))
    else OtherUsb(At32(frame, 0), At32(frame, 4))
  }

  /** Whether accepting `c` ends the connection. */
  predicate HangsUp(c: Command) {
    c.Rejected? || (c.Import? && !KnownBusid(c.busid))
  }

  function Next(phase: Phase, c: Command): Phase {
    if c.Import? && KnownBusid(c.busid) then Imported else phase
  }

  /** One turn of the read loop. */
  function Accept(p: Parser, f: Cut): Parser
    requires f.Frame? && f.size <= |p.buf|
  {
    Parser(Next(p.phase, f.cmd), p.buf[f.size..], HangsUp(f.cmd), p.cmds + [f.cmd])
  }

  /** The read loop: cut frames until the buffer is empty or its head is incomplete. */
  function Drain(p: Parser): Parser
    decreases |p.buf|
  {
    if p.buf == [] then p else
    match CutFrame(p.phase, p.buf)
    case NeedMore => p
    case Frame(cmd, size) => Drain(Accept(p, Frame(cmd, size)))
  }

  /** A read callback with `chunk`. After a close is requested there are no more of them. */
  function Feed(p: Parser, chunk: seq<Byte>): Parser {
    if p.closed || chunk == [] then p else Drain(p.(buf := p.buf + chunk))
  }

  function FeedAll(p: Parser, chunks: seq<seq<Byte>>): Parser
    decreases |chunks|
  {
    if chunks == [] then p else FeedAll(Feed(p, chunks[0]), chunks[1..])
  }

  /** A complete frame stays the same frame when more bytes follow it. */
  lemma CutStable(phase: Phase, buf: seq<Byte>, more: seq<Byte>)
    requires buf != [] && CutFrame(phase, buf).Frame?
    ensures var c, d := CutFrame(phase, buf), CutFrame(phase, buf + more);
      d.Frame? && d.cmd == c.cmd &&
      (if HangsUp(c.cmd) then c.size == |buf| && d.size == |buf + more| else d.size == c.size)
  {
    var all := buf + more;
    var c := CutFrame(phase, buf);
    match phase
    case WaitingCommand =>
      assert At16(all, 0) == At16(buf, 0) && At16(all, 2) == At16(buf, 2);
      if |buf| >= OP_HEADER_SIZE + BUSID_SIZE {
        assert all[OP_HEADER_SIZE..OP_HEADER_SIZE + BUSID_SIZE] == buf[OP_HEADER_SIZE..OP_HEADER_SIZE + BUSID_SIZE];
      }
    case Imported =>
      assert At32(all, 0) == At32(buf, 0) && At32(all, 12) == At32(buf, 12) && At32(all, 24) == At32(buf, 24);
      assert all[..c.size] == buf[..c.size];
    case _ =>
  }

  lemma {:induction false} DrainThenFeed(p: Parser, more: seq<Byte>)
    requires !p.closed && more != []
    ensures Drain(p.(buf := p.buf + more)) == Feed(Drain(p), more)
    decreases |p.buf|
  {
    if p.buf == [] || CutFrame(p.phase, p.buf).NeedMore? {
    } else {
      CutStable(p.phase, p.buf, more);
      var q := p.(buf := p.buf + more);
      var f, g := CutFrame(p.phase, p.buf), CutFrame(q.phase, q.buf);
      if HangsUp(f.cmd) {
        assert Accept(q, g).buf == [] == Accept(p, f).buf;
      } else {
        assert q.buf[g.size..] == p.buf[f.size..] + more;
        DrainThenFeed(Accept(p, f), more);
      }
    }
  }

  /** Splitting a chunk in two changes nothing: not the state, not the leftover bytes, not the closed
      flag and not the commands accepted. */
  lemma FeedSplit(p: Parser, a: seq<Byte>, b: seq<Byte>)
    ensures Feed(Feed(p, a), b) == Feed(p, a + b)
  {
    if p.closed || a == [] {
      assert a == [] ==> a + b == b;
    } else if b == [] {
      assert a + b == a;
    } else {
      var q := p.(buf := p.buf + a);
      assert q.buf + b == p.buf + (a + b);
      DrainThenFeed(q, b);
    }
  }

  /** Chunking independence: only the concatenation of the chunks matters. */
  lemma {:induction false} ChunkingIndependence(p: Parser, chunks: seq<seq<Byte>>)
    ensures FeedAll(p, chunks) == Feed(p, Join(chunks))
    decreases |chunks|
  {
    if chunks == [] {
    } else {
      ChunkingIndependence(Feed(p, chunks[0]), chunks[1..]);
      FeedSplit(p, chunks[0], Join(chunks[1..]));
    }
  }

  predicate Fits(phase: Phase, c: Command) {
    && WellFormed(c)
    && if phase == Imported then c.Submit? || c.Unlink? || c.OtherUsb?
       else phase == WaitingCommand && (c.Devlist? || c.Import?)
  }

  /** Commands that may follow one another on a connection in `phase`. */
  predicate Conversation(phase: Phase, cs: seq<Command>)
    decreases |cs|
  {
    cs == [] || (
      && Fits(phase, cs[0])
      && (HangsUp(cs[0]) ==> |cs| == 1)
      && Conversation(Next(phase, cs[0]), cs[1..]))
  }

  /** Any encoded command is cut back out of the stream whole, whatever follows it. */
  lemma CutEncoded(phase: Phase, c: Command, rest: seq<Byte>)
    requires Fits(phase, c)
    ensures var b := EncodeCommand(c) + rest;
      b != [] && CutFrame(phase, b) == Frame(c, if HangsUp(c) then |b| else |EncodeCommand(c)|)
  {
    var b := EncodeCommand(c) + rest;
    match c
    case Devlist =>
      assert At16(b, 0) == USBIP_VERSION && At16(b, 2) == OP_REQ_DEVLIST;
    case Import(busid) =>
      assert At16(b, 0) == USBIP_VERSION && At16(b, 2) == OP_REQ_IMPORT;
      assert b[OP_HEADER_SIZE..OP_HEADER_SIZE + BUSID_SIZE] == busid;
    case Submit(h, payload) =>
      CutEncodedSubmit(h, payload, rest);
    case Unlink(seqnum, target) =>
      var ws := [CMD_UNLINK, seqnum, 0, 0, 0, target];
      HeaderWords(ws, Zeros(24), rest);
    case OtherUsb(command, seqnum) =>
      var ws := [command, seqnum, 0, 0, 0];
      HeaderWords(ws, Zeros(28), rest);
  }

  /** The words of an encoded header read back, both in the stream and in the frame cut from it. */
  lemma HeaderWords(ws: seq<U32>, tail: seq<Byte>, rest: seq<Byte>)
    ensures var h := Words(ws) + tail;
      && (h + rest)[..|h|] == h
      && forall i | 0 <= i < |ws| :: At32(h, 4 * i) == ws[i] && At32(h + rest, 4 * i) == ws[i]
  {
    var h := Words(ws) + tail;
    assert h + rest == Words(ws) + (tail + rest);
    forall i | 0 <= i < |ws| ensures At32(h, 4 * i) == ws[i] && At32(h + rest, 4 * i) == ws[i] {
      WordsAt(ws, tail, i);
      WordsAt(ws, tail + rest, i);
    }
  }

  lemma UsbCommandOfSubmit(h: SubmitHeader, payload: seq<Byte>)
    requires WellFormed(Submit(h, payload))
    ensures UsbCommand(EncodeCommand(Submit(h, payload))) == Submit(h, payload)
  {
    var ws := [CMD_SUBMIT, h.seqnum, h.devid, h.direction, h.ep, h.flags, h.length,
               h.startFrame, h.packets, h.interval];
    var frame := EncodeCommand(Submit(h, payload));
    assert frame == Words(ws) + (h.setup + payload);
    HeaderWords(ws, h.setup + payload, []);
    assert At32(frame, 0) == ws[0] && At32(frame, 4 * 1) == ws[1] && At32(frame, 4 * 2) == ws[2];
    assert At32(frame, 4 * 3) == ws[3] && At32(frame, 4 * 4) == ws[4] && At32(frame, 4 * 5) == ws[5];
    assert At32(frame, 4 * 6) == ws[6] && At32(frame, 4 * 7) == ws[7];
    assert At32(frame, 4 * 8) == ws[8] && At32(frame, 4 * 9) == ws[9];
    assert frame[40..48] == h.setup && frame[48..] == payload;
  }

  lemma CutEncodedSubmit(h: SubmitHeader, payload: seq<Byte>, rest: seq<Byte>)
    requires WellFormed(Submit(h, payload))
    ensures var frame := EncodeCommand(Submit(h, payload));
      CutUsb(frame + rest) == Frame(Submit(h, payload), |frame|)
  {
    var ws := [CMD_SUBMIT, h.seqnum, h.devid, h.direction, h.ep, h.flags, h.length,
               h.startFrame, h.packets, h.interval];
    var frame := EncodeCommand(Submit(h, payload));
    assert frame == Words(ws) + (h.setup + payload);
    HeaderWords(ws, h.setup + payload, rest);
    var b := frame + rest;
    assert At32(b, 0) == ws[0] && At32(b, 4 * 3) == ws[3] && At32(b, 4 * 6) == ws[6];
    assert USB_HEADER_SIZE + (if h.direction == 0 then h.length else 0) == |frame|;
    UsbCommandOfSubmit(h, payload);
  }

  lemma Regroup(before: seq<Command>, cs: seq<Command>)
    requires cs != []
    ensures before + [cs[0]] + cs[1..] == before + cs
  {
  }

  /** The server accepts exactly the commands a client encoded, and keeps no byte of them. */
  lemma {:induction false} ParseEncoded(phase: Phase, cs: seq<Command>, before: seq<Command>) returns (q: Parser)
    requires Conversation(phase, cs)
    ensures q == Drain(Parser(phase, EncodeCommands(cs), false, before))
    ensures q.cmds == before + cs && q.buf == []
    ensures q.closed <==> cs != [] && HangsUp(cs[|cs| - 1])
    decreases |cs|
  {
    if cs == [] {
      q := Parser(phase, [], false, before);
    } else {
      DrainEncoded(phase, cs[0], EncodeCommands(cs[1..]), before);
      if HangsUp(cs[0]) {
        assert cs == [cs[0]];
        q := Parser(phase, [], true, before + [cs[0]]);
      } else {
        Regroup(before, cs);
        q := ParseEncoded(Next(phase, cs[0]), cs[1..], before + [cs[0]]);
      }
    }
  }

  /** One turn of the read loop on an encoded command. */
  lemma DrainEncoded(phase: Phase, c: Command, rest: seq<Byte>, before: seq<Command>)
    requires Fits(phase, c)
    ensures Drain(Parser(phase, EncodeCommand(c) + rest, false, before)) ==
      if HangsUp(c) then Parser(phase, [], true, before + [c])
      else Drain(Parser(Next(phase, c), rest, false, before + [c]))
  {
    CutEncoded(phase, c, rest);
    var b := EncodeCommand(c) + rest;
    var p := Parser(phase, b, false, before);
    var f := CutFrame(phase, b);
    if HangsUp(c) {
      assert Accept(p, f) == Parser(phase, [], true, before + [c]);
    } else {
      assert b[f.size..] == rest;
      assert Accept(p, f) == Parser(Next(phase, c), rest, false, before + [c]);
    }
  }

  /** A client's commands arrive intact however the network splits their bytes. */
  lemma CommandsArriveIntact(cs: seq<Command>, chunks: seq<seq<Byte>>)
    requires Conversation(WaitingCommand, cs) && Join(chunks) == EncodeCommands(cs)
    ensures FeedAll(Start, chunks).cmds == cs && FeedAll(Start, chunks).buf == []
  {
    ChunkingIndependence(Start, chunks);
    FeedEncoded(cs);
  }

  lemma FeedEncoded(cs: seq<Command>)
    requires Conversation(WaitingCommand, cs)
    ensures Feed(Start, EncodeCommands(cs)).cmds == cs && Feed(Start, EncodeCommands(cs)).buf == []
  {
    var q := ParseEncoded(WaitingCommand, cs, []);
    assert Start.buf + EncodeCommands(cs) == EncodeCommands(cs);
  }

  /** Only the two states the handlers set are ever reached. */
  lemma {:induction false} PhasesReached(p: Parser)
    requires p.phase == WaitingCommand || p.phase == Imported
    ensures Drain(p).phase == WaitingCommand || Drain(p).phase == Imported
    decreases |p.buf|
  {
    if p.buf == [] || CutFrame(p.phase, p.buf).NeedMore? {
    } else {
      PhasesReached(Accept(p, CutFrame(p.phase, p.buf)));
    }
  }
}
