/** What the server does with the bytes of a connection, told in bytes alone: no parser, no decoded commands and
    no encoded replies. */
module WireRules {
  import opened Bytes
  import opened Wire
  import opened Parser
  import opened UpsStatus
  import opened Control
  import opened Engine
  import opened EngineReplies
  import opened Exported
  import opened Enumeration

  /** Four bytes as a number, the high one first. */
  function Big(b3: int, b2: int, b1: int, b0: int): int {
    b3 * 16777216 + b2 * 65536 + b1 * 256 + b0
  }

  function NumberAt(b: seq<Byte>, i: nat): (n: U32)
    requires i + 4 <= |b|
  {
    Big(b[i], b[i + 1], b[i + 2], b[i + 3])
  }

  /** Operations, before an import: a version and a code, which have to be these. */
  predicate Known(b: seq<Byte>)
    requires |b| >= 8
  {
    b[0] == 0x01 && b[1] == 0x11 && b[2] == 0x80 && (b[3] == 0x05 || b[3] == 0x03)
  }

  /** An import request for the one device there is, by its name and the byte that ends it. */
  predicate AsksForUps(b: seq<Byte>)
    requires |b| >= 40
  {
    b[8] == 0x31 && b[9] == 0x2D && b[10] == 0x31 && b[11] == 0
  }

  /** How long a USB request is: a header, and for a SUBMIT to the device its data. */
  function RequestLength(b: seq<Byte>): nat
    requires |b| >= 48
  {
    48 + if b[..4] == [0, 0, 0, 1] && b[12..16] == [0, 0, 0, 0] then NumberAt(b, 24) else 0
  }

  /** A SUBMIT on the interrupt endpoint. */
  predicate Interrupts(b: seq<Byte>)
    requires |b| >= 48
  {
    b[..4] == [0, 0, 0, 1] && (b[16..20] == [0, 0, 0, 1] || b[16..20] == [0, 0, 0, 0x81])
  }

  /** A RET_SUBMIT: the number of its request, success, the length of the data, and the request's start frame.
      Everything else is zero. */
  function Success(seqnum: seq<Byte>, startFrame: seq<Byte>, data: seq<Byte>): seq<Byte>
    requires |data| < 0x1_0000
  {
    [0, 0, 0, 3] + seqnum + Zeros(16) + [0, 0, |data| / 256, |data| % 256] + startFrame + Zeros(16) + data
  }

  /** The data of the answer to a SUBMIT: on endpoint 0 what the setup packet asks for. */
  function Data(c: Config, status: Status, b: seq<Byte>): (d: seq<Byte>)
    requires |b| >= 48
  {
    if b[16..20] == [0, 0, 0, 0] then Expected(c, status, b[40..48]) else []
  }

  /** What is written at once for a USB request. `pending` are the numbers of the requests that wait. */
  function AnswerTo(c: Config, status: Status, pending: set<U32>, b: seq<Byte>): seq<Byte>
    requires |b| >= 48
  {
    if b[..4] == [0, 0, 0, 1] then
      if Interrupts(b) then [] else
      ExpectedFits(c, status, b[40..48]);
      Success(b[4..8], b[28..32], Data(c, status, b))
    else if b[..4] == [0, 0, 0, 2] then
      [0, 0, 0, 4] + b[4..8] + Zeros(12)
      + (if NumberAt(b, 20) in pending then [0xFF, 0xFF, 0xFF, 0x98] else [0, 0, 0, 0]) + Zeros(24)
    else
      [0, 0, 0, 0] + b[4..8] + Zeros(12) + [0, 0, 0, 1] + Zeros(24)
  }

  lemma ExpectedFits(c: Config, status: Status, r: seq<Byte>)
    requires |r| == 8
    ensures |Expected(c, status, r)| < 0x1_0000
  {
    FirstKeeps(Little(r[6], r[7]), Described(c, r[3], r[2], Little(r[4], r[5]), Little(r[6], r[7])));
  }

  /** Nothing happens but that the bytes are kept. */
  ghost predicate Waits(s: State, t: State, c: nat, b: seq<Byte>)
    requires c in s.clients
  {
    t == WithClient(s, c, s.clients[c].(parser := s.clients[c].parser.(buf := b)))
  }

  /** The connection goes on, with no byte left, and `bytes` were written. */
  ghost predicate Writes(s: State, t: State, c: nat, bytes: seq<Byte>) {
    && c in s.logs && c in t.logs && Open(t, c) && t.clients[c].parser.buf == []
    && Written(t.logs[c]) == Written(s.logs[c]) + bytes
  }

  /** The connection starts to close, with no byte left, after `bytes` were written. */
  ghost predicate HangsUpAfter(s: State, t: State, c: nat, bytes: seq<Byte>) {
    && c in s.logs && c in t.logs && c in t.clients && t.clients[c].closing && t.clients[c].parser.buf == []
    && c !in t.listed && Written(t.logs[c]) == Written(s.logs[c]) + bytes
  }

  lemma Incomplete(s: State, c: nat, chunk: seq<Byte>, b: seq<Byte>)
    requires Open(s, c) && chunk != [] && b == s.clients[c].parser.buf + chunk
    requires CutFrame(s.clients[c].parser.phase, b).NeedMore?
    ensures Waits(s, Step(s, Recv(c, chunk)), c, b)
  {
  }

  /** One frame that takes the whole buffer. */
  lemma OneFrame(s: State, c: nat, chunk: seq<Byte>, b: seq<Byte>, cmd: Command)
    requires Open(s, c) && c in s.logs && chunk != [] && b == s.clients[c].parser.buf + chunk
    requires CutFrame(s.clients[c].parser.phase, b) == Frame(cmd, |b|)
    ensures var t := Step(s, Recv(c, chunk));
      && c in t.logs && t.logs[c] == s.logs[c] + [EntryFor(s, c, cmd)] + if HangsUp(cmd) then [HungUp] else []
    ensures var t := Step(s, Recv(c, chunk));
      && t == Turn(Buffered(s, c, chunk), c, Frame(cmd, |b|))
      && t.clients[c].parser.buf == [] && t.clients[c].parser.phase == Next(s.clients[c].parser.phase, cmd)
      && t.clients[c].closing == HangsUp(cmd)
  {
    var u, f := Buffered(s, c, chunk), Frame(cmd, |b|);
    assert u.clients[c].parser.buf == b;
    var t := Turn(u, c, f);
    ServeTurn(u, c, f);
    TurnLog(u, c, f, EntryFor(u, c, cmd));
    assert EntryFor(u, c, cmd) == EntryFor(s, c, cmd);
    NothingLeft(t, c);
  }

  lemma NothingLeft(t: State, c: nat)
    requires c in t.clients && t.clients[c].parser.buf == []
    ensures Serve(t, c) == t
  {
  }

  lemma WrittenMore(log: seq<Entry>, e: Entry)
    ensures Written(log + [e]) == Written(log) + EntryBytes(e)
    ensures Written(log + [e] + [HungUp]) == Written(log) + EntryBytes(e)
  {
    assert (log + [e])[..|log|] == log;
    assert (log + [e] + [HungUp])[..|log| + 1] == log + [e];
    assert Written(log) + EntryBytes(e) + [] == Written(log) + EntryBytes(e);
  }

  lemma HangUpUnlists(u: State, c: nat, f: Cut)
    requires c in u.clients && f.Frame? && f.size <= |u.clients[c].parser.buf| && HangsUp(f.cmd)
    ensures c !in Turn(u, c, f).listed
  {
  }

  // Before an import

  lemma CutOfOperation(b: seq<Byte>)
    requires b != []
    ensures CutOperation(b) ==
      if |b| < 8 then NeedMore
      else if !Known(b) then Frame(Rejected, |b|)
      else if b[3] == 0x05 then Frame(Devlist, 8)
      else if |b| < 40 then NeedMore
      else Frame(Import(b[8..40]), if AsksForUps(b) then 40 else |b|)
  {
    if |b| >= 8 {
      TwoBytes(b, 0, 0x01, 0x11);
      TwoBytes(b, 2, 0x80, 0x05);
      TwoBytes(b, 2, 0x80, 0x03);
    }
  }

  lemma TwoBytes(b: seq<Byte>, i: nat, high: Byte, low: Byte)
    requires i + 2 <= |b|
    ensures At16(b, i) == high * 0x100 + low <==> b[i] == high && b[i + 1] == low
  {
  }

  lemma Refused(s: State, c: nat, chunk: seq<Byte>, b: seq<Byte>, cmd: Command)
    requires Open(s, c) && c in s.logs && chunk != [] && b == s.clients[c].parser.buf + chunk
    requires CutFrame(s.clients[c].parser.phase, b) == Frame(cmd, |b|) && HangsUp(cmd)
    ensures HangsUpAfter(s, Step(s, Recv(c, chunk)), c, EntryBytes(EntryFor(s, c, cmd)))
  {
    OneFrame(s, c, chunk, b, cmd);
    WrittenMore(s.logs[c], EntryFor(s, c, cmd));
    HangUpUnlists(Buffered(s, c, chunk), c, Frame(cmd, |b|));
  }

  lemma Taken(s: State, c: nat, chunk: seq<Byte>, b: seq<Byte>, cmd: Command)
    requires Open(s, c) && c in s.logs && chunk != [] && b == s.clients[c].parser.buf + chunk
    requires CutFrame(s.clients[c].parser.phase, b) == Frame(cmd, |b|) && !HangsUp(cmd)
    ensures var t := Step(s, Recv(c, chunk));
      && Writes(s, t, c, EntryBytes(EntryFor(s, c, cmd)))
      && t.clients[c].parser.phase == Next(s.clients[c].parser.phase, cmd)
  {
    OneFrame(s, c, chunk, b, cmd);
    WrittenMore(s.logs[c], EntryFor(s, c, cmd));
    assert s.logs[c] + [EntryFor(s, c, cmd)] + [] == s.logs[c] + [EntryFor(s, c, cmd)];
  }

  lemma CutWaits(s: State, c: nat, chunk: seq<Byte>, b: seq<Byte>)
    requires Open(s, c) && chunk != [] && s.clients[c].parser.phase == WaitingCommand
    requires b == s.clients[c].parser.buf + chunk && (|b| < 8 || (|b| < 40 && Known(b) && b[3] == 0x03))
    ensures Waits(s, Step(s, Recv(c, chunk)), c, b)
  {
    CutOfOperation(b);
    Incomplete(s, c, chunk, b);
  }

  lemma StrangerRefused(s: State, c: nat, chunk: seq<Byte>, b: seq<Byte>)
    requires Open(s, c) && c in s.logs && chunk != [] && s.clients[c].parser.phase == WaitingCommand
    requires b == s.clients[c].parser.buf + chunk && |b| >= 8 && !Known(b)
    ensures HangsUpAfter(s, Step(s, Recv(c, chunk)), c, [])
  {
    CutOfOperation(b);
    Refused(s, c, chunk, b, Rejected);
  }

  /** An import request by the 32 bytes it names the device with. */
  lemma BusidCompared(b: seq<Byte>)
    requires |b| >= 40
    ensures KnownBusid(b[8..40]) <==> AsksForUps(b)
  {
    var id := b[8..40];
    assert id[..4] == [b[8], b[9], b[10], b[11]];
  }

  lemma ImportAnswered(config: Config, s: State, c: nat, chunk: seq<Byte>, b: seq<Byte>)
    requires s.device == UpsDevice(config) && Open(s, c) && c in s.logs && chunk != []
    requires s.clients[c].parser.phase == WaitingCommand && b == s.clients[c].parser.buf + chunk
    requires |b| >= 40 && Known(b) && b[3] == 0x03
    ensures var t := Step(s, Recv(c, chunk));
      if !AsksForUps(b) then HangsUpAfter(s, t, c, [1, 0x11, 0, 3, 0, 0, 0, 1])
      else |b| == 40 ==>
        Writes(s, t, c, [1, 0x11, 0, 3, 0, 0, 0, 0] + Record(config)) && t.clients[c].parser.phase == Imported
  {
    CutOfOperation(b);
    BusidCompared(b);
    var cmd := Import(b[8..40]);
    ImportBytes(config, s, c, b[8..40]);
    if !AsksForUps(b) {
      Refused(s, c, chunk, b, cmd);
    } else if |b| == 40 {
      Taken(s, c, chunk, b, cmd);
    }
  }

  lemma DevlistAnswered(config: Config, s: State, c: nat, chunk: seq<Byte>, b: seq<Byte>)
    requires s.device == UpsDevice(config) && Open(s, c) && c in s.logs && chunk != []
    requires s.clients[c].parser.phase == WaitingCommand && b == s.clients[c].parser.buf + chunk
    requires |b| == 8 && Known(b) && b[3] == 0x05
    ensures var t := Step(s, Recv(c, chunk));
      && Writes(s, t, c, [1, 0x11, 0, 5, 0, 0, 0, 0] + [0, 0, 0, 1] + Record(config) + [3, 0, 0, 0])
      && t.clients[c].parser.phase == WaitingCommand
  {
    CutOfOperation(b);
    Taken(s, c, chunk, b, Devlist);
    UpsIsGood(config);
    DevlistBytes(Record(config));
  }

  /** A connection that has not imported, with `b` in its buffer once the chunk is in. Fewer than 8 bytes wait.
      Another version or an unknown code closes the connection and writes nothing. A device list request is
      answered with the one device. An import request waits for its 40 bytes; one for another device is refused and
      closes the connection, and one for the device is granted. */
  lemma OperationRule(config: Config, s: State, c: nat, chunk: seq<Byte>, b: seq<Byte>)
    requires s.device == UpsDevice(config) && Open(s, c) && c in s.logs && chunk != []
    requires s.clients[c].parser.phase == WaitingCommand && b == s.clients[c].parser.buf + chunk
    ensures var t := Step(s, Recv(c, chunk));
      && (|b| < 8 ==> Waits(s, t, c, b))
      && (|b| >= 8 && !Known(b) ==> HangsUpAfter(s, t, c, []))
      && (|b| == 8 && Known(b) && b[3] == 0x05 ==>
            && Writes(s, t, c, [1, 0x11, 0, 5, 0, 0, 0, 0] + [0, 0, 0, 1] + Record(config) + [3, 0, 0, 0])
            && t.clients[c].parser.phase == WaitingCommand)
      && (8 <= |b| < 40 && Known(b) && b[3] == 0x03 ==> Waits(s, t, c, b))
      && (|b| >= 40 && Known(b) && b[3] == 0x03 && !AsksForUps(b) ==>
            HangsUpAfter(s, t, c, [1, 0x11, 0, 3, 0, 0, 0, 1]))
      && (|b| == 40 && Known(b) && b[3] == 0x03 && AsksForUps(b) ==>
            && Writes(s, t, c, [1, 0x11, 0, 3, 0, 0, 0, 0] + Record(config))
            && t.clients[c].parser.phase == Imported)
  {
    if |b| < 8 {
      CutWaits(s, c, chunk, b);
    } else if !Known(b) {
      StrangerRefused(s, c, chunk, b);
    } else if b[3] == 0x05 {
      if |b| == 8 {
        DevlistAnswered(config, s, c, chunk, b);
      }
    } else if |b| < 40 {
      CutWaits(s, c, chunk, b);
    } else {
      ImportAnswered(config, s, c, chunk, b);
    }
  }

  lemma ImportBytes(config: Config, s: State, c: nat, busid: seq<Byte>)
    requires s.device == UpsDevice(config) && c in s.clients
    ensures EntryBytes(EntryFor(s, c, Import(busid))) ==
      if KnownBusid(busid) then [1, 0x11, 0, 3, 0, 0, 0, 0] + Record(config) else [1, 0x11, 0, 3, 0, 0, 0, 1]
  {
  }

  lemma DevlistBytes(record: seq<Byte>)
    requires |record| == DEVICE_SIZE && record[DEVICE_SIZE - 1] == 1
    ensures var e := DeviceEntry(record, [[3, 0, 0, 0]]);
      && GoodReply(RepDevlist([e]))
      && EncodeReply(RepDevlist([e])) == [1, 0x11, 0, 5, 0, 0, 0, 0] + [0, 0, 0, 1] + record + [3, 0, 0, 0]
  {
    var e := DeviceEntry(record, [[3, 0, 0, 0]]);
    assert Join([[3, 0, 0, 0]]) == [3, 0, 0, 0];
    assert EncodeEntries([e]) == EncodeEntry(e) == record + [3, 0, 0, 0];
    assert OpHeader(OP_REP_DEVLIST, 0) == [1, 0x11, 0, 5, 0, 0, 0, 0] && Be32(1) == [0, 0, 0, 1];
  }

  // On an importing connection

  lemma {:induction false} WordsAppend(a: seq<U32>, b: seq<U32>)
    ensures Words(a + b) == Words(a) + Words(b)
  {
    if a == [] {
      assert a + b == b;
    } else {
      assert (a + b)[1..] == a[1..] + b;
      WordsAppend(a[1..], b);
    }
  }

  lemma TwoWords(x: U32, y: U32)
    ensures Words([x, y]) == Be32(x) + Be32(y)
  {
    assert [x, y][1..] == [y] && [y][1..] == [];
  }

  /** The number of a request comes back as the bytes it came in. */
  lemma SameBytes(b: seq<Byte>, i: nat)
    requires i + 4 <= |b|
    ensures Be32(NumberAt(b, i)) == b[i..i + 4] && At32(b, i) == NumberAt(b, i)
  {
    BytesOfNumber(b[i], b[i + 1], b[i + 2], b[i + 3]);
  }

  lemma BytesOfNumber(b3: Byte, b2: Byte, b1: Byte, b0: Byte)
    ensures 0 <= Big(b3, b2, b1, b0) < 0x1_0000_0000 && Be32(Big(b3, b2, b1, b0)) == [b3, b2, b1, b0]
  {
    var n := Big(b3, b2, b1, b0);
    assert n / 0x100 == b3 * 65536 + b2 * 256 + b1 && n % 0x100 == b0;
    assert n / 0x1_0000 == b3 * 256 + b2 && n / 0x100 % 0x100 == b1;
    assert n / 0x100_0000 == b3 && n / 0x1_0000 % 0x100 == b2;
  }

  /** A word is a small number by its bytes. */
  lemma SmallWord(b: seq<Byte>, i: nat, k: Byte)
    requires i + 4 <= |b|
    ensures At32(b, i) == k <==> b[i..i + 4] == [0, 0, 0, k]
  {
    SmallBig(b[i], b[i + 1], b[i + 2], b[i + 3], k);
    FourBytes(b, i, [0, 0, 0, k]);
  }

  lemma SmallBig(b3: Byte, b2: Byte, b1: Byte, b0: Byte, k: Byte)
    ensures Big(b3, b2, b1, b0) == k <==> b3 == 0 && b2 == 0 && b1 == 0 && b0 == k
  {
  }

  lemma FourBytes(b: seq<Byte>, i: nat, w: seq<Byte>)
    requires i + 4 <= |b| && |w| == 4
    ensures b[i..i + 4] == w <==> b[i] == w[0] && b[i + 1] == w[1] && b[i + 2] == w[2] && b[i + 3] == w[3]
  {
    var v := b[i..i + 4];
    assert v[0] == b[i] && v[1] == b[i + 1] && v[2] == b[i + 2] && v[3] == b[i + 3];
  }

  lemma LengthIs(b: seq<Byte>)
    requires |b| >= 48
    ensures RequestLength(b) == 48 + if At32(b, 0) == CMD_SUBMIT && At32(b, 12) == 0 then At32(b, 24) else 0
  {
    SmallWord(b, 0, 1);
    SmallWord(b, 12, 0);
    SameBytes(b, 24);
    assert b[0..4] == b[..4];
  }

  /** The command a whole request is. */
  lemma CommandIs(b: seq<Byte>)
    requires |b| >= 48 && |b| == RequestLength(b)
    ensures var cmd := UsbCommand(b);
      && CutUsb(b) == Frame(cmd, |b|)
      && (if b[..4] == [0, 0, 0, 1] then
            cmd.Submit? && cmd.header.seqnum == NumberAt(b, 4) && cmd.header.ep == NumberAt(b, 16)
            && cmd.header.startFrame == NumberAt(b, 28) && cmd.header.setup == b[40..48]
          else if b[..4] == [0, 0, 0, 2] then cmd == Unlink(NumberAt(b, 4), NumberAt(b, 20))
          else cmd.OtherUsb? && cmd.seqnum == NumberAt(b, 4))
  {
    LengthIs(b);
    assert b[..|b|] == b && b[0..4] == b[..4];
    SmallWord(b, 0, 1);
    SmallWord(b, 0, 2);
  }

  lemma RequestWaits(s: State, c: nat, chunk: seq<Byte>, b: seq<Byte>)
    requires Open(s, c) && chunk != [] && s.clients[c].parser.phase == Imported && b == s.clients[c].parser.buf + chunk
    requires |b| < 48 || |b| < RequestLength(b)
    ensures Waits(s, Step(s, Recv(c, chunk)), c, b)
  {
    if |b| >= 48 {
      LengthIs(b);
    }
    Incomplete(s, c, chunk, b);
  }

  lemma SuccessBytes(seqnum: U32, startFrame: U32, data: seq<Byte>)
    requires |data| < 0x1_0000
    ensures EncodeReply(RetSubmit(seqnum, startFrame, data)) == Success(Be32(seqnum), Be32(startFrame), data)
  {
    SuccessWords(seqnum, |data|, startFrame);
    SizeBytes(|data|);
    Collected([0, 0, 0, 3], Be32(seqnum), [0, 0, 0, 0], Be32(|data|), Be32(startFrame), data);
  }

  lemma SizeBytes(n: nat)
    requires n < 0x1_0000
    ensures Be32(n) == [0, 0, n / 256, n % 256]
  {
  }

  lemma SuccessWords(seqnum: U32, n: U32, startFrame: U32)
    ensures var z: seq<Byte> := [0, 0, 0, 0];
      Words([RET_SUBMIT, seqnum, 0, 0, 0, 0, n, startFrame, 0, 0]) ==
      [0, 0, 0, 3] + Be32(seqnum) + (z + z + (z + z + (Be32(n) + Be32(startFrame) + (z + z))))
  {
    var a, z, l: seq<U32> := [3, seqnum], [0, 0], [n, startFrame];
    assert [RET_SUBMIT, seqnum, 0, 0, 0, 0, n, startFrame, 0, 0] == a + (z + (z + (l + z)));
    WordsAppend(a, z + (z + (l + z)));
    WordsAppend(z, z + (l + z));
    WordsAppend(z, l + z);
    WordsAppend(l, z);
    TwoWords(3, seqnum);
    TwoWords(0, 0);
    TwoWords(n, startFrame);
    assert Be32(3) == [0, 0, 0, 3] && Be32(0) == [0, 0, 0, 0];
  }

  lemma Collected(a: seq<Byte>, q: seq<Byte>, z: seq<Byte>, n: seq<Byte>, f: seq<Byte>, data: seq<Byte>)
    requires z == [0, 0, 0, 0]
    ensures a + q + (z + z + (z + z + (n + f + (z + z)))) + Zeros(8) + data ==
      a + q + Zeros(16) + n + f + Zeros(16) + data
  {
    assert z + z + (z + z) == Zeros(16) && z + z + Zeros(8) == Zeros(16);
  }

  /** The header of an answer without data: six words, and zeros. */
  lemma ShortBytes(command: Byte, seqnum: U32, result: U32)
    ensures Words([command, seqnum, 0, 0, 0, result]) + Zeros(24) ==
      [0, 0, 0, command] + Be32(seqnum) + Zeros(12) + Be32(result) + Zeros(24)
  {
    var a, z, l: seq<U32> := [command, seqnum], [0, 0], [0, result];
    assert [command, seqnum, 0, 0, 0, result] == a + (z + l);
    WordsAppend(a, z + l);
    WordsAppend(z, l);
    TwoWords(command, seqnum);
    TwoWords(0, 0);
    TwoWords(0, result);
    assert Be32(command) == [0, 0, 0, command] && Be32(0) == [0, 0, 0, 0];
    assert Be32(0) + Be32(0) + Be32(0) == Zeros(12);
  }

  /** The data that goes back with a SUBMIT is what the setup packet asks for. */
  lemma DataIs(config: Config, s: State, h: SubmitHeader, b: seq<Byte>)
    requires s.device == UpsDevice(config) && |b| >= 48 && h.ep == NumberAt(b, 16) && h.setup == b[40..48]
    ensures SubmitData(s, h) == Data(config, s.status, b) && |Data(config, s.status, b)| < 0x1_0000
  {
    SmallWord(b, 16, 0);
    SameBytes(b, 16);
    ControlAnswers(config, s.status, b[40..48]);
    ExpectedFits(config, s.status, b[40..48]);
  }

  lemma InterruptsWhen(b: seq<Byte>)
    requires |b| >= 48 && b[..4] == [0, 0, 0, 1]
    ensures Interrupts(b) <==> InterruptEndpoint(NumberAt(b, 16))
  {
    SmallWord(b, 16, 1);
    SmallWord(b, 16, 0x81);
    SameBytes(b, 16);
  }

  lemma SubmitWrites(config: Config, s: State, c: nat, cmd: Command, b: seq<Byte>)
    requires s.device == UpsDevice(config) && c in s.clients && |b| >= 48 && b[..4] == [0, 0, 0, 1] && cmd.Submit?
    requires cmd.header.seqnum == NumberAt(b, 4) && cmd.header.ep == NumberAt(b, 16)
    requires cmd.header.startFrame == NumberAt(b, 28) && cmd.header.setup == b[40..48]
    ensures EntryBytes(EntryFor(s, c, cmd)) == AnswerTo(config, s.status, s.clients[c].pending.Keys, b)
  {
    InterruptsWhen(b);
    if !Interrupts(b) {
      DataIs(config, s, cmd.header, b);
      SubmitAnswer(config, s.status, s.clients[c].pending.Keys, cmd, b);
    }
  }

  lemma SubmitAnswer(config: Config, status: Status, pending: set<U32>, cmd: Command, b: seq<Byte>)
    requires |b| >= 48 && b[..4] == [0, 0, 0, 1] && !Interrupts(b) && |Data(config, status, b)| < 0x1_0000
    ensures EntryBytes(Answered(cmd, RetSubmit(NumberAt(b, 4), NumberAt(b, 28), Data(config, status, b)))) ==
      AnswerTo(config, status, pending, b)
  {
    SameBytes(b, 4);
    SameBytes(b, 28);
    SuccessBytes(NumberAt(b, 4), NumberAt(b, 28), Data(config, status, b));
  }

  lemma UnlinkWrites(config: Config, s: State, c: nat, b: seq<Byte>)
    requires c in s.clients && |b| >= 48 && b[..4] == [0, 0, 0, 2]
    ensures EntryBytes(EntryFor(s, c, Unlink(NumberAt(b, 4), NumberAt(b, 20)))) ==
      AnswerTo(config, s.status, s.clients[c].pending.Keys, b)
  {
    var cmd := Unlink(NumberAt(b, 4), NumberAt(b, 20));
    SameBytes(b, 4);
    if NumberAt(b, 20) in s.clients[c].pending {
      UnlinkBytes(cmd, NumberAt(b, 4), -104);
    } else {
      UnlinkBytes(cmd, NumberAt(b, 4), 0);
    }
  }

  lemma UnlinkBytes(cmd: Command, seqnum: U32, result: int)
    requires result == 0 || result == -104
    ensures EntryBytes(Answered(cmd, RetUnlink(seqnum, result))) ==
      [0, 0, 0, 4] + Be32(seqnum) + Zeros(12)
      + (if result == 0 then [0, 0, 0, 0] else [0xFF, 0xFF, 0xFF, 0x98]) + Zeros(24)
  {
    ShortBytes(4, seqnum, Unsigned32(result));
    assert Be32(0) == [0, 0, 0, 0] && Be32(0xFFFF_FF98) == [0xFF, 0xFF, 0xFF, 0x98];
  }

  lemma OtherWrites(config: Config, s: State, c: nat, cmd: Command, b: seq<Byte>)
    requires c in s.clients && |b| >= 48 && b[..4] != [0, 0, 0, 1] && b[..4] != [0, 0, 0, 2]
    requires cmd.OtherUsb? && cmd.seqnum == NumberAt(b, 4)
    ensures EntryBytes(EntryFor(s, c, cmd)) == AnswerTo(config, s.status, s.clients[c].pending.Keys, b)
  {
    SameBytes(b, 4);
    ShortBytes(0, NumberAt(b, 4), 1);
    assert Be32(1) == [0, 0, 0, 1];
  }

  lemma RequestWrites(config: Config, s: State, c: nat, b: seq<Byte>)
    requires s.device == UpsDevice(config) && c in s.clients && |b| >= 48 && |b| == RequestLength(b)
    ensures EntryBytes(EntryFor(s, c, UsbCommand(b))) == AnswerTo(config, s.status, s.clients[c].pending.Keys, b)
  {
    CommandIs(b);
    if b[..4] == [0, 0, 0, 1] {
      SubmitWrites(config, s, c, UsbCommand(b), b);
    } else if b[..4] == [0, 0, 0, 2] {
      UnlinkWrites(config, s, c, b);
    } else {
      OtherWrites(config, s, c, UsbCommand(b), b);
    }
  }

  /** What becomes of the connection's waiting requests: an interrupt request starts a timer of half a second, an
      UNLINK of a waiting one stops its timer, and nothing else touches them. */
  predicate TimersAfter(s: State, t: State, c: nat, b: seq<Byte>)
    requires c in s.clients && c in t.clients && |b| >= 48
  {
    var before, after := s.clients[c].pending, t.clients[c].pending;
    if Interrupts(b) then
      && after == before[NumberAt(b, 4) := s.nextTimer]
      && t.armed == s.armed[s.nextTimer := Timer(c, NumberAt(b, 4), s.now + 500)]
    else if b[..4] == [0, 0, 0, 2] && NumberAt(b, 20) in before then
      after == before - {NumberAt(b, 20)} && t.armed == s.armed - {before[NumberAt(b, 20)]}
    else
      after == before && t.armed == s.armed
  }

  lemma RequestTimers(s: State, c: nat, chunk: seq<Byte>, b: seq<Byte>)
    requires c in s.clients && b == s.clients[c].parser.buf + chunk && |b| >= 48 && |b| == RequestLength(b)
    ensures TimersAfter(s, Turn(Buffered(s, c, chunk), c, Frame(UsbCommand(b), |b|)), c, b)
  {
    CommandIs(b);
    if b[..4] == [0, 0, 0, 1] {
      InterruptsWhen(b);
      SubmitTimers(s, c, chunk, b, UsbCommand(b));
    } else if b[..4] == [0, 0, 0, 2] {
      UnlinkTimers(s, c, chunk, b);
    }
  }

  lemma SubmitTimers(s: State, c: nat, chunk: seq<Byte>, b: seq<Byte>, cmd: Command)
    requires c in s.clients && b == s.clients[c].parser.buf + chunk && |b| >= 48 && b[..4] == [0, 0, 0, 1]
    requires cmd.Submit?
    requires cmd.header.seqnum == NumberAt(b, 4) && (Interrupts(b) <==> InterruptEndpoint(cmd.header.ep))
    ensures TimersAfter(s, Turn(Buffered(s, c, chunk), c, Frame(cmd, |b|)), c, b)
  {
    var u := Buffered(s, c, chunk);
    if Interrupts(b) {
      ParkTimers(u, c, cmd);
    } else {
      assert Handle(u, c, cmd).clients == u.clients && Handle(u, c, cmd).armed == u.armed;
    }
  }

  lemma ParkTimers(u: State, c: nat, cmd: Command)
    requires c in u.clients && cmd.Submit? && InterruptEndpoint(cmd.header.ep)
    ensures var t := Handle(u, c, cmd);
      && t.clients[c].pending == u.clients[c].pending[cmd.header.seqnum := u.nextTimer]
      && t.armed == u.armed[u.nextTimer := Timer(c, cmd.header.seqnum, u.now + 500)]
  {
  }

  lemma UnlinkTimers(s: State, c: nat, chunk: seq<Byte>, b: seq<Byte>)
    requires c in s.clients && b == s.clients[c].parser.buf + chunk && |b| >= 48 && b[..4] == [0, 0, 0, 2]
    ensures TimersAfter(s, Turn(Buffered(s, c, chunk), c, Frame(Unlink(NumberAt(b, 4), NumberAt(b, 20)), |b|)), c, b)
  {
  }

  /** A request on an importing connection, with `b` in its buffer once the chunk is in. It waits until its header
      and its data are there. Then the reply is written at once, but for an interrupt request, which waits for its
      timer. */
  lemma RequestRule(config: Config, s: State, c: nat, chunk: seq<Byte>, b: seq<Byte>)
    requires s.device == UpsDevice(config) && Open(s, c) && c in s.logs && chunk != []
    requires s.clients[c].parser.phase == Imported && b == s.clients[c].parser.buf + chunk
    ensures var t := Step(s, Recv(c, chunk));
      && (|b| < 48 || |b| < RequestLength(b) ==> Waits(s, t, c, b))
      && (|b| >= 48 && |b| == RequestLength(b) ==>
            && Writes(s, t, c, AnswerTo(config, s.status, s.clients[c].pending.Keys, b))
            && t.clients[c].parser.phase == Imported && TimersAfter(s, t, c, b))
  {
    if |b| < 48 || |b| < RequestLength(b) {
      RequestWaits(s, c, chunk, b);
    } else if |b| == RequestLength(b) {
      CommandIs(b);
      OneFrame(s, c, chunk, b, UsbCommand(b));
      Taken(s, c, chunk, b, UsbCommand(b));
      RequestWrites(config, s, c, b);
      RequestTimers(s, c, chunk, b);
    }
  }

  /** What a timer writes when it fires: success without data, for the number of its request. */
  lemma NakWritten(s: State, i: nat)
    requires Due(s, i) && s.armed[i].client in s.clients && s.armed[i].client in s.logs
    ensures var c, t := s.armed[i].client, Step(s, Fire(i));
      c in t.logs && Written(t.logs[c]) == Written(s.logs[c]) +
        if s.clients[c].closing then [] else Success(Be32(s.armed[i].seqnum), [0, 0, 0, 0], [])
  {
    var c, n := s.armed[i].client, s.armed[i].seqnum;
    var e := if s.clients[c].closing then Swallowed(n, s.now) else Nak(n, s.now);
    WrittenMore(s.logs[c], e);
    NakEntry(n, s.now);
  }

  lemma NakEntry(n: U32, at: nat)
    ensures EntryBytes(Nak(n, at)) == Success(Be32(n), [0, 0, 0, 0], [])
  {
    SuccessBytes(n, 0, []);
    assert Be32(0) == [0, 0, 0, 0];
  }

  /** An interrupt request waits: nothing is written, and its timer runs for half a second. */
  lemma InterruptWaits(config: Config, s: State, c: nat, chunk: seq<Byte>, b: seq<Byte>)
    requires s.device == UpsDevice(config) && Open(s, c) && c in s.logs && chunk != []
    requires s.clients[c].parser.phase == Imported && b == s.clients[c].parser.buf + chunk
    requires |b| >= 48 && |b| == RequestLength(b) && Interrupts(b)
    ensures var t := Step(s, Recv(c, chunk));
      && Writes(s, t, c, []) && t.now == s.now
      && s.nextTimer in t.armed && t.armed[s.nextTimer] == Timer(c, NumberAt(b, 4), s.now + 500)
  {
    RequestRule(config, s, c, chunk, b);
    ClockKept(s, c, chunk);
  }

  /** When a timer fires on an open connection, not before its time, its number is written with success. */
  lemma FiresInTime(s: State, i: nat, c: nat, seqnum: seq<Byte>, deadline: nat)
    requires Due(s, i) && |seqnum| == 4 && s.armed[i] == Timer(c, NumberAt(seqnum, 0), deadline)
    requires Open(s, c) && c in s.logs
    ensures deadline <= s.now
    ensures var t := Step(s, Fire(i));
      c in t.logs && Written(t.logs[c]) == Written(s.logs[c]) + ([0, 0, 0, 3] + seqnum + Zeros(40))
  {
    NakWritten(s, i);
    NakBytes(s.armed[i].seqnum, seqnum);
  }

  lemma NakBytes(n: U32, seqnum: seq<Byte>)
    requires |seqnum| == 4 && n == NumberAt(seqnum, 0)
    ensures Success(Be32(n), [0, 0, 0, 0], []) == [0, 0, 0, 3] + seqnum + Zeros(40)
  {
    SameBytes(seqnum, 0);
    assert seqnum[0..4] == seqnum;
    EmptySuccess(seqnum);
  }

  /** An interrupt request from its arrival to its NAK: nothing is written at once; its timer is not due before
      half a second has passed; and when it fires it writes the number the request came with. */
  lemma InterruptRule(config: Config, s: State, c: nat, chunk: seq<Byte>, b: seq<Byte>, elapsed: nat)
    requires s.device == UpsDevice(config) && Open(s, c) && c in s.logs && chunk != []
    requires s.clients[c].parser.phase == Imported && b == s.clients[c].parser.buf + chunk
    requires |b| >= 48 && |b| == RequestLength(b) && Interrupts(b)
    ensures var t := Step(Step(s, Recv(c, chunk)), Tick(elapsed));
      && Writes(s, t, c, [])
      && (Due(t, s.nextTimer) ==>
            && elapsed >= 500
            && var u := Step(t, Fire(s.nextTimer));
               c in u.logs && Written(u.logs[c]) == Written(s.logs[c]) + [] + ([0, 0, 0, 3] + b[4..8] + Zeros(40)))
  {
    var t0 := Step(s, Recv(c, chunk));
    InterruptWaits(config, s, c, chunk, b);
    Waited(s, t0, c, elapsed, s.nextTimer, b[4..8]);
  }

  lemma Waited(s: State, t: State, c: nat, elapsed: nat, i: nat, seqnum: seq<Byte>)
    requires Writes(s, t, c, []) && t.now == s.now && |seqnum| == 4
    requires i in t.armed && t.armed[i] == Timer(c, NumberAt(seqnum, 0), s.now + 500)
    ensures var u := Step(t, Tick(elapsed));
      && Writes(s, u, c, [])
      && (Due(u, i) ==>
            && elapsed >= 500
            && var v := Step(u, Fire(i));
               c in v.logs && Written(v.logs[c]) == Written(s.logs[c]) + [] + ([0, 0, 0, 3] + seqnum + Zeros(40)))
  {
    var u := Step(t, Tick(elapsed));
    assert u.logs == t.logs && u.clients == t.clients && u.armed == t.armed;
    if Due(u, i) {
      FiresInTime(u, i, c, seqnum, s.now + 500);
    }
  }

  lemma EmptySuccess(seqnum: seq<Byte>)
    requires |seqnum| == 4
    ensures Success(seqnum, [0, 0, 0, 0], []) == [0, 0, 0, 3] + seqnum + Zeros(40)
  {
  }

  lemma ClockKept(s: State, c: nat, chunk: seq<Byte>)
    ensures Step(s, Recv(c, chunk)).now == s.now
  {
    if Enabled(s, Recv(c, chunk)) {
      ServeClock(Buffered(s, c, chunk), c);
    }
  }

  lemma {:induction false} ServeClock(s: State, c: nat)
    requires c in s.clients
    ensures Serve(s, c).now == s.now
    decreases |s.clients[c].parser.buf|
  {
    var p := s.clients[c].parser;
    if p.buf == [] || CutFrame(p.phase, p.buf).NeedMore? {
    } else {
      var f := CutFrame(p.phase, p.buf);
      HandleClock(s, c, f.cmd);
      ServeTurn(s, c, f);
      ServeClock(Turn(s, c, f), c);
    }
  }

  lemma HandleClock(s: State, c: nat, cmd: Command)
    requires c in s.clients
    ensures Handle(s, c, cmd).now == s.now
  {
  }

  // Connections come and go

  /** A new connection: it waits for a command and nothing is written on it; one that could not be accepted is on
      its way out at once. */
  lemma ConnectRule(s: State, accepted: bool)
    requires s.running
    ensures var c, t := s.nextClient, Step(s, Connect(accepted));
      && c in t.clients && c in t.logs
      && t.clients[c] == Client(Parser(WaitingCommand, [], false, []), map[], !accepted)
      && (c in t.listed <==> accepted || c in s.listed) && Written(t.logs[c]) == [] && t.nextClient == c + 1
      && forall d | d != c :: (d in t.clients <==> d in s.clients) && (d in s.clients ==> t.clients[d] == s.clients[d])
  {
  }

  /** The end of a stream: the connection starts to close, and nothing is written. */
  lemma EofRule(s: State, c: nat)
    requires Open(s, c) && c in s.logs
    ensures var t := Step(s, Eof(c));
      && c in t.clients && t.clients[c] == s.clients[c].(closing := true) && t.listed == s.listed - {c}
      && t.armed == s.armed && c in t.logs && Written(t.logs[c]) == Written(s.logs[c])
  {
    assert (s.logs[c] + [HungUp])[..|s.logs[c]|] == s.logs[c];
    assert Written(s.logs[c]) + [] == Written(s.logs[c]);
  }

  /** The close callback: the connection is gone, and so are the timers it had in its map, and no others. */
  lemma CloseRule(s: State, c: nat)
    requires c in s.clients && s.clients[c].closing && c in s.logs
    ensures var t := Step(s, CloseCallback(c));
      && t.clients == s.clients - {c} && t.armed == s.armed - s.clients[c].pending.Values
      && c in t.logs && Written(t.logs[c]) == Written(s.logs[c])
  {
    var e := Dropped(s.clients[c].pending.Keys);
    ReleaseRule(s, c);
    LogRule(s, Release(s, c), c, e);
  }

  lemma ReleaseRule(s: State, c: nat)
    requires c in s.clients
    ensures var t := Release(s, c);
      t.clients == s.clients - {c} && t.armed == s.armed - s.clients[c].pending.Values && t.logs == s.logs
  {
    var u := CancelAll(s, c);
    assert u.clients - {c} == s.clients - {c};
  }

  lemma LogRule(s: State, t: State, c: nat, e: Entry)
    requires c in s.logs && t.logs == s.logs && EntryBytes(e) == []
    ensures Written(Log(t, c, e).logs[c]) == Written(s.logs[c])
  {
    WrittenMore(s.logs[c], e);
    assert Written(s.logs[c]) + [] == Written(s.logs[c]);
  }
}
