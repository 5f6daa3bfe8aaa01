/** The bytes the server writes on a connection, byte by byte, over every run. */
module OutputForm {
  import opened Bytes
  import opened Wire
  import opened Reader
  import opened UpsStatus
  import opened Control
  import opened Engine
  import opened EngineMemory
  import opened EngineReplies
  import opened Exported
  import opened WireRules

  /** `n` zero bytes from `i` on. */
  predicate ZeroFrom(b: seq<Byte>, i: nat, n: nat) {
    i + n <= |b| && forall k | i <= k < i + n :: b[k] == 0
  }

  /** The header of a RET_SUBMIT: command 3, a number, devid, direction, endpoint and status zero, the length of
      the data, a start frame, and zeros. */
  predicate SubmitHeaderForm(b: seq<Byte>) {
    |b| >= 48 && b[..4] == [0, 0, 0, 3] && ZeroFrom(b, 8, 16) && ZeroFrom(b, 32, 16)
  }

  /** A RET_UNLINK: command 4, and success or -104 as the status. */
  predicate UnlinkForm(b: seq<Byte>) {
    && |b| >= 48 && b[..4] == [0, 0, 0, 4] && ZeroFrom(b, 8, 12) && ZeroFrom(b, 24, 24)
    && (b[20..24] == [0, 0, 0, 0] || b[20..24] == [0xFF, 0xFF, 0xFF, 0x98])
  }

  /** The answer to an unknown command: no command, and status 1. */
  predicate ErrorForm(b: seq<Byte>) {
    |b| >= 48 && ZeroFrom(b, 0, 4) && ZeroFrom(b, 8, 12) && b[20..24] == [0, 0, 0, 1] && ZeroFrom(b, 24, 24)
  }

  /** A device list with one device and its one interface, a refused import and a granted one. */
  predicate DevlistForm(b: seq<Byte>) {
    |b| >= 328 && b[..12] == [1, 0x11, 0, 5, 0, 0, 0, 0, 0, 0, 0, 1]
  }

  predicate RefusalForm(b: seq<Byte>) {
    |b| >= 8 && b[..8] == [1, 0x11, 0, 3, 0, 0, 0, 1]
  }

  predicate GrantForm(b: seq<Byte>) {
    |b| >= 320 && b[..8] == [1, 0x11, 0, 3, 0, 0, 0, 0]
  }

  /** A byte stream made of such replies; once an import was granted, of the USB ones. */
  predicate Conforms(imported: bool, b: seq<Byte>)
    decreases |b|
  {
    if b == [] then true
    else if imported then
      if UnlinkForm(b) || ErrorForm(b) then Conforms(true, b[48..])
      else if !SubmitHeaderForm(b) then false else
      var size := 48 + NumberAt(b, 24);
      size <= |b| && Conforms(true, b[size..])
    else if DevlistForm(b) then Conforms(false, b[328..])
    else if RefusalForm(b) then Conforms(false, b[8..])
    else GrantForm(b) && Conforms(true, b[320..])
  }

  /** A reply this server gives. */
  predicate Usual(r: Reply) {
    match r
    case RepDevlist(ds) => |ds| == 1 && |ds[0].interfaces| == 1
    case RepImport(status, _) => status == 0 || status == 1
    case RetSubmit(_, _, data) => |data| < 0x1_0000
    case RetUnlink(_, result) => result == 0 || result == -104
    case RetOther(_) => true
  }

  lemma SubmitConforms(seqnum: U32, startFrame: U32, data: seq<Byte>, rest: seq<Byte>)
    requires |data| < 0x1_0000 && Conforms(true, rest)
    ensures Conforms(true, EncodeReply(RetSubmit(seqnum, startFrame, data)) + rest)
  {
    SuccessBytes(seqnum, startFrame, data);
    SuccessForm(Be32(seqnum), Be32(startFrame), data, rest);
  }

  lemma SuccessForm(seqnum: seq<Byte>, startFrame: seq<Byte>, data: seq<Byte>, rest: seq<Byte>)
    requires |seqnum| == 4 && |startFrame| == 4 && |data| < 0x1_0000 && Conforms(true, rest)
    ensures Conforms(true, Success(seqnum, startFrame, data) + rest)
  {
    var b := Success(seqnum, startFrame, data) + rest;
    assert b[..4] == [0, 0, 0, 3];
    assert b[24..28] == [0, 0, |data| / 256, |data| % 256];
    assert NumberAt(b, 24) == |data|;
    assert b[8..24] == Zeros(16) && b[32..48] == Zeros(16);
    SliceZero(b, 8, 16);
    SliceZero(b, 32, 16);
    assert b[48 + |data|..] == rest;
    assert b[3] == 3;
  }

  lemma SliceZero(b: seq<Byte>, i: nat, n: nat)
    requires i + n <= |b| && b[i..i + n] == Zeros(n)
    ensures ZeroFrom(b, i, n)
  {
    forall k | i <= k < i + n ensures b[k] == 0 {
      assert b[k] == b[i..i + n][k - i];
    }
  }

  lemma ShortConforms(command: Byte, seqnum: U32, result: seq<Byte>, rest: seq<Byte>)
    requires |result| == 4 && Conforms(true, rest)
    requires if command == 4 then result == [0, 0, 0, 0] || result == [0xFF, 0xFF, 0xFF, 0x98]
             else command == 0 && result == [0, 0, 0, 1]
    ensures Conforms(true, [0, 0, 0, command] + Be32(seqnum) + Zeros(12) + result + Zeros(24) + rest)
  {
    var b := [0, 0, 0, command] + Be32(seqnum) + Zeros(12) + result + Zeros(24) + rest;
    assert b[..4] == b[0..4] == [0, 0, 0, command] && b[20..24] == result && b[48..] == rest;
    assert b[8..20] == Zeros(12) && b[24..48] == Zeros(24);
    SliceZero(b, 8, 12);
    SliceZero(b, 24, 24);
  }

  lemma UnlinkConforms(seqnum: U32, result: int, rest: seq<Byte>)
    requires (result == 0 || result == -104) && Conforms(true, rest)
    ensures Conforms(true, EncodeReply(RetUnlink(seqnum, result)) + rest)
  {
    UnlinkBytes(Unlink(seqnum, 0), seqnum, result);
    ShortConforms(4, seqnum, if result == 0 then [0, 0, 0, 0] else [0xFF, 0xFF, 0xFF, 0x98], rest);
  }

  lemma ErrorConforms(seqnum: U32, rest: seq<Byte>)
    requires Conforms(true, rest)
    ensures Conforms(true, EncodeReply(RetOther(seqnum)) + rest)
  {
    ShortBytes(0, seqnum, 1);
    assert Be32(1) == [0, 0, 0, 1];
    ShortConforms(0, seqnum, [0, 0, 0, 1], rest);
  }

  lemma DevlistConforms(d: DeviceEntry, rest: seq<Byte>)
    requires GoodReply(RepDevlist([d])) && |d.interfaces| == 1 && Conforms(false, rest)
    ensures Conforms(false, EncodeReply(RepDevlist([d])) + rest)
  {
    var b := EncodeReply(RepDevlist([d])) + rest;
    assert d in [d];
    InterfacesJoin(d.interfaces);
    assert EncodeEntries([d]) == EncodeEntry(d) && |EncodeEntry(d)| == 316;
    assert OpHeader(OP_REP_DEVLIST, 0) == [1, 0x11, 0, 5, 0, 0, 0, 0] && Be32(1) == [0, 0, 0, 1];
    assert b[..12] == [1, 0x11, 0, 5, 0, 0, 0, 0, 0, 0, 0, 1] && b[328..] == rest;
  }

  lemma ImportConforms(status: U32, device: seq<Byte>, rest: seq<Byte>)
    requires GoodReply(RepImport(status, device)) && status < 2 && Conforms(status == 0, rest)
    ensures Conforms(false, EncodeReply(RepImport(status, device)) + rest)
  {
    var b := EncodeReply(RepImport(status, device)) + rest;
    assert b[..8] == OpHeader(OP_REP_IMPORT, status) == [1, 0x11, 0, 3, 0, 0, 0, status];
    assert b[8 + |device|..] == rest;
    if |b| >= 12 {
      assert b[..12][3] == b[3] == 3;
    }
  }

  lemma ReplyConforms(imported: bool, r: Reply, rest: seq<Byte>)
    requires InPhase(imported, r) && Usual(r) && Conforms(imported || Imports(r), rest)
    ensures Conforms(imported, EncodeReply(r) + rest)
  {
    match r
    case RepDevlist(ds) =>
      assert ds == [ds[0]];
      DevlistConforms(ds[0], rest);
    case RepImport(status, device) => ImportConforms(status, device, rest);
    case RetSubmit(seqnum, startFrame, data) => SubmitConforms(seqnum, startFrame, data, rest);
    case RetUnlink(seqnum, result) => UnlinkConforms(seqnum, result, rest);
    case RetOther(seqnum) => ErrorConforms(seqnum, rest);
  }

  lemma {:induction false} RepliesConform(imported: bool, rs: seq<Reply>)
    requires Shaped(imported, rs) && forall r | r in rs :: Usual(r)
    ensures Conforms(imported, Output(imported, rs))
    decreases |rs|
  {
    if rs == [] {
    } else {
      assert rs[0] in rs && forall r | r in rs[1..] :: r in rs;
      RepliesConform(imported || Imports(rs[0]), rs[1..]);
      ReplyConforms(imported, rs[0], Output(imported || Imports(rs[0]), rs[1..]));
    }
  }

  lemma UsualEntry(d: Device, e: Entry)
    requires GoodDevice(d) && |d.entry.interfaces| == 1 && Honest(d, e)
    ensures e.Answered? ==> Usual(e.reply)
  {
  }

  lemma {:induction false} RepliesAreUsual(d: Device, log: seq<Entry>)
    requires GoodDevice(d) && |d.entry.interfaces| == 1 && HonestLog(d, log)
    ensures forall r | r in Replies(log) :: Usual(r)
    decreases |log|
  {
    if log == [] {
    } else {
      var before, e := log[..|log| - 1], log[|log| - 1];
      RepliesAreUsual(d, before);
      UsualEntry(d, e);
    }
  }

  /** Over every run, on every connection: what was written is device lists and import replies, and after a granted
      import USB replies, each in its form, with nothing between them and nothing left over. */
  lemma OutputConforms(config: Config, status: Status, es: seq<Event>, c: nat)
    requires c < Run(Init(UpsDevice(config), status), es).nextClient
    ensures var t := Run(Init(UpsDevice(config), status), es); c in t.logs && Conforms(false, Written(t.logs[c]))
  {
    var s := Init(UpsDevice(config), status);
    var t := Run(s, es);
    UpsIsGood(config);
    InitSound(UpsDevice(config), status);
    RunAgrees(s, es);
    assert Agrees(t, c);
    RepliesAreUsual(UpsDevice(config), t.logs[c]);
    WrittenIsOutput(t.logs[c]);
    RepliesConform(false, Replies(t.logs[c]));
  }
}
