/** A USB/IP client's side of the wire: splitting the server's output back into replies. */
module Reader {
  import opened Bytes
  import opened Wire

  datatype Read = Got(reply: Reply, rest: seq<Byte>) | Garbled

  datatype Entries = Entries(devices: seq<DeviceEntry>, rest: seq<Byte>)

  /** `n` interface records of 4 bytes each. */
  function Interfaces(b: seq<Byte>, n: nat): seq<seq<Byte>>
    requires |b| == INTERFACE_SIZE * n
  {
    if n == 0 then [] else [b[..INTERFACE_SIZE]] + Interfaces(b[INTERFACE_SIZE..], n - 1)
  }

  /** `n` device records, each followed by as many interfaces as its last byte says. */
  function ReadEntries(b: seq<Byte>, n: nat): Option<Entries> {
    if n == 0 then Some(Entries([], b))
    else if |b| < DEVICE_SIZE then None
    else
      var end := DEVICE_SIZE + INTERFACE_SIZE * b[DEVICE_SIZE - 1];
      if |b| < end then None else
      match ReadEntries(b[end..], n - 1)
      case None => None
      case Some(es) =>
        var e := DeviceEntry(b[..DEVICE_SIZE], Interfaces(b[DEVICE_SIZE..end], b[DEVICE_SIZE - 1]));
        Some(Entries([e] + es.devices, es.rest))
  }

  /** A reply on a connection that has not imported the device yet. */
  function ReadOperation(b: seq<Byte>): Read {
    if |b| < OP_HEADER_SIZE || At16(b, 0) != USBIP_VERSION then Garbled
    else if At16(b, 2) == OP_REP_DEVLIST then
      if |b| < OP_HEADER_SIZE + 4 || At32(b, 4) != 0 then Garbled else
      match ReadEntries(b[OP_HEADER_SIZE + 4..], At32(b, 8))
      case None => Garbled
      case Some(es) => Got(RepDevlist(es.devices), es.rest)
    else if At16(b, 2) == OP_REP_IMPORT then
      var size := OP_HEADER_SIZE + if At32(b, 4) == 0 then DEVICE_SIZE else 0;
      if |b| < size then Garbled else Got(RepImport(At32(b, 4), b[OP_HEADER_SIZE..size]), b[size..])
    else Garbled
  }

  /** The words of a reply header that the server leaves zero. The devid, direction and endpoint of any reply:
      words 2 to 4. */
  predicate ZeroWords(b: seq<Byte>, from: nat, to: nat)
    requires 4 * to <= |b|
  {
    forall k | from <= k < to :: At32(b, 4 * k) == 0
  }

  /** A reply on an importing connection, all twelve words of its header looked at: one that is not a success
      with nothing else to say is not taken. `isOut` is the client's own record of which requests were
      OUT: for those no data follows the header, whatever `actual_length` says. */
  function ReadUsb(b: seq<Byte>, isOut: U32 -> bool): Read {
    if |b| < USB_HEADER_SIZE || !ZeroWords(b, 2, 5) then Garbled
    else if At32(b, 0) == RET_SUBMIT && ZeroWords(b, 5, 6) && ZeroWords(b, 8, 12) then
      var size := USB_HEADER_SIZE + if isOut(At32(b, 4)) then 0 else At32(b, 24);
      if |b| < size then Garbled
      else Got(RetSubmit(At32(b, 4), At32(b, 28), b[USB_HEADER_SIZE..size]), b[size..])
    else if At32(b, 0) == RET_UNLINK && ZeroWords(b, 6, 12) then
      Got(RetUnlink(At32(b, 4), Signed32(At32(b, 20))), b[USB_HEADER_SIZE..])
    else Garbled
  }

  function ReadOne(imported: bool, b: seq<Byte>, isOut: U32 -> bool): Read {
    if imported then ReadUsb(b, isOut) else ReadOperation(b)
  }

  predicate Imports(r: Reply) {
    r.RepImport? && r.status == 0
  }

  function ReadAll(imported: bool, b: seq<Byte>, isOut: U32 -> bool): Option<seq<Reply>>
    decreases |b|
  {
    if b == [] then Some([]) else
    match ReadOne(imported, b, isOut)
    case Garbled => None
    case Got(r, rest) =>
      if |rest| >= |b| then None else
      match ReadAll(imported || Imports(r), rest, isOut)
      case None => None
      case Some(rs) => Some([r] + rs)
  }

  predicate InPhase(imported: bool, r: Reply) {
    GoodReply(r) && (imported <==> r.RetSubmit? || r.RetUnlink? || r.RetOther?)
  }

  /** Replies in an order a connection can produce: USB replies only after a successful import. */
  predicate Shaped(imported: bool, rs: seq<Reply>)
    decreases |rs|
  {
    rs == [] || (InPhase(imported, rs[0]) && Shaped(imported || Imports(rs[0]), rs[1..]))
  }

  /** A reply the protocol lets the client delimit. */
  predicate Clean(r: Reply, isOut: U32 -> bool) {
    !r.RetOther? && (r.RetSubmit? && isOut(r.seqnum) ==> r.data == [])
  }

  /** The bytes written for replies that came in such an order. */
  function Output(imported: bool, rs: seq<Reply>): seq<Byte>
    requires Shaped(imported, rs)
    decreases |rs|
  {
    if rs == [] then [] else EncodeReply(rs[0]) + Output(imported || Imports(rs[0]), rs[1..])
  }

  lemma {:induction false} InterfacesJoin(fs: seq<seq<Byte>>)
    requires forall f | f in fs :: |f| == INTERFACE_SIZE
    ensures |Join(fs)| == INTERFACE_SIZE * |fs| && Interfaces(Join(fs), |fs|) == fs
  {
    if fs == [] {
    } else {
      InterfacesJoin(fs[1..]);
      var b := Join(fs);
      assert b[..INTERFACE_SIZE] == fs[0] && b[INTERFACE_SIZE..] == Join(fs[1..]);
    }
  }

  lemma {:induction false} ReadEncodedEntries(ds: seq<DeviceEntry>, rest: seq<Byte>)
    requires forall d | d in ds :: GoodEntry(d)
    ensures ReadEntries(EncodeEntries(ds) + rest, |ds|) == Some(Entries(ds, rest))
  {
    var b := EncodeEntries(ds) + rest;
    if ds == [] {
      assert b == rest;
    } else {
      var tail := EncodeEntries(ds[1..]) + rest;
      assert b == EncodeEntry(ds[0]) + tail && [ds[0]] + ds[1..] == ds;
      ReadEncodedEntries(ds[1..], rest);
      EntryAtHead(ds[0], tail);
    }
  }

  lemma EntryAtHead(e: DeviceEntry, tail: seq<Byte>)
    requires GoodEntry(e)
    ensures var b, end := EncodeEntry(e) + tail, DEVICE_SIZE + INTERFACE_SIZE * |e.interfaces|;
      && |b| >= end && b[..DEVICE_SIZE] == e.record && b[DEVICE_SIZE - 1] == |e.interfaces|
      && Interfaces(b[DEVICE_SIZE..end], |e.interfaces|) == e.interfaces
      && b[end..] == tail
  {
    var b, end := EncodeEntry(e) + tail, DEVICE_SIZE + INTERFACE_SIZE * |e.interfaces|;
    InterfacesJoin(e.interfaces);
    assert b[DEVICE_SIZE..end] == Join(e.interfaces);
  }

  lemma ReadEncodedDevlist(ds: seq<DeviceEntry>, rest: seq<Byte>)
    requires GoodReply(RepDevlist(ds))
    ensures ReadOperation(EncodeReply(RepDevlist(ds)) + rest) == Got(RepDevlist(ds), rest)
  {
    var b := EncodeReply(RepDevlist(ds)) + rest;
    assert b[OP_HEADER_SIZE + 4..] == EncodeEntries(ds) + rest;
    assert At16(b, 0) == USBIP_VERSION && At16(b, 2) == OP_REP_DEVLIST && At32(b, 4) == 0;
    assert At32(b, 8) == |ds| by {
      Be32At32(|ds|);
      assert b[8] == Be32(|ds|)[0] && b[9] == Be32(|ds|)[1] && b[10] == Be32(|ds|)[2] && b[11] == Be32(|ds|)[3];
    }
    ReadEncodedEntries(ds, rest);
  }

  lemma ReadEncodedImport(status: U32, device: seq<Byte>, rest: seq<Byte>)
    requires GoodReply(RepImport(status, device))
    ensures ReadOperation(EncodeReply(RepImport(status, device)) + rest) == Got(RepImport(status, device), rest)
  {
    var b := EncodeReply(RepImport(status, device)) + rest;
    var size := OP_HEADER_SIZE + |device|;
    assert b[OP_HEADER_SIZE..size] == device && b[size..] == rest;
    assert At16(b, 0) == USBIP_VERSION && At16(b, 2) == OP_REP_IMPORT;
    assert At32(b, 4) == status by {
      Be32At32(status);
      assert b[4] == Be32(status)[0] && b[5] == Be32(status)[1] && b[6] == Be32(status)[2] && b[7] == Be32(status)[3];
    }
  }

  lemma Word(ws: seq<U32>, tail: seq<Byte>, rest: seq<Byte>, i: nat)
    requires i < |ws|
    ensures At32(Words(ws) + tail + rest, 4 * i) == ws[i]
  {
    Associative(Words(ws), tail, rest);
    WordsAt(ws, tail + rest, i);
  }

  lemma Associative(a: seq<Byte>, b: seq<Byte>, c: seq<Byte>)
    ensures a + b + c == a + (b + c)
  {
  }

  /** The zeros behind the words of a header are words too. */
  lemma ZerosBehind(ws: seq<U32>, n: nat, rest: seq<Byte>, k: nat)
    requires |ws| <= k < |ws| + n
    ensures At32(Words(ws) + Zeros(4 * n) + rest, 4 * k) == 0
  {
    ZeroWord(Words(ws), 4 * n, rest, 4 * k);
  }

  lemma ZeroWord(a: seq<Byte>, n: nat, rest: seq<Byte>, i: nat)
    requires |a| <= i && i + 4 <= |a| + n
    ensures At32(a + Zeros(n) + rest, i) == 0
  {
    var b := a + Zeros(n) + rest;
    assert b[i..i + 4] == Zeros(n)[i - |a|..i - |a| + 4];
    assert forall m | i <= m < i + 4 :: b[m] == b[i..i + 4][m - i] == 0;
  }

  /** The twelve words of a reply header: those it starts with, and zeros. */
  lemma HeaderOf(ws: seq<U32>, rest: seq<Byte>)
    requires |ws| <= 12
    ensures var b := Words(ws) + Zeros(4 * (12 - |ws|)) + rest;
      && b[USB_HEADER_SIZE..] == rest
      && forall k | 0 <= k < 12 :: At32(b, 4 * k) == if k < |ws| then ws[k] else 0
  {
    var n := 12 - |ws|;
    var b := Words(ws) + Zeros(4 * n) + rest;
    forall k | 0 <= k < 12 ensures At32(b, 4 * k) == if k < |ws| then ws[k] else 0 {
      if k < |ws| {
        Word(ws, Zeros(4 * n), rest, k);
      } else {
        ZerosBehind(ws, n, rest, k);
      }
    }
  }

  lemma ReadEncodedSubmit(seqnum: U32, startFrame: U32, data: seq<Byte>, rest: seq<Byte>, isOut: U32 -> bool)
    requires |data| < 0x1_0000_0000
    ensures ReadUsb(EncodeReply(RetSubmit(seqnum, startFrame, data)) + rest, isOut) ==
      if isOut(seqnum) then Got(RetSubmit(seqnum, startFrame, []), data + rest)
      else Got(RetSubmit(seqnum, startFrame, data), rest)
  {
    var ws := [RET_SUBMIT, seqnum, 0, 0, 0, 0, |data|, startFrame, 0, 0];
    var b := EncodeReply(RetSubmit(seqnum, startFrame, data)) + rest;
    assert b == Words(ws) + Zeros(4 * (12 - |ws|)) + (data + rest);
    HeaderOf(ws, data + rest);
    SubmitRead(b, ws, data, rest, isOut);
  }

  lemma SubmitRead(b: seq<Byte>, ws: seq<U32>, data: seq<Byte>, rest: seq<Byte>, isOut: U32 -> bool)
    requires |b| >= USB_HEADER_SIZE && b[USB_HEADER_SIZE..] == data + rest && |ws| == 10
    requires ws[0] == RET_SUBMIT && ws[6] == |data| && forall k | k in [2, 3, 4, 5, 8, 9] :: ws[k] == 0
    requires forall k | 0 <= k < 12 :: At32(b, 4 * k) == if k < |ws| then ws[k] else 0
    ensures ReadUsb(b, isOut) ==
      if isOut(ws[1]) then Got(RetSubmit(ws[1], ws[7], []), data + rest) else Got(RetSubmit(ws[1], ws[7], data), rest)
  {
    assert At32(b, 4 * 0) == ws[0] && At32(b, 4 * 1) == ws[1] && At32(b, 4 * 6) == ws[6] && At32(b, 4 * 7) == ws[7];
    assert b[48..48 + |data|] == data && b[48 + |data|..] == rest && b[48..48] == [];
    assert ws[2] == ws[3] == ws[4] == ws[5] == ws[8] == ws[9] == 0;
  }

  lemma ReadEncodedShort(r: Reply, rest: seq<Byte>, isOut: U32 -> bool)
    requires GoodReply(r) && (r.RetUnlink? || r.RetOther?)
    ensures ReadUsb(EncodeReply(r) + rest, isOut) == if r.RetUnlink? then Got(r, rest) else Garbled
  {
    var b := EncodeReply(r) + rest;
    var ws := if r.RetUnlink? then [RET_UNLINK, r.seqnum, 0, 0, 0, Unsigned32(r.result)] else [0, r.seqnum, 0, 0, 0, 1];
    assert b == Words(ws) + Zeros(4 * (12 - |ws|)) + rest;
    HeaderOf(ws, rest);
    ShortRead(b, ws, isOut);
  }

  lemma ShortRead(b: seq<Byte>, ws: seq<U32>, isOut: U32 -> bool)
    requires |b| >= USB_HEADER_SIZE && |ws| == 6 && ws[2] == ws[3] == ws[4] == 0 && ws[0] != RET_SUBMIT
    requires forall k | 0 <= k < 12 :: At32(b, 4 * k) == if k < |ws| then ws[k] else 0
    ensures ReadUsb(b, isOut) ==
      if ws[0] == RET_UNLINK then Got(RetUnlink(ws[1], Signed32(ws[5])), b[USB_HEADER_SIZE..]) else Garbled
  {
    assert At32(b, 4 * 0) == ws[0] && At32(b, 4 * 1) == ws[1] && At32(b, 4 * 5) == ws[5];
  }

  /** One reply at the head of the output: a clean one is read back whole; anything else is not. */
  lemma ReadEncodedReply(imported: bool, r: Reply, rest: seq<Byte>, isOut: U32 -> bool)
    requires InPhase(imported, r)
    ensures var x := ReadOne(imported, EncodeReply(r) + rest, isOut);
      if Clean(r, isOut) then x == Got(r, rest) else x.Garbled? || x.reply != r
  {
    match r
    case RepDevlist(ds) => ReadEncodedDevlist(ds, rest);
    case RepImport(status, device) => ReadEncodedImport(status, device, rest);
    case RetSubmit(seqnum, startFrame, data) =>
      ReadEncodedSubmit(seqnum, startFrame, data, rest, isOut);
      assert data == [] ==> data + rest == rest;
    case RetUnlink(_, _) => ReadEncodedShort(r, rest, isOut);
    case RetOther(_) => ReadEncodedShort(r, rest, isOut);
  }

  /** The output stream is uniquely decodable exactly when every reply in it is clean: then the client
      recovers the replies in order, and otherwise it does not. */
  lemma {:induction false} OutputDecodes(imported: bool, rs: seq<Reply>, isOut: U32 -> bool)
    requires Shaped(imported, rs)
    ensures ReadAll(imported, Output(imported, rs), isOut) == Some(rs) <==>
      forall r | r in rs :: Clean(r, isOut)
    decreases |rs|
  {
    if rs == [] {
    } else {
      var tail := Output(imported || Imports(rs[0]), rs[1..]);
      ReadEncodedReply(imported, rs[0], tail, isOut);
      OutputDecodes(imported || Imports(rs[0]), rs[1..], isOut);
      CleanSplit(rs, isOut);
      assert |EncodeReply(rs[0])| > 0;
      var x := ReadOne(imported, EncodeReply(rs[0]) + tail, isOut);
      if Clean(rs[0], isOut) {
        ConsEqual(rs, ReadAll(imported || Imports(rs[0]), tail, isOut));
      }
    }
  }

  lemma CleanSplit(rs: seq<Reply>, isOut: U32 -> bool)
    requires rs != []
    ensures (forall r | r in rs :: Clean(r, isOut)) <==>
      Clean(rs[0], isOut) && forall r | r in rs[1..] :: Clean(r, isOut)
  {
  }

  lemma ConsEqual(rs: seq<Reply>, tail: Option<seq<Reply>>)
    requires rs != []
    ensures tail.Some? ==> ([rs[0]] + tail.value == rs <==> tail.value == rs[1..])
  {
  }
}
