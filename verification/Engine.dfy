/** The USB/IP connection engine: every libuv callback of the server as one step on its whole state. */
module Engine {
  import opened Bytes
  import opened Wire
  import opened Parser
  import opened UpsStatus
  import opened Control

  /** Milliseconds between an interrupt request and its NAK. */
  const NAK_DELAY := 500

  /** What happened on one connection, in order. */
  datatype Entry =
    | Answered(cmd: Command, reply: Reply)
    | Parked(cmd: Command, timer: nat, at: nat)
    | Refused(cmd: Command)
    | Nak(seqnum: U32, at: nat)
    | Swallowed(seqnum: U32, at: nat)
    | HungUp
    | Dropped(seqnums: set<U32>)

  /** The bytes an entry puts on the wire: a reply, or the empty RET_SUBMIT that is a NAK. */
  function EntryBytes(e: Entry): seq<Byte> {
    match e
    case Answered(_, reply) => if GoodReply(reply) then EncodeReply(reply) else []
    case Nak(seqnum, _) => EncodeReply(RetSubmit(seqnum, 0, []))
    case _ => []
  }

  /** Everything written on a connection. */
  function Written(log: seq<Entry>): seq<Byte> {
    if log == [] then [] else Written(log[..|log| - 1]) + EntryBytes(log[|log| - 1])
  }

  /** `ClientContext`: `pending` is `interrupt_timers`, and `closing` says that `uv_close` was called. */
  datatype Client = Client(parser: Parser, pending: map<U32, nat>, closing: bool)

  /** A started `uv_timer_t` together with its `TimerData`. */
  datatype Timer = Timer(client: nat, seqnum: U32, deadline: nat)

  /** Heap blocks that the callbacks release. */
  datatype Block = Context(client: nat) | TimerData(timer: nat) | TimerHandle(timer: nat)

  /** The exported device: its record and how it answers control requests. */
  datatype Device = Device(entry: DeviceEntry, control: (Status, Setup) -> seq<Byte>)

  /** Connections are numbered in the order they arrive and timers by libuv's start number. `armed` is
      libuv's timer heap and `retired` its closing timer handles. `reusers` are the connections that
      submitted a sequence number while it was pending, and `fault` notes that a callback touched a
      released block or closed a handle twice; what the program does after that is undefined. */
  datatype State = State(
    device: Device, status: Status,
    clients: map<nat, Client>, listed: set<nat>,
    armed: map<nat, Timer>, retired: set<nat>, freed: multiset<Block>,
    logs: map<nat, seq<Entry>>,
    nextClient: nat, nextTimer: nat, now: nat, running: bool, reusers: set<nat>, fault: bool)

  datatype Event =
    | Connect(accepted: bool)
    | Recv(client: nat, chunk: seq<Byte>)
    | Eof(client: nat)
    | CloseCallback(client: nat)
    | Fire(timer: nat)
    | FreeTimer(timer: nat)
    | Tick(elapsed: nat)
    | Poll(newStatus: Status)
    | Stop

  function Init(device: Device, status: Status): State {
    State(device, status, map[], {}, map[], {}, multiset{}, map[], 0, 0, 0, true, {}, false)
  }

  predicate Open(s: State, c: nat) {
    c in s.clients && !s.clients[c].closing
  }

  /** libuv runs timers whose time has come, by deadline and then by start number. */
  predicate Due(s: State, i: nat) {
    && i in s.armed && s.armed[i].deadline <= s.now
    && forall j | j in s.armed ::
         s.armed[i].deadline < s.armed[j].deadline || (s.armed[i].deadline == s.armed[j].deadline && i <= j)
  }

  /** When libuv makes the callback: no reads once a close was requested, one close callback, and so on. */
  predicate Enabled(s: State, e: Event) {
    match e
    case Connect(_) => s.running
    case Recv(c, chunk) => Open(s, c) && chunk != []
    case Eof(c) => Open(s, c)
    case CloseCallback(c) => c in s.clients && s.clients[c].closing
    case Fire(i) => Due(s, i)
    case FreeTimer(i) => i in s.retired
    case Tick(_) => true
    case Poll(_) => true
    case Stop => s.running
  }

  function Log(s: State, c: nat, e: Entry): State {
    s.(logs := s.logs[c := (if c in s.logs then s.logs[c] else []) + [e]])
  }

  function WithClient(s: State, c: nat, x: Client): State {
    s.(clients := s.clients[c := x])
  }

  /** A client is taken off the list and its handle starts to close. */
  function Unlisted(s: State, c: nat): State
    requires c in s.clients
  {
    var x := s.clients[c];
    WithClient(s, c, x.(closing := true)).(listed := s.listed - {c}, fault := s.fault || x.closing)
  }

  /** `remove_client` */
  function HangUp(s: State, c: nat): State
    requires c in s.clients
  {
    Log(Unlisted(s, c), c, HungUp)
  }

  /** A connection that submits a number while it is pending is remembered. */
  function Reused(s: State, c: nat, seqnum: U32): State
    requires c in s.clients
  {
    s.(reusers := if seqnum in s.clients[c].pending then s.reusers + {c} else s.reusers)
  }

  /** Note the next timer under a sequence number, whatever was noted there before. */
  function Noted(s: State, c: nat, seqnum: U32): State
    requires c in s.clients
  {
    var x := s.clients[c];
    WithClient(s, c, x.(pending := x.pending[seqnum := s.nextTimer]))
  }

  /** The next timer starts. */
  function Armed(s: State, c: nat, seqnum: U32): State {
    s.(armed := s.armed[s.nextTimer := Timer(c, seqnum, s.now + NAK_DELAY)], nextTimer := s.nextTimer + 1)
  }

  function StartTimer(s: State, c: nat, seqnum: U32): State
    requires c in s.clients
  {
    Armed(Noted(Reused(s, c, seqnum), c, seqnum), c, seqnum)
  }

  /** The interrupt branch of `handle_usb_command`. */
  function Park(s: State, c: nat, cmd: Command): State
    requires c in s.clients && cmd.Submit?
  {
    Log(StartTimer(s, c, cmd.header.seqnum), c, Parked(cmd, s.nextTimer, s.now))
  }

  /** A timer stops, its data is deleted and its handle starts to close. */
  function CloseTimer(s: State, i: nat): State {
    s.(armed := s.armed - {i}, retired := s.retired + {i}, freed := s.freed + multiset{TimerData(i)})
  }

  /** A sequence number leaves the map. */
  function Forget(s: State, c: nat, seqnum: U32): State
    requires c in s.clients
  {
    var x := s.clients[c];
    WithClient(s, c, x.(pending := x.pending - {seqnum}))
  }

  /** `cancel_interrupt_timer` */
  function Cancel(s: State, c: nat, seqnum: U32): State
    requires c in s.clients
  {
    var pending := s.clients[c].pending;
    if seqnum !in pending then s else
    Forget(CloseTimer(s, pending[seqnum]), c, seqnum).(fault := s.fault || pending[seqnum] !in s.armed)
  }

  predicate InterruptEndpoint(ep: U32) {
    ep == 1 || ep == 0x81
  }

  /** The data that goes back with a submit on any other endpoint. */
  function SubmitData(s: State, h: SubmitHeader): seq<Byte> {
    if h.ep == 0 && |h.setup| == 8 then s.device.control(s.status, SetupOf(h.setup)) else []
  }

  function UnlinkStatus(x: Client, target: U32): int {
    if target in x.pending then -ECONNRESET else 0
  }

  /** What handling a complete frame does, its consumption aside. */
  function Handle(s: State, c: nat, cmd: Command): (t: State)
    requires c in s.clients
    ensures c in t.clients && t.clients[c].parser == s.clients[c].parser
  {
    match cmd
    case Devlist => Log(s, c, Answered(cmd, RepDevlist([s.device.entry])))
    case Import(busid) =>
      if KnownBusid(busid) then Log(s, c, Answered(cmd, RepImport(0, s.device.entry.record)))
      else HangUp(Log(s, c, Answered(cmd, RepImport(1, []))), c)
    case Rejected => HangUp(Log(s, c, Refused(cmd)), c)
    case Submit(h, _) =>
      if InterruptEndpoint(h.ep) then Park(s, c, cmd)
      else Log(s, c, Answered(cmd, RetSubmit(h.seqnum, h.startFrame, SubmitData(s, h))))
    case Unlink(seqnum, target) =>
      Log(Cancel(s, c, target), c, Answered(cmd, RetUnlink(seqnum, UnlinkStatus(s.clients[c], target))))
    case OtherUsb(_, seqnum) => Log(s, c, Answered(cmd, RetOther(seqnum)))
  }

  /** One turn of the read loop: handle the frame at the head of the buffer and take it off. */
  function Turn(s: State, c: nat, f: Cut): (t: State)
    requires c in s.clients && f.Frame? && f.size <= |s.clients[c].parser.buf|
    ensures c in t.clients && t.clients[c].parser == Accept(s.clients[c].parser, f)
  {
    var t := Handle(s, c, f.cmd);
    var x := t.clients[c];
    WithClient(t, c, x.(parser := Accept(s.clients[c].parser, f)))
  }

  /** The read loop of `on_client_read`. */
  function Serve(s: State, c: nat): State
    requires c in s.clients
    decreases |s.clients[c].parser.buf|
  {
    var p := s.clients[c].parser;
    if p.buf == [] then s else
    match CutFrame(p.phase, p.buf)
    case NeedMore => s
    case Frame(cmd, size) => Serve(Turn(s, c, Frame(cmd, size)), c)
  }

  function Buffered(s: State, c: nat, chunk: seq<Byte>): State
    requires c in s.clients
  {
    var x := s.clients[c];
    WithClient(s, c, x.(parser := x.parser.(buf := x.parser.buf + chunk)))
  }

  function TimerBlocks(ids: set<nat>): set<Block> {
    set i | i in ids :: TimerData(i)
  }

  /** Several timers stop. */
  function CloseTimers(s: State, ids: set<nat>): State {
    s.(armed := s.armed - ids, retired := s.retired + ids, freed := s.freed + multiset(TimerBlocks(ids)))
  }

  /** `cancel_all_interrupt_timers` */
  function CancelAll(s: State, c: nat): State
    requires c in s.clients
  {
    var x := s.clients[c];
    WithClient(CloseTimers(s, x.pending.Values), c, x.(pending := map[]))
  }

  /** `delete ctx` */
  function Deleted(s: State, c: nat): State {
    s.(clients := s.clients - {c}, freed := s.freed + multiset{Context(c)})
  }

  /** A client and the timers its map names are gone. */
  function Release(s: State, c: nat): State
    requires c in s.clients
  {
    Deleted(CancelAll(s, c), c)
  }

  /** `on_client_close`: cancel what is pending and release the context. */
  function Close(s: State, c: nat): State
    requires c in s.clients
  {
    var pending := s.clients[c].pending;
    var fault := s.fault || exists i | i in pending.Values :: i !in s.armed;
    Log(Release(s, c).(fault := fault), c, Dropped(pending.Keys))
  }

  /** `on_interrupt_timer`. On a closing handle the write is refused. */
  function Expire(s: State, i: nat): State
    requires i in s.armed
  {
    var Timer(c, seqnum, _) := s.armed[i];
    if c !in s.clients then CloseTimer(s, i).(fault := true) else
    Log(Forget(CloseTimer(s, i), c, seqnum), c,
        if s.clients[c].closing then Swallowed(seqnum, s.now) else Nak(seqnum, s.now))
  }

  function FirstEntries(accepted: bool): seq<Entry> {
    if accepted then [] else [HungUp]
  }

  /** A new context, and its place in the client list if the connection was accepted. */
  function Listed(s: State, accepted: bool): State {
    var c := s.nextClient;
    s.(clients := s.clients[c := Client(Start, map[], !accepted)],
       listed := if accepted then s.listed + {c} else s.listed)
  }

  /** `on_connection`; a connection that cannot be accepted is closed at once and never listed. */
  function Arrive(s: State, accepted: bool): State {
    Listed(s, accepted).(logs := s.logs[s.nextClient := FirstEntries(accepted)], nextClient := s.nextClient + 1)
  }

  /** `stop` once the clients `done` have been removed. */
  function StopSome(s: State, done: set<nat>): State {
    s.(running := false, listed := s.listed - done,
       clients := map c | c in s.clients :: if c in done then s.clients[c].(closing := true) else s.clients[c],
       logs := map c | c in s.logs :: if c in done then s.logs[c] + [HungUp] else s.logs[c])
  }

  /** `stop`: every listed client is removed. */
  function StopAll(s: State): State {
    StopSome(s, s.listed).(fault := s.fault || exists c | c in s.listed :: c !in s.clients || s.clients[c].closing)
  }

  function Step(s: State, e: Event): State {
    if !Enabled(s, e) then s else
    match e
    case Connect(accepted) => Arrive(s, accepted)
    case Recv(c, chunk) => Serve(Buffered(s, c, chunk), c)
    case Eof(c) => HangUp(s, c)
    case CloseCallback(c) => Close(s, c)
    case Fire(i) => Expire(s, i)
    case FreeTimer(i) => s.(retired := s.retired - {i}, freed := s.freed + multiset{TimerHandle(i)})
    case Tick(elapsed) => s.(now := s.now + elapsed)
    case Poll(newStatus) => s.(status := newStatus)
    case Stop => StopAll(s)
  }

  function Run(s: State, es: seq<Event>): State
    decreases |es|
  {
    if es == [] then s else Run(Step(s, es[0]), es[1..])
  }
}
