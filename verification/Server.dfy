/** The server's objects and callbacks, working in place on the heap. */
module Server {
  import opened Bytes
  import opened Wire
  import opened Parser
  import opened UpsStatus
  import opened Control
  import opened Engine
  import opened EngineMemory
  import opened EngineOwnership
  import opened EngineRoom
  import opened EngineStream
  import opened Exported

  /** `ClientContext`. `id` stands for its address. */
  class ClientContext {
    const id: nat
    var phase: Phase
    var recvBuffer: seq<Byte>
    var interruptTimers: map<U32, nat>
    var closing: bool
    var freed: bool
    /** Every byte `uv_write` took, in order. */
    var written: seq<Byte>
    ghost var hungUp: bool
    ghost var accepted: seq<Command>

    constructor (id: nat, closing: bool)
      ensures this.id == id && !freed && written == [] && View() == Client(Start, map[], closing)
    {
      this.id, phase, recvBuffer, interruptTimers := id, WaitingCommand, [], map[];
      this.closing, freed, written, hungUp, accepted := closing, false, [], false, [];
    }

    ghost function View(): Client
      reads this
    {
      Client(Parser(phase, recvBuffer, hungUp, accepted), interruptTimers, closing)
    }

    /** A command is accepted: the state its handler sets, and what was accepted. */
    method Take(cmd: Command)
      modifies `phase, `hungUp, `accepted
      ensures var p := old(View()).parser;
        View() == old(View()).(parser := Parser(Next(p.phase, cmd), p.buf, HangsUp(cmd), p.cmds + [cmd]))
    {
      if cmd.Import? && KnownBusid(cmd.busid) {
        phase := Imported;
      }
      hungUp, accepted := HangsUp(cmd), accepted + [cmd];
    }
  }

  /** The record of `global_intf`. */
  const INTERFACE: seq<Byte> := [3, 0, 0, 0]

  ghost predicate MadeOf(d: Device, devinfo: seq<Byte>, descriptors: Descriptors) {
    && d.entry == DeviceEntry(devinfo, [INTERFACE]) && GoodEntry(d.entry)
    && forall st, su :: d.control(st, su) == ControlReply(descriptors, st, su)
  }

  lemma UpsIsMadeOf(config: Config)
    ensures MadeOf(UpsDevice(config), Record(config), InitDescriptors(config))
  {
    UpsIsGood(config);
  }

  class USBIPServer {
    /** The device the server exports: `global_devinfo` and the descriptors of its `ups_device`. */
    const devinfo: seq<Byte>
    const descriptors: Descriptors
    ghost const device: Device
    var status: Status
    var running: bool
    /** `clients`: the connections that were accepted and not removed. */
    var clients: map<nat, ClientContext>

    /** The loop's own records: its clock, the client handles, the started and the closing timers. */
    var now: nat
    var contexts: map<nat, ClientContext>
    var armed: map<nat, Timer>
    var retired: set<nat>
    var nextClient: nat
    var nextTimer: nat

    /** What happened on each connection, what was released, and who reused a pending number. */
    ghost var logs: map<nat, seq<Entry>>
    ghost var released: multiset<Block>
    ghost var reusers: set<nat>

    /** Every handle the loop knows is live and is where its number says, and what was written on it is
        what its log says. */
    ghost predicate Linked()
      reads this`contexts, this`clients, this`logs, contexts.Values`freed, contexts.Values`written
    {
      && (forall c | c in contexts :: contexts[c].id == c && !contexts[c].freed)
      && (forall c | c in contexts :: c in logs)
      && (forall c {:trigger Seen(c)} | Seen(c) && c in contexts :: contexts[c].written == Written(logs[c]))
      && forall c | c in clients :: c in contexts && clients[c] == contexts[c]
    }

    ghost function ClientsView(): map<nat, Client>
      reads this`contexts, contexts.Values
    {
      map c | c in contexts :: contexts[c].View()
    }

    /** The state of the engine. No callback that ran has made a fault. */
    ghost function View(): State
      reads this, contexts.Values
    {
      State(device, status, ClientsView(), clients.Keys, armed, retired, released, logs,
            nextClient, nextTimer, now, running, reusers, false)
    }

    /** What the server exports is the engine's device. */
    ghost predicate Exports() {
      forall x {:trigger Seen(x)} | Seen(x) :: MadeOf(device, devinfo, descriptors)
    }

    /** The reply to a command fits the buffer it is built in. */
    ghost predicate Room(cmd: Command)
      reads this`status
    {
      forall x {:trigger Seen(x)} | Seen(x) :: HasRoom(device, status, cmd)
    }

    /** So does the reply to the frame at the head of the buffer. */
    ghost predicate HeadRoom(ctx: ClientContext)
      reads this`status, ctx`phase, ctx`recvBuffer
    {
      forall size, cmd | ctx.recvBuffer != [] && CutFrame(ctx.phase, ctx.recvBuffer) == Frame(cmd, size) :: Room(cmd)
    }

    lemma ExportedRecord()
      requires Exports()
      ensures |devinfo| == DEVICE_SIZE && device.entry == DeviceEntry(devinfo, [INTERFACE]) && GoodEntry(device.entry)
    {
      assert Seen(0);
    }

    lemma ExportedControl(setup: Setup)
      requires Exports()
      ensures device.control(status, setup) == ControlReply(descriptors, status, setup)
    {
      assert Seen(0);
    }

    lemma RoomForControl(cmd: Command)
      requires Room(cmd) && Exports() && cmd.Submit? && cmd.header.ep == 0 && |cmd.header.setup| == 8
      ensures |ControlReply(descriptors, status, SetupOf(cmd.header.setup))| <= REPLY_ROOM
    {
      assert Seen(0);
    }

    /** The object links. With them, `View` is the state of the engine. */
    ghost predicate Valid()
      reads this`contexts, this`clients, this`logs, contexts.Values`freed, contexts.Values`written
    {
      Linked() && Exports()
    }

    /** Every timer the client's map names is running. */
    ghost predicate Running(ctx: ClientContext)
      reads this`armed, ctx`interruptTimers
    {
      forall q | q in ctx.interruptTimers :: ctx.interruptTimers[q] in armed
    }

    ghost predicate Holds(ctx: ClientContext)
      reads this`contexts, this`clients, this`logs, contexts.Values`freed, contexts.Values`written
    {
      Linked() && ctx.id in contexts && contexts[ctx.id] == ctx
    }

    twostate lemma OneChanged(ctx: ClientContext)
      requires old(Holds(ctx)) && contexts == old(contexts)
      requires forall c | c in contexts && c != ctx.id :: unchanged(contexts[c])
      ensures ClientsView() == old(ClientsView())[ctx.id := ctx.View()]
    {
    }

    twostate lemma OneRemoved(ctx: ClientContext)
      requires old(Holds(ctx)) && contexts == old(contexts) - {ctx.id} && ctx.id !in clients
      requires clients == old(clients) && logs == old(logs) && forall c | c in contexts :: unchanged(contexts[c])
      ensures Linked() && ClientsView() == old(ClientsView()) - {ctx.id}
    {
    }

    twostate lemma OneAdded(new ctx: ClientContext, log: seq<Entry>)
      requires old(Linked()) && ctx.id !in old(contexts) && contexts == old(contexts)[ctx.id := ctx] && !ctx.freed
      requires logs == old(logs)[ctx.id := log] && ctx.written == Written(log)
      requires clients == old(clients) && forall c | c in old(contexts) :: unchanged(old(contexts)[c])
      ensures Linked() && ClientsView() == old(ClientsView())[ctx.id := ctx.View()]
    {
    }

    /** The pieces of a reply in one block. */
    static method Gather(buffers: seq<seq<Byte>>) returns (data: array<Byte>)
      ensures fresh(data) && data[..] == Join(buffers)
    {
      var total := 0;
      for i := 0 to |buffers|
        invariant total == |Join(buffers[..i])|
      {
        JoinMore(buffers, i);
        total := total + |buffers[i]|;
      }
      assert buffers[..|buffers|] == buffers;
      JoinPrefix(buffers, 0);
      data := new Byte[total];
      var offset := 0;
      for i := 0 to |buffers|
        invariant offset == |Join(buffers[..i])| <= data.Length == |Join(buffers)|
        invariant data[..offset] == Join(buffers[..i])
      {
        JoinMore(buffers, i);
        JoinPrefix(buffers, i + 1);
        ghost var before := data[..offset];
        forall j | 0 <= j < |buffers[i]| {
          data[offset + j] := buffers[i][j];
        }
        offset := offset + |buffers[i]|;
        assert data[..offset] == before + buffers[i];
      }
    }

    static lemma {:induction false} JoinMore(parts: seq<seq<Byte>>, i: nat)
      requires i < |parts|
      ensures Join(parts[..i + 1]) == Join(parts[..i]) + parts[i]
    {
      if i == 0 {
      } else {
        assert parts[..i + 1][1..] == parts[1..][..i] && parts[..i][1..] == parts[1..][..i - 1];
        JoinMore(parts[1..], i - 1);
      }
    }

    static lemma {:induction false} JoinPrefix(parts: seq<seq<Byte>>, i: nat)
      requires i <= |parts|
      ensures |Join(parts[..i])| <= |Join(parts)|
      decreases |parts| - i
    {
      if i == |parts| {
        assert parts[..i] == parts;
      } else {
        JoinMore(parts, i);
        JoinPrefix(parts, i + 1);
      }
    }

    /** `send_response`. `uv_write` refuses a handle that is closing. */
    method SendResponse(ctx: ClientContext, buffers: seq<seq<Byte>>)
      modifies ctx`written
      ensures ctx.written == old(ctx.written) + if ctx.closing then [] else Join(buffers)
    {
      if |buffers| == 0 {
        return;
      }
      var data := Gather(buffers);
      if !ctx.closing {
        ctx.written := ctx.written + data[..];
      }
    }

    /** The pieces of a reply are the bytes its log entry stands for. */
    static ghost predicate Carries(buffers: seq<seq<Byte>>, e: Entry) {
      forall c {:trigger Seen(c)} | Seen(c) :: Join(buffers) == EntryBytes(e)
    }

    static lemma WrittenNext(log: seq<Entry>, e: Entry)
      ensures Written(log + [e]) == Written(log) + EntryBytes(e)
    {
    }

    /** Something happens on a connection that writes nothing. */
    ghost method Note(c: nat, e: Entry)
      requires Linked() && EntryBytes(e) == []
      modifies this`logs
      ensures Linked() && View() == Log(old(View()), c, e)
    {
      WrittenNext(if c in logs then logs[c] else [], e);
      logs := logs[c := (if c in logs then logs[c] else []) + [e]];
    }

    /** Bytes for a connection, while its log is about to say so. */
    method Transmit(ctx: ClientContext, ghost e: Entry, buffers: seq<seq<Byte>>)
      requires Holds(ctx) && if ctx.closing then EntryBytes(e) == [] else Carries(buffers, e)
      modifies ctx`written
      ensures ClientsView() == old(ClientsView()) && ctx.written == old(ctx.written) + EntryBytes(e)
    {
      assert Seen(ctx.id);
      SendResponse(ctx, buffers);
      OneChanged(ctx);
      assert ctx.View() == old(ctx.View());
      assert old(ClientsView())[ctx.id] == ctx.View();
    }

    /** `send_response`, with what the reply answers. */
    method Respond(ctx: ClientContext, ghost e: Entry, buffers: seq<seq<Byte>>)
      requires Holds(ctx) && if ctx.closing then EntryBytes(e) == [] else Carries(buffers, e)
      modifies this`logs, ctx`written
      ensures Holds(ctx) && View() == Log(old(View()), ctx.id, e)
    {
      Transmit(ctx, e, buffers);
      logs := logs[ctx.id := logs[ctx.id] + [e]];
    }

    /** `remove_client` */
    method RemoveClient(ctx: ClientContext)
      requires Holds(ctx) && !ctx.closing
      modifies this`clients, this`logs, ctx`closing
      ensures Holds(ctx) && View() == HangUp(old(View()), ctx.id)
    {
      Unlist(ctx);
      Note(ctx.id, HungUp);
    }

    method Unlist(ctx: ClientContext)
      requires Holds(ctx) && !ctx.closing
      modifies this`clients, ctx`closing
      ensures Holds(ctx) && View() == Unlisted(old(View()), ctx.id)
    {
      assert ClientsView()[ctx.id] == ctx.View();
      clients := clients - {ctx.id};
      ctx.closing := true;
      OneChanged(ctx);
    }

    /** Stop a started timer, delete its data and close its handle. */
    method StopTimer(timer: nat)
      requires Linked() && timer in armed
      modifies this`armed, this`retired, this`released
      ensures Linked() && View() == CloseTimer(old(View()), timer)
    {
      armed := armed - {timer};
      released := released + multiset{Block.TimerData(timer)};
      retired := retired + {timer};
    }

    /** Take a sequence number out of the map. */
    method ForgetTimer(ctx: ClientContext, seqnum: U32)
      requires Holds(ctx)
      modifies ctx`interruptTimers
      ensures Holds(ctx) && View() == Forget(old(View()), ctx.id, seqnum)
    {
      ctx.interruptTimers := ctx.interruptTimers - {seqnum};
      OneChanged(ctx);
    }

    /** Stop a timer and forget it. */
    method EndTimer(ctx: ClientContext, timer: nat, seqnum: U32)
      requires Holds(ctx) && timer in armed
      modifies this`armed, this`retired, this`released, ctx`interruptTimers
      ensures Holds(ctx) && View() == Forget(CloseTimer(old(View()), timer), ctx.id, seqnum)
    {
      StopTimer(timer);
      ForgetTimer(ctx, seqnum);
    }

    /** `cancel_interrupt_timer` */
    method CancelInterruptTimer(ctx: ClientContext, seqnum: U32)
      requires Holds(ctx)
      requires seqnum in ctx.interruptTimers ==> ctx.interruptTimers[seqnum] in armed
      modifies this`armed, this`retired, this`released, ctx`interruptTimers
      ensures Holds(ctx) && View() == Cancel(old(View()), ctx.id, seqnum)
    {
      if seqnum in ctx.interruptTimers {
        EndTimer(ctx, ctx.interruptTimers[seqnum], seqnum);
      }
    }

    /** Start the timer of an interrupt request, and store it under its sequence number. */
    method StartInterruptTimer(ctx: ClientContext, seqnum: U32)
      requires Holds(ctx)
      modifies this`armed, this`nextTimer, this`reusers, ctx`interruptTimers
      ensures Holds(ctx) && View() == StartTimer(old(View()), ctx.id, seqnum)
    {
      StoreTimer(ctx, seqnum);
      ArmTimer(ctx.id, seqnum);
    }

    /** `uv_timer_start` */
    method ArmTimer(c: nat, seqnum: U32)
      requires Linked()
      modifies this`armed, this`nextTimer
      ensures Linked() && View() == Armed(old(View()), c, seqnum)
    {
      EnterTimer(nextTimer, Timer(c, seqnum, now + NAK_DELAY));
      CountTimer();
    }

    method EnterTimer(i: nat, timer: Timer)
      requires Linked()
      modifies this`armed
      ensures Linked() && View() == old(View()).(armed := old(armed)[i := timer])
    {
      armed := armed[i := timer];
    }

    method CountTimer()
      requires Linked()
      modifies this`nextTimer
      ensures Linked() && View() == old(View()).(nextTimer := old(nextTimer) + 1)
    {
      nextTimer := nextTimer + 1;
    }

    /** Store the timer under its sequence number, whatever was stored there. */
    method NoteTimer(ctx: ClientContext, seqnum: U32)
      requires Holds(ctx)
      modifies ctx`interruptTimers
      ensures Holds(ctx) && View() == Noted(old(View()), ctx.id, seqnum)
    {
      ctx.interruptTimers := ctx.interruptTimers[seqnum := nextTimer];
      OneChanged(ctx);
    }

    ghost method NoteReuse(ctx: ClientContext, seqnum: U32)
      requires Holds(ctx)
      modifies this`reusers
      ensures Holds(ctx) && View() == Reused(old(View()), ctx.id, seqnum)
    {
      assert ClientsView()[ctx.id] == ctx.View();
      reusers := if seqnum in ctx.interruptTimers then reusers + {ctx.id} else reusers;
    }

    method StoreTimer(ctx: ClientContext, seqnum: U32)
      requires Holds(ctx)
      modifies this`reusers, ctx`interruptTimers
      ensures Holds(ctx) && View() == Noted(Reused(old(View()), ctx.id, seqnum), ctx.id, seqnum)
    {
      NoteReuse(ctx, seqnum);
      NoteTimer(ctx, seqnum);
    }

    /** The interrupt branch of `handle_usb_command`. */
    method ParkRequest(ctx: ClientContext, cmd: Command)
      requires Holds(ctx) && cmd.Submit?
      modifies this`armed, this`nextTimer, this`reusers, this`logs, ctx`interruptTimers
      ensures Holds(ctx) && View() == Park(old(View()), ctx.id, cmd)
    {
      var timer := nextTimer;
      StartInterruptTimer(ctx, cmd.header.seqnum);
      Note(ctx.id, Parked(cmd, timer, now));
    }

    /** The reply to a submit on an endpoint other than the interrupt one. */
    method SubmitReply(h: SubmitHeader, ghost payload: seq<Byte>) returns (data: seq<Byte>)
      requires |h.setup| == 8 && Exports() && Room(Submit(h, payload))
      ensures data == SubmitData(View(), h) && |data| < 0x1_0000
    {
      if h.ep != 0 {
        return [];
      }
      var setup := SetupOf(h.setup);
      var buffer := new Byte[REPLY_ROOM];
      ExportedControl(setup);
      RoomForControl(Submit(h, payload));
      RepliesAreTruncatedViews(descriptors, status, setup, setup.length);
      var length := HandleControlRequest(descriptors, status, setup, buffer);
      if length > setup.length {
        length := setup.length;
      }
      data := buffer[..length];
      assert data == ControlReply(descriptors, status, setup);
    }

    /** Cancel a pending request; the status tells whether there was one. */
    method CancelTarget(ctx: ClientContext, target: U32) returns (result: int)
      requires Holds(ctx) && Running(ctx)
      modifies this`armed, this`retired, this`released, ctx`interruptTimers
      ensures Holds(ctx) && View() == Cancel(old(View()), ctx.id, target)
      ensures result == UnlinkStatus(old(ctx.View()), target)
    {
      result := 0;
      if target in ctx.interruptTimers {
        CancelInterruptTimer(ctx, target);
        result := -ECONNRESET;
      }
    }

    /** The UNLINK branch of `handle_usb_command`. */
    method HandleUnlink(ctx: ClientContext, cmd: Command)
      requires Holds(ctx) && cmd.Unlink? && !ctx.closing
      requires Running(ctx)
      modifies this`armed, this`retired, this`released, this`logs, ctx`interruptTimers, ctx`written
      ensures Holds(ctx) && View() == Handle(old(View()), ctx.id, cmd)
    {
      ghost var was := View();
      assert was.clients[ctx.id] == ctx.View();
      var result := CancelTarget(ctx, cmd.target);
      UnlinkAnswered(was, ctx.id, cmd, result);
      var buffers := UnlinkBuffers(cmd, cmd.seqnum, result);
      Respond(ctx, Answered(cmd, RetUnlink(cmd.seqnum, result)), buffers);
    }

    static lemma OnePiece(b: seq<Byte>)
      ensures Join([b]) == b
    {
    }

    static lemma TwoPieces(b: seq<Byte>, more: seq<Byte>)
      ensures Join([b, more]) == b + more
    {
      OnePiece(more);
      assert [b, more][1..] == [more];
    }

    /** What `handle_usb_command` sends for an UNLINK. */
    static method UnlinkBuffers(ghost cmd: Command, seqnum: U32, result: int) returns (buffers: seq<seq<Byte>>)
      requires result == 0 || result == -ECONNRESET
      ensures Carries(buffers, Answered(cmd, RetUnlink(seqnum, result)))
    {
      var response := Words([RET_UNLINK, seqnum, 0, 0, 0, Unsigned32(result)]) + Zeros(24);
      OnePiece(response);
      buffers := [response];
    }

    /** The same for a SUBMIT: a header, and the data if there is any. */
    static method SubmitBuffers(seqnum: U32, startFrame: U32, data: seq<Byte>) returns (buffers: seq<seq<Byte>>)
      requires |data| < 0x1_0000
      ensures forall cmd :: Carries(buffers, Answered(cmd, RetSubmit(seqnum, startFrame, data)))
      ensures data == [] && startFrame == 0 ==> forall at :: Carries(buffers, Nak(seqnum, at))
    {
      var response := Words([RET_SUBMIT, seqnum, 0, 0, 0, 0, |data|, startFrame, 0, 0]) + Zeros(8);
      if |data| > 0 {
        TwoPieces(response, data);
        buffers := [response, data];
      } else {
        OnePiece(response);
        buffers := [response];
      }
    }

    /** The same for a command the server does not know. */
    static method OtherBuffers(ghost cmd: Command, seqnum: U32) returns (buffers: seq<seq<Byte>>)
      ensures Carries(buffers, Answered(cmd, RetOther(seqnum)))
    {
      var response := Words([0, seqnum, 0, 0, 0, 1]) + Zeros(24);
      OnePiece(response);
      buffers := [response];
    }

    method SendSubmit(ctx: ClientContext, cmd: Command, data: seq<Byte>)
      requires Holds(ctx) && !ctx.closing && cmd.Submit? && |data| < 0x1_0000
      modifies this`logs, ctx`written
      ensures Holds(ctx)
      ensures View() ==
        Log(old(View()), ctx.id, Answered(cmd, RetSubmit(cmd.header.seqnum, cmd.header.startFrame, data)))
    {
      var buffers := SubmitBuffers(cmd.header.seqnum, cmd.header.startFrame, data);
      assert View() == old(View());
      Respond(ctx, Answered(cmd, RetSubmit(cmd.header.seqnum, cmd.header.startFrame, data)), buffers);
    }

    /** The reply to a SUBMIT that is not an interrupt request. */
    method AnswerSubmit(ctx: ClientContext, cmd: Command)
      requires Holds(ctx) && Exports() && Room(cmd) && !ctx.closing
      requires cmd.Submit? && |cmd.header.setup| == 8 && !InterruptEndpoint(cmd.header.ep)
      modifies this`logs, ctx`written
      ensures Holds(ctx) && View() == Handle(old(View()), ctx.id, cmd)
    {
      var data := SubmitReply(cmd.header, cmd.payload);
      assert View() == old(View());
      SubmitAnswered(View(), ctx.id, cmd, data);
      SendSubmit(ctx, cmd, data);
    }

    method AnswerOther(ctx: ClientContext, cmd: Command)
      requires Holds(ctx) && !ctx.closing && cmd.OtherUsb?
      modifies this`logs, ctx`written
      ensures Holds(ctx) && View() == Handle(old(View()), ctx.id, cmd)
    {
      var buffers := OtherBuffers(cmd, cmd.seqnum);
      assert View() == old(View());
      Respond(ctx, Answered(cmd, RetOther(cmd.seqnum)), buffers);
    }

    /** `handle_usb_command` */
    method HandleUsbCommand(ctx: ClientContext, cmd: Command)
      requires Holds(ctx) && Exports() && Room(cmd) && !ctx.closing
      requires Running(ctx)
      requires cmd.Unlink? || cmd.OtherUsb? || (cmd.Submit? && |cmd.header.setup| == 8)
      modifies this`armed, this`retired, this`released, this`nextTimer, this`reusers, this`logs
      modifies ctx`interruptTimers, ctx`written
      ensures Holds(ctx) && View() == Handle(old(View()), ctx.id, cmd)
    {
      match cmd
      case Submit(h, _) =>
        if h.ep == 1 || h.ep == 0x81 {
          ParkRequest(ctx, cmd);
        } else {
          AnswerSubmit(ctx, cmd);
        }
      case Unlink(_, _) =>
        HandleUnlink(ctx, cmd);
      case OtherUsb(_, _) =>
        AnswerOther(ctx, cmd);
    }

    /** The parser's side of accepting a command: the state the handlers set, and what was accepted. */
    method Accepted(ctx: ClientContext, cmd: Command)
      requires Holds(ctx)
      modifies ctx`phase, ctx`hungUp, ctx`accepted
      ensures Holds(ctx) && View() == Accepting(old(View()), ctx.id, cmd)
    {
      ctx.Take(cmd);
      OneChanged(ctx);
    }

    /** What `handle_devlist_request` sends. */
    method DevlistBuffers() returns (buffers: seq<seq<Byte>>)
      requires Exports()
      ensures Carries(buffers, Answered(Devlist, RepDevlist([device.entry])))
    {
      ExportedRecord();
      var header, count := OpHeader(OP_REP_DEVLIST, 0), Be32(1);
      buffers := [header, count, devinfo, INTERFACE];
      FourPieces(header, count, devinfo, INTERFACE);
      OnePiece(INTERFACE);
      OneEntry(device.entry);
    }

    static lemma FourPieces(a: seq<Byte>, b: seq<Byte>, c: seq<Byte>, d: seq<Byte>)
      ensures Join([a, b, c, d]) == a + b + (c + d)
    {
      TwoPieces(c, d);
      assert [b, c, d][1..] == [c, d];
      assert [a, b, c, d][1..] == [b, c, d];
      assert a + (b + (c + d)) == a + b + (c + d);
    }

    static lemma OneEntry(e: DeviceEntry)
      ensures EncodeEntries([e]) == EncodeEntry(e)
    {
    }

    /** `handle_devlist_request` */
    method HandleDevlistRequest(ctx: ClientContext)
      requires Holds(ctx) && Exports() && !ctx.closing
      modifies this`logs, ctx`written
      ensures Holds(ctx) && View() == Handle(old(View()), ctx.id, Devlist)
    {
      var buffers := DevlistBuffers();
      assert View() == old(View());
      Respond(ctx, Answered(Devlist, RepDevlist([device.entry])), buffers);
    }

    /** What `handle_import_request` sends: a header, and the record if the import is granted. */
    static method ImportBuffers(ghost cmd: Command, ok: bool, record: seq<Byte>) returns (buffers: seq<seq<Byte>>)
      requires ok ==> |record| == DEVICE_SIZE
      ensures Carries(buffers, Answered(cmd, if ok then RepImport(0, record) else RepImport(1, [])))
    {
      var header := OpHeader(OP_REP_IMPORT, if ok then 0 else 1);
      if ok {
        TwoPieces(header, record);
        buffers := [header, record];
      } else {
        OnePiece(header);
        buffers := [header];
      }
    }

    /** `handle_import_request`, and the hang-up its caller makes of a failure. */
    method HandleImportRequest(ctx: ClientContext, busid: seq<Byte>) returns (ok: bool)
      requires Holds(ctx) && Exports() && !ctx.closing
      modifies this`logs, this`clients, ctx`closing, ctx`written
      ensures ok <==> KnownBusid(busid)
      ensures Holds(ctx) && View() == Handle(old(View()), ctx.id, Import(busid))
    {
      ok := KnownBusid(busid);
      if ok {
        GrantImport(ctx, busid);
      } else {
        RefuseImport(ctx, busid);
      }
    }

    method GrantImport(ctx: ClientContext, busid: seq<Byte>)
      requires Holds(ctx) && Exports() && !ctx.closing && KnownBusid(busid)
      modifies this`logs, ctx`written
      ensures Holds(ctx) && View() == Handle(old(View()), ctx.id, Import(busid))
    {
      ExportedRecord();
      var buffers := ImportBuffers(Import(busid), true, devinfo);
      assert View() == old(View());
      Respond(ctx, Answered(Import(busid), RepImport(0, devinfo)), buffers);
    }

    method RefuseImport(ctx: ClientContext, busid: seq<Byte>)
      requires Holds(ctx) && !ctx.closing && !KnownBusid(busid)
      modifies this`logs, this`clients, ctx`closing, ctx`written
      ensures Holds(ctx) && View() == Handle(old(View()), ctx.id, Import(busid))
    {
      ghost var was := View();
      var buffers := ImportBuffers(Import(busid), false, []);
      assert View() == was;
      RespondAndRemove(ctx, Answered(Import(busid), RepImport(1, [])), buffers);
      ImportRefused(was, View(), ctx.id, busid);
    }

    method RespondAndRemove(ctx: ClientContext, ghost e: Entry, buffers: seq<seq<Byte>>)
      requires Holds(ctx) && !ctx.closing && Carries(buffers, e)
      modifies this`logs, this`clients, ctx`closing, ctx`written
      ensures Holds(ctx) && View() == HangUp(Log(old(View()), ctx.id, e), ctx.id)
    {
      Respond(ctx, e, buffers);
      RemoveClient(ctx);
    }

    /** A frame that is none: the connection is closed and everything buffered is used up. */
    method RefuseAll(ctx: ClientContext) returns (consumed: nat)
      requires Holds(ctx) && !ctx.closing && ctx.recvBuffer != []
      requires CutFrame(ctx.phase, ctx.recvBuffer) == Frame(Rejected, |ctx.recvBuffer|)
      modifies this`logs, this`clients, ctx`closing, ctx`phase, ctx`hungUp, ctx`accepted
      ensures Holds(ctx) && Handled(old(View()), ctx.id, consumed, View())
    {
      assert View().clients[ctx.id] == ctx.View();
      FrameHandled(View(), ctx.id, Rejected, |ctx.recvBuffer|);
      Refuse(ctx);
      Accepted(ctx, Rejected);
      return |ctx.recvBuffer|;
    }

    method Refuse(ctx: ClientContext)
      requires Holds(ctx) && !ctx.closing
      modifies this`logs, this`clients, ctx`closing
      ensures Holds(ctx) && View() == Handle(old(View()), ctx.id, Rejected)
    {
      Note(ctx.id, Refused(Rejected));
      RemoveClient(ctx);
    }

    method TakeDevlist(ctx: ClientContext)
      requires Holds(ctx) && Exports() && !ctx.closing
      modifies this`logs, ctx`phase, ctx`hungUp, ctx`accepted, ctx`written
      ensures Holds(ctx) && View() == Taken(old(View()), ctx.id, Devlist)
    {
      HandleDevlistRequest(ctx);
      Accepted(ctx, Devlist);
    }

    method TakeImport(ctx: ClientContext, busid: seq<Byte>) returns (ok: bool)
      requires Holds(ctx) && Exports() && !ctx.closing
      modifies this`logs, this`clients, ctx`phase, ctx`hungUp, ctx`accepted, ctx`closing, ctx`written
      ensures ok <==> KnownBusid(busid)
      ensures Holds(ctx) && View() == Taken(old(View()), ctx.id, Import(busid))
    {
      ok := HandleImportRequest(ctx, busid);
      Accepted(ctx, Import(busid));
    }

    /** `handle_client_data` on the connection's own buffer: how many bytes it consumed. */
    method HandleClientData(ctx: ClientContext) returns (consumed: nat)
      requires Holds(ctx) && Exports() && HeadRoom(ctx) && !ctx.closing && ctx.recvBuffer != []
      requires Running(ctx)
      modifies this`armed, this`retired, this`released, this`nextTimer, this`reusers, this`logs, this`clients
      modifies ctx`interruptTimers, ctx`phase, ctx`hungUp, ctx`accepted, ctx`closing, ctx`written
      ensures Holds(ctx)
      ensures Handled(old(View()), ctx.id, consumed, View())
    {
      match ctx.phase
      case WaitingCommand =>
        consumed := HandleOperation(ctx);
      case Imported =>
        consumed := HandleUsb(ctx);
      case _ =>
        consumed := RefuseAll(ctx);
    }

    /** The WAITING_COMMAND state. */
    method HandleOperation(ctx: ClientContext) returns (consumed: nat)
      requires Holds(ctx) && Exports() && !ctx.closing && ctx.recvBuffer != [] && ctx.phase == WaitingCommand
      modifies this`logs, this`clients
      modifies ctx`phase, ctx`hungUp, ctx`accepted, ctx`closing, ctx`written
      ensures Holds(ctx)
      ensures Handled(old(View()), ctx.id, consumed, View())
    {
      ghost var was, c := View(), ctx.id;
      assert was.clients[c] == ctx.View();
      var data := ctx.recvBuffer;
      if |data| < OP_HEADER_SIZE {
        NothingHandled(was, c);
        return 0;
      }
      var version, command := At16(data, 0), At16(data, 2);
      if version == USBIP_VERSION && command == OP_REQ_DEVLIST {
        FrameHandled(was, c, Devlist, OP_HEADER_SIZE);
        TakeDevlist(ctx);
        return OP_HEADER_SIZE;
      }
      if version == USBIP_VERSION && command == OP_REQ_IMPORT {
        consumed := HandleImport(ctx);
        return;
      }
      consumed := RefuseAll(ctx);
    }

    /** The import request, once its header is in. */
    method HandleImport(ctx: ClientContext) returns (consumed: nat)
      requires Holds(ctx) && Exports() && !ctx.closing && |ctx.recvBuffer| >= OP_HEADER_SIZE
        && ctx.phase == WaitingCommand
      requires At16(ctx.recvBuffer, 0) == USBIP_VERSION && At16(ctx.recvBuffer, 2) == OP_REQ_IMPORT
      modifies this`logs, this`clients
      modifies ctx`phase, ctx`hungUp, ctx`accepted, ctx`closing, ctx`written
      ensures Holds(ctx)
      ensures Handled(old(View()), ctx.id, consumed, View())
    {
      ghost var was, c := View(), ctx.id;
      assert was.clients[c] == ctx.View();
      var data := ctx.recvBuffer;
      var total := OP_HEADER_SIZE + BUSID_SIZE;
      if |data| < total {
        NothingHandled(was, c);
        return 0;
      }
      var busid := data[OP_HEADER_SIZE..total];
      FrameHandled(was, c, Import(busid), if KnownBusid(busid) then total else |data|);
      var ok := TakeImport(ctx, busid);
      return if ok then total else |data|;
    }

    /** The size of the USB frame at the head of the data, a header and for an OUT request its payload; 0 while
        it is not complete. */
    static method FrameSize(data: seq<Byte>) returns (total: nat)
      ensures total == 0 ==> CutUsb(data).NeedMore?
      ensures total != 0 ==>
        USB_HEADER_SIZE <= total <= |data| && CutUsb(data) == Frame(UsbCommand(data[..total]), total)
    {
      if |data| < USB_HEADER_SIZE {
        return 0;
      }
      total := USB_HEADER_SIZE;
      if At32(data, 0) == CMD_SUBMIT && At32(data, 12) == 0 {
        total := total + At32(data, 24);
      }
      if |data| < total {
        return 0;
      }
    }

    lemma NotComplete(ctx: ClientContext)
      requires Holds(ctx) && ctx.recvBuffer != [] && ctx.phase == Imported && CutUsb(ctx.recvBuffer).NeedMore?
      ensures Handled(View(), ctx.id, 0, View())
    {
      assert View().clients[ctx.id] == ctx.View();
      NothingHandled(View(), ctx.id);
    }

    /** The IMPORTED state. */
    method HandleUsb(ctx: ClientContext) returns (consumed: nat)
      requires Holds(ctx) && Exports() && !ctx.closing && ctx.recvBuffer != [] && ctx.phase == Imported
      requires Running(ctx) && HeadRoom(ctx)
      modifies this`armed, this`retired, this`released, this`nextTimer, this`reusers, this`logs
      modifies ctx`interruptTimers, ctx`phase, ctx`hungUp, ctx`accepted, ctx`written
      ensures Holds(ctx)
      ensures Handled(old(View()), ctx.id, consumed, View())
    {
      consumed := FrameSize(ctx.recvBuffer);
      assert View() == old(View());
      if consumed == 0 {
        NotComplete(ctx);
      } else {
        TakeFrame(ctx, consumed);
      }
    }

    method TakeFrame(ctx: ClientContext, size: nat)
      requires Holds(ctx) && Exports() && !ctx.closing && Running(ctx) && ctx.phase == Imported && HeadRoom(ctx)
      requires USB_HEADER_SIZE <= size <= |ctx.recvBuffer|
      requires CutUsb(ctx.recvBuffer) == Frame(UsbCommand(ctx.recvBuffer[..size]), size)
      modifies this`armed, this`retired, this`released, this`nextTimer, this`reusers, this`logs
      modifies ctx`interruptTimers, ctx`phase, ctx`hungUp, ctx`accepted, ctx`written
      ensures Holds(ctx) && Handled(old(View()), ctx.id, size, View())
    {
      assert View().clients[ctx.id] == ctx.View();
      var cmd := UsbCommand(ctx.recvBuffer[..size]);
      FrameHandled(View(), ctx.id, cmd, size);
      TakeUsb(ctx, cmd);
    }

    method TakeUsb(ctx: ClientContext, cmd: Command)
      requires Holds(ctx) && Exports() && Room(cmd) && !ctx.closing && Running(ctx)
      requires cmd.Unlink? || cmd.OtherUsb? || (cmd.Submit? && |cmd.header.setup| == 8)
      modifies this`armed, this`retired, this`released, this`nextTimer, this`reusers, this`logs
      modifies ctx`interruptTimers, ctx`phase, ctx`hungUp, ctx`accepted, ctx`written
      ensures Holds(ctx) && View() == Taken(old(View()), ctx.id, cmd)
    {
      HandleUsbCommand(ctx, cmd);
      Accepted(ctx, cmd);
    }

    /** The bytes a frame used are taken off the front of the buffer. */
    method Consume(ctx: ClientContext, n: nat)
      requires Holds(ctx) && n <= |ctx.recvBuffer|
      modifies ctx`recvBuffer
      ensures Holds(ctx) && ctx.recvBuffer == old(ctx.recvBuffer)[n..]
      ensures var p := old(View()).clients[ctx.id].parser;
        View() == WithParser(old(View()), ctx.id, p.(buf := p.buf[n..]))
    {
      if n < |ctx.recvBuffer| {
        ctx.recvBuffer := ctx.recvBuffer[n..];
      } else {
        ctx.recvBuffer := [];
      }
      OneChanged(ctx);
    }

    /** The read loop is under way, and will leave the server in state `target`. */
    ghost predicate Reading(ctx: ClientContext, target: State)
      reads this, contexts.Values
    {
      forall x {:trigger Seen(x)} | Seen(x) :: Holds(ctx) && Ahead(View(), ctx.id, target)
    }

    lemma StartReading(ctx: ClientContext, target: State)
      requires Holds(ctx) && Servable(View(), ctx.id) && RoomAhead(View(), ctx.id) && target == Serve(View(), ctx.id)
      ensures Reading(ctx, target)
    {
      AheadOf(View(), ctx.id);
    }

    lemma ReadyToRead(ctx: ClientContext, target: State)
      requires Reading(ctx, target)
      ensures Holds(ctx) && Ahead(View(), ctx.id, target)
      ensures ctx.recvBuffer != [] ==> !ctx.closing && Running(ctx) && HeadRoom(ctx)
    {
      assert Seen(0);
      assert View().clients[ctx.id] == ctx.View();
      if ctx.recvBuffer != [] {
        AheadIsOpen(View(), ctx.id, target);
      }
    }

    lemma KeepReading(ctx: ClientContext, target: State)
      requires Holds(ctx) && Ahead(View(), ctx.id, target)
      ensures Reading(ctx, target)
    {
    }

    lemma ReadyToConsume(ctx: ClientContext, n: nat, target: State)
      requires Holds(ctx) && AheadWithout(View(), ctx.id, n, target)
      ensures n <= |ctx.recvBuffer|
      ensures var p := View().clients[ctx.id].parser;
        p.buf == ctx.recvBuffer && Ahead(WithParser(View(), ctx.id, p.(buf := p.buf[n..])), ctx.id, target)
    {
      assert Seen(0) && View().clients[ctx.id] == ctx.View();
    }

    lemma NothingToRead(ctx: ClientContext, target: State)
      requires Reading(ctx, target) && ctx.recvBuffer == []
      ensures Holds(ctx) && View() == target
    {
      assert Seen(0);
      assert View().clients[ctx.id] == ctx.View();
      NothingAhead(View(), ctx.id, target);
    }

    /** The first half of a turn of the read loop. */
    method HandleHead(ctx: ClientContext, ghost target: State) returns (consumed: nat)
      requires Reading(ctx, target) && Exports() && ctx.recvBuffer != []
      modifies this`armed, this`retired, this`released, this`nextTimer, this`reusers, this`logs, this`clients
      modifies ctx`interruptTimers, ctx`phase, ctx`hungUp, ctx`accepted, ctx`closing, ctx`written
      ensures Holds(ctx)
      ensures if consumed == 0 then View() == target else AheadWithout(View(), ctx.id, consumed, target)
    {
      ReadyToRead(ctx, target);
      ghost var was := View();
      consumed := HandleClientData(ctx);
      TurnAhead(was, ctx.id, consumed, View(), target);
    }

    /** One turn of the read loop; `false` when the head of the buffer is not complete yet. */
    method ReadTurn(ctx: ClientContext, ghost target: State) returns (progress: bool)
      requires Reading(ctx, target) && Exports() && ctx.recvBuffer != []
      modifies this`armed, this`retired, this`released, this`nextTimer, this`reusers, this`logs, this`clients
      modifies ctx`recvBuffer, ctx`interruptTimers, ctx`phase, ctx`hungUp, ctx`accepted, ctx`closing, ctx`written
      ensures if progress then Reading(ctx, target) && |ctx.recvBuffer| < old(|ctx.recvBuffer|)
              else Holds(ctx) && View() == target
    {
      var consumed := HandleHead(ctx, target);
      if consumed == 0 {
        return false;
      }
      ReadyToConsume(ctx, consumed, target);
      Consume(ctx, consumed);
      KeepReading(ctx, target);
      return true;
    }

    /** The read loop. */
    method ReadLoop(ctx: ClientContext, ghost target: State)
      requires Reading(ctx, target) && Exports()
      modifies this`armed, this`retired, this`released, this`nextTimer, this`reusers, this`logs, this`clients
      modifies ctx`recvBuffer, ctx`interruptTimers, ctx`phase, ctx`hungUp, ctx`accepted, ctx`closing, ctx`written
      ensures Holds(ctx) && View() == target
    {
      while |ctx.recvBuffer| > 0
        invariant Reading(ctx, target)
        decreases |ctx.recvBuffer|
      {
        var progress := ReadTurn(ctx, target);
        if !progress {
          return;
        }
      }
      NothingToRead(ctx, target);
    }

    method Append(ctx: ClientContext, chunk: seq<Byte>)
      requires Holds(ctx)
      modifies ctx`recvBuffer
      ensures Holds(ctx) && View() == Buffered(old(View()), ctx.id, chunk)
    {
      ctx.recvBuffer := ctx.recvBuffer + chunk;
      OneChanged(ctx);
    }

    /** `on_client_read` with data. */
    method OnClientRead(ctx: ClientContext, chunk: seq<Byte>)
      requires Holds(ctx) && Exports() && Servable(Buffered(View(), ctx.id, chunk), ctx.id)
      requires RoomAhead(Buffered(View(), ctx.id, chunk), ctx.id)
      modifies this`armed, this`retired, this`released, this`nextTimer, this`reusers, this`logs, this`clients
      modifies ctx`recvBuffer, ctx`interruptTimers, ctx`phase, ctx`hungUp, ctx`accepted, ctx`closing, ctx`written
      ensures Holds(ctx) && View() == Serve(Buffered(old(View()), ctx.id, chunk), ctx.id)
    {
      ghost var was := Buffered(View(), ctx.id, chunk);
      Append(ctx, chunk);
      StartReading(ctx, Serve(was, ctx.id));
      ReadLoop(ctx, Serve(was, ctx.id));
    }

    /** `on_client_read` with an error or the end of the stream. */
    method OnClientEof(ctx: ClientContext)
      requires Holds(ctx) && !ctx.closing
      modifies this`clients, this`logs, ctx`closing
      ensures Holds(ctx) && View() == HangUp(old(View()), ctx.id)
    {
      RemoveClient(ctx);
    }

    method StopAnother(timer: nat, ghost was: State, ghost done: set<nat>)
      requires Linked() && View() == CloseTimers(was, done) && timer in was.armed && timer !in done
      modifies this`armed, this`retired, this`released
      ensures Linked() && View() == CloseTimers(was, done + {timer})
    {
      OneMoreBlock(was, done, timer);
      StopTimer(timer);
    }

    /** The loop of `cancel_all_interrupt_timers`, in whatever order the map yields. */
    method StopTimers(timers: map<U32, nat>)
      requires Linked() && Separate(timers) && forall q | q in timers :: timers[q] in armed
      modifies this`armed, this`retired, this`released
      ensures Linked() && View() == CloseTimers(old(View()), timers.Values)
    {
      ghost var was, done := View(), {};
      var todo := timers.Keys;
      NothingStopped(was);
      AllOrNone(timers);
      while todo != {}
        invariant todo <= timers.Keys && done == TimersOf(timers, timers.Keys - todo)
        invariant Linked() && View() == CloseTimers(was, done)
        decreases todo
      {
        var seqnum :| seqnum in todo;
        OneMoreTimer(timers, timers.Keys - todo, seqnum);
        OneLess(timers.Keys, todo, seqnum);
        StopAnother(timers[seqnum], was, done);
        todo, done := todo - {seqnum}, done + {timers[seqnum]};
      }
    }

    /** `cancel_all_interrupt_timers` */
    method CancelAllInterruptTimers(ctx: ClientContext)
      requires Holds(ctx) && Separate(ctx.interruptTimers)
      requires Running(ctx)
      modifies this`armed, this`retired, this`released, ctx`interruptTimers
      ensures Holds(ctx) && View() == CancelAll(old(View()), ctx.id)
    {
      StopTimers(ctx.interruptTimers);
      ForgetTimers(ctx);
    }

    method ForgetTimers(ctx: ClientContext)
      requires Holds(ctx)
      modifies ctx`interruptTimers
      ensures Holds(ctx) && View() == WithClient(old(View()), ctx.id, old(View()).clients[ctx.id].(pending := map[]))
    {
      ctx.interruptTimers := map[];
      OneChanged(ctx);
    }

    static lemma NothingStopped(s: State)
      ensures CloseTimers(s, {}) == s
    {
    }

    static lemma OneMoreBlock(s: State, done: set<nat>, timer: nat)
      requires timer !in done
      ensures CloseTimer(CloseTimers(s, done), timer) == CloseTimers(s, done + {timer})
    {
    }

    static ghost function TimersOf(timers: map<U32, nat>, keys: set<U32>): set<nat> {
      set q | q in keys && q in timers :: timers[q]
    }

    static lemma AllOrNone(timers: map<U32, nat>)
      ensures TimersOf(timers, timers.Keys - timers.Keys) == {}
      ensures TimersOf(timers, timers.Keys - {}) == timers.Values
    {
    }

    static lemma OneMoreTimer(timers: map<U32, nat>, seen: set<U32>, q: U32)
      requires Separate(timers) && q in timers && q !in seen
      ensures timers[q] !in TimersOf(timers, seen)
      ensures TimersOf(timers, seen + {q}) == TimersOf(timers, seen) + {timers[q]}
    {
    }

    /** `on_client_close` */
    method OnClientClose(ctx: ClientContext)
      requires Holds(ctx) && Separate(ctx.interruptTimers) && ctx.id !in clients
      requires Running(ctx)
      modifies this`armed, this`retired, this`released, this`logs, this`contexts, ctx`interruptTimers, ctx`freed
      ensures Linked() && View() == Close(old(View()), ctx.id) && contexts == old(contexts) - {ctx.id}
    {
      ghost var dropped := ctx.interruptTimers;
      DropConnection(ctx);
      CloseWithoutFault(old(View()), ctx.id);
      Note(ctx.id, Dropped(dropped.Keys));
    }

    /** Cancel what is pending and `delete ctx`. */
    method DropConnection(ctx: ClientContext)
      requires Holds(ctx) && Separate(ctx.interruptTimers) && ctx.id !in clients
      requires Running(ctx)
      modifies this`armed, this`retired, this`released, this`contexts, ctx`interruptTimers, ctx`freed
      ensures Linked() && View() == Release(old(View()), ctx.id) && contexts == old(contexts) - {ctx.id}
    {
      CancelAllInterruptTimers(ctx);
      DeleteContext(ctx);
    }

    /** `delete ctx` */
    method DeleteContext(ctx: ClientContext)
      requires Holds(ctx) && ctx.id !in clients
      modifies this`released, this`contexts, ctx`freed
      ensures Linked() && View() == Deleted(old(View()), ctx.id) && contexts == old(contexts) - {ctx.id}
    {
      DropHandle(ctx);
      Account(Block.Context(ctx.id));
    }

    ghost method Account(b: Block)
      requires Linked()
      modifies this`released
      ensures Linked() && View() == old(View()).(freed := old(View()).freed + multiset{b})
    {
      released := released + multiset{b};
    }

    method DropHandle(ctx: ClientContext)
      requires Holds(ctx) && ctx.id !in clients
      modifies this`contexts, ctx`freed
      ensures Linked() && View() == old(View()).(clients := old(View()).clients - {ctx.id})
      ensures contexts == old(contexts) - {ctx.id}
    {
      assert forall c | c in contexts && c != ctx.id :: contexts[c] != ctx;
      contexts := contexts - {ctx.id};
      ctx.freed := true;
      OneRemoved(ctx);
    }

    /** A listening server that exports a device. */
    constructor (devinfo: seq<Byte>, descriptors: Descriptors, ghost device: Device, status: Status)
      requires MadeOf(device, devinfo, descriptors)
      ensures Valid() && View() == Init(device, status) && contexts == map[] && this.descriptors == descriptors
    {
      this.devinfo, this.descriptors, this.device, this.status := devinfo, descriptors, device, status;
      running, now, nextClient, nextTimer := true, 0, 0, 0;
      clients, contexts, armed, retired := map[], map[], map[], {};
      logs, released, reusers := map[], multiset{}, {};
    }

    /** A listening server with the configured UPS. */
    static method Create(config: Config, status: Status) returns (server: USBIPServer)
      ensures fresh(server) && server.Valid() && server.View() == Init(UpsDevice(config), status)
      ensures server.contexts == map[] && server.descriptors == InitDescriptors(config)
    {
      UpsIsMadeOf(config);
      var descriptors := BuildDescriptors(config);
      server := new USBIPServer(Record(config), descriptors, UpsDevice(config), status);
    }

    /** A new context, and `add_client` for an accepted one. */
    method AddContext(accepted: bool) returns (ctx: ClientContext)
      requires Linked() && nextClient !in contexts
      modifies this`contexts, this`clients, this`logs
      ensures fresh(ctx) && contexts == old(contexts)[nextClient := ctx] && Linked()
      ensures View() == Listed(old(View()), accepted).(logs := old(logs)[nextClient := FirstEntries(accepted)])
    {
      ctx := new ClientContext(nextClient, !accepted);
      contexts := contexts[nextClient := ctx];
      logs := logs[nextClient := FirstEntries(accepted)];
      OneAdded(ctx, FirstEntries(accepted));
      if accepted {
        AddClient(ctx);
      }
    }

    /** `add_client` */
    method AddClient(ctx: ClientContext)
      requires Holds(ctx)
      modifies this`clients
      ensures Holds(ctx) && View() == old(View()).(listed := old(clients).Keys + {ctx.id})
    {
      clients := clients[ctx.id := ctx];
    }

    /** `on_connection`. A connection that cannot be accepted is closed without being listed. */
    method OnConnection(accepted: bool) returns (ctx: ClientContext)
      requires Linked() && nextClient !in contexts
      modifies this`contexts, this`clients, this`nextClient, this`logs
      ensures Linked() && View() == Arrive(old(View()), accepted)
      ensures fresh(ctx) && contexts == old(contexts)[old(nextClient) := ctx]
    {
      ctx := AddContext(accepted);
      nextClient := nextClient + 1;
    }

    /** `on_interrupt_timer`, once the timer's data has led to its context: close the timer, take it out of
        the map and answer; the write on a closing handle is refused. */
    method OnInterruptTimer(ctx: ClientContext, timer: nat)
      requires Holds(ctx) && timer in armed && armed[timer].client == ctx.id
      modifies this`armed, this`retired, this`released, this`logs, ctx`interruptTimers, ctx`written
      ensures Holds(ctx) && View() == Expire(old(View()), timer)
    {
      ghost var was := View();
      assert was.clients[ctx.id] == ctx.View();
      var seqnum := armed[timer].seqnum;
      EndTimer(ctx, timer, seqnum);
      var buffers := SubmitBuffers(seqnum, 0, []);
      Respond(ctx, if ctx.closing then Swallowed(seqnum, now) else Nak(seqnum, now), buffers);
    }

    /** `on_free_handler` */
    method OnTimerClosed(timer: nat)
      requires Linked() && timer in retired
      modifies this`retired, this`released
      ensures Linked() && View() == Step(old(View()), FreeTimer(timer))
    {
      retired := retired - {timer};
      released := released + multiset{Block.TimerHandle(timer)};
    }

    /** The loop's clock moves on. */
    method Advance(elapsed: nat)
      requires Linked()
      modifies this`now
      ensures Linked() && View() == Step(old(View()), Tick(elapsed))
    {
      now := now + elapsed;
    }

    /** The poller commits a new status. */
    method StoreStatus(newStatus: Status)
      requires Linked()
      modifies this`status
      ensures Linked() && View() == Step(old(View()), Poll(newStatus))
    {
      status := newStatus;
    }

    static lemma OneLess<T>(all: set<T>, todo: set<T>, x: T)
      requires x in todo && todo <= all
      ensures all - (todo - {x}) == all - todo + {x}
    {
    }

    /** `stop` is under way, and has removed the clients `done`. */
    ghost predicate Stopping(was: State, done: set<nat>)
      reads this, contexts.Values
    {
      forall x {:trigger Seen(x)} | Seen(x) :: Linked() && View() == StopSome(was, done)
    }

    lemma StopBegins(was: State)
      requires Linked() && was.running && View() == was.(running := false)
      ensures Stopping(was, {})
    {
      StopNone(was);
    }

    lemma StopEnds(was: State, done: set<nat>)
      requires Stopping(was, done)
      ensures Linked() && View() == StopSome(was, done)
    {
      assert Seen(0);
    }

    method StopOne(ctx: ClientContext, ghost was: State, ghost done: set<nat>)
      requires Stopping(was, done) && ctx.id in contexts && contexts[ctx.id] == ctx
      requires Open(was, ctx.id) && ctx.id !in done && ctx.id in was.logs
      modifies this`clients, this`logs, ctx`closing
      ensures Stopping(was, done + {ctx.id})
    {
      StopEnds(was, done);
      StopOneMore(was, done, ctx.id);
      assert View().clients[ctx.id] == ctx.View();
      RemoveClient(ctx);
    }

    /** `stop`: collect the clients first, then remove them one by one. */
    method Stop()
      requires Linked() && forall c | c in clients :: !clients[c].closing
      modifies this`running, this`clients, this`logs, contexts.Values`closing
      ensures Linked()
      ensures View() == if old(running) then StopSome(old(View()), old(clients).Keys) else old(View())
    {
      if running {
        running := false;
        StopBegins(old(View()));
        StopClients(clients, old(View()));
      }
    }

    method StopClients(toClose: map<nat, ClientContext>, ghost was: State)
      requires Stopping(was, {})
      requires forall c | c in toClose :: c in contexts && contexts[c] == toClose[c] && toClose[c].id == c
      requires forall c | c in toClose :: Open(was, c) && c in was.logs
      modifies this`clients, this`logs, contexts.Values`closing
      ensures Linked() && View() == StopSome(was, toClose.Keys)
    {
      var todo := toClose.Keys;
      ghost var done := {};
      while todo != {}
        invariant todo <= toClose.Keys && done == toClose.Keys - todo
        invariant Stopping(was, done)
        decreases todo
      {
        var c :| c in todo;
        assert contexts[c] in contexts.Values;
        OneLess(toClose.Keys, todo, c);
        StopOne(toClose[c], was, done);
        todo, done := todo - {c}, done + {c};
      }
      assert done == toClose.Keys;
      StopEnds(was, done);
    }

    // The callbacks as the loop makes them: what happens on the heap is the engine's step. `OnTimerClosed`,
    // `Advance` and `StoreStatus` say so themselves.

    method Accept(accepted: bool) returns (ctx: ClientContext)
      requires Valid() && Ready(View(), Connect(accepted))
      modifies this`contexts, this`clients, this`nextClient, this`logs
      ensures Valid() && View() == Step(old(View()), Connect(accepted))
      ensures fresh(ctx) && contexts == old(contexts)[old(nextClient) := ctx]
    {
      ctx := OnConnection(accepted);
    }

    method Disconnect(c: nat)
      requires Valid() && Ready(View(), Eof(c))
      modifies this`clients, this`logs, contexts.Values`closing
      ensures Valid() && View() == Step(old(View()), Eof(c))
    {
      var ctx := contexts[c];
      assert View().clients[c] == ctx.View();
      OnClientEof(ctx);
    }

    method Receive(c: nat, chunk: seq<Byte>)
      requires Valid() && Ready(View(), Recv(c, chunk)) && RoomFor(View(), Recv(c, chunk))
      modifies this`armed, this`retired, this`released, this`nextTimer, this`reusers, this`logs, this`clients
      modifies contexts.Values
      ensures Valid() && View() == Step(old(View()), Recv(c, chunk))
    {
      OnClientRead(contexts[c], chunk);
    }

    method Finish(c: nat)
      requires Valid() && Ready(View(), CloseCallback(c))
      modifies this`armed, this`retired, this`released, this`logs, this`contexts, contexts.Values
      ensures Valid() && View() == Step(old(View()), CloseCallback(c))
      ensures contexts == old(contexts) - {c}
    {
      var ctx := contexts[c];
      assert View().clients[c] == ctx.View();
      OnClientClose(ctx);
    }

    method Ring(timer: nat)
      requires Valid() && Ready(View(), Fire(timer))
      modifies this`armed, this`retired, this`released, this`logs, contexts.Values
      ensures Valid() && View() == Step(old(View()), Fire(timer))
    {
      OnInterruptTimer(contexts[armed[timer].client], timer);
    }

    method StopListening()
      requires Valid() && Ready(View(), Event.Stop)
      modifies this`running, this`clients, this`logs, contexts.Values`closing
      ensures Valid() && View() == Step(old(View()), Event.Stop)
    {
      assert forall c | c in clients :: View().clients[c] == clients[c].View();
      Stop();
    }

    /** One callback. */
    method Dispatch(e: Event)
      requires Valid() && Ready(View(), e) && RoomFor(View(), e)
      modifies this, contexts.Values
      ensures Valid() && View() == Step(old(View()), e)
      ensures fresh(contexts.Values - old(contexts.Values))
    {
      match e
      case Connect(_) => DispatchSocket(e);
      case Recv(_, _) => DispatchSocket(e);
      case Eof(_) => DispatchSocket(e);
      case CloseCallback(_) => DispatchSocket(e);
      case _ => DispatchOther(e);
    }

    method DispatchOther(e: Event)
      requires Valid() && Ready(View(), e) && !e.Connect? && !e.Recv? && !e.Eof? && !e.CloseCallback?
      modifies this, contexts.Values
      ensures Valid() && View() == Step(old(View()), e) && contexts == old(contexts)
    {
      match e
      case Tick(elapsed) => Advance(elapsed);
      case Poll(newStatus) => StoreStatus(newStatus);
      case Stop => StopListening();
      case Fire(_) => DispatchTimer(e);
      case FreeTimer(_) => DispatchTimer(e);
    }

    method DispatchTimer(e: Event)
      requires Valid() && Ready(View(), e) && (e.Fire? || e.FreeTimer?)
      modifies this, contexts.Values
      ensures Valid() && View() == Step(old(View()), e) && contexts == old(contexts)
    {
      match e
      case Fire(i) => Ring(i);
      case FreeTimer(i) => OnTimerClosed(i);
    }

    method DispatchSocket(e: Event)
      requires Valid() && Ready(View(), e) && RoomFor(View(), e)
        && (e.Connect? || e.Recv? || e.Eof? || e.CloseCallback?)
      modifies this, contexts.Values
      ensures Valid() && View() == Step(old(View()), e)
      ensures fresh(contexts.Values - old(contexts.Values))
    {
      match e
      case Connect(accepted) => var ctx := Accept(accepted);
      case Recv(c, chunk) => Receive(c, chunk);
      case Eof(c) => Disconnect(c);
      case CloseCallback(c) => Finish(c);
    }

    /** The event loop: one callback after the other. */
    method RunEvents(es: seq<Event>)
      requires Valid() && AllReady(View(), es) && RoomThroughout(View(), es)
      modifies this, contexts.Values
      ensures Valid() && View() == Run(old(View()), es)
    {
      ghost var target := Run(View(), es);
      for i := 0 to |es|
        invariant Valid() && AllReady(View(), es[i..]) && RoomThroughout(View(), es[i..])
        invariant Run(View(), es[i..]) == target
        invariant fresh(contexts.Values - old(contexts.Values))
      {
        Dispatch(es[i]);
      }
    }

    /** A server from its start on: what it holds and what it has written after any run that makes no fault
        are what the engine says. */
    static method Operate(config: Config, status: Status, es: seq<Event>) returns (server: USBIPServer)
      requires var s := Init(UpsDevice(config), status); Made(s, es) && RoomThroughout(s, es) && !Run(s, es).fault
      ensures server.View() == Run(Init(UpsDevice(config), status), es)
      ensures forall c | c in server.contexts ::
        c in server.logs && server.contexts[c].written == Written(server.logs[c])
    {
      server := Create(config, status);
      InitSound(UpsDevice(config), status);
      RunIsReady(server.View(), es);
      server.RunEvents(es);
      server.WrittenIsLogged();
    }

    lemma WrittenIsLogged()
      requires Linked()
      ensures forall c | c in contexts :: c in logs && contexts[c].written == Written(logs[c])
    {
      assert forall c | c in contexts :: Seen(c);
    }
  }
}
