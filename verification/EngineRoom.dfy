/** Room for control replies: the server builds them in a buffer of 4096 bytes. */
module EngineRoom {
  import opened Wire
  import opened Parser
  import opened UpsStatus
  import opened Control
  import opened Engine

  /** The reply to a command fits the buffer it is built in. */
  predicate HasRoom(d: Device, status: Status, cmd: Command) {
    cmd.Submit? && cmd.header.ep == 0 && |cmd.header.setup| == 8 ==>
      |d.control(status, SetupOf(cmd.header.setup))| <= REPLY_ROOM
  }

  /** So do the replies to all the requests the read loop is going to handle. */
  predicate RoomAhead(s: State, c: nat)
    requires c in s.clients
    decreases |s.clients[c].parser.buf|
  {
    var p := s.clients[c].parser;
    p.buf != [] ==>
      var f := CutFrame(p.phase, p.buf);
      f.Frame? ==> HasRoom(s.device, s.status, f.cmd) && RoomAhead(Turn(s, c, f), c)
  }

  predicate RoomFor(s: State, e: Event) {
    e.Recv? && e.client in s.clients ==> RoomAhead(Buffered(s, e.client, e.chunk), e.client)
  }

  predicate RoomThroughout(s: State, es: seq<Event>)
    decreases |es|
  {
    es == [] || (RoomFor(s, es[0]) && RoomThroughout(Step(s, es[0]), es[1..]))
  }

  /** A device none of whose replies is too long. */
  ghost predicate Concise(d: Device) {
    forall status, setup :: |d.control(status, setup)| <= REPLY_ROOM
  }

  lemma {:induction false} ConciseAhead(s: State, c: nat)
    requires c in s.clients && Concise(s.device)
    ensures RoomAhead(s, c) && Serve(s, c).device == s.device
    decreases |s.clients[c].parser.buf|
  {
    var p := s.clients[c].parser;
    if p.buf == [] || CutFrame(p.phase, p.buf).NeedMore? {
    } else {
      var f := CutFrame(p.phase, p.buf);
      HandleKeepsDevice(s, c, f.cmd);
      ConciseAhead(Turn(s, c, f), c);
    }
  }

  lemma HandleKeepsDevice(s: State, c: nat, cmd: Command)
    requires c in s.clients
    ensures Handle(s, c, cmd).device == s.device
  {
  }

  /** With such a device there is room throughout every run. */
  lemma {:induction false} ConciseThroughout(s: State, es: seq<Event>)
    requires Concise(s.device)
    ensures RoomThroughout(s, es)
    decreases |es|
  {
    if es == [] {
    } else {
      var e := es[0];
      if e.Recv? && e.client in s.clients {
        ConciseAhead(Buffered(s, e.client, e.chunk), e.client);
      }
      ConciseThroughout(Step(s, e), es[1..]);
    }
  }
}
