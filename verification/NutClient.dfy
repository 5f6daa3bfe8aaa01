/** `NUTClient::send_command`: reading one answer from a stream that arrives in arbitrary pieces. */
module NutClient {
  import opened Strings

  const BUFFER_SIZE := 8192
  const RESPONSE_LIMIT := 65535

  const CONNECT_FAILED := "ERR CONNECT_FAILED"
  const SEND_FAILED := "ERR SEND_CMD_FAILED"
  const RECEIVE_FAILED := "ERR RECEIVE_FAILED"
  const MULTI_LINE := "ERR MULTI_LINE_RESPONSE"
  const TOO_LONG := "ERR RECEIVE_TOO_LONG_RESPONSE"

  /** What is still to come on a connection: the bytes, and how many of them each receive call hands
      over at most. Every way of splitting the stream is some schedule. */
  datatype Stream = Stream(incoming: string, schedule: seq<nat>)

  /** How many bytes one receive call with room for `limit` returns; none only when nothing is left. */
  function Delivered(s: Stream, limit: nat): (n: nat)
    requires limit > 0
    ensures n <= limit && n <= |s.incoming| && (n == 0 <==> s.incoming == "")
  {
    var offered := if s.schedule == [] then |s.incoming| else if s.schedule[0] == 0 then 1 else s.schedule[0];
    var n := if offered < limit then offered else limit;
    if n < |s.incoming| then n else |s.incoming|
  }

  function After(s: Stream, limit: nat): Stream
    requires limit > 0
  {
    Stream(s.incoming[Delivered(s, limit)..], if s.schedule == [] then [] else s.schedule[1..])
  }

  /** The outcome of a loop: the text it ends with, and what is left on the connection. `open` says
      whether the socket is still connected. */
  datatype Outcome = Outcome(text: string, rest: Stream, open: bool)

  datatype FirstLine = Line(received: string, rest: Stream) | NoLine(rest: Stream)

  /** The first loop: receive into the buffer until it holds a newline. */
  function ReadFirstLine(received: string, s: Stream): FirstLine
    requires |received| <= BUFFER_SIZE
    decreases |s.incoming|
  {
    if '\n' in received then Line(received, s)
    else if |received| >= BUFFER_SIZE then NoLine(s)
    else
      var n := Delivered(s, BUFFER_SIZE - |received|);
      if n == 0 then NoLine(After(s, BUFFER_SIZE - |received|))
      else ReadFirstLine(received + s.incoming[..n], After(s, BUFFER_SIZE - |received|))
  }

  /** The second loop: receive until the END line has arrived. */
  function ReadBlock(response: string, total: nat, s: Stream, marker: string): Outcome
    decreases |s.incoming|
  {
    if total >= RESPONSE_LIMIT then Outcome(TOO_LONG, s, true)
    else match Find(response, marker)
      case Some(end) => Outcome(response[..end], s, true)
      case None =>
        var n := Delivered(s, BUFFER_SIZE);
        if n == 0 then Outcome(RECEIVE_FAILED, After(s, BUFFER_SIZE), false)
        else ReadBlock(response + s.incoming[..n], total + n, After(s, BUFFER_SIZE), marker)
  }

  function NewlineAt(s: string): (p: nat)
    ensures p <= |s| && '\n' !in s[..p] && (p < |s| ==> s[p] == '\n')
  {
    if s == "" || s[0] == '\n' then 0 else
    var q := NewlineAt(s[1..]);
    assert s[..q + 1] == [s[0]] + s[1..][..q];
    q + 1
  }

  predicate StartsWith(s: string, prefix: string) {
    |s| >= |prefix| && s[..|prefix|] == prefix
  }

  const BEGIN := "BEGIN "

  /** `line.replace(0, 5, "\nEND")` */
  function MarkerFor(line: string): string
    requires |line| >= 5
  {
    "\nEND" + line[5..]
  }

  /** One command on a connected socket, once the command has been sent. */
  function Exchange(s: Stream): Outcome {
    match ReadFirstLine("", s)
    case NoLine(rest) => Outcome(RECEIVE_FAILED, rest, false)
    case Line(received, rest) =>
      var p := NewlineAt(received);
      var line := received[..p];
      if !StartsWith(line, BEGIN) then
        Outcome(if p + 1 == |received| then line else MULTI_LINE, rest, true)
      else
        ReadBlock(if p < |received| then received[p + 1..] else "", |received|, rest, MarkerFor(line))
  }

  class Socket {
    var stream: Stream
    constructor (s: Stream) ensures stream == s { stream := s; }

    /** `recv` into `buffer` at `off`. */
    method Recv(buffer: array<char>, off: nat, limit: nat) returns (n: nat)
      requires limit > 0 && off + limit <= buffer.Length
      modifies this, buffer
      ensures n == Delivered(old(stream), limit) && stream == After(old(stream), limit)
      ensures buffer[..off] == old(buffer[..off])
      ensures buffer[off..off + n] == old(stream).incoming[..n]
    {
      n := Delivered(stream, limit);
      forall i | 0 <= i < n {
        buffer[off + i] := stream.incoming[i];
      }
      stream := After(stream, limit);
    }
  }

  class NUTClient {
    var socket: Socket
    var connected: bool

    constructor (s: Socket)
      ensures socket == s && !connected
    {
      socket, connected := s, false;
    }

    /** What a command sent now is answered from: the open connection, or a new one. */
    ghost function Source(dialled: Stream): Stream
      reads this, socket
    {
      if connected then socket.stream else dialled
    }

    /** `connect`: a new socket, with its own stream. */
    method Connect(dialled: Stream)
      modifies this
      ensures connected && fresh(socket) && socket.stream == dialled
    {
      socket := new Socket(dialled);
      connected := true;
    }

    /** `send_command`. Whether connecting and sending succeed, and what a new connection delivers, is up
        to the network. */
    method SendCommand(canConnect: bool, canSend: bool, dialled: Stream) returns (response: string)
      modifies this, socket
      ensures socket == old(socket) || fresh(socket)
      ensures !old(connected) && !canConnect ==>
        response == CONNECT_FAILED && !connected && socket == old(socket) && socket.stream == old(socket.stream)
      ensures (old(connected) || canConnect) && !canSend ==>
        response == SEND_FAILED && !connected && socket.stream == old(Source(dialled))
      ensures (old(connected) || canConnect) && canSend ==>
        var o := Exchange(old(Source(dialled)));
        response == o.text && socket.stream == o.rest && connected == o.open
    {
      if !connected {
        if !canConnect {
          return CONNECT_FAILED;
        }
        Connect(dialled);
      }
      if !canSend {
        connected := false;
        return SEND_FAILED;
      }
      response := Receive();
    }

    /** Both receiving loops. */
    method Receive() returns (response: string)
      requires connected
      modifies this`connected, socket
      ensures var o := Exchange(old(socket.stream));
        response == o.text && socket.stream == o.rest && connected == o.open
    {
      var buffer := new char[BUFFER_SIZE];
      var total, lineSize, found := ReceiveLine(buffer);
      if !found {
        connected := false;
        return RECEIVE_FAILED;
      }
      var received := buffer[..total];
      var line := received[..lineSize];
      lineSize := lineSize + 1;
      if !StartsWith(line, BEGIN) {
        return if lineSize == total then line else MULTI_LINE;
      }
      response := ReceiveBlock(buffer, received[lineSize..], total, MarkerFor(line));
    }

    /** The second loop: receive until the END line is in the response. */
    method ReceiveBlock(buffer: array<char>, first: string, alreadyReceived: nat, marker: string)
      returns (response: string)
      requires connected && buffer.Length == BUFFER_SIZE
      modifies this`connected, socket, buffer
      ensures var o := ReadBlock(first, alreadyReceived, old(socket.stream), marker);
        response == o.text && socket.stream == o.rest && connected == o.open
    {
      response := first;
      var total: nat := alreadyReceived;
      while total < RESPONSE_LIMIT
        invariant connected
        invariant ReadBlock(response, total, socket.stream, marker) ==
          ReadBlock(first, alreadyReceived, old(socket.stream), marker)
        decreases |socket.stream.incoming|
      {
        var end := Find(response, marker);
        if end.Some? {
          return response[..end.value];
        }
        var n := socket.Recv(buffer, 0, BUFFER_SIZE);
        if n == 0 {
          connected := false;
          return RECEIVE_FAILED;
        }
        response := response + buffer[..n];
        total := total + n;
      }
      return TOO_LONG;
    }

    /** The first loop: fill the buffer until a newline is seen, looking at each byte once. */
    method ReceiveLine(buffer: array<char>) returns (total: nat, lineSize: nat, found: bool)
      requires buffer.Length == BUFFER_SIZE
      modifies socket, buffer
      ensures total <= BUFFER_SIZE
      ensures var f := ReadFirstLine("", old(socket.stream));
        if found then f == Line(buffer[..total], socket.stream) && lineSize == NewlineAt(buffer[..total]) < total
        else f == NoLine(socket.stream)
    {
      total, lineSize, found := 0, 0, false;
      ghost var expected := ReadFirstLine("", socket.stream);
      while total < BUFFER_SIZE
        invariant lineSize == total <= BUFFER_SIZE && '\n' !in buffer[..total]
        invariant ReadFirstLine(buffer[..total], socket.stream) == expected
        decreases |socket.stream.incoming|
      {
        ghost var before, was := buffer[..total], socket.stream;
        var n := socket.Recv(buffer, total, BUFFER_SIZE - total);
        assert buffer[..total] == before;
        if n == 0 {
          return;
        }
        total := total + n;
        assert buffer[..total] == before + was.incoming[..n];
        lineSize, found := ScanForNewline(buffer, lineSize, total);
        if found {
          FirstNewline(buffer[..total], lineSize);
          return;
        }
      }
    }

    /** Look at the bytes that just came in, each once. */
    method ScanForNewline(buffer: array<char>, from: nat, end: nat) returns (at: nat, found: bool)
      requires from <= end <= buffer.Length && '\n' !in buffer[..from]
      ensures at <= end && '\n' !in buffer[..at]
      ensures if found then at < end && buffer[at] == '\n' && buffer[..end][..at] == buffer[..at] else at == end
    {
      at, found := from, false;
      while at < end
        invariant from <= at <= end && '\n' !in buffer[..at]
      {
        if buffer[at] == '\n' {
          found := true;
          return;
        }
        assert buffer[..at + 1] == buffer[..at] + [buffer[at]];
        at := at + 1;
      }
    }
  }

  lemma {:induction false} FirstNewline(s: string, p: nat)
    requires p < |s| && s[p] == '\n' && '\n' !in s[..p]
    ensures NewlineAt(s) == p
  {
  }

  /** The answer a whole stream stands for, with no receive calls in sight. */
  function Answer(all: string): string {
    var p := NewlineAt(all);
    if p == |all| || p >= BUFFER_SIZE then RECEIVE_FAILED
    else if !StartsWith(all[..p], BEGIN) then all[..p]
    else
      BlockText(all[p + 1..], MarkerFor(all[..p]))
  }

  /** What stands before the END line. */
  function BlockText(after: string, marker: string): string {
    match Find(after, marker)
    case None => RECEIVE_FAILED
    case Some(end) => after[..end]
  }

  /** Streams whose answer does not depend on how they are split: an answer of one line with nothing
      after it, or a block under the size limit. */
  predicate Settled(all: string) {
    var p := NewlineAt(all);
    p == |all| || p >= BUFFER_SIZE ||
    (if StartsWith(all[..p], BEGIN) then |all| < RESPONSE_LIMIT else p + 1 == |all|)
  }

  /** Receiving the first line reads some of the stream, the line's newline included. */
  lemma {:induction false} FirstLineReads(received: string, s: Stream)
    requires |received| <= BUFFER_SIZE
    ensures var f, all := ReadFirstLine(received, s), received + s.incoming;
      if NewlineAt(all) < |all| && NewlineAt(all) < BUFFER_SIZE then
        f.Line? && f.received + f.rest.incoming == all && NewlineAt(all) < |f.received| <= BUFFER_SIZE
      else f.NoLine?
    decreases |s.incoming|
  {
    var all := received + s.incoming;
    var p := NewlineAt(all);
    if '\n' in received {
      var q := NewlineAt(received);
      NewlineInPrefix(received, s.incoming);
    } else {
      NoNewlineYet(received, s.incoming);
      if |received| < BUFFER_SIZE && s.incoming != "" {
        var n := Delivered(s, BUFFER_SIZE - |received|);
        Moved(received, s, BUFFER_SIZE - |received|);
        FirstLineReads(received + s.incoming[..n], After(s, BUFFER_SIZE - |received|));
      }
    }
  }

  lemma NewlineInPrefix(a: string, b: string)
    requires '\n' in a
    ensures NewlineAt(a + b) == NewlineAt(a) < |a|
  {
    var q := NewlineAt(a);
    assert a[..|a|] == a;
    assert (a + b)[..q] == a[..q];
    FirstNewline(a + b, q);
  }

  lemma {:induction false} NoNewlineYet(a: string, b: string)
    requires '\n' !in a
    ensures |a| <= NewlineAt(a + b)
  {
  }

  /** A receive call moves bytes from the stream to what was received. */
  lemma Moved(received: string, s: Stream, room: nat)
    requires room > 0
    ensures received + s.incoming[..Delivered(s, room)] + After(s, room).incoming == received + s.incoming
  {
  }

  /** A block is read in full, however it is split, as long as the size limit is out of reach. */
  lemma {:induction false} BlockReads(response: string, total: nat, s: Stream, marker: string)
    requires total + |s.incoming| < RESPONSE_LIMIT
    ensures var o, all := ReadBlock(response, total, s, marker), response + s.incoming;
      o.text == BlockText(all, marker) && (o.open <==> Find(all, marker).Some?)
    decreases |s.incoming|
  {
    var all := response + s.incoming;
    FindInPrefix(response, s.incoming, marker);
    if Find(response, marker).Some? {
      assert all[..Find(response, marker).value] == response[..Find(response, marker).value];
    } else if s.incoming == "" {
      assert all == response;
    } else {
      var n := Delivered(s, BUFFER_SIZE);
      Moved(response, s, BUFFER_SIZE);
      BlockReads(response + s.incoming[..n], total + n, After(s, BUFFER_SIZE), marker);
    }
  }

  /** Chunking independence: every schedule of receive calls gives the same answer. */
  lemma AnswerIgnoresSplits(s: Stream)
    requires Settled(s.incoming)
    ensures Exchange(s).text == Answer(s.incoming)
  {
    var all := s.incoming;
    var p := NewlineAt(all);
    FirstLineReads("", s);
    assert "" + all == all;
    if p < |all| && p < BUFFER_SIZE {
      var f := ReadFirstLine("", s);
      AnswerFrom(s, f.received, f.rest);
    }
  }

  lemma AnswerFrom(s: Stream, received: string, rest: Stream)
    requires Settled(s.incoming) && NewlineAt(s.incoming) < BUFFER_SIZE && NewlineAt(s.incoming) < |received|
    requires ReadFirstLine("", s) == Line(received, rest) && received + rest.incoming == s.incoming
    ensures Exchange(s).text == Answer(s.incoming)
  {
    var p := NewlineAt(s.incoming);
    SameFirstLine(received, rest.incoming);
    if StartsWith(s.incoming[..p], BEGIN) {
      AnswerOfBlock(s, s.incoming, p, received, rest);
    } else {
      AnswerOfLine(s, s.incoming, p, received, rest);
    }
  }

  lemma AnswerOfBlock(s: Stream, all: string, p: nat, received: string, rest: Stream)
    requires NewlineAt(all) == NewlineAt(received) == p < |received| && p < BUFFER_SIZE && |all| < RESPONSE_LIMIT
    requires ReadFirstLine("", s) == Line(received, rest) && received + rest.incoming == all
    requires received[..p] == all[..p] && StartsWith(all[..p], BEGIN)
    ensures Exchange(s).text == Answer(all)
  {
    ExchangeBlock(s, received, rest);
    BlockAnswer(received, rest, all, p, MarkerFor(all[..p]));
  }

  lemma AnswerOfLine(s: Stream, all: string, p: nat, received: string, rest: Stream)
    requires NewlineAt(all) == NewlineAt(received) == p < |received| && p < BUFFER_SIZE && p + 1 == |all|
    requires ReadFirstLine("", s) == Line(received, rest) && received + rest.incoming == all
    requires received[..p] == all[..p] && !StartsWith(all[..p], BEGIN)
    ensures Exchange(s).text == Answer(all)
  {
    ExchangeLine(s, received, rest);
  }

  lemma ExchangeLine(s: Stream, received: string, rest: Stream)
    requires ReadFirstLine("", s) == Line(received, rest)
    requires NewlineAt(received) < |received| && !StartsWith(received[..NewlineAt(received)], BEGIN)
    ensures var p := NewlineAt(received);
      Exchange(s).text == if p + 1 == |received| then received[..p] else MULTI_LINE
  {
  }

  lemma BlockAnswer(received: string, rest: Stream, all: string, p: nat, marker: string)
    requires received + rest.incoming == all && p < |received| && |all| < RESPONSE_LIMIT
    ensures ReadBlock(received[p + 1..], |received|, rest, marker).text == BlockText(all[p + 1..], marker)
  {
    assert received[p + 1..] + rest.incoming == all[p + 1..];
    BlockReads(received[p + 1..], |received|, rest, marker);
  }

  lemma ExchangeBlock(s: Stream, received: string, rest: Stream)
    requires ReadFirstLine("", s) == Line(received, rest)
    requires NewlineAt(received) < |received| && StartsWith(received[..NewlineAt(received)], BEGIN)
    ensures var p := NewlineAt(received);
      Exchange(s) == ReadBlock(received[p + 1..], |received|, rest, MarkerFor(received[..p]))
  {
  }

  lemma SameFirstLine(a: string, b: string)
    requires NewlineAt(a + b) < |a|
    ensures NewlineAt(a) == NewlineAt(a + b) && a[..NewlineAt(a)] == (a + b)[..NewlineAt(a)]
  {
    var p := NewlineAt(a + b);
    assert a[..p] == (a + b)[..p];
    FirstNewline(a, p);
  }
}
