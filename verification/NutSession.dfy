/** Two commands in a row on one connection: a block answer and then a one-line answer. */
module NutSession {
  import opened Bytes
  import opened Strings
  import opened NutClient
  import opened NutBlocks

  /** `left` is a suffix of `all` that starts at `from` or later. */
  predicate SuffixFrom(left: string, all: string, from: nat) {
    |left| + from <= |all| && left == all[|all| - |left|..]
  }

  lemma TailAfter(a: string, b: string, from: nat)
    requires from <= |a|
    ensures SuffixFrom(b, a + b, from)
  {
  }

  /** The marker is found as soon as it has been received in full. */
  lemma FoundWhen(received: string, rest: string, all: string, marker: string)
    requires received + rest == all && Find(all, marker).Some?
    ensures Find(received, marker).Some? <==> Find(all, marker).value + |marker| <= |received|
    ensures Find(received, marker).Some? ==> Find(received, marker) == Find(all, marker)
  {
    FindInPrefix(received, rest, marker);
  }

  /** A finished block leaves unread some suffix of the stream that follows the marker. */
  lemma {:induction false} BlockLeaves(response: string, total: nat, s: Stream, all: string, marker: string)
    requires total + |s.incoming| < RESPONSE_LIMIT && response + s.incoming == all && Find(all, marker).Some?
    ensures SuffixFrom(ReadBlock(response, total, s, marker).rest.incoming, all, Find(all, marker).value + |marker|)
    decreases |s.incoming|
  {
    FoundWhen(response, s.incoming, all, marker);
    if Find(response, marker).Some? {
      TailAfter(response, s.incoming, Find(all, marker).value + |marker|);
    } else {
      var n := Delivered(s, BUFFER_SIZE);
      Moved(response, s, BUFFER_SIZE);
      BlockLeaves(response + s.incoming[..n], total + n, After(s, BUFFER_SIZE), all, marker);
    }
  }

  lemma CutHead(received: string, rest: string, all: string, off: nat)
    requires received + rest == all && off <= |received|
    ensures received[off..] + rest == all[off..]
  {
  }

  lemma MarkerFound(subject: string, lines: seq<string>)
    requires OneLine(subject) && (forall l | l in lines :: OneLine(l)) && Delivers(subject, lines)
    ensures var after, marker := EachLine(lines) + EndLine(subject) + "\n", "\n" + EndLine(subject);
      && Find(after, marker) == Some(|JoinLines(lines)|)
      && |after| == |JoinLines(lines)| + |marker| + 1 && after[|after| - 1] == '\n'
  {
    var body, endLine := JoinLines(lines), EndLine(subject);
    LinesJoin(lines);
    assert EachLine(lines) + endLine + "\n" == body + ("\n" + endLine + "\n");
    EarlyMarker(lines, endLine);
    MarkerAtEnd(body, endLine);
    FindIs(body + ("\n" + endLine + "\n"), "\n" + endLine, |body|);
  }

  /** A one-line answer as the second command sees it, behind whatever the first left unread. */
  lemma SecondAnswer(left: string, line: string, schedule: seq<nat>)
    requires left == "" || left == "\n"
    requires OneLine(line) && line != "" && line != MULTI_LINE && !StartsWith(line, BEGIN) && |line| < BUFFER_SIZE
    ensures Exchange(Stream(left + (line + "\n"), schedule)).text == line <==> left == ""
  {
    var all := left + (line + "\n");
    var s := Stream(all, schedule);
    if left == "" {
      assert all == line + "\n";
      assert all[..|line|] == line;
      FirstNewline(all, |line|);
      AnswerIgnoresSplits(s);
    } else {
      assert all[0] == '\n';
      FirstNewline(all, 0);
      FirstLineReads("", s);
      assert "" + all == all;
      var f := ReadFirstLine("", s);
      SameFirstLine(f.received, f.rest.incoming);
      assert f.received[..0] == "";
    }
  }

  /** Whether the running total of the receive calls on `s`, `have` bytes so far, is ever exactly `target`.
      Up to the end of the first line, `first` characters and a newline, they fill one buffer; after that
      each call may use all of it. */
  predicate Lands(have: nat, s: Stream, first: nat, target: nat)
    requires first < BUFFER_SIZE
    decreases |s.incoming|
  {
    var room := if have <= first then BUFFER_SIZE - have else BUFFER_SIZE;
    have == target ||
    (have < target && s.incoming != "" && Lands(have + Delivered(s, room), After(s, room), first, target))
  }

  /** The same, for statements that do not look inside. */
  ghost predicate Meets(have: nat, s: Stream, first: nat, target: nat)
    requires first < BUFFER_SIZE
  {
    forall x {:trigger Seen(x)} | Seen(x) :: Lands(have, s, first, target)
  }

  /** The first loop does not change where the total lands. */
  lemma {:induction false} FirstLineLands(received: string, s: Stream, all: string, first: nat, target: nat)
    requires received + s.incoming == all && NewlineAt(all) == first < |all| && first < BUFFER_SIZE && first < target
    requires |received| <= BUFFER_SIZE
    ensures Landed(ReadFirstLine(received, s), |received|, s, first, target)
    decreases |s.incoming|
  {
    NewlineReceived(received, s.incoming, all);
    if '\n' in received {
      LandedAtOnce(received, s, first, target);
    } else {
      var room := BUFFER_SIZE - |received|;
      var more := ReadOnce(received, s, all, room);
      FirstLineLands(more, After(s, room), all, first, target);
      LandedLater(ReadFirstLine(received, s), |received|, |more|, s, room, first, target);
    }
  }

  /** The first line is in, and from there the total lands where it would have. */
  predicate Landed(f: FirstLine, have: nat, s: Stream, first: nat, target: nat)
    requires first < BUFFER_SIZE
  {
    && f.Line? && first < |f.received|
    && (Lands(have, s, first, target) <==> Lands(|f.received|, f.rest, first, target))
  }

  lemma LandedAtOnce(received: string, s: Stream, first: nat, target: nat)
    requires '\n' in received && first < BUFFER_SIZE && first < |received| <= BUFFER_SIZE
    ensures Landed(ReadFirstLine(received, s), |received|, s, first, target)
  {
  }

  lemma LandedLater(f: FirstLine, have: nat, more: nat, s: Stream, room: nat, first: nat, target: nat)
    requires have <= first < target && first < BUFFER_SIZE && have + room == BUFFER_SIZE && s.incoming != ""
    requires more == have + Delivered(s, room) && Landed(f, more, After(s, room), first, target)
    ensures Landed(f, have, s, first, target)
  {
    LandsOnce(have, s, room, first, target);
  }

  lemma ReadOnce(received: string, s: Stream, all: string, room: nat) returns (more: string)
    requires '\n' !in received && room > 0 && |received| + room == BUFFER_SIZE
    requires received + s.incoming == all && |received| < |all|
    ensures s.incoming != "" && |After(s, room).incoming| < |s.incoming|
    ensures |more| == |received| + Delivered(s, room) <= BUFFER_SIZE && more + After(s, room).incoming == all
    ensures ReadFirstLine(received, s) == ReadFirstLine(more, After(s, room))
  {
    Moved(received, s, room);
    more := received + s.incoming[..Delivered(s, room)];
  }

  lemma LandsOnce(have: nat, s: Stream, room: nat, first: nat, target: nat)
    requires have <= first < target && first < BUFFER_SIZE && have + room == BUFFER_SIZE && s.incoming != ""
    ensures Lands(have, s, first, target) <==> Lands(have + Delivered(s, room), After(s, room), first, target)
  {
  }

  lemma NewlineReceived(received: string, rest: string, all: string)
    requires received + rest == all && NewlineAt(all) < |all|
    ensures '\n' in received <==> NewlineAt(all) < |received|
  {
    if '\n' in received {
      NewlineInPrefix(received, rest);
    } else {
      NoNewlineYet(received, rest);
    }
  }

  /** The second loop leaves the last byte unread exactly when the total lands on it. */
  lemma {:induction false} BlockLands(response: string, total: nat, s: Stream, all: string, marker: string,
                                      first: nat, target: nat)
    requires first < BUFFER_SIZE && first < total && total + |s.incoming| == target + 1 < RESPONSE_LIMIT
    requires response + s.incoming == all
    requires Find(all, marker).Some? && |all| == Find(all, marker).value + |marker| + 1
    ensures |ReadBlock(response, total, s, marker).rest.incoming| == 1 <==> Lands(total, s, first, target)
    decreases |s.incoming|
  {
    FoundWhen(response, s.incoming, all, marker);
    if Find(response, marker).Some? {
      assert ReadBlock(response, total, s, marker).rest == s;
    } else {
      var more := ReadMore(response, total, s, all, marker);
      LandsMore(total, s, first, target);
      BlockLands(more, total + Delivered(s, BUFFER_SIZE), After(s, BUFFER_SIZE), all, marker, first, target);
    }
  }

  lemma ReadMore(response: string, total: nat, s: Stream, all: string, marker: string) returns (more: string)
    requires total < RESPONSE_LIMIT && Find(response, marker).None? && response + s.incoming == all
      && |response| < |all|
    ensures s.incoming != "" && more + After(s, BUFFER_SIZE).incoming == all
    ensures ReadBlock(response, total, s, marker) ==
      ReadBlock(more, total + Delivered(s, BUFFER_SIZE), After(s, BUFFER_SIZE), marker)
  {
    Moved(response, s, BUFFER_SIZE);
    more := response + s.incoming[..Delivered(s, BUFFER_SIZE)];
  }

  lemma LandsMore(have: nat, s: Stream, first: nat, target: nat)
    requires first < BUFFER_SIZE && first < have < target && s.incoming != ""
    ensures Lands(have, s, first, target) <==>
      Lands(have + Delivered(s, BUFFER_SIZE), After(s, BUFFER_SIZE), first, target)
  {
  }

  /** Whether the receive calls of a block answer stop just before its last byte. */
  ghost predicate StopsShort(subject: string, lines: seq<string>, schedule: seq<nat>)
    requires |BEGIN + subject| < BUFFER_SIZE
  {
    ShortOfLast(RenderBlock(subject, lines), |BEGIN + subject|, schedule)
  }

  ghost predicate ShortOfLast(all: string, first: nat, schedule: seq<nat>)
    requires first < BUFFER_SIZE
  {
    |all| > 0 && Meets(0, Stream(all, schedule), first, |all| - 1)
  }

  /** What an exchange leaves unread is the last newline, or nothing. */
  ghost predicate Leaves(o: Outcome, newline: bool) {
    forall x {:trigger Seen(x)} | Seen(x) :: o.rest.incoming == if newline then "\n" else ""
  }

  lemma LeftOfSecondLoop(o: Outcome, target: nat, first: nat, total: nat, rest: Stream, response: string,
                         after: string, marker: string)
    requires o == ReadBlock(response, total, rest, marker)
    requires first < BUFFER_SIZE && first < total && total + |rest.incoming| == target + 1 < RESPONSE_LIMIT
    requires response + rest.incoming == after
    requires EndsBehind(after, marker)
    ensures Leaves(o, Meets(total, rest, first, target))
  {
    assert Seen(0);
    BlockLands(response, total, rest, after, marker, first, target);
    BlockLeaves(response, total, rest, after, marker);
    LastByte(ReadBlock(response, total, rest, marker).rest.incoming, after, Find(after, marker).value + |marker|);
  }

  /** A stream that is one block: its BEGIN line, and after it the marker that ends the block, with one more
      newline behind. */
  ghost predicate OneBlock(all: string, head: string, after: string, marker: string) {
    forall x {:trigger Seen(x)} | Seen(x) ::
      && NewlineAt(all) == |head| < |all| - 1 && |head| < BUFFER_SIZE
      && all[..|head|] == head && all[|head| + 1..] == after && StartsWith(head, BEGIN) && MarkerFor(head) == marker
      && EndsBehind(after, marker)
  }

  ghost predicate EndsBehind(after: string, marker: string) {
    forall x {:trigger Seen(x)} | Seen(x) ::
      Find(after, marker).Some? && |after| == Find(after, marker).value + |marker| + 1 && after[|after| - 1] == '\n'
  }

  /** The first line of any stream that has one. */
  lemma FirstLineOfStream(s: Stream, all: string, first: nat, target: nat) returns (received: string, rest: Stream)
    requires s.incoming == all && NewlineAt(all) == first < |all| && first < BUFFER_SIZE && first < target
    ensures ReadFirstLine("", s) == Line(received, rest) && received + rest.incoming == all
    ensures first < |received| && (Meets(0, s, first, target) <==> Meets(|received|, rest, first, target))
  {
    assert Seen(0);
    assert "" + all == all;
    FirstLineReads("", s);
    FirstLineLands("", s, all, first, target);
    var f := ReadFirstLine("", s);
    received, rest := f.received, f.rest;
  }

  lemma OpenAt(s: Stream, received: string, rest: Stream, head: string)
    requires s.incoming == received + rest.incoming && ReadFirstLine("", s) == Line(received, rest)
    requires NewlineAt(s.incoming) == |head| < |received| && s.incoming[..|head|] == head && StartsWith(head, BEGIN)
    ensures Exchange(s) == ReadBlock(received[|head| + 1..], |received|, rest, MarkerFor(head))
    ensures received[|head| + 1..] + rest.incoming == s.incoming[|head| + 1..]
  {
    SameFirstLine(received, rest.incoming);
    CutHead(received, rest.incoming, s.incoming, |head| + 1);
    ExchangeBlock(s, received, rest);
  }

  /** What the second loop starts with. */
  lemma SecondLoopOf(s: Stream, all: string, head: string, after: string, marker: string, received: string,
                     rest: Stream)
    returns (response: string)
    requires s.incoming == all && OneBlock(all, head, after, marker) && ReadFirstLine("", s) == Line(received, rest)
    requires received + rest.incoming == all && |head| < |received|
    ensures Exchange(s) == ReadBlock(response, |received|, rest, marker) && response + rest.incoming == after
  {
    assert Seen(0);
    OpenAt(s, received, rest, head);
    response := received[|head| + 1..];
  }

  /** The first loop on a block: it does not change where the total lands. */
  lemma FirstLoop(s: Stream, all: string, head: string, after: string, marker: string)
    returns (received: string, rest: Stream)
    requires s.incoming == all && OneBlock(all, head, after, marker)
    ensures ReadFirstLine("", s) == Line(received, rest) && received + rest.incoming == all && |head| < |received|
    ensures |head| < BUFFER_SIZE && |head| < |all| - 1 && EndsBehind(after, marker)
    ensures Meets(0, s, |head|, |all| - 1) <==> Meets(|received|, rest, |head|, |all| - 1)
  {
    assert Seen(0);
    received, rest := FirstLineOfStream(s, all, |head|, |all| - 1);
  }

  /** The exchange `o` on stream `s` is down to its second loop, which starts with `response` and the rest of
      the stream; the total lands where it would have from the start. */
  ghost predicate HandsOver(o: Outcome, s: Stream, all: string, first: nat, total: nat, response: string, rest: Stream,
                            after: string, marker: string) {
    forall x {:trigger Seen(x)} | Seen(x) ::
      && o == ReadBlock(response, total, rest, marker) && response + rest.incoming == after && EndsBehind(after, marker)
      && first < BUFFER_SIZE && first < total && total + |rest.incoming| == |all| && first < |all| - 1
      && (Meets(0, s, first, |all| - 1) <==> Meets(total, rest, first, |all| - 1))
  }

  lemma BothLoops(s: Stream, all: string, head: string, after: string, marker: string)
    returns (total: nat, response: string, rest: Stream)
    requires s.incoming == all && OneBlock(all, head, after, marker)
    ensures HandsOver(Exchange(s), s, all, |head|, total, response, rest, after, marker)
  {
    var received;
    received, rest := FirstLoop(s, all, head, after, marker);
    response := SecondLoopOf(s, all, head, after, marker, received, rest);
    total := |received|;
  }

  lemma SecondLoop(o: Outcome, s: Stream, all: string, first: nat, total: nat, response: string, rest: Stream,
                   after: string, marker: string)
    requires HandsOver(o, s, all, first, total, response, rest, after, marker) && |all| < RESPONSE_LIMIT
    ensures first < BUFFER_SIZE && |all| > 0 && Leaves(o, Meets(0, s, first, |all| - 1))
  {
    assert Seen(0);
    LeftOfSecondLoop(o, |all| - 1, first, total, rest, response, after, marker);
  }

  /** What a block leaves unread, told from where the receive calls of the whole stream land. */
  lemma LeftOf(s: Stream, all: string, head: string, after: string, marker: string)
    requires s.incoming == all && OneBlock(all, head, after, marker) && |all| < RESPONSE_LIMIT
    ensures |head| < BUFFER_SIZE && |all| > 0
    ensures Leaves(Exchange(s), Meets(0, s, |head|, |all| - 1))
  {
    var total, response, rest := BothLoops(s, all, head, after, marker);
    SecondLoop(Exchange(s), s, all, |head|, total, response, rest, after, marker);
  }

  lemma LastByte(left: string, all: string, from: nat)
    requires SuffixFrom(left, all, from) && |all| == from + 1 && all[from] == '\n'
    ensures left == if |left| == 1 then "\n" else ""
  {
    if |left| == 1 {
      assert left[0] == all[from];
    }
  }

  /** A rendered block is such a stream. */
  lemma BlockIsOne(subject: string, lines: seq<string>) returns (after: string, marker: string)
    requires OneLine(subject) && (forall l | l in lines :: OneLine(l)) && Delivers(subject, lines)
    requires |BEGIN + subject| < BUFFER_SIZE
    ensures after == EachLine(lines) + EndLine(subject) + "\n" && marker == "\n" + EndLine(subject)
    ensures OneBlock(RenderBlock(subject, lines), BEGIN + subject, after, marker)
  {
    BlockShape(subject, lines);
    MarkerFound(subject, lines);
    after, marker := EachLine(lines) + EndLine(subject) + "\n", "\n" + EndLine(subject);
  }

  /** The client stops as soon as it has seen the END line, so the newline after it may stay unread. */
  lemma LeftAfterBlock(subject: string, lines: seq<string>, schedule: seq<nat>)
    requires OneLine(subject) && (forall l | l in lines :: OneLine(l)) && Delivers(subject, lines)
    requires |BEGIN + subject| < BUFFER_SIZE && |RenderBlock(subject, lines)| < RESPONSE_LIMIT
    ensures Leaves(Exchange(Stream(RenderBlock(subject, lines), schedule)), StopsShort(subject, lines, schedule))
  {
    var after, marker := BlockIsOne(subject, lines);
    LeftFrom(RenderBlock(subject, lines), BEGIN + subject, schedule, after, marker);
  }

  lemma LeftFrom(all: string, head: string, schedule: seq<nat>, after: string, marker: string)
    requires OneBlock(all, head, after, marker) && |head| < BUFFER_SIZE && |all| < RESPONSE_LIMIT
    ensures Leaves(Exchange(Stream(all, schedule)), ShortOfLast(all, |head|, schedule))
  {
    LeftOf(Stream(all, schedule), all, head, after, marker);
  }

  /** A session stays in step after a block unless the receive calls happened to stop one byte short: for
      every way the block and the answer behind it are split, the answer is read right if and only if the
      running total of the calls that read the block was never its length less one. */
  lemma InStepExactlyWhenDrained(subject: string, lines: seq<string>, line: string, first: seq<nat>, second: seq<nat>)
    requires OneLine(subject) && (forall l | l in lines :: OneLine(l)) && Delivers(subject, lines)
    requires |"BEGIN " + subject| < 8192 && |RenderBlock(subject, lines)| < 65535
    requires OneLine(line) && line != "" && line != MULTI_LINE && !StartsWith(line, "BEGIN ") && |line| < 8192
    ensures var left := Exchange(Stream(RenderBlock(subject, lines), first)).rest.incoming;
      Exchange(Stream(left + (line + "\n"), second)).text == line <==> !StopsShort(subject, lines, first)
  {
    assert Seen(0);
    LeftAfterBlock(subject, lines, first);
    SecondAnswer(Exchange(Stream(RenderBlock(subject, lines), first)).rest.incoming, line, second);
  }

  /** It does happen that the newline stays behind: when a block that fits the buffer arrives whole but
      for its last byte. */
  lemma NewlineLeftBehind(subject: string, lines: seq<string>)
    requires OneLine(subject) && (forall l | l in lines :: OneLine(l)) && Delivers(subject, lines)
    requires |RenderBlock(subject, lines)| <= BUFFER_SIZE
    ensures var all := RenderBlock(subject, lines);
      Exchange(Stream(all, [|all| - 1])).rest.incoming == "\n"
  {
    var after, marker := BlockIsOne(subject, lines);
    OneByteShort(RenderBlock(subject, lines), BEGIN + subject, after, marker);
  }

  lemma OneByteShort(all: string, head: string, after: string, marker: string)
    requires OneBlock(all, head, after, marker) && |all| <= BUFFER_SIZE
    ensures |all| > 0 && Exchange(Stream(all, [|all| - 1])).rest.incoming == "\n"
  {
    var s, received, rest := ButLast(all, head, after, marker);
    var response := SecondLoopOf(s, all, head, after, marker, received, rest);
    StopsAtOnce(response, |received|, rest, after, marker);
  }

  lemma ButLast(all: string, head: string, after: string, marker: string)
    returns (s: Stream, received: string, rest: Stream)
    requires OneBlock(all, head, after, marker) && |all| <= BUFFER_SIZE
    ensures |all| > 0 && s == Stream(all, [|all| - 1]) && received + rest.incoming == all && rest.incoming == "\n"
    ensures ReadFirstLine("", s) == Line(received, rest) && |head| < |received| && EndsBehind(after, marker)
  {
    assert Seen(0);
    var n := |all| - 1;
    s, received, rest := Stream(all, [n]), all[..n], Stream(all[n..], []);
    assert received[|head|] == all[|head|] == '\n';
    FirstChunk(all, n);
  }

  lemma FirstChunk(all: string, n: nat)
    requires 0 < n < |all| && n <= BUFFER_SIZE && '\n' in all[..n]
    ensures ReadFirstLine("", Stream(all, [n])) == Line(all[..n], Stream(all[n..], []))
  {
  }

  lemma StopsAtOnce(response: string, total: nat, rest: Stream, after: string, marker: string)
    requires response + rest.incoming == after && total < RESPONSE_LIMIT
    requires EndsBehind(after, marker) && |rest.incoming| == 1
    ensures ReadBlock(response, total, rest, marker).rest == rest
  {
    assert Seen(0);
    FindInPrefix(response, rest.incoming, marker);
  }
}
