/** What becomes of a block of any size: the client gives up on an answer once it has received 65535 bytes
    without having looked at it in between. */
module NutLimits {
  import opened Bytes
  import opened Strings
  import opened NutClient
  import opened NutBlocks
  import opened NutSession

  /** The text is what stands before the marker, or the error for answers that are too long. */
  predicate TextIs(text: string, after: string, marker: string, kept: bool) {
    text == if kept then BlockText(after, marker) else TOO_LONG
  }

  /** When the second loop keeps the block that ends at `target + 1`: it has to see the marker, which is in
      at `target`, before the total reaches the limit. */
  ghost predicate Kept(have: nat, s: Stream, first: nat, target: nat)
    requires first < BUFFER_SIZE
  {
    target + 1 < RESPONSE_LIMIT || (target + 1 == RESPONSE_LIMIT && Lands(have, s, first, target))
  }

  /** Where a marker occurs, the second loop ends with the text before it or gives up. */
  lemma {:induction false} MarkerOrLimit(response: string, total: nat, s: Stream, all: string, marker: string)
    requires response + s.incoming == all && Find(all, marker).Some?
    ensures var text := ReadBlock(response, total, s, marker).text;
      TextIs(text, all, marker, true) || TextIs(text, all, marker, false)
    decreases |s.incoming|
  {
    FoundWhen(response, s.incoming, all, marker);
    if total >= RESPONSE_LIMIT {
    } else if Find(response, marker).Some? {
      TextInPrefix(response, s.incoming, all, marker);
    } else {
      var more := ReadMore(response, total, s, all, marker);
      MarkerOrLimit(more, total + Delivered(s, BUFFER_SIZE), After(s, BUFFER_SIZE), all, marker);
    }
  }

  lemma TextInPrefix(response: string, rest: string, all: string, marker: string)
    requires response + rest == all && Find(response, marker).Some? && Find(response, marker) == Find(all, marker)
    ensures response[..Find(response, marker).value] == BlockText(all, marker)
  {
  }

  /** Which of the two it is, when one newline follows the marker. */
  lemma {:induction false} TextLands(response: string, total: nat, s: Stream, all: string, marker: string,
                                     first: nat, target: nat)
    requires first < BUFFER_SIZE && first < total && total + |s.incoming| == target + 1
    requires response + s.incoming == all
    requires Find(all, marker).Some? && |all| == Find(all, marker).value + |marker| + 1
    ensures TextIs(ReadBlock(response, total, s, marker).text, all, marker, Kept(total, s, first, target))
    decreases |s.incoming|
  {
    FoundWhen(response, s.incoming, all, marker);
    if total >= RESPONSE_LIMIT {
    } else if Find(response, marker).Some? {
      TextInPrefix(response, s.incoming, all, marker);
    } else {
      var more := ReadMore(response, total, s, all, marker);
      LandsMore(total, s, first, target);
      TextLands(more, total + Delivered(s, BUFFER_SIZE), After(s, BUFFER_SIZE), all, marker, first, target);
    }
  }

  /** The same from the start of the block. */
  lemma TextOfBlock(s: Stream, all: string, head: string, after: string, marker: string)
    requires s.incoming == all && OneBlock(all, head, after, marker)
    ensures |head| < BUFFER_SIZE && |all| > 0
    ensures TextIs(Exchange(s).text, after, marker,
              |all| < RESPONSE_LIMIT || (|all| == RESPONSE_LIMIT && Meets(0, s, |head|, |all| - 1)))
  {
    var total, response, rest := BothLoops(s, all, head, after, marker);
    TextOfSecondLoop(Exchange(s), s, all, |head|, total, response, rest, after, marker);
  }

  lemma TextOfSecondLoop(o: Outcome, s: Stream, all: string, first: nat, total: nat, response: string, rest: Stream,
                         after: string, marker: string)
    requires HandsOver(o, s, all, first, total, response, rest, after, marker)
    ensures first < BUFFER_SIZE && |all| > 0
    ensures TextIs(o.text, after, marker,
              |all| < RESPONSE_LIMIT || (|all| == RESPONSE_LIMIT && Meets(0, s, first, |all| - 1)))
  {
    assert Seen(0);
    TextLands(response, total, rest, after, marker, first, |all| - 1);
  }

  /** Whether the size limit lets a block through: below the limit always, at the limit when the receive calls
      stop just before its last byte, and above it never. */
  ghost predicate WithinLimit(subject: string, lines: seq<string>, schedule: seq<nat>)
    requires |BEGIN + subject| < BUFFER_SIZE
  {
    var size := |RenderBlock(subject, lines)|;
    size < 65535 || (size == 65535 && StopsShort(subject, lines, schedule))
  }

  /** A block the client can recognise comes out as its lines, or as too long. */
  lemma RecognisedOutcome(subject: string, lines: seq<string>, schedule: seq<nat>)
    requires OneLine(subject) && (forall l | l in lines :: OneLine(l)) && Delivers(subject, lines)
    requires |BEGIN + subject| < BUFFER_SIZE
    ensures Exchange(Stream(RenderBlock(subject, lines), schedule)).text ==
      if WithinLimit(subject, lines, schedule) then JoinLines(lines) else TOO_LONG
  {
    var all := RenderBlock(subject, lines);
    var after, marker := BlockWithText(subject, lines);
    TextOfBlock(Stream(all, schedule), all, BEGIN + subject, after, marker);
  }

  lemma BlockWithText(subject: string, lines: seq<string>) returns (after: string, marker: string)
    requires OneLine(subject) && (forall l | l in lines :: OneLine(l)) && Delivers(subject, lines)
    requires |BEGIN + subject| < BUFFER_SIZE
    ensures OneBlock(RenderBlock(subject, lines), BEGIN + subject, after, marker)
    ensures BlockText(after, marker) == JoinLines(lines)
  {
    after, marker := BlockIsOne(subject, lines);
    BodyAnswers(lines, EndLine(subject));
  }

  /** A block the client cannot recognise, one with a line that starts like its END line, comes out cut short
      there or as too long. */
  lemma UnrecognisedOutcome(subject: string, lines: seq<string>, schedule: seq<nat>)
    requires OneLine(subject) && (forall l | l in lines :: OneLine(l)) && lines != [] && !Delivers(subject, lines)
    requires |BEGIN + subject| < BUFFER_SIZE
    ensures var text := Exchange(Stream(RenderBlock(subject, lines), schedule)).text;
      text == TOO_LONG || |text| < |JoinLines(lines)|
  {
    var after, marker := CutBlock(subject, lines);
    BlockShape(subject, lines);
    EitherText(Stream(RenderBlock(subject, lines), schedule), BEGIN + subject, after, marker);
  }

  lemma CutBlock(subject: string, lines: seq<string>) returns (after: string, marker: string)
    requires OneLine(subject) && (forall l | l in lines :: OneLine(l)) && lines != [] && !Delivers(subject, lines)
    ensures after == EachLine(lines) + EndLine(subject) + "\n" && marker == "\n" + EndLine(subject)
    ensures Find(after, marker).Some? && |BlockText(after, marker)| < |JoinLines(lines)|
  {
    var body, endLine := JoinLines(lines), EndLine(subject);
    after, marker := EachLine(lines) + endLine + "\n", "\n" + endLine;
    LinesJoin(lines);
    assert after == body + ("\n" + endLine + "\n");
    EarlyMarker(lines, endLine);
  }

  lemma EitherText(s: Stream, head: string, after: string, marker: string)
    requires NewlineAt(s.incoming) == |head| < |s.incoming| && |head| < BUFFER_SIZE
    requires s.incoming[..|head|] == head && s.incoming[|head| + 1..] == after
    requires StartsWith(head, BEGIN) && MarkerFor(head) == marker && Find(after, marker).Some?
    ensures TextIs(Exchange(s).text, after, marker, true) || TextIs(Exchange(s).text, after, marker, false)
  {
    assert "" + s.incoming == s.incoming;
    FirstLineReads("", s);
    var f := ReadFirstLine("", s);
    OpenAt(s, f.received, f.rest, head);
    MarkerOrLimit(f.received[|head| + 1..], |f.received|, f.rest, after, marker);
  }

  /** A body that pushes its block to the limit is longer than the error. */
  lemma LongBody(subject: string, lines: seq<string>)
    requires |BEGIN + subject| < BUFFER_SIZE && |RenderBlock(subject, lines)| >= RESPONSE_LIMIT
    ensures lines != [] && |JoinLines(lines)| > |TOO_LONG|
  {
    if lines != [] {
      LinesJoin(lines);
    }
  }

  /** A BEGIN line that does not fit the buffer fails the exchange, whatever follows it. */
  lemma HeaderTooLong(subject: string, lines: seq<string>, schedule: seq<nat>)
    requires OneLine(subject) && |"BEGIN " + subject| >= 8192
    ensures Exchange(Stream(RenderBlock(subject, lines), schedule)).text == RECEIVE_FAILED
  {
    BlockShape(subject, lines);
    AnswerIgnoresSplits(Stream(RenderBlock(subject, lines), schedule));
  }

  /** What becomes of a block, whatever its size and however it is split: it comes out as its lines if and
      only if there is a line, none after the first starts with the END line, and the size limit lets it
      through. A block that only the limit stops comes out as too long. */
  lemma BlockOutcome(subject: string, lines: seq<string>, schedule: seq<nat>)
    requires OneLine(subject) && forall l | l in lines :: OneLine(l)
    requires |"BEGIN " + subject| < 8192
    ensures var text := Exchange(Stream(RenderBlock(subject, lines), schedule)).text;
      && (text == JoinLines(lines) <==> Delivers(subject, lines) && WithinLimit(subject, lines, schedule))
      && (Delivers(subject, lines) && !WithinLimit(subject, lines, schedule) ==> text == TOO_LONG)
  {
    if |RenderBlock(subject, lines)| < RESPONSE_LIMIT {
      BlockDelivered(subject, lines, schedule);
    } else {
      LongBody(subject, lines);
      if Delivers(subject, lines) {
        RecognisedOutcome(subject, lines, schedule);
      } else {
        UnrecognisedOutcome(subject, lines, schedule);
      }
    }
  }

  /** What becomes of a one-line answer with anything behind it, however it is split: the line, if the receive calls
      stop right behind its newline, and otherwise an error. */
  lemma LineOutcome(line: string, more: string, schedule: seq<nat>)
    requires OneLine(line) && |line| < 8192 && !StartsWith(line, "BEGIN ")
    ensures var s := Stream(line + ("\n" + more), schedule);
      Exchange(s).text == if Meets(0, s, |line|, |line| + 1) then line else "ERR MULTI_LINE_RESPONSE"
  {
    var all := line + ("\n" + more);
    LineShape(line, more, all);
    var received, rest := FirstLineOfStream(Stream(all, schedule), all, |line|, |line| + 1);
    LineTaken(Stream(all, schedule), line, received, rest);
    Landing(|received|, rest, |line|);
  }

  lemma LineShape(line: string, more: string, all: string)
    requires OneLine(line) && all == line + ("\n" + more)
    ensures all[..|line|] == line && NewlineAt(all) == |line| < |all|
  {
    assert all[..|line|] == line;
    FirstNewline(all, |line|);
  }

  lemma LineTaken(s: Stream, line: string, received: string, rest: Stream)
    requires s.incoming == received + rest.incoming && ReadFirstLine("", s) == Line(received, rest)
    requires NewlineAt(s.incoming) == |line| < |received| && s.incoming[..|line|] == line && !StartsWith(line, BEGIN)
    ensures Exchange(s).text == if |received| == |line| + 1 then line else MULTI_LINE
  {
    SameFirstLine(received, rest.incoming);
    ExchangeLine(s, received, rest);
  }

  lemma Landing(have: nat, s: Stream, first: nat)
    requires first < have && first < BUFFER_SIZE
    ensures Meets(have, s, first, first + 1) <==> have == first + 1
  {
    assert Seen(0);
  }

  /** The second loop fails exactly when the stream ends without the marker and below the limit. */
  lemma {:induction false} BlockOpen(response: string, total: nat, s: Stream, all: string, marker: string)
    requires response + s.incoming == all
    ensures ReadBlock(response, total, s, marker).open <==>
      Find(all, marker).Some? || total + |s.incoming| >= RESPONSE_LIMIT
    decreases |s.incoming|
  {
    FindInPrefix(response, s.incoming, marker);
    if total >= RESPONSE_LIMIT || Find(response, marker).Some? {
    } else if s.incoming == "" {
      assert all == response;
    } else {
      var n := Delivered(s, BUFFER_SIZE);
      Moved(response, s, BUFFER_SIZE);
      BlockOpen(response + s.incoming[..n], total + n, After(s, BUFFER_SIZE), all, marker);
    }
  }

  /** When the client stays connected, however the answer is split: exactly if its first line fits the buffer and, when
      it begins a block, the block's END line is there or the answer is too long. */
  lemma StaysOpen(s: Stream)
    ensures var all, p := s.incoming, NewlineAt(s.incoming);
      Exchange(s).open <==>
        && p < |all| && p < 8192
        && (StartsWith(all[..p], "BEGIN ") ==>
              Find(all[p + 1..], "\nEND" + all[..p][5..]).Some? || |all| >= 65535)
  {
    var all, p := s.incoming, NewlineAt(s.incoming);
    assert "" + all == all;
    FirstLineReads("", s);
    if p < |all| && p < 8192 {
      var f := ReadFirstLine("", s);
      OpenAfterLine(s, all, p, f.received, f.rest);
    }
  }

  lemma OpenAfterLine(s: Stream, all: string, p: nat, received: string, rest: Stream)
    requires s.incoming == all == received + rest.incoming && ReadFirstLine("", s) == Line(received, rest)
    requires p == NewlineAt(all) < |received|
    ensures Exchange(s).open <==>
      (StartsWith(all[..p], BEGIN) ==> Find(all[p + 1..], MarkerFor(all[..p])).Some? || |all| >= RESPONSE_LIMIT)
  {
    if StartsWith(all[..p], BEGIN) {
      OpenAt(s, received, rest, all[..p]);
      BlockOpen(received[p + 1..], |received|, rest, all[p + 1..], MarkerFor(all[..p]));
    } else {
      SameFirstLine(received, rest.incoming);
      LineOpen(s, received, rest);
    }
  }

  lemma LineOpen(s: Stream, received: string, rest: Stream)
    requires ReadFirstLine("", s) == Line(received, rest)
    requires NewlineAt(received) < |received| && !StartsWith(received[..NewlineAt(received)], BEGIN)
    ensures Exchange(s).open && Exchange(s).rest == rest
  {
  }
}
