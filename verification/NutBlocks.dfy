/** BEGIN/END blocks as a NUT server writes them (RFC 9271, section 4.2), and what the client makes of them. */
module NutBlocks {
  import opened Strings
  import opened NutClient

  function EachLine(lines: seq<string>): string {
    if lines == [] then "" else lines[0] + "\n" + EachLine(lines[1..])
  }

  function EndLine(subject: string): string {
    "END " + subject
  }

  /** A block about `subject`, such as "LIST VAR ups". */
  function RenderBlock(subject: string, lines: seq<string>): string {
    "BEGIN " + subject + "\n" + (EachLine(lines) + EndLine(subject) + "\n")
  }

  predicate OneLine(s: string) {
    '\n' !in s
  }

  /** After a non-empty body the END line is on a line of its own. */
  lemma {:induction false} LinesJoin(lines: seq<string>)
    requires lines != []
    ensures EachLine(lines) == JoinLines(lines) + "\n"
  {
    if |lines| <= 1 {
    } else {
      LinesJoin(lines[1..]);
    }
  }

  /** Text that starts with a newline-free pattern, when the text's own first line is `first`. */
  lemma {:induction false} StartsInLine(first: string, after: string, pat: string)
    requires OneLine(pat) && (after == "" || after[0] == '\n')
    ensures StartsWith(first + after, pat) <==> StartsWith(first, pat)
  {
    var s := first + after;
    if pat == "" {
    } else {
      assert pat[0] in pat;
      HeadAndTail(s, pat);
      if first == "" {
        assert s == after;
      } else {
        HeadAndTail(first, pat);
        assert s[1..] == first[1..] + after;
        assert forall c | c in pat[1..] :: c in pat;
        StartsInLine(first[1..], after, pat[1..]);
      }
    }
  }

  lemma HeadAndTail(s: string, pat: string)
    requires pat != ""
    ensures StartsWith(s, pat) <==> s != "" && s[0] == pat[0] && StartsWith(s[1..], pat[1..])
  {
  }

  /** A newline and a pattern occur at a line break exactly when the next line starts with the pattern. */
  lemma OccursAtBreak(a: string, more: string, pat: string)
    ensures Occurs(a + ("\n" + more), "\n" + pat, |a|) <==> StartsWith(more, pat)
  {
    var tail := "\n" + more;
    ShiftOccurs(a, tail, "\n" + pat, 0);
    HeadAndTail(tail, "\n" + pat);
    assert tail[1..] == more && ("\n" + pat)[1..] == pat;
    assert 0 + |"\n" + pat| <= |tail| ==> tail[0..0 + |"\n" + pat|] == tail[..|"\n" + pat|];
  }

  /** The END marker occurs inside a body exactly where a later line starts with the END line. */
  lemma {:induction false} EarlyMarker(lines: seq<string>, endLine: string)
    requires lines != [] && OneLine(endLine) && forall l | l in lines :: OneLine(l)
    ensures var body := JoinLines(lines);
      (forall j: nat | j < |body| :: !Occurs(body + ("\n" + endLine + "\n"), "\n" + endLine, j)) <==>
      (forall i | 1 <= i < |lines| :: !StartsWith(lines[i], endLine))
    decreases |lines|
  {
    var body, tail, marker := JoinLines(lines), "\n" + endLine + "\n", "\n" + endLine;
    var first := lines[0];
    assert first in lines;
    if |lines| == 1 {
      NotInLine(first, tail, marker);
    } else {
      var rest := lines[1..];
      var more := JoinLines(rest) + tail;
      assert body + tail == first + ("\n" + more) == first + "\n" + more;
      EarlyMarker(rest, endLine);
      NotInLine(first, "\n" + more, marker);
      LaterLines(first, more, marker);
      SecondLine(first, rest, endLine);
      ByParts(lines, body + tail, more, marker, endLine, first);
    }
  }

  /** A pattern that begins with a newline does not occur inside a line. */
  lemma NotInLine(first: string, after: string, marker: string)
    requires OneLine(first) && marker != "" && marker[0] == '\n'
    ensures forall j: nat | j < |first| :: !Occurs(first + after, marker, j)
  {
  }

  lemma LaterLines(first: string, more: string, marker: string)
    ensures forall j: nat :: Occurs(first + "\n" + more, marker, j + (|first| + 1)) <==> Occurs(more, marker, j)
  {
  }

  lemma HeadDiffers(s: string, pat: string, j: nat)
    requires j < |s| && pat != "" && s[j] != pat[0]
    ensures !Occurs(s, pat, j)
  {
  }

  lemma ShiftOccurs(a: string, b: string, pat: string, j: nat)
    ensures Occurs(a + b, pat, j + |a|) <==> Occurs(b, pat, j)
  {
  }

  lemma SecondLine(first: string, rest: seq<string>, endLine: string)
    requires rest != [] && OneLine(endLine)
    ensures Occurs(first + "\n" + (JoinLines(rest) + ("\n" + endLine + "\n")), "\n" + endLine, |first|) <==>
      StartsWith(rest[0], endLine)
  {
    var tail := "\n" + endLine + "\n";
    var more := JoinLines(rest) + tail;
    var after := if |rest| == 1 then tail else "\n" + JoinLines(rest[1..]) + tail;
    assert more == rest[0] + after;
    assert first + "\n" + more == first + ("\n" + more);
    StartsInLine(rest[0], after, endLine);
    OccursAtBreak(first, more, endLine);
  }

  /** Putting the positions before, at and after the first line break together. */
  lemma ByParts(lines: seq<string>, text: string, more: string, marker: string, endLine: string, first: string)
    requires |lines| > 1 && first == lines[0]
    requires forall j: nat | j < |first| :: !Occurs(text, marker, j)
    requires Occurs(text, marker, |first|) <==> StartsWith(lines[1], endLine)
    requires forall j: nat :: Occurs(text, marker, j + (|first| + 1)) <==> Occurs(more, marker, j)
    requires (forall j: nat | j < |JoinLines(lines[1..])| :: !Occurs(more, marker, j)) <==>
      (forall i | 1 <= i < |lines[1..]| :: !StartsWith(lines[1..][i], endLine))
    ensures (forall j: nat | j < |JoinLines(lines)| :: !Occurs(text, marker, j)) <==>
      (forall i | 1 <= i < |lines| :: !StartsWith(lines[i], endLine))
  {
    var shift := |first| + 1;
    var rest := lines[1..];
    assert |JoinLines(lines)| == shift + |JoinLines(rest)|;
    assert forall i | 1 <= i < |rest| :: rest[i] == lines[i + 1];
    if forall j: nat | j < |JoinLines(lines)| :: !Occurs(text, marker, j) {
      forall j: nat | j < |JoinLines(rest)| ensures !Occurs(more, marker, j) {
        assert !Occurs(text, marker, j + shift);
      }
      forall i | 1 <= i < |lines| ensures !StartsWith(lines[i], endLine) {
        if i > 1 {
          assert lines[i] == rest[i - 1];
        }
      }
    }
    if forall i | 1 <= i < |lines| :: !StartsWith(lines[i], endLine) {
      forall j: nat | j < |JoinLines(lines)| ensures !Occurs(text, marker, j) {
        if j > |first| {
          assert !Occurs(more, marker, j - shift);
        }
      }
    }
  }

  /** What the client should get for a block: its lines, unless there are none. */
  predicate Delivers(subject: string, lines: seq<string>) {
    lines != [] && forall i | 1 <= i < |lines| :: !StartsWith(lines[i], EndLine(subject))
  }

  /** How a rendered block looks to the client: its first line, the marker it derives, and the rest. */
  lemma BlockShape(subject: string, lines: seq<string>)
    requires OneLine(subject)
    ensures var all, head := RenderBlock(subject, lines), BEGIN + subject;
      && NewlineAt(all) == |head| < |all| && all[..|head|] == head && StartsWith(head, BEGIN)
      && MarkerFor(head) == "\n" + EndLine(subject)
      && all[|head| + 1..] == EachLine(lines) + EndLine(subject) + "\n"
  {
    var all, head := RenderBlock(subject, lines), BEGIN + subject;
    assert all == head + ("\n" + (EachLine(lines) + EndLine(subject) + "\n"));
    assert '\n' !in head;
    assert all[..|head|] == head;
    FirstNewline(all, |head|);
    assert head[..|BEGIN|] == BEGIN;
    assert head[5..] == " " + subject;
    assert MarkerFor(head) == "\n" + EndLine(subject);
  }

  /** For a block of lines whose header fits the buffer and whose size is within the limit, every split
      of it into receive calls gives back exactly the lines, if and only if there is at least one line
      and no line after the first starts with the END line. */
  lemma BlockDelivered(subject: string, lines: seq<string>, schedule: seq<nat>)
    requires OneLine(subject) && forall l | l in lines :: OneLine(l)
    requires |BEGIN + subject| < BUFFER_SIZE && |RenderBlock(subject, lines)| < RESPONSE_LIMIT
    ensures Exchange(Stream(RenderBlock(subject, lines), schedule)).text == JoinLines(lines) <==>
      Delivers(subject, lines)
  {
    var all := RenderBlock(subject, lines);
    AnswerIgnoresSplits(Stream(all, schedule)) by { BlockSettled(subject, lines); }
    BlockAnswers(subject, lines);
  }

  lemma BlockSettled(subject: string, lines: seq<string>)
    requires OneLine(subject) && |BEGIN + subject| < BUFFER_SIZE && |RenderBlock(subject, lines)| < RESPONSE_LIMIT
    ensures Settled(RenderBlock(subject, lines))
    ensures Answer(RenderBlock(subject, lines)) ==
      BlockText(EachLine(lines) + EndLine(subject) + "\n", "\n" + EndLine(subject))
  {
    BlockShape(subject, lines);
  }

  lemma BlockAnswers(subject: string, lines: seq<string>)
    requires OneLine(subject) && forall l | l in lines :: OneLine(l)
    requires |BEGIN + subject| < BUFFER_SIZE && |RenderBlock(subject, lines)| < RESPONSE_LIMIT
    ensures Answer(RenderBlock(subject, lines)) == JoinLines(lines) <==> Delivers(subject, lines)
  {
    BlockSettled(subject, lines);
    if lines == [] {
      EmptyBlock(EndLine(subject));
      assert JoinLines(lines) == "" && |RECEIVE_FAILED| > 0;
    } else {
      BodyAnswers(lines, EndLine(subject));
    }
  }

  lemma BodyAnswers(lines: seq<string>, endLine: string)
    requires lines != [] && OneLine(endLine) && forall l | l in lines :: OneLine(l)
    ensures BlockText(EachLine(lines) + endLine + "\n", "\n" + endLine) == JoinLines(lines) <==>
      forall i | 1 <= i < |lines| :: !StartsWith(lines[i], endLine)
  {
    LinesJoin(lines);
    Regroup(JoinLines(lines), endLine);
    BodyText(lines, endLine);
  }

  lemma Regroup(body: string, endLine: string)
    ensures body + "\n" + endLine + "\n" == body + ("\n" + endLine + "\n")
  {
  }

  /** The END line of an empty block is not preceded by a newline, so it is never recognised. The exchange
      fails because the streams of the model end; a server that stays connected leaves the client waiting. */
  lemma EmptyBlock(endLine: string)
    requires OneLine(endLine) && endLine != ""
    ensures BlockText(EachLine([]) + endLine + "\n", "\n" + endLine) == RECEIVE_FAILED
  {
    var text, marker := EachLine([]) + endLine + "\n", "\n" + endLine;
    assert text == endLine + "\n";
    assert endLine[0] in endLine;
    forall j: nat ensures !Occurs(text, marker, j) {
      if j == 0 {
        HeadDiffers(text, marker, 0);
      }
    }
  }

  lemma BodyText(lines: seq<string>, endLine: string)
    requires lines != [] && OneLine(endLine) && forall l | l in lines :: OneLine(l)
    ensures BlockText(JoinLines(lines) + ("\n" + endLine + "\n"), "\n" + endLine) == JoinLines(lines) <==>
      forall i | 1 <= i < |lines| :: !StartsWith(lines[i], endLine)
  {
    EarlyMarker(lines, endLine);
    MarkerAtEnd(JoinLines(lines), endLine);
    TextUpTo(JoinLines(lines), "\n" + endLine + "\n", "\n" + endLine);
  }

  lemma MarkerAtEnd(body: string, endLine: string)
    ensures Occurs(body + ("\n" + endLine + "\n"), "\n" + endLine, |body|)
  {
  }

  /** The text before a marker is the whole body exactly when the marker does not occur earlier. */
  lemma TextUpTo(body: string, tail: string, marker: string)
    requires Occurs(body + tail, marker, |body|)
    ensures BlockText(body + tail, marker) == body <==> forall j: nat | j < |body| :: !Occurs(body + tail, marker, j)
  {
  }
}
