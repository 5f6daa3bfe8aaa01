/** From the NUT server to the host: a LIST VAR answer, read, merged and cached, and the report that an
    importing USB/IP client then asks for. */
module EndToEnd {
  import opened Bytes
  import opened Wire
  import opened Parser
  import opened Reader
  import opened StatusTokens
  import opened UpsStatus
  import opened Reports
  import opened Control
  import opened Engine
  import opened EngineMemory
  import opened EngineStream
  import opened EngineReplies
  import opened Exported
  import opened Enumeration
  import opened WireRules
  import opened Refresh
  import Nut = NutClient
  import opened NutBlocks
  import opened NutVars
  import opened NutRoundTrip
  import opened NutLimits
  import Polling = UpsDevice
  import opened HidReadings
  import opened HidBits
  import opened StatusReport

  /** What `get_ups_vars` makes of the server's listing `vs`, received in the pieces of `schedule`. */
  function ReadListing(ups: string, vs: seq<Variable>, schedule: seq<nat>): map<string, string> {
    var all := RenderBlock(ListSubject(ups), RenderLines(ups, vs));
    Parsed(Nut.Exchange(Nut.Stream(all, schedule)).text)
  }

  /** A variable map the listing carries whole: every value survives and the size limit lets the block through. */
  ghost predicate Carries(ups: string, vs: seq<Variable>, m: map<string, string>, schedule: seq<nat>) {
    && NutRoundTrip.Word(ups) && Lists(vs, m) && (forall v | v in vs :: Plain(v) && Carried(v))
    && |Nut.BEGIN + ListSubject(ups)| < Nut.BUFFER_SIZE
    && WithinLimit(ListSubject(ups), RenderLines(ups, vs), schedule)
  }

  /** A poll that asks for everything and gets the listing: a minute after the last one, or for another status. */
  ghost predicate PollsListing(before: Polling.Cache, p: Polling.Poll, stod: Stod, after: Polling.Cache,
                               list: map<string, string>) {
    && (p.now - before.lastFull >= 60_000 || p.nut.status != before.lastStatus)
    && p.nut.list == list && Polling.Polled(before, p, stod, after)
  }

  /** A request for report 2, as an input or a feature report, with room for all of it. */
  predicate AsksForReport(b: seq<Byte>) {
    && |b| == 48 && b[..4] == [0, 0, 0, 1] && b[12..16] == [0, 0, 0, 1] && b[16..20] == [0, 0, 0, 0]
    && b[41] == 1 && b[42] == 2 && (b[43] == 1 || b[43] == 3) && Little(b[46], b[47]) >= 23
  }

  /** The status after such a poll has the listed values, and the old ones where nothing usable was listed. */
  lemma ListingIsStored(ups: string, vs: seq<Variable>, m: map<string, string>, schedule: seq<nat>,
                        before: Polling.Cache, p: Polling.Poll, stod: Stod, after: Polling.Cache)
    requires Carries(ups, vs, m, schedule) && PollsListing(before, p, stod, after, ReadListing(ups, vs, schedule))
    ensures Refreshed(before.status, Polling.WithStatus(m, p.nut.status), stod, after.status)
    ensures after.lastStatus == p.nut.status && after.lastFull == p.now
  {
    ListVarRoundTrip(ups, vs, m, schedule);
    Polling.PollRule(before, p, stod, after);
  }

  /** The data that goes back is the report of the status at that moment. */
  lemma ReportAnswered(config: Config, status: Status, pending: set<U32>, b: seq<Byte>)
    requires AsksForReport(b)
    ensures |FullReport(status, 2)| == 23 && RequestLength(b) == 48
    ensures AnswerTo(config, status, pending, b) == Success(b[4..8], b[28..32], FullReport(status, 2))
  {
    var r := b[40..48];
    assert r[1] == b[41] && r[2] == b[42] && r[3] == b[43] && r[6] == b[46] && r[7] == b[47];
    assert |FullReport(status, 2)| == 23;
  }

  /** An importing connection with nothing buffered. */
  predicate Idle(s: State, c: nat) {
    Open(s, c) && s.clients[c].parser.phase == Imported && s.clients[c].parser.buf == []
  }

  /** Connection `c` was written one more reply, success with the number of its request, which carries `data` and
      which a client reads back whatever follows it. */
  ghost predicate OneMoreReply(s: State, t: State, c: nat, b: seq<Byte>, data: seq<Byte>, isOut: U32 -> bool) {
    && |b| == 48 && |data| == 23 && c in s.logs && c in t.logs
    && var reply := Success(b[4..8], b[28..32], data);
       && Written(t.logs[c]) == Written(s.logs[c]) + reply
       && forall more :: ReadUsb(reply + more, isOut) == Got(RetSubmit(NumberAt(b, 4), NumberAt(b, 28), data), more)
  }

  lemma ReplyRead(b: seq<Byte>, data: seq<Byte>, more: seq<Byte>, isOut: U32 -> bool)
    requires |b| == 48 && |data| < 0x1_0000 && !isOut(NumberAt(b, 4))
    ensures ReadUsb(Success(b[4..8], b[28..32], data) + more, isOut) ==
      Got(RetSubmit(NumberAt(b, 4), NumberAt(b, 28), data), more)
  {
    SameBytes(b, 4);
    SameBytes(b, 28);
    SuccessBytes(NumberAt(b, 4), NumberAt(b, 28), data);
    ReadEncodedSubmit(NumberAt(b, 4), NumberAt(b, 28), data, more, isOut);
  }

  /** The request is answered, in whatever pieces it arrives. */
  lemma RequestAnswered(config: Config, t: State, c: nat, b: seq<Byte>, chunks: seq<seq<Byte>>)
    requires t.device == UpsDevice(config) && Idle(t, c) && c in t.logs && AsksForReport(b) && Join(chunks) == b
    ensures Writes(t, Run(t, Recvs(c, chunks)), c, Success(b[4..8], b[28..32], FullReport(t.status, 2)))
  {
    assert [] + b == b;
    AnySplitting(t, c, chunks);
    ReportAnswered(config, t.status, t.clients[c].pending.Keys, b);
    RequestRule(config, t, c, b, b);
  }

  lemma RepliedOnce(s: State, t: State, c: nat, b: seq<Byte>, data: seq<Byte>, isOut: U32 -> bool)
    requires |b| == 48 && |data| == 23 && !isOut(NumberAt(b, 4)) && Writes(s, t, c, Success(b[4..8], b[28..32], data))
    ensures OneMoreReply(s, t, c, b, data, isOut)
  {
    forall more
      ensures ReadUsb(Success(b[4..8], b[28..32], data) + more, isOut) ==
        Got(RetSubmit(NumberAt(b, 4), NumberAt(b, 28), data), more)
    {
      ReplyRead(b, data, more, isOut);
    }
  }

  lemma ReportWritten(config: Config, s: State, now: Status, c: nat, b: seq<Byte>, chunks: seq<seq<Byte>>,
                      isOut: U32 -> bool)
    requires s.device == UpsDevice(config) && Idle(s, c) && c in s.logs
    requires AsksForReport(b) && Join(chunks) == b && !isOut(NumberAt(b, 4))
    ensures OneMoreReply(s, Run(Step(s, Poll(now)), Recvs(c, chunks)), c, b, FullReport(now, 2), isOut)
  {
    var t := Step(s, Poll(now));
    RequestAnswered(config, t, c, b, chunks);
    RepliedOnce(s, Run(t, Recvs(c, chunks)), c, b, FullReport(now, 2), isOut);
  }

  /** The report shows a status: every reading where a host looks for it, and each flag as the tokens announced and the
      thresholds have it. */
  ghost predicate ShowsStatus(data: seq<Byte>, now: Status, announced: string) {
    && |data| == 23 && data[0] == 2 && ReadsStatus(Declared(), data, now) && MeasuresStatus(Declared(), data, now)
    && (forall k: nat | k < 16 :: BitAt(data, 168 + k) == BitsFromTokens(Tokens(announced), now)[k])
  }

  lemma ReportShows(announced: string, now: Status)
    requires now.power == ParseStatus(announced)
    ensures ShowsStatus(FullReport(now, 2), now, announced)
  {
    var data := FullReport(now, 2);
    ReadingsAreFound(now);
    QuantitiesOfReport(now);
    forall k: nat | k < 16 ensures BitAt(data, 168 + k) == BitsFromTokens(Tokens(announced), now)[k] {
      StatusBitsFollowTokens(now, announced, k);
    }
  }

  /** In any reachable state of the server: `m` is listed by the NUT server in any order and received in any
      pieces, the poll stores it, and a client on an importing connection asks for report 2 with these 48 bytes, in
      any pieces. Then the client is written one more reply, reads a report out of it, and finds in it the readings
      and flags of a status that holds the listed values. */
  lemma HostSeesListing(config: Config, status: Status, es: seq<Event>, s: State, c: nat, b: seq<Byte>,
                        chunks: seq<seq<Byte>>, ups: string, vs: seq<Variable>, m: map<string, string>,
                        schedule: seq<nat>, before: Polling.Cache, p: Polling.Poll, stod: Stod, after: Polling.Cache,
                        isOut: U32 -> bool)
    returns (data: seq<Byte>)
    requires s == Run(Init(UpsDevice(config), status), es) && Idle(s, c) && before.status == s.status
    requires AsksForReport(b) && Join(chunks) == b && !isOut(NumberAt(b, 4))
    requires Carries(ups, vs, m, schedule) && PollsListing(before, p, stod, after, ReadListing(ups, vs, schedule))
    ensures OneMoreReply(s, Run(Step(s, Poll(after.status)), Recvs(c, chunks)), c, b, data, isOut)
    ensures Refreshed(before.status, Polling.WithStatus(m, p.nut.status), stod, after.status)
    ensures ShowsStatus(data, after.status, Polling.WithStatus(m, p.nut.status)["ups.status"])
  {
    data := FullReport(after.status, 2);
    ListingIsStored(ups, vs, m, schedule, before, p, stod, after);
    ReportShows(Polling.WithStatus(m, p.nut.status)["ups.status"], after.status);
    Reachable(config, status, es, c);
    ReportWritten(config, s, after.status, c, b, chunks, isOut);
  }

  lemma Reachable(config: Config, status: Status, es: seq<Event>, c: nat)
    requires c in Run(Init(UpsDevice(config), status), es).clients
    ensures var s := Run(Init(UpsDevice(config), status), es); c in s.logs && s.device == UpsDevice(config)
  {
    var s := Init(UpsDevice(config), status);
    UpsIsGood(config);
    InitSound(UpsDevice(config), status);
    RunSound(s, es);
    RunAgrees(s, es);
    assert Agrees(Run(s, es), c);
  }
}
