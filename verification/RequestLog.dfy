/** The life of interrupt requests as a connection's log tells it: a first-in first-out queue with a delay. */
module RequestLog {
  import opened Bytes
  import opened Wire
  import opened Parser
  import opened Engine

  datatype Request = Request(seqnum: U32, at: nat, timer: nat)

  /** The interrupt requests still waiting, oldest first; whether a close was requested; whether the
      connection is gone. */
  datatype Tracker = Tracker(queue: seq<Request>, hung: bool, ended: bool)

  predicate Waiting(q: seq<Request>, n: U32) {
    exists k :: 0 <= k < |q| && q[k].seqnum == n
  }

  /** The first place from `k` on of a request with number `n`, or the length of the queue. */
  function PositionFrom(q: seq<Request>, n: U32, k: nat): (p: nat)
    requires k <= |q|
    ensures k <= p <= |q| && (p < |q| ==> q[p].seqnum == n)
    ensures forall j | k <= j < p :: q[j].seqnum != n
    decreases |q| - k
  {
    if k == |q| || q[k].seqnum == n then k else PositionFrom(q, n, k + 1)
  }

  function Position(q: seq<Request>, n: U32): nat {
    PositionFrom(q, n, 0)
  }

  function Removed(q: seq<Request>, k: nat): seq<Request>
    requires k < |q|
  {
    q[..k] + q[k + 1..]
  }

  function Without(q: seq<Request>, n: U32): seq<Request> {
    var k := Position(q, n);
    if k < |q| then Removed(q, k) else q
  }

  predicate IsInterrupt(cmd: Command) {
    cmd.Submit? && InterruptEndpoint(cmd.header.ep)
  }

  /** A reply of the right kind, with the request's own sequence number. */
  predicate Answers(cmd: Command, reply: Reply) {
    match cmd
    case Devlist => reply.RepDevlist?
    case Import(busid) => reply.RepImport? && (reply.status == 0 <==> KnownBusid(busid))
    case Submit(h, _) =>
      !IsInterrupt(cmd) && reply.RetSubmit? && reply.seqnum == h.seqnum && reply.startFrame == h.startFrame
    case Unlink(seqnum, _) => reply.RetUnlink? && reply.seqnum == seqnum
    case OtherUsb(_, seqnum) => reply == RetOther(seqnum)
    case Rejected => false
  }

  /** An UNLINK that found its target. */
  predicate Unlinks(e: Entry, n: U32) {
    e.Answered? && e.cmd.Unlink? && e.cmd.target == n && e.reply.RetUnlink? && e.reply.result == -ECONNRESET
  }

  /** What may happen next. */
  function Follow(t: Tracker, e: Entry): Option<Tracker> {
    match e
    case Answered(cmd, reply) =>
      if t.hung || !Answers(cmd, reply) then None
      else if !cmd.Unlink? then Some(t)
      else if reply.result != (if Waiting(t.queue, cmd.target) then -ECONNRESET else 0) then None
      else Some(t.(queue := Without(t.queue, cmd.target)))
    case Parked(cmd, timer, at) =>
      if t.hung || !IsInterrupt(cmd) || Waiting(t.queue, cmd.header.seqnum) then None
      else Some(t.(queue := t.queue + [Request(cmd.header.seqnum, at, timer)]))
    case Refused(cmd) => if t.hung || cmd != Rejected then None else Some(t)
    case Nak(n, at) => if t.hung then None else Served(t, n, at)
    case Swallowed(n, at) => if !t.hung || t.ended then None else Served(t, n, at)
    case HungUp => if t.hung then None else Some(t.(hung := true))
    case Dropped(ns) =>
      if !t.hung || t.ended || ns != (set r | r in t.queue :: r.seqnum) then None else Some(Tracker([], true, true))
  }

  /** Only the oldest waiting request is served, and only after the delay. */
  function Served(t: Tracker, n: U32, at: nat): Option<Tracker> {
    if t.queue != [] && t.queue[0].seqnum == n && at >= t.queue[0].at + NAK_DELAY then
      Some(t.(queue := t.queue[1..]))
    else None
  }

  function Replay(log: seq<Entry>): Option<Tracker>
    decreases |log|
  {
    if log == [] then Some(Tracker([], false, false)) else
    match Replay(log[..|log| - 1])
    case None => None
    case Some(t) => Follow(t, log[|log| - 1])
  }

  predicate Legal(log: seq<Entry>) {
    Replay(log).Some?
  }

  lemma ReplayNext(log: seq<Entry>, e: Entry)
    ensures Replay(log + [e]) == match Replay(log) case None => None case Some(t) => Follow(t, e)
  {
  }

  predicate Distinct(q: seq<Request>) {
    forall j, k :: 0 <= j < k < |q| ==> q[j].seqnum != q[k].seqnum
  }

  lemma FollowDistinct(t: Tracker, e: Entry)
    requires Distinct(t.queue) && Follow(t, e).Some?
    ensures Distinct(Follow(t, e).value.queue)
  {
  }

  /** Waiting requests have distinct sequence numbers. */
  lemma {:induction false} ReplayDistinct(log: seq<Entry>)
    requires Legal(log)
    ensures Distinct(Replay(log).value.queue)
    decreases |log|
  {
    if log == [] {
    } else {
      ReplayDistinct(log[..|log| - 1]);
      FollowDistinct(Replay(log[..|log| - 1]).value, log[|log| - 1]);
    }
  }

  function One(b: bool): nat {
    if b then 1 else 0
  }

  /** How often interrupt requests with number `n` were accepted. */
  function ParkedCount(log: seq<Entry>, n: U32): nat {
    if log == [] then 0 else
    var e := log[|log| - 1];
    ParkedCount(log[..|log| - 1], n) + One(e.Parked? && e.cmd.Submit? && e.cmd.header.seqnum == n)
  }

  /** How often they were answered with a NAK. */
  function NakCount(log: seq<Entry>, n: U32): nat {
    if log == [] then 0 else
    NakCount(log[..|log| - 1], n) + One(log[|log| - 1].Nak? && log[|log| - 1].seqnum == n)
  }

  /** How often an UNLINK took them back. */
  function UnlinkedCount(log: seq<Entry>, n: U32): nat {
    if log == [] then 0 else UnlinkedCount(log[..|log| - 1], n) + One(Unlinks(log[|log| - 1], n))
  }

  /** How often they went down with the connection: their timer fired while the socket was closing, or
      the close callback dropped them. */
  function LostCount(log: seq<Entry>, n: U32): nat {
    if log == [] then 0 else
    var e := log[|log| - 1];
    LostCount(log[..|log| - 1], n) + One((e.Swallowed? && e.seqnum == n) || (e.Dropped? && n in e.seqnums))
  }

  lemma FollowBalance(t: Tracker, e: Entry, n: U32)
    requires Distinct(t.queue) && Follow(t, e).Some?
    ensures One(Waiting(t.queue, n)) + One(e.Parked? && e.cmd.Submit? && e.cmd.header.seqnum == n) ==
      One(Waiting(Follow(t, e).value.queue, n)) + One(e.Nak? && e.seqnum == n) + One(Unlinks(e, n)) +
      One((e.Swallowed? && e.seqnum == n) || (e.Dropped? && n in e.seqnums))
  {
    var q, r := t.queue, Follow(t, e).value.queue;
    match e
    case Answered(cmd, reply) =>
      if cmd.Unlink? {
        UnlinkBalance(q, cmd.target, n);
      }
    case Parked(cmd, timer, at) =>
      assert r[|q|].seqnum == cmd.header.seqnum;
      assert forall k | 0 <= k < |q| :: r[k] == q[k];
    case Nak(m, at) => HeadBalance(q, n);
    case Swallowed(m, at) => HeadBalance(q, n);
    case Dropped(ns) =>
      assert Waiting(q, n) <==> n in ns;
    case _ =>
  }

  lemma HeadBalance(q: seq<Request>, n: U32)
    requires Distinct(q) && q != []
    ensures One(Waiting(q, n)) == One(Waiting(q[1..], n)) + One(q[0].seqnum == n)
  {
  }

  lemma UnlinkBalance(q: seq<Request>, target: U32, n: U32)
    requires Distinct(q)
    ensures Waiting(Without(q, target), n) <==> Waiting(q, n) && n != target
  {
    var at := Position(q, target);
    if at < |q| { RemovedBalance(q, at, n); }
  }

  lemma RemovedBalance(q: seq<Request>, at: nat, n: U32)
    requires Distinct(q) && at < |q|
    ensures Waiting(Removed(q, at), n) <==> Waiting(q, n) && n != q[at].seqnum
  {
    var r := Removed(q, at);
    if Waiting(q, n) && n != q[at].seqnum {
      var k :| 0 <= k < |q| && q[k].seqnum == n;
      assert r[if k < at then k else k - 1].seqnum == n;
    }
    if Waiting(r, n) {
      var k :| 0 <= k < |r| && r[k].seqnum == n;
      var j := if k < at then k else k + 1;
      assert q[j] == r[k];
      assert j < at || at < j;
    }
  }

  /** Exactly once: of the interrupt requests accepted under a number, every one was answered by one NAK,
      taken back by one UNLINK, lost with the connection, or is the one still waiting. */
  lemma {:induction false} ExactlyOnce(log: seq<Entry>, n: U32)
    requires Legal(log)
    ensures ParkedCount(log, n) ==
      NakCount(log, n) + UnlinkedCount(log, n) + LostCount(log, n) + One(Waiting(Replay(log).value.queue, n))
    decreases |log|
  {
    if log == [] {
    } else {
      var before := log[..|log| - 1];
      ExactlyOnce(before, n);
      ReplayDistinct(before);
      FollowBalance(Replay(before).value, log[|log| - 1], n);
    }
  }

  /** The last request in arrival order with number `n`. */
  function LastPosition(q: seq<Request>, n: U32): (k: nat)
    ensures k <= |q| && (k < |q| ==> q[k].seqnum == n)
    ensures forall j | k < j < |q| :: q[j].seqnum != n
    ensures k == |q| ==> forall j | 0 <= j < |q| :: q[j].seqnum != n
  {
    if q == [] then 0
    else if q[|q| - 1].seqnum == n then |q| - 1
    else
      var k := LastPosition(q[..|q| - 1], n);
      if k == |q| - 1 then |q| else k
  }

  /** What an entry does to the arrival order. */
  function Surviving(before: seq<Request>, e: Entry): seq<Request> {
    if e.Parked? && e.cmd.Submit? then before + [Request(e.cmd.header.seqnum, e.at, e.timer)]
    else if e.Answered? && e.cmd.Unlink? && Unlinks(e, e.cmd.target)
         && LastPosition(before, e.cmd.target) < |before| then
      Removed(before, LastPosition(before, e.cmd.target))
    else if e.Dropped? && |e.seqnums| <= |before| then before[..|before| - |e.seqnums|]
    else before
  }

  /** The interrupt requests in arrival order, without those taken back by an UNLINK or dropped at the
      end: said of the log alone, with no queue. */
  function Survivors(log: seq<Entry>): seq<Request>
    decreases |log|
  {
    if log == [] then [] else Surviving(Survivors(log[..|log| - 1]), log[|log| - 1])
  }

  datatype Firing = Firing(seqnum: U32, at: nat)

  /** The timers that fired, in order. */
  function Fired(log: seq<Entry>): seq<Firing>
    decreases |log|
  {
    if log == [] then [] else
    var before, e := Fired(log[..|log| - 1]), log[|log| - 1];
    match e
    case Nak(n, at) => before + [Firing(n, at)]
    case Swallowed(n, at) => before + [Firing(n, at)]
    case _ => before
  }

  /** Requests and firings go together: same numbers in the same order, each firing after the delay. */
  predicate InOrder(rs: seq<Request>, fs: seq<Firing>) {
    |rs| == |fs| && forall k | 0 <= k < |rs| :: fs[k].seqnum == rs[k].seqnum && fs[k].at >= rs[k].at + NAK_DELAY
  }

  lemma {:induction false} QueueSize(q: seq<Request>)
    requires Distinct(q)
    ensures |set r | r in q :: r.seqnum| == |q|
  {
    if q == [] {
    } else {
      var last, rest := q[|q| - 1], q[..|q| - 1];
      QueueSize(rest);
      var a, b := set r | r in q :: r.seqnum, set r | r in rest :: r.seqnum;
      assert a == b + {last.seqnum} by {
        assert forall r | r in q :: r in rest || r == last;
      }
    }
  }

  /** Unlinking a waiting request takes the same request out of the arrival order. */
  lemma LastIsWaiting(done: seq<Request>, q: seq<Request>, n: U32)
    requires Distinct(q) && Waiting(q, n)
    ensures LastPosition(done + q, n) == |done| + Position(q, n) < |done + q|
    ensures Removed(done + q, |done| + Position(q, n)) == done + Without(q, n)
  {
    var p, all := Position(q, n), done + q;
    assert all[|done| + p] == q[p];
    forall m | |done| + p < m < |all| ensures all[m].seqnum != n {
      assert all[m] == q[m - |done|];
    }
    assert Removed(all, |done| + p) == done + Removed(q, p);
  }

  /** One entry moves at most the oldest waiting request to the ones already served. */
  lemma SurvivingQueue(done: seq<Request>, t: Tracker, e: Entry)
    requires Distinct(t.queue) && Follow(t, e).Some?
    ensures var q := Follow(t, e).value.queue;
      Surviving(done + t.queue, e) ==
        if e.Nak? || e.Swallowed? then done + [t.queue[0]] + q else done + q
  {
    var q := t.queue;
    match e
    case Answered(cmd, reply) =>
      if cmd.Unlink? {
        UnlinkSurvives(done, q, e);
      }
    case Parked(cmd, timer, at) =>
      var r := Request(cmd.header.seqnum, at, timer);
      assert done + q + [r] == done + (q + [r]);
    case Nak(n, at) => assert done + q == done + [q[0]] + q[1..];
    case Swallowed(n, at) => assert done + q == done + [q[0]] + q[1..];
    case Dropped(ns) =>
      DropSurvives(done, q, ns);
    case _ =>
  }

  lemma UnlinkSurvives(done: seq<Request>, q: seq<Request>, e: Entry)
    requires Distinct(q) && e.Answered? && e.cmd.Unlink? && e.reply.RetUnlink?
    requires e.reply.result == if Waiting(q, e.cmd.target) then -ECONNRESET else 0
    ensures Surviving(done + q, e) == done + Without(q, e.cmd.target)
  {
    if Waiting(q, e.cmd.target) {
      LastIsWaiting(done, q, e.cmd.target);
    }
  }

  lemma DropSurvives(done: seq<Request>, q: seq<Request>, ns: set<U32>)
    requires Distinct(q) && ns == set r | r in q :: r.seqnum
    ensures |ns| <= |done + q| && (done + q)[..|done + q| - |ns|] == done + []
  {
    QueueSize(q);
  }

  lemma FifoStep(log: seq<Entry>, e: Entry, done: seq<Request>) returns (more: seq<Request>)
    requires Legal(log + [e]) && Legal(log) && InOrder(done, Fired(log))
    requires Survivors(log) == done + Replay(log).value.queue
    ensures InOrder(more, Fired(log + [e]))
    ensures Survivors(log + [e]) == more + Replay(log + [e]).value.queue
  {
    var t := Replay(log).value;
    ReplayNext(log, e);
    ReplayDistinct(log);
    SurvivingQueue(done, t, e);
    assert (log + [e])[..|log|] == log;
    more := if e.Nak? || e.Swallowed? then done + [t.queue[0]] else done;
  }

  /** First in, first out: the requests that were neither taken back nor dropped are served in the order
      they arrived, each at least 500 ms after its arrival; the ones not served yet are the queue. */
  lemma {:induction false} FirstInFirstOut(log: seq<Entry>) returns (done: seq<Request>)
    requires Legal(log)
    ensures InOrder(done, Fired(log)) && Survivors(log) == done + Replay(log).value.queue
    decreases |log|
  {
    if log == [] {
      done := [];
    } else {
      var before, e := log[..|log| - 1], log[|log| - 1];
      assert before + [e] == log;
      done := FirstInFirstOut(before);
      done := FifoStep(before, e, done);
    }
  }

  lemma {:induction false} LegalPrefix(log: seq<Entry>, n: nat)
    requires Legal(log) && n <= |log|
    ensures Legal(log[..n])
    decreases |log|
  {
    if n < |log| {
      var before := log[..|log| - 1];
      assert before[..n] == log[..n];
      LegalPrefix(before, n);
    } else {
      assert log[..n] == log;
    }
  }

  /** A cancelled request is never answered: after an UNLINK has found number `n`, no NAK for `n` comes
      before another request with that number. */
  lemma {:induction false} CancelledNeverAnswered(log: seq<Entry>, n: U32, i: nat, j: nat)
    requires Legal(log) && i < j < |log| && Unlinks(log[i], n)
    requires forall k | i < k < j :: !(log[k].Parked? && log[k].cmd.Submit? && log[k].cmd.header.seqnum == n)
    ensures !(log[j].Nak? && log[j].seqnum == n)
  {
    GoneAfter(log, n, i, j);
    LegalPrefix(log, j);
    LegalPrefix(log, j + 1);
    assert log[..j + 1] == log[..j] + [log[j]];
    ReplayNext(log[..j], log[j]);
  }

  lemma {:induction false} GoneAfter(log: seq<Entry>, n: U32, i: nat, j: nat)
    requires Legal(log) && i < j < |log| && Unlinks(log[i], n)
    requires forall k | i < k < j :: !(log[k].Parked? && log[k].cmd.Submit? && log[k].cmd.header.seqnum == n)
    ensures Legal(log[..j]) && !Waiting(Replay(log[..j]).value.queue, n)
    decreases j
  {
    LegalPrefix(log, j);
    LegalPrefix(log, j - 1);
    var before, e := log[..j - 1], log[j - 1];
    assert log[..j] == before + [e];
    ReplayNext(before, e);
    ReplayDistinct(before);
    FollowBalance(Replay(before).value, e, n);
    if i == j - 1 {
    } else {
      GoneAfter(log, n, i, j - 1);
    }
  }

  /** A RET_UNLINK carries -ECONNRESET exactly when, of the requests accepted under its target's number so
      far, one has had no answer, no UNLINK and no close yet; otherwise it carries 0. */
  lemma UnlinkTellsPending(log: seq<Entry>, i: nat)
    requires Legal(log) && i < |log| && log[i].Answered? && log[i].cmd.Unlink?
    ensures var before, cmd := log[..i], log[i].cmd;
      var n := cmd.target;
      var done := NakCount(before, n) + UnlinkedCount(before, n) + LostCount(before, n);
      && done <= ParkedCount(before, n) <= done + 1
      && log[i].reply == RetUnlink(cmd.seqnum, if ParkedCount(before, n) > done then -ECONNRESET else 0)
  {
    LegalPrefix(log, i);
    LegalPrefix(log, i + 1);
    assert log[..i + 1] == log[..i] + [log[i]];
    ReplayNext(log[..i], log[i]);
    ExactlyOnce(log[..i], log[i].cmd.target);
  }
}
