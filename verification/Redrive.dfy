/**
 * Receiving moves messages that were received too often to the dead-letter queue, and scans again. When the loop
 * ends, and what it leaves and delivers.
 */
module Redrive {
  import opened Records
  import opened Sequences
  import opened Tables
  import opened QueueAttributes
  import opened Deliverable
  import opened DeliveryLaws
  import opened Plane
  import opened Integrity
  import opened Fates
  import opened MoveTasks

  function Over(cfg: Config, q: Queue): Message -> bool { (m: Message) => ShouldRedrive(cfg, q, m) }

  function NotIn(rows: set<int>): Message -> bool { (m: Message) => m.rowId !in rows }

  /** A scan finds nothing to redrive: its candidates are delivered. */
  ghost predicate Settled(cfg: Config, t: Tables, q: Queue, max: nat, now: int) {
    forall m :: m in CandidatesOf(t, q, max, now) ==> !Over(cfg, q)(m)
  }

  /** The rows one scan redrives. */
  ghost function OverRows(cfg: Config, t: Tables, q: Queue, max: nat, now: int): set<int> {
    RowIds(Filter(CandidatesOf(t, q, max, now), Over(cfg, q)))
  }

  /** One turn of the loop. */
  ghost function Round(cfg: Config, t: Tables, q: Queue, max: nat, now: int): Tables {
    match RedriveTarget(cfg, t, q)
    case Some(target) => RedriveRows(t, q.arn, target.id, OverRows(cfg, t, q, max, now), now)
    case None => t
  }

  ghost function AfterRounds(cfg: Config, t: Tables, q: Queue, max: nat, now: int, n: nat): Tables
    decreases n
  {
    if n == 0 then t else AfterRounds(cfg, Round(cfg, t, q, max, now), q, max, now, n - 1)
  }

  /** The dead-letter queue is there, and is another queue. */
  ghost predicate Diverts(cfg: Config, t: Tables, q: Queue) {
    RedriveTarget(cfg, t, q).Some? && RedriveTarget(cfg, t, q).value.id != q.id
  }

  // ---- redriving twice ------------------------------------------------------------------

  lemma RedriveTwice(t: Tables, arn: string, targetId: int, a: set<int>, b: set<int>, now: int)
    ensures RedriveRows(RedriveRows(t, arn, targetId, a, now), arn, targetId, b, now)
            == RedriveRows(t, arn, targetId, a + b, now)
  {
    var once := RedriveRows(t, arn, targetId, a, now);
    var twice, both := RedriveRows(once, arn, targetId, b, now), RedriveRows(t, arn, targetId, a + b, now);
    forall id | id in t.messages ensures twice.messages[id] == both.messages[id] {
      assert id in once.messages && id in twice.messages;
    }
    assert twice.messages == both.messages;
    assert twice.receipts == both.receipts;
  }

  lemma RedriveNone(t: Tables, arn: string, targetId: int, now: int)
    ensures RedriveRows(t, arn, targetId, {}, now) == t
  {
    assert RedriveRows(t, arn, targetId, {}, now).messages == t.messages;
    assert RedriveRows(t, arn, targetId, {}, now).receipts == t.receipts;
  }

  lemma TargetStays(cfg: Config, t: Tables, t': Tables, q: Queue)
    requires QueuesKeyed(cfg, t) && t'.queues == t.queues
    ensures RedriveTarget(cfg, t', q) == RedriveTarget(cfg, t, q)
  {
    if PolicyOf(cfg, q).Some? {
      var arn := PolicyOf(cfg, q).value.targetArn;
      if QueueByArn(t, arn).Some? {
        assert QueueByArn(t', arn).Some?;
        NamesFromUrls(cfg, QueueByArn(t, arn).value.name, QueueByArn(t', arn).value.name);
      }
    }
  }

  // ---- the listing after a redrive ---------------------------------------------------------

  lemma LiveAfterRedrive(t: Tables, arn: string, targetId: int, rows: set<int>, queueId: int, now: int)
    requires MessagesKeyed(t) && targetId != queueId
    ensures LiveOf(RedriveRows(t, arn, targetId, rows, now), queueId, now) == Filter(LiveOf(t, queueId, now), NotIn(rows))
  {
    var t', ms := RedriveRows(t, arn, targetId, rows, now), MessagesOf(t, queueId);
    RedriveRowsOnly(t, arn, targetId, rows, now);
    MessagesOfRows(t, queueId);
    FilterIncreasing(ms, NotIn(rows), SentBefore);
    MessagesOfUnique(t', queueId, Filter(ms, NotIn(rows)));
    FilterCommutes(ms, NotIn(rows), LiveAt(now));
  }

  /** The visible messages at or over the limit: the only ones a receive may redrive. */
  ghost function Redrivable(cfg: Config, t: Tables, q: Queue, now: int): set<int> {
    set id | id in t.messages && t.messages[id].queueId == q.id && Visible(t.messages[id], now) && Over(cfg, q)(t.messages[id])
  }

  lemma OverRowsRedrivable(cfg: Config, t: Tables, q: Queue, max: nat, now: int)
    requires MessagesKeyed(t)
    ensures OverRows(cfg, t, q, max, now) <= Redrivable(cfg, t, q, now)
    ensures Settled(cfg, t, q, max, now) <==> OverRows(cfg, t, q, max, now) == {}
  {
    var over := Filter(CandidatesOf(t, q, max, now), Over(cfg, q));
    CandidateRows(t, q, max, now);
    forall id | id in RowIds(over) ensures id in Redrivable(cfg, t, q, now) {
      var i := RowIdAt(over, id);
      assert over[i] in over;
    }
    assert Settled(cfg, t, q, max, now) <==> over == [] by {
      assert over != [] ==> over[0] in over;
    }
    assert over != [] ==> over[0].rowId in RowIds(over);
  }

  // ---- the rounds together -------------------------------------------------------------------

  /** The rows that have left after `n` rounds. */
  ghost function Left(cfg: Config, t: Tables, q: Queue, max: nat, now: int, n: nat): set<int>
    decreases n
  {
    if n == 0 then {}
    else OverRows(cfg, t, q, max, now) + Left(cfg, Round(cfg, t, q, max, now), q, max, now, n - 1)
  }

  lemma RedrivableAfter(cfg: Config, t: Tables, q: Queue, targetId: int, rows: set<int>, now: int)
    requires targetId != q.id
    ensures Redrivable(cfg, RedriveRows(t, q.arn, targetId, rows, now), q, now) == Redrivable(cfg, t, q, now) - rows
  {
    var t' := RedriveRows(t, q.arn, targetId, rows, now);
    forall id ensures id in Redrivable(cfg, t', q, now) <==> id in Redrivable(cfg, t, q, now) && id !in rows {
      assert id in t'.messages <==> id in t.messages;
    }
  }

  lemma RoundKept(cfg: Config, t: Tables, q: Queue, max: nat, now: int)
    requires MessagesKeyed(t) && QueuesKeyed(cfg, t) && Diverts(cfg, t, q)
    ensures var t' := Round(cfg, t, q, max, now);
      && MessagesKeyed(t') && QueuesKeyed(cfg, t') && Diverts(cfg, t', q)
      && RedriveTarget(cfg, t', q) == RedriveTarget(cfg, t, q)
      && Redrivable(cfg, t', q, now) == Redrivable(cfg, t, q, now) - OverRows(cfg, t, q, max, now)
  {
    var target := RedriveTarget(cfg, t, q).value.id;
    var rows := OverRows(cfg, t, q, max, now);
    RedriveRowsOnly(t, q.arn, target, rows, now);
    RedrivableAfter(cfg, t, q, target, rows, now);
    TargetStays(cfg, t, Round(cfg, t, q, max, now), q);
  }

  lemma OneRoundFirst(cfg: Config, t: Tables, q: Queue, max: nat, now: int, n: nat)
    requires n > 0
    ensures AfterRounds(cfg, t, q, max, now, n) == AfterRounds(cfg, Round(cfg, t, q, max, now), q, max, now, n - 1)
    ensures Left(cfg, t, q, max, now, n) == OverRows(cfg, t, q, max, now) + Left(cfg, Round(cfg, t, q, max, now), q, max, now, n - 1)
  {
  }

  lemma NoRounds(cfg: Config, t: Tables, q: Queue, max: nat, now: int, arn: string, targetId: int)
    ensures AfterRounds(cfg, t, q, max, now, 0) == t && Left(cfg, t, q, max, now, 0) == {}
    ensures RedriveRows(t, arn, targetId, {}, now) == t
  {
    RedriveNone(t, arn, targetId, now);
  }

  /** A round and then later ones: their rows go together. */
  lemma ThenOthers(cfg: Config, t: Tables, q: Queue, max: nat, now: int, t': Tables, others: set<int>)
    requires MessagesKeyed(t) && QueuesKeyed(cfg, t) && Diverts(cfg, t, q)
    requires t' == RedriveRows(Round(cfg, t, q, max, now), q.arn, RedriveTarget(cfg, t, q).value.id, others, now)
    requires others <= Redrivable(cfg, Round(cfg, t, q, max, now), q, now)
    ensures t' == RedriveRows(t, q.arn, RedriveTarget(cfg, t, q).value.id, OverRows(cfg, t, q, max, now) + others, now)
    ensures OverRows(cfg, t, q, max, now) + others <= Redrivable(cfg, t, q, now)
  {
    RoundKept(cfg, t, q, max, now);
    OverRowsRedrivable(cfg, t, q, max, now);
    RedriveTwice(t, q.arn, RedriveTarget(cfg, t, q).value.id, OverRows(cfg, t, q, max, now), others, now);
  }

  /** After any number of rounds: the rows that left are in the dead-letter queue, and nothing else changed. */
  lemma {:induction false} RoundsRedrive(cfg: Config, t: Tables, q: Queue, max: nat, now: int, n: nat)
    requires MessagesKeyed(t) && QueuesKeyed(cfg, t) && Diverts(cfg, t, q)
    ensures AfterRounds(cfg, t, q, max, now, n) ==
            RedriveRows(t, q.arn, RedriveTarget(cfg, t, q).value.id, Left(cfg, t, q, max, now, n), now)
    ensures Left(cfg, t, q, max, now, n) <= Redrivable(cfg, t, q, now)
    decreases n
  {
    if n == 0 {
      NoRounds(cfg, t, q, max, now, q.arn, RedriveTarget(cfg, t, q).value.id);
    } else {
      var t1 := Round(cfg, t, q, max, now);
      RoundKept(cfg, t, q, max, now);
      RoundsRedrive(cfg, t1, q, max, now, n - 1);
      OneRoundFirst(cfg, t, q, max, now, n);
      ThenOthers(cfg, t, q, max, now, AfterRounds(cfg, t1, q, max, now, n - 1), Left(cfg, t1, q, max, now, n - 1));
    }
  }

  function Deliverables(cfg: Config, q: Queue, now: int): Message -> bool {
    (m: Message) => !(Visible(m, now) && ShouldRedrive(cfg, q, m))
  }

  /** The message before and after: still itself, received as often, but visible in the other queue with its source noted. */
  ghost predicate Diverted(m: Message, m': Message, q: Queue, targetId: int, now: int) {
    && Visible(m, now) && m.queueId == q.id
    && Visible(m', now) && m'.queueId == targetId && m'.deadLetterSourceArn == q.arn
    && m'.receiveCount == m.receiveCount && m'.sentAt == m.sentAt && SameIdentity(m, m')
  }

  /** The rows that left are diverted and without an active receipt; all other rows and receipts are untouched. */
  ghost predicate OnlyDiverted(t: Tables, q: Queue, targetId: int, left: set<int>, now: int, t': Tables) {
    && t'.messages.Keys == t.messages.Keys && t'.receipts.Keys == t.receipts.Keys
    && t' == t.(messages := t'.messages, receipts := t'.receipts)
    && (forall id :: id in left ==> id in t.messages && Diverted(t.messages[id], t'.messages[id], q, targetId, now))
    && (forall id :: id in t.messages && id !in left ==> t'.messages[id] == t.messages[id])
    && (forall h :: h in t.receipts && t.receipts[h].messageRowId in left ==> !t'.receipts[h].active)
    && (forall h :: h in t.receipts && t.receipts[h].messageRowId !in left ==> t'.receipts[h] == t.receipts[h])
  }

  lemma RedriveDiverts(cfg: Config, t: Tables, q: Queue, targetId: int, left: set<int>, now: int, t': Tables)
    requires t' == RedriveRows(t, q.arn, targetId, left, now) && left <= Redrivable(cfg, t, q, now)
    ensures OnlyDiverted(t, q, targetId, left, now, t')
  {
    assert t'.messages.Keys == t.messages.Keys && t'.receipts == Deactivate(t.receipts, left);
    forall id | id in left ensures id in t.messages && Diverted(t.messages[id], t'.messages[id], q, targetId, now) {
      assert id in Redrivable(cfg, t, q, now);
    }
  }

  /**
   * Row by row: a message that left is in the dead-letter queue, deliverable at once, with its source noted, its receive
   * count and everything that identifies it kept, and without an active receipt; nothing else has changed.
   */
  lemma LeftMessages(cfg: Config, t: Tables, q: Queue, max: nat, now: int, n: nat, t': Tables)
    requires MessagesKeyed(t) && QueuesKeyed(cfg, t) && Diverts(cfg, t, q) && t' == AfterRounds(cfg, t, q, max, now, n)
    ensures OnlyDiverted(t, q, RedriveTarget(cfg, t, q).value.id, Left(cfg, t, q, max, now, n), now, t')
  {
    RoundsRedrive(cfg, t, q, max, now, n);
    RedriveDiverts(cfg, t, q, RedriveTarget(cfg, t, q).value.id, Left(cfg, t, q, max, now, n), now, t');
  }

  lemma OnePassOver(cfg: Config, q: Queue, live: seq<Message>, left: set<int>, max: nat, now: int)
    requires forall m :: m in live && m.rowId in left ==> !Deliverables(cfg, q, now)(m)
    requires forall m :: m in Candidates(q.fifo, Filter(live, NotIn(left)), max, now) ==> !Over(cfg, q)(m)
    ensures Candidates(q.fifo, Filter(live, NotIn(left)), max, now)
            == Candidates(q.fifo, Filter(live, Deliverables(cfg, q, now)), max, now)
  {
    var keep := Deliverables(cfg, q, now);
    CandidatesDropped(q.fifo, Filter(live, NotIn(left)), keep, max, now);
    FilterTwice(live, NotIn(left), keep, keep);
  }

  /**
   * What the loop delivers, on either kind of queue, is what one pass over the original messages would deliver
   * after leaving out every visible message that was received too often.
   */
  lemma OnePassFit(cfg: Config, t: Tables, q: Queue, max: nat, now: int, n: nat)
    requires MessagesKeyed(t) && QueuesKeyed(cfg, t) && Diverts(cfg, t, q)
    requires Settled(cfg, AfterRounds(cfg, t, q, max, now, n), q, max, now)
    ensures CandidatesOf(AfterRounds(cfg, t, q, max, now, n), q, max, now) ==
            Candidates(q.fifo, Filter(LiveOf(t, q.id, now), Deliverables(cfg, q, now)), max, now)
  {
    var left := Left(cfg, t, q, max, now, n);
    RoundsRedrive(cfg, t, q, max, now, n);
    LiveAfterRedrive(t, q.arn, RedriveTarget(cfg, t, q).value.id, left, q.id, now);
    LeftRedrivable(cfg, t, q, left, now);
    OnePassOver(cfg, q, LiveOf(t, q.id, now), left, max, now);
  }

  lemma LeftRedrivable(cfg: Config, t: Tables, q: Queue, left: set<int>, now: int)
    requires MessagesKeyed(t) && left <= Redrivable(cfg, t, q, now)
    ensures forall m :: m in LiveOf(t, q.id, now) && m.rowId in left ==> !Deliverables(cfg, q, now)(m)
  {
    LiveRows(t, q.id, now);
    forall m | m in LiveOf(t, q.id, now) && m.rowId in left ensures !Deliverables(cfg, q, now)(m) {
      assert m.rowId in Redrivable(cfg, t, q, now);
    }
  }

  // ---- when the loop ends ------------------------------------------------------------------------

  lemma RoundShrinks(cfg: Config, t: Tables, q: Queue, max: nat, now: int)
    requires MessagesKeyed(t) && QueuesKeyed(cfg, t) && Diverts(cfg, t, q) && !Settled(cfg, t, q, max, now)
    ensures |Redrivable(cfg, Round(cfg, t, q, max, now), q, now)| < |Redrivable(cfg, t, q, now)|
  {
    RoundKept(cfg, t, q, max, now);
    OverRowsRedrivable(cfg, t, q, max, now);
    ProperCount(Redrivable(cfg, t, q, now), OverRows(cfg, t, q, max, now));
  }

  lemma ProperCount<T>(all: set<T>, some: set<T>)
    requires some <= all && some != {}
    ensures |all - some| < |all|
  {
    assert all == (all - some) + some && (all - some) !! some;
  }

  lemma {:induction false} Settles(cfg: Config, t: Tables, q: Queue, max: nat, now: int) returns (n: nat)
    requires MessagesKeyed(t) && QueuesKeyed(cfg, t) && Diverts(cfg, t, q)
    ensures Settled(cfg, AfterRounds(cfg, t, q, max, now, n), q, max, now)
    decreases |Redrivable(cfg, t, q, now)|
  {
    if Settled(cfg, t, q, max, now) {
      n := 0;
    } else {
      RoundKept(cfg, t, q, max, now);
      RoundShrinks(cfg, t, q, max, now);
      n := Settles(cfg, Round(cfg, t, q, max, now), q, max, now);
      n := n + 1;
    }
  }

  /** A dead-letter queue that is the queue itself: the redriven messages stay, changed but still deliverable. */
  function InPlace(rows: set<int>, q: Queue, now: int): Message -> Message {
    (m: Message) => if m.rowId in rows then RedriveMessage(m, q.arn, q.id, now) else m
  }

  /** The change is invisible to the selection of candidates. */
  ghost predicate Alike(ms: seq<Message>, f: Message -> Message, now: int) {
    forall m :: m in ms ==>
      f(m).groupId == m.groupId && Visible(f(m), now) == Visible(m, now) && Leased(f(m), now) == Leased(m, now)
  }

  lemma {:induction false} MapFilter(ms: seq<Message>, f: Message -> Message, p: Message -> bool)
    requires forall m :: m in ms ==> p(f(m)) == p(m)
    ensures Filter(Map(ms, f), p) == Map(Filter(ms, p), f)
  {
    if ms != [] {
      MapFilter(ms[1..], f, p);
      if p(ms[0]) { assert ([ms[0]] + Filter(ms[1..], p))[1..] == Filter(ms[1..], p); }
    }
  }

  lemma {:induction false} MapConcat(a: seq<Message>, b: seq<Message>, f: Message -> Message)
    ensures Map(a + b, f) == Map(a, f) + Map(b, f)
  {
    if a == [] {
      assert a + b == b;
    } else {
      assert (a + b)[1..] == a[1..] + b;
      MapConcat(a[1..], b, f);
    }
  }

  lemma {:induction false} MapTake(ms: seq<Message>, f: Message -> Message, n: nat)
    ensures Take(Map(ms, f), n) == Map(Take(ms, n), f)
  {
    if |ms| > n {
      Halves(ms, n);
      MapConcat(ms[..n], ms[n..], f);
    }
  }

  lemma {:induction false} MapPrefix(ms: seq<Message>, f: Message -> Message, now: int)
    requires Alike(ms, f, now)
    ensures VisiblePrefix(Map(ms, f), now) == Map(VisiblePrefix(ms, now), f)
  {
    if ms != [] {
      MapPrefix(ms[1..], f, now);
      if Visible(ms[0], now) {
        assert ([ms[0]] + VisiblePrefix(ms[1..], now))[1..] == VisiblePrefix(ms[1..], now);
      }
    }
  }

  lemma MapLocked(ms: seq<Message>, f: Message -> Message, now: int)
    requires Alike(ms, f, now)
    ensures Locked(Map(ms, f), now) <==> Locked(ms, now)
  {
    if Locked(ms, now) {
      var i :| 0 <= i < |ms| && Leased(ms[i], now);
      assert ms[i] in ms && Map(ms, f)[i] in Map(ms, f);
    }
    if Locked(Map(ms, f), now) {
      var i :| 0 <= i < |ms| && Leased(Map(ms, f)[i], now);
      assert ms[i] in ms;
    }
  }

  lemma MapChunk(ms: seq<Message>, f: Message -> Message, now: int)
    requires Alike(ms, f, now)
    ensures Chunk(Map(ms, f), now) == Map(Chunk(ms, now), f)
  {
    MapPrefix(ms, f, now);
    MapLocked(ms, f, now);
  }

  lemma {:induction false} MapOffers(ms: seq<Message>, f: Message -> Message, now: int)
    requires Alike(ms, f, now)
    ensures Offers(Map(ms, f), now) == Map(Offers(ms, now), f)
    decreases |ms|
  {
    if ms == [] {
    } else if ms[0].groupId == "" {
      MapOffers(ms[1..], f, now);
    } else {
      var g := ms[0].groupId;
      MapFilter(ms, f, InGroup(g));
      MapFilter(ms, f, NotInGroup(g));
      MapChunk(Members(ms, g), f, now);
      MapOffers(Without(ms, g), f, now);
      MapConcat(Chunk(Members(ms, g), now), Offers(Without(ms, g), now), f);
    }
  }

  lemma MapCandidates(fifo: bool, ms: seq<Message>, f: Message -> Message, max: nat, now: int)
    requires Alike(ms, f, now)
    ensures Candidates(fifo, Map(ms, f), max, now) == Map(Candidates(fifo, ms, max, now), f)
  {
    if fifo {
      MapOffers(ms, f, now);
      MapTake(Offers(ms, now), f, max);
    } else {
      MapFilter(ms, f, VisibleAt(now));
      MapTake(Filter(ms, VisibleAt(now)), f, max);
    }
  }

  lemma InPlaceMembers(messages: map<int, Message>, ms: seq<Message>, q: Queue, rows: set<int>, now: int, m: Message)
    requires forall x :: x in ms <==> x.rowId in messages && messages[x.rowId] == x && x.queueId == q.id
    requires forall id :: id in rows ==> id in messages && messages[id].queueId == q.id
    requires forall id :: id in messages ==> messages[id].rowId == id
    ensures m in Map(ms, InPlace(rows, q, now)) <==>
      m.rowId in messages && messages[m.rowId].queueId == q.id && InPlace(rows, q, now)(messages[m.rowId]) == m
  {
    var f := InPlace(rows, q, now);
    if m in Map(ms, f) {
      var i :| 0 <= i < |ms| && f(ms[i]) == m;
      assert ms[i] in ms;
    }
    if m.rowId in messages && messages[m.rowId].queueId == q.id && f(messages[m.rowId]) == m {
      assert messages[m.rowId] in ms;
      assert Map(ms, f)[IndexOf(ms, messages[m.rowId])] == m;
    }
  }

  lemma InPlaceRow(t: Tables, q: Queue, rows: set<int>, now: int, m: Message)
    requires MessagesKeyed(t)
    requires forall id :: id in rows ==> id in t.messages && t.messages[id].queueId == q.id
    ensures var t' := RedriveRows(t, q.arn, q.id, rows, now);
      m in Map(MessagesOf(t, q.id), InPlace(rows, q, now)) <==>
      m.rowId in t'.messages && t'.messages[m.rowId] == m && m.queueId == q.id
  {
    var t', f := RedriveRows(t, q.arn, q.id, rows, now), InPlace(rows, q, now);
    MessagesOfRows(t, q.id);
    InPlaceMembers(t.messages, MessagesOf(t, q.id), q, rows, now, m);
    assert m.rowId in t.messages ==> t'.messages[m.rowId] == f(t.messages[m.rowId]);
  }

  lemma InPlaceIncreasing(ms: seq<Message>, q: Queue, rows: set<int>, now: int)
    requires Increasing(ms, SentBefore)
    ensures Increasing(Map(ms, InPlace(rows, q, now)), SentBefore)
  {
    var f := InPlace(rows, q, now);
    forall i, j | 0 <= i < j < |ms| ensures SentBefore(Map(ms, f)[i], Map(ms, f)[j]) {
      assert SentBefore(ms[i], ms[j]);
    }
  }

  lemma InPlaceListing(t: Tables, q: Queue, rows: set<int>, now: int)
    requires MessagesKeyed(t)
    requires forall id :: id in rows ==> id in t.messages && t.messages[id].queueId == q.id
    ensures MessagesOf(RedriveRows(t, q.arn, q.id, rows, now), q.id) == Map(MessagesOf(t, q.id), InPlace(rows, q, now))
  {
    var t', ms := RedriveRows(t, q.arn, q.id, rows, now), Map(MessagesOf(t, q.id), InPlace(rows, q, now));
    forall m: Message ensures m in ms <==> m.rowId in t'.messages && t'.messages[m.rowId] == m && m.queueId == q.id {
      InPlaceRow(t, q, rows, now, m);
    }
    MessagesOfRows(t, q.id);
    InPlaceIncreasing(MessagesOf(t, q.id), q, rows, now);
    RedriveRowsOnly(t, q.arn, q.id, rows, now);
    MessagesOfUnique(t', q.id, ms);
  }

  lemma InPlaceCandidates(cfg: Config, t: Tables, q: Queue, rows: set<int>, max: nat, now: int)
    requires MessagesKeyed(t) && rows <= Redrivable(cfg, t, q, now)
    ensures CandidatesOf(RedriveRows(t, q.arn, q.id, rows, now), q, max, now) ==
            Map(CandidatesOf(t, q, max, now), InPlace(rows, q, now))
  {
    var f, live := InPlace(rows, q, now), LiveOf(t, q.id, now);
    InPlaceListing(t, q, rows, now);
    MapFilter(MessagesOf(t, q.id), f, LiveAt(now));
    LiveRows(t, q.id, now);
    forall m | m in live
      ensures f(m).groupId == m.groupId && Visible(f(m), now) == Visible(m, now) && Leased(f(m), now) == Leased(m, now)
    {
      if m.rowId in rows { assert m.rowId in Redrivable(cfg, t, q, now); }
    }
    MapCandidates(q.fifo, live, f, max, now);
  }

  lemma StuckInPlace(cfg: Config, t: Tables, q: Queue, rows: set<int>, max: nat, now: int)
    requires MessagesKeyed(t) && rows <= Redrivable(cfg, t, q, now) && !Settled(cfg, t, q, max, now)
    ensures !Settled(cfg, RedriveRows(t, q.arn, q.id, rows, now), q, max, now)
  {
    var cands, f := CandidatesOf(t, q, max, now), InPlace(rows, q, now);
    InPlaceCandidates(cfg, t, q, rows, max, now);
    var m :| m in cands && Over(cfg, q)(m);
    assert f(m) in Map(cands, f) && Over(cfg, q)(f(m));
  }

  /** Without another queue to go to, a scan that is not settled is followed by one that is not. */
  lemma StuckRound(cfg: Config, t: Tables, q: Queue, max: nat, now: int)
    requires MessagesKeyed(t) && QueuesKeyed(cfg, t) && !Diverts(cfg, t, q) && !Settled(cfg, t, q, max, now)
    ensures var t' := Round(cfg, t, q, max, now);
      MessagesKeyed(t') && QueuesKeyed(cfg, t') && !Diverts(cfg, t', q) && !Settled(cfg, t', q, max, now)
  {
    if RedriveTarget(cfg, t, q).Some? {
      var rows, t' := OverRows(cfg, t, q, max, now), Round(cfg, t, q, max, now);
      OverRowsRedrivable(cfg, t, q, max, now);
      StuckInPlace(cfg, t, q, rows, max, now);
      RedriveRowsOnly(t, q.arn, q.id, rows, now);
      TargetStays(cfg, t, t', q);
    }
  }

  /** The loop stops after `n` rounds, if it gets there. */
  ghost predicate StopsAfter(cfg: Config, t: Tables, q: Queue, max: nat, now: int, n: nat) {
    Settled(cfg, AfterRounds(cfg, t, q, max, now, n), q, max, now)
  }

  /** Once a scan is settled, further rounds would change nothing: where the loop ends does not depend on how it is counted. */
  lemma {:induction false} SettledStays(cfg: Config, t: Tables, q: Queue, max: nat, now: int, n: nat)
    requires MessagesKeyed(t) && Settled(cfg, t, q, max, now)
    ensures AfterRounds(cfg, t, q, max, now, n) == t
    decreases n
  {
    if n > 0 {
      OverRowsRedrivable(cfg, t, q, max, now);
      if RedriveTarget(cfg, t, q).Some? {
        RedriveNone(t, q.arn, RedriveTarget(cfg, t, q).value.id, now);
      }
      SettledStays(cfg, t, q, max, now, n - 1);
    }
  }

  /** Nothing to stop for, and nowhere to move to. */
  ghost predicate Stalled(cfg: Config, t: Tables, q: Queue, max: nat, now: int) {
    MessagesKeyed(t) && QueuesKeyed(cfg, t) && !Diverts(cfg, t, q) && !Settled(cfg, t, q, max, now)
  }

  lemma StalledRound(cfg: Config, t: Tables, q: Queue, max: nat, now: int)
    requires Stalled(cfg, t, q, max, now)
    ensures Stalled(cfg, Round(cfg, t, q, max, now), q, max, now)
  {
    StuckRound(cfg, t, q, max, now);
  }

  lemma {:induction false} Stuck(cfg: Config, t: Tables, q: Queue, max: nat, now: int, n: nat)
    requires Stalled(cfg, t, q, max, now)
    ensures Stalled(cfg, AfterRounds(cfg, t, q, max, now, n), q, max, now)
    decreases n
  {
    if n > 0 {
      StalledRound(cfg, t, q, max, now);
      Stuck(cfg, Round(cfg, t, q, max, now), q, max, now, n - 1);
    }
  }

  /**
   * The loop ends if and only if its first scan has nothing to redrive or the dead-letter queue is a live queue
   * other than this one.
   */
  lemma LoopEnds(cfg: Config, t: Tables, q: Queue, max: nat, now: int)
    requires MessagesKeyed(t) && QueuesKeyed(cfg, t)
    ensures (exists n: nat :: StopsAfter(cfg, t, q, max, now, n)) <==> Settled(cfg, t, q, max, now) || Diverts(cfg, t, q)
  {
    if Settled(cfg, t, q, max, now) {
      assert StopsAfter(cfg, t, q, max, now, 0);
    } else if Diverts(cfg, t, q) {
      var n := Settles(cfg, t, q, max, now);
      assert StopsAfter(cfg, t, q, max, now, n);
    } else {
      forall n: nat ensures !StopsAfter(cfg, t, q, max, now, n) {
        Stuck(cfg, t, q, max, now, n);
      }
    }
  }

  // ---- which messages leave a standard queue ---------------------------------------------------------

  /** Visible and not received too often. */
  function Fit(cfg: Config, q: Queue, now: int): Message -> bool {
    (m: Message) => Visible(m, now) && !ShouldRedrive(cfg, q, m)
  }

  lemma FilterFront(xs: seq<Message>, keep: Message -> bool, i: nat)
    requires i < |xs| && keep(xs[i])
    ensures var k := |Filter(xs[..i], keep)|;
      k < |Filter(xs, keep)| && Filter(xs, keep)[k] == xs[i] && Filter(xs, keep)[..k] == Filter(xs[..i], keep)
  {
    FilterAt(xs, keep, i);
    assert xs == xs[..i] + xs[i..];
    FilterConcat(xs[..i], xs[i..], keep);
  }

  lemma {:induction false} FilterFewer(xs: seq<Message>, p: Message -> bool, q: Message -> bool)
    requires forall m :: m in xs && p(m) ==> q(m)
    ensures |Filter(xs, p)| <= |Filter(xs, q)|
  {
    if xs != [] { FilterFewer(xs[1..], p, q); }
  }

  /** With at least `max` fit messages before it, a message is not among the candidates of a standard queue. */
  lemma BehindTheFit(cfg: Config, q: Queue, live: seq<Message>, i: nat, max: nat, now: int)
    requires Distinct(live) && i < |live| && |Filter(live[..i], Fit(cfg, q, now))| >= max
    ensures live[i] !in Candidates(false, live, max, now)
  {
    var visible := Filter(live, VisibleAt(now));
    if live[i] in visible {
      FilterFront(live, VisibleAt(now), i);
      FilterFewer(live[..i], Fit(cfg, q, now), VisibleAt(now));
      FilterDistinct(live, VisibleAt(now));
      var k := |Filter(live[..i], VisibleAt(now))|;
      assert visible[k] == live[i] && forall j :: 0 <= j < max ==> visible[j] != live[i];
    }
  }

  lemma StandardShown(live: seq<Message>, left: set<int>, max: nat, now: int)
    ensures Candidates(false, Filter(live, NotIn(left)), max, now) == Take(Filter(live, Staying(left, now)), max)
  {
    FilterTwice(live, NotIn(left), VisibleAt(now), Staying(left, now));
  }

  /** A visible message that stays, of a standard queue whose candidates are all fit, has `max` fit ones before it. */
  lemma StaysBehindTheFit(cfg: Config, q: Queue, live: seq<Message>, left: set<int>, i: nat, max: nat, now: int)
    requires i < |live| && Staying(left, now)(live[i]) && Over(cfg, q)(live[i])
    requires forall m :: m in Take(Filter(live, Staying(left, now)), max) ==> !Over(cfg, q)(m)
    ensures |Filter(live[..i], Fit(cfg, q, now))| >= max
  {
    var stay := Staying(left, now);
    FilterFront(live, stay, i);
    var k, shown := |Filter(live[..i], stay)|, Filter(live, stay);
    NotAmongFirst(shown, k, max);
    FrontIsFit(cfg, q, live, left, max, now);
    FilterOfFront(shown, k, max, Fit(cfg, q, now));
    FitAmongStaying(cfg, q, live[..i], left, now);
  }

  lemma FrontIsFit(cfg: Config, q: Queue, live: seq<Message>, left: set<int>, max: nat, now: int)
    requires forall m :: m in Take(Filter(live, Staying(left, now)), max) ==> !Over(cfg, q)(m)
    ensures max <= |Filter(live, Staying(left, now))| ==>
      forall m :: m in Filter(live, Staying(left, now))[..max] ==> Fit(cfg, q, now)(m)
  {
    var shown := Filter(live, Staying(left, now));
    if max <= |shown| {
      assert shown[..max] == Take(shown, max);
      forall m | m in shown[..max] ensures Fit(cfg, q, now)(m) {
        assert m in shown;
      }
    }
  }

  lemma FitAmongStaying(cfg: Config, q: Queue, front: seq<Message>, left: set<int>, now: int)
    ensures |Filter(Filter(front, Staying(left, now)), Fit(cfg, q, now))| <= |Filter(front, Fit(cfg, q, now))|
  {
    FilterTwice(front, Staying(left, now), Fit(cfg, q, now), StayingFit(cfg, q, left, now));
    FilterFewer(front, StayingFit(cfg, q, left, now), Fit(cfg, q, now));
  }

  function Staying(left: set<int>, now: int): Message -> bool {
    (m: Message) => m.rowId !in left && Visible(m, now)
  }

  function StayingFit(cfg: Config, q: Queue, left: set<int>, now: int): Message -> bool {
    (m: Message) => m.rowId !in left && Visible(m, now) && !ShouldRedrive(cfg, q, m)
  }

  lemma NotAmongFirst(xs: seq<Message>, k: nat, n: nat)
    requires k < |xs| && xs[k] !in Take(xs, n)
    ensures n <= k
  {
    assert forall j :: 0 <= j < |Take(xs, n)| ==> Take(xs, n)[j] == xs[j];
  }

  lemma FilterOfFront(xs: seq<Message>, k: nat, n: nat, p: Message -> bool)
    requires n <= k <= |xs| && forall m :: m in xs[..n] ==> p(m)
    ensures |Filter(xs[..k], p)| >= n
  {
    assert xs[..k] == xs[..n] + xs[n..k];
    FilterConcat(xs[..n], xs[n..k], p);
    FilterAll(xs[..n], p);
  }

  lemma FitStay(cfg: Config, q: Queue, live: seq<Message>, rows: set<int>, i: nat, now: int) returns (k: nat)
    requires i < |live| && live[i].rowId !in rows
    requires forall m :: m in live && m.rowId in rows ==> !Fit(cfg, q, now)(m)
    ensures k < |Filter(live, NotIn(rows))| && Filter(live, NotIn(rows))[k] == live[i]
    ensures |Filter(Filter(live, NotIn(rows))[..k], Fit(cfg, q, now))| == |Filter(live[..i], Fit(cfg, q, now))|
  {
    k := |Filter(live[..i], NotIn(rows))|;
    FilterFront(live, NotIn(rows), i);
    forall m | m in live[..i] ensures Fit(cfg, q, now)(m) == (NotIn(rows)(m) && Fit(cfg, q, now)(m)) {
      assert m in live;
    }
    FilterTwice(live[..i], NotIn(rows), Fit(cfg, q, now), Fit(cfg, q, now));
  }

  lemma OverRowsUnfit(cfg: Config, t: Tables, q: Queue, max: nat, now: int)
    requires MessagesKeyed(t)
    ensures forall m :: m in LiveOf(t, q.id, now) && m.rowId in OverRows(cfg, t, q, max, now) ==> !Fit(cfg, q, now)(m)
  {
    LiveRows(t, q.id, now);
    OverRowsRedrivable(cfg, t, q, max, now);
    forall m | m in LiveOf(t, q.id, now) && m.rowId in OverRows(cfg, t, q, max, now) ensures !Fit(cfg, q, now)(m) {
      assert m.rowId in Redrivable(cfg, t, q, now);
    }
  }

  /** The message stands behind enough messages that are offered and stay. */
  ghost predicate HeldBack(cfg: Config, t: Tables, q: Queue, max: nat, now: int, rowId: int) {
    var live := LiveOf(t, q.id, now);
    && MessagesKeyed(t) && QueuesKeyed(cfg, t) && Diverts(cfg, t, q) && !q.fifo
    && exists i :: 0 <= i < |live| && live[i].rowId == rowId && |Filter(live[..i], Fit(cfg, q, now))| >= max
  }

  ghost predicate Stays(cfg: Config, t: Tables, q: Queue, max: nat, now: int, rowId: int, held: Tables -> bool) {
    held(t) ==> rowId !in OverRows(cfg, t, q, max, now) && held(Round(cfg, t, q, max, now))
  }

  /** What holds of the tables, keeps a row and survives a round keeps the row from ever leaving. */
  lemma {:induction false} NeverLeaves(cfg: Config, t: Tables, q: Queue, max: nat, now: int, n: nat, rowId: int, held: Tables -> bool)
    requires held(t) && forall s :: Stays(cfg, s, q, max, now, rowId, held)
    ensures rowId !in Left(cfg, t, q, max, now, n)
    decreases n
  {
    if n > 0 {
      assert Stays(cfg, t, q, max, now, rowId, held);
      NeverLeaves(cfg, Round(cfg, t, q, max, now), q, max, now, n - 1, rowId, held);
    }
  }

  lemma FitKeepsBack(cfg: Config, t: Tables, q: Queue, max: nat, now: int, n: nat, rowId: int)
    requires HeldBack(cfg, t, q, max, now, rowId)
    ensures rowId !in Left(cfg, t, q, max, now, n)
  {
    var held := (s: Tables) => HeldBack(cfg, s, q, max, now, rowId);
    forall s ensures Stays(cfg, s, q, max, now, rowId, held) {
      if held(s) {
        FitRound(cfg, s, q, max, now, rowId);
      }
    }
    NeverLeaves(cfg, t, q, max, now, n, rowId, held);
  }

  lemma FitRound(cfg: Config, t: Tables, q: Queue, max: nat, now: int, rowId: int)
    requires HeldBack(cfg, t, q, max, now, rowId)
    ensures rowId !in OverRows(cfg, t, q, max, now)
    ensures HeldBack(cfg, Round(cfg, t, q, max, now), q, max, now, rowId)
  {
    var live, rows := LiveOf(t, q.id, now), OverRows(cfg, t, q, max, now);
    var i: nat :| i < |live| && live[i].rowId == rowId && |Filter(live[..i], Fit(cfg, q, now))| >= max;
    NotOver(cfg, t, q, max, now, i);
    OverRowsUnfit(cfg, t, q, max, now);
    var k := FitStay(cfg, q, live, rows, i, now);
    LiveAfterRedrive(t, q.arn, RedriveTarget(cfg, t, q).value.id, rows, q.id, now);
    RoundKept(cfg, t, q, max, now);
  }

  lemma NotOver(cfg: Config, t: Tables, q: Queue, max: nat, now: int, i: nat)
    requires MessagesKeyed(t) && !q.fifo && i < |LiveOf(t, q.id, now)|
    requires |Filter(LiveOf(t, q.id, now)[..i], Fit(cfg, q, now))| >= max
    ensures LiveOf(t, q.id, now)[i].rowId !in OverRows(cfg, t, q, max, now)
  {
    var live := LiveOf(t, q.id, now);
    MessagesOfRows(t, q.id);
    FilterDistinct(MessagesOf(t, q.id), LiveAt(now));
    BehindTheFit(cfg, q, live, i, max, now);
    LiveRows(t, q.id, now);
    CandidateRows(t, q, max, now);
    OverRowsCandidates(cfg, t, q, max, now);
    assert live[i] in live;
  }

  lemma OverRowsCandidates(cfg: Config, t: Tables, q: Queue, max: nat, now: int)
    requires MessagesKeyed(t)
    ensures forall id :: id in OverRows(cfg, t, q, max, now) ==> id in t.messages && t.messages[id] in CandidatesOf(t, q, max, now)
  {
    var over := Filter(CandidatesOf(t, q, max, now), Over(cfg, q));
    CandidateRows(t, q, max, now);
    forall id | id in RowIds(over) ensures id in t.messages && t.messages[id] in CandidatesOf(t, q, max, now) {
      var j := RowIdAt(over, id);
      assert over[j] in over;
    }
  }

  /**
   * Exactly which messages leave a standard queue when the loop ends: of those received too often, the visible ones
   * with fewer than `max` fit messages before them.
   */
  lemma StandardLeft(cfg: Config, t: Tables, q: Queue, max: nat, now: int, n: nat, i: nat)
    requires MessagesKeyed(t) && QueuesKeyed(cfg, t) && Diverts(cfg, t, q) && !q.fifo && i < |LiveOf(t, q.id, now)|
    requires StopsAfter(cfg, t, q, max, now, n)
    ensures var m, before := LiveOf(t, q.id, now)[i], LiveOf(t, q.id, now)[..i];
      m.rowId in Left(cfg, t, q, max, now, n) <==>
      Visible(m, now) && ShouldRedrive(cfg, q, m) && |Filter(before, Fit(cfg, q, now))| < max
  {
    var live, left := LiveOf(t, q.id, now), Left(cfg, t, q, max, now, n);
    RoundsRedrive(cfg, t, q, max, now, n);
    LeftRedrivable(cfg, t, q, left, now);
    assert live[i] in live;
    if |Filter(live[..i], Fit(cfg, q, now))| >= max {
      FitKeepsBack(cfg, t, q, max, now, n, live[i].rowId);
    } else if live[i].rowId !in left && Visible(live[i], now) && ShouldRedrive(cfg, q, live[i]) {
      LiveAfterRedrive(t, q.arn, RedriveTarget(cfg, t, q).value.id, left, q.id, now);
      StandardShown(live, left, max, now);
      StaysBehindTheFit(cfg, q, live, left, i, max, now);
    }
  }
}
