/** Runs from the empty store after which a promise fails; the exact conditions are in the modules named. */
module Witnesses {
  import opened Records
  import opened Sequences
  import opened Numerals
  import opened Tables
  import AttributeSizes
  import opened QueueAttributes
  import opened Deliverable
  import opened Plane
  import opened Integrity
  import opened Runs
  import opened Traces
  import opened MoveTasks
  import LazyExpiry
  import opened Redrive
  import opened Receiving
  import opened Requests
  import opened ReceiveRequests

  /** A configuration in which the redrive policy "once" sends a message to the queue "gone" after one receive. */
  function Configured(): Config {
    Config("http://localhost", "1", "eu", 0, 60000, 60000, 0, 0, (s: string) => s, (s: string) => s,
           (s: string) => if s == "once" then Some(RedrivePolicy("arn:aws:sqs:eu:1:gone", 1)) else None,
           AttributeSizes.Checks((s: string, system: bool) => true, (s: string) => true, (s: string) => None))
  }

  /** The default attributes of a new queue, with these two set. */
  function AttributesWith(fifo: string, redrive: string): map<string, string> {
    map["VisibilityTimeout" := "30", "MaximumMessageSize" := "1048576", "MessageRetentionPeriod" := "345600",
        "DelaySeconds" := "0", "ReceiveMessageWaitTimeSeconds" := "0", "Policy" := "", "RedrivePolicy" := redrive,
        "FifoQueue" := fifo, "ContentBasedDeduplication" := "false", "KmsMasterKeyId" := "",
        "KmsDataKeyReusePeriodSeconds" := "300", "DeduplicationScope" := "queue", "FifoThroughputLimit" := "perQueue",
        "RedriveAllowPolicy" := "", "SqsManagedSseEnabled" := "false"]
  }

  function Stamps(name: string): map<string, string> {
    map["QueueArn" := QueueArn(Configured(), name), "CreatedTimestamp" := "0", "LastModifiedTimestamp" := "0"]
  }

  /** The queue that a creation at the start makes. */
  function NewlyMade(name: string, fifo: string, redrive: string): Queue {
    NewQueue(Configured(), 1, name, AttributesWith(fifo, redrive), 0, Stamps(name))
  }

  lemma Defaults(fifo: string, redrive: string)
    ensures var a := AttributesWith(fifo, redrive);
      && "DelaySeconds" in a && a["DelaySeconds"] == "0" && "MessageRetentionPeriod" in a && a["MessageRetentionPeriod"] == "345600"
      && "ReceiveMessageWaitTimeSeconds" in a && a["ReceiveMessageWaitTimeSeconds"] == "0"
      && "FifoQueue" in a && a["FifoQueue"] == fifo && "RedrivePolicy" in a && a["RedrivePolicy"] == redrive
  {
  }

  lemma RetentionText()
    ensures ParseInt("345600") == Some(345600) && ParseInt("0") == Some(0)
  {
    assert NatText(34) == "34" && NatText(345) == "345";
    assert NatText(3456) == "3456" && NatText(34560) == "34560";
    assert NatText(345600) == "345600" && NatText(0) == "0";
    ParseIntText(345600);
    ParseIntText(0);
  }

  lemma MadeReads(name: string, fifo: string, redrive: string)
    ensures var q := NewlyMade(name, fifo, redrive);
      && q.fifo == (fifo == "true") && DelaySeconds(q) == 0 && RetentionSeconds(q) == 345600 && WaitTime(q) == 0
      && Attribute(q, "RedrivePolicy") == redrive
  {
    Defaults(fifo, redrive);
    RetentionText();
    var a, s := AttributesWith(fifo, redrive), Stamps(name);
    assert "DelaySeconds" !in s && "MessageRetentionPeriod" !in s && "ReceiveMessageWaitTimeSeconds" !in s && "RedrivePolicy" !in s;
  }

  // ---- the first steps of a run -------------------------------------------------------------

  /** The tables with one queue and nothing else. */
  function OneQueue(q: Queue): Tables { EMPTY.(queues := map[1 := q], nextQueueId := 2) }

  lemma QueueMade(name: string, fifo: string, redrive: string)
    ensures Reachable(Configured(), OneQueue(NewlyMade(name, fifo, redrive)), 0)
  {
    var cfg, e := Configured(), OnQueues(Create(name, AttributesWith(fifo, redrive), Stamps(name)));
    assert Legal(cfg, EMPTY, 0, []) && After(cfg, EMPTY, 0, []) == EMPTY && EndOf(0, []) == 0;
    assert QueueByName(EMPTY, name).None?;
    Defaults(fifo, redrive);
    LeadsStep(cfg, EMPTY, 0, e);
    ReachesOn(cfg, EMPTY, 0, 0, [e], OneQueue(NewlyMade(name, fifo, redrive)));
  }

  /** One more event after a run. */
  lemma OneMoreStep(t: Tables, before: int, now: int, e: Event)
    requires Reachable(Configured(), t, before) && before <= now && Enabled(Configured(), t, now, e)
    ensures Reachable(Configured(), Step(Configured(), t, now, e), now)
  {
    LeadsStep(Configured(), t, now, e);
    ReachesOn(Configured(), t, before, now, [e], Step(Configured(), t, now, e));
  }

  /** An entry with one letter for a body, in group "g" on a FIFO queue. */
  function OneLetter(q: Queue): Entry {
    Entry("m", Ok(Content(0, "", "")), None, if q.fifo then "g" else "", if q.fifo then "d" else "", "id", "1")
  }

  function TheMessage(q: Queue, at: int): Message { NewMessage(Configured(), q, OneLetter(q), 1, at) }

  /** The queue has this message and no other. */
  ghost predicate Holding(t: Tables, q: Queue, m: Message) {
    t.queues == map[1 := q] && t.messages == map[1 := m] && q.id == 1 && m.rowId == 1 && m.queueId == 1 && q.deletedAt.None?
  }

  lemma MessageSent(t: Tables, q: Queue, before: int, at: int)
    requires Reachable(Configured(), t, before) && before <= at && t.queues == map[1 := q] && q.id == 1 && q.deletedAt.None?
    requires t.messages == map[] && t.nextRowId == 1 && t.ledger == map[] && DelaySeconds(q) == 0
    ensures var t' := Send(Configured(), t, q, OneLetter(q), at);
      && Reachable(Configured(), t', at) && Holding(t', q, TheMessage(q, at))
      && t' == t.(messages := t'.messages, nextRowId := 2, ledger := t'.ledger)
  {
    OneMoreStep(t, before, at, OnMessages(SendOne(1, OneLetter(q))));
  }

  lemma OnlyOne(rows: seq<Message>, m: Message)
    requires OneEach(rows) && m in rows && forall x :: x in rows ==> x == m
    ensures rows == [m]
  {
    if |rows| > 1 {
      assert rows[0] in rows && rows[1] in rows;
      OneEachAt(rows, 0, 1);
    }
  }

  lemma OnlyLive(t: Tables, q: Queue, m: Message, now: int)
    requires Holding(t, q, m) && Live(m, now) && t.nextRowId == 2
    ensures MessagesKeyed(t) && LiveOf(t, 1, now) == [m]
  {
    LiveRows(t, 1, now);
    OnlyOne(LiveOf(t, 1, now), m);
  }

  lemma OnlyOffer(m: Message, now: int)
    requires Visible(m, now) && m.groupId != ""
    ensures Offers([m], now) == [m]
  {
    assert Members([m], m.groupId) == [m] && Without([m], m.groupId) == [];
    assert [m][1..] == [] && VisiblePrefix([m], now) == [m];
    assert Chunk([m], now) == [m] && Offers([], now) == [];
  }

  lemma OnlyCandidate(t: Tables, q: Queue, m: Message, now: int)
    requires Holding(t, q, m) && t.nextRowId == 2 && Visible(m, now) && (q.fifo ==> m.groupId != "")
    ensures MessagesKeyed(t) && CandidatesOf(t, q, 1, now) == [m]
  {
    OnlyLive(t, q, m, now);
    if q.fifo {
      OnlyOffer(m, now);
    } else {
      assert Filter([m], VisibleAt(now)) == [m] + Filter([m][1..], VisibleAt(now));
    }
  }

  /** The tables after a receive has leased the message under handle 7. */
  function Received7(t: Tables, m: Message, attemptId: string, timeout: int, now: int): Tables {
    Lease(t, 1, [m], [7], attemptId, LeaseEnd(now, timeout), now)
  }

  lemma LeaseEnabled(t: Tables, q: Queue, m: Message, attemptId: string, timeout: int, now: int)
    requires Holding(t, q, m) && t.nextRowId == 2 && t.issued == {}
    requires Visible(m, now) && (q.fifo ==> m.groupId != "") && 0 <= timeout <= MAX_TIMEOUT && !ShouldRedrive(Configured(), q, m)
    ensures MessageEnabled(Configured(), t, now, LeaseSome(1, 1, timeout, attemptId, [7]))
    ensures MessageStep(Configured(), t, now, LeaseSome(1, 1, timeout, attemptId, [7])) == Received7(t, m, attemptId, timeout, now)
  {
    OnlyCandidate(t, q, m, now);
    assert [7 as Handle][1..] == [];
  }

  lemma OnlyRowLeased(m: Message, deadline: int, now: int)
    ensures LeaseMessages(map[1 := m], {1}, deadline, now) == map[1 := LeaseMessage(m, deadline, now)]
  {
  }

  lemma LeaseColumns(t: Tables, m: Message, attemptId: string, timeout: int, now: int)
    ensures var t' := Received7(t, m, attemptId, timeout, now);
      && t'.messages == LeaseMessages(t.messages, {m.rowId}, LeaseEnd(now, timeout), now)
      && t'.queues == t.queues && t'.nextRowId == t.nextRowId
  {
    assert RowIds([m]) == {m.rowId} + RowIds([m][1..]);
  }

  lemma LeasedHolding(t: Tables, t': Tables, q: Queue, m: Message, deadline: int, now: int)
    requires Holding(t, q, m) && t'.queues == t.queues && t'.messages == LeaseMessages(t.messages, {m.rowId}, deadline, now)
    ensures Holding(t', q, LeaseMessage(m, deadline, now))
  {
    OnlyRowLeased(m, deadline, now);
  }

  lemma MessageReceived(t: Tables, q: Queue, m: Message, attemptId: string, timeout: int, now: int)
    requires Reachable(Configured(), t, now) && Holding(t, q, m) && t.nextRowId == 2 && t.issued == {}
    requires Visible(m, now) && (q.fifo ==> m.groupId != "") && 0 <= timeout <= MAX_TIMEOUT && !ShouldRedrive(Configured(), q, m)
    ensures Reachable(Configured(), Received7(t, m, attemptId, timeout, now), now)
  {
    LeaseEnabled(t, q, m, attemptId, timeout, now);
    OneMoreStep(t, now, now, OnMessages(LeaseSome(1, 1, timeout, attemptId, [7])));
  }

  /** A new queue, a message sent to it at the start, and a receive of it at the same instant. */
  lemma SentAndReceived(q: Queue, attemptId: string, timeout: int) returns (t: Tables)
    requires Reachable(Configured(), OneQueue(q), 0) && q.id == 1 && q.deletedAt.None? && DelaySeconds(q) == 0
    requires RetentionSeconds(q) == 345600 && !ShouldRedrive(Configured(), q, TheMessage(q, 0)) && 0 <= timeout <= MAX_TIMEOUT
    ensures Reachable(Configured(), Received7(t, TheMessage(q, 0), attemptId, timeout, 0), 0)
    ensures t.issued == {} && t.receipts == map[] && t.attempts == map[] && t.nextRowId == 2 && t.nextCall == 0
    ensures t.queues == map[1 := q] && t.messages == map[1 := TheMessage(q, 0)]
  {
    var m := TheMessage(q, 0);
    MessageSent(OneQueue(q), q, 0, 0);
    t := Send(Configured(), OneQueue(q), q, OneLetter(q), 0);
    MessageReceived(t, q, m, attemptId, timeout, 0);
  }

  // ---- the redrive loop -----------------------------------------------------------------------

  /** The queue is stored and live, and its selection never ends. */
  ghost predicate NeverEnds(cfg: Config, t: Tables, q: Queue, now: int) {
    && q.id in t.queues && t.queues[q.id] == q && q.deletedAt.None?
    && forall n: nat :: !StopsAfter(cfg, t, q, 1, now, n)
  }

  lemma GoneIsMissing(t: Tables, q: Queue)
    requires t.queues == map[1 := q] && q.arn == QueueArn(Configured(), "q") && Attribute(q, "RedrivePolicy") == "once"
    ensures RedriveTarget(Configured(), t, q).None? && PolicyOf(Configured(), q) == Some(RedrivePolicy("arn:aws:sqs:eu:1:gone", 1))
  {
    var cfg := Configured();
    assert QueueArn(cfg, "gone") == "arn:aws:sqs:eu:1:gone";
    NamesFromUrls(cfg, "q", "gone");
  }

  lemma LoopStuck(t: Tables, q: Queue, m: Message, now: int)
    requires Keyed(Configured(), t) && Holding(t, q, m) && t.nextRowId == 2 && Visible(m, now) && !q.fifo
    requires q.arn == QueueArn(Configured(), "q") && Attribute(q, "RedrivePolicy") == "once" && m.receiveCount >= 1
    ensures NeverEnds(Configured(), t, q, now)
  {
    GoneIsMissing(t, q);
    OnlyCandidate(t, q, m, now);
    assert m in CandidatesOf(t, q, 1, now) && Over(Configured(), q)(m);
    forall n: nat ensures !StopsAfter(Configured(), t, q, 1, now, n) {
      Stuck(Configured(), t, q, 1, now, n);
    }
  }

  lemma NotYet(q: Queue, at: int)
    ensures !ShouldRedrive(Configured(), q, TheMessage(q, at))
  {
  }

  lemma ReceivedOnce(q: Queue) returns (t: Tables)
    requires Reachable(Configured(), OneQueue(q), 0) && q.id == 1 && q.deletedAt.None? && DelaySeconds(q) == 0
    requires RetentionSeconds(q) == 345600
    ensures Reachable(Configured(), t, 0) && Keyed(Configured(), t) && t.nextRowId == 2
    ensures Holding(t, q, LeaseMessage(TheMessage(q, 0), 0, 0))
  {
    NotYet(q, 0);
    var t1 := SentAndReceived(q, "", 0);
    t := Received7(t1, TheMessage(q, 0), "", 0, 0);
    LeaseColumns(t1, TheMessage(q, 0), "", 0, 0);
    LeasedHolding(t1, t, q, TheMessage(q, 0), 0, 0);
    ReachableSound(Configured(), t, 0);
  }

  /**
   * A queue whose dead-letter queue does not exist, and a message that has been received as often as its policy allows: the
   * next receive never ends.
   */
  lemma MissingQueueLoops() returns (t: Tables, q: Queue)
    ensures Reachable(Configured(), t, 0) && NeverEnds(Configured(), t, q, 0)
  {
    q := NewlyMade("q", "false", "once");
    QueueMade("q", "false", "once");
    MadeReads("q", "false", "once");
    t := ReceivedOnce(q);
    LoopStuck(t, q, LeaseMessage(TheMessage(q, 0), 0, 0), 0);
  }

  // ---- replay ---------------------------------------------------------------------------------

  /** A receive with an attempt id, and the longest visibility timeout. */
  const AGAIN: ReceiveRequest := ReceiveRequest(None, None, Some(MAX_TIMEOUT), "a")

  /** The receive is a successful replay, and the lease of handle 7 then passes twelve hours. */
  ghost predicate ReplayedPast(cfg: Config, t: Tables, q: Queue, now: int, extra: int) {
    && q.id in t.queues && t.queues[q.id] == q && ValidReceive(q, AGAIN) && Replays(t, q, AGAIN, now)
    && MessageEnabled(cfg, t, now, RefreshOne(q.id, "a", 7, MAX_TIMEOUT))
    && var t' := AfterReplay(t, q, AGAIN, now);
    && t' == MessageStep(cfg, t, now, RefreshOne(q.id, "a", 7, MAX_TIMEOUT))
    && 7 in t'.receipts && t'.receipts[7].active
    && t'.receipts[7].visibilityDeadline == t'.receipts[7].issuedAt + MAX_LEASE + extra
  }

  /** What the receive of the attempt has left behind. */
  ghost predicate AttemptCached(t: Tables, q: Queue, m: Message) {
    && Holding(t, q, m) && m.deletedAt.None? && m.retentionDeadline > 1000
    && t.receipts == map[7 := Receipt(1, 1, 7, 0, 30000, true, "a", 0, false)]
    && t.attempts == map[AttemptKey(1, "a") := ReceiveAttempt([Delivery(m.messageId, m.body, 7, 1)], DEDUP_WINDOW, None)]
  }

  lemma FirstLease(t: Tables, q: Queue, m: Message)
    requires Holding(t, q, m) && t.nextRowId == 2 && t.receipts == map[] && t.attempts == map[] && t.nextCall == 0 && m.receiveCount == 0
    requires m.deletedAt.None? && m.retentionDeadline > 1000
    ensures AttemptCached(Received7(t, m, "a", 30, 0), q, LeaseMessage(m, 30000, 0))
  {
    var t' := Received7(t, m, "a", 30, 0);
    LeaseColumns(t, m, "a", 30, 0);
    LeasedHolding(t, t', q, m, 30000, 0);
    assert Deactivate(t.receipts, RowIds([m])) == map[];
    assert IndexOf([7 as Handle], 7) == 0;
    assert t'.receipts == map[7 := Receipt(1, 1, 7, 0, 30000, true, "a", 0, false)];
    assert Deliveries([m], [7]) == [Delivery(m.messageId, m.body, 7, 1)];
  }

  lemma ReplaysPast(t: Tables, q: Queue, m: Message)
    requires AttemptCached(t, q, m) && q.fifo && 0 <= WaitTime(q) <= 20
    ensures ReplayedPast(Configured(), t, q, 1000, 1000)
  {
    var response := [Delivery(m.messageId, m.body, 7, 1)];
    assert response[1..] == [];
    assert Cached(t, q, AGAIN, 1000) == Some(ReceiveAttempt(response, DEDUP_WINDOW, None));
    assert Refreshable(t, 1, 7, 1000);
    assert response[0].receiptHandle == 7;
    var t' := SetLease(t, 7, 1000 + MAX_TIMEOUT * 1000, true);
    assert Refreshed(t', 1, [], MAX_TIMEOUT, 1000) == t' && AllRefreshed(t', 1, [], MAX_TIMEOUT, 1000);
    assert AllRefreshed(t, 1, response, MAX_TIMEOUT, 1000) && Refreshed(t, 1, response, MAX_TIMEOUT, 1000) == t';
  }

  /**
   * A FIFO queue, a message, a receive with an attempt id, and the same attempt one second later with the longest timeout: the
   * lease ends twelve hours and one second after its issue.
   */
  lemma ReplayPassesTwelveHours() returns (t: Tables, q: Queue)
    ensures Reachable(Configured(), t, 0) && ReplayedPast(Configured(), t, q, 1000, 1000)
  {
    q := NewlyMade("q.fifo", "true", "");
    QueueMade("q.fifo", "true", "");
    MadeReads("q.fifo", "true", "");
    NotYet(q, 0);
    var t1 := SentAndReceived(q, "a", 30);
    t := Received7(t1, TheMessage(q, 0), "a", 30, 0);
    FirstLease(t1, q, TheMessage(q, 0));
    ReplaysPast(t, q, LeaseMessage(TheMessage(q, 0), 30000, 0));
  }

  // ---- purge ----------------------------------------------------------------------------------

  const STAMP: map<string, string> := map["LastModifiedTimestamp" := "0"]

  /** The queue once a purge has been requested at the start. */
  function PurgedAtStart(q: Queue): Queue {
    Touch(q, STAMP, 0).(purgeRequestedAt := Some(0), purgeExpiresAt := Some(60000))
  }

  lemma StampedReads(q: Queue)
    ensures DelaySeconds(PurgedAtStart(q)) == DelaySeconds(q) && RetentionSeconds(PurgedAtStart(q)) == RetentionSeconds(q)
  {
    assert "DelaySeconds" !in STAMP && "MessageRetentionPeriod" !in STAMP;
  }

  lemma PurgeStep(q: Queue)
    requires q.id == 1 && q.purgeExpiresAt.None?
    ensures PurgeQueue(Configured(), OneQueue(q), q, STAMP, 0) == OneQueue(PurgedAtStart(q))
  {
    assert map[1 := q][1 := PurgedAtStart(q)] == map[1 := PurgedAtStart(q)];
  }

  lemma PurgeRequested(q: Queue)
    requires Reachable(Configured(), OneQueue(q), 0) && q.id == 1 && q.deletedAt.None? && q.purgeExpiresAt.None?
    ensures Reachable(Configured(), OneQueue(PurgedAtStart(q)), 0)
  {
    PurgeStep(q);
    OneMoreStep(OneQueue(q), 0, 0, OnQueues(Purge(1, STAMP)));
  }

  /** The message is live, and was sent after the purge was requested; reaping the queue takes it. */
  ghost predicate TakenLate(cfg: Config, t: Tables, q: Queue, m: Message, now: int) {
    && q.id in t.queues && t.queues[q.id] == q && Enabled(cfg, t, now, Upkeep(ReapOne(q.id)))
    && q.purgeRequestedAt.Some? && m.sentAt > q.purgeRequestedAt.value
    && m in LiveOf(t, q.id, now) && LiveOf(Step(cfg, t, now, Upkeep(ReapOne(q.id))), q.id, now) == []
  }

  lemma ReapedAway(t: Tables, q: Queue, m: Message)
    requires Holding(t, q, m) && t.nextRowId == 2 && q.purgeRequestedAt == Some(0) && q.purgeExpiresAt == Some(60000)
    requires Live(m, 2000) && m.sentAt == 1000
    ensures LiveOf(Reap(t, q, 2000), 1, 2000) == []
  {
    assert LazyExpiry.PurgeTakes(t, q, 2000, 1);
    LazyExpiry.ReapRow(t, q, 2000, 2000, 1);
    NothingLive(Reap(t, q, 2000), 2000);
  }

  lemma ReapStep(t: Tables, q: Queue)
    requires t.queues == map[1 := q] && q.id == 1 && q.deletedAt.None?
    ensures Enabled(Configured(), t, 2000, Upkeep(ReapOne(1)))
    ensures Step(Configured(), t, 2000, Upkeep(ReapOne(1))) == Reap(t, q, 2000)
  {
  }

  lemma ReapTakes(t: Tables, q: Queue, m: Message)
    requires Holding(t, q, m) && t.nextRowId == 2 && q.purgeRequestedAt == Some(0) && q.purgeExpiresAt == Some(60000)
    requires Live(m, 2000) && m.sentAt == 1000
    ensures TakenLate(Configured(), t, q, m, 2000)
  {
    OnlyLive(t, q, m, 2000);
    ReapedAway(t, q, m);
    ReapStep(t, q);
    assert m in [m];
  }

  lemma NothingLive(t: Tables, now: int)
    requires MessagesKeyed(t) && forall id :: id in t.messages ==> !Live(t.messages[id], now)
    ensures LiveOf(t, 1, now) == []
  {
    MessagesOfRows(t, 1);
    FilterNone(MessagesOf(t, 1), LiveAt(now));
  }

  /** A purge requested at the start takes a message that is sent a second later. */
  lemma PurgeTakesLaterMessage() returns (t: Tables, q: Queue)
    ensures Reachable(Configured(), t, 1000) && TakenLate(Configured(), t, q, TheMessage(q, 1000), 2000)
  {
    var made := NewlyMade("q", "false", "");
    QueueMade("q", "false", "");
    MadeReads("q", "false", "");
    PurgeRequested(made);
    StampedReads(made);
    q := PurgedAtStart(made);
    MessageSent(OneQueue(q), q, 0, 1000);
    t := Send(Configured(), OneQueue(q), q, OneLetter(q), 1000);
    ReapTakes(t, q, TheMessage(q, 1000));
  }

  // ---- a move task back to its source -----------------------------------------------------------

  /** A pass of the task is next, and records a wrong number of messages still to move. */
  ghost predicate Miscounts(cfg: Config, t: Tables, task: MoveTask, now: int) {
    && task.id in t.tasks && t.tasks[task.id] == task && Enabled(cfg, t, now, Upkeep(PassOne(task.id)))
    && var t' := Step(cfg, t, now, Upkeep(PassOne(task.id)));
    && task.id in t'.tasks && t'.tasks[task.id].toMove != Some(|LiveIds(t'.messages, task.sourceQueueId, now)|)
  }

  /** The task that moves the one message of the queue back to it. */
  function BackAgain(): MoveTask { NewTask(1, "h", 1, Some(1), None, 1, 0) }

  lemma TaskStarted(t: Tables, q: Queue, m: Message)
    requires Reachable(Configured(), t, 0) && Holding(t, q, m) && t.nextRowId == 2 && Live(m, 0)
    requires t.tasks == map[] && t.nextTaskId == 1
    ensures Reachable(Configured(), t.(tasks := map[1 := BackAgain()], nextTaskId := 2), 0)
  {
    var e := OnQueues(Start(1, Some(1), None, "h"));
    OnlyLive(t, q, m, 0);
    OneMoreStep(t, 0, 0, e);
    assert Step(Configured(), t, 0, e) == t.(tasks := map[1 := BackAgain()], nextTaskId := 2);
  }

  lemma ReturnedToSource(t: Tables, q: Queue, m: Message)
    requires Holding(t, q, m) && t.nextRowId == 2 && Live(m, 0)
    ensures 1 in Returned(t, BackAgain(), 0)
  {
    OnlyLive(t, q, m, 0);
    MessagesOfRows(t, 1);
    assert m in LiveOf(t, 1, 0) && m in MessagesOf(t, 1);
    AllMovable(t, BackAgain(), 0);
    assert MovedBy(t, BackAgain(), 0)[0] == m;
    RowIdIn(MovedBy(t, BackAgain(), 0), 0);
    assert GoesTo(t, BackAgain(), 1, 1);
  }

  /** A task whose destination is its source records nothing left to move, while the message is still there. */
  lemma MovedBackIsMiscounted() returns (t: Tables)
    ensures Reachable(Configured(), t, 0) && Miscounts(Configured(), t, BackAgain(), 0)
  {
    var q := NewlyMade("q", "false", "");
    QueueMade("q", "false", "");
    MadeReads("q", "false", "");
    MessageSent(OneQueue(q), q, 0, 0);
    var t1 := Send(Configured(), OneQueue(q), q, OneLetter(q), 0);
    TaskStarted(t1, q, TheMessage(q, 0));
    t := t1.(tasks := map[1 := BackAgain()], nextTaskId := 2);
    BackMiscounts(t, q, TheMessage(q, 0));
  }

  lemma PassStep(t: Tables)
    requires t.tasks == map[1 := BackAgain()]
    ensures Enabled(Configured(), t, 0, Upkeep(PassOne(1))) && Step(Configured(), t, 0, Upkeep(PassOne(1))) == MovePass(t, BackAgain(), 0)
  {
  }

  lemma BackMiscounts(t: Tables, q: Queue, m: Message)
    requires Holding(t, q, m) && t.nextRowId == 2 && Live(m, 0) && t.tasks == map[1 := BackAgain()]
    ensures Miscounts(Configured(), t, BackAgain(), 0)
  {
    OnlyLive(t, q, m, 0);
    ReturnedToSource(t, q, m);
    PassIsPassed(t, BackAgain(), 0);
    PassCountsRemaining(t, BackAgain(), 0, MovePass(t, BackAgain(), 0));
    PassStep(t);
  }
}
