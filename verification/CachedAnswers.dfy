/** What a replayed receive attempt answers: the same messages, still under the same handles. */
module CachedAnswers {
  import opened Records
  import opened Sequences
  import opened Tables
  import opened QueueAttributes
  import opened Deliverable
  import opened Plane
  import opened Integrity
  import opened Leases
  import opened LeaseBounds
  import opened MoveTasks
  import opened Fates
  import opened Receiving
  import opened Requests
  import opened ReceiveRequests
  import opened Runs

  // ---- when a replay answers --------------------------------------------------------------------

  /** Distinct handles. */
  ghost predicate Apart(ds: seq<Delivery>) {
    forall i, j :: 0 <= i < j < |ds| ==> ds[i].receiptHandle != ds[j].receiptHandle
  }

  /** Refreshing one receipt does not keep another from being refreshed. */
  lemma {:induction false} EachRefreshed(t: Tables, queueId: int, ds: seq<Delivery>, timeout: int, now: int)
    requires Apart(ds)
    ensures AllRefreshed(t, queueId, ds, timeout, now) <==> forall d :: d in ds ==> Refreshable(t, queueId, d.receiptHandle, now)
    decreases |ds|
  {
    if ds != [] && Refreshable(t, queueId, ds[0].receiptHandle, now) {
      var t1 := SetLease(t, ds[0].receiptHandle, LeaseEnd(now, timeout), true);
      EachRefreshed(t1, queueId, ds[1..], timeout, now);
      forall d | d in ds[1..] ensures Refreshable(t1, queueId, d.receiptHandle, now) <==> Refreshable(t, queueId, d.receiptHandle, now) {
        var i := IndexOf(ds[1..], d);
        assert ds[1..][i] == ds[i + 1];
        OtherRefreshable(t, queueId, ds[0].receiptHandle, d.receiptHandle, LeaseEnd(now, timeout), now);
      }
    }
  }

  lemma OtherRefreshable(t: Tables, queueId: int, h: Handle, other: Handle, deadline: int, now: int)
    requires h != other && h in t.receipts && t.receipts[h].messageRowId in t.messages
    ensures Refreshable(SetLease(t, h, deadline, true), queueId, other, now) <==> Refreshable(t, queueId, other, now)
  {
  }

  /**
   * A receive is answered by a replay if and only if it names an attempt of the queue that is cached, has not expired and has not
   * been made invalid, and every receipt of its answer is active with its lease running, for a live message of the queue.
   */
  lemma ReplaysExactly(cfg: Config, t: Tables, q: Queue, r: ReceiveRequest, now: int)
    requires Sound(cfg, t, now)
    ensures var k := AttemptKey(q.id, r.attemptId);
      Replays(t, q, r, now) <==>
      && r.attemptId != "" && k in t.attempts && t.attempts[k].expiresAt > now && t.attempts[k].invalidatedAt.None?
      && forall d :: d in t.attempts[k].response ==>
           && d.receiptHandle in t.receipts && t.receipts[d.receiptHandle].active && t.receipts[d.receiptHandle].visibilityDeadline > now
           && t.receipts[d.receiptHandle].messageRowId in t.messages
           && var m := t.messages[t.receipts[d.receiptHandle].messageRowId];
           m.queueId == q.id && m.deletedAt.None? && m.retentionDeadline > now
  {
    var k := AttemptKey(q.id, r.attemptId);
    if Cached(t, q, r, now).Some? {
      assert Tied(k, t.attempts[k], t.receipts, t.issued);
      EachRefreshed(t, q.id, t.attempts[k].response, TimeoutOf(q, r), now);
    }
  }

  // ---- cached answers keep to their messages ------------------------------------------------------

  /** The receipt of the delivery names the message that the delivery is of, as long as both are there. */
  ghost predicate Named(d: Delivery, receipts: map<Handle, Receipt>, messages: map<int, Message>) {
    d.receiptHandle in receipts && receipts[d.receiptHandle].messageRowId in messages ==>
      var m := messages[receipts[d.receiptHandle].messageRowId];
      m.messageId == d.messageId && m.body == d.body
  }

  ghost predicate AllNamed(t: Tables) {
    forall k, d :: k in t.attempts && d in t.attempts[k].response ==> Named(d, t.receipts, t.messages)
  }

  /** Receipts that were ever drawn name the row that they named, and rows keep their identity. */
  ghost predicate KeepsNames(t: Tables, t': Tables) {
    && Continues(t.messages, t'.messages, t.nextRowId)
    && forall h :: h in t'.receipts && h in t.issued ==> h in t.receipts && t'.receipts[h].messageRowId == t.receipts[h].messageRowId
  }

  lemma NamedKept(cfg: Config, t: Tables, t': Tables)
    requires Keyed(cfg, t) && AttemptsTied(t) && AllNamed(t) && KeepsNames(t, t') && AttemptsDescend(t.attempts, t'.attempts)
    ensures AllNamed(t')
  {
    forall k, d | k in t'.attempts && d in t'.attempts[k].response ensures Named(d, t'.receipts, t'.messages) {
      assert Tied(k, t.attempts[k], t.receipts, t.issued) && Named(d, t.receipts, t.messages);
      DeliveryNamed(t, t', d);
    }
  }

  lemma DeliveryNamed(t: Tables, t': Tables, d: Delivery)
    requires ReceiptKeys(t.receipts, t.nextRowId, t.issued, t.nextCall) && d.receiptHandle in t.issued
    requires Named(d, t.receipts, t.messages) && KeepsNames(t, t')
    ensures Named(d, t'.receipts, t'.messages)
  {
  }

  lemma LeaseNamed(cfg: Config, t: Tables, queueId: int, rows: seq<Message>, handles: seq<Handle>, attemptId: string, deadline: int, now: int)
    requires Keyed(cfg, t) && AttemptsTied(t) && AllNamed(t) && |handles| == |rows| && Fresh(t, handles)
    requires RowsOf(t.messages, rows)
    ensures AllNamed(Lease(t, queueId, rows, handles, attemptId, deadline, now))
  {
    var t' := Lease(t, queueId, rows, handles, attemptId, deadline, now);
    LeaseKeepsNames(t, queueId, rows, handles, attemptId, deadline, now);
    forall k, d | k in t'.attempts && d in t'.attempts[k].response ensures Named(d, t'.receipts, t'.messages) {
      if k in t.attempts && d in t.attempts[k].response {
        assert Tied(k, t.attempts[k], t.receipts, t.issued) && Named(d, t.receipts, t.messages);
        DeliveryNamed(t, t', d);
      } else {
        var i := IndexOf(Deliveries(rows, handles), d);
        LeasePairs(t, queueId, rows, handles, attemptId, deadline, now, i);
      }
    }
  }

  lemma LeaseKeepsNames(t: Tables, queueId: int, rows: seq<Message>, handles: seq<Handle>, attemptId: string, deadline: int, now: int)
    requires |handles| == |rows| && Fresh(t, handles)
    ensures KeepsNames(t, Lease(t, queueId, rows, handles, attemptId, deadline, now))
  {
  }

  // ---- over runs ----------------------------------------------------------------------------------

  /** The receipts name the same rows, and the attempts are among those there were. */
  ghost predicate SameAnswers(t: Tables, t': Tables) {
    SameReceiptRows(t.receipts, t'.receipts) && AttemptsDescend(t.attempts, t'.attempts)
  }

  lemma MessageAnswers(cfg: Config, t: Tables, now: int, e: MessageEvent)
    requires MessageEnabled(cfg, t, now, e) && !e.LeaseSome?
    ensures SameAnswers(t, MessageStep(cfg, t, now, e))
  {
    SameAttemptsDescend(t.attempts);
    match e
    case SendOne(_, _) =>
    case RedriveOne(id, row) => RedriveRowsOnly(t, t.queues[id].arn, RedriveTarget(cfg, t, t.queues[id]).value.id, {row}, now);
    case RefreshOne(_, _, handle, timeout) => SetLeaseRows(t, handle, LeaseEnd(now, timeout), true);
    case DeleteOne(id, handle) =>
      DeleteRows(t, id, handle, now);
      DeleteDescends(t, id, handle, now);
    case ChangeOne(id, handle, timeout) =>
      ChangeRows(t, id, handle, timeout, now);
      InvalidatedDescend(t.attempts, id, now);
  }

  lemma UpkeepAnswers(t: Tables, now: int, e: UpkeepEvent)
    requires UpkeepEnabled(t, e)
    ensures SameAnswers(t, UpkeepStep(t, now, e))
  {
    SameAttemptsDescend(t.attempts);
    match e
    case ApplyMutations => ApplyPatchesFrame(t, DuePatches(t, now), now);
    case DropLedger =>
    case ReapOne(id) =>
    case PassOne(id) => MovePassRows(t, t.tasks[id], now);
  }

  lemma CreateAnswers(cfg: Config, t: Tables, name: string, attributes: map<string, string>, stamps: map<string, string>, now: int)
    ensures SameAnswers(t, CreateQueue(cfg, t, name, attributes, stamps, now))
  {
  }

  lemma StepAnswers(cfg: Config, t: Tables, now: int, e: Event)
    requires Keyed(cfg, t) && Enabled(cfg, t, now, e) && !(e.OnMessages? && e.message.LeaseSome?)
    ensures SameAnswers(t, Step(cfg, t, now, e))
  {
    match e
    case OnMessages(m) => MessageAnswers(cfg, t, now, m);
    case Upkeep(u) => UpkeepAnswers(t, now, u);
    case OnQueues(Create(name, attributes, stamps)) => CreateAnswers(cfg, t, name, attributes, stamps, now);
    case OnQueues(q) =>
      QueueFrame(cfg, t, now, q);
      SameAttemptsDescend(t.attempts);
  }

  /** Every event keeps cached answers with their messages. */
  lemma StepNamed(cfg: Config, t: Tables, now: int, e: Event)
    requires Keyed(cfg, t) && AttemptsTied(t) && AllNamed(t) && Enabled(cfg, t, now, e)
    ensures AllNamed(Step(cfg, t, now, e))
  {
    if e.OnMessages? && e.message.LeaseSome? {
      var m := e.message;
      var q := t.queues[m.queueId];
      CandidatesStored(t, q, m.max, now);
      LeaseNamed(cfg, t, m.queueId, CandidatesOf(t, q, m.max, now), m.handles, m.attemptId, LeaseEnd(now, m.timeout), now);
    } else {
      StepAnswers(cfg, t, now, e);
      StepFollows(cfg, t, now, e, 0);
      NamedKept(cfg, t, Step(cfg, t, now, e));
    }
  }

  lemma {:induction false} RunNamed(cfg: Config, t: Tables, now: int, run: seq<Tick>)
    requires Sound(cfg, t, now) && AllNamed(t) && Legal(cfg, t, now, run)
    ensures AllNamed(After(cfg, t, now, run))
    decreases |run|
  {
    if run != [] {
      StepNamed(cfg, t, run[0].at, run[0].event);
      StepSound(cfg, t, now, run[0]);
      RunNamed(cfg, Step(cfg, t, run[0].at, run[0].event), run[0].at, run[1..]);
    }
  }

  /** In every state that a run leads to, cached answers are with their messages. */
  lemma ReachableNamed(cfg: Config, t: Tables, now: int)
    requires Reachable(cfg, t, now)
    ensures AllNamed(t)
  {
    var start, run :| Legal(cfg, EMPTY, start, run) && After(cfg, EMPTY, start, run) == t && EndOf(start, run) == now;
    RunNamed(cfg, EMPTY, start, run);
  }

  /**
   * The `i`th message of a replayed answer: its handle is that of an active receipt, which names a live row of the queue with the
   * message id and the body of the answer; both now have the new deadline.
   */
  lemma ReplayPairs(cfg: Config, t: Tables, now: int, q: Queue, r: ReceiveRequest, i: nat)
    requires Reachable(cfg, t, now) && Replays(t, q, r, now) && i < |Cached(t, q, r, now).value.response|
    ensures var d, t', deadline := Cached(t, q, r, now).value.response[i], AfterReplay(t, q, r, now), now + TimeoutOf(q, r) * 1000;
      && d.receiptHandle in t'.receipts && t'.receipts[d.receiptHandle].messageRowId in t'.messages
      && var receipt, m := t'.receipts[d.receiptHandle], t'.messages[t'.receipts[d.receiptHandle].messageRowId];
      && receipt.active && receipt.visibilityDeadline == deadline && m.visibilityDeadline == Some(deadline)
      && m.messageId == d.messageId && m.body == d.body
      && m.queueId == q.id && m.deletedAt.None? && m.retentionDeadline > now
  {
    var response := Cached(t, q, r, now).value.response;
    ReachableNamed(cfg, t, now);
    ReplayLeases(t, q.id, response, TimeoutOf(q, r), now, i);
    ReplayOnlyDeadlines(t, q.id, response, TimeoutOf(q, r), now);
    assert response[i] in t.attempts[AttemptKey(q.id, r.attemptId)].response && Named(response[i], t.receipts, t.messages);
  }
}
