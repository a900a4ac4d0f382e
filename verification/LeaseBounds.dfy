/** How long a lease can last, and what the cache of receive attempts knows about receipts. */
module LeaseBounds {
  import opened Records
  import opened Sequences
  import opened Tables
  import opened QueueAttributes
  import opened Deliverable
  import opened Plane
  import opened Integrity
  import opened Leases

  /**
   * A lease ends at most twelve hours after its receipt was issued; a replayed receive attempt may add up to,
   * but not including, the five minutes for which attempts are cached.
   */
  ghost predicate Bounded(r: Receipt) {
    && r.visibilityDeadline < r.issuedAt + MAX_LEASE + DEDUP_WINDOW
    && (!r.replayed ==> r.visibilityDeadline <= r.issuedAt + MAX_LEASE)
  }

  ghost predicate AllBounded(receipts: map<Handle, Receipt>) {
    forall h :: h in receipts ==> Bounded(receipts[h])
  }

  ghost predicate LeasesBounded(t: Tables) { AllBounded(t.receipts) }

  /** A cached attempt names distinct handles of its queue, and expires five minutes after they were issued. */
  ghost predicate Tied(k: AttemptKey, attempt: ReceiveAttempt, receipts: map<Handle, Receipt>, issued: set<Handle>) {
    && (forall i, j :: 0 <= i < j < |attempt.response| ==>
          attempt.response[i].receiptHandle != attempt.response[j].receiptHandle)
    && (forall d :: d in attempt.response ==>
          && d.receiptHandle in issued
          && (d.receiptHandle in receipts ==>
                && receipts[d.receiptHandle].queueId == k.queueId
                && attempt.expiresAt == receipts[d.receiptHandle].issuedAt + DEDUP_WINDOW))
  }

  ghost predicate AllTied(attempts: map<AttemptKey, ReceiveAttempt>, receipts: map<Handle, Receipt>, issued: set<Handle>) {
    forall k :: k in attempts ==> Tied(k, attempts[k], receipts, issued)
  }

  ghost predicate AttemptsTied(t: Tables) { AllTied(t.attempts, t.receipts, t.issued) }

  ghost predicate ReceiptsDescend(receipts: map<Handle, Receipt>, receipts': map<Handle, Receipt>) {
    forall h :: h in receipts' ==>
      && h in receipts
      && receipts'[h].issuedAt == receipts[h].issuedAt
      && receipts'[h].queueId == receipts[h].queueId
      && receipts'[h].visibilityDeadline == receipts[h].visibilityDeadline
      && receipts'[h].replayed == receipts[h].replayed
  }

  ghost predicate AttemptsDescend(attempts: map<AttemptKey, ReceiveAttempt>, attempts': map<AttemptKey, ReceiveAttempt>) {
    forall k :: k in attempts' ==>
      && k in attempts
      && attempts'[k].response == attempts[k].response
      && attempts'[k].expiresAt == attempts[k].expiresAt
  }

  /** Receipts and attempts of `t'` come from `t`, with the same issue times, deadlines and responses. */
  ghost predicate Descends(t: Tables, t': Tables) {
    && t'.issued == t.issued
    && ReceiptsDescend(t.receipts, t'.receipts)
    && AttemptsDescend(t.attempts, t'.attempts)
  }

  lemma DeactivateDescends(receipts: map<Handle, Receipt>, rows: set<int>)
    ensures ReceiptsDescend(receipts, Deactivate(receipts, rows)) && ReceiptsDescend(receipts, receipts)
  {
  }

  lemma SameAttemptsDescend(attempts: map<AttemptKey, ReceiveAttempt>)
    ensures AttemptsDescend(attempts, attempts)
  {
  }

  lemma DeactivateOneDescends(receipts: map<Handle, Receipt>, handle: Handle)
    requires handle in receipts
    ensures ReceiptsDescend(receipts, DeactivateOne(receipts, handle))
  {
  }

  lemma InvalidatedDescend(attempts: map<AttemptKey, ReceiveAttempt>, queueId: int, at: int)
    ensures AttemptsDescend(attempts, InvalidateAttempts(attempts, queueId, at))
  {
  }

  lemma BoundsDescend(t: Tables, t': Tables)
    requires LeasesBounded(t) && AttemptsTied(t) && Descends(t, t')
    ensures LeasesBounded(t') && AttemptsTied(t')
  {
    forall k | k in t'.attempts ensures Tied(k, t'.attempts[k], t'.receipts, t'.issued) {
      assert Tied(k, t.attempts[k], t.receipts, t.issued);
    }
  }

  lemma SetLeaseBounds(t: Tables, handle: Handle, deadline: int, replayed: bool)
    requires LeasesBounded(t) && AttemptsTied(t)
    requires handle in t.receipts && t.receipts[handle].messageRowId in t.messages
    requires deadline < t.receipts[handle].issuedAt + MAX_LEASE + DEDUP_WINDOW
    requires !replayed ==> deadline <= t.receipts[handle].issuedAt + MAX_LEASE
    ensures LeasesBounded(SetLease(t, handle, deadline, replayed)) && AttemptsTied(SetLease(t, handle, deadline, replayed))
  {
    var t' := SetLease(t, handle, deadline, replayed);
    forall k | k in t'.attempts ensures Tied(k, t'.attempts[k], t'.receipts, t'.issued) {
      assert Tied(k, t.attempts[k], t.receipts, t.issued);
    }
  }

  lemma RefreshBounds(t: Tables, queueId: int, attemptId: string, handle: Handle, timeout: int, now: int)
    requires LeasesBounded(t) && AttemptsTied(t) && 0 <= timeout <= MAX_TIMEOUT
    requires Refreshable(t, queueId, handle, now)
    requires FindAttempt(t, AttemptKey(queueId, attemptId), now).Some?
    requires exists d :: d in FindAttempt(t, AttemptKey(queueId, attemptId), now).value.response && d.receiptHandle == handle
    ensures now < t.receipts[handle].issuedAt + DEDUP_WINDOW
    ensures LeasesBounded(SetLease(t, handle, LeaseEnd(now, timeout), true))
    ensures AttemptsTied(SetLease(t, handle, LeaseEnd(now, timeout), true))
  {
    var k := AttemptKey(queueId, attemptId);
    assert Tied(k, t.attempts[k], t.receipts, t.issued);
    SetLeaseBounds(t, handle, LeaseEnd(now, timeout), true);
  }

  lemma ChangeBounds(t: Tables, queueId: int, handle: Handle, timeout: int, now: int)
    requires LeasesBounded(t) && AttemptsTied(t)
    ensures LeasesBounded(ChangeVisibility(t, queueId, handle, timeout, now))
    ensures AttemptsTied(ChangeVisibility(t, queueId, handle, timeout, now))
  {
    if ChangeResult(t, queueId, handle, timeout, now).Ok? {
      var t1 := SetLease(t, handle, LeaseEnd(now, timeout), false);
      SetLeaseBounds(t, handle, LeaseEnd(now, timeout), false);
      BoundsDescend(t1, t1.(attempts := InvalidateAttempts(t1.attempts, queueId, now)));
    }
  }

  lemma DeliveriesTied(t: Tables, queueId: int, rows: seq<Message>, handles: seq<Handle>, attemptId: string,
                       deadline: int, now: int)
    requires |handles| == |rows| && Unrepeated(handles)
    ensures var t' := Lease(t, queueId, rows, handles, attemptId, deadline, now);
      Tied(AttemptKey(queueId, attemptId), ReceiveAttempt(Deliveries(rows, handles), WindowEnd(now), None), t'.receipts, t'.issued)
  {
    var ds := Deliveries(rows, handles);
    forall i, j | 0 <= i < j < |ds| ensures ds[i].receiptHandle != ds[j].receiptHandle {
      UnrepeatedAt(handles, i, j);
    }
    forall d | d in ds ensures d.receiptHandle in handles {
      var i :| 0 <= i < |ds| && ds[i] == d;
    }
  }

  lemma LeaseBoundsKept(t: Tables, queueId: int, rows: seq<Message>, handles: seq<Handle>, attemptId: string,
                        deadline: int, now: int)
    requires ReceiptsKeyed(t) && LeasesBounded(t) && AttemptsTied(t) && Fresh(t, handles)
    requires |handles| == |rows| && deadline <= now + MAX_LEASE
    ensures LeasesBounded(Lease(t, queueId, rows, handles, attemptId, deadline, now))
    ensures AttemptsTied(Lease(t, queueId, rows, handles, attemptId, deadline, now))
  {
    var t' := Lease(t, queueId, rows, handles, attemptId, deadline, now);
    if rows != [] { DeliveriesTied(t, queueId, rows, handles, attemptId, deadline, now); }
    forall k | k in t'.attempts ensures Tied(k, t'.attempts[k], t'.receipts, t'.issued) {
      if attemptId == "" || rows == [] || k != AttemptKey(queueId, attemptId) {
        assert Tied(k, t.attempts[k], t.receipts, t.issued);
        assert forall d :: d in t.attempts[k].response ==> d.receiptHandle !in handles;
      }
    }
  }

  lemma ReapDescends(t: Tables, q: Queue, now: int)
    ensures Descends(t, Reap(t, q, now))
  {
    DeactivateDescends(t.receipts, ExpiredRows(t.messages, q.id, now));
    SameAttemptsDescend(t.attempts);
  }

  lemma MovePassDescends(t: Tables, task: MoveTask, now: int)
    ensures Descends(t, MovePass(t, task, now))
  {
    DeactivateDescends(t.receipts, RowIds(MovedBy(t, task, now)));
    SameAttemptsDescend(t.attempts);
  }

  lemma RedriveDescends(t: Tables, arn: string, targetId: int, rows: set<int>, now: int)
    ensures Descends(t, RedriveRows(t, arn, targetId, rows, now))
  {
    DeactivateDescends(t.receipts, rows);
    SameAttemptsDescend(t.attempts);
  }

  lemma DeleteDescends(t: Tables, queueId: int, handle: Handle, now: int)
    ensures Descends(t, Delete(t, queueId, handle, now))
  {
    DeleteParts(t, queueId, handle, now);
    SameAttemptsDescend(t.attempts);
    DeactivateDescends(t.receipts, {});
    if LeaseHeld(t, queueId, handle, now) { DeactivateOneDescends(t.receipts, handle); }
    if Deletes(t, queueId, handle, now) { InvalidatedDescend(t.attempts, queueId, now); }
  }

  lemma CreateDescends(cfg: Config, t: Tables, name: string, attributes: map<string, string>, stamps: map<string, string>, now: int)
    ensures Descends(t, CreateQueue(cfg, t, name, attributes, stamps, now))
  {
  }

  lemma MessageBounds(cfg: Config, t: Tables, now: int, e: MessageEvent)
    requires ReceiptsKeyed(t) && LeasesBounded(t) && AttemptsTied(t) && MessageEnabled(cfg, t, now, e)
    ensures LeasesBounded(MessageStep(cfg, t, now, e)) && AttemptsTied(MessageStep(cfg, t, now, e))
  {
    var t' := MessageStep(cfg, t, now, e);
    match e
    case SendOne(id, entry) =>
    case LeaseSome(id, max, timeout, attemptId, handles) =>
      LeaseBoundsKept(t, id, CandidatesOf(t, t.queues[id], max, now), handles, attemptId, LeaseEnd(now, timeout), now);
    case RedriveOne(id, row) =>
      RedriveDescends(t, t.queues[id].arn, RedriveTarget(cfg, t, t.queues[id]).value.id, {row}, now);
      BoundsDescend(t, t');
    case RefreshOne(id, attemptId, handle, timeout) => RefreshBounds(t, id, attemptId, handle, timeout, now);
    case DeleteOne(id, handle) =>
      DeleteDescends(t, id, handle, now);
      BoundsDescend(t, t');
    case ChangeOne(id, handle, timeout) => ChangeBounds(t, id, handle, timeout, now);
  }

  lemma UpkeepBounds(t: Tables, now: int, e: UpkeepEvent)
    requires LeasesBounded(t) && AttemptsTied(t) && UpkeepEnabled(t, e)
    ensures LeasesBounded(UpkeepStep(t, now, e)) && AttemptsTied(UpkeepStep(t, now, e))
  {
    match e
    case ApplyMutations => ApplyPatchesFrame(t, DuePatches(t, now), now);
    case DropLedger =>
    case ReapOne(id) =>
      ReapDescends(t, t.queues[id], now);
      BoundsDescend(t, UpkeepStep(t, now, e));
    case PassOne(id) =>
      MovePassDescends(t, t.tasks[id], now);
      BoundsDescend(t, UpkeepStep(t, now, e));
  }

  /** Every event keeps every lease within its bound. */
  lemma StepBounds(cfg: Config, t: Tables, now: int, e: Event)
    requires Keyed(cfg, t) && LeasesBounded(t) && AttemptsTied(t) && Enabled(cfg, t, now, e)
    ensures LeasesBounded(Step(cfg, t, now, e)) && AttemptsTied(Step(cfg, t, now, e))
  {
    match e
    case OnMessages(m) => MessageBounds(cfg, t, now, m);
    case Upkeep(u) => UpkeepBounds(t, now, u);
    case OnQueues(Create(name, attributes, stamps)) =>
      CreateDescends(cfg, t, name, attributes, stamps, now);
      BoundsDescend(t, Step(cfg, t, now, e));
    case OnQueues(q) => QueueFrame(cfg, t, now, q);
  }
}
