/** A message group of a FIFO queue is leased to one receive call at a time. */
module FifoLocks {
  import opened Records
  import opened Sequences
  import opened Tables
  import opened QueueAttributes
  import opened Deliverable
  import opened DeliveryLaws
  import opened Plane
  import opened Integrity
  import opened Leases

  // ---- every message is in a queue -----------------------------------------------

  /** The foreign key of the message table. */
  ghost predicate InQueues(messages: map<int, Message>, queues: map<int, Queue>) {
    forall id :: id in messages ==> messages[id].queueId in queues
  }

  ghost predicate Referenced(t: Tables) { InQueues(t.messages, t.queues) }

  lemma LeaseReferenced(t: Tables, rows: set<int>, deadline: int, now: int)
    requires Referenced(t)
    ensures InQueues(LeaseMessages(t.messages, rows, deadline, now), t.queues)
  {
  }

  lemma MovePassReferenced(t: Tables, task: MoveTask, now: int, rows: set<int>)
    requires Referenced(t) && (forall id :: id in t.queues ==> t.queues[id].id == id)
    ensures InQueues(MoveRows(t, task, rows, now), t.queues)
  {
  }

  lemma ReapReferenced(t: Tables, q: Queue, now: int)
    requires Referenced(t)
    ensures Referenced(Reap(t, q, now))
  {
  }

  lemma CreateReferenced(cfg: Config, t: Tables, name: string, attributes: map<string, string>, stamps: map<string, string>, now: int)
    requires Referenced(t) && QueuesKeyed(cfg, t)
    ensures Referenced(CreateQueue(cfg, t, name, attributes, stamps, now))
  {
    var existing := QueueByName(t, name);
    if existing.Some? {
      assert Referenced(RemoveQueue(t, existing.value.id));
    }
  }

  lemma SendReferenced(cfg: Config, t: Tables, q: Queue, entry: Entry, now: int)
    requires Referenced(t) && q.id in t.queues
    ensures Referenced(Send(cfg, t, q, entry, now))
  {
  }

  lemma RedriveReferenced(t: Tables, arn: string, targetId: int, rows: set<int>, now: int)
    requires Referenced(t) && targetId in t.queues
    ensures Referenced(RedriveRows(t, arn, targetId, rows, now))
  {
  }

  lemma ReceiptsReferenced(t: Tables, queueId: int, handle: Handle, timeout: int, now: int)
    requires Referenced(t)
    ensures Referenced(Delete(t, queueId, handle, now)) && Referenced(ChangeVisibility(t, queueId, handle, timeout, now))
    ensures Refreshable(t, queueId, handle, now) ==> Referenced(SetLease(t, handle, LeaseEnd(now, timeout), true))
  {
  }

  lemma LeaseStepReferenced(t: Tables, queueId: int, rows: seq<Message>, handles: seq<Handle>, attemptId: string, deadline: int, now: int)
    requires Referenced(t) && |handles| == |rows|
    ensures Referenced(Lease(t, queueId, rows, handles, attemptId, deadline, now))
  {
    LeaseParts(t, queueId, rows, handles, attemptId, deadline, now);
    LeaseReferenced(t, RowIds(rows), deadline, now);
  }

  lemma MessageReferenced(cfg: Config, t: Tables, now: int, e: MessageEvent)
    requires Keyed(cfg, t) && Referenced(t) && MessageEnabled(cfg, t, now, e)
    ensures Referenced(MessageStep(cfg, t, now, e))
  {
    match e
    case SendOne(id, entry) => SendReferenced(cfg, t, t.queues[id], entry, now);
    case LeaseSome(id, max, timeout, attemptId, handles) =>
      LeaseStepReferenced(t, id, CandidatesOf(t, t.queues[id], max, now), handles, attemptId, LeaseEnd(now, timeout), now);
    case RedriveOne(id, row) =>
      RedriveReferenced(t, t.queues[id].arn, RedriveTarget(cfg, t, t.queues[id]).value.id, {row}, now);
    case RefreshOne(id, _, handle, timeout) => ReceiptsReferenced(t, id, handle, timeout, now);
    case DeleteOne(id, handle) => ReceiptsReferenced(t, id, handle, 0, now);
    case ChangeOne(id, handle, timeout) => ReceiptsReferenced(t, id, handle, timeout, now);
  }

  lemma UpkeepReferenced(cfg: Config, t: Tables, now: int, e: UpkeepEvent)
    requires Keyed(cfg, t) && Referenced(t) && UpkeepEnabled(t, e)
    ensures Referenced(UpkeepStep(t, now, e))
  {
    match e
    case ApplyMutations => ApplyPatchesFrame(t, DuePatches(t, now), now);
    case DropLedger =>
    case PassOne(id) => MovePassReferenced(t, t.tasks[id], now, RowIds(MovedBy(t, t.tasks[id], now)));
    case ReapOne(id) => ReapReferenced(t, t.queues[id], now);
  }

  lemma StepReferenced(cfg: Config, t: Tables, now: int, e: Event)
    requires Keyed(cfg, t) && Referenced(t) && Enabled(cfg, t, now, e)
    ensures Referenced(Step(cfg, t, now, e))
  {
    match e
    case OnMessages(m) => MessageReferenced(cfg, t, now, m);
    case Upkeep(u) => UpkeepReferenced(cfg, t, now, u);
    case OnQueues(Create(name, attributes, stamps)) => CreateReferenced(cfg, t, name, attributes, stamps, now);
    case OnQueues(q) => QueueFrame(cfg, t, now, q);
  }

  // ---- exclusive groups -------------------------------------------------------------

  /** An unexpired active receipt for a live message of a FIFO queue. */
  ghost predicate HoldsFifo(t: Tables, h: Handle, now: int) {
    && h in t.receipts && t.receipts[h].active && t.receipts[h].visibilityDeadline > now
    && t.receipts[h].messageRowId in t.messages
    && Live(t.messages[t.receipts[h].messageRowId], now)
    && t.messages[t.receipts[h].messageRowId].queueId in t.queues
    && t.queues[t.messages[t.receipts[h].messageRowId].queueId].fifo
  }

  ghost function GroupOf(t: Tables, h: Handle): (int, string)
    requires h in t.receipts && t.receipts[h].messageRowId in t.messages
  {
    var m := t.messages[t.receipts[h].messageRowId];
    (m.queueId, m.groupId)
  }

  /** All unexpired leases on live messages of one group come from a single receive call. */
  ghost predicate GroupsExclusive(t: Tables, now: int) {
    forall a, b :: HoldsFifo(t, a, now) && HoldsFifo(t, b, now) && GroupOf(t, a) == GroupOf(t, b) ==>
      t.receipts[a].call == t.receipts[b].call
  }

  lemma ExclusiveLater(t: Tables, now: int, later: int)
    requires GroupsExclusive(t, now) && now <= later
    ensures GroupsExclusive(t, later)
  {
    forall h | HoldsFifo(t, h, later) ensures HoldsFifo(t, h, now) {}
  }

  /** A held lease of `t'` was held before, by the same call, in the same group. */
  ghost predicate WasHeld(t: Tables, t': Tables, now: int, h: Handle) {
    HoldsFifo(t', h, now) ==>
      HoldsFifo(t, h, now) && t'.receipts[h].call == t.receipts[h].call && GroupOf(t', h) == GroupOf(t, h)
  }

  lemma ExclusiveFrame(t: Tables, t': Tables, now: int)
    requires GroupsExclusive(t, now)
    requires forall h :: WasHeld(t, t', now, h)
    ensures GroupsExclusive(t', now)
  {
    forall a, b | HoldsFifo(t', a, now) && HoldsFifo(t', b, now) && GroupOf(t', a) == GroupOf(t', b)
      ensures t'.receipts[a].call == t'.receipts[b].call
    {
      assert WasHeld(t, t', now, a) && WasHeld(t, t', now, b);
    }
  }

  /** The rows' receipts were deactivated, other messages kept queue and group and did not come back to life. */
  lemma ExclusiveCleared(t: Tables, t': Tables, rows: set<int>, now: int)
    requires GroupsExclusive(t, now) && Referenced(t)
    requires t'.receipts == Deactivate(t.receipts, rows) && SameFifo(t.queues, t'.queues)
    requires forall id :: id in t'.messages && id !in rows ==>
      && id in t.messages && t'.messages[id].queueId == t.messages[id].queueId
      && t'.messages[id].groupId == t.messages[id].groupId
      && (Live(t'.messages[id], now) ==> Live(t.messages[id], now))
    ensures GroupsExclusive(t', now)
  {
    forall h ensures WasHeld(t, t', now, h) {}
    ExclusiveFrame(t, t', now);
  }

  lemma ReapExclusive(cfg: Config, t: Tables, q: Queue, now: int)
    requires GroupsExclusive(t, now) && Referenced(t) && q.id in t.queues && t.queues[q.id] == q
    ensures GroupsExclusive(Reap(t, q, now), now)
  {
    ExclusiveCleared(t, Reap(t, q, now), ExpiredRows(t.messages, q.id, now), now);
  }

  lemma RedriveExclusive(t: Tables, arn: string, targetId: int, rows: set<int>, now: int)
    requires GroupsExclusive(t, now) && Referenced(t)
    ensures GroupsExclusive(RedriveRows(t, arn, targetId, rows, now), now)
  {
    ExclusiveCleared(t, RedriveRows(t, arn, targetId, rows, now), rows, now);
  }

  lemma MovePassExclusive(t: Tables, task: MoveTask, now: int)
    requires GroupsExclusive(t, now) && Referenced(t)
    ensures GroupsExclusive(MovePass(t, task, now), now)
  {
    var t' := MovePass(t, task, now);
    if IsLive(QueueById(t, task.sourceQueueId)) {
      var rows := RowIds(MovedBy(t, task, now));
      assert t'.messages == MoveRows(t, task, rows, now) && t'.receipts == Deactivate(t.receipts, rows);
      ExclusiveCleared(t, t', rows, now);
    } else {
      forall h ensures WasHeld(t, t', now, h) {}
      ExclusiveFrame(t, t', now);
    }
  }

  lemma SetLeaseExclusive(t: Tables, handle: Handle, deadline: int, replayed: bool, now: int)
    requires GroupsExclusive(t, now) && MessagesKeyed(t)
    requires handle in t.receipts && t.receipts[handle].active && t.receipts[handle].visibilityDeadline > now
    requires t.receipts[handle].messageRowId in t.messages
    ensures GroupsExclusive(SetLease(t, handle, deadline, replayed), now)
  {
    var t' := SetLease(t, handle, deadline, replayed);
    forall h ensures WasHeld(t, t', now, h) {}
    ExclusiveFrame(t, t', now);
  }

  lemma ChangeExclusive(t: Tables, queueId: int, handle: Handle, timeout: int, now: int)
    requires GroupsExclusive(t, now) && MessagesKeyed(t)
    ensures GroupsExclusive(ChangeVisibility(t, queueId, handle, timeout, now), now)
  {
    if ChangeResult(t, queueId, handle, timeout, now).Ok? {
      var t1, t' := SetLease(t, handle, LeaseEnd(now, timeout), false), ChangeVisibility(t, queueId, handle, timeout, now);
      SetLeaseExclusive(t, handle, LeaseEnd(now, timeout), false, now);
      assert t'.receipts == t1.receipts && t'.messages == t1.messages && t'.queues == t1.queues;
      forall h ensures WasHeld(t1, t', now, h) {}
      ExclusiveFrame(t1, t', now);
    }
  }

  lemma DeleteExclusive(t: Tables, queueId: int, handle: Handle, now: int)
    requires GroupsExclusive(t, now)
    ensures GroupsExclusive(Delete(t, queueId, handle, now), now)
  {
    DeleteParts(t, queueId, handle, now);
    DeletedExclusive(t, Delete(t, queueId, handle, now), queueId, handle, now);
  }

  lemma DeletedExclusive(t: Tables, t': Tables, queueId: int, handle: Handle, now: int)
    requires GroupsExclusive(t, now) && t'.queues == t.queues
    requires t'.receipts == if LeaseHeld(t, queueId, handle, now) then DeactivateOne(t.receipts, handle) else t.receipts
    requires t'.messages == if Deletes(t, queueId, handle, now) then WithDeleted(t.messages, t.receipts[handle].messageRowId, now) else t.messages
    ensures GroupsExclusive(t', now)
  {
    forall h ensures WasHeld(t, t', now, h) {}
    ExclusiveFrame(t, t', now);
  }

  lemma RemoveQueueExclusive(t: Tables, queueId: int, now: int)
    requires GroupsExclusive(t, now)
    ensures GroupsExclusive(RemoveQueue(t, queueId), now)
  {
    forall h ensures WasHeld(t, RemoveQueue(t, queueId), now, h) {}
    ExclusiveFrame(t, RemoveQueue(t, queueId), now);
  }

  lemma AddQueueExclusive(t: Tables, t': Tables, q: Queue, now: int)
    requires GroupsExclusive(t, now) && Referenced(t) && q.id !in t.queues
    requires t'.messages == t.messages && t'.receipts == t.receipts && t'.queues == t.queues[q.id := q]
    ensures GroupsExclusive(t', now)
  {
    forall h ensures WasHeld(t, t', now, h) {}
    ExclusiveFrame(t, t', now);
  }

  lemma CreateExclusive(cfg: Config, t: Tables, name: string, attributes: map<string, string>, stamps: map<string, string>, now: int)
    requires GroupsExclusive(t, now) && Referenced(t) && QueuesKeyed(cfg, t)
    ensures GroupsExclusive(CreateQueue(cfg, t, name, attributes, stamps, now), now)
  {
    var existing := QueueByName(t, name);
    if !Blocked(t, name, now) && !IsLive(existing) {
      var t1 := if existing.Some? then RemoveQueue(t, existing.value.id) else t;
      if existing.Some? { RemoveQueueExclusive(t, existing.value.id, now); }
      assert Referenced(t1);
      var t' := CreateQueue(cfg, t, name, attributes, stamps, now);
      AddQueueExclusive(t1, t', NewQueue(cfg, t1.nextQueueId, name, attributes, now, stamps), now);
    }
  }

  /** Messages and receipts are as before and no queue changed its kind. */
  lemma OthersExclusive(t: Tables, t': Tables, now: int)
    requires GroupsExclusive(t, now) && Referenced(t)
    requires t'.receipts == t.receipts && SameFifo(t.queues, t'.queues)
    requires forall id :: id in t.messages ==> id in t'.messages && t'.messages[id] == t.messages[id]
    requires forall h :: h in t.receipts && t.receipts[h].messageRowId in t'.messages ==> t.receipts[h].messageRowId in t.messages
    ensures GroupsExclusive(t', now)
  {
    forall h ensures WasHeld(t, t', now, h) {}
    ExclusiveFrame(t, t', now);
  }

  /** A lease held before a receive call is not in a group the call leases. */
  lemma CandidateGroupUnheld(t: Tables, q: Queue, max: nat, now: int, m: Message, h: Handle)
    requires MessagesKeyed(t) && LeaseAgreement(t) && q.id in t.queues && t.queues[q.id] == q && q.fifo
    requires m in CandidatesOf(t, q, max, now) && HoldsFifo(t, h, now)
    ensures GroupOf(t, h) != (q.id, m.groupId)
  {
    var held := t.messages[t.receipts[h].messageRowId];
    HolderOf(t, h);
    MessagesOfRows(t, q.id);
    if GroupOf(t, h) == (q.id, m.groupId) {
      assert held in LiveOf(t, q.id, now);
      CandidatesSound(true, LiveOf(t, q.id, now), max, now, m);
    }
  }

  /** What a lease changes, table by table. */
  ghost predicate LeasedFrom(t: Tables, t': Tables, rows: seq<Message>, added: map<Handle, Receipt>, deadline: int, now: int) {
    && t'.messages == LeaseMessages(t.messages, RowIds(rows), deadline, now) && t'.queues == t.queues
    && t'.receipts == Deactivate(t.receipts, RowIds(rows)) + added
  }

  /** A lease that the call has issued, on one of its candidates. */
  ghost predicate ByCall(t: Tables, t': Tables, q: Queue, rows: seq<Message>, h: Handle) {
    && h in t'.receipts && t'.receipts[h].messageRowId in t'.messages && t'.receipts[h].call == t.nextCall
    && exists m :: m in rows && GroupOf(t', h) == (q.id, m.groupId)
  }

  lemma HeldByCall(t: Tables, t': Tables, q: Queue, max: nat, deadline: int, attemptId: string, handles: seq<Handle>, now: int,
                   added: map<Handle, Receipt>, h: Handle)
    requires MessagesKeyed(t) && |handles| == |CandidatesOf(t, q, max, now)| && h in handles
    requires added == NewReceipts(q.id, CandidatesOf(t, q, max, now), handles, attemptId, deadline, now, t.nextCall)
    requires LeasedFrom(t, t', CandidatesOf(t, q, max, now), added, deadline, now)
    ensures ByCall(t, t', q, CandidatesOf(t, q, max, now), h)
  {
    var rows := CandidatesOf(t, q, max, now);
    CandidateRows(t, q, max, now);
    var m := rows[IndexOf(handles, h)];
    assert m in rows;
    assert GroupOf(t', h) == (q.id, m.groupId);
  }

  /** Any other lease was held before. */
  lemma HeldBefore(t: Tables, t': Tables, rows: seq<Message>, added: map<Handle, Receipt>, deadline: int, now: int, h: Handle)
    requires LeasedFrom(t, t', rows, added, deadline, now) && h !in added
    ensures WasHeld(t, t', now, h)
  {
    if HoldsFifo(t', h, now) {
      assert t'.receipts[h] == Deactivate(t.receipts, RowIds(rows))[h];
    }
  }

  /** A lease of the call and one from before are never on the same group. */
  lemma NoClash(t: Tables, t': Tables, q: Queue, max: nat, now: int, a: Handle, b: Handle)
    requires MessagesKeyed(t) && LeaseAgreement(t) && q.id in t.queues && t.queues[q.id] == q && t'.queues == t.queues
    requires ByCall(t, t', q, CandidatesOf(t, q, max, now), a) && HoldsFifo(t', a, now)
    requires HoldsFifo(t', b, now) && WasHeld(t, t', now, b)
    ensures GroupOf(t', a) != GroupOf(t', b)
  {
    var m :| m in CandidatesOf(t, q, max, now) && GroupOf(t', a) == (q.id, m.groupId);
    CandidateGroupUnheld(t, q, max, now, m, b);
  }

  lemma LeaseExclusive(t: Tables, q: Queue, max: nat, deadline: int, attemptId: string, handles: seq<Handle>, now: int)
    requires MessagesKeyed(t) && LeaseAgreement(t) && GroupsExclusive(t, now)
    requires q.id in t.queues && t.queues[q.id] == q && |handles| == |CandidatesOf(t, q, max, now)|
    ensures GroupsExclusive(Lease(t, q.id, CandidatesOf(t, q, max, now), handles, attemptId, deadline, now), now)
  {
    var rows := CandidatesOf(t, q, max, now);
    LeaseParts(t, q.id, rows, handles, attemptId, deadline, now);
    LeasedExclusive(t, Lease(t, q.id, rows, handles, attemptId, deadline, now), q, max, deadline, attemptId, handles, now,
                    NewReceipts(q.id, rows, handles, attemptId, deadline, now, t.nextCall));
  }

  lemma LeasedExclusive(t: Tables, t': Tables, q: Queue, max: nat, deadline: int, attemptId: string, handles: seq<Handle>, now: int,
                        added: map<Handle, Receipt>)
    requires MessagesKeyed(t) && LeaseAgreement(t) && GroupsExclusive(t, now)
    requires q.id in t.queues && t.queues[q.id] == q && |handles| == |CandidatesOf(t, q, max, now)|
    requires added == NewReceipts(q.id, CandidatesOf(t, q, max, now), handles, attemptId, deadline, now, t.nextCall)
    requires LeasedFrom(t, t', CandidatesOf(t, q, max, now), added, deadline, now)
    ensures GroupsExclusive(t', now)
  {
    forall a, b | HoldsFifo(t', a, now) && HoldsFifo(t', b, now) && GroupOf(t', a) == GroupOf(t', b)
      ensures t'.receipts[a].call == t'.receipts[b].call
    {
      HeldEitherWay(t, t', q, max, deadline, attemptId, handles, now, added, a);
      HeldEitherWay(t, t', q, max, deadline, attemptId, handles, now, added, b);
      if a in handles && b !in handles { NoClash(t, t', q, max, now, a, b); }
      if b in handles && a !in handles { NoClash(t, t', q, max, now, b, a); }
    }
  }

  lemma HeldEitherWay(t: Tables, t': Tables, q: Queue, max: nat, deadline: int, attemptId: string, handles: seq<Handle>, now: int,
                      added: map<Handle, Receipt>, h: Handle)
    requires MessagesKeyed(t) && |handles| == |CandidatesOf(t, q, max, now)|
    requires added == NewReceipts(q.id, CandidatesOf(t, q, max, now), handles, attemptId, deadline, now, t.nextCall)
    requires LeasedFrom(t, t', CandidatesOf(t, q, max, now), added, deadline, now)
    ensures if h in handles then ByCall(t, t', q, CandidatesOf(t, q, max, now), h) else WasHeld(t, t', now, h)
  {
    if h in handles {
      HeldByCall(t, t', q, max, deadline, attemptId, handles, now, added, h);
    } else {
      HeldBefore(t, t', CandidatesOf(t, q, max, now), added, deadline, now, h);
    }
  }

  lemma {:induction false} PatchesSameFifo(t: Tables, patches: seq<Patch>, now: int)
    ensures SameFifo(t.queues, ApplyPatches(t, patches, now).queues)
    decreases |patches|
  {
    if patches != [] {
      ApplyPatchesFrame(ApplyPatch(t, patches[0], now), patches[1..], now);
      PatchesSameFifo(ApplyPatch(t, patches[0], now), patches[1..], now);
    }
  }

  lemma SendExclusive(cfg: Config, t: Tables, q: Queue, entry: Entry, now: int)
    requires MessagesKeyed(t) && ReceiptsKeyed(t) && Referenced(t) && GroupsExclusive(t, now)
    ensures GroupsExclusive(Send(cfg, t, q, entry, now), now)
  {
    var t' := Send(cfg, t, q, entry, now);
    assert t'.queues == t.queues && t'.receipts == t.receipts;
    OthersExclusive(t, t', now);
  }

  lemma PatchesExclusive(t: Tables, now: int)
    requires GroupsExclusive(t, now) && Referenced(t)
    ensures GroupsExclusive(ApplyDue(t, now), now)
  {
    ApplyPatchesFrame(t, DuePatches(t, now), now);
    PatchesSameFifo(t, DuePatches(t, now), now);
    OthersExclusive(t, ApplyDue(t, now), now);
  }

  lemma MessageExclusive(cfg: Config, t: Tables, now: int, e: MessageEvent)
    requires Keyed(cfg, t) && Referenced(t) && LeaseAgreement(t) && GroupsExclusive(t, now) && MessageEnabled(cfg, t, now, e)
    ensures GroupsExclusive(MessageStep(cfg, t, now, e), now)
  {
    match e
    case SendOne(id, entry) => SendExclusive(cfg, t, t.queues[id], entry, now);
    case LeaseSome(id, max, timeout, attemptId, handles) =>
      LeaseExclusive(t, t.queues[id], max, LeaseEnd(now, timeout), attemptId, handles, now);
    case RedriveOne(id, row) =>
      RedriveExclusive(t, t.queues[id].arn, RedriveTarget(cfg, t, t.queues[id]).value.id, {row}, now);
    case RefreshOne(_, _, handle, timeout) => SetLeaseExclusive(t, handle, LeaseEnd(now, timeout), true, now);
    case DeleteOne(id, handle) => DeleteExclusive(t, id, handle, now);
    case ChangeOne(id, handle, timeout) => ChangeExclusive(t, id, handle, timeout, now);
  }

  lemma UpkeepExclusive(cfg: Config, t: Tables, now: int, e: UpkeepEvent)
    requires Keyed(cfg, t) && Referenced(t) && GroupsExclusive(t, now) && UpkeepEnabled(t, e)
    ensures GroupsExclusive(UpkeepStep(t, now, e), now)
  {
    match e
    case ApplyMutations => PatchesExclusive(t, now);
    case DropLedger => OthersExclusive(t, UpkeepStep(t, now, e), now);
    case ReapOne(id) => ReapExclusive(cfg, t, t.queues[id], now);
    case PassOne(id) => MovePassExclusive(t, t.tasks[id], now);
  }

  lemma QueueExclusive(cfg: Config, t: Tables, now: int, e: QueueEvent)
    requires Keyed(cfg, t) && Referenced(t) && GroupsExclusive(t, now) && QueueEnabled(t, e)
    ensures GroupsExclusive(QueueStep(cfg, t, now, e), now)
  {
    match e
    case Create(name, attributes, stamps) => CreateExclusive(cfg, t, name, attributes, stamps, now);
    case _ =>
      QueueFrame(cfg, t, now, e);
      OthersExclusive(t, QueueStep(cfg, t, now, e), now);
  }

  /** No event lets a second receive call into a group that is leased. */
  lemma StepExclusive(cfg: Config, t: Tables, now: int, e: Event)
    requires Keyed(cfg, t) && Referenced(t) && LeaseAgreement(t) && GroupsExclusive(t, now) && Enabled(cfg, t, now, e)
    ensures GroupsExclusive(Step(cfg, t, now, e), now)
  {
    match e
    case OnMessages(m) => MessageExclusive(cfg, t, now, m);
    case Upkeep(u) => UpkeepExclusive(cfg, t, now, u);
    case OnQueues(q) => QueueExclusive(cfg, t, now, q);
  }
}
