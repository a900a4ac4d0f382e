/** Keys stay keys: every event keeps the tables' identifiers consistent. */
module Integrity {
  import opened Records
  import opened Sequences
  import opened Tables
  import opened QueueAttributes
  import opened Deliverable
  import opened DeliveryLaws
  import opened Plane

  lemma {:induction false} RowsOneEach(t: Tables, rows: seq<Message>)
    requires Unrepeated(rows)
    requires forall m :: m in rows ==> m.rowId in t.messages && t.messages[m.rowId] == m
    ensures OneEach(rows)
  {
    if rows != [] {
      RowsOneEach(t, rows[1..]);
      assert rows[0] in rows;
      if rows[0].rowId in RowIds(rows[1..]) {
        var i := RowIdAt(rows[1..], rows[0].rowId);
      }
    }
  }

  /** The candidates of a queue are rows of it, listed once each. */
  lemma CandidateRows(t: Tables, q: Queue, max: nat, now: int)
    requires MessagesKeyed(t)
    ensures var rows := CandidatesOf(t, q, max, now);
      && OneEach(rows)
      && (forall m :: m in rows ==>
            m.rowId in t.messages && t.messages[m.rowId] == m && m.queueId == q.id && Visible(m, now))
  {
    var rows := CandidatesOf(t, q, max, now);
    MessagesOfRows(t, q.id);
    FilterIncreasing(MessagesOf(t, q.id), LiveAt(now), SentBefore);
    CandidatesDistinct(q.fifo, LiveOf(t, q.id, now), max, now);
    forall m | m in rows
      ensures m.rowId in t.messages && t.messages[m.rowId] == m && m.queueId == q.id && Visible(m, now)
    {
      CandidatesSound(q.fifo, LiveOf(t, q.id, now), max, now, m);
    }
    DistinctUnrepeated(rows);
    RowsOneEach(t, rows);
  }

  ghost predicate SameMessageRows(messages: map<int, Message>, messages': map<int, Message>) {
    forall id :: id in messages' ==> id in messages && messages'[id].rowId == messages[id].rowId
  }

  ghost predicate SameReceiptRows(receipts: map<Handle, Receipt>, receipts': map<Handle, Receipt>) {
    forall h :: h in receipts' ==>
      && h in receipts
      && receipts'[h].handle == receipts[h].handle
      && receipts'[h].messageRowId == receipts[h].messageRowId
      && receipts'[h].call == receipts[h].call
  }

  /** `t'` has only rows of `t`, under the same keys; other columns may differ. */
  ghost predicate SameRows(t: Tables, t': Tables) {
    && SameMessageRows(t.messages, t'.messages) && SameReceiptRows(t.receipts, t'.receipts)
    && t'.nextRowId == t.nextRowId && t'.issued == t.issued && t'.nextCall == t.nextCall
  }

  lemma SameRowsKeyed(t: Tables, t': Tables)
    requires MessagesKeyed(t) && ReceiptsKeyed(t) && SameRows(t, t')
    ensures MessagesKeyed(t') && ReceiptsKeyed(t')
  {
  }

  ghost predicate SameQueues(t: Tables, t': Tables) {
    t'.queues == t.queues && t'.nextQueueId == t.nextQueueId
  }

  ghost predicate SameTasks(t: Tables, t': Tables) {
    && t'.tasks == t.tasks && t'.nextTaskId == t.nextTaskId
    && t'.pending == t.pending && t'.nextPatchId == t.nextPatchId
  }

  lemma ReceiptEventKeyed(cfg: Config, t: Tables, t': Tables)
    requires Keyed(cfg, t) && ReceiptEvent(t, t')
    ensures Keyed(cfg, t')
  {
    SameRowsKeyed(t, t');
  }

  lemma LeaseKeyed(cfg: Config, t: Tables, queueId: int, rows: seq<Message>, handles: seq<Handle>, attemptId: string,
                   deadline: int, now: int)
    requires Keyed(cfg, t) && |handles| == |rows|
    requires forall m :: m in rows ==> m.rowId in t.messages
    ensures Keyed(cfg, Lease(t, queueId, rows, handles, attemptId, deadline, now))
  {
    var t' := Lease(t, queueId, rows, handles, attemptId, deadline, now);
    assert SameQueues(t, t') && SameTasks(t, t') && MessagesKeyed(t');
    forall h | h in t'.receipts
      ensures h in t'.issued && t'.receipts[h].handle == h && t'.receipts[h].messageRowId < t'.nextRowId
      ensures t'.receipts[h].call < t'.nextCall
    {
      if h in handles {
        assert rows[IndexOf(handles, h)] in rows;
      }
    }
  }

  lemma MovePassRows(t: Tables, task: MoveTask, now: int)
    ensures SameRows(t, MovePass(t, task, now)) && SameQueues(t, MovePass(t, task, now))
  {
    if IsLive(QueueById(t, task.sourceQueueId)) {
      var t', rows := MovePass(t, task, now), RowIds(MovedBy(t, task, now));
      assert t'.messages == MoveRows(t, task, rows, now) && t'.receipts == Deactivate(t.receipts, rows);
      assert SameMessageRows(t.messages, t'.messages) && SameReceiptRows(t.receipts, t'.receipts);
    }
  }

  lemma TaskReplacedKeyed(tasks: map<int, MoveTask>, task: MoveTask, next: int)
    requires TaskKeys(tasks, next) && task.id in tasks
    ensures TaskKeys(tasks[task.id := task], next)
  {
  }

  /** A pass replaces the row of its task, if that is there, and no other. */
  lemma MovePassTaskRow(t: Tables, task: MoveTask, now: int) returns (task': MoveTask)
    ensures task'.id == task.id && MovePass(t, task, now).tasks == if task.id in t.tasks then t.tasks[task.id := task'] else t.tasks
    ensures MovePass(t, task, now).nextTaskId == t.nextTaskId
    ensures MovePass(t, task, now).pending == t.pending && MovePass(t, task, now).nextPatchId == t.nextPatchId
  {
    if IsLive(QueueById(t, task.sourceQueueId)) {
      var moved := |MovedBy(t, task, now)|;
      task' := AdvanceTask(task, moved, |LiveOf(t, task.sourceQueueId, now)| - moved, now);
    } else {
      task' := FailTask(task, now);
    }
  }

  lemma MovePassTasks(t: Tables, task: MoveTask, now: int)
    requires TasksKeyed(t)
    ensures TasksKeyed(MovePass(t, task, now))
  {
    var task' := MovePassTaskRow(t, task, now);
    if task.id in t.tasks { TaskReplacedKeyed(t.tasks, task', t.nextTaskId); }
  }

  lemma MovePassKeyed(cfg: Config, t: Tables, task: MoveTask, now: int)
    requires Keyed(cfg, t)
    ensures Keyed(cfg, MovePass(t, task, now))
  {
    MovePassRows(t, task, now);
    MovePassTasks(t, task, now);
    SameRowsKeyed(t, MovePass(t, task, now));
  }

  lemma PatchKeyed(cfg: Config, t: Tables, p: Patch, now: int)
    requires Keyed(cfg, t)
    ensures Keyed(cfg, ApplyPatch(t, p, now))
  {
    if p.queueId in t.queues {
      var t' := ApplyPatch(t, p, now);
      TouchedKeyed(cfg, t, t', t'.queues[p.queueId]);
    }
  }

  lemma {:induction false} ApplyPatchesKeyed(cfg: Config, t: Tables, patches: seq<Patch>, now: int)
    requires Keyed(cfg, t)
    ensures Keyed(cfg, ApplyPatches(t, patches, now))
    decreases |patches|
  {
    if patches != [] {
      PatchKeyed(cfg, t, patches[0], now);
      ApplyPatchesKeyed(cfg, ApplyPatch(t, patches[0], now), patches[1..], now);
    }
  }

  lemma RemoveQueueKeyed(cfg: Config, t: Tables, queueId: int)
    requires Keyed(cfg, t)
    ensures Keyed(cfg, RemoveQueue(t, queueId))
  {
  }

  lemma AddQueueKeyed(cfg: Config, t: Tables, q: Queue)
    requires Keyed(cfg, t) && q.id == t.nextQueueId
    requires q.url == QueueUrl(cfg, q.name) && q.arn == QueueArn(cfg, q.name)
    requires forall id :: id in t.queues ==> t.queues[id].name != q.name
    ensures Keyed(cfg, t.(queues := t.queues[q.id := q], nextQueueId := t.nextQueueId + 1))
  {
  }

  lemma CreateKeyed(cfg: Config, t: Tables, name: string, attributes: map<string, string>, stamps: map<string, string>, now: int)
    requires Keyed(cfg, t)
    ensures Keyed(cfg, CreateQueue(cfg, t, name, attributes, stamps, now))
  {
    var existing := QueueByName(t, name);
    if !Blocked(t, name, now) && !IsLive(existing) {
      var t1 := if existing.Some? then RemoveQueue(t, existing.value.id) else t;
      if existing.Some? { RemoveQueueKeyed(cfg, t, existing.value.id); }
      forall id | id in t1.queues ensures t1.queues[id].name != name {
      }
      AddQueueKeyed(cfg, t1, NewQueue(cfg, t1.nextQueueId, name, attributes, now, stamps));
    }
  }

  lemma TouchKeyed(cfg: Config, t: Tables, q: Queue)
    requires QueuesKeyed(cfg, t) && q.id in t.queues
    requires q.name == t.queues[q.id].name && q.url == t.queues[q.id].url && q.arn == t.queues[q.id].arn
    ensures QueuesKeyed(cfg, t.(queues := t.queues[q.id := q]))
  {
  }

  /** Only the row of one queue changed, and not its names. */
  lemma TouchedKeyed(cfg: Config, t: Tables, t': Tables, q: Queue)
    requires Keyed(cfg, t) && q.id in t.queues
    requires q.name == t.queues[q.id].name && q.url == t.queues[q.id].url && q.arn == t.queues[q.id].arn
    requires t'.queues == t.queues[q.id := q] && t'.nextQueueId == t.nextQueueId
    requires SameRows(t, t') && TasksKeyed(t')
    ensures Keyed(cfg, t')
  {
    TouchKeyed(cfg, t, q);
    SameRowsKeyed(t, t');
    assert t.(queues := t.queues[q.id := q]).queues == t'.queues;
  }

  lemma ReapKeyed(cfg: Config, t: Tables, q: Queue, now: int)
    requires Keyed(cfg, t) && q.id in t.queues && t.queues[q.id] == q
    ensures Keyed(cfg, Reap(t, q, now))
  {
    var t' := Reap(t, q, now);
    TouchedKeyed(cfg, t, t', t'.queues[q.id]);
  }

  lemma SendKeyed(cfg: Config, t: Tables, q: Queue, entry: Entry, now: int)
    requires Keyed(cfg, t)
    ensures Keyed(cfg, Send(cfg, t, q, entry, now))
  {
  }

  /** Only non-key columns of messages and receipts, and attempts, may have changed. */
  ghost predicate ReceiptEvent(t: Tables, t': Tables) {
    SameRows(t, t') && SameQueues(t, t') && SameTasks(t, t')
  }

  lemma DeactivateOneRows(receipts: map<Handle, Receipt>, handle: Handle)
    requires handle in receipts
    ensures SameReceiptRows(receipts, DeactivateOne(receipts, handle))
  {
  }

  /** The tables a delete touches, if it touches any. */
  lemma DeleteParts(t: Tables, queueId: int, handle: Handle, now: int)
    ensures var t' := Delete(t, queueId, handle, now);
      && t' == t.(receipts := t'.receipts, messages := t'.messages, attempts := t'.attempts)
      && t'.receipts == (if LeaseHeld(t, queueId, handle, now) then DeactivateOne(t.receipts, handle) else t.receipts)
      && t'.messages == (if Deletes(t, queueId, handle, now) then WithDeleted(t.messages, t.receipts[handle].messageRowId, now) else t.messages)
      && t'.attempts == (if Deletes(t, queueId, handle, now) then InvalidateAttempts(t.attempts, queueId, now) else t.attempts)
  {
  }

  function WithDeleted(messages: map<int, Message>, row: int, now: int): map<int, Message>
    requires row in messages
  {
    messages[row := messages[row].(deletedAt := Some(now), visibilityDeadline := None)]
  }

  lemma DeletedRows(messages: map<int, Message>, row: int, now: int)
    requires row in messages
    ensures SameMessageRows(messages, WithDeleted(messages, row, now))
  {
  }

  lemma DeleteRows(t: Tables, queueId: int, handle: Handle, now: int)
    ensures ReceiptEvent(t, Delete(t, queueId, handle, now))
  {
    DeleteParts(t, queueId, handle, now);
    if LeaseHeld(t, queueId, handle, now) { DeactivateOneRows(t.receipts, handle); }
    if Deletes(t, queueId, handle, now) { DeletedRows(t.messages, t.receipts[handle].messageRowId, now); }
  }

  lemma ChangeRows(t: Tables, queueId: int, handle: Handle, timeout: int, now: int)
    ensures ReceiptEvent(t, ChangeVisibility(t, queueId, handle, timeout, now))
  {
  }

  lemma RedriveRowsOnly(t: Tables, arn: string, targetId: int, rows: set<int>, now: int)
    ensures ReceiptEvent(t, RedriveRows(t, arn, targetId, rows, now))
  {
  }

  lemma SetLeaseRows(t: Tables, handle: Handle, deadline: int, replayed: bool)
    requires handle in t.receipts && t.receipts[handle].messageRowId in t.messages
    ensures ReceiptEvent(t, SetLease(t, handle, deadline, replayed))
  {
  }

  lemma DeleteQueueKeyed(cfg: Config, t: Tables, q: Queue, stamp: map<string, string>, now: int)
    requires Keyed(cfg, t) && q.id in t.queues && t.queues[q.id] == q
    ensures Keyed(cfg, DeleteQueue(cfg, t, q, stamp, now))
  {
    var t' := DeleteQueue(cfg, t, q, stamp, now);
    TouchedKeyed(cfg, t, t', t'.queues[q.id]);
  }

  lemma PurgeQueueKeyed(cfg: Config, t: Tables, q: Queue, stamp: map<string, string>, now: int)
    requires Keyed(cfg, t) && q.id in t.queues && t.queues[q.id] == q
    ensures Keyed(cfg, PurgeQueue(cfg, t, q, stamp, now))
  {
    var t' := PurgeQueue(cfg, t, q, stamp, now);
    if !PurgeRunning(q, now) { TouchedKeyed(cfg, t, t', t'.queues[q.id]); }
  }

  lemma SetAttributesKeyed(cfg: Config, t: Tables, q: Queue, patch: map<string, string>, stamp: map<string, string>, now: int)
    requires Keyed(cfg, t) && q.id in t.queues && t.queues[q.id] == q
    ensures Keyed(cfg, SetAttributes(cfg, t, q, patch, stamp, now))
  {
    var t' := SetAttributes(cfg, t, q, patch, stamp, now);
    if patch != map[] { TouchedKeyed(cfg, t, t', t'.queues[q.id]); }
  }

  lemma TasksChangedKeyed(cfg: Config, t: Tables, tasks: map<int, MoveTask>, next: int)
    requires Keyed(cfg, t)
    requires t.nextTaskId <= next && forall id :: id in tasks ==> tasks[id].id == id < next
    ensures Keyed(cfg, t.(tasks := tasks, nextTaskId := next))
  {
  }

  lemma StartKeyed(cfg: Config, t: Tables, sourceId: int, destinationId: Option<int>, perSecond: Option<int>, handle: string, now: int)
    requires Keyed(cfg, t)
    ensures Keyed(cfg, StartTask(t, sourceId, destinationId, perSecond, handle, now))
  {
    var t' := StartTask(t, sourceId, destinationId, perSecond, handle, now);
    TasksChangedKeyed(cfg, t, t'.tasks, t'.nextTaskId);
    assert t' == t.(tasks := t'.tasks, nextTaskId := t'.nextTaskId);
  }

  lemma CancelKeyed(cfg: Config, t: Tables, id: int, now: int)
    requires Keyed(cfg, t) && id in t.tasks
    ensures Keyed(cfg, CancelTask(t, id, now))
  {
    var t' := CancelTask(t, id, now);
    TasksChangedKeyed(cfg, t, t'.tasks, t'.nextTaskId);
  }

  lemma DropKeyed(cfg: Config, t: Tables, ledger: map<LedgerKey, DedupEntry>)
    requires Keyed(cfg, t)
    ensures Keyed(cfg, t.(ledger := ledger))
  {
  }

  lemma MessageKeyed(cfg: Config, t: Tables, now: int, e: MessageEvent)
    requires Keyed(cfg, t) && MessageEnabled(cfg, t, now, e)
    ensures Keyed(cfg, MessageStep(cfg, t, now, e))
  {
    var t' := MessageStep(cfg, t, now, e);
    match e
    case SendOne(id, entry) => SendKeyed(cfg, t, t.queues[id], entry, now);
    case LeaseSome(id, max, timeout, attemptId, handles) =>
      CandidateRows(t, t.queues[id], max, now);
      LeaseKeyed(cfg, t, id, CandidatesOf(t, t.queues[id], max, now), handles, attemptId, LeaseEnd(now, timeout), now);
    case RedriveOne(id, row) =>
      RedriveRowsOnly(t, t.queues[id].arn, RedriveTarget(cfg, t, t.queues[id]).value.id, {row}, now);
      ReceiptEventKeyed(cfg, t, t');
    case RefreshOne(_, _, handle, timeout) =>
      SetLeaseRows(t, handle, LeaseEnd(now, timeout), true);
      ReceiptEventKeyed(cfg, t, t');
    case DeleteOne(id, handle) =>
      DeleteRows(t, id, handle, now);
      ReceiptEventKeyed(cfg, t, t');
    case ChangeOne(id, handle, timeout) =>
      ChangeRows(t, id, handle, timeout, now);
      ReceiptEventKeyed(cfg, t, t');
  }

  lemma UpkeepKeyed(cfg: Config, t: Tables, now: int, e: UpkeepEvent)
    requires Keyed(cfg, t) && UpkeepEnabled(t, e)
    ensures Keyed(cfg, UpkeepStep(t, now, e))
  {
    match e
    case ApplyMutations => ApplyPatchesKeyed(cfg, t, DuePatches(t, now), now);
    case DropLedger => DropKeyed(cfg, t, DropExpired(t.ledger, now));
    case ReapOne(id) => ReapKeyed(cfg, t, t.queues[id], now);
    case PassOne(id) => MovePassKeyed(cfg, t, t.tasks[id], now);
  }

  lemma QueueKeyed(cfg: Config, t: Tables, now: int, e: QueueEvent)
    requires Keyed(cfg, t) && QueueEnabled(t, e)
    ensures Keyed(cfg, QueueStep(cfg, t, now, e))
  {
    match e
    case Create(name, attributes, stamps) => CreateKeyed(cfg, t, name, attributes, stamps, now);
    case Tombstone(id, stamps) => DeleteQueueKeyed(cfg, t, t.queues[id], stamps, now);
    case Purge(id, stamps) => PurgeQueueKeyed(cfg, t, t.queues[id], stamps, now);
    case Patching(id, patch, stamps) => SetAttributesKeyed(cfg, t, t.queues[id], patch, stamps, now);
    case Start(source, destination, perSecond, handle) =>
      StartKeyed(cfg, t, source, destination, perSecond, handle, now);
    case Cancel(id) => CancelKeyed(cfg, t, id, now);
  }

  /** Every event keeps the keys consistent. */
  lemma StepKeyed(cfg: Config, t: Tables, now: int, e: Event)
    requires Keyed(cfg, t) && Enabled(cfg, t, now, e)
    ensures Keyed(cfg, Step(cfg, t, now, e))
  {
    match e
    case OnMessages(m) => MessageKeyed(cfg, t, now, m);
    case Upkeep(u) => UpkeepKeyed(cfg, t, now, u);
    case OnQueues(q) => QueueKeyed(cfg, t, now, q);
  }
}
