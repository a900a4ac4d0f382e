/** What can become of a message: how it ends, and what never changes about it. */
module Fates {
  import opened Records
  import opened Sequences
  import opened Tables
  import opened QueueAttributes
  import opened Deliverable
  import opened Plane
  import opened Integrity
  import opened Leases
  import opened Runs

  /** Deleted, or not even a row any more. */
  ghost predicate Gone(messages: map<int, Message>, id: int) {
    id in messages ==> messages[id].deletedAt.Some?
  }

  /** The reap of a queue takes this message: its retention is over, or a purge window covers it. */
  ghost predicate Reaped(q: Queue, m: Message, now: int) {
    m.queueId == q.id
    && (m.retentionDeadline <= now || (PurgePending(q) && m.sentAt <= q.purgeExpiresAt.value))
  }

  /** The only ways in which a message that is not deleted can end. */
  ghost predicate Ends(t: Tables, now: int, e: Event, id: int)
    requires id in t.messages
  {
    match e
    case OnMessages(DeleteOne(queueId, handle)) =>
      Deletes(t, queueId, handle, now) && t.receipts[handle].messageRowId == id
    case Upkeep(ReapOne(queueId)) =>
      queueId in t.queues && Reaped(t.queues[queueId], t.messages[id], now)
    case OnQueues(Create(name, _, _)) =>
      && QueueByName(t, name).Some? && !IsLive(QueueByName(t, name)) && !Blocked(t, name, now)
      && t.messages[id].queueId == QueueByName(t, name).value.id
    case _ => false
  }

  /** What a message keeps for life. */
  ghost predicate SameIdentity(m: Message, m': Message) {
    && m'.rowId == m.rowId && m'.messageId == m.messageId && m'.body == m.body
    && m'.groupId == m.groupId && m'.dedupId == m.dedupId
    && (m.deletedAt.Some? ==> m'.deletedAt == m.deletedAt)
  }

  /** Rows keep their identity, and no row of the past appears. */
  ghost predicate Continues(messages: map<int, Message>, messages': map<int, Message>, next: int) {
    forall id {:trigger id in messages'} :: id in messages' && id < next ==> id in messages && SameIdentity(messages[id], messages'[id])
  }

  /** Rows keep their identity, no row of the past appears, and the row ends exactly if the event ends it. */
  ghost predicate Follows(t: Tables, t': Tables, now: int, e: Event, id: int) {
    && t.nextRowId <= t'.nextRowId
    && Continues(t.messages, t'.messages, t.nextRowId)
    && (!Gone(t.messages, id) ==> (Gone(t'.messages, id) <==> Ends(t, now, e, id)))
  }

  // ---- one step -------------------------------------------------------------------

  lemma AddedRow(messages: map<int, Message>, m: Message, next: int)
    requires MessageKeys(messages, next) && m.rowId == next && m.deletedAt.None?
    ensures Continues(messages, messages[next := m], next)
    ensures forall id :: !Gone(messages, id) ==> !Gone(messages[next := m], id)
  {
  }

  lemma SendFollows(cfg: Config, t: Tables, now: int, queueId: int, entry: Entry, id: int)
    requires Keyed(cfg, t) && MessageEnabled(cfg, t, now, SendOne(queueId, entry))
    ensures Follows(t, Send(cfg, t, t.queues[queueId], entry, now), now, OnMessages(SendOne(queueId, entry)), id)
  {
    AddedRow(t.messages, NewMessage(cfg, t.queues[queueId], entry, t.nextRowId, now), t.nextRowId);
    SendRows(cfg, t, t.queues[queueId], entry, now);
  }

  lemma SendRows(cfg: Config, t: Tables, q: Queue, entry: Entry, now: int)
    ensures var t' := Send(cfg, t, q, entry, now);
      if Inserts(cfg, t, q, entry, now)
      then t'.messages == t.messages[t.nextRowId := NewMessage(cfg, q, entry, t.nextRowId, now)] && t'.nextRowId == t.nextRowId + 1
      else t' == t
  {
  }

  lemma SetLeaseFollows(t: Tables, handle: Handle, deadline: int, replayed: bool, now: int, e: MessageEvent, id: int)
    requires MessagesKeyed(t) && handle in t.receipts && t.receipts[handle].messageRowId in t.messages
    requires e.RefreshOne? || e.ChangeOne?
    ensures Follows(t, SetLease(t, handle, deadline, replayed), now, OnMessages(e), id)
  {
  }

  lemma ReceiptFollows(cfg: Config, t: Tables, now: int, e: MessageEvent, id: int)
    requires Keyed(cfg, t) && MessageEnabled(cfg, t, now, e) && (e.RefreshOne? || e.ChangeOne?)
    ensures Follows(t, MessageStep(cfg, t, now, e), now, OnMessages(e), id)
  {
    var deadline, t' := LeaseEnd(now, e.timeout), MessageStep(cfg, t, now, e);
    if e.RefreshOne? || ChangeResult(t, e.queueId, e.handle, e.timeout, now).Ok? {
      var t1 := SetLease(t, e.handle, deadline, e.RefreshOne?);
      SetLeaseFollows(t, e.handle, deadline, e.RefreshOne?, now, e, id);
      assert t'.messages == t1.messages && t'.nextRowId == t1.nextRowId;
    }
  }

  lemma DeleteFollows(t: Tables, now: int, queueId: int, handle: Handle, id: int)
    requires MessagesKeyed(t)
    ensures Follows(t, Delete(t, queueId, handle, now), now, OnMessages(DeleteOne(queueId, handle)), id)
  {
  }

  lemma RedriveFollows(cfg: Config, t: Tables, now: int, queueId: int, rowId: int, id: int)
    requires Keyed(cfg, t) && MessageEnabled(cfg, t, now, RedriveOne(queueId, rowId))
    ensures Follows(t, MessageStep(cfg, t, now, RedriveOne(queueId, rowId)), now, OnMessages(RedriveOne(queueId, rowId)), id)
  {
  }

  lemma LeasedRowsContinue(messages: map<int, Message>, rows: set<int>, deadline: int, now: int, next: int)
    ensures Continues(messages, LeaseMessages(messages, rows, deadline, now), next)
    ensures forall id :: Gone(messages, id) <==> Gone(LeaseMessages(messages, rows, deadline, now), id)
  {
  }

  lemma LeaseFollows(t: Tables, queueId: int, rows: seq<Message>, handles: seq<Handle>, attemptId: string, deadline: int, now: int,
                     e: MessageEvent, id: int)
    requires MessagesKeyed(t) && e.LeaseSome? && |handles| == |rows|
    ensures Follows(t, Lease(t, queueId, rows, handles, attemptId, deadline, now), now, OnMessages(e), id)
  {
    LeaseParts(t, queueId, rows, handles, attemptId, deadline, now);
    LeasedRowsContinue(t.messages, RowIds(rows), deadline, now, t.nextRowId);
  }

  lemma MovedRowsContinue(t: Tables, task: MoveTask, rows: set<int>, now: int)
    requires forall row :: row in rows ==> row in t.messages && t.messages[row].deletedAt.None?
    ensures Continues(t.messages, MoveRows(t, task, rows, now), t.nextRowId)
    ensures forall id :: Gone(t.messages, id) <==> Gone(MoveRows(t, task, rows, now), id)
  {
  }

  lemma PassFollows(t: Tables, task: MoveTask, now: int, id: int)
    requires MessagesKeyed(t) && task.id in t.tasks && t.tasks[task.id] == task
    ensures Follows(t, MovePass(t, task, now), now, Upkeep(PassOne(task.id)), id)
  {
    var t' := MovePass(t, task, now);
    if IsLive(QueueById(t, task.sourceQueueId)) {
      var rows := RowIds(MovedBy(t, task, now));
      assert t'.messages == MoveRows(t, task, rows, now) && t'.nextRowId == t.nextRowId;
      forall row | row in rows ensures row in t.messages && t.messages[row].deletedAt.None? {
        MovedByIds(t, task, now, row);
      }
      MovedRowsContinue(t, task, rows, now);
    }
  }

  lemma ExpiredRowsContinue(messages: map<int, Message>, rows: set<int>, now: int, next: int)
    requires forall row :: row in rows ==> row in messages && messages[row].deletedAt.None?
    ensures Continues(messages, Expire(messages, rows, now), next)
    ensures forall id :: !Gone(messages, id) ==> (Gone(Expire(messages, rows, now), id) <==> id in rows)
  {
  }

  lemma MarkedRowsContinue(messages: map<int, Message>, queueId: int, cutoff: int, next: int)
    ensures Continues(messages, MarkDeletedBefore(messages, queueId, cutoff), next)
    ensures forall id :: !Gone(messages, id) ==> (Gone(MarkDeletedBefore(messages, queueId, cutoff), id) <==>
                                                  messages[id].queueId == queueId && messages[id].sentAt <= cutoff)
  {
  }

  lemma ContinuesOn(a: map<int, Message>, b: map<int, Message>, c: map<int, Message>, next: int)
    requires Continues(a, b, next) && Continues(b, c, next)
    ensures Continues(a, c, next)
  {
    forall id | id in c && id < next ensures id in a && SameIdentity(a[id], c[id]) {
      assert id in b;
    }
  }

  lemma ReapFollows(t: Tables, q: Queue, now: int, id: int)
    requires MessagesKeyed(t) && q.id in t.queues && t.queues[q.id] == q
    ensures Follows(t, Reap(t, q, now), now, Upkeep(ReapOne(q.id)), id)
  {
    var rows := ExpiredRows(t.messages, q.id, now);
    var expired := Expire(t.messages, rows, now);
    ReapRows(t, q, now);
    ExpiredRowsContinue(t.messages, rows, now, t.nextRowId);
    if PurgePending(q) {
      var cutoff := q.purgeExpiresAt.value;
      MarkedRowsContinue(expired, q.id, cutoff, t.nextRowId);
      ContinuesOn(t.messages, expired, MarkDeletedBefore(expired, q.id, cutoff), t.nextRowId);
    }
  }

  lemma ReapRows(t: Tables, q: Queue, now: int)
    ensures var t', expired := Reap(t, q, now), Expire(t.messages, ExpiredRows(t.messages, q.id, now), now);
      && t'.messages == (if PurgePending(q) then MarkDeletedBefore(expired, q.id, q.purgeExpiresAt.value) else expired)
      && t'.nextRowId == t.nextRowId
  {
  }

  lemma UpkeepFollows(cfg: Config, t: Tables, now: int, e: UpkeepEvent, id: int)
    requires Keyed(cfg, t) && UpkeepEnabled(t, e)
    ensures Follows(t, UpkeepStep(t, now, e), now, Upkeep(e), id)
  {
    match e
    case ApplyMutations => ApplyPatchesFrame(t, DuePatches(t, now), now);
    case DropLedger =>
    case ReapOne(queueId) => ReapFollows(t, t.queues[queueId], now, id);
    case PassOne(taskId) => PassFollows(t, t.tasks[taskId], now, id);
  }

  lemma CreateFollows(cfg: Config, t: Tables, now: int, name: string, attributes: map<string, string>, stamps: map<string, string>, id: int)
    requires Keyed(cfg, t)
    ensures Follows(t, CreateQueue(cfg, t, name, attributes, stamps, now), now, OnQueues(Create(name, attributes, stamps)), id)
  {
  }

  lemma QueueKeepsRows(cfg: Config, t: Tables, now: int, e: QueueEvent)
    requires QueueEnabled(t, e) && !e.Create?
    ensures QueueStep(cfg, t, now, e).nextRowId == t.nextRowId
  {
  }

  /**
   * The fate of a message in one step. It ends only by a delete that presents its held receipt, by the end of
   * its retention, by a purge of its queue, or because its queue's tombstone is replaced; and each of these
   * does end it.
   */
  lemma StepFollows(cfg: Config, t: Tables, now: int, e: Event, id: int)
    requires Keyed(cfg, t) && Enabled(cfg, t, now, e)
    ensures Follows(t, Step(cfg, t, now, e), now, e, id)
  {
    match e
    case OnMessages(SendOne(queueId, entry)) => SendFollows(cfg, t, now, queueId, entry, id);
    case OnMessages(DeleteOne(queueId, handle)) => DeleteFollows(t, now, queueId, handle, id);
    case OnMessages(RedriveOne(queueId, rowId)) => RedriveFollows(cfg, t, now, queueId, rowId, id);
    case OnMessages(LeaseSome(queueId, max, timeout, attemptId, handles)) =>
      LeaseFollows(t, queueId, CandidatesOf(t, t.queues[queueId], max, now), handles, attemptId, LeaseEnd(now, timeout), now,
                   LeaseSome(queueId, max, timeout, attemptId, handles), id);
    case OnMessages(m) => ReceiptFollows(cfg, t, now, m, id);
    case Upkeep(u) => UpkeepFollows(cfg, t, now, u, id);
    case OnQueues(Create(name, attributes, stamps)) => CreateFollows(cfg, t, now, name, attributes, stamps, id);
    case OnQueues(q) =>
      QueueFrame(cfg, t, now, q);
      QueueKeepsRows(cfg, t, now, q);
  }

  /** A delete ends a message only through the one active receipt it has, while its lease runs. */
  lemma DeletePresentsTheLease(cfg: Config, t: Tables, now: int, queueId: int, handle: Handle, id: int)
    requires Keyed(cfg, t) && LeaseAgreement(t) && id in t.messages && t.messages[id].deletedAt.None?
    requires Ends(t, now, OnMessages(DeleteOne(queueId, handle)), id)
    ensures t.messages[id].queueId == queueId && Leased(t.messages[id], now)
    ensures Holds(t.receipts, handle, id) && forall other :: Holds(t.receipts, other, id) ==> other == handle
  {
    HolderOf(t, handle);
  }

  // ---- runs -----------------------------------------------------------------------

  /** Some event of the run ends the message. */
  ghost predicate EndsIn(cfg: Config, t: Tables, now: int, run: seq<Tick>, id: int)
    requires Legal(cfg, t, now, run)
    decreases |run|
  {
    run != [] && id in t.messages
    && (Ends(t, run[0].at, run[0].event, id)
        || EndsIn(cfg, Step(cfg, t, run[0].at, run[0].event), run[0].at, run[1..], id))
  }

  /** Rows keep their identity over a run: nothing comes back, and no deletion is undone. */
  lemma {:induction false} RunContinues(cfg: Config, t: Tables, now: int, run: seq<Tick>)
    requires Sound(cfg, t, now) && Legal(cfg, t, now, run)
    ensures t.nextRowId <= After(cfg, t, now, run).nextRowId
    ensures Continues(t.messages, After(cfg, t, now, run).messages, t.nextRowId)
    decreases |run|
  {
    if run != [] {
      var t1 := Step(cfg, t, run[0].at, run[0].event);
      StepFollows(cfg, t, run[0].at, run[0].event, 0);
      StepSound(cfg, t, now, run[0]);
      RunContinues(cfg, t1, run[0].at, run[1..]);
      var t' := After(cfg, t, now, run);
      assert t' == After(cfg, t1, run[0].at, run[1..]);
      forall id | id in t'.messages && id < t.nextRowId
        ensures id in t.messages && SameIdentity(t.messages[id], t'.messages[id])
      {
        assert id in t1.messages;
      }
    }
  }

  /** No message is lost silently: after a run it is gone if and only if some event of the run ended it. */
  lemma {:induction false} RunFate(cfg: Config, t: Tables, now: int, run: seq<Tick>, id: int)
    requires Sound(cfg, t, now) && Legal(cfg, t, now, run) && id in t.messages && t.messages[id].deletedAt.None?
    ensures Gone(After(cfg, t, now, run).messages, id) <==> EndsIn(cfg, t, now, run, id)
    decreases |run|
  {
    if run != [] {
      var t1 := Step(cfg, t, run[0].at, run[0].event);
      StepFollows(cfg, t, run[0].at, run[0].event, id);
      StepSound(cfg, t, now, run[0]);
      if Gone(t1.messages, id) {
        RunContinues(cfg, t1, run[0].at, run[1..]);
      } else {
        RunFate(cfg, t1, run[0].at, run[1..], id);
      }
    }
  }
}
