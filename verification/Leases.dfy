/**
 * Leases are kept twice: as the deadline on the message and as the active receipt. The two tables agree
 * after every event.
 */
module Leases {
  import opened Records
  import opened Sequences
  import opened Tables
  import opened QueueAttributes
  import opened Deliverable
  import opened DeliveryLaws
  import opened Plane
  import opened Integrity

  /** An active receipt of the row. */
  ghost predicate Holds(receipts: map<Handle, Receipt>, h: Handle, rowId: int) {
    h in receipts && receipts[h].active && receipts[h].messageRowId == rowId
  }

  /**
   * A message with a deadline has one and only one active receipt, with that deadline and the message's
   * queue; a message without a deadline has none.
   */
  ghost predicate Agrees(m: Message, receipts: map<Handle, Receipt>) {
    if m.visibilityDeadline.None? then
      forall h :: !Holds(receipts, h, m.rowId)
    else
      exists h :: Holds(receipts, h, m.rowId)
        && receipts[h].visibilityDeadline == m.visibilityDeadline.value && receipts[h].queueId == m.queueId
        && forall other :: Holds(receipts, other, m.rowId) ==> other == h
  }

  ghost predicate AllAgree(messages: map<int, Message>, receipts: map<Handle, Receipt>) {
    forall id {:trigger Agrees(messages[id], receipts)} ::
      id in messages && messages[id].deletedAt.None? ==> Agrees(messages[id], receipts)
  }

  ghost predicate LeaseAgreement(t: Tables) { AllAgree(t.messages, t.receipts) }

  /** The receipts of one row are the same in both tables. */
  ghost predicate SameHolders(receipts: map<Handle, Receipt>, receipts': map<Handle, Receipt>, rowId: int) {
    && (forall h :: Holds(receipts', h, rowId) <==> Holds(receipts, h, rowId))
    && (forall h :: Holds(receipts, h, rowId) ==>
          && receipts'[h].visibilityDeadline == receipts[h].visibilityDeadline
          && receipts'[h].queueId == receipts[h].queueId)
  }

  lemma AgreesFrame(m: Message, m': Message, receipts: map<Handle, Receipt>, receipts': map<Handle, Receipt>)
    requires Agrees(m, receipts) && SameHolders(receipts, receipts', m.rowId)
    requires m'.rowId == m.rowId && m'.queueId == m.queueId && m'.visibilityDeadline == m.visibilityDeadline
    ensures Agrees(m', receipts')
  {
    if m.visibilityDeadline.Some? {
      var h :| Holds(receipts, h, m.rowId)
        && receipts[h].visibilityDeadline == m.visibilityDeadline.value && receipts[h].queueId == m.queueId
        && forall other :: Holds(receipts, other, m.rowId) ==> other == h;
      assert Holds(receipts', h, m.rowId);
    }
  }

  lemma HolderOf(t: Tables, h: Handle)
    requires MessagesKeyed(t) && LeaseAgreement(t)
    requires h in t.receipts && t.receipts[h].active && t.receipts[h].messageRowId in t.messages
    requires t.messages[t.receipts[h].messageRowId].deletedAt.None?
    ensures var m := t.messages[t.receipts[h].messageRowId];
      && m.visibilityDeadline == Some(t.receipts[h].visibilityDeadline)
      && m.queueId == t.receipts[h].queueId
      && forall other :: Holds(t.receipts, other, m.rowId) ==> other == h
  {
    var m := t.messages[t.receipts[h].messageRowId];
    assert Holds(t.receipts, h, m.rowId);
    assert Agrees(m, t.receipts);
  }

  /**
   * Receiving and redriving deactivate receipts without looking at them. They only hit leases that have run
   * out: the receipts of a visible message are expired.
   */
  lemma VisibleMeansExpired(t: Tables, h: Handle, now: int)
    requires MessagesKeyed(t) && LeaseAgreement(t)
    requires h in t.receipts && t.receipts[h].active && t.receipts[h].messageRowId in t.messages
    requires Visible(t.messages[t.receipts[h].messageRowId], now)
    ensures t.receipts[h].visibilityDeadline <= now
  {
    HolderOf(t, h);
  }

  lemma AddedAgreement(messages: map<int, Message>, receipts: map<Handle, Receipt>, m: Message)
    requires AllAgree(messages, receipts) && m.visibilityDeadline.None?
    requires forall h :: h in receipts ==> receipts[h].messageRowId != m.rowId
    ensures AllAgree(messages[m.rowId := m], receipts)
  {
  }

  lemma SendAgreement(cfg: Config, t: Tables, q: Queue, e: Entry, now: int)
    requires ReceiptsKeyed(t) && LeaseAgreement(t)
    ensures LeaseAgreement(Send(cfg, t, q, e, now))
  {
    AddedAgreement(t.messages, t.receipts, NewMessage(cfg, q, e, t.nextRowId, now));
  }

  /** Rows whose deadline is cleared and whose receipts are deactivated; every other row is as before. */
  lemma ClearedAgreement(t: Tables, t': Tables, rows: set<int>)
    requires MessagesKeyed(t) && LeaseAgreement(t)
    requires t'.messages.Keys <= t.messages.Keys && t'.receipts == Deactivate(t.receipts, rows)
    requires forall id :: id in t'.messages && t'.messages[id].deletedAt.None? ==>
      && t'.messages[id].rowId == id
      && if id in rows then t'.messages[id].visibilityDeadline.None?
         else t.messages[id].deletedAt.None? && t'.messages[id].queueId == t.messages[id].queueId
              && t'.messages[id].visibilityDeadline == t.messages[id].visibilityDeadline
    ensures LeaseAgreement(t')
  {
    forall id | id in t'.messages && t'.messages[id].deletedAt.None? ensures Agrees(t'.messages[id], t'.receipts) {
      if id !in rows {
        assert SameHolders(t.receipts, t'.receipts, id);
        AgreesFrame(t.messages[id], t'.messages[id], t.receipts, t'.receipts);
      }
    }
  }

  lemma RedriveAgreement(t: Tables, arn: string, targetId: int, rows: set<int>, now: int)
    requires MessagesKeyed(t) && LeaseAgreement(t)
    ensures LeaseAgreement(RedriveRows(t, arn, targetId, rows, now))
  {
    ClearedAgreement(t, RedriveRows(t, arn, targetId, rows, now), rows);
  }

  lemma ReapAgreement(t: Tables, q: Queue, now: int)
    requires MessagesKeyed(t) && LeaseAgreement(t)
    ensures LeaseAgreement(Reap(t, q, now))
  {
    ClearedAgreement(t, Reap(t, q, now), ExpiredRows(t.messages, q.id, now));
  }

  /** The rows a move pass takes: live rows of the source, each with a destination. */
  lemma MovedByRows(t: Tables, task: MoveTask, now: int)
    requires MessagesKeyed(t)
    ensures forall m :: m in MovedBy(t, task, now) ==>
      && m.rowId in t.messages && t.messages[m.rowId] == m && m.queueId == task.sourceQueueId
      && Live(m, now) && Destination(t, task, m).Some?
  {
    MessagesOfRows(t, task.sourceQueueId);
  }

  lemma MovedByIds(t: Tables, task: MoveTask, now: int, id: int)
    requires MessagesKeyed(t) && id in RowIds(MovedBy(t, task, now))
    ensures id in t.messages && t.messages[id] in MovedBy(t, task, now)
    ensures t.messages[id].queueId == task.sourceQueueId && Live(t.messages[id], now)
    ensures Destination(t, task, t.messages[id]).Some?
  {
    var i := RowIdAt(MovedBy(t, task, now), id);
    MovedByRows(t, task, now);
    assert MovedBy(t, task, now)[i] in MovedBy(t, task, now);
  }

  lemma MovePassAgreement(t: Tables, task: MoveTask, now: int)
    requires MessagesKeyed(t) && LeaseAgreement(t)
    ensures LeaseAgreement(MovePass(t, task, now))
  {
    if IsLive(QueueById(t, task.sourceQueueId)) {
      forall id | id in RowIds(MovedBy(t, task, now))
        ensures id in t.messages && Destination(t, task, t.messages[id]).Some?
      {
        MovedByIds(t, task, now, id);
      }
      ClearedAgreement(t, MovePass(t, task, now), RowIds(MovedBy(t, task, now)));
    }
  }

  lemma SetLeaseAgreement(t: Tables, handle: Handle, deadline: int, replayed: bool)
    requires MessagesKeyed(t) && LeaseAgreement(t)
    requires handle in t.receipts && t.receipts[handle].active && t.receipts[handle].messageRowId in t.messages
    requires t.messages[t.receipts[handle].messageRowId].deletedAt.None?
    ensures LeaseAgreement(SetLease(t, handle, deadline, replayed))
  {
    var t' := SetLease(t, handle, deadline, replayed);
    var row := t.receipts[handle].messageRowId;
    HolderOf(t, handle);
    forall id | id in t'.messages && t'.messages[id].deletedAt.None? ensures Agrees(t'.messages[id], t'.receipts) {
      if id == row {
        assert Holds(t'.receipts, handle, row);
        assert forall other :: Holds(t'.receipts, other, row) ==> Holds(t.receipts, other, row);
      } else {
        assert SameHolders(t.receipts, t'.receipts, id);
        AgreesFrame(t.messages[id], t'.messages[id], t.receipts, t'.receipts);
      }
    }
  }

  lemma ChangeAgreement(t: Tables, queueId: int, handle: Handle, timeout: int, now: int)
    requires MessagesKeyed(t) && LeaseAgreement(t)
    ensures LeaseAgreement(ChangeVisibility(t, queueId, handle, timeout, now))
  {
    if ChangeResult(t, queueId, handle, timeout, now).Ok? {
      SetLeaseAgreement(t, handle, LeaseEnd(now, timeout), false);
    }
  }

  /** One receipt is deactivated, and its message is deleted or was not there. */
  lemma DeactivatedAgreement(messages: map<int, Message>, messages': map<int, Message>, receipts: map<Handle, Receipt>, handle: Handle)
    requires AllAgree(messages, receipts) && handle in receipts
    requires forall id :: id in messages' && messages'[id].deletedAt.None? ==>
      && id != receipts[handle].messageRowId && id in messages && messages'[id] == messages[id] && messages[id].rowId == id
    ensures AllAgree(messages', DeactivateOne(receipts, handle))
  {
    var receipts' := DeactivateOne(receipts, handle);
    forall id | id in messages' && messages'[id].deletedAt.None? ensures Agrees(messages'[id], receipts') {
      assert Agrees(messages[id], receipts);
      assert SameHolders(receipts, receipts', id);
      AgreesFrame(messages[id], messages[id], receipts, receipts');
    }
  }

  lemma DeleteAgreement(t: Tables, queueId: int, handle: Handle, now: int)
    requires MessagesKeyed(t) && LeaseAgreement(t)
    ensures LeaseAgreement(Delete(t, queueId, handle, now))
  {
    DeleteParts(t, queueId, handle, now);
    if LeaseHeld(t, queueId, handle, now) {
      DeactivatedAgreement(t.messages, Delete(t, queueId, handle, now).messages, t.receipts, handle);
    }
  }

  lemma RemoveQueueAgreement(t: Tables, queueId: int)
    requires MessagesKeyed(t) && LeaseAgreement(t)
    ensures LeaseAgreement(RemoveQueue(t, queueId))
  {
    var t' := RemoveQueue(t, queueId);
    forall id | id in t'.messages && t'.messages[id].deletedAt.None? ensures Agrees(t'.messages[id], t'.receipts) {
      forall h | Holds(t.receipts, h, id) ensures Holds(t'.receipts, h, id) {
        HolderOf(t, h);
      }
      assert SameHolders(t.receipts, t'.receipts, id);
      AgreesFrame(t.messages[id], t'.messages[id], t.receipts, t'.receipts);
    }
  }

  lemma CreateAgreement(cfg: Config, t: Tables, name: string, attributes: map<string, string>, stamps: map<string, string>, now: int)
    requires MessagesKeyed(t) && LeaseAgreement(t)
    ensures LeaseAgreement(CreateQueue(cfg, t, name, attributes, stamps, now))
  {
    var existing := QueueByName(t, name);
    if existing.Some? { RemoveQueueAgreement(t, existing.value.id); }
  }

  /** Exactly one of the added receipts is for the row. */
  ghost predicate OneFor(added: map<Handle, Receipt>, rowId: int) {
    exists h :: h in added && added[h].messageRowId == rowId
      && forall other :: other in added && added[other].messageRowId == rowId ==> other == h
  }

  /** The receipts a receive call adds: new handles, active, with the call's deadline, one for each row. */
  ghost predicate AddsReceipts(receipts: map<Handle, Receipt>, rows: set<int>, added: map<Handle, Receipt>, queueId: int, deadline: int) {
    && (forall h :: h in added ==>
          && h !in receipts && added[h].active && added[h].messageRowId in rows
          && added[h].visibilityDeadline == deadline && added[h].queueId == queueId)
    && (forall id :: id in rows ==> OneFor(added, id))
  }

  lemma OtherRowAgrees(m: Message, receipts: map<Handle, Receipt>, rows: set<int>, added: map<Handle, Receipt>, queueId: int, deadline: int)
    requires Agrees(m, receipts) && m.rowId !in rows && AddsReceipts(receipts, rows, added, queueId, deadline)
    ensures Agrees(m, Deactivate(receipts, rows) + added)
  {
    assert SameHolders(receipts, Deactivate(receipts, rows) + added, m.rowId);
    AgreesFrame(m, m, receipts, Deactivate(receipts, rows) + added);
  }

  lemma LeasedRowAgrees(m: Message, receipts: map<Handle, Receipt>, rows: set<int>, added: map<Handle, Receipt>, queueId: int, deadline: int)
    requires m.rowId in rows && AddsReceipts(receipts, rows, added, queueId, deadline)
    requires m.visibilityDeadline == Some(deadline) && m.queueId == queueId
    ensures Agrees(m, Deactivate(receipts, rows) + added)
  {
    assert OneFor(added, m.rowId);
    var h :| h in added && added[h].messageRowId == m.rowId
      && forall other :: other in added && added[other].messageRowId == m.rowId ==> other == h;
    assert Holds(Deactivate(receipts, rows) + added, h, m.rowId);
  }

  ghost predicate IdsOf(messages: map<int, Message>, queueId: int, ids: set<int>) {
    forall id :: id in ids ==> id in messages && messages[id].queueId == queueId
  }

  lemma LeasedAgreement(messages: map<int, Message>, receipts: map<Handle, Receipt>, rows: set<int>, added: map<Handle, Receipt>,
                        queueId: int, deadline: int, now: int, next: int)
    requires AllAgree(messages, receipts) && AddsReceipts(receipts, rows, added, queueId, deadline)
    requires MessageKeys(messages, next) && IdsOf(messages, queueId, rows)
    ensures AllAgree(LeaseMessages(messages, rows, deadline, now), Deactivate(receipts, rows) + added)
  {
    var messages' := LeaseMessages(messages, rows, deadline, now);
    forall id | id in messages' && messages'[id].deletedAt.None?
      ensures Agrees(messages'[id], Deactivate(receipts, rows) + added)
    {
      if id in rows {
        LeasedRowAgrees(messages'[id], receipts, rows, added, queueId, deadline);
      } else {
        OtherRowAgrees(messages[id], receipts, rows, added, queueId, deadline);
      }
    }
  }

  lemma NewReceiptFor(queueId: int, rows: seq<Message>, handles: seq<Handle>, attemptId: string,
                      deadline: int, now: int, call: nat, i: nat)
    requires |handles| == |rows| && i < |rows| && Unrepeated(handles) && OneEach(rows)
    ensures OneFor(NewReceipts(queueId, rows, handles, attemptId, deadline, now, call), rows[i].rowId)
  {
    var added := NewReceipts(queueId, rows, handles, attemptId, deadline, now, call);
    IndexOfUnrepeated(handles, i);
    assert handles[i] in added && added[handles[i]].messageRowId == rows[i].rowId;
    forall h | h in added && added[h].messageRowId == rows[i].rowId ensures h == handles[i] {
      OneEachAt(rows, IndexOf(handles, h), i);
    }
  }

  lemma NewReceiptsAdded(receipts: map<Handle, Receipt>, queueId: int, rows: seq<Message>, handles: seq<Handle>, attemptId: string,
                         deadline: int, now: int, call: nat)
    requires |handles| == |rows| && Unrepeated(handles) && OneEach(rows)
    requires forall h :: h in handles ==> h !in receipts
    ensures AddsReceipts(receipts, RowIds(rows),
                         NewReceipts(queueId, rows, handles, attemptId, deadline, now, call), queueId, deadline)
  {
    forall h | h in handles ensures rows[IndexOf(handles, h)].rowId in RowIds(rows) {
      RowIdIn(rows, IndexOf(handles, h));
    }
    forall id | id in RowIds(rows)
      ensures OneFor(NewReceipts(queueId, rows, handles, attemptId, deadline, now, call), id)
    {
      var i := RowIdAt(rows, id);
      NewReceiptFor(queueId, rows, handles, attemptId, deadline, now, call, i);
    }
  }

  lemma CandidateIds(t: Tables, q: Queue, max: nat, now: int)
    requires MessagesKeyed(t)
    ensures IdsOf(t.messages, q.id, RowIds(CandidatesOf(t, q, max, now)))
  {
    var rows := CandidatesOf(t, q, max, now);
    CandidateRows(t, q, max, now);
    forall id | id in RowIds(rows) ensures id in t.messages && t.messages[id].queueId == q.id {
      var i := RowIdAt(rows, id);
      assert rows[i] in rows;
    }
  }

  lemma LeaseParts(t: Tables, queueId: int, rows: seq<Message>, handles: seq<Handle>, attemptId: string, deadline: int, now: int)
    requires |handles| == |rows|
    ensures var t' := Lease(t, queueId, rows, handles, attemptId, deadline, now);
      && t'.messages == LeaseMessages(t.messages, RowIds(rows), deadline, now)
      && t'.receipts == Deactivate(t.receipts, RowIds(rows))
                        + NewReceipts(queueId, rows, handles, attemptId, deadline, now, t.nextCall)
      && t'.queues == t.queues && t'.nextRowId == t.nextRowId
  {
  }

  lemma LeaseAdds(t: Tables, queueId: int, rows: seq<Message>, handles: seq<Handle>, attemptId: string, deadline: int, now: int)
    requires ReceiptsKeyed(t) && Fresh(t, handles) && |handles| == |rows| && OneEach(rows)
    ensures AddsReceipts(t.receipts, RowIds(rows), NewReceipts(queueId, rows, handles, attemptId, deadline, now, t.nextCall), queueId, deadline)
  {
    NewReceiptsAdded(t.receipts, queueId, rows, handles, attemptId, deadline, now, t.nextCall);
  }

  /** The two tables after a lease, in terms of the two before. */
  lemma LeasedTables(t: Tables, t': Tables, rows: set<int>, added: map<Handle, Receipt>, queueId: int, deadline: int, now: int)
    requires MessagesKeyed(t) && LeaseAgreement(t) && IdsOf(t.messages, queueId, rows)
    requires AddsReceipts(t.receipts, rows, added, queueId, deadline)
    requires t'.messages == LeaseMessages(t.messages, rows, deadline, now) && t'.receipts == Deactivate(t.receipts, rows) + added
    ensures LeaseAgreement(t')
  {
    LeasedAgreement(t.messages, t.receipts, rows, added, queueId, deadline, now, t.nextRowId);
  }

  lemma LeasedAt(t: Tables, t': Tables, queueId: int, rows: seq<Message>, handles: seq<Handle>, attemptId: string,
                 deadline: int, now: int, added: map<Handle, Receipt>)
    requires MessagesKeyed(t) && ReceiptsKeyed(t) && LeaseAgreement(t) && Fresh(t, handles)
    requires |handles| == |rows| && OneEach(rows) && IdsOf(t.messages, queueId, RowIds(rows))
    requires added == NewReceipts(queueId, rows, handles, attemptId, deadline, now, t.nextCall)
    requires t'.messages == LeaseMessages(t.messages, RowIds(rows), deadline, now)
    requires t'.receipts == Deactivate(t.receipts, RowIds(rows)) + added
    ensures LeaseAgreement(t')
  {
    LeaseAdds(t, queueId, rows, handles, attemptId, deadline, now);
    LeasedTables(t, t', RowIds(rows), added, queueId, deadline, now);
  }

  lemma LeaseAgreementKept(t: Tables, queueId: int, rows: seq<Message>, handles: seq<Handle>, attemptId: string,
                           deadline: int, now: int)
    requires MessagesKeyed(t) && ReceiptsKeyed(t) && LeaseAgreement(t) && Fresh(t, handles)
    requires |handles| == |rows| && OneEach(rows) && IdsOf(t.messages, queueId, RowIds(rows))
    ensures LeaseAgreement(Lease(t, queueId, rows, handles, attemptId, deadline, now))
  {
    LeaseParts(t, queueId, rows, handles, attemptId, deadline, now);
    LeasedAt(t, Lease(t, queueId, rows, handles, attemptId, deadline, now), queueId, rows, handles, attemptId, deadline, now,
             NewReceipts(queueId, rows, handles, attemptId, deadline, now, t.nextCall));
  }

  lemma {:induction false} ApplyPatchesFrame(t: Tables, patches: seq<Patch>, now: int)
    ensures var t' := ApplyPatches(t, patches, now);
      t' == t.(queues := t'.queues, pending := t'.pending) && t'.queues.Keys == t.queues.Keys
    decreases |patches|
  {
    if patches != [] {
      ApplyPatchesFrame(ApplyPatch(t, patches[0], now), patches[1..], now);
    }
  }

  lemma MessageAgreement(cfg: Config, t: Tables, now: int, e: MessageEvent)
    requires Keyed(cfg, t) && LeaseAgreement(t) && MessageEnabled(cfg, t, now, e)
    ensures LeaseAgreement(MessageStep(cfg, t, now, e))
  {
    match e
    case SendOne(id, entry) => SendAgreement(cfg, t, t.queues[id], entry, now);
    case LeaseSome(id, max, timeout, attemptId, handles) =>
      CandidateRows(t, t.queues[id], max, now);
      CandidateIds(t, t.queues[id], max, now);
      LeaseAgreementKept(t, id, CandidatesOf(t, t.queues[id], max, now), handles, attemptId, LeaseEnd(now, timeout), now);
    case RedriveOne(id, row) =>
      RedriveAgreement(t, t.queues[id].arn, RedriveTarget(cfg, t, t.queues[id]).value.id, {row}, now);
    case RefreshOne(_, _, handle, timeout) => SetLeaseAgreement(t, handle, LeaseEnd(now, timeout), true);
    case DeleteOne(id, handle) => DeleteAgreement(t, id, handle, now);
    case ChangeOne(id, handle, timeout) => ChangeAgreement(t, id, handle, timeout, now);
  }

  lemma UpkeepAgreement(cfg: Config, t: Tables, now: int, e: UpkeepEvent)
    requires Keyed(cfg, t) && LeaseAgreement(t) && UpkeepEnabled(t, e)
    ensures LeaseAgreement(UpkeepStep(t, now, e))
  {
    match e
    case ApplyMutations => ApplyPatchesFrame(t, DuePatches(t, now), now);
    case DropLedger =>
    case ReapOne(id) => ReapAgreement(t, t.queues[id], now);
    case PassOne(id) => MovePassAgreement(t, t.tasks[id], now);
  }

  ghost predicate SameFifo(queues: map<int, Queue>, queues': map<int, Queue>) {
    forall id :: id in queues && id in queues' ==> queues'[id].fifo == queues[id].fifo
  }

  lemma TouchedSameFifo(queues: map<int, Queue>, q: Queue)
    requires q.id in queues && queues[q.id].fifo == q.fifo
    ensures SameFifo(queues, queues[q.id := q]) && queues[q.id := q].Keys == queues.Keys
  {
  }

  /** The tables of the message plane are the same, and the same queues are there, of the same kinds. */
  ghost predicate PlaneKept(t: Tables, t': Tables) {
    && t'.messages == t.messages && t'.receipts == t.receipts
    && t'.attempts == t.attempts && t'.ledger == t.ledger && t'.issued == t.issued
    && t'.queues.Keys == t.queues.Keys && SameFifo(t.queues, t'.queues)
  }

  lemma QueueRowFrame(t: Tables, t': Tables, q: Queue)
    requires q.id in t.queues && t.queues[q.id].fifo == q.fifo && t'.queues == t.queues[q.id := q]
    requires t'.messages == t.messages && t'.receipts == t.receipts
    requires t'.attempts == t.attempts && t'.ledger == t.ledger && t'.issued == t.issued
    ensures PlaneKept(t, t')
  {
    TouchedSameFifo(t.queues, q);
  }

  lemma UpdateFrame(cfg: Config, t: Tables, now: int, e: QueueEvent)
    requires QueuesKeyed(cfg, t) && QueueEnabled(t, e) && (e.Tombstone? || e.Purge? || e.Patching?)
    ensures PlaneKept(t, QueueStep(cfg, t, now, e))
  {
    var t' := QueueStep(cfg, t, now, e);
    if t' != t { QueueRowFrame(t, t', t'.queues[e.queueId]); }
  }

  lemma TaskFrame(cfg: Config, t: Tables, now: int, e: QueueEvent)
    requires QueueEnabled(t, e) && (e.Start? || e.Cancel?)
    ensures PlaneKept(t, QueueStep(cfg, t, now, e))
  {
    assert QueueStep(cfg, t, now, e).queues == t.queues;
  }

  /** All but the creation of a queue leave messages, receipts, attempts and the ledger alone. */
  lemma QueueFrame(cfg: Config, t: Tables, now: int, e: QueueEvent)
    requires QueuesKeyed(cfg, t) && QueueEnabled(t, e) && !e.Create?
    ensures PlaneKept(t, QueueStep(cfg, t, now, e))
  {
    if e.Tombstone? || e.Purge? || e.Patching? { UpdateFrame(cfg, t, now, e); } else { TaskFrame(cfg, t, now, e); }
  }

  /** Whatever happens, the message table and the receipt table keep agreeing on every lease. */
  lemma StepAgreement(cfg: Config, t: Tables, now: int, e: Event)
    requires Keyed(cfg, t) && LeaseAgreement(t) && Enabled(cfg, t, now, e)
    ensures LeaseAgreement(Step(cfg, t, now, e))
  {
    match e
    case OnMessages(m) => MessageAgreement(cfg, t, now, m);
    case Upkeep(u) => UpkeepAgreement(cfg, t, now, u);
    case OnQueues(Create(name, attributes, stamps)) => CreateAgreement(cfg, t, name, attributes, stamps, now);
    case OnQueues(q) => QueueFrame(cfg, t, now, q);
  }
}
