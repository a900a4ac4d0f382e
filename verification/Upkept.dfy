/** What maintenance has done to the tables when a request begins, row by row. */
module Upkept {
  import opened Records
  import opened Sequences
  import opened Tables
  import opened Deliverable
  import opened Plane
  import opened Integrity
  import opened Leases
  import opened Patches
  import MoveTasks
  import opened Maintenance
  import opened Upkeeping

  // ---- patches and the ledger -------------------------------------------------------------------

  /** The tables when the due patches are applied and the expired ledger entries dropped. */
  ghost function BeforeReaps(t: Tables, now: int): Tables {
    var t1 := ApplyDue(t, now);
    t1.(ledger := DropExpired(t1.ledger, now))
  }

  /** The row of a queue but for what patches change. */
  predicate SameButPatched(q: Queue, q': Queue) {
    q' == q.(attributes := q'.attributes, lastModifiedAt := q'.lastModifiedAt)
  }

  lemma {:induction false} PatchedRow(t: Tables, patches: seq<Patch>, now: int, id: int)
    requires id in t.queues
    ensures id in ApplyPatches(t, patches, now).queues && SameButPatched(t.queues[id], ApplyPatches(t, patches, now).queues[id])
    decreases |patches|
  {
    if patches != [] { PatchedRow(ApplyPatch(t, patches[0], now), patches[1..], now, id); }
  }

  lemma BeforeReapsIs(cfg: Config, t: Tables, now: int)
    requires Keyed(cfg, t)
    ensures var t2 := BeforeReaps(t, now);
      && Keyed(cfg, t2) && t2.queues.Keys == t.queues.Keys
      && (forall id :: id in t.queues ==> SameButPatched(t.queues[id], t2.queues[id]))
      && t2 == t.(queues := t2.queues, pending := t2.pending, ledger := DropExpired(t.ledger, now))
  {
    ApplyPatchesFrame(t, DuePatches(t, now), now);
    ApplyPatchesKeyed(cfg, t, DuePatches(t, now), now);
    forall id | id in t.queues ensures SameButPatched(t.queues[id], ApplyDue(t, now).queues[id]) {
      PatchedRow(t, DuePatches(t, now), now, id);
    }
    DropKeyed(cfg, ApplyDue(t, now), DropExpired(t.ledger, now));
  }

  // ---- one queue is reaped ------------------------------------------------------------------------

  /** The row of a message when its queue has been reaped: past its retention it ends now, under a purge window with the window. */
  function ReapedRow(m: Message, q: Queue, now: int): Message {
    if m.deletedAt.Some? then m
    else if m.retentionDeadline <= now then m.(deletedAt := Some(now), visibilityDeadline := None)
    else if q.purgeRequestedAt.Some? && q.purgeExpiresAt.Some? && m.sentAt <= q.purgeExpiresAt.value then m.(deletedAt := q.purgeExpiresAt)
    else m
  }

  /** The row of a queue that has been reaped: a purge window that is over is closed. */
  function ReapedQueue(q: Queue, now: int): Queue {
    if q.purgeRequestedAt.Some? && q.purgeExpiresAt.Some? && q.purgeExpiresAt.value <= now
    then q.(purgeRequestedAt := None, purgeExpiresAt := None) else q
  }

  lemma ReapRows(t: Tables, q: Queue, now: int, id: int)
    requires id in t.messages && MessagesKeyed(t)
    ensures id in Reap(t, q, now).messages
    ensures Reap(t, q, now).messages[id] == if t.messages[id].queueId == q.id then ReapedRow(t.messages[id], q, now) else t.messages[id]
  {
  }

  lemma ReapReceipts(t: Tables, q: Queue, now: int, h: Handle)
    requires h in t.receipts
    ensures h in Reap(t, q, now).receipts
    ensures var r, row := t.receipts[h], t.receipts[h].messageRowId;
      Reap(t, q, now).receipts[h] == if row in t.messages && t.messages[row].queueId == q.id && t.messages[row].deletedAt.None?
                                        && t.messages[row].retentionDeadline <= now then r.(active := false) else r
  {
  }

  lemma ReapQueueRow(t: Tables, q: Queue, now: int)
    requires q.id in t.queues && t.queues[q.id] == q
    ensures Reap(t, q, now).queues == t.queues[q.id := ReapedQueue(q, now)]
  {
    assert t.queues[q.id := q] == t.queues;
  }

  // ---- all queues are reaped ------------------------------------------------------------------------

  /** One of the queues of a listing is live and has this id. */
  ghost predicate LiveIn(queues: seq<Queue>, id: int) {
    exists i :: 0 <= i < |queues| && queues[i].id == id && queues[i].deletedAt.None?
  }

  ghost function FirstReaped(t: Tables, queues: seq<Queue>, now: int): Tables
    requires queues != []
  {
    if queues[0].deletedAt.Some? then t else Reap(t, queues[0], now)
  }

  lemma ReapNext(cfg: Config, t: Tables, queues: seq<Queue>, now: int)
    requires Keyed(cfg, t) && QueueRows(t, queues) && queues != []
    ensures var t1 := FirstReaped(t, queues, now);
      Keyed(cfg, t1) && QueueRows(t1, queues[1..]) && ReapAll(t, queues, now) == ReapAll(t1, queues[1..], now)
    ensures !LiveIn(queues[1..], queues[0].id)
    ensures forall id :: LiveIn(queues, id) <==> (id == queues[0].id && queues[0].deletedAt.None?) || LiveIn(queues[1..], id)
  {
    if queues[0].deletedAt.Some? {
      assert QueueRows(t, queues[1..]);
    } else {
      ReapKeepsOthers(t, queues[0], queues, now);
      ReapKeyed(cfg, t, queues[0], now);
    }
    forall id | LiveIn(queues, id) ensures (id == queues[0].id && queues[0].deletedAt.None?) || LiveIn(queues[1..], id) {
      var i :| 0 <= i < |queues| && queues[i].id == id && queues[i].deletedAt.None?;
      if i > 0 { assert queues[1..][i - 1] == queues[i]; }
    }
    forall id | LiveIn(queues[1..], id) ensures LiveIn(queues, id) && id != queues[0].id {
      var i :| 0 <= i < |queues[1..]| && queues[1..][i].id == id && queues[1..][i].deletedAt.None?;
      assert queues[i + 1] == queues[1..][i];
    }
  }

  /** The row of a message when all listed live queues have been reaped. */
  lemma {:induction false} ReapAllRow(cfg: Config, t: Tables, queues: seq<Queue>, now: int, id: int)
    requires Keyed(cfg, t) && QueueRows(t, queues) && id in t.messages && t.messages[id].queueId in t.queues
    ensures var t', m := ReapAll(t, queues, now), t.messages[id];
      id in t'.messages
      && t'.messages[id] == if LiveIn(queues, m.queueId) then ReapedRow(m, t.queues[m.queueId], now) else m
    decreases |queues|
  {
    if queues != [] {
      var t1 := FirstReaped(t, queues, now);
      ReapNext(cfg, t, queues, now);
      if queues[0].deletedAt.None? {
        ReapRows(t, queues[0], now, id);
        ReapQueueRow(t, queues[0], now);
      }
      ReapAllRow(cfg, t1, queues[1..], now, id);
    }
  }

  /** A receipt when all listed live queues have been reaped: those of expired messages are inactive, all others as before. */
  lemma {:induction false} ReapAllReceipt(cfg: Config, t: Tables, queues: seq<Queue>, now: int, h: Handle)
    requires Keyed(cfg, t) && QueueRows(t, queues) && h in t.receipts
    ensures var t', r, row := ReapAll(t, queues, now), t.receipts[h], t.receipts[h].messageRowId;
      h in t'.receipts
      && t'.receipts[h] == if row in t.messages && LiveIn(queues, t.messages[row].queueId) && t.messages[row].deletedAt.None?
                              && t.messages[row].retentionDeadline <= now then r.(active := false) else r
    decreases |queues|
  {
    if queues != [] {
      var t1, row := FirstReaped(t, queues, now), t.receipts[h].messageRowId;
      ReapNext(cfg, t, queues, now);
      if queues[0].deletedAt.None? {
        ReapReceipts(t, queues[0], now, h);
        if row in t.messages { ReapRows(t, queues[0], now, row); }
      }
      ReapAllReceipt(cfg, t1, queues[1..], now, h);
    }
  }

  /** The row of a queue when all listed live queues have been reaped. */
  lemma {:induction false} ReapAllQueue(cfg: Config, t: Tables, queues: seq<Queue>, now: int, id: int)
    requires Keyed(cfg, t) && QueueRows(t, queues) && id in t.queues
    ensures var t' := ReapAll(t, queues, now);
      && t'.queues.Keys == t.queues.Keys
      && t'.queues[id] == (if LiveIn(queues, id) then ReapedQueue(t.queues[id], now) else t.queues[id])
      && t' == t.(messages := t'.messages, receipts := t'.receipts, queues := t'.queues)
    decreases |queues|
  {
    if queues != [] {
      var t1 := FirstReaped(t, queues, now);
      ReapNext(cfg, t, queues, now);
      if queues[0].deletedAt.None? { ReapQueueRow(t, queues[0], now); }
      ReapAllQueue(cfg, t1, queues[1..], now, id);
    }
  }

  // ---- the passes -----------------------------------------------------------------------------------

  /** What a pass leaves alone. */
  lemma PassRowKept(t: Tables, task: MoveTask, now: int, id: int)
    requires MessagesKeyed(t) && id in t.messages
    requires t.messages[id].queueId != task.sourceQueueId || !Live(t.messages[id], now)
    ensures id in MovePass(t, task, now).messages && MovePass(t, task, now).messages[id] == t.messages[id]
  {
    if IsLive(QueueById(t, task.sourceQueueId)) && id in RowIds(MovedBy(t, task, now)) {
      MovedByIds(t, task, now, id);
    }
  }

  lemma PassReceipt(t: Tables, task: MoveTask, now: int, h: Handle)
    requires h in t.receipts
    ensures h in MovePass(t, task, now).receipts
    ensures !t.receipts[h].active ==> MovePass(t, task, now).receipts[h] == t.receipts[h]
  {
  }

  /** No pass takes this message: it is not live, or it is not in the source of any of the tasks. */
  ghost predicate Stands(m: Message, tasks: seq<MoveTask>, now: int) {
    !Live(m, now) || forall i :: 0 <= i < |tasks| ==> tasks[i].sourceQueueId != m.queueId
  }

  lemma {:induction false} PassesKeep(cfg: Config, t: Tables, tasks: seq<MoveTask>, now: int, id: int)
    requires Keyed(cfg, t) && id in t.messages && Stands(t.messages[id], tasks, now)
    ensures id in PassAll(t, tasks, now).messages && PassAll(t, tasks, now).messages[id] == t.messages[id]
    decreases |tasks|
  {
    if tasks != [] {
      PassRowKept(t, tasks[0], now, id);
      MovePassKeyed(cfg, t, tasks[0], now);
      PassesKeep(cfg, MovePass(t, tasks[0], now), tasks[1..], now, id);
    }
  }

  lemma {:induction false} PassesReceipt(t: Tables, tasks: seq<MoveTask>, now: int, h: Handle)
    requires h in t.receipts && !t.receipts[h].active
    ensures h in PassAll(t, tasks, now).receipts && PassAll(t, tasks, now).receipts[h] == t.receipts[h]
    decreases |tasks|
  {
    if tasks != [] {
      PassReceipt(t, tasks[0], now, h);
      PassesReceipt(MovePass(t, tasks[0], now), tasks[1..], now, h);
    }
  }

  lemma {:induction false} PassesFrame(t: Tables, tasks: seq<MoveTask>, now: int)
    ensures var t' := PassAll(t, tasks, now);
      t' == t.(messages := t'.messages, receipts := t'.receipts, tasks := t'.tasks)
    decreases |tasks|
  {
    if tasks != [] { PassesFrame(MovePass(t, tasks[0], now), tasks[1..], now); }
  }

  lemma {:induction false} PassesSplit(t: Tables, a: seq<MoveTask>, b: seq<MoveTask>, now: int)
    ensures PassAll(t, a + b, now) == PassAll(PassAll(t, a, now), b, now)
    decreases |a|
  {
    if a == [] {
      assert a + b == b;
    } else {
      assert (a + b)[0] == a[0] && (a + b)[1..] == a[1..] + b;
      PassesSplit(MovePass(t, a[0], now), a[1..], b, now);
    }
  }

  /** A pass of one task leaves the rows of all others alone. */
  lemma PassesTask(cfg: Config, t: Tables, tasks: seq<MoveTask>, now: int, id: int)
    requires id in t.tasks && forall i :: 0 <= i < |tasks| ==> tasks[i].id != id
    ensures id in PassAll(t, tasks, now).tasks && PassAll(t, tasks, now).tasks[id] == t.tasks[id]
    decreases |tasks|
  {
    if tasks != [] {
      assert MovePass(t, tasks[0], now).tasks[id] == t.tasks[id];
      PassesTask(cfg, MovePass(t, tasks[0], now), tasks[1..], now, id);
    }
  }

  // ---- maintenance as a whole -------------------------------------------------------------------------

  lemma ListedLive(cfg: Config, t: Tables, id: int)
    requires QueuesKeyed(cfg, t)
    ensures LiveIn(QueuesOf(t), id) <==> id in t.queues && t.queues[id].deletedAt.None?
  {
    ListedQueues(cfg, t);
    NamesOrder(cfg, t);
    ListedRows(QueueSet(t), NamedBefore);
    if id in t.queues && t.queues[id].deletedAt.None? {
      var i := IndexOf(QueuesOf(t), t.queues[id]);
      assert QueuesOf(t)[i].id == id;
    }
  }

  /** The tables when all live queues are reaped. */
  lemma ReapedTables(cfg: Config, t: Tables, now: int)
    requires Keyed(cfg, t)
    ensures var t3 := AfterReaps(t, now);
      && Keyed(cfg, t3) && t3.queues.Keys == t.queues.Keys
      && t3 == t.(messages := t3.messages, receipts := t3.receipts, queues := t3.queues, pending := t3.pending,
                  ledger := DropExpired(t.ledger, now))
  {
    var t2 := BeforeReaps(t, now);
    BeforeReapsIs(cfg, t, now);
    ListedQueues(cfg, t2);
    var trace := ReapsLead(cfg, t2, QueuesOf(t2), now);
    ReapsFrame(t2, QueuesOf(t2), now);
  }

  lemma {:induction false} ReapsFrame(t: Tables, queues: seq<Queue>, now: int)
    ensures var t' := ReapAll(t, queues, now); t' == t.(messages := t'.messages, receipts := t'.receipts, queues := t'.queues)
    ensures ReapAll(t, queues, now).queues.Keys == t.queues.Keys
    decreases |queues|
  {
    if queues != [] { ReapsFrame(FirstReaped(t, queues, now), queues[1..], now); }
  }

  lemma ReapedMessage(cfg: Config, t: Tables, now: int, id: int)
    requires Keyed(cfg, t) && id in t.messages && t.messages[id].queueId in t.queues
    ensures var t3, m, q := AfterReaps(t, now), t.messages[id], t.queues[t.messages[id].queueId];
      id in t3.messages && t3.messages[id] == if q.deletedAt.None? then ReapedRow(m, q, now) else m
  {
    var t2, m := BeforeReaps(t, now), t.messages[id];
    BeforeReapsIs(cfg, t, now);
    ListedQueues(cfg, t2);
    ListedLive(cfg, t2, m.queueId);
    ReapAllRow(cfg, t2, QueuesOf(t2), now, id);
    ReapedAlike(m, t.queues[m.queueId], t2.queues[m.queueId], now);
  }

  lemma ReapedAlike(m: Message, q: Queue, q': Queue, now: int)
    requires SameButPatched(q, q')
    ensures ReapedRow(m, q', now) == ReapedRow(m, q, now) && q'.deletedAt == q.deletedAt
  {
  }

  lemma ReapedReceipt(cfg: Config, t: Tables, now: int, h: Handle)
    requires Keyed(cfg, t) && h in t.receipts && t.receipts[h].messageRowId in t.messages
    requires var m := t.messages[t.receipts[h].messageRowId];
      && m.queueId in t.queues && t.queues[m.queueId].deletedAt.None? && m.deletedAt.None? && m.retentionDeadline <= now
    ensures h in AfterReaps(t, now).receipts && !AfterReaps(t, now).receipts[h].active
  {
    var t2, m := BeforeReaps(t, now), t.messages[t.receipts[h].messageRowId];
    BeforeReapsIs(cfg, t, now);
    ListedQueues(cfg, t2);
    ListedLive(cfg, t2, m.queueId);
    ReapAllReceipt(cfg, t2, QueuesOf(t2), now, h);
    assert SameButPatched(t.queues[m.queueId], t2.queues[m.queueId]);
  }

  /**
   * In every live queue maintenance ends the messages whose retention is over, with the receipts that hold them, and those that
   * a pending purge covers: the ones sent up to the end of its window.
   */
  lemma MaintenanceEnds(cfg: Config, t: Tables, now: int, id: int)
    requires Keyed(cfg, t) && id in t.messages && t.messages[id].deletedAt.None?
    requires t.messages[id].queueId in t.queues && t.queues[t.messages[id].queueId].deletedAt.None?
    ensures var t', m, q := Maintained(t, now), t.messages[id], t.queues[t.messages[id].queueId];
      && id in t'.messages
      && (m.retentionDeadline <= now ==>
            && t'.messages[id] == m.(deletedAt := Some(now), visibilityDeadline := None)
            && forall h :: h in t.receipts && t.receipts[h].messageRowId == id ==> h in t'.receipts && !t'.receipts[h].active)
      && (m.retentionDeadline > now && q.purgeRequestedAt.Some? && q.purgeExpiresAt.Some? && m.sentAt <= q.purgeExpiresAt.value ==>
            t'.messages[id] == m.(deletedAt := q.purgeExpiresAt))
  {
    var t3, tasks := AfterReaps(t, now), RunningTasks(AfterReaps(t, now));
    ReapedTables(cfg, t, now);
    ReapedMessage(cfg, t, now, id);
    if !Live(t3.messages[id], now) { PassesKeep(cfg, t3, tasks, now, id); }
    MaintainedRow(cfg, t, now, id);
    forall h | h in t.receipts && t.receipts[h].messageRowId == id && t.messages[id].retentionDeadline <= now
      ensures h in Maintained(t, now).receipts && !Maintained(t, now).receipts[h].active
    {
      ReapedReceipt(cfg, t, now, h);
      PassesReceipt(t3, tasks, now, h);
    }
  }

  lemma MaintainedRow(cfg: Config, t: Tables, now: int, id: int)
    requires Keyed(cfg, t) && id in t.messages && t.messages[id].queueId in t.queues
    ensures id in Maintained(t, now).messages
  {
    ReapedMessage(cfg, t, now, id);
    PassesRows(AfterReaps(t, now), RunningTasks(AfterReaps(t, now)), now);
  }

  lemma {:induction false} PassesRows(t: Tables, tasks: seq<MoveTask>, now: int)
    ensures PassAll(t, tasks, now).messages.Keys == t.messages.Keys
    decreases |tasks|
  {
    if tasks != [] { PassesRows(MovePass(t, tasks[0], now), tasks[1..], now); }
  }

  lemma RunningSame(t: Tables, t': Tables)
    requires t'.tasks == t.tasks
    ensures RunningTasks(t') == RunningTasks(t)
  {
  }

  /** All other messages of queues that no running task empties are as they were. */
  lemma MaintenanceKeeps(cfg: Config, t: Tables, now: int, id: int)
    requires Keyed(cfg, t) && id in t.messages && t.messages[id].queueId in t.queues
    requires var m, q := t.messages[id], t.queues[t.messages[id].queueId];
      || m.deletedAt.Some?
      || q.deletedAt.Some?
      || (m.retentionDeadline > now && !(q.purgeRequestedAt.Some? && q.purgeExpiresAt.Some? && m.sentAt <= q.purgeExpiresAt.value))
    requires t.messages[id].deletedAt.Some? || forall k :: k in t.tasks && t.tasks[k].sourceQueueId == t.messages[id].queueId ==>
      t.tasks[k].status != Running && t.tasks[k].status != Cancelling
    ensures id in Maintained(t, now).messages && Maintained(t, now).messages[id] == t.messages[id]
  {
    var t3, tasks := AfterReaps(t, now), RunningTasks(AfterReaps(t, now));
    ReapedTables(cfg, t, now);
    ReapedMessage(cfg, t, now, id);
    ListedTasks(t3);
    PassesKeep(cfg, t3, tasks, now, id);
  }

  /**
   * Every queue is still there. Its purge window is closed if it is over and the queue is live; but for that and for its
   * attributes its row is as it was.
   */
  lemma MaintenanceCloses(cfg: Config, t: Tables, now: int, id: int)
    requires Keyed(cfg, t) && id in t.queues
    ensures var t', q := Maintained(t, now), t.queues[id];
      && t'.queues.Keys == t.queues.Keys
      && var q' := t'.queues[id];
      && (if q.deletedAt.None? && q.purgeRequestedAt.Some? && q.purgeExpiresAt.Some? && q.purgeExpiresAt.value <= now
          then q'.purgeRequestedAt == None && q'.purgeExpiresAt == None
          else q'.purgeRequestedAt == q.purgeRequestedAt && q'.purgeExpiresAt == q.purgeExpiresAt)
      && q' == q.(purgeRequestedAt := q'.purgeRequestedAt, purgeExpiresAt := q'.purgeExpiresAt,
                  attributes := q'.attributes, lastModifiedAt := q'.lastModifiedAt)
  {
    var t2 := BeforeReaps(t, now);
    BeforeReapsIs(cfg, t, now);
    ListedQueues(cfg, t2);
    ListedLive(cfg, t2, id);
    ReapAllQueue(cfg, t2, QueuesOf(t2), now, id);
    PassesFrame(AfterReaps(t, now), RunningTasks(AfterReaps(t, now)), now);
    assert SameButPatched(t.queues[id], t2.queues[id]);
  }

  /** The ledger keeps exactly the entries that have not expired, and cached attempts and sequences are untouched. */
  lemma MaintenanceForgets(cfg: Config, t: Tables, now: int)
    requires Keyed(cfg, t)
    ensures var t' := Maintained(t, now);
      && (forall k :: k in t'.ledger <==> k in t.ledger && t.ledger[k].expiresAt > now)
      && (forall k :: k in t'.ledger ==> t'.ledger[k] == t.ledger[k])
      && t'.attempts == t.attempts && t'.issued == t.issued && t'.nextRowId == t.nextRowId && t'.nextQueueId == t.nextQueueId
      && t'.nextTaskId == t.nextTaskId && t'.nextPatchId == t.nextPatchId && t'.messages.Keys == t.messages.Keys
  {
    ReapedTables(cfg, t, now);
    PassesFrame(AfterReaps(t, now), RunningTasks(AfterReaps(t, now)), now);
    PassesRows(AfterReaps(t, now), RunningTasks(AfterReaps(t, now)), now);
    ReapsRows(BeforeReaps(t, now), QueuesOf(BeforeReaps(t, now)), now);
    BeforeReapsIs(cfg, t, now);
  }

  lemma {:induction false} ReapsRows(t: Tables, queues: seq<Queue>, now: int)
    ensures ReapAll(t, queues, now).messages.Keys == t.messages.Keys
    decreases |queues|
  {
    if queues != [] { ReapsRows(FirstReaped(t, queues, now), queues[1..], now); }
  }

  // ---- the patches in columns -------------------------------------------------------------------------

  lemma AttributesStay(cfg: Config, t: Tables, now: int, id: int)
    requires Keyed(cfg, t) && id in t.queues
    ensures var t' := Maintained(t, now);
      && id in t'.queues && t'.queues[id].attributes == Overridden(t.queues[id].attributes, DuePatches(t, now), id)
      && t'.pending == t.pending - IdsIn(DuePatches(t, now), t.queues.Keys)
  {
    var t2 := BeforeReaps(t, now);
    BeforeReapsIs(cfg, t, now);
    PatchesApply(t, DuePatches(t, now), now);
    ListedQueues(cfg, t2);
    ReapAllQueue(cfg, t2, QueuesOf(t2), now, id);
    PassesFrame(AfterReaps(t, now), RunningTasks(AfterReaps(t, now)), now);
  }

  /**
   * Of the due patches of a queue that set an attribute, the last by (effective_at, id) decides it, and an attribute that none
   * of them sets is as it was. Instants are compared in whole seconds.
   */
  lemma MaintenancePatches(cfg: Config, t: Tables, now: int, id: int, name: string)
    requires Keyed(cfg, t) && id in t.queues
    ensures id in Maintained(t, now).queues
    ensures forall k | k in t.pending && t.pending[k].queueId == id && t.pending[k].effectiveAt <= now / 1000 * 1000
                       && name in t.pending[k].attributes
                       && (forall j | j in t.pending && t.pending[j].queueId == id && t.pending[j].effectiveAt <= now / 1000 * 1000
                                      && name in t.pending[j].attributes && j != k ::
                             t.pending[j].effectiveAt < t.pending[k].effectiveAt
                             || (t.pending[j].effectiveAt == t.pending[k].effectiveAt && j < k)) ::
      && name in Maintained(t, now).queues[id].attributes
      && Maintained(t, now).queues[id].attributes[name] == t.pending[k].attributes[name]
    ensures
      (forall k :: k in t.pending && t.pending[k].queueId == id && t.pending[k].effectiveAt <= now / 1000 * 1000 ==>
         name !in t.pending[k].attributes) ==>
      && (name in Maintained(t, now).queues[id].attributes <==> name in t.queues[id].attributes)
      && (name in t.queues[id].attributes ==> Maintained(t, now).queues[id].attributes[name] == t.queues[id].attributes[name])
  {
    var due := DuePatches(t, now);
    AttributesStay(cfg, t, now, id);
    DueRows(t, now);
    assert forall i :: 0 <= i < |due| ==> due[i] in due;
    forall k | k in t.pending && t.pending[k].queueId == id && t.pending[k].effectiveAt <= now / 1000 * 1000
               && name in t.pending[k].attributes
               && (forall j | j in t.pending && t.pending[j].queueId == id && t.pending[j].effectiveAt <= now / 1000 * 1000
                              && name in t.pending[j].attributes && j != k :: EffectiveBefore(t.pending[j], t.pending[k]))
      ensures name in Overridden(t.queues[id].attributes, due, id)
      ensures Overridden(t.queues[id].attributes, due, id)[name] == t.pending[k].attributes[name]
    {
      var i := IndexOf(due, t.pending[k]);
      LastPatchWins(t.queues[id].attributes, due, id, i, name);
    }
    if forall k :: k in t.pending && t.pending[k].queueId == id && t.pending[k].effectiveAt <= now / 1000 * 1000 ==>
         name !in t.pending[k].attributes
    {
      Untouched(t.queues[id].attributes, due, id, name);
    }
  }

  /** A patch is pending no more exactly if it is due and its queue exists. */
  lemma MaintenanceConsumes(cfg: Config, t: Tables, now: int, id: int)
    requires Keyed(cfg, t) && id in t.pending
    ensures id in Maintained(t, now).pending <==> t.pending[id].queueId !in t.queues || t.pending[id].effectiveAt > now / 1000 * 1000
    ensures id in Maintained(t, now).pending ==> Maintained(t, now).pending[id] == t.pending[id]
  {
    ReapedTables(cfg, t, now);
    PatchesApply(t, DuePatches(t, now), now);
    ReapsFrame(BeforeReaps(t, now), QueuesOf(BeforeReaps(t, now)), now);
    PassesFrame(AfterReaps(t, now), RunningTasks(AfterReaps(t, now)), now);
    AppliedIds(t, now, id);
  }

  lemma {:induction false} PatchStamps(t: Tables, patches: seq<Patch>, now: int, id: int)
    requires id in t.queues
    ensures id in ApplyPatches(t, patches, now).queues
    ensures ApplyPatches(t, patches, now).queues[id].lastModifiedAt ==
      if exists i :: 0 <= i < |patches| && patches[i].queueId == id then now / 1000 * 1000 else t.queues[id].lastModifiedAt
    decreases |patches|
  {
    if patches != [] {
      PatchStamps(ApplyPatch(t, patches[0], now), patches[1..], now, id);
      if i :| 0 <= i < |patches| && patches[i].queueId == id && i > 0 { assert patches[1..][i - 1].queueId == id; }
      if i :| 0 <= i < |patches[1..]| && patches[1..][i].queueId == id { assert patches[i + 1].queueId == id; }
    }
  }

  /** A queue is stamped with the whole second if a patch of it was due, and keeps its time of change if none was. */
  lemma MaintenanceStamps(cfg: Config, t: Tables, now: int, id: int)
    requires Keyed(cfg, t) && id in t.queues
    ensures id in Maintained(t, now).queues
    ensures Maintained(t, now).queues[id].lastModifiedAt ==
      if exists k :: k in t.pending && t.pending[k].queueId == id && t.pending[k].effectiveAt <= now / 1000 * 1000
      then now / 1000 * 1000 else t.queues[id].lastModifiedAt
  {
    var t2, due := BeforeReaps(t, now), DuePatches(t, now);
    BeforeReapsIs(cfg, t, now);
    PatchStamps(t, due, now, id);
    DueRows(t, now);
    ListedQueues(cfg, t2);
    ReapAllQueue(cfg, t2, QueuesOf(t2), now, id);
    PassesFrame(AfterReaps(t, now), RunningTasks(AfterReaps(t, now)), now);
    if k :| k in t.pending && t.pending[k].queueId == id && t.pending[k].effectiveAt <= now / 1000 * 1000 {
      assert due[IndexOf(due, t.pending[k])].queueId == id;
    }
    if i :| 0 <= i < |due| && due[i].queueId == id { assert due[i] in due; }
  }

  // ---- the passes in columns --------------------------------------------------------------------------

  /** The passes of maintenance are those of the tasks before and after this one, and its own in between. */
  lemma PassHad(cfg: Config, t: Tables, now: int, id: int) returns (u: Tables, rest: seq<MoveTask>)
    requires Keyed(cfg, t) && id in t.tasks && (t.tasks[id].status == Running || t.tasks[id].status == Cancelling)
    ensures Keyed(cfg, u) && id in u.tasks && u.tasks[id] == t.tasks[id]
    ensures u.queues == AfterReaps(t, now).queues
    ensures Maintained(t, now) == PassAll(MovePass(u, t.tasks[id], now), rest, now)
    ensures forall i :: 0 <= i < |rest| ==> rest[i].id != id
  {
    var t3 := AfterReaps(t, now);
    var tasks := RunningTasks(t3);
    ReapedTables(cfg, t, now);
    ListedTasks(t3);
    TaskListed(t3, id);
    u, rest := PassAmong(cfg, t3, tasks, now, IndexOf(tasks, t.tasks[id]));
  }

  lemma PassAmong(cfg: Config, t: Tables, tasks: seq<MoveTask>, now: int, i: nat) returns (u: Tables, rest: seq<MoveTask>)
    requires Keyed(cfg, t) && TaskRows(t, tasks) && i < |tasks|
    ensures Keyed(cfg, u) && tasks[i].id in u.tasks && u.tasks[tasks[i].id] == tasks[i] && u.queues == t.queues
    ensures PassAll(t, tasks, now) == PassAll(MovePass(u, tasks[i], now), rest, now)
    ensures forall j :: 0 <= j < |rest| ==> rest[j].id != tasks[i].id
  {
    var front := tasks[..i];
    rest := tasks[i + 1..];
    u := PassAll(t, front, now);
    assert tasks == front + ([tasks[i]] + rest) && ([tasks[i]] + rest)[1..] == rest;
    PassesSplit(t, front, [tasks[i]] + rest, now);
    PassesTask(cfg, t, front, now, tasks[i].id);
    PassesFrame(t, front, now);
    FrontKeyed(cfg, t, front, now);
  }

  lemma TaskListed(t: Tables, id: int)
    requires TasksKeyed(t) && id in t.tasks && IsRunning(t.tasks[id])
    ensures t.tasks[id] in RunningTasks(t)
  {
    TaskOrders(t, 0);
    ListedRows(RunningSet(t), StartedBefore);
  }

  lemma {:induction false} FrontKeyed(cfg: Config, t: Tables, tasks: seq<MoveTask>, now: int)
    requires Keyed(cfg, t)
    ensures Keyed(cfg, PassAll(t, tasks, now))
    decreases |tasks|
  {
    if tasks != [] {
      MovePassKeyed(cfg, t, tasks[0], now);
      FrontKeyed(cfg, MovePass(t, tasks[0], now), tasks[1..], now);
    }
  }

  /** The row of a task before and after its pass: it fails without its source, and else stops if it was cancelled or nothing is left. */
  ghost predicate HadPass(task: MoveTask, task': MoveTask, sourceLives: bool, now: int) {
    var second := now / 1000 * 1000;
    && task'.updatedAt == second && task'.id == task.id && task'.sourceQueueId == task.sourceQueueId
    && task'.destinationQueueId == task.destinationQueueId && task'.handle == task.handle
    && task'.maxMessagesPerSecond == task.maxMessagesPerSecond && task'.startedAt == task.startedAt
    && task'.failureReason == (if sourceLives then task.failureReason else "Source queue no longer exists.")
    && if !sourceLives then task'.status == Failed && task'.completedAt == Some(second) && task'.moved == task.moved
       else
         && task'.moved >= task.moved && task'.toMove.Some?
         && task'.status == (if task.status == Cancelling then Cancelled else if task'.toMove == Some(0) then Completed else task.status)
         && task'.completedAt == (if task'.status == task.status then task.completedAt else Some(second))
  }

  lemma AdvanceHad(task: MoveTask, moved: nat, remaining: nat, now: int)
    requires task.status == Running || task.status == Cancelling
    ensures HadPass(task, AdvanceTask(task, moved, remaining, now), true, now)
  {
  }

  lemma PassHadBy(t: Tables, task: MoveTask, now: int)
    requires task.id in t.tasks && (task.status == Running || task.status == Cancelling)
    ensures task.id in MovePass(t, task, now).tasks
    ensures HadPass(task, MovePass(t, task, now).tasks[task.id], IsLive(QueueById(t, task.sourceQueueId)), now)
  {
    if IsLive(QueueById(t, task.sourceQueueId)) {
      var moved, live := |MovedBy(t, task, now)|, |LiveOf(t, task.sourceQueueId, now)|;
      MoveTasks.PassIsPassed(t, task, now);
      AdvanceHad(task, moved, live - moved, now);
    }
  }

  /** Every task that runs when maintenance begins has had its pass when it ends, and the row of every other task is as it was. */
  lemma MaintenancePasses(cfg: Config, t: Tables, now: int, id: int)
    requires Keyed(cfg, t) && id in t.tasks
    ensures var t', task := Maintained(t, now), t.tasks[id];
      && id in t'.tasks
      && if task.status == Running || task.status == Cancelling
         then HadPass(task, t'.tasks[id], task.sourceQueueId in t.queues && t.queues[task.sourceQueueId].deletedAt.None?, now)
         else t'.tasks[id] == task
  {
    if IsRunning(t.tasks[id]) {
      var u, rest := PassHad(cfg, t, now, id);
      var t1 := MovePass(u, t.tasks[id], now);
      PassHadBy(u, t.tasks[id], now);
      PassesTask(cfg, t1, rest, now, id);
      SourceLives(cfg, t, now, t.tasks[id].sourceQueueId);
    } else {
      var t3 := AfterReaps(t, now);
      ReapedTables(cfg, t, now);
      ListedTasks(t3);
      PassesTask(cfg, t3, RunningTasks(t3), now, id);
    }
  }

  lemma SourceLives(cfg: Config, t: Tables, now: int, id: int)
    requires Keyed(cfg, t)
    ensures IsLive(QueueById(AfterReaps(t, now), id)) <==> id in t.queues && t.queues[id].deletedAt.None?
  {
    ReapedTables(cfg, t, now);
    if id in t.queues {
      MaintenanceCloses(cfg, t, now, id);
      PassesFrame(AfterReaps(t, now), RunningTasks(AfterReaps(t, now)), now);
    }
  }
}
