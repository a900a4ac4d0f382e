/** The maintenance every request begins with. */
module Maintenance {
  import opened Records
  import opened Sequences
  import opened Strings
  import opened Tables
  import opened Storage
  import opened QueueAttributes
  import opened Deliverable
  import opened DeliveryLaws
  import opened Plane
  import opened Integrity
  import opened Leases
  import opened MoveTasks
  import opened Receiving

  // ---- due attribute patches ------------------------------------------------------------

  lemma {:induction false} ApplySplit(t: Tables, a: seq<Patch>, b: seq<Patch>, now: int)
    ensures ApplyPatches(t, a + b, now) == ApplyPatches(ApplyPatches(t, a, now), b, now)
    decreases |a|
  {
    if a == [] {
      assert a + b == b;
    } else {
      assert (a + b)[0] == a[0] && (a + b)[1..] == a[1..] + b;
      ApplySplit(ApplyPatch(t, a[0], now), a[1..], b, now);
    }
  }

  /** `ApplyDueQueueMutations`. */
  method ApplyDueQueueMutations(store: Store, cfg: Config, now: int)
    requires Keyed(cfg, store.View())
    modifies store
    ensures store.View() == ApplyDue(old(store.View()), now)
  {
    ghost var t := store.View();
    var patches := store.ListDuePatches(now);
    for i := 0 to |patches|
      invariant store.View() == ApplyPatches(t, patches[..i], now)
    {
      var patch := patches[i];
      assert patches[..i + 1] == patches[..i] + [patch] && [patch][1..] == [];
      ApplySplit(t, patches[..i], [patch], now);
      ApplyPatchesKeyed(cfg, t, patches[..i], now);
      assert ApplyPatches(store.View(), [patch], now) == ApplyPatch(store.View(), patch, now);
      if patch.queueId !in store.queues {
        continue;
      }
      var queue := store.queues[patch.queueId];
      store.UpdateQueue(queue.(attributes := queue.attributes + patch.attributes, lastModifiedAt := Seconds(now)));
      store.DeletePatch(patch.id);
    }
    assert patches[..|patches|] == patches;
  }

  // ---- reap -------------------------------------------------------------------------------

  predicate Expired(m: Message, now: int) {
    m.deletedAt.None? && m.retentionDeadline <= now
  }

  function ExpiredAt(now: int): Message -> bool { (m: Message) => Expired(m, now) }

  /** The tables after `rows` have expired. */
  ghost function WithExpired(t: Tables, rows: set<int>, now: int): Tables {
    t.(messages := Expire(t.messages, rows, now), receipts := Deactivate(t.receipts, rows))
  }

  ghost function WithOneExpired(t: Tables, m: Message, now: int): Tables {
    t.(messages := t.messages[m.rowId := m.(deletedAt := Some(now), visibilityDeadline := None)],
       receipts := Deactivate(t.receipts, {m.rowId}))
  }

  lemma ExpireMore(t: Tables, rows: set<int>, m: Message, now: int)
    requires m.rowId in t.messages && t.messages[m.rowId] == m && m.rowId !in rows
    ensures WithOneExpired(WithExpired(t, rows, now), m, now) == WithExpired(t, rows + {m.rowId}, now)
  {
    var t1, t2 := WithExpired(t, rows, now), WithExpired(t, rows + {m.rowId}, now);
    DeactivateMore(t.receipts, rows, m.rowId);
    assert t1.messages[m.rowId := m.(deletedAt := Some(now), visibilityDeadline := None)] == t2.messages;
  }

  lemma ExpireNone(t: Tables, now: int)
    ensures WithExpired(t, {}, now) == t
  {
    assert Expire(t.messages, {}, now) == t.messages && Deactivate(t.receipts, {}) == t.receipts;
  }

  lemma ExpiredListed(t: Tables, queueId: int, now: int)
    requires MessagesKeyed(t)
    ensures RowIds(Filter(MessagesOf(t, queueId), ExpiredAt(now))) == ExpiredRows(t.messages, queueId, now)
    ensures OneEach(MessagesOf(t, queueId)) && RowsOf(t.messages, MessagesOf(t, queueId))
  {
    var ms := MessagesOf(t, queueId);
    var expired := Filter(ms, ExpiredAt(now));
    MessagesOfRows(t, queueId);
    DistinctUnrepeated(ms);
    RowsOneEach(t, ms);
    forall i | 0 <= i < |ms| ensures ms[i].rowId in t.messages && t.messages[ms[i].rowId] == ms[i] {
      assert ms[i] in ms;
    }
    forall id | id in RowIds(expired) ensures id in ExpiredRows(t.messages, queueId, now) {
      var i := RowIdAt(expired, id);
      assert expired[i] in expired;
    }
    forall id | id in ExpiredRows(t.messages, queueId, now) ensures id in RowIds(expired) {
      assert t.messages[id] in expired;
      RowIdIn(expired, IndexOf(expired, t.messages[id]));
    }
  }

  /** The loop of `reapQueue`, message by message. */
  ghost function ExpireInTurn(t: Tables, ms: seq<Message>, now: int, i: nat): (t': Tables)
    requires i <= |ms|
    ensures t'.messages.Keys >= t.messages.Keys
    decreases i
  {
    if i == 0 then t
    else
      var before := ExpireInTurn(t, ms, now, i - 1);
      if Expired(ms[i - 1], now) then WithOneExpired(before, ms[i - 1], now) else before
  }

  lemma {:induction false} ExpiredInTurn(t: Tables, ms: seq<Message>, now: int, i: nat)
    requires OneEach(ms) && RowsOf(t.messages, ms) && i <= |ms|
    ensures ExpireInTurn(t, ms, now, i) == WithExpired(t, RowIds(Filter(ms[..i], ExpiredAt(now))), now)
    decreases i
  {
    if i == 0 {
      ExpireNone(t, now);
    } else {
      ExpiredInTurn(t, ms, now, i - 1);
      NewInFront(ms, i - 1, ExpiredAt(now));
      OverSnoc(ms, i - 1, ExpiredAt(now));
      if Expired(ms[i - 1], now) {
        ExpireMore(t, RowIds(Filter(ms[..i - 1], ExpiredAt(now))), ms[i - 1], now);
      }
    }
  }

  /** The loop of `reapQueue`. */
  method ExpireEach(store: Store, messages: seq<Message>, now: int)
    requires RowsOf(store.messages, messages)
    modifies store
    ensures store.View() == ExpireInTurn(old(store.View()), messages, now, |messages|)
  {
    ghost var t := store.View();
    for i := 0 to |messages|
      invariant store.View() == ExpireInTurn(t, messages, now, i)
    {
      var message := messages[i];
      if message.deletedAt.Some? {
        continue;
      }
      if message.retentionDeadline <= now {
        store.UpdateMessage(message.(deletedAt := Some(now), visibilityDeadline := None));
        store.DeactivateReceiptsByMessage(message.rowId);
      }
    }
  }

  method ExpireMessages(store: Store, queueId: int, now: int)
    requires MessagesKeyed(store.View())
    modifies store
    ensures store.View() ==
            WithExpired(old(store.View()), ExpiredRows(old(store.messages), queueId, now), now)
  {
    var messages := store.ListMessagesByQueue(queueId);
    ExpiredListed(store.View(), queueId, now);
    ExpiredInTurn(store.View(), messages, now, |messages|);
    assert messages[..|messages|] == messages;
    ExpireEach(store, messages, now);
  }

  /** `reapQueue`. */
  method ReapQueue(store: Store, queue: Queue, now: int)
    requires MessagesKeyed(store.View())
    modifies store
    ensures store.View() == Reap(old(store.View()), queue, now)
  {
    ExpireMessages(store, queue.id, now);
    if queue.purgeRequestedAt.Some? && queue.purgeExpiresAt.Some? {
      store.DeleteMessagesByQueueBefore(queue.id, queue.purgeExpiresAt.value);
      if queue.purgeExpiresAt.value <= now {
        store.UpdateQueue(queue.(purgeRequestedAt := None, purgeExpiresAt := None));
      }
    }
  }

  // ---- move tasks -----------------------------------------------------------------------

  lemma DestinationStays(cfg: Config, t: Tables, t': Tables, task: MoveTask, m: Message)
    requires QueuesKeyed(cfg, t) && t'.queues == t.queues
    ensures Destination(t', task, m) == Destination(t, task, m)
  {
    if task.destinationQueueId.None? && m.deadLetterSourceArn != "" && QueueByArn(t, m.deadLetterSourceArn).Some? {
      assert QueueByArn(t', m.deadLetterSourceArn).Some?;
      NamesFromUrls(cfg, QueueByArn(t, m.deadLetterSourceArn).value.name, QueueByArn(t', m.deadLetterSourceArn).value.name);
    }
  }

  /** `resolveMoveDestination`. */
  method ResolveMoveDestination(store: Store, cfg: Config, task: MoveTask, message: Message) returns (destination: Option<Queue>)
    requires QueuesKeyed(cfg, store.View())
    ensures destination == Destination(store.View(), task, message)
  {
    if task.destinationQueueId.Some? {
      if task.destinationQueueId.value !in store.queues || store.queues[task.destinationQueueId.value].deletedAt.Some? {
        return None;
      }
      return Some(store.queues[task.destinationQueueId.value]);
    }
    if message.deadLetterSourceArn == "" {
      return None;
    }
    destination := store.FindByArn(cfg, message.deadLetterSourceArn);
    if !IsLive(destination) {
      return None;
    }
  }

  /** The tables after the pass has moved `rows`. */
  ghost function WithMoved(t: Tables, task: MoveTask, rows: set<int>, now: int): Tables {
    t.(messages := MoveRows(t, task, rows, now), receipts := Deactivate(t.receipts, rows))
  }

  lemma MoveNone(t: Tables, task: MoveTask, now: int)
    ensures WithMoved(t, task, {}, now) == t
  {
    assert MoveRows(t, task, {}, now) == t.messages && Deactivate(t.receipts, {}) == t.receipts;
  }

  lemma MoveMore(t: Tables, task: MoveTask, rows: set<int>, m: Message, destination: Queue, now: int)
    requires m.rowId in t.messages && t.messages[m.rowId] == m && m.rowId !in rows
    requires Destination(t, task, m) == Some(destination)
    ensures var t1 := WithMoved(t, task, rows, now);
      WithMove(t1, m, destination, now) == WithMoved(t, task, rows + {m.rowId}, now)
  {
    var t1, t2 := WithMoved(t, task, rows, now), WithMoved(t, task, rows + {m.rowId}, now);
    DeactivateMore(t.receipts, rows, m.rowId);
    assert t1.messages[m.rowId := MoveMessage(m, destination, now)] == t2.messages;
  }

  ghost function WithMove(t: Tables, m: Message, destination: Queue, now: int): Tables {
    t.(messages := t.messages[m.rowId := MoveMessage(m, destination, now)],
       receipts := Deactivate(t.receipts, {m.rowId}))
  }

  /** Moves one message. */
  method MoveOne(store: Store, message: Message, destination: Queue, now: int)
    requires message.rowId in store.messages
    modifies store
    ensures store.View() == WithMove(old(store.View()), message, destination, now)
  {
    store.DeactivateReceiptsByMessage(message.rowId);
    var retention := now + RetentionSeconds(destination) * 1000;
    store.UpdateMessage(message.(
      queueId := destination.id, sentAt := now, originalSentAt := now, firstReceivedAt := None, receiveCount := 0,
      availableAt := now, visibilityDeadline := None, retentionDeadline := retention, deletedAt := None,
      deadLetterSourceArn := ""));
  }

  /** What the loop has moved after the first `i` messages of the listing. */
  ghost function MovedFrom(t: Tables, task: MoveTask, ms: seq<Message>, limit: nat, now: int): seq<Message> {
    Take(Filter(Filter(ms, LiveAt(now)), Movable(t, task)), limit)
  }

  lemma MovedSnoc(t: Tables, task: MoveTask, ms: seq<Message>, i: nat, limit: nat, now: int)
    requires i < |ms|
    ensures var before, m := MovedFrom(t, task, ms[..i], limit, now), ms[i];
      MovedFrom(t, task, ms[..i + 1], limit, now) ==
      if Live(m, now) && Movable(t, task)(m) && |before| < limit then before + [m] else before
  {
    FilterSnoc(ms, i, LiveAt(now));
    if Live(ms[i], now) {
      FilterConcat(Filter(ms[..i], LiveAt(now)), [ms[i]], Movable(t, task));
    } else {
      assert Filter(ms[..i], LiveAt(now)) + [] == Filter(ms[..i], LiveAt(now));
    }
  }

  lemma MovedNew(t: Tables, task: MoveTask, ms: seq<Message>, i: nat, limit: nat, now: int)
    requires OneEach(ms) && i < |ms|
    ensures ms[i].rowId !in RowIds(MovedFrom(t, task, ms[..i], limit, now))
  {
    var moved := MovedFrom(t, task, ms[..i], limit, now);
    if ms[i].rowId in RowIds(moved) {
      var k := RowIdAt(moved, ms[i].rowId);
      assert moved[k] in Filter(Filter(ms[..i], LiveAt(now)), Movable(t, task));
      var j := IndexOf(ms[..i], moved[k]);
      OneEachAt(ms, j, i);
    }
  }

  /** The step from `i` to `i + 1` when the message moves. */
  lemma MoveStep(t: Tables, task: MoveTask, ms: seq<Message>, i: nat, limit: nat, destination: Queue, now: int)
    requires OneEach(ms) && RowsOf(t.messages, ms) && i < |ms|
    requires Live(ms[i], now) && Destination(t, task, ms[i]) == Some(destination)
    requires |MovedFrom(t, task, ms[..i], limit, now)| < limit
    ensures var t1 := WithMoved(t, task, RowIds(MovedFrom(t, task, ms[..i], limit, now)), now);
      WithMove(t1, ms[i], destination, now) == WithMoved(t, task, RowIds(MovedFrom(t, task, ms[..i + 1], limit, now)), now)
  {
    MovedNew(t, task, ms, i, limit, now);
    MovedSnoc(t, task, ms, i, limit, now);
    RowIdsSnoc(MovedFrom(t, task, ms[..i], limit, now), ms[i]);
    MoveMore(t, task, RowIds(MovedFrom(t, task, ms[..i], limit, now)), ms[i], destination, now);
  }

  /** How far the loop of `processMoveTask` is. */
  datatype Progress = Progress(tables: Tables, moved: nat, remaining: nat)

  /** The loop, message by message. */
  ghost function MoveInTurn(t: Tables, task: MoveTask, ms: seq<Message>, limit: nat, now: int, i: nat): (p: Progress)
    requires i <= |ms|
    ensures p.tables.messages.Keys >= t.messages.Keys
    ensures p.tables.queues == t.queues && p.tables.nextQueueId == t.nextQueueId
    decreases i
  {
    if i == 0 then Progress(t, 0, 0)
    else
      var p, m := MoveInTurn(t, task, ms, limit, now, i - 1), ms[i - 1];
      if !Live(m, now) then p
      else if p.moved >= limit || Destination(t, task, m).None? then p.(remaining := p.remaining + 1)
      else Progress(WithMove(p.tables, m, Destination(t, task, m).value, now), p.moved + 1, p.remaining)
  }

  /** The loop of `processMoveTask`. */
  method MoveMessages(store: Store, cfg: Config, task: MoveTask, messages: seq<Message>, limit: nat, now: int)
    returns (moved: nat, remaining: nat)
    requires QueuesKeyed(cfg, store.View()) && RowsOf(store.messages, messages)
    modifies store
    ensures MoveInTurn(old(store.View()), task, messages, limit, now, |messages|) == Progress(store.View(), moved, remaining)
  {
    ghost var t := store.View();
    moved, remaining := 0, 0;
    for i := 0 to |messages|
      invariant MoveInTurn(t, task, messages, limit, now, i) == Progress(store.View(), moved, remaining)
    {
      var message := messages[i];
      if message.deletedAt.Some? || message.retentionDeadline <= now {
        continue;
      }
      if moved >= limit {
        remaining := remaining + 1;
        continue;
      }
      DestinationStays(cfg, t, store.View(), task, message);
      var destination := ResolveMoveDestination(store, cfg, task, message);
      if destination.None? {
        remaining := remaining + 1;
        continue;
      }
      MoveOne(store, message, destination.value, now);
      moved := moved + 1;
    }
  }

  /** The loop has moved the first movable live messages, up to the limit, and counted the other live ones. */
  ghost predicate LoopMoved(t: Tables, task: MoveTask, ms: seq<Message>, limit: nat, now: int, p: Progress) {
    var moved := MovedFrom(t, task, ms, limit, now);
    && p.tables == WithMoved(t, task, RowIds(moved), now)
    && p.moved == |moved| && p.moved + p.remaining == |Filter(ms, LiveAt(now))|
  }

  lemma LoopTakes(t: Tables, task: MoveTask, ms: seq<Message>, limit: nat, now: int, i: nat, p: Progress, destination: Queue)
    requires OneEach(ms) && RowsOf(t.messages, ms) && i < |ms| && LoopMoved(t, task, ms[..i], limit, now, p)
    requires Live(ms[i], now) && p.moved < limit && Destination(t, task, ms[i]) == Some(destination)
    ensures LoopMoved(t, task, ms[..i + 1], limit, now,
                      Progress(WithMove(p.tables, ms[i], destination, now), p.moved + 1, p.remaining))
  {
    FilterSnoc(ms, i, LiveAt(now));
    MovedSnoc(t, task, ms, i, limit, now);
    MoveStep(t, task, ms, i, limit, destination, now);
  }

  lemma LoopSkips(t: Tables, task: MoveTask, ms: seq<Message>, limit: nat, now: int, i: nat, p: Progress)
    requires i < |ms| && LoopMoved(t, task, ms[..i], limit, now, p)
    requires !Live(ms[i], now) || p.moved >= limit || Destination(t, task, ms[i]).None?
    ensures LoopMoved(t, task, ms[..i + 1], limit, now, if Live(ms[i], now) then p.(remaining := p.remaining + 1) else p)
  {
    FilterSnoc(ms, i, LiveAt(now));
    MovedSnoc(t, task, ms, i, limit, now);
  }

  lemma LoopStep(t: Tables, task: MoveTask, ms: seq<Message>, limit: nat, now: int, i: nat)
    requires OneEach(ms) && RowsOf(t.messages, ms) && i < |ms|
    requires LoopMoved(t, task, ms[..i], limit, now, MoveInTurn(t, task, ms, limit, now, i))
    ensures LoopMoved(t, task, ms[..i + 1], limit, now, MoveInTurn(t, task, ms, limit, now, i + 1))
  {
    var m, p := ms[i], MoveInTurn(t, task, ms, limit, now, i);
    if Live(m, now) && p.moved < limit && Destination(t, task, m).Some? {
      LoopTakes(t, task, ms, limit, now, i, p, Destination(t, task, m).value);
    } else {
      LoopSkips(t, task, ms, limit, now, i, p);
    }
  }

  lemma LoopStarts(t: Tables, task: MoveTask, limit: nat, now: int)
    ensures LoopMoved(t, task, [], limit, now, Progress(t, 0, 0))
  {
    MoveNone(t, task, now);
  }

  lemma LoopMoves(t: Tables, task: MoveTask, ms: seq<Message>, limit: nat, now: int, n: nat)
    requires OneEach(ms) && RowsOf(t.messages, ms) && n <= |ms|
    ensures LoopMoved(t, task, ms[..n], limit, now, MoveInTurn(t, task, ms, limit, now, n))
  {
    LoopStarts(t, task, limit, now);
    assert ms[..0] == [];
    for i := 0 to n
      invariant LoopMoved(t, task, ms[..i], limit, now, MoveInTurn(t, task, ms, limit, now, i))
    {
      LoopStep(t, task, ms, limit, now, i);
    }
  }

  ghost function WithTask(t: Tables, task: MoveTask): Tables {
    t.(tasks := if task.id in t.tasks then t.tasks[task.id := task] else t.tasks)
  }

  /** The end of `processMoveTask`: the move task's counts and status. */
  method CountPass(store: Store, task: MoveTask, moved: nat, remaining: nat, now: int)
    modifies store
    ensures store.View() == WithTask(old(store.View()), AdvanceTask(task, moved, remaining, now))
  {
    var next := task.(moved := task.moved + moved, toMove := Some(remaining), updatedAt := Seconds(now));
    if task.status == Cancelling {
      next := next.(status := Cancelled, completedAt := Some(Seconds(now)));
    } else if remaining == 0 {
      next := next.(status := Completed, completedAt := Some(Seconds(now)));
    }
    store.UpdateMoveTask(next);
  }

  function Limit(task: MoveTask, listed: nat): nat {
    if task.maxMessagesPerSecond.Some? && task.maxMessagesPerSecond.value > 0
    then task.maxMessagesPerSecond.value else listed
  }

  lemma MovedByLoop(t: Tables, task: MoveTask, now: int)
    ensures var ms := MessagesOf(t, task.sourceQueueId);
      MovedFrom(t, task, ms, Limit(task, |ms|), now) == MovedBy(t, task, now)
  {
  }

  lemma MovePassIs(t: Tables, task: MoveTask, now: int, remaining: int)
    requires IsLive(QueueById(t, task.sourceQueueId)) && remaining == |LiveOf(t, task.sourceQueueId, now)| - |MovedBy(t, task, now)|
    ensures MovePass(t, task, now) == WithTask(WithMoved(t, task, RowIds(MovedBy(t, task, now)), now),
                                               AdvanceTask(task, |MovedBy(t, task, now)|, remaining, now))
  {
  }

  lemma PassOfLoop(t: Tables, task: MoveTask, now: int, p: Progress)
    requires IsLive(QueueById(t, task.sourceQueueId))
    requires p.tables == WithMoved(t, task, RowIds(MovedBy(t, task, now)), now)
    requires p.moved == |MovedBy(t, task, now)| && p.moved + p.remaining == |LiveOf(t, task.sourceQueueId, now)|
    ensures MovePass(t, task, now) == WithTask(p.tables, AdvanceTask(task, p.moved, p.remaining, now))
  {
    MovePassIs(t, task, now, p.remaining);
  }

  lemma PassIsLoop(t: Tables, task: MoveTask, now: int, ms: seq<Message>)
    requires MessagesKeyed(t) && IsLive(QueueById(t, task.sourceQueueId)) && ms == MessagesOf(t, task.sourceQueueId)
    ensures var p := MoveInTurn(t, task, ms, Limit(task, |ms|), now, |ms|);
      MovePass(t, task, now) == WithTask(p.tables, AdvanceTask(task, p.moved, p.remaining, now))
  {
    ExpiredListed(t, task.sourceQueueId, now);
    LoopMoves(t, task, ms, Limit(task, |ms|), now, |ms|);
    assert ms[..|ms|] == ms;
    MovedByLoop(t, task, now);
    PassOfLoop(t, task, now, MoveInTurn(t, task, ms, Limit(task, |ms|), now, |ms|));
  }

  /** `processMoveTask`. */
  method ProcessMoveTask(store: Store, cfg: Config, task: MoveTask, now: int)
    requires QueuesKeyed(cfg, store.View()) && MessagesKeyed(store.View())
    modifies store
    ensures store.View() == MovePass(old(store.View()), task, now)
  {
    if task.sourceQueueId !in store.queues || store.queues[task.sourceQueueId].deletedAt.Some? {
      store.UpdateMoveTask(task.(status := Failed, failureReason := "Source queue no longer exists.",
                                 completedAt := Some(Seconds(now)), updatedAt := Seconds(now)));
      return;
    }
    var messages := store.ListMessagesByQueue(task.sourceQueueId);
    var limit := |messages|;
    if task.maxMessagesPerSecond.Some? && task.maxMessagesPerSecond.value > 0 {
      limit := task.maxMessagesPerSecond.value;
    }
    ExpiredListed(store.View(), task.sourceQueueId, now);
    PassIsLoop(store.View(), task, now, messages);
    var moved, remaining := MoveMessages(store, cfg, task, messages, limit, now);
    CountPass(store, task, moved, remaining, now);
  }
}
