/** The SQLite store: mutable tables, and one method for each statement the service issues. */
module Storage {
  import opened Records
  import opened Sequences
  import opened Strings
  import opened Tables

  class Store {
    var queues: map<int, Queue>
    var nextQueueId: int
    var pending: map<int, Patch>
    var nextPatchId: int
    var tasks: map<int, MoveTask>
    var nextTaskId: int
    var messages: map<int, Message>
    var nextRowId: int
    var receipts: map<Handle, Receipt>
    var ledger: map<LedgerKey, DedupEntry>
    var attempts: map<AttemptKey, ReceiveAttempt>
    var issued: set<Handle>
    var nextCall: nat

    /** The tables as one value. */
    function View(): Tables
      reads this
    {
      Tables(queues, nextQueueId, pending, nextPatchId, tasks, nextTaskId,
             messages, nextRowId, receipts, ledger, attempts, issued, nextCall)
    }

    constructor ()
      ensures View() == EMPTY
    {
      queues, nextQueueId := map[], 1;
      pending, nextPatchId := map[], 1;
      tasks, nextTaskId := map[], 1;
      messages, nextRowId := map[], 1;
      receipts, ledger, attempts := map[], map[], map[];
      issued, nextCall := {}, 0;
    }

    // ---- queues ---------------------------------------------------------------

    method FindByUrl(cfg: Config, url: string) returns (found: Option<Queue>)
      requires QueuesKeyed(cfg, View())
      ensures found == QueueByUrl(View(), url)
    {
      found := None;
      var rest := queues.Keys;
      while rest != {}
        invariant rest <= queues.Keys
        invariant found.Some? ==> exists id :: id in queues && queues[id] == found.value && found.value.url == url
        invariant found.None? ==> forall id :: id in queues && id !in rest ==> queues[id].url != url
        decreases rest
      {
        ghost var some := Member(rest);
        var id :| id in rest;
        if queues[id].url == url {
          found := Some(queues[id]);
        }
        rest := rest - {id};
      }
      if found.Some? {
        NamesFromUrls(cfg, found.value.name, QueueByUrl(View(), url).value.name);
      }
    }

    method FindByArn(cfg: Config, arn: string) returns (found: Option<Queue>)
      requires QueuesKeyed(cfg, View())
      ensures found == QueueByArn(View(), arn)
    {
      found := None;
      var rest := queues.Keys;
      while rest != {}
        invariant rest <= queues.Keys
        invariant found.Some? ==> exists id :: id in queues && queues[id] == found.value && found.value.arn == arn
        invariant found.None? ==> forall id :: id in queues && id !in rest ==> queues[id].arn != arn
        decreases rest
      {
        ghost var some := Member(rest);
        var id :| id in rest;
        if queues[id].arn == arn {
          found := Some(queues[id]);
        }
        rest := rest - {id};
      }
      if found.Some? {
        NamesFromUrls(cfg, found.value.name, QueueByArn(View(), arn).value.name);
      }
    }

    method FindByName(cfg: Config, name: string) returns (found: Option<Queue>)
      requires QueuesKeyed(cfg, View())
      ensures found == QueueByName(View(), name)
    {
      found := None;
      var rest := queues.Keys;
      while rest != {}
        invariant rest <= queues.Keys
        invariant found.Some? ==> exists id :: id in queues && queues[id] == found.value && found.value.name == name
        invariant found.None? ==> forall id :: id in queues && id !in rest ==> queues[id].name != name
        decreases rest
      {
        ghost var some := Member(rest);
        var id :| id in rest;
        if queues[id].name == name {
          found := Some(queues[id]);
        }
        rest := rest - {id};
      }
    }

    method ListQueues(ghost cfg: Config) returns (all: seq<Queue>)
      requires QueuesKeyed(cfg, View())
      ensures all == QueuesOf(View())
      ensures forall q :: q in all <==> q.id in queues && queues[q.id] == q
      ensures forall i, j :: 0 <= i < j < |all| ==> all[i] != all[j] && Less(all[i].name, all[j].name)
    {
      NamesOrder(cfg, View());
      all := List(QueueSet(View()), NamedBefore);
      ListedRows(QueueSet(View()), NamedBefore);
    }

    method InsertQueue(queue: Queue) returns (stored: Queue)
      modifies this
      ensures stored == queue.(id := old(nextQueueId))
      ensures View() == old(View()).(queues := old(queues)[stored.id := stored], nextQueueId := old(nextQueueId) + 1)
    {
      stored := queue.(id := nextQueueId);
      queues, nextQueueId := queues[stored.id := stored], nextQueueId + 1;
    }

    method UpdateQueue(queue: Queue)
      modifies this
      ensures View() == old(View()).(queues :=
        if queue.id in old(queues) then old(queues)[queue.id := queue] else old(queues))
    {
      if queue.id in queues {
        queues := queues[queue.id := queue];
      }
    }

    method DeleteQueueRow(queueId: int)
      modifies this
      ensures View() == RemoveQueue(old(View()), queueId)
    {
      var after := RemoveQueue(View(), queueId);
      queues, pending, tasks := after.queues, after.pending, after.tasks;
      messages, receipts := after.messages, after.receipts;
      ledger, attempts := after.ledger, after.attempts;
    }

    method SavePendingAttributes(queueId: int, attributes: map<string, string>, effectiveAt: int)
      modifies this
      ensures View() == old(View()).(
        pending := old(pending)[old(nextPatchId) := Patch(old(nextPatchId), queueId, attributes, Seconds(effectiveAt))],
        nextPatchId := old(nextPatchId) + 1)
    {
      pending := pending[nextPatchId := Patch(nextPatchId, queueId, attributes, Seconds(effectiveAt))];
      nextPatchId := nextPatchId + 1;
    }

    method ListDuePatches(now: int) returns (patches: seq<Patch>)
      requires TasksKeyed(View())
      ensures patches == DuePatches(View(), now)
      ensures forall p :: p in patches <==> p.id in pending && pending[p.id] == p && p.effectiveAt <= now / 1000 * 1000
      ensures forall i, j :: 0 <= i < j < |patches| ==>
        patches[i].effectiveAt < patches[j].effectiveAt
        || (patches[i].effectiveAt == patches[j].effectiveAt && patches[i].id < patches[j].id)
    {
      TaskOrders(View(), now);
      patches := List(DueSet(View(), now), EffectiveBefore);
      ListedRows(DueSet(View(), now), EffectiveBefore);
    }

    method DeletePatch(id: int)
      modifies this
      ensures View() == old(View()).(pending := old(pending) - {id})
    {
      pending := pending - {id};
    }

    // ---- move tasks -------------------------------------------------------------

    method InsertMoveTask(task: MoveTask) returns (stored: MoveTask)
      modifies this
      ensures stored == task.(id := old(nextTaskId))
      ensures View() == old(View()).(tasks := old(tasks)[stored.id := stored], nextTaskId := old(nextTaskId) + 1)
    {
      stored := task.(id := nextTaskId);
      tasks, nextTaskId := tasks[stored.id := stored], nextTaskId + 1;
    }

    method UpdateMoveTask(task: MoveTask)
      modifies this
      ensures View() == old(View()).(tasks := if task.id in old(tasks) then old(tasks)[task.id := task] else old(tasks))
    {
      if task.id in tasks {
        tasks := tasks[task.id := task];
      }
    }

    method ListRunningMoveTasks() returns (running: seq<MoveTask>)
      requires TasksKeyed(View())
      ensures running == RunningTasks(View())
      ensures forall k :: k in running <==> k.id in tasks && tasks[k.id] == k && (k.status == Running || k.status == Cancelling)
      ensures forall i, j :: 0 <= i < j < |running| ==>
        running[i].startedAt < running[j].startedAt
        || (running[i].startedAt == running[j].startedAt && running[i].id < running[j].id)
    {
      TaskOrders(View(), 0);
      running := List(RunningSet(View()), StartedBefore);
      ListedRows(RunningSet(View()), StartedBefore);
    }

    method ListMoveTasksBySourceQueue(sourceId: int, limit: nat) returns (newest: seq<MoveTask>)
      requires TasksKeyed(View())
      ensures newest == NewestTasks(View(), sourceId, limit)
      ensures |newest| <= limit && forall k :: k in newest ==> k.id in tasks && tasks[k.id] == k && k.sourceQueueId == sourceId
      ensures forall i, j :: 0 <= i < j < |newest| ==>
        newest[i].startedAt > newest[j].startedAt
        || (newest[i].startedAt == newest[j].startedAt && newest[i].id > newest[j].id)
      ensures forall id, i :: id in tasks && tasks[id].sourceQueueId == sourceId && tasks[id] !in newest && 0 <= i < |newest| ==>
        |newest| == limit
        && (newest[i].startedAt > tasks[id].startedAt || (newest[i].startedAt == tasks[id].startedAt && newest[i].id > id))
    {
      NewestListed(View(), sourceId);
      var all := List(TasksFrom(View(), sourceId), StartedAfter);
      newest := Take(all, limit);
      ListedRows(TasksFrom(View(), sourceId), StartedAfter);
      TakeKeepsFirst(all, limit, StartedAfter);
    }

    /** The newest running task of the source; by `OneRunning` there is at most one. */
    method FindRunningMoveTask(sourceId: int) returns (found: Option<MoveTask>)
      requires TasksKeyed(View())
      ensures found == RunningTask(View(), sourceId)
      ensures found.Some? ==>
        && found.value.id in tasks && tasks[found.value.id] == found.value
        && found.value.sourceQueueId == sourceId && (found.value.status == Running || found.value.status == Cancelling)
      ensures found.None? ==> forall id :: id in tasks && tasks[id].sourceQueueId == sourceId ==>
        tasks[id].status != Running && tasks[id].status != Cancelling
    {
      NewestListed(View(), sourceId);
      var all := List(TasksFrom(View(), sourceId), StartedAfter);
      var running := Filter(all, IsRunning);
      found := if running == [] then None else Some(running[0]);
      assert found.Some? ==> found.value in running;
      assert found.None? ==> forall k :: k in all ==> k !in running;
    }

    // ---- messages -----------------------------------------------------------------

    method InsertMessage(message: Message) returns (stored: Message)
      modifies this
      ensures stored == message.(rowId := old(nextRowId))
      ensures View() == old(View()).(messages := old(messages)[stored.rowId := stored], nextRowId := old(nextRowId) + 1)
    {
      stored := message.(rowId := nextRowId);
      messages, nextRowId := messages[stored.rowId := stored], nextRowId + 1;
    }

    method UpdateMessage(message: Message)
      modifies this
      ensures View() == old(View()).(messages :=
        if message.rowId in old(messages) then old(messages)[message.rowId := message] else old(messages))
    {
      if message.rowId in messages {
        messages := messages[message.rowId := message];
      }
    }

    method ListMessagesByQueue(queueId: int) returns (ms: seq<Message>)
      requires MessagesKeyed(View())
      ensures ms == MessagesOf(View(), queueId)
      ensures forall m :: m in ms <==> m.rowId in messages && messages[m.rowId] == m && m.queueId == queueId
      ensures forall i, j :: 0 <= i < j < |ms| ==>
        ms[i].sentAt < ms[j].sentAt || (ms[i].sentAt == ms[j].sentAt && ms[i].rowId < ms[j].rowId)
    {
      SentBeforeOrders(View(), queueId);
      ms := List(Rows(messages, queueId), SentBefore);
      MessagesOfRows(View(), queueId);
    }

    method DeleteMessagesByQueueBefore(queueId: int, cutoff: int)
      modifies this
      ensures View() == old(View()).(messages := MarkDeletedBefore(old(messages), queueId, cutoff))
    {
      messages := MarkDeletedBefore(messages, queueId, cutoff);
    }

    // ---- receipts -------------------------------------------------------------------

    method InsertReceipt(receipt: Receipt)
      modifies this
      ensures View() == old(View()).(
        receipts := old(receipts)[receipt.handle := receipt], issued := old(issued) + {receipt.handle})
    {
      receipts := receipts[receipt.handle := receipt];
      issued := issued + {receipt.handle};
    }

    method UpdateReceipt(receipt: Receipt)
      modifies this
      ensures View() == old(View()).(receipts :=
        if receipt.handle in old(receipts) then old(receipts)[receipt.handle := receipt] else old(receipts))
    {
      if receipt.handle in receipts {
        receipts := receipts[receipt.handle := receipt];
      }
    }

    method DeactivateReceiptsByMessage(rowId: int)
      modifies this
      ensures View() == old(View()).(receipts := Deactivate(old(receipts), {rowId}))
    {
      receipts := Deactivate(receipts, {rowId});
    }

    // ---- deduplication ledger and receive attempts --------------------------------------

    method InsertDedupEntry(key: LedgerKey, entry: DedupEntry)
      modifies this
      ensures View() == old(View()).(ledger := old(ledger)[key := entry])
    {
      ledger := ledger[key := entry];
    }

    method DeleteExpiredDedupEntries(now: int)
      modifies this
      ensures View() == old(View()).(ledger := DropExpired(old(ledger), now))
    {
      ledger := DropExpired(ledger, now);
    }

    method InsertReceiveAttempt(key: AttemptKey, attempt: ReceiveAttempt)
      modifies this
      ensures View() == old(View()).(attempts := old(attempts)[key := attempt])
    {
      attempts := attempts[key := attempt];
    }

    method InvalidateReceiveAttempts(queueId: int, at: int)
      modifies this
      ensures View() == old(View()).(attempts := InvalidateAttempts(old(attempts), queueId, at))
    {
      attempts := InvalidateAttempts(attempts, queueId, at);
    }

    /** Opens the next receive call: the stamp its receipts will carry. */
    method BeginCall() returns (call: nat)
      modifies this
      ensures call == old(nextCall)
      ensures View() == old(View()).(nextCall := old(nextCall) + 1)
    {
      call := nextCall;
      nextCall := nextCall + 1;
    }
  }
}
