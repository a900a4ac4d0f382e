/** Move tasks in columns: what starting and cancelling one do, and what a pass does to each message. */
module TaskLaws {
  import opened Records
  import opened Sequences
  import opened Tables
  import opened QueueAttributes
  import opened Deliverable
  import opened Plane
  import opened Integrity
  import opened Leases
  import opened MoveTasks
  import opened Runs
  import opened Traces
  import opened Upkeeping
  import opened Upkept
  import opened QueueHandlers
  import opened QueueRequests

  // ---- a pass -------------------------------------------------------------------------------------

  /** The queue a message goes to: the destination of the task, or where the message says that it came from. */
  lemma DestinationIs(cfg: Config, t: Tables, task: MoveTask, m: Message)
    requires QueuesKeyed(cfg, t)
    ensures var d := Destination(t, task, m);
      && (d.Some? ==>
            && d.value.id in t.queues && t.queues[d.value.id] == d.value && d.value.deletedAt.None?
            && if task.destinationQueueId.Some? then d.value.id == task.destinationQueueId.value
               else m.deadLetterSourceArn != "" && d.value.arn == m.deadLetterSourceArn)
      && (d.None? ==> forall id :: id in t.queues && t.queues[id].deletedAt.None? ==>
            if task.destinationQueueId.Some? then id != task.destinationQueueId.value
            else m.deadLetterSourceArn == "" || t.queues[id].arn != m.deadLetterSourceArn)
  {
    if task.destinationQueueId.None? && m.deadLetterSourceArn != "" {
      var found := QueueByArn(t, m.deadLetterSourceArn);
      forall id | id in t.queues && t.queues[id].arn == m.deadLetterSourceArn ensures found == Some(t.queues[id]) {
        NamesFromUrls(cfg, t.queues[id].name, found.value.name);
      }
    }
  }

  /**
   * A moved message starts anew in its destination: sent, visible and never received now, with the retention of that queue, and
   * without a receipt. No other row changes.
   */
  lemma PassRewrites(cfg: Config, t: Tables, task: MoveTask, now: int, id: int)
    requires Keyed(cfg, t) && IsLive(QueueById(t, task.sourceQueueId)) && id in t.messages
    ensures var t', m, moved := MovePass(t, task, now), t.messages[id], RowIds(MovedBy(t, task, now));
      && id in t'.messages
      && if id in moved then
           && m.queueId == task.sourceQueueId && m.deletedAt.None? && m.retentionDeadline > now && Destination(t, task, m).Some?
           && var d := Destination(t, task, m).value;
           && t'.messages[id] == Message(
                id, d.id, m.messageId, m.body, now, now, None, 0, now, None, now + RetentionSeconds(d) * 1000, None,
                m.groupId, m.dedupId, "")
           && forall h :: h in t.receipts && t.receipts[h].messageRowId == id ==> h in t'.receipts && !t'.receipts[h].active
         else t'.messages[id] == m
  {
    if id in RowIds(MovedBy(t, task, now)) { MovedByIds(t, task, now, id); }
  }

  /** A pass takes no more than its rate, if it has one. */
  lemma PassWithinRate(t: Tables, task: MoveTask, now: int)
    ensures task.maxMessagesPerSecond.Some? && task.maxMessagesPerSecond.value > 0 ==>
      |MovedBy(t, task, now)| <= task.maxMessagesPerSecond.value
  {
  }

  /** And it leaves a message that could be moved only if its rate is used up by messages sent before. */
  lemma PassLeavesLater(cfg: Config, t: Tables, task: MoveTask, now: int, m: Message)
    requires Keyed(cfg, t) && m.rowId in t.messages && t.messages[m.rowId] == m && m.queueId == task.sourceQueueId
    requires m.deletedAt.None? && m.retentionDeadline > now && Destination(t, task, m).Some? && m !in MovedBy(t, task, now)
    ensures task.maxMessagesPerSecond.Some? && |MovedBy(t, task, now)| == task.maxMessagesPerSecond.value > 0
    ensures forall x :: x in MovedBy(t, task, now) ==> x.sentAt < m.sentAt || (x.sentAt == m.sentAt && x.rowId < m.rowId)
  {
    LiveRows(t, task.sourceQueueId, now);
    PassTakesFirst(t, task, now, m);
    if !(task.maxMessagesPerSecond.Some? && task.maxMessagesPerSecond.value > 0) { WholeListing(t, task, now, m); }
  }

  lemma WholeListing(t: Tables, task: MoveTask, now: int, m: Message)
    requires m in LiveOf(t, task.sourceQueueId, now) && Movable(t, task)(m)
    requires !(task.maxMessagesPerSecond.Some? && task.maxMessagesPerSecond.value > 0)
    ensures m in MovedBy(t, task, now)
  {
    var live := LiveOf(t, task.sourceQueueId, now);
    assert |Filter(live, Movable(t, task))| <= |live| <= |MessagesOf(t, task.sourceQueueId)|;
  }

  // ---- starting -----------------------------------------------------------------------------------

  /** The live queue with this ARN. */
  lemma ArnFinds(cfg: Config, t: Tables, arn: string)
    requires QueuesKeyed(cfg, t)
    ensures var found := FoundByArn(t, arn);
      && (found.Ok? ==> found.value.id in t.queues && t.queues[found.value.id] == found.value
                        && found.value.arn == arn && found.value.deletedAt.None?)
      && (found.Err? ==> found.error == ResourceNotFound
                         && forall id :: id in t.queues && t.queues[id].arn == arn ==> t.queues[id].deletedAt.Some?)
  {
    var found := QueueByArn(t, arn);
    forall id | id in t.queues && t.queues[id].arn == arn ensures found == Some(t.queues[id]) {
      NamesFromUrls(cfg, t.queues[id].name, found.value.name);
    }
  }

  /**
   * A start on a live source without a running task, and with no destination or that of a live queue, adds a running task with
   * the rate asked for if it is positive; then every running task has a pass.
   */
  lemma StartAdds(cfg: Config, t: Tables, sourceArn: string, destinationArn: string, perSecond: Option<int>, taskHandle: string, now: int)
    requires Keyed(cfg, t) && FoundByArn(t, sourceArn).Ok?
    requires forall k :: k in t.tasks && t.tasks[k].sourceQueueId == FoundByArn(t, sourceArn).value.id ==>
      t.tasks[k].status != Running && t.tasks[k].status != Cancelling
    requires destinationArn != "" ==> FoundByArn(t, destinationArn).Ok?
    ensures var source, t' := FoundByArn(t, sourceArn).value, MoveRequested(t, sourceArn, destinationArn, perSecond, taskHandle, now);
      var task := MoveTask(
        t.nextTaskId, taskHandle, source.id, if destinationArn == "" then None else Some(FoundByArn(t, destinationArn).value.id),
        Running, if perSecond.Some? && perSecond.value > 0 then perSecond else None, 0,
        Some(|LiveIds(t.messages, source.id, now)|), "", now / 1000 * 1000, now / 1000 * 1000, None);
      var t1 := t.(tasks := t.tasks[t.nextTaskId := task], nextTaskId := t.nextTaskId + 1);
      t' == PassAll(t1, RunningTasks(t1), now)
  {
    var source := FoundByArn(t, sourceArn).value;
    RunningTaskIs(t, source.id);
    LiveCount(t, source.id, now);
  }

  /** The added task has its first pass at once. */
  lemma StartPasses(cfg: Config, t: Tables, task: MoveTask, now: int)
    requires Keyed(cfg, t) && task.id == t.nextTaskId && task.status == Running && IsLive(QueueById(t, task.sourceQueueId))
    ensures var t1 := t.(tasks := t.tasks[t.nextTaskId := task], nextTaskId := t.nextTaskId + 1);
      var t' := PassAll(t1, RunningTasks(t1), now);
      task.id in t'.tasks && HadPass(task, t'.tasks[task.id], true, now)
  {
    var t1 := t.(tasks := t.tasks[t.nextTaskId := task], nextTaskId := t.nextTaskId + 1);
    TasksChangedKeyed(cfg, t, t1.tasks, t1.nextTaskId);
    ListedTasks(t1);
    TaskListed(t1, task.id);
    var tasks := RunningTasks(t1);
    var u, rest := PassAmong(cfg, t1, tasks, now, IndexOf(tasks, task));
    PassHadBy(u, task, now);
    PassesTask(cfg, MovePass(u, task, now), rest, now, task.id);
  }

  /** Without a live source or destination nothing is started, and nothing either while a task of the source runs. */
  lemma StartRefused(cfg: Config, t: Tables, sourceArn: string, destinationArn: string, perSecond: Option<int>, taskHandle: string, now: int)
    requires Keyed(cfg, t)
    requires
      || FoundByArn(t, sourceArn).Err?
      || (destinationArn != "" && FoundByArn(t, destinationArn).Err?)
      || exists k :: k in t.tasks && t.tasks[k].sourceQueueId == FoundByArn(t, sourceArn).value.id
                     && (t.tasks[k].status == Running || t.tasks[k].status == Cancelling)
    ensures MoveRequested(t, sourceArn, destinationArn, perSecond, taskHandle, now) == t
  {
    if FoundByArn(t, sourceArn).Ok? { RunningTaskIs(t, FoundByArn(t, sourceArn).value.id); }
  }

  // ---- cancelling ---------------------------------------------------------------------------------

  /** Which task a cancellation finds: one of the source with the handle, and none only if ten newer ones hide it. */
  lemma CancellationFinds(t: Tables, sourceId: int, handle: string)
    requires TasksKeyed(t)
    ensures var found := Cancellable(t, sourceId, handle);
      && (found.Some? ==> found.value.id in t.tasks && t.tasks[found.value.id] == found.value
                          && found.value.sourceQueueId == sourceId && found.value.handle == handle)
      && (found.None? ==> forall id | id in t.tasks && t.tasks[id].sourceQueueId == sourceId && t.tasks[id].handle == handle ::
            |NewestTasks(t, sourceId, 10)| == 10 && forall k :: k in NewestTasks(t, sourceId, 10) ==>
              k.startedAt > t.tasks[id].startedAt || (k.startedAt == t.tasks[id].startedAt && k.id > id))
  {
    var all := Listed(TasksFrom(t, sourceId), StartedAfter);
    NewestListed(t, sourceId);
    ListedRows(TasksFrom(t, sourceId), StartedAfter);
    TakeKeepsFirst(all, 10, StartedAfter);
    CancellableStored(t, sourceId, handle);
    var newest := NewestTasks(t, sourceId, 10);
    forall id, k | id in t.tasks && t.tasks[id].sourceQueueId == sourceId && t.tasks[id] !in newest && k in newest
      ensures |newest| == 10 && StartedAfter(k, t.tasks[id])
    {
      var i := IndexOf(newest, k);
    }
  }

  /** A successful cancellation stops the task at once, whatever its status was, and changes nothing else. */
  lemma CancellationStops(cfg: Config, t: Tables, sourceArn: string, handle: string, now: int)
    requires Keyed(cfg, t) && FoundByArn(t, sourceArn).Ok?
    requires Cancellable(t, FoundByArn(t, sourceArn).value.id, handle).Some?
    ensures var task := Cancellable(t, FoundByArn(t, sourceArn).value.id, handle).value;
      && task.id in t.tasks
      && MoveCancelled(t, sourceArn, handle, now) == t.(tasks := t.tasks[task.id := t.tasks[task.id].(
           status := Cancelled, completedAt := Some(now / 1000 * 1000), updatedAt := now / 1000 * 1000)])
  {
    CancellableStored(t, FoundByArn(t, sourceArn).value.id, handle);
  }

  /** And no later run has a pass of it. */
  lemma CancelledStaysStill(cfg: Config, t: Tables, now: int, sourceArn: string, handle: string, run: seq<Tick>)
    requires Reachable(cfg, t, now) && FoundByArn(t, sourceArn).Ok?
    requires Cancellable(t, FoundByArn(t, sourceArn).value.id, handle).Some?
    requires Legal(cfg, MoveCancelled(t, sourceArn, handle, now), now, run)
    ensures !PassIn(run, Cancellable(t, FoundByArn(t, sourceArn).value.id, handle).value.id)
  {
    var task, t' := Cancellable(t, FoundByArn(t, sourceArn).value.id, handle).value, MoveCancelled(t, sourceArn, handle, now);
    ReachableSound(cfg, t, now);
    CancellationStops(cfg, t, sourceArn, handle, now);
    LeadsStep(cfg, t, now, OnQueues(Cancel(task.id)));
    ReachesOn(cfg, t, now, now, [OnQueues(Cancel(task.id))], t');
    ReachableTasks(cfg, t', now, run, task.id);
  }
}
