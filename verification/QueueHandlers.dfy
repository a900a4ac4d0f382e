/** The handlers that create, delete, purge and change queues, and start move tasks. */
module QueueHandlers {
  import opened Records
  import opened Sequences
  import opened Tables
  import opened Storage
  import opened QueueAttributes
  import opened Deliverable
  import opened Plane
  import opened Integrity
  import opened MoveTasks
  import opened Receiving
  import opened Maintenance
  import opened Upkeeping

  ghost function WithQueue(cfg: Config, t: Tables, name: string, attributes: map<string, string>, stamps: map<string, string>, now: int): Tables {
    t.(queues := t.queues[t.nextQueueId := NewQueue(cfg, t.nextQueueId, name, attributes, now, stamps)],
       nextQueueId := t.nextQueueId + 1)
  }

  /** The end of `CreateQueue`. */
  method AddQueue(store: Store, cfg: Config, name: string, attributes: map<string, string>, stamps: map<string, string>, now: int)
    returns (url: string)
    modifies store
    ensures url == QueueUrl(cfg, name)
    ensures store.View() == WithQueue(cfg, old(store.View()), name, attributes, stamps, now)
  {
    var created := store.InsertQueue(NewQueue(cfg, 0, name, attributes, now, stamps));
    url := created.url;
  }

  /**
   * `CreateQueue`, after the mutations it applies first and with valid attributes. A tombstone blocks its name
   * until the cooldown is over and is then replaced, with everything that belonged to it.
   */
  method MakeQueue(store: Store, cfg: Config, name: string, attributes: map<string, string>, stamps: map<string, string>, now: int)
    returns (result: Result<string>)
    requires QueuesKeyed(cfg, store.View())
    modifies store
    ensures result == CreateResult(cfg, old(store.View()), name, attributes, now)
    ensures store.View() == CreateQueue(cfg, old(store.View()), name, attributes, stamps, now)
  {
    CreateIs(cfg, store.View(), name, attributes, stamps, now);
    var existing := store.FindByName(cfg, name);
    if existing.Some? {
      var queue := existing.value;
      if queue.deletedAt.Some? && queue.reuseBlockedTill.Some? && now < queue.reuseBlockedTill.value {
        return Err(QueueDeletedRecently);
      }
      if queue.deletedAt.Some? {
        store.DeleteQueueRow(queue.id);
      } else if !Equivalent(queue, attributes) {
        return Err(QueueNameExists);
      } else {
        return Ok(queue.url);
      }
    }
    var url := AddQueue(store, cfg, name, attributes, stamps, now);
    result := Ok(url);
  }

  lemma CreateIs(cfg: Config, t: Tables, name: string, attributes: map<string, string>, stamps: map<string, string>, now: int)
    ensures var existing := QueueByName(t, name);
      CreateQueue(cfg, t, name, attributes, stamps, now) ==
      if Blocked(t, name, now) || IsLive(existing) then t
      else if existing.Some? then WithQueue(cfg, RemoveQueue(t, existing.value.id), name, attributes, stamps, now)
      else WithQueue(cfg, t, name, attributes, stamps, now)
  {
  }

  /** A live queue by its URL, as every request looks it up. */
  method LookupQueueByURL(store: Store, cfg: Config, url: string) returns (found: Result<Queue>)
    requires QueuesKeyed(cfg, store.View())
    ensures found == if IsLive(QueueByUrl(store.View(), url)) then Ok(QueueByUrl(store.View(), url).value) else Err(QueueDoesNotExist)
  {
    var queue := store.FindByUrl(cfg, url);
    found := if queue.Some? && queue.value.deletedAt.None? then Ok(queue.value) else Err(QueueDoesNotExist);
  }

  /** `DeleteQueue`: the row stays, as a tombstone. */
  method BuryQueue(store: Store, cfg: Config, queue: Queue, stamp: map<string, string>, now: int)
    requires queue.id in store.queues
    modifies store
    ensures store.View() == DeleteQueue(cfg, old(store.View()), queue, stamp, now)
  {
    store.UpdateQueue(queue.(
      attributes := queue.attributes + stamp, lastModifiedAt := Seconds(now),
      deletedAt := Some(Seconds(now)), reuseBlockedTill := Some(Seconds(now + cfg.deleteCooldown))));
  }

  /** `PurgeQueue`: opens a purge window, unless one is open. */
  method OpenPurge(store: Store, cfg: Config, queue: Queue, stamp: map<string, string>, now: int) returns (result: Result<()>)
    requires queue.id in store.queues
    modifies store
    ensures result == if PurgeRunning(queue, now) then Err(PurgeQueueInProgress) else Ok(())
    ensures store.View() == PurgeQueue(cfg, old(store.View()), queue, stamp, now)
  {
    if queue.purgeExpiresAt.Some? && now < queue.purgeExpiresAt.value {
      return Err(PurgeQueueInProgress);
    }
    store.UpdateQueue(queue.(
      attributes := queue.attributes + stamp, lastModifiedAt := Seconds(now),
      purgeRequestedAt := Some(Seconds(now)), purgeExpiresAt := Some(Seconds(now + cfg.purgeCooldown))));
    result := Ok(());
  }

  /** `SetQueueAttributes`, with a valid patch: the change is only scheduled. */
  method SchedulePatch(store: Store, cfg: Config, queue: Queue, patch: map<string, string>, stamp: map<string, string>, now: int)
    requires queue.id in store.queues
    modifies store
    ensures store.View() == SetAttributes(cfg, old(store.View()), queue, patch, stamp, now)
  {
    if patch == map[] {
      return;
    }
    store.UpdateQueue(queue.(attributes := queue.attributes + stamp, lastModifiedAt := Seconds(now)));
    var effectiveAt := now + cfg.attributePropagation;
    if OnlyRetention(patch) {
      effectiveAt := now + cfg.retentionPropagation;
    }
    store.SavePendingAttributes(queue.id, patch, effectiveAt);
  }

  lemma LiveCounted(ms: seq<Message>, i: nat, now: int)
    requires i < |ms|
    ensures |Filter(ms[..i + 1], LiveAt(now))| == |Filter(ms[..i], LiveAt(now))| + if Live(ms[i], now) then 1 else 0
  {
    FilterCount(ms, i, LiveAt(now));
  }

  /** The live messages of a queue, counted. */
  method CountLive(store: Store, queueId: int, now: int) returns (count: nat)
    requires MessagesKeyed(store.View())
    ensures count == |LiveOf(store.View(), queueId, now)|
  {
    var messages := store.ListMessagesByQueue(queueId);
    count := 0;
    for i := 0 to |messages|
      invariant count == |Filter(messages[..i], LiveAt(now))|
    {
      LiveCounted(messages, i, now);
      if messages[i].deletedAt.None? && messages[i].retentionDeadline > now {
        count := count + 1;
      }
    }
    assert messages[..|messages|] == messages;
  }

  /** A live queue by its ARN. */
  method LookupQueueByARN(store: Store, cfg: Config, arn: string) returns (found: Result<Queue>)
    requires QueuesKeyed(cfg, store.View())
    ensures found == FoundByArn(store.View(), arn)
  {
    var queue := store.FindByArn(cfg, arn);
    found := if queue.Some? && queue.value.deletedAt.None? then Ok(queue.value) else Err(ResourceNotFound);
  }

  ghost function FoundByArn(t: Tables, arn: string): Result<Queue> {
    if IsLive(QueueByArn(t, arn)) then Ok(QueueByArn(t, arn).value) else Err(ResourceNotFound)
  }

  /** Where a move task goes: to the queue named, which must be there, or back to where each message came from. */
  ghost function MoveDestination(t: Tables, arn: string): Result<Option<int>> {
    if arn == "" then Ok(None)
    else match FoundByArn(t, arn) case Ok(q) => Ok(Some(q.id)) case Err(e) => Err(e)
  }

  function MoveRate(perSecond: Option<int>): Option<int> {
    if perSecond.Some? && perSecond.value > 0 then perSecond else None
  }

  /** What a start leaves behind: nothing new if a task runs or the destination is missing, else a task and a pass of every one. */
  ghost function MoveStarted(t: Tables, sourceId: int, destination: Result<Option<int>>, perSecond: Option<int>, taskHandle: string,
                             now: int): Tables {
    if RunningTask(t, sourceId).Some? || destination.Err? then t
    else
      var t1 := StartTask(t, sourceId, destination.value, perSecond, taskHandle, now);
      PassAll(t1, RunningTasks(t1), now)
  }

  lemma RunningTaskIs(t: Tables, sourceId: int)
    requires TasksKeyed(t)
    ensures RunningTask(t, sourceId).Some? <==> HasRunningTask(t, sourceId)
  {
    NewestListed(t, sourceId);
    var all := Listed(TasksFrom(t, sourceId), StartedAfter);
    if RunningTask(t, sourceId).Some? {
      assert RunningTask(t, sourceId).value in Filter(all, IsRunning);
    }
    if id :| id in t.tasks && t.tasks[id].sourceQueueId == sourceId && IsRunning(t.tasks[id]) {
      assert t.tasks[id] in Filter(all, IsRunning);
    }
  }

  /** The insertion of the task, and the passes. */
  method InsertAndProcess(store: Store, cfg: Config, sourceId: int, destinationId: Option<int>, perSecond: Option<int>,
                          taskHandle: string, now: int)
    requires Keyed(cfg, store.View()) && !HasRunningTask(store.View(), sourceId)
    modifies store
    ensures var t1 := StartTask(old(store.View()), sourceId, destinationId, perSecond, taskHandle, now);
      store.View() == PassAll(t1, RunningTasks(t1), now)
  {
    StartKeyed(cfg, store.View(), sourceId, destinationId, perSecond, taskHandle, now);
    var toMove := CountLive(store, sourceId, now);
    var created := store.InsertMoveTask(NewTask(0, taskHandle, sourceId, destinationId, perSecond, toMove, now));
    ProcessMoveTasks(store, cfg, now);
  }

  /**
   * `StartMessageMoveTask`, once its source is found. A source with a running task answers with that task, whatever
   * the destination.
   */
  method StartMove(store: Store, cfg: Config, sourceId: int, destinationArn: string, perSecond: Option<int>,
                   taskHandle: string, now: int)
    returns (answer: Result<string>)
    requires Keyed(cfg, store.View())
    modifies store
    ensures var t := old(store.View());
      && store.View() == MoveStarted(t, sourceId, MoveDestination(t, destinationArn), MoveRate(perSecond), taskHandle, now)
      && answer == match RunningTask(t, sourceId)
         case Some(task) => Ok(task.handle)
         case None => if MoveDestination(t, destinationArn).Err? then Err(ResourceNotFound) else Ok(taskHandle)
  {
    RunningTaskIs(store.View(), sourceId);
    var running := store.FindRunningMoveTask(sourceId);
    if running.Some? {
      return Ok(running.value.handle);
    }
    var destinationId := None;
    if destinationArn != "" {
      var destination := LookupQueueByARN(store, cfg, destinationArn);
      if destination.Err? {
        return Err(ResourceNotFound);
      }
      destinationId := Some(destination.value.id);
    }
    InsertAndProcess(store, cfg, sourceId, destinationId, MoveRate(perSecond), taskHandle, now);
    answer := Ok(taskHandle);
  }

  /** The first of the listed tasks with this handle. */
  function WithHandle(tasks: seq<MoveTask>, handle: string): (found: Option<MoveTask>)
    ensures found.Some? ==> found.value in tasks && found.value.handle == handle
    ensures found.None? ==> forall task :: task in tasks ==> task.handle != handle
  {
    if tasks == [] then None else if tasks[0].handle == handle then Some(tasks[0]) else WithHandle(tasks[1..], handle)
  }

  /** The task that a cancellation finds: only the ten newest of the source are looked at. */
  ghost function Cancellable(t: Tables, sourceId: int, handle: string): Option<MoveTask> {
    WithHandle(NewestTasks(t, sourceId, 10), handle)
  }

  lemma CancellableStored(t: Tables, sourceId: int, handle: string)
    requires TasksKeyed(t)
    ensures var found := Cancellable(t, sourceId, handle); found.Some? ==>
      found.value.id in t.tasks && t.tasks[found.value.id] == found.value && found.value.sourceQueueId == sourceId
  {
    NewestListed(t, sourceId);
  }

  /** The loop of `CancelMessageMoveTask`. */
  method CancelListed(store: Store, sourceId: int, handle: string, now: int) returns (answer: Result<int>)
    requires TasksKeyed(store.View())
    modifies store
    ensures match Cancellable(old(store.View()), sourceId, handle)
      case None => answer == Err(ResourceNotFound) && store.View() == old(store.View())
      case Some(task) =>
        && task.id in old(store.tasks)
        && answer == Ok(task.moved) && store.View() == CancelTask(old(store.View()), task.id, now)
  {
    CancellableStored(store.View(), sourceId, handle);
    var tasks := store.ListMoveTasksBySourceQueue(sourceId, 10);
    assert tasks[0..] == tasks;
    for i := 0 to |tasks|
      invariant store.View() == old(store.View())
      invariant WithHandle(tasks[i..], handle) == WithHandle(tasks, handle)
    {
      BackStep(tasks, i);
      if tasks[i].handle != handle {
        continue;
      }
      var moved := CancelMove(store, tasks[i].id, now);
      return Ok(moved);
    }
    answer := Err(ResourceNotFound);
  }

  /** The update of `CancelMessageMoveTask`, once the move task is found. */
  method CancelMove(store: Store, taskId: int, now: int) returns (moved: int)
    requires taskId in store.tasks && store.tasks[taskId].id == taskId
    modifies store
    ensures moved == old(store.tasks)[taskId].moved
    ensures store.View() == CancelTask(old(store.View()), taskId, now)
  {
    var task := store.tasks[taskId];
    store.UpdateMoveTask(task.(status := Cancelled, completedAt := Some(Seconds(now)), updatedAt := Seconds(now)));
    moved := task.moved;
  }
}
