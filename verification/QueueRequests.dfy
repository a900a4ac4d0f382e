/** Whole requests on queues and move tasks. */
module QueueRequests {
  import opened Records
  import opened Sequences
  import opened Tables
  import opened Storage
  import opened Plane
  import opened Integrity
  import opened Runs
  import opened Traces
  import opened Maintenance
  import opened Upkeeping
  import opened QueueHandlers
  import opened Requests
  import Pagination

  // ---- queues -----------------------------------------------------------------------------

  /** `CreateQueue`, with valid attributes that are merged with the defaults. */
  method CreateQueueRequest(store: Store, cfg: Config, name: string, attributes: map<string, string>, stamps: map<string, string>, now: int)
    returns (result: Result<string>)
    requires Keyed(cfg, store.View())
    modifies store
    ensures var t := ApplyDue(old(store.View()), now);
      && result == CreateResult(cfg, t, name, attributes, now)
      && store.View() == CreateQueue(cfg, t, name, attributes, stamps, now)
  {
    ApplyPatchesKeyed(cfg, store.View(), DuePatches(store.View(), now), now);
    ApplyDueQueueMutations(store, cfg, now);
    result := MakeQueue(store, cfg, name, attributes, stamps, now);
  }

  ghost function Buried(cfg: Config, t: Tables, url: string, stamp: map<string, string>, now: int): Tables {
    match Found(t, url) case Err(_) => t case Ok(q) => DeleteQueue(cfg, t, q, stamp, now)
  }

  /** `DeleteQueue`. */
  method DeleteQueueRequest(store: Store, cfg: Config, url: string, stamp: map<string, string>, now: int) returns (result: Result<()>)
    requires Keyed(cfg, store.View())
    modifies store
    ensures store.View() == Buried(cfg, old(store.View()), url, stamp, now)
    ensures result == match Found(old(store.View()), url) case Err(e) => Err(e) case Ok(_) => Ok(())
  {
    var queue := LookupQueueByURL(store, cfg, url);
    if queue.Err? {
      return Err(queue.error);
    }
    FoundStored(cfg, store.View(), url);
    BuryQueue(store, cfg, queue.value, stamp, now);
    result := Ok(());
  }

  ghost function Purged(cfg: Config, t: Tables, url: string, stamp: map<string, string>, now: int): Tables {
    match Found(t, url) case Err(_) => t case Ok(q) => PurgeQueue(cfg, t, q, stamp, now)
  }

  /** `PurgeQueue`. */
  method PurgeQueueRequest(store: Store, cfg: Config, url: string, stamp: map<string, string>, now: int) returns (result: Result<()>)
    requires Keyed(cfg, store.View())
    modifies store
    ensures store.View() == Purged(cfg, old(store.View()), url, stamp, now)
    ensures result == match Found(old(store.View()), url)
      case Err(e) => Err(e)
      case Ok(q) => if PurgeRunning(q, now) then Err(PurgeQueueInProgress) else Ok(())
  {
    var queue := LookupQueueByURL(store, cfg, url);
    if queue.Err? {
      return Err(queue.error);
    }
    FoundStored(cfg, store.View(), url);
    result := OpenPurge(store, cfg, queue.value, stamp, now);
  }

  ghost function Patched(cfg: Config, t: Tables, url: string, patch: map<string, string>, stamp: map<string, string>, now: int): Tables {
    match Found(t, url) case Err(_) => t case Ok(q) => SetAttributes(cfg, t, q, patch, stamp, now)
  }

  /** `SetQueueAttributes`, with valid attributes. */
  method SetQueueAttributesRequest(store: Store, cfg: Config, url: string, patch: map<string, string>, stamp: map<string, string>, now: int)
    returns (result: Result<()>)
    requires Keyed(cfg, store.View())
    modifies store
    ensures store.View() == Patched(cfg, old(store.View()), url, patch, stamp, now)
    ensures result == match Found(old(store.View()), url) case Err(e) => Err(e) case Ok(_) => Ok(())
  {
    var queue := LookupQueueByURL(store, cfg, url);
    if queue.Err? {
      return Err(queue.error);
    }
    FoundStored(cfg, store.View(), url);
    SchedulePatch(store, cfg, queue.value, patch, stamp, now);
    result := Ok(());
  }

  /** `ListQueues`, without a name prefix. */
  method ListQueuesRequest(store: Store, cfg: Config, max: int, token: string, now: int) returns (outcome: Pagination.Outcome)
    requires Keyed(cfg, store.View())
    modifies store
    ensures store.View() == ApplyDue(old(store.View()), now)
    ensures outcome == Pagination.OutcomeOf(Pagination.LiveUrls(store.View()), max, token)
  {
    ApplyPatchesKeyed(cfg, store.View(), DuePatches(store.View(), now), now);
    ApplyDueQueueMutations(store, cfg, now);
    outcome := Pagination.ListQueues(store, cfg, max, token);
  }

  // ---- move tasks -------------------------------------------------------------------------

  /** What a start request leaves behind, once maintenance has led to `t`. */
  ghost function MoveRequested(t: Tables, sourceArn: string, destinationArn: string, perSecond: Option<int>, taskHandle: string, now: int): Tables {
    match FoundByArn(t, sourceArn)
    case Err(_) => t
    case Ok(source) => MoveStarted(t, source.id, MoveDestination(t, destinationArn), MoveRate(perSecond), taskHandle, now)
  }

  /** `StartMessageMoveTask`. */
  method StartMessageMoveTask(store: Store, cfg: Config, sourceArn: string, destinationArn: string, perSecond: Option<int>,
                              taskHandle: string, now: int)
    returns (answer: Result<string>)
    requires Keyed(cfg, store.View())
    modifies store
    ensures var t := Maintained(old(store.View()), now);
      && store.View() == MoveRequested(t, sourceArn, destinationArn, perSecond, taskHandle, now)
      && answer == match FoundByArn(t, sourceArn)
         case Err(e) => Err(e)
         case Ok(source) =>
           match RunningTask(t, source.id)
           case Some(task) => Ok(task.handle)
           case None => if MoveDestination(t, destinationArn).Err? then Err(ResourceNotFound) else Ok(taskHandle)
  {
    Maintain(store, cfg, now);
    var source := LookupQueueByARN(store, cfg, sourceArn);
    if source.Err? {
      return Err(source.error);
    }
    answer := StartMove(store, cfg, source.value.id, destinationArn, perSecond, taskHandle, now);
  }

  ghost function MoveCancelled(t: Tables, sourceArn: string, handle: string, now: int): Tables {
    match FoundByArn(t, sourceArn)
    case Err(_) => t
    case Ok(source) =>
      match Cancellable(t, source.id, handle)
      case None => t
      case Some(task) => if task.id in t.tasks then CancelTask(t, task.id, now) else t
  }

  /** `CancelMessageMoveTask`. */
  method CancelMessageMoveTask(store: Store, cfg: Config, sourceArn: string, handle: string, now: int) returns (answer: Result<int>)
    requires Keyed(cfg, store.View())
    modifies store
    ensures var t := Maintained(old(store.View()), now);
      && store.View() == MoveCancelled(t, sourceArn, handle, now)
      && answer == match FoundByArn(t, sourceArn)
         case Err(e) => Err(e)
         case Ok(source) =>
           match Cancellable(t, source.id, handle) case None => Err(ResourceNotFound) case Some(task) => Ok(task.moved)
  {
    Maintain(store, cfg, now);
    var source := LookupQueueByARN(store, cfg, sourceArn);
    if source.Err? {
      return Err(source.error);
    }
    answer := CancelListed(store, source.value.id, handle, now);
  }

  // ---- these are runs too -------------------------------------------------------------------

  /** Applying the due mutations, as listing the queues does first, is an event. */
  lemma AppliedLeads(cfg: Config, t: Tables, now: int) returns (trace: seq<Event>)
    ensures trace != [] && Leads(cfg, t, now, trace, ApplyDue(t, now))
  {
    trace := [Upkeep(ApplyMutations)];
    LeadsUpkeep(cfg, t, now, ApplyMutations);
  }

  /** Creating a queue is a run. */
  lemma CreatedLeads(cfg: Config, t: Tables, name: string, attributes: map<string, string>, stamps: map<string, string>, now: int)
    returns (trace: seq<Event>)
    ensures trace != []
    ensures Leads(cfg, t, now, trace, CreateQueue(cfg, ApplyDue(t, now), name, attributes, stamps, now))
  {
    var t1, e := ApplyDue(t, now), OnQueues(Create(name, attributes, stamps));
    trace := AppliedLeads(cfg, t, now);
    LeadsStep(cfg, t1, now, e);
    LeadsOn(cfg, t, now, trace, t1, [e], CreateQueue(cfg, t1, name, attributes, stamps, now));
    trace := trace + [e];
  }

  lemma BuriedLeads(cfg: Config, t: Tables, url: string, stamp: map<string, string>, now: int) returns (trace: seq<Event>)
    requires Keyed(cfg, t)
    ensures Leads(cfg, t, now, trace, Buried(cfg, t, url, stamp, now))
  {
    trace := [];
    LeadsNowhere(cfg, t, now);
    if Found(t, url).Ok? {
      FoundStored(cfg, t, url);
      trace := [OnQueues(Tombstone(Found(t, url).value.id, stamp))];
      LeadsStep(cfg, t, now, trace[0]);
    }
  }

  lemma PurgedLeads(cfg: Config, t: Tables, url: string, stamp: map<string, string>, now: int) returns (trace: seq<Event>)
    requires Keyed(cfg, t)
    ensures Leads(cfg, t, now, trace, Purged(cfg, t, url, stamp, now))
  {
    trace := [];
    LeadsNowhere(cfg, t, now);
    if Found(t, url).Ok? {
      FoundStored(cfg, t, url);
      trace := [OnQueues(Purge(Found(t, url).value.id, stamp))];
      LeadsStep(cfg, t, now, trace[0]);
    }
  }

  lemma PatchedLeads(cfg: Config, t: Tables, url: string, patch: map<string, string>, stamp: map<string, string>, now: int)
    returns (trace: seq<Event>)
    requires Keyed(cfg, t)
    ensures Leads(cfg, t, now, trace, Patched(cfg, t, url, patch, stamp, now))
  {
    trace := [];
    LeadsNowhere(cfg, t, now);
    if Found(t, url).Ok? {
      FoundStored(cfg, t, url);
      trace := [OnQueues(Patching(Found(t, url).value.id, patch, stamp))];
      LeadsStep(cfg, t, now, trace[0]);
    }
  }

  lemma FoundByArnStored(cfg: Config, t: Tables, arn: string)
    requires QueuesKeyed(cfg, t) && FoundByArn(t, arn).Ok?
    ensures var q := FoundByArn(t, arn).value; q.id in t.queues && t.queues[q.id] == q && IsLive(QueueById(t, q.id))
  {
  }

  /** The insertion of a task and the passes after it are a run. */
  lemma StartedLeads(cfg: Config, t: Tables, sourceId: int, destinationId: Option<int>, perSecond: Option<int>, taskHandle: string, now: int)
    returns (trace: seq<Event>)
    requires Keyed(cfg, t) && IsLive(QueueById(t, sourceId))
    requires destinationId.Some? ==> IsLive(QueueById(t, destinationId.value))
    ensures var t1 := StartTask(t, sourceId, destinationId, perSecond, taskHandle, now);
      Leads(cfg, t, now, trace, PassAll(t1, RunningTasks(t1), now))
  {
    var e, t1 := OnQueues(Start(sourceId, destinationId, perSecond, taskHandle)),
                 StartTask(t, sourceId, destinationId, perSecond, taskHandle, now);
    LeadsStep(cfg, t, now, e);
    StartKeyed(cfg, t, sourceId, destinationId, perSecond, taskHandle, now);
    ListedTasks(t1);
    var passes := PassesLead(cfg, t1, RunningTasks(t1), now);
    LeadsOn(cfg, t, now, [e], t1, passes, PassAll(t1, RunningTasks(t1), now));
    trace := [e] + passes;
  }

  /** Starting a move task is a run: its maintenance, the new task, and a pass of every running one. */
  lemma MoveRequestedLeads(cfg: Config, t: Tables, sourceArn: string, destinationArn: string, perSecond: Option<int>, taskHandle: string, now: int)
    returns (trace: seq<Event>)
    requires Keyed(cfg, t)
    ensures trace != []
    ensures Leads(cfg, t, now, trace, MoveRequested(Maintained(t, now), sourceArn, destinationArn, perSecond, taskHandle, now))
  {
    var t1, work := Maintained(t, now), [];
    MaintainedKeyed(cfg, t, now);
    LeadsNowhere(cfg, t1, now);
    if FoundByArn(t1, sourceArn).Ok? {
      FoundByArnStored(cfg, t1, sourceArn);
      var source, destination := FoundByArn(t1, sourceArn).value, MoveDestination(t1, destinationArn);
      if RunningTask(t1, source.id).None? && destination.Ok? {
        if destinationArn != "" { FoundByArnStored(cfg, t1, destinationArn); }
        work := StartedLeads(cfg, t1, source.id, destination.value, MoveRate(perSecond), taskHandle, now);
      }
    }
    trace := MaintainedLeads(cfg, t, now, work, MoveRequested(t1, sourceArn, destinationArn, perSecond, taskHandle, now));
  }

  /** Cancelling a move task is a run. */
  lemma MoveCancelledLeads(cfg: Config, t: Tables, sourceArn: string, handle: string, now: int) returns (trace: seq<Event>)
    requires Keyed(cfg, t)
    ensures trace != [] && Leads(cfg, t, now, trace, MoveCancelled(Maintained(t, now), sourceArn, handle, now))
  {
    var t1, work := Maintained(t, now), [];
    MaintainedKeyed(cfg, t, now);
    LeadsNowhere(cfg, t1, now);
    if FoundByArn(t1, sourceArn).Ok? && Cancellable(t1, FoundByArn(t1, sourceArn).value.id, handle).Some? {
      var source := FoundByArn(t1, sourceArn).value;
      CancellableStored(t1, source.id, handle);
      var e := OnQueues(Cancel(Cancellable(t1, source.id, handle).value.id));
      LeadsStep(cfg, t1, now, e);
      work := [e];
    }
    trace := MaintainedLeads(cfg, t, now, work, MoveCancelled(t1, sourceArn, handle, now));
  }
}
