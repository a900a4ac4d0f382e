/** The service as a whole: whatever requests are served, the tables stay reachable by a run, and so sound. */
module Service {
  import opened Records
  import opened Tables
  import opened Plane
  import opened Integrity
  import opened Leases
  import opened LeaseBounds
  import opened FifoLocks
  import opened Runs
  import opened Traces
  import opened Contents
  import opened Batches
  import opened Sending
  import opened Acknowledging
  import opened Upkeeping
  import opened Requests
  import opened ReceiveRequests
  import opened QueueRequests

  /** A request that sends messages, deletes them or changes their visibility. */
  datatype MessageCall =
    | SendCall(url: string, raw: RawEntry)
    | SendBatchCall(url: string, ids: seq<string>, raws: seq<RawEntry>)
    | DeleteCall(url: string, handle: Handle)
    | DeleteBatchCall(url: string, ids: seq<string>, handles: seq<Handle>)
    | ChangeCall(url: string, change: Change)
    | ChangeBatchCall(url: string, ids: seq<string>, changes: seq<Change>)

  /** A receive request, with the handles drawn for it, or a later turn of one that waits. */
  datatype ReceiveCall =
    | FirstTurn(url: string, request: ReceiveRequest, handles: seq<Handle>)
    | LaterTurn(url: string, request: ReceiveRequest, timeout: int, handles: seq<Handle>)

  /** A request on queues or move tasks, with the stamps and the task handle the service adds. */
  datatype QueueCall =
    | CreateCall(name: string, attributes: map<string, string>, stamps: map<string, string>)
    | DeleteQueueCall(url: string, stamps: map<string, string>)
    | PurgeCall(url: string, stamps: map<string, string>)
    | PatchCall(url: string, patch: map<string, string>, stamps: map<string, string>)
    | ListCall
    | StartCall(sourceArn: string, destinationArn: string, perSecond: Option<int>, taskHandle: string)
    | CancelCall(sourceArn: string, taskHandle: string)

  datatype Call = ForMessages(message: MessageCall) | ForReceive(receive: ReceiveCall) | ForQueues(queue: QueueCall)

  // ---- what serving a request does ------------------------------------------------------------

  /** The tables after the request: what the method of its handler ensures. */
  ghost function AfterMessages(cfg: Config, t: Tables, now: int, call: MessageCall): Tables {
    var t1 := Maintained(t, now);
    match call
    case SendCall(url, raw) => Sent(cfg, t1, Ready(t1, url, now), [EntryOf(cfg, raw)], now)
    case SendBatchCall(url, ids, raws) =>
      if |ids| != |raws| then t1
      else Sent(cfg, t1, Opened(cfg, Ready(t1, url, now), BatchError(ids, SizesOf(cfg, raws))), EntriesOf(cfg, raws), now)
    case DeleteCall(url, handle) => Deleted(t1, Found(t1, url), [handle], now)
    case DeleteBatchCall(url, ids, handles) => Deleted(t1, Opened(cfg, Found(t1, url), IdsError(ids)), handles, now)
    case ChangeCall(url, change) => Changed(t1, Found(t1, url), [change], now)
    case ChangeBatchCall(url, ids, changes) => Changed(t1, Opened(cfg, Found(t1, url), IdsError(ids)), changes, now)
  }

  ghost predicate AfterReceive(cfg: Config, t: Tables, now: int, call: ReceiveCall, t': Tables) {
    match call
    case FirstTurn(url, request, handles) =>
      && Fresh(t, handles)
      && exists result, chosen, rounds :: Received(cfg, t, url, request, handles, now, result, chosen, rounds, t')
    case LaterTurn(url, request, timeout, handles) =>
      && Fresh(t, handles) && 0 <= timeout <= MAX_TIMEOUT
      && exists result, chosen, rounds :: Polled(cfg, t, url, request, timeout, handles, now, result, chosen, rounds, t')
  }

  ghost function AfterQueues(cfg: Config, t: Tables, now: int, call: QueueCall): Tables {
    match call
    case CreateCall(name, attributes, stamps) => CreateQueue(cfg, ApplyDue(t, now), name, attributes, stamps, now)
    case DeleteQueueCall(url, stamps) => Buried(cfg, t, url, stamps, now)
    case PurgeCall(url, stamps) => Purged(cfg, t, url, stamps, now)
    case PatchCall(url, patch, stamps) => Patched(cfg, t, url, patch, stamps, now)
    case ListCall => ApplyDue(t, now)
    case StartCall(sourceArn, destinationArn, perSecond, taskHandle) =>
      MoveRequested(Maintained(t, now), sourceArn, destinationArn, perSecond, taskHandle, now)
    case CancelCall(sourceArn, taskHandle) => MoveCancelled(Maintained(t, now), sourceArn, taskHandle, now)
  }

  /** The request can be served, and takes the tables from `t` to `t'`. */
  ghost predicate Served(cfg: Config, t: Tables, now: int, call: Call, t': Tables) {
    match call
    case ForMessages(m) => t' == AfterMessages(cfg, t, now, m)
    case ForReceive(r) => AfterReceive(cfg, t, now, r, t')
    case ForQueues(q) => t' == AfterQueues(cfg, t, now, q)
  }

  // ---- every request is a run -------------------------------------------------------------------

  lemma MessagesLead(cfg: Config, t: Tables, now: int, call: MessageCall) returns (trace: seq<Event>)
    requires Keyed(cfg, t)
    ensures Leads(cfg, t, now, trace, AfterMessages(cfg, t, now, call))
  {
    var t1 := Maintained(t, now);
    match call
    case SendCall(url, raw) => trace := SendsLead(cfg, t, now, url, Ready(t1, url, now), [EntryOf(cfg, raw)]);
    case SendBatchCall(url, ids, raws) =>
      if |ids| != |raws| {
        trace := MaintenanceLeads(cfg, t, now);
      } else {
        trace := SendsLead(cfg, t, now, url, Opened(cfg, Ready(t1, url, now), BatchError(ids, SizesOf(cfg, raws))), EntriesOf(cfg, raws));
      }
    case DeleteCall(url, handle) => trace := DeletedLeads(cfg, t, now, url, Found(t1, url), [handle]);
    case DeleteBatchCall(url, ids, handles) =>
      trace := DeletedLeads(cfg, t, now, url, Opened(cfg, Found(t1, url), IdsError(ids)), handles);
    case ChangeCall(url, change) => trace := ChangedLeads(cfg, t, now, url, Found(t1, url), [change]);
    case ChangeBatchCall(url, ids, changes) =>
      trace := ChangedLeads(cfg, t, now, url, Opened(cfg, Found(t1, url), IdsError(ids)), changes);
  }

  lemma ReceiveLeads(cfg: Config, t: Tables, now: int, call: ReceiveCall, t': Tables) returns (trace: seq<Event>)
    requires Keyed(cfg, t) && AfterReceive(cfg, t, now, call, t')
    ensures Leads(cfg, t, now, trace, t')
  {
    match call
    case FirstTurn(url, request, handles) =>
      var result, chosen, rounds :| Received(cfg, t, url, request, handles, now, result, chosen, rounds, t');
      trace := ReceivedLeads(cfg, t, url, request, handles, now, result, chosen, rounds, t');
    case LaterTurn(url, request, timeout, handles) =>
      var result, chosen, rounds :| Polled(cfg, t, url, request, timeout, handles, now, result, chosen, rounds, t');
      trace := PollLeads(cfg, t, url, request, timeout, handles, now, result, chosen, rounds, t');
  }

  lemma QueuesLead(cfg: Config, t: Tables, now: int, call: QueueCall) returns (trace: seq<Event>)
    requires Keyed(cfg, t)
    ensures Leads(cfg, t, now, trace, AfterQueues(cfg, t, now, call))
  {
    match call
    case CreateCall(name, attributes, stamps) => trace := CreatedLeads(cfg, t, name, attributes, stamps, now);
    case DeleteQueueCall(url, stamps) => trace := BuriedLeads(cfg, t, url, stamps, now);
    case PurgeCall(url, stamps) => trace := PurgedLeads(cfg, t, url, stamps, now);
    case PatchCall(url, patch, stamps) => trace := PatchedLeads(cfg, t, url, patch, stamps, now);
    case ListCall => trace := AppliedLeads(cfg, t, now);
    case StartCall(sourceArn, destinationArn, perSecond, taskHandle) =>
      trace := MoveRequestedLeads(cfg, t, sourceArn, destinationArn, perSecond, taskHandle, now);
    case CancelCall(sourceArn, taskHandle) => trace := MoveCancelledLeads(cfg, t, sourceArn, taskHandle, now);
  }

  /** Every request is a run of events. */
  lemma ServedLeads(cfg: Config, t: Tables, now: int, call: Call, t': Tables) returns (trace: seq<Event>)
    requires Keyed(cfg, t) && Served(cfg, t, now, call, t')
    ensures Leads(cfg, t, now, trace, t')
  {
    match call
    case ForMessages(m) => trace := MessagesLead(cfg, t, now, m);
    case ForReceive(r) => trace := ReceiveLeads(cfg, t, now, r, t');
    case ForQueues(q) => trace := QueuesLead(cfg, t, now, q);
  }

  // ---- sessions ---------------------------------------------------------------------------------

  /** Reached by a run that has ended by now. */
  ghost predicate ReachedBy(cfg: Config, t: Tables, now: int) {
    exists at :: at <= now && Reachable(cfg, t, at)
  }

  lemma NothingYet(cfg: Config, now: int)
    ensures ReachedBy(cfg, EMPTY, now)
  {
    assert Legal(cfg, EMPTY, now, []) && After(cfg, EMPTY, now, []) == EMPTY && EndOf(now, []) == now;
    assert Reachable(cfg, EMPTY, now);
  }

  lemma ReachedSound(cfg: Config, t: Tables, now: int)
    requires ReachedBy(cfg, t, now)
    ensures Sound(cfg, t, now)
  {
    var at :| at <= now && Reachable(cfg, t, at);
    ReachableSound(cfg, t, at);
    ExclusiveLater(t, at, now);
  }

  /** Whatever request is served next, the state it leaves is reached by a run, and every invariant holds in it. */
  lemma ServedReaches(cfg: Config, t: Tables, before: int, now: int, call: Call, t': Tables)
    requires ReachedBy(cfg, t, before) && before <= now && Served(cfg, t, now, call, t')
    ensures ReachedBy(cfg, t', now) && Sound(cfg, t', now)
  {
    var at :| at <= before && Reachable(cfg, t, at);
    ReachableSound(cfg, t, at);
    var trace := ServedLeads(cfg, t, now, call, t');
    if trace == [] {
      assert t' == t;
    } else {
      ReachesOn(cfg, t, at, now, trace, t');
    }
    ReachedSound(cfg, t', now);
  }

  /** One request after the other, from the empty store, at instants that never go backwards. */
  ghost predicate Session(cfg: Config, calls: seq<Call>, times: seq<int>, states: seq<Tables>) {
    && |states| == |calls| + 1 && |times| == |calls| && states[0] == EMPTY
    && (forall i :: 0 < i < |times| ==> times[i - 1] <= times[i])
    && (forall i :: 0 <= i < |calls| ==> Served(cfg, states[i], times[i], calls[i], states[i + 1]))
  }

  /**
   * After any sequence of whole requests every invariant of the tables holds: the leases of both tables agree and keep to their
   * bounds, and the unexpired leases on one FIFO group come from one receive.
   */
  lemma {:induction false} SessionSound(cfg: Config, calls: seq<Call>, times: seq<int>, states: seq<Tables>, n: nat, now: int)
    requires Session(cfg, calls, times, states) && n <= |calls| && (n > 0 ==> times[n - 1] <= now)
    ensures ReachedBy(cfg, states[n], now) && Sound(cfg, states[n], now)
    decreases n
  {
    if n == 0 {
      NothingYet(cfg, now);
      ReachedSound(cfg, states[0], now);
    } else {
      SessionSound(cfg, calls, times, states, n - 1, times[n - 1]);
      ServedReaches(cfg, states[n - 1], times[n - 1], times[n - 1], calls[n - 1], states[n]);
      ReachedLater(cfg, states[n], times[n - 1], now);
      ReachedSound(cfg, states[n], now);
    }
  }

  lemma ReachedLater(cfg: Config, t: Tables, now: int, later: int)
    requires ReachedBy(cfg, t, now) && now <= later
    ensures ReachedBy(cfg, t, later)
  {
  }
}
