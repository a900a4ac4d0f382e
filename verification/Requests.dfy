/** Whole requests on messages: maintenance, lookup, checks, and then the work. */
module Requests {
  import opened Records
  import opened Sequences
  import opened Tables
  import opened Storage
  import opened Plane
  import opened Integrity
  import opened Runs
  import opened Traces
  import opened Contents
  import opened Batches
  import opened Sending
  import opened Acknowledging
  import opened Upkeeping
  import opened QueueHandlers

  ghost function Found(t: Tables, url: string): Result<Queue> {
    if IsLive(QueueByUrl(t, url)) then Ok(QueueByUrl(t, url).value) else Err(QueueDoesNotExist)
  }

  /** Found, and past its creation delay. */
  ghost function Ready(t: Tables, url: string, now: int): Result<Queue> {
    if Found(t, url).Ok? && Found(t, url).value.availableAt > now then Err(QueueDoesNotExist) else Found(t, url)
  }

  /** How every request on a queue's messages begins. */
  method Open(store: Store, cfg: Config, url: string, now: int) returns (queue: Result<Queue>)
    requires Keyed(cfg, store.View())
    modifies store
    ensures store.View() == Maintained(old(store.View()), now) && Keyed(cfg, store.View())
    ensures queue == Found(store.View(), url)
  {
    Maintain(store, cfg, now);
    queue := LookupQueueByURL(store, cfg, url);
  }

  /** How sending and receiving begin: `ensureQueueReady` too. */
  method OpenReady(store: Store, cfg: Config, url: string, now: int) returns (queue: Result<Queue>)
    requires Keyed(cfg, store.View())
    modifies store
    ensures store.View() == Maintained(old(store.View()), now) && Keyed(cfg, store.View())
    ensures queue == Ready(store.View(), url, now)
  {
    queue := Open(store, cfg, url, now);
    if queue.Ok? && queue.value.availableAt > now {
      return Err(QueueDoesNotExist);
    }
  }

  // ---- send -------------------------------------------------------------------------------

  /** The tables after one or more sends, once maintenance has led to `t`. */
  ghost function Sent(cfg: Config, t: Tables, queue: Result<Queue>, entries: seq<Entry>, now: int): Tables {
    if queue.Ok? then SendAll(cfg, t, queue.value, entries, now) else t
  }

  /** `SendMessage`. */
  method SendMessage(store: Store, cfg: Config, url: string, raw: RawEntry, now: int) returns (result: Result<SendResponse>)
    requires Keyed(cfg, store.View())
    modifies store
    ensures var t := Maintained(old(store.View()), now);
      && store.View() == Sent(cfg, t, Ready(t, url, now), [EntryOf(cfg, raw)], now)
      && result == match Ready(t, url, now)
         case Err(e) => Err(e)
         case Ok(q) => SendResult(cfg, t, q, EntryOf(cfg, raw), now)
  {
    var queue := OpenReady(store, cfg, url, now);
    if queue.Err? {
      return Err(queue.error);
    }
    OneSend(cfg, store.View(), queue.value, EntryOf(cfg, raw), now);
    result := SendMessageEntry(store, cfg, queue.value, raw, now);
  }

  /** Whether a batch is taken up: the queue is ready and the batch acceptable as a whole. */
  ghost function Opened(cfg: Config, queue: Result<Queue>, fault: Option<ApiError>): Result<Queue> {
    if queue.Ok? && fault.Some? then Err(fault.value) else queue
  }

  /** The sends of a batch that is taken up, and its answer. */
  method SendEach(store: Store, cfg: Config, queue: Queue, ids: seq<string>, raws: seq<RawEntry>, now: int)
    returns (answer: BatchAnswer<SendResponse>)
    requires |ids| == |raws|
    modifies store
    ensures store.View() == SendAll(cfg, old(store.View()), queue, EntriesOf(cfg, raws), now)
    ensures answer == Answer(ids, SendResults(cfg, old(store.View()), queue, EntriesOf(cfg, raws), now))
  {
    var results := SendEntries(store, cfg, queue, raws, now);
    answer := AnswerEach(ids, results);
  }

  /** `SendMessageBatch`. */
  method SendMessageBatch(store: Store, cfg: Config, url: string, ids: seq<string>, raws: seq<RawEntry>, now: int)
    returns (result: Result<BatchAnswer<SendResponse>>)
    requires Keyed(cfg, store.View()) && |ids| == |raws|
    modifies store
    ensures var t, fault := Maintained(old(store.View()), now), BatchError(ids, SizesOf(cfg, raws));
      && store.View() == Sent(cfg, t, Opened(cfg, Ready(t, url, now), fault), EntriesOf(cfg, raws), now)
      && result == match Opened(cfg, Ready(t, url, now), fault)
         case Err(e) => Err(e)
         case Ok(q) => Ok(Answer(ids, SendResults(cfg, t, q, EntriesOf(cfg, raws), now)))
  {
    var queue := OpenReady(store, cfg, url, now);
    if queue.Err? {
      return Err(queue.error);
    }
    var fault := CheckBatch(cfg, ids, raws);
    if fault.Some? {
      return Err(fault.value);
    }
    var answer := SendEach(store, cfg, queue.value, ids, raws, now);
    result := Ok(answer);
  }

  // ---- delete -----------------------------------------------------------------------------

  ghost function Deleted(t: Tables, queue: Result<Queue>, handles: seq<Handle>, now: int): Tables {
    if queue.Ok? then DeleteAll(t, queue.value.id, handles, now) else t
  }

  /** `DeleteMessage`. */
  method DeleteMessage(store: Store, cfg: Config, url: string, handle: Handle, now: int) returns (result: Result<()>)
    requires Keyed(cfg, store.View())
    modifies store
    ensures var t := Maintained(old(store.View()), now);
      && store.View() == Deleted(t, Found(t, url), [handle], now)
      && result == match Found(t, url) case Err(e) => Err(e) case Ok(q) => DeleteResult(t, q.id, handle, now)
  {
    var queue := Open(store, cfg, url, now);
    if queue.Err? {
      return Err(queue.error);
    }
    OneDelete(store.View(), queue.value.id, handle, now);
    result := DeleteByReceiptHandle(store, queue.value.id, handle, now);
  }

  lemma OneDelete(t: Tables, queueId: int, handle: Handle, now: int)
    ensures DeleteAll(t, queueId, [handle], now) == Delete(t, queueId, handle, now)
  {
    assert [handle][1..] == [];
  }

  /** `DeleteMessageBatch`. */
  method DeleteMessageBatch(store: Store, cfg: Config, url: string, ids: seq<string>, handles: seq<Handle>, now: int)
    returns (result: Result<BatchAnswer<()>>)
    requires Keyed(cfg, store.View()) && |ids| == |handles|
    modifies store
    ensures var t := Maintained(old(store.View()), now);
      && store.View() == Deleted(t, Opened(cfg, Found(t, url), IdsError(ids)), handles, now)
      && result == match Opened(cfg, Found(t, url), IdsError(ids))
         case Err(e) => Err(e)
         case Ok(q) => Ok(Answer(ids, DeleteResults(t, q.id, handles, now)))
  {
    var queue := Open(store, cfg, url, now);
    if queue.Err? {
      return Err(queue.error);
    }
    var fault := ValidateBatchIds(ids);
    if fault.Some? {
      return Err(fault.value);
    }
    var results := DeleteEach(store, cfg, queue.value.id, handles, now);
    var answer := AnswerEach(ids, results);
    result := Ok(answer);
  }

  // ---- change visibility --------------------------------------------------------------------

  ghost function Changed(t: Tables, queue: Result<Queue>, changes: seq<Change>, now: int): Tables {
    if queue.Ok? then ChangeAll(t, queue.value.id, changes, now) else t
  }

  /** `ChangeMessageVisibility`. */
  method ChangeMessageVisibility(store: Store, cfg: Config, url: string, c: Change, now: int) returns (result: Result<()>)
    requires Keyed(cfg, store.View())
    modifies store
    ensures var t := Maintained(old(store.View()), now);
      && store.View() == Changed(t, Found(t, url), [c], now)
      && result == match Found(t, url) case Err(e) => Err(e) case Ok(q) => OneChangeResult(t, q.id, c, now)
  {
    var queue := Open(store, cfg, url, now);
    if queue.Err? {
      return Err(queue.error);
    }
    OnlyChange(store.View(), queue.value.id, c, now);
    result := ChangeOneVisibility(store, queue.value.id, c, now);
  }

  lemma OnlyChange(t: Tables, queueId: int, c: Change, now: int)
    ensures ChangeAll(t, queueId, [c], now) == OneChange(t, queueId, c, now)
  {
    assert [c][1..] == [];
  }

  /** `ChangeMessageVisibilityBatch`. */
  method ChangeMessageVisibilityBatch(store: Store, cfg: Config, url: string, ids: seq<string>, changes: seq<Change>, now: int)
    returns (result: Result<BatchAnswer<()>>)
    requires Keyed(cfg, store.View()) && |ids| == |changes|
    modifies store
    ensures var t := Maintained(old(store.View()), now);
      && store.View() == Changed(t, Opened(cfg, Found(t, url), IdsError(ids)), changes, now)
      && result == match Opened(cfg, Found(t, url), IdsError(ids))
         case Err(e) => Err(e)
         case Ok(q) => Ok(Answer(ids, ChangeResults(t, q.id, changes, now)))
  {
    var queue := Open(store, cfg, url, now);
    if queue.Err? {
      return Err(queue.error);
    }
    var fault := ValidateBatchIds(ids);
    if fault.Some? {
      return Err(fault.value);
    }
    var results := ChangeEach(store, cfg, queue.value.id, changes, now);
    var answer := AnswerEach(ids, results);
    result := Ok(answer);
  }

  // ---- requests are runs --------------------------------------------------------------------

  lemma FoundStored(cfg: Config, t: Tables, url: string)
    requires QueuesKeyed(cfg, t) && Found(t, url).Ok?
    ensures var q := Found(t, url).value; q.id in t.queues && t.queues[q.id] == q && q.deletedAt.None? && Known(t, q.id)
  {
  }

  /** A request that does nothing but its maintenance, or goes on from it, is a run. */
  lemma MaintainedLeads(cfg: Config, t: Tables, now: int, work: seq<Event>, t': Tables) returns (trace: seq<Event>)
    requires Keyed(cfg, t) && Leads(cfg, Maintained(t, now), now, work, t')
    ensures trace != [] && Leads(cfg, t, now, trace, t')
  {
    var upkeep := MaintenanceLeads(cfg, t, now);
    LeadsOn(cfg, t, now, upkeep, Maintained(t, now), work, t');
    trace := upkeep + work;
  }

  /** A send batch, and so a send, is a run. */
  lemma SendsLead(cfg: Config, t: Tables, now: int, url: string, queue: Result<Queue>, entries: seq<Entry>) returns (trace: seq<Event>)
    requires Keyed(cfg, t) && (queue.Ok? ==> queue == Found(Maintained(t, now), url))
    ensures trace != [] && Leads(cfg, t, now, trace, Sent(cfg, Maintained(t, now), queue, entries, now))
  {
    var t1 := Maintained(t, now);
    MaintainedKeyed(cfg, t, now);
    var work := [];
    LeadsNowhere(cfg, t1, now);
    if queue.Ok? {
      FoundStored(cfg, t1, url);
      BatchLeads(cfg, t1, queue.value, entries, now);
      work := SendEvents(queue.value.id, entries);
    }
    trace := MaintainedLeads(cfg, t, now, work, Sent(cfg, t1, queue, entries, now));
  }

  lemma MaintainedKeyed(cfg: Config, t: Tables, now: int)
    requires Keyed(cfg, t)
    ensures Keyed(cfg, Maintained(t, now))
  {
    var upkeep := MaintenanceLeads(cfg, t, now);
  }

  /** A delete batch, and so a delete, is a run. */
  lemma DeletedLeads(cfg: Config, t: Tables, now: int, url: string, queue: Result<Queue>, handles: seq<Handle>) returns (trace: seq<Event>)
    requires Keyed(cfg, t) && (queue.Ok? ==> queue == Found(Maintained(t, now), url))
    ensures trace != [] && Leads(cfg, t, now, trace, Deleted(Maintained(t, now), queue, handles, now))
  {
    var t1 := Maintained(t, now);
    MaintainedKeyed(cfg, t, now);
    var work := [];
    LeadsNowhere(cfg, t1, now);
    if queue.Ok? {
      FoundStored(cfg, t1, url);
      work := DeletesLead(cfg, t1, queue.value.id, handles, now);
    }
    trace := MaintainedLeads(cfg, t, now, work, Deleted(t1, queue, handles, now));
  }

  /** A visibility batch, and so a change of visibility, is a run. */
  lemma ChangedLeads(cfg: Config, t: Tables, now: int, url: string, queue: Result<Queue>, changes: seq<Change>) returns (trace: seq<Event>)
    requires Keyed(cfg, t) && (queue.Ok? ==> queue == Found(Maintained(t, now), url))
    ensures trace != [] && Leads(cfg, t, now, trace, Changed(Maintained(t, now), queue, changes, now))
  {
    var t1 := Maintained(t, now);
    MaintainedKeyed(cfg, t, now);
    var work := [];
    LeadsNowhere(cfg, t1, now);
    if queue.Ok? {
      FoundStored(cfg, t1, url);
      work := ChangesLead(cfg, t1, queue.value.id, changes, now);
    }
    trace := MaintainedLeads(cfg, t, now, work, Changed(t1, queue, changes, now));
  }
}
