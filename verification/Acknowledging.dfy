/** Deleting a message and changing its visibility, by receipt handle. */
module Acknowledging {
  import opened Records
  import opened Tables
  import opened Storage
  import opened Plane
  import opened Integrity
  import opened Runs
  import opened Traces

  /** `deleteByReceiptHandle`. */
  method DeleteByReceiptHandle(store: Store, queueId: int, handle: Handle, now: int) returns (result: Result<()>)
    requires MessagesKeyed(store.View()) && ReceiptsKeyed(store.View())
    modifies store
    ensures result == DeleteResult(old(store.View()), queueId, handle, now)
    ensures store.View() == Delete(old(store.View()), queueId, handle, now)
  {
    if handle !in store.receipts || store.receipts[handle].queueId != queueId {
      return Err(ReceiptHandleIsInvalid);
    }
    var receipt := store.receipts[handle];
    if !receipt.active {
      return Ok(());
    }
    if receipt.visibilityDeadline <= now {
      return Err(MessageNotInflight);
    }
    if receipt.messageRowId !in store.messages || store.messages[receipt.messageRowId].deletedAt.Some? {
      store.UpdateReceipt(receipt.(active := false));
      return Ok(());
    }
    var message := store.messages[receipt.messageRowId];
    store.UpdateMessage(message.(deletedAt := Some(now), visibilityDeadline := None));
    store.UpdateReceipt(receipt.(active := false));
    store.InvalidateReceiveAttempts(queueId, now);
    result := Ok(());
  }

  /** `changeVisibilityByReceiptHandle`. */
  method ChangeVisibilityByReceiptHandle(store: Store, queueId: int, handle: Handle, timeout: int, now: int)
    returns (result: Result<()>)
    requires MessagesKeyed(store.View()) && ReceiptsKeyed(store.View())
    modifies store
    ensures result == ChangeResult(old(store.View()), queueId, handle, timeout, now)
    ensures store.View() == ChangeVisibility(old(store.View()), queueId, handle, timeout, now)
  {
    if handle !in store.receipts || store.receipts[handle].queueId != queueId {
      return Err(ReceiptHandleIsInvalid);
    }
    var receipt := store.receipts[handle];
    if !receipt.active || receipt.visibilityDeadline <= now {
      return Err(MessageNotInflight);
    }
    var maxRemaining := receipt.issuedAt + MAX_LEASE - now;
    if timeout * 1000 > maxRemaining {
      return Err(InvalidParameterValue);
    }
    if receipt.messageRowId !in store.messages || store.messages[receipt.messageRowId].deletedAt.Some? {
      return Err(MessageNotInflight);
    }
    var deadline := LeaseEnd(now, timeout);
    store.UpdateReceipt(receipt.(visibilityDeadline := deadline));
    store.UpdateMessage(store.messages[receipt.messageRowId].(visibilityDeadline := Some(deadline)));
    store.InvalidateReceiveAttempts(queueId, now);
    result := Ok(());
  }

  // ---- batches --------------------------------------------------------------------------

  ghost function DeleteAll(t: Tables, queueId: int, handles: seq<Handle>, now: int): Tables
    decreases |handles|
  {
    if handles == [] then t else DeleteAll(Delete(t, queueId, handles[0], now), queueId, handles[1..], now)
  }

  ghost function DeleteResults(t: Tables, queueId: int, handles: seq<Handle>, now: int): (r: seq<Result<()>>)
    ensures |r| == |handles|
    decreases |handles|
  {
    if handles == [] then []
    else [DeleteResult(t, queueId, handles[0], now)] + DeleteResults(Delete(t, queueId, handles[0], now), queueId, handles[1..], now)
  }

  lemma DeleteKeyed(cfg: Config, t: Tables, queueId: int, handle: Handle, now: int)
    requires Keyed(cfg, t)
    ensures Keyed(cfg, Delete(t, queueId, handle, now))
  {
    DeleteRows(t, queueId, handle, now);
    ReceiptEventKeyed(cfg, t, Delete(t, queueId, handle, now));
  }

  /** The loop of `DeleteMessageBatch`. */
  method DeleteEach(store: Store, ghost cfg: Config, queueId: int, handles: seq<Handle>, now: int) returns (results: seq<Result<()>>)
    requires Keyed(cfg, store.View())
    modifies store
    ensures results == DeleteResults(old(store.View()), queueId, handles, now)
    ensures store.View() == DeleteAll(old(store.View()), queueId, handles, now)
  {
    ghost var t := store.View();
    results := [];
    for i := 0 to |handles|
      invariant Keyed(cfg, store.View())
      invariant results + DeleteResults(store.View(), queueId, handles[i..], now) == DeleteResults(t, queueId, handles, now)
      invariant DeleteAll(store.View(), queueId, handles[i..], now) == DeleteAll(t, queueId, handles, now)
    {
      assert handles[i..][0] == handles[i] && handles[i..][1..] == handles[i + 1..];
      DeleteKeyed(cfg, store.View(), queueId, handles[i], now);
      var result := DeleteByReceiptHandle(store, queueId, handles[i], now);
      results := results + [result];
    }
  }

  /** One entry of a visibility batch. */
  datatype Change = Change(handle: Handle, timeout: int)

  function OneChangeResult(t: Tables, queueId: int, c: Change, now: int): Result<()> {
    if 0 <= c.timeout <= MAX_TIMEOUT then ChangeResult(t, queueId, c.handle, c.timeout, now) else Err(InvalidParameterValue)
  }

  function OneChange(t: Tables, queueId: int, c: Change, now: int): Tables {
    if 0 <= c.timeout <= MAX_TIMEOUT then ChangeVisibility(t, queueId, c.handle, c.timeout, now) else t
  }

  ghost function ChangeAll(t: Tables, queueId: int, changes: seq<Change>, now: int): Tables
    decreases |changes|
  {
    if changes == [] then t else ChangeAll(OneChange(t, queueId, changes[0], now), queueId, changes[1..], now)
  }

  ghost function ChangeResults(t: Tables, queueId: int, changes: seq<Change>, now: int): (r: seq<Result<()>>)
    ensures |r| == |changes|
    decreases |changes|
  {
    if changes == [] then []
    else [OneChangeResult(t, queueId, changes[0], now)]
         + ChangeResults(OneChange(t, queueId, changes[0], now), queueId, changes[1..], now)
  }

  lemma OneChangeKeyed(cfg: Config, t: Tables, queueId: int, c: Change, now: int)
    requires Keyed(cfg, t)
    ensures Keyed(cfg, OneChange(t, queueId, c, now))
  {
    if 0 <= c.timeout <= MAX_TIMEOUT {
      ChangeRows(t, queueId, c.handle, c.timeout, now);
      ReceiptEventKeyed(cfg, t, ChangeVisibility(t, queueId, c.handle, c.timeout, now));
    }
  }

  /** The checks and the change of `ChangeMessageVisibility`, for one handle. */
  method ChangeOneVisibility(store: Store, queueId: int, c: Change, now: int) returns (result: Result<()>)
    requires MessagesKeyed(store.View()) && ReceiptsKeyed(store.View())
    modifies store
    ensures result == OneChangeResult(old(store.View()), queueId, c, now)
    ensures store.View() == OneChange(old(store.View()), queueId, c, now)
  {
    if c.timeout < 0 || c.timeout > 43200 {
      return Err(InvalidParameterValue);
    }
    result := ChangeVisibilityByReceiptHandle(store, queueId, c.handle, c.timeout, now);
  }

  /** The loop of `ChangeMessageVisibilityBatch`. */
  method ChangeEach(store: Store, ghost cfg: Config, queueId: int, changes: seq<Change>, now: int) returns (results: seq<Result<()>>)
    requires Keyed(cfg, store.View())
    modifies store
    ensures results == ChangeResults(old(store.View()), queueId, changes, now)
    ensures store.View() == ChangeAll(old(store.View()), queueId, changes, now)
  {
    ghost var t := store.View();
    results := [];
    for i := 0 to |changes|
      invariant Keyed(cfg, store.View())
      invariant results + ChangeResults(store.View(), queueId, changes[i..], now) == ChangeResults(t, queueId, changes, now)
      invariant ChangeAll(store.View(), queueId, changes[i..], now) == ChangeAll(t, queueId, changes, now)
    {
      assert changes[i..][0] == changes[i] && changes[i..][1..] == changes[i + 1..];
      OneChangeKeyed(cfg, store.View(), queueId, changes[i], now);
      var result := ChangeOneVisibility(store, queueId, changes[i], now);
      results := results + [result];
    }
  }

  // ---- batches are runs -------------------------------------------------------------------

  /** A delete or a change is an event of a live queue. */
  ghost predicate Known(t: Tables, queueId: int) {
    IsLive(QueueById(t, queueId))
  }

  lemma DeleteQueues(t: Tables, queueId: int, handle: Handle, now: int)
    ensures Delete(t, queueId, handle, now).queues == t.queues
  {
  }

  lemma ChangeQueues(t: Tables, queueId: int, c: Change, now: int)
    ensures OneChange(t, queueId, c, now).queues == t.queues
  {
  }

  /** A delete batch is a run of deletes. */
  lemma {:induction false} DeletesLead(cfg: Config, t: Tables, queueId: int, handles: seq<Handle>, now: int) returns (trace: seq<Event>)
    requires Known(t, queueId)
    ensures Leads(cfg, t, now, trace, DeleteAll(t, queueId, handles, now))
    decreases |handles|
  {
    if handles == [] {
      LeadsNowhere(cfg, t, now);
      trace := [];
    } else {
      var e, t1 := OnMessages(DeleteOne(queueId, handles[0])), Delete(t, queueId, handles[0], now);
      LeadsStep(cfg, t, now, e);
      DeleteQueues(t, queueId, handles[0], now);
      var rest := DeletesLead(cfg, t1, queueId, handles[1..], now);
      LeadsOn(cfg, t, now, [e], t1, rest, DeleteAll(t, queueId, handles, now));
      trace := [e] + rest;
    }
  }

  /** A visibility batch is a run of changes. */
  lemma {:induction false} ChangesLead(cfg: Config, t: Tables, queueId: int, changes: seq<Change>, now: int) returns (trace: seq<Event>)
    requires Known(t, queueId)
    ensures Leads(cfg, t, now, trace, ChangeAll(t, queueId, changes, now))
    decreases |changes|
  {
    if changes == [] {
      LeadsNowhere(cfg, t, now);
      trace := [];
    } else {
      var t1 := OneChange(t, queueId, changes[0], now);
      var first := ChangeLeads(cfg, t, queueId, changes[0], now);
      ChangeQueues(t, queueId, changes[0], now);
      var rest := ChangesLead(cfg, t1, queueId, changes[1..], now);
      LeadsOn(cfg, t, now, first, t1, rest, ChangeAll(t, queueId, changes, now));
      trace := first + rest;
    }
  }

  lemma ChangeLeads(cfg: Config, t: Tables, queueId: int, c: Change, now: int) returns (trace: seq<Event>)
    requires Known(t, queueId)
    ensures Leads(cfg, t, now, trace, OneChange(t, queueId, c, now))
  {
    if 0 <= c.timeout <= MAX_TIMEOUT {
      trace := [OnMessages(ChangeOne(queueId, c.handle, c.timeout))];
      LeadsStep(cfg, t, now, trace[0]);
    } else {
      LeadsNowhere(cfg, t, now);
      trace := [];
    }
  }
}
