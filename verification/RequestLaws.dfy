/** What requests check before they do anything, and how batches are checked, carried out and answered. */
module RequestLaws {
  import opened Records
  import opened Sequences
  import opened Strings
  import opened Tables
  import opened QueueAttributes
  import opened Plane
  import opened Integrity
  import AttributeDigest
  import opened AttributeSizes
  import opened Contents
  import opened Batches
  import opened Sending
  import opened Acknowledging
  import opened Requests
  import opened ReceiveRequests
  import opened QueueRequests
  import Pagination

  // ---- checks -----------------------------------------------------------------------------------

  /** A request finds the live queue with its URL; sending and receiving also require that the queue has propagated. */
  lemma QueueFound(cfg: Config, t: Tables, url: string, now: int, id: int)
    requires QueuesKeyed(cfg, t)
    ensures Found(t, url).Err? ==> Found(t, url) == Err(QueueDoesNotExist) && Ready(t, url, now) == Err(QueueDoesNotExist)
    ensures id in t.queues && t.queues[id].url == url ==>
      && Found(t, url) == (if t.queues[id].deletedAt.None? then Ok(t.queues[id]) else Err(QueueDoesNotExist))
      && Ready(t, url, now) ==
         (if t.queues[id].deletedAt.None? && t.queues[id].availableAt <= now then Ok(t.queues[id]) else Err(QueueDoesNotExist))
    ensures Found(t, url).Ok? ==> Found(t, url).value.id in t.queues && t.queues[Found(t, url).value.id] == Found(t, url).value
                                  && Found(t, url).value.url == url
  {
    if id in t.queues && t.queues[id].url == url {
      NamesFromUrls(cfg, t.queues[id].name, QueueByUrl(t, url).value.name);
    }
  }

  /** The ranges of a receive request; what it does not say is one message, and the waiting time and the timeout of the queue. */
  lemma ReceiveAccepted(q: Queue, r: ReceiveRequest)
    ensures ValidReceive(q, r) <==>
      && (r.maxMessages.Some? ==> 1 <= r.maxMessages.value <= 10)
      && 0 <= (if r.waitTime.Some? then r.waitTime.value else WaitTime(q)) <= 20
      && 0 <= (if r.visibilityTimeout.Some? then r.visibilityTimeout.value else VisibilityTimeout(q)) <= 12 * 60 * 60
      && (r.attemptId != "" ==> q.fifo && |r.attemptId| <= 128)
    ensures MaxOf(r) == (if r.maxMessages.Some? then r.maxMessages.value else 1)
  {
  }

  /** The digests in the answer of a send are those of its own attributes and of its own system attributes. */
  lemma DigestsAnswered(cfg: Config, raw: RawEntry)
    ensures ContentOf(cfg, raw).Ok? ==>
      && cfg.checks.validText(raw.body)
      && NormalizedOf(raw.attributes, false, cfg.checks).Ok? && NormalizedOf(raw.systemAttributes, true, cfg.checks).Ok?
      && var kept, system := NormalizedOf(raw.attributes, false, cfg.checks).value, NormalizedOf(raw.systemAttributes, true, cfg.checks).value;
      && var fields, systemFields := AttributeDigest.SortedFields(kept.attrs, cfg.checks.decode),
                                     AttributeDigest.SortedFields(system.attrs, cfg.checks.decode);
      && fields.Some? && systemFields.Some?
      && ContentOf(cfg, raw).value == Content(
           TotalSize(kept.attrs),
           if raw.attributes == map[] then "" else cfg.md5Hex(AttributeDigest.FieldsBytes(fields.value)),
           if raw.systemAttributes == map[] then "" else cfg.md5Hex(AttributeDigest.FieldsBytes(systemFields.value)))
    ensures ContentOf(cfg, raw).Err? ==>
      || (!cfg.checks.validText(raw.body) && ContentOf(cfg, raw) == Err(InvalidMessageContents))
      || (cfg.checks.validText(raw.body) && (NormalizedOf(raw.attributes, false, cfg.checks).Err?
                                             || NormalizedOf(raw.systemAttributes, true, cfg.checks).Err?))
  {
    if ContentOf(cfg, raw).Ok? {
      NormalizedAccepts(raw.attributes, false, cfg.checks);
      NormalizedAccepts(raw.systemAttributes, true, cfg.checks);
      AcceptedDecode(raw.attributes, false, cfg.checks);
      AcceptedDecode(raw.systemAttributes, true, cfg.checks);
    }
  }

  /** An entry is sent as it came: every value under its own name. */
  lemma EntryCarries(cfg: Config, raw: RawEntry)
    ensures var e := EntryOf(cfg, raw);
      && e.body == raw.body && e.groupId == raw.groupId && e.dedupId == raw.dedupId && e.delaySeconds == raw.delaySeconds
      && e.messageId == raw.messageId && e.sequenceNumber == raw.sequenceNumber && e.content == ContentOf(cfg, raw)
  {
  }

  // ---- batches as a whole -------------------------------------------------------------------------

  /** An id is one to eighty letters, digits, hyphens and underscores. */
  lemma IdAccepted(id: string)
    ensures ValidId(id) <==> 1 <= |id| <= 80 && forall i :: 0 <= i < |id| ==>
      var n := id[i] as int; 65 <= n <= 90 || 97 <= n <= 122 || 48 <= n <= 57 || n == 45 || n == 95
  {
  }

  /** The sizes of the entries of a batch add up. */
  lemma {:induction false} BytesAdd(sizes: seq<Result<nat>>, size: nat)
    ensures TotalBytes([], 0) == 0
    ensures TotalBytes(sizes + [Ok(size)], |sizes| + 1) == TotalBytes(sizes, |sizes|) + size
  {
    SamePrefix(sizes, sizes + [Ok(size)], |sizes|);
  }

  lemma {:induction false} SamePrefix(a: seq<Result<nat>>, b: seq<Result<nat>>, n: nat)
    requires n <= |a| && n <= |b| && forall i :: 0 <= i < n ==> a[i] == b[i]
    ensures TotalBytes(a, n) == TotalBytes(b, n)
  {
    if n > 0 { SamePrefix(a, b, n - 1); }
  }

  /** Why a batch is refused: for its number of entries first, then for the first entry that is at fault, and then for its size. */
  lemma BatchRefused(ids: seq<string>, sizes: seq<Result<nat>>, i: nat)
    requires |ids| == |sizes|
    ensures |ids| == 0 ==> BatchError(ids, sizes) == Some(EmptyBatchRequest) && IdsError(ids) == Some(EmptyBatchRequest)
    ensures |ids| > 10 ==> BatchError(ids, sizes) == Some(TooManyEntriesInBatchRequest) && IdsError(ids) == Some(TooManyEntriesInBatchRequest)
    ensures i < |ids| <= 10 && IdsInOrder(ids[..i], 0) && (forall k :: 0 <= k < i ==> sizes[k].Ok?) ==>
      && (!ValidId(ids[i]) ==> BatchError(ids, sizes) == Some(InvalidBatchEntryId) && IdsError(ids) == Some(InvalidBatchEntryId))
      && (ValidId(ids[i]) && ids[i] in ids[..i] ==>
            BatchError(ids, sizes) == Some(BatchEntryIdsNotDistinct) && IdsError(ids) == Some(BatchEntryIdsNotDistinct))
      && (ValidId(ids[i]) && ids[i] !in ids[..i] && sizes[i].Err? ==> BatchError(ids, sizes) == Some(sizes[i].error))
    ensures 1 <= |ids| <= 10 && IdsInOrder(ids, 0) && AllMeasured(sizes, 0) ==>
      BatchError(ids, sizes) == if TotalBytes(sizes, |sizes|) > 1048576 then Some(BatchRequestTooLong) else None
  {
    if i < |ids| <= 10 && IdsInOrder(ids[..i], 0) && forall k :: 0 <= k < i ==> sizes[k].Ok? {
      forall k | 0 <= k < i ensures ValidId(ids[k]) && ids[k] !in ids[..k] {
        assert ids[..i][k] == ids[k] && ids[..i][..k] == ids[..k];
      }
      FirstFault(ids, sizes, 0, i);
    }
    FaultFromNone(ids, sizes, 0);
  }

  lemma {:induction false} FirstFault(ids: seq<string>, sizes: seq<Result<nat>>, j: nat, i: nat)
    requires j <= i < |ids| == |sizes|
    requires forall k :: j <= k < i ==> ValidId(ids[k]) && ids[k] !in ids[..k] && sizes[k].Ok?
    ensures EntryFault(ids, sizes, i).Some? ==> FaultFrom(ids, sizes, j) == EntryFault(ids, sizes, i)
    ensures IdFault(ids, i).Some? ==> IdFaultFrom(ids, j) == IdFault(ids, i)
    decreases i - j
  {
    if j < i { FirstFault(ids, sizes, j + 1, i); }
  }

  // ---- the answer of a batch ----------------------------------------------------------------------

  /** The answer of one entry comes before that of another. */
  ghost predicate Before<T>(xs: seq<T>, x: T, y: T) {
    exists a, b :: 0 <= a < b < |xs| && xs[a] == x && xs[b] == y
  }

  /** Successes, and failures, are answered in the order of the entries. */
  lemma {:induction false} AnswersInOrder<T>(ids: seq<string>, results: seq<Result<T>>, i: nat, j: nat)
    requires i < j < |ids| == |results|
    ensures results[i].Ok? && results[j].Ok? ==>
      Before(Answer(ids, results).successful, (ids[i], results[i].value), (ids[j], results[j].value))
    ensures results[i].Err? && results[j].Err? ==>
      Before(Answer(ids, results).failed, (ids[i], results[i].error), (ids[j], results[j].error))
    decreases |ids|
  {
    var n := |ids| - 1;
    var front := Answer(ids[..n], results[..n]);
    if j < n {
      AnswersInOrder(ids[..n], results[..n], i, j);
    } else {
      assert ids[..n][i] == ids[i] && results[..n][i] == results[i];
      if results[i].Ok? && results[j].Ok? {
        assert Has(ids[..n], results[..n], ids[i], results[i]);
        AnswerSucceeds(ids[..n], results[..n], ids[i], results[i].value);
        LastBehind(front.successful, (ids[i], results[i].value), (ids[n], results[n].value));
      } else if results[i].Err? && results[j].Err? {
        assert Has(ids[..n], results[..n], ids[i], results[i]);
        AnswerFails(ids[..n], results[..n], ids[i], results[i].error);
        LastBehind(front.failed, (ids[i], results[i].error), (ids[n], results[n].error));
      }
    }
    BeforeStays(front.successful, Answer(ids, results).successful);
    BeforeStays(front.failed, Answer(ids, results).failed);
  }

  lemma LastBehind<T>(xs: seq<T>, x: T, y: T)
    requires x in xs
    ensures Before(xs + [y], x, y)
  {
    var a :| 0 <= a < |xs| && xs[a] == x;
    assert (xs + [y])[a] == x && (xs + [y])[|xs|] == y;
  }

  lemma BeforeStays<T>(xs: seq<T>, ys: seq<T>)
    requires xs <= ys
    ensures forall x, y :: Before(xs, x, y) ==> Before(ys, x, y)
  {
    forall x, y | Before(xs, x, y) ensures Before(ys, x, y) {
      var a, b :| 0 <= a < b < |xs| && xs[a] == x && xs[b] == y;
      assert ys[a] == x && ys[b] == y;
    }
  }

  // ---- what a batch does --------------------------------------------------------------------------

  /** Deleted messages and inactive receipts stay so, and rows keep their keys, through the deletes of a batch. */
  lemma {:induction false} DeletesKeep(t: Tables, queueId: int, handles: seq<Handle>, now: int, handle: Handle, row: int)
    ensures handle in t.receipts && !t.receipts[handle].active ==>
      var t' := DeleteAll(t, queueId, handles, now); handle in t'.receipts && !t'.receipts[handle].active
    ensures row in t.messages && t.messages[row].deletedAt.Some? ==>
      var t' := DeleteAll(t, queueId, handles, now); row in t'.messages && t'.messages[row].deletedAt == t.messages[row].deletedAt
    decreases |handles|
  {
    if handles != [] {
      DeleteParts(t, queueId, handles[0], now);
      DeletesKeep(Delete(t, queueId, handles[0], now), queueId, handles[1..], now, handle, row);
    }
  }

  /**
   * Every entry of a delete batch is carried out: a handle whose lease was held when its turn came is inactive afterwards, its
   * message is deleted, and its answer is Ok.
   */
  lemma {:induction false} BatchDeletes(t: Tables, queueId: int, handles: seq<Handle>, now: int, i: nat)
    requires i < |handles| && handles[i] !in handles[..i] && LeaseHeld(t, queueId, handles[i], now)
    ensures var t', row := DeleteAll(t, queueId, handles, now), t.receipts[handles[i]].messageRowId;
      && DeleteResults(t, queueId, handles, now)[i] == Ok(())
      && handles[i] in t'.receipts && !t'.receipts[handles[i]].active
      && (row in t.messages ==> row in t'.messages && t'.messages[row].deletedAt.Some?)
    decreases |handles|
  {
    var t1 := Delete(t, queueId, handles[0], now);
    DeleteParts(t, queueId, handles[0], now);
    if i == 0 {
      DeletesKeep(t1, queueId, handles[1..], now, handles[0], t.receipts[handles[0]].messageRowId);
    } else {
      assert handles[..i][0] == handles[0] && handles[1..][..i - 1] == handles[..i][1..];
      BatchDeletes(t1, queueId, handles[1..], now, i - 1);
    }
  }

  /** And nothing else is deleted: a message that no handle of the batch names is as it was. */
  lemma {:induction false} BatchDeletesOnly(t: Tables, queueId: int, handles: seq<Handle>, now: int, row: int)
    requires row in t.messages
    requires forall h :: h in handles && h in t.receipts ==> t.receipts[h].messageRowId != row
    ensures row in DeleteAll(t, queueId, handles, now).messages
    ensures DeleteAll(t, queueId, handles, now).messages[row] == t.messages[row]
    decreases |handles|
  {
    if handles != [] {
      DeleteParts(t, queueId, handles[0], now);
      BatchDeletesOnly(Delete(t, queueId, handles[0], now), queueId, handles[1..], now, row);
    }
  }

  /** Every accepted entry of a send batch to a standard queue adds a message with its id and body, besides those that were there. */
  lemma {:induction false} BatchSends(cfg: Config, t: Tables, q: Queue, entries: seq<Entry>, now: int, i: nat) returns (id: int)
    requires MessagesKeyed(t) && !q.fifo && i < |entries| && EntryError(q, entries[i]).None?
    ensures var t' := SendAll(cfg, t, q, entries, now);
      && id !in t.messages && id in t'.messages && t'.messages[id].queueId == q.id
      && t'.messages[id].messageId == entries[i].messageId && t'.messages[id].body == entries[i].body
    ensures SendResults(cfg, t, q, entries, now)[i].Ok?
    ensures SendResults(cfg, t, q, entries, now)[i].value.messageId == entries[i].messageId
    decreases |entries|
  {
    var t1 := Send(cfg, t, q, entries[0], now);
    SendKeeps(cfg, t, q, entries[0], now);
    ResultsCons(cfg, t, q, entries, now, i);
    if i == 0 {
      id := t.nextRowId;
      OneSent(cfg, t, q, entries[0], now);
      SendsKeepRows(cfg, t1, q, entries[1..], now, id);
    } else {
      id := BatchSends(cfg, t1, q, entries[1..], now, i - 1);
    }
  }

  lemma OneSent(cfg: Config, t: Tables, q: Queue, e: Entry, now: int)
    requires MessagesKeyed(t) && !q.fifo && EntryError(q, e).None?
    ensures var t' := Send(cfg, t, q, e, now);
      && MessagesKeyed(t') && t.nextRowId in t'.messages && t'.messages[t.nextRowId].queueId == q.id
      && t'.messages[t.nextRowId].messageId == e.messageId && t'.messages[t.nextRowId].body == e.body
  {
  }

  lemma SendKeeps(cfg: Config, t: Tables, q: Queue, e: Entry, now: int)
    requires MessagesKeyed(t)
    ensures MessagesKeyed(Send(cfg, t, q, e, now)) && t.nextRowId <= Send(cfg, t, q, e, now).nextRowId
    ensures forall id :: id in t.messages ==> id in Send(cfg, t, q, e, now).messages && Send(cfg, t, q, e, now).messages[id] == t.messages[id]
  {
  }

  lemma {:induction false} SendsKeepRows(cfg: Config, t: Tables, q: Queue, entries: seq<Entry>, now: int, id: int)
    requires MessagesKeyed(t) && id in t.messages
    ensures id in SendAll(cfg, t, q, entries, now).messages && SendAll(cfg, t, q, entries, now).messages[id] == t.messages[id]
    decreases |entries|
  {
    if entries != [] {
      SendKeeps(cfg, t, q, entries[0], now);
      SendsKeepRows(cfg, Send(cfg, t, q, entries[0], now), q, entries[1..], now, id);
    }
  }

  // ---- what whole requests do ---------------------------------------------------------------------

  /** A send request, alone or as a batch, does what its sends do; a refused one does nothing after its maintenance. */
  lemma RequestSends(cfg: Config, t: Tables, queue: Result<Queue>, entries: seq<Entry>, now: int, i: nat)
    requires MessagesKeyed(t) && i < |entries|
    ensures queue.Err? ==> Sent(cfg, t, queue, entries, now) == t
    ensures queue.Ok? && |entries| == 1 ==> Sent(cfg, t, queue, entries, now) == Send(cfg, t, queue.value, entries[0], now)
    ensures queue.Ok? && !queue.value.fifo && EntryError(queue.value, entries[i]).None? ==>
      var t' := Sent(cfg, t, queue, entries, now);
      exists id :: id in t'.messages && id !in t.messages && t'.messages[id].queueId == queue.value.id
                   && t'.messages[id].messageId == entries[i].messageId && t'.messages[id].body == entries[i].body
  {
    if queue.Ok? && |entries| == 1 {
      assert entries == [entries[0]];
      OneSend(cfg, t, queue.value, entries[0], now);
    }
    if queue.Ok? && !queue.value.fifo && EntryError(queue.value, entries[i]).None? {
      var id := BatchSends(cfg, t, queue.value, entries, now, i);
    }
  }

  /** A delete request ends the message of each handle whose lease is held. */
  lemma RequestDeletes(t: Tables, queue: Result<Queue>, handles: seq<Handle>, now: int, i: nat)
    requires i < |handles| && handles[i] !in handles[..i]
    ensures queue.Err? ==> Deleted(t, queue, handles, now) == t
    ensures queue.Ok? && LeaseHeld(t, queue.value.id, handles[i], now) && t.receipts[handles[i]].messageRowId in t.messages ==>
      var t', row := Deleted(t, queue, handles, now), t.receipts[handles[i]].messageRowId;
      row in t'.messages && t'.messages[row].deletedAt.Some? && handles[i] in t'.receipts && !t'.receipts[handles[i]].active
  {
    if queue.Ok? && LeaseHeld(t, queue.value.id, handles[i], now) { BatchDeletes(t, queue.value.id, handles, now, i); }
  }

  /** The changes of a batch, one after the other: the first one and then the others; a refused request changes nothing. */
  lemma RequestChanges(t: Tables, queue: Result<Queue>, changes: seq<Change>, now: int)
    ensures queue.Err? ==> Changed(t, queue, changes, now) == t
    ensures changes == [] ==> Changed(t, queue, changes, now) == t
    ensures queue.Ok? && changes != [] ==>
      && Changed(t, queue, changes, now) == Changed(OneChange(t, queue.value.id, changes[0], now), queue, changes[1..], now)
      && ChangeResults(t, queue.value.id, changes, now) ==
         [OneChangeResult(t, queue.value.id, changes[0], now)]
         + ChangeResults(OneChange(t, queue.value.id, changes[0], now), queue.value.id, changes[1..], now)
  {
  }

  /** Deleting, purging and changing a queue is done to the live queue with the URL, and to nothing if there is none. */
  lemma RequestsOnQueue(cfg: Config, t: Tables, url: string, patch: map<string, string>, stamp: map<string, string>, now: int, id: int)
    requires QueuesKeyed(cfg, t)
    ensures id in t.queues && t.queues[id].url == url && t.queues[id].deletedAt.None? ==>
      && Buried(cfg, t, url, stamp, now) == DeleteQueue(cfg, t, t.queues[id], stamp, now)
      && Purged(cfg, t, url, stamp, now) == PurgeQueue(cfg, t, t.queues[id], stamp, now)
      && Patched(cfg, t, url, patch, stamp, now) == SetAttributes(cfg, t, t.queues[id], patch, stamp, now)
    ensures (forall k :: k in t.queues && t.queues[k].url == url ==> t.queues[k].deletedAt.Some?) ==>
      Buried(cfg, t, url, stamp, now) == t && Purged(cfg, t, url, stamp, now) == t && Patched(cfg, t, url, patch, stamp, now) == t
  {
    QueueFound(cfg, t, url, now, id);
    if Found(t, url).Ok? { QueueFound(cfg, t, url, now, Found(t, url).value.id); }
  }

  // ---- listing ------------------------------------------------------------------------------------

  /** The URLs of a listing are those of the live queues in the byte order of their names. */
  lemma UrlsByName(cfg: Config, t: Tables, i: nat, j: nat)
    requires QueuesKeyed(cfg, t) && i < j < |Pagination.LiveUrls(t)|
    ensures exists a, b ::
      && a in t.queues && t.queues[a].url == Pagination.LiveUrls(t)[i] && t.queues[a].deletedAt.None?
      && b in t.queues && t.queues[b].url == Pagination.LiveUrls(t)[j] && t.queues[b].deletedAt.None?
      && Less(t.queues[a].name, t.queues[b].name)
  {
    var live := Filter(QueuesOf(t), Pagination.LiveQueue);
    NamesOrder(cfg, t);
    ListedRows(QueueSet(t), NamedBefore);
    LiveAscend(QueuesOf(t));
    assert live[i] in live && live[j] in live;
    assert NamedBefore(live[i], live[j]);
    assert t.queues[live[i].id] == live[i] && t.queues[live[j].id] == live[j];
  }

  lemma {:induction false} LiveAscend(queues: seq<Queue>)
    requires Increasing(queues, NamedBefore)
    ensures Increasing(Filter(queues, Pagination.LiveQueue), NamedBefore)
  {
    if queues != [] {
      LiveAscend(queues[1..]);
      assert forall q :: q in queues[1..] ==> NamedBefore(queues[0], q);
    }
  }

  /** A page size of zero or less gives all of the rest at once, and a start beyond the end gives nothing. */
  lemma UnlimitedPage(urls: seq<string>, max: int, offset: nat)
    ensures max <= 0 && offset <= |urls| ==> Pagination.PageAt(urls, max, offset) == Pagination.Page(urls[offset..], "")
    ensures offset > |urls| ==> Pagination.PageAt(urls, max, offset) == Pagination.Page([], "")
  {
  }
}
