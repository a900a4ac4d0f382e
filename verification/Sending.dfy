/** The send handlers. */
module Sending {
  import opened Records
  import opened Sequences
  import opened Tables
  import opened Storage
  import opened QueueAttributes
  import opened Plane
  import opened Contents
  import opened Runs
  import opened Traces

  // ---- one entry ------------------------------------------------------------------------

  /** The checks of `sendMessageEntry`, in its order. */
  method CheckEntry(queue: Queue, entry: Entry) returns (error: Option<ApiError>)
    ensures error == EntryError(queue, entry)
  {
    if entry.body == "" || |entry.body| > MaximumMessageSize(queue) {
      return Some(InvalidParameterValue);
    }
    if entry.content.Err? {
      return Some(entry.content.error);
    }
    if |entry.body| + entry.content.value.size > MaximumMessageSize(queue) {
      return Some(InvalidParameterValue);
    }
    if queue.fifo && entry.delaySeconds.Some? {
      return Some(InvalidParameterValue);
    }
    var delay := if entry.delaySeconds.Some? then entry.delaySeconds.value else DelaySeconds(queue);
    if delay < 0 || delay > 900 {
      return Some(InvalidParameterValue);
    }
    if queue.fifo {
      if entry.groupId == "" {
        return Some(MissingParameter);
      }
      if entry.dedupId == "" && Attribute(queue, "ContentBasedDeduplication") != "true" {
        return Some(InvalidParameterValue);
      }
    } else if entry.dedupId != "" {
      return Some(InvalidParameterValue);
    }
    error := None;
  }

  /** The end of `sendMessageEntry`: the message and its ledger entry. */
  method InsertEntry(store: Store, cfg: Config, queue: Queue, entry: Entry, dedupId: string, now: int)
    returns (response: SendResponse)
    requires entry.content.Ok? && dedupId == EntryDedupId(cfg, queue, entry)
    modifies store
    ensures response == EntryResponse(cfg, queue, entry)
    ensures store.View() == WithEntry(cfg, old(store.View()), queue, entry, now)
  {
    var delay := if entry.delaySeconds.Some? then entry.delaySeconds.value else DelaySeconds(queue);
    response := SendResponse(entry.messageId, cfg.md5Hex(entry.body), entry.content.value.md5, entry.content.value.systemMd5,
                             if queue.fifo then entry.sequenceNumber else "");
    var stored := store.InsertMessage(Message(
      0, queue.id, response.messageId, entry.body, now, now, None, 0, now + delay * 1000, None,
      now + RetentionSeconds(queue) * 1000, None, entry.groupId, dedupId, ""));
    if queue.fifo {
      store.InsertDedupEntry(LedgerKey(queue.id, DedupScopeKey(queue, entry.groupId), dedupId),
                             DedupEntry(response, WindowEnd(now)));
    }
  }

  /** What `sendMessageEntry` does once text and attributes are read. */
  method SendEntry(store: Store, cfg: Config, queue: Queue, entry: Entry, now: int)
    returns (result: Result<SendResponse>)
    modifies store
    ensures result == SendResult(cfg, old(store.View()), queue, entry, now)
    ensures store.View() == Send(cfg, old(store.View()), queue, entry, now)
  {
    var error := CheckEntry(queue, entry);
    if error.Some? {
      return Err(error.value);
    }
    var dedupId := entry.dedupId;
    if queue.fifo {
      if dedupId == "" {
        dedupId := cfg.sha256Hex(entry.body);
      }
      var key := LedgerKey(queue.id, DedupScopeKey(queue, entry.groupId), dedupId);
      if key in store.ledger && store.ledger[key].expiresAt > now {
        return Ok(store.ledger[key].response);
      }
    }
    var response := InsertEntry(store, cfg, queue, entry, dedupId, now);
    result := Ok(response);
  }

  /** `sendMessageEntry`. */
  method SendMessageEntry(store: Store, cfg: Config, queue: Queue, raw: RawEntry, now: int)
    returns (result: Result<SendResponse>)
    modifies store
    ensures result == SendResult(cfg, old(store.View()), queue, EntryOf(cfg, raw), now)
    ensures store.View() == Send(cfg, old(store.View()), queue, EntryOf(cfg, raw), now)
  {
    var content := ReadContent(cfg, raw);
    var entry := Entry(raw.body, content, raw.delaySeconds, raw.groupId, raw.dedupId, raw.messageId, raw.sequenceNumber);
    result := SendEntry(store, cfg, queue, entry, now);
  }

  // ---- batches ----------------------------------------------------------------------

  ghost function SendAll(cfg: Config, t: Tables, q: Queue, entries: seq<Entry>, now: int): Tables
    decreases |entries|
  {
    if entries == [] then t else SendAll(cfg, Send(cfg, t, q, entries[0], now), q, entries[1..], now)
  }

  ghost function SendResults(cfg: Config, t: Tables, q: Queue, entries: seq<Entry>, now: int): (r: seq<Result<SendResponse>>)
    ensures |r| == |entries|
    decreases |entries|
  {
    if entries == [] then []
    else [SendResult(cfg, t, q, entries[0], now)] + SendResults(cfg, Send(cfg, t, q, entries[0], now), q, entries[1..], now)
  }

  lemma {:induction false} SendSplit(cfg: Config, t: Tables, q: Queue, a: seq<Entry>, b: seq<Entry>, now: int)
    ensures SendAll(cfg, t, q, a + b, now) == SendAll(cfg, SendAll(cfg, t, q, a, now), q, b, now)
    ensures SendResults(cfg, t, q, a + b, now) ==
            SendResults(cfg, t, q, a, now) + SendResults(cfg, SendAll(cfg, t, q, a, now), q, b, now)
    decreases |a|
  {
    if a == [] {
      assert a + b == b;
    } else {
      assert (a + b)[0] == a[0] && (a + b)[1..] == a[1..] + b;
      SendSplit(cfg, Send(cfg, t, q, a[0], now), q, a[1..], b, now);
    }
  }

  ghost function EntriesOf(cfg: Config, raws: seq<RawEntry>): (r: seq<Entry>)
    ensures |r| == |raws| && forall i :: 0 <= i < |r| ==> r[i] == EntryOf(cfg, raws[i])
  {
    seq(|raws|, i requires 0 <= i < |raws| => EntryOf(cfg, raws[i]))
  }

  /** The second loop of `SendMessageBatch`: the entries one by one. */
  method SendEntries(store: Store, cfg: Config, queue: Queue, raws: seq<RawEntry>, now: int)
    returns (results: seq<Result<SendResponse>>)
    modifies store
    ensures results == SendResults(cfg, old(store.View()), queue, EntriesOf(cfg, raws), now)
    ensures store.View() == SendAll(cfg, old(store.View()), queue, EntriesOf(cfg, raws), now)
  {
    ghost var t, entries := store.View(), EntriesOf(cfg, raws);
    results := [];
    for i := 0 to |raws|
      invariant results == SendResults(cfg, t, queue, entries[..i], now)
      invariant store.View() == SendAll(cfg, t, queue, entries[..i], now)
    {
      assert entries[..i + 1] == entries[..i] + [entries[i]];
      SendSplit(cfg, t, queue, entries[..i], [entries[i]], now);
      OneSend(cfg, store.View(), queue, entries[i], now);
      var result := SendMessageEntry(store, cfg, queue, raws[i], now);
      results := results + [result];
    }
    assert entries[..|entries|] == entries;
  }

  lemma OneSend(cfg: Config, t: Tables, q: Queue, e: Entry, now: int)
    ensures SendAll(cfg, t, q, [e], now) == Send(cfg, t, q, e, now)
    ensures SendResults(cfg, t, q, [e], now) == [SendResult(cfg, t, q, e, now)]
  {
    assert [e][1..] == [];
  }

  ghost predicate Remembers(t: Tables, key: LedgerKey, answer: Result<SendResponse>, now: int) {
    FindEntry(t, key, now).Some? && answer == Ok(FindEntry(t, key, now).value.response)
  }

  /** The entry is accepted, and falls under the key. */
  ghost predicate Under(cfg: Config, q: Queue, e: Entry, key: LedgerKey) {
    q.fifo && EntryError(q, e).None? && EntryKey(cfg, q, e) == key
  }

  lemma Answered(cfg: Config, t: Tables, q: Queue, e: Entry, now: int, key: LedgerKey)
    requires Under(cfg, q, e, key)
    ensures Remembers(Send(cfg, t, q, e, now), key, SendResult(cfg, t, q, e, now), now)
  {
  }

  lemma RememberedAnswer(cfg: Config, t: Tables, q: Queue, e: Entry, now: int, key: LedgerKey, answer: Result<SendResponse>)
    requires Remembers(t, key, answer, now) && Under(cfg, q, e, key)
    ensures SendResult(cfg, t, q, e, now) == answer
  {
  }

  lemma StillRemembered(cfg: Config, t: Tables, q: Queue, e: Entry, now: int, key: LedgerKey, answer: Result<SendResponse>)
    requires Remembers(t, key, answer, now)
    ensures Remembers(Send(cfg, t, q, e, now), key, answer, now)
  {
  }

  lemma ResultsCons(cfg: Config, t: Tables, q: Queue, entries: seq<Entry>, now: int, j: nat)
    requires j < |entries|
    ensures SendResults(cfg, t, q, entries, now)[j] ==
      if j == 0 then SendResult(cfg, t, q, entries[0], now)
      else SendResults(cfg, Send(cfg, t, q, entries[0], now), q, entries[1..], now)[j - 1]
  {
  }

  lemma {:induction false} RememberedOn(cfg: Config, t: Tables, q: Queue, entries: seq<Entry>, now: int, key: LedgerKey,
                                        answer: Result<SendResponse>, j: nat)
    requires Remembers(t, key, answer, now) && j < |entries| && Under(cfg, q, entries[j], key)
    ensures SendResults(cfg, t, q, entries, now)[j] == answer
    decreases |entries|
  {
    ResultsCons(cfg, t, q, entries, now, j);
    if j == 0 {
      RememberedAnswer(cfg, t, q, entries[0], now, key, answer);
    } else {
      StillRemembered(cfg, t, q, entries[0], now, key, answer);
      RememberedOn(cfg, Send(cfg, t, q, entries[0], now), q, entries[1..], now, key, answer, j - 1);
    }
  }

  lemma FirstRepeats(cfg: Config, t: Tables, q: Queue, entries: seq<Entry>, now: int, j: nat, key: LedgerKey)
    requires 0 < j < |entries| && Under(cfg, q, entries[0], key) && Under(cfg, q, entries[j], key)
    ensures SendResults(cfg, t, q, entries, now)[0] == SendResults(cfg, t, q, entries, now)[j]
  {
    var answer := SendResult(cfg, t, q, entries[0], now);
    Answered(cfg, t, q, entries[0], now, key);
    RememberedOn(cfg, Send(cfg, t, q, entries[0], now), q, entries[1..], now, key, answer, j - 1);
    ResultsCons(cfg, t, q, entries, now, j);
  }

  /** Two entries of one batch under the same deduplication key get the same answer. */
  lemma {:induction false} BatchRepeats(cfg: Config, t: Tables, q: Queue, entries: seq<Entry>, now: int, i: nat, j: nat, key: LedgerKey)
    requires i < j < |entries| && Under(cfg, q, entries[i], key) && Under(cfg, q, entries[j], key)
    ensures SendResults(cfg, t, q, entries, now)[i] == SendResults(cfg, t, q, entries, now)[j]
    decreases |entries|
  {
    if i == 0 {
      FirstRepeats(cfg, t, q, entries, now, j, key);
    } else {
      BatchRepeats(cfg, Send(cfg, t, q, entries[0], now), q, entries[1..], now, i - 1, j - 1, key);
      ResultsCons(cfg, t, q, entries, now, i);
      ResultsCons(cfg, t, q, entries, now, j);
    }
  }

  function SendEvents(queueId: int, entries: seq<Entry>): seq<Event> {
    if entries == [] then [] else [OnMessages(SendOne(queueId, entries[0]))] + SendEvents(queueId, entries[1..])
  }

  /** A batch is a run of sends. */
  lemma {:induction false} BatchLeads(cfg: Config, t: Tables, q: Queue, entries: seq<Entry>, now: int)
    requires q.id in t.queues && t.queues[q.id] == q && q.deletedAt.None?
    ensures Leads(cfg, t, now, SendEvents(q.id, entries), SendAll(cfg, t, q, entries, now))
    decreases |entries|
  {
    if entries == [] {
      LeadsNowhere(cfg, t, now);
    } else {
      LeadsSend(cfg, t, now, q, entries[0]);
      BatchLeads(cfg, Send(cfg, t, q, entries[0], now), q, entries[1..], now);
      LeadsOn(cfg, t, now, [OnMessages(SendOne(q.id, entries[0]))], Send(cfg, t, q, entries[0], now),
              SendEvents(q.id, entries[1..]), SendAll(cfg, t, q, entries, now));
    }
  }
}
