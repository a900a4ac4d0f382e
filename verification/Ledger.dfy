/** Deduplication of FIFO sends, over whole runs. */
module Ledger {
  import opened Records
  import opened Sequences
  import opened Tables
  import opened QueueAttributes
  import opened Plane
  import opened Integrity
  import opened Leases
  import opened LeaseBounds
  import opened FifoLocks
  import opened Runs

  /** A message was inserted for a FIFO send, and this is what the send answered. */
  datatype Insertion = Insertion(key: LedgerKey, at: int, response: SendResponse)

  /** What the event adds to the history of insertions. */
  ghost function Inserted(cfg: Config, t: Tables, tick: Tick): seq<Insertion>
    requires Enabled(cfg, t, tick.at, tick.event)
  {
    if tick.event.OnMessages? && tick.event.message.SendOne? then
      var e, q := tick.event.message, t.queues[tick.event.message.queueId];
      if q.fifo && Inserts(cfg, t, q, e.entry, tick.at)
      then [Insertion(EntryKey(cfg, q, e.entry), tick.at, EntryResponse(cfg, q, e.entry))] else []
    else []
  }

  /** The insertions of a run, in order. */
  ghost function Insertions(cfg: Config, t: Tables, now: int, run: seq<Tick>): seq<Insertion>
    requires Legal(cfg, t, now, run)
    decreases |run|
  {
    if run == [] then []
    else Inserted(cfg, t, run[0]) + Insertions(cfg, Step(cfg, t, run[0].at, run[0].event), run[0].at, run[1..])
  }

  ghost predicate Spaced(log: seq<Insertion>) {
    forall i, j :: 0 <= i < j < |log| && log[i].key == log[j].key ==> log[i].at + DEDUP_WINDOW <= log[j].at
  }

  ghost predicate Covered(i: Insertion, ledger: map<LedgerKey, DedupEntry>) {
    i.key in ledger && ledger[i.key] == DedupEntry(i.response, WindowEnd(i.at))
  }

  /** A past insertion within the window is in the ledger as long as its queue exists. */
  ghost predicate AllCovered(log: seq<Insertion>, ledger: map<LedgerKey, DedupEntry>, queues: map<int, Queue>, now: int) {
    forall i {:trigger Covered(i, ledger)} ::
      i in log && i.at + DEDUP_WINDOW > now && i.key.queueId in queues ==> Covered(i, ledger)
  }

  /** The insertion an entry stands for. */
  function InsertionOf(key: LedgerKey, entry: DedupEntry): Insertion {
    Insertion(key, entry.expiresAt - DEDUP_WINDOW, entry.response)
  }

  /** Every ledger entry comes from an insertion. */
  ghost predicate AllLogged(log: seq<Insertion>, ledger: map<LedgerKey, DedupEntry>) {
    forall k :: k in ledger ==> InsertionOf(k, ledger[k]) in log
  }

  ghost predicate PastKnown(log: seq<Insertion>, nextQueueId: int, now: int) {
    forall i :: i in log ==> i.at <= now && i.key.queueId < nextQueueId
  }

  /** The ledger is an exact account of the insertions of the last five minutes. */
  ghost predicate Accounts(t: Tables, log: seq<Insertion>, now: int) {
    && Spaced(log)
    && AllCovered(log, t.ledger, t.queues, now)
    && AllLogged(log, t.ledger)
    && PastKnown(log, t.nextQueueId, now)
  }

  // ---- one step -------------------------------------------------------------------

  /** Queue ids only grow, and no queue comes back. */
  ghost predicate QueuesGrow(t: Tables, t': Tables) {
    && t.nextQueueId <= t'.nextQueueId
    && forall id :: id in t'.queues && id < t.nextQueueId ==> id in t.queues
  }

  /** The ledger lost only expired entries and entries of queues that are gone. */
  ghost predicate LedgerShrinks(t: Tables, t': Tables, now: int) {
    && (forall k :: k in t'.ledger ==> k in t.ledger && t'.ledger[k] == t.ledger[k])
    && (forall k :: k in t.ledger && t.ledger[k].expiresAt > now && k.queueId in t'.queues ==> k in t'.ledger)
  }

  lemma AccountsShrink(t: Tables, t': Tables, log: seq<Insertion>, now: int, at: int)
    requires Accounts(t, log, now) && now <= at
    requires QueuesGrow(t, t') && LedgerShrinks(t, t', at)
    ensures Accounts(t', log, at)
  {
    forall i | i in log && i.at + DEDUP_WINDOW > at && i.key.queueId in t'.queues ensures Covered(i, t'.ledger) {
      assert Covered(i, t.ledger);
    }
  }

  lemma SpacedSnoc(log: seq<Insertion>, i: Insertion)
    requires Spaced(log)
    requires forall past :: past in log && past.key == i.key ==> past.at + DEDUP_WINDOW <= i.at
    ensures Spaced(log + [i])
  {
    forall a, b | 0 <= a < b < |log + [i]| && (log + [i])[a].key == (log + [i])[b].key
      ensures (log + [i])[a].at + DEDUP_WINDOW <= (log + [i])[b].at
    {
      if b == |log| { assert log[a] in log; }
    }
  }

  /**
   * A send is answered from the history: by the insertion of the last five minutes under its key if there is
   * one, and if there is none it inserts.
   */
  lemma SendAnswers(cfg: Config, t: Tables, log: seq<Insertion>, q: Queue, e: Entry, now: int)
    requires Accounts(t, log, now) && q.id in t.queues && t.queues[q.id] == q && q.fifo && EntryError(q, e).None?
    ensures Inserts(cfg, t, q, e, now) <==>
      forall past :: past in log && past.key == EntryKey(cfg, q, e) ==> past.at + DEDUP_WINDOW <= now
    ensures forall past :: past in log && past.key == EntryKey(cfg, q, e) && past.at + DEDUP_WINDOW > now ==>
      SendResult(cfg, t, q, e, now) == Ok(past.response) && Send(cfg, t, q, e, now) == t
  {
    var key := EntryKey(cfg, q, e);
    if !Inserts(cfg, t, q, e, now) {
      assert InsertionOf(key, t.ledger[key]) in log;
    }
    forall past | past in log && past.key == key && past.at + DEDUP_WINDOW > now
      ensures Covered(past, t.ledger)
    {
    }
  }

  /** The ledger and the history after one more insertion, which no earlier one of its key is too close to. */
  lemma OneMoreInsertion(log: seq<Insertion>, ledger: map<LedgerKey, DedupEntry>, queues: map<int, Queue>, nextQueueId: int, at: int,
                         added: Insertion)
    requires Spaced(log) && AllCovered(log, ledger, queues, at) && AllLogged(log, ledger) && PastKnown(log, nextQueueId, at)
    requires added.at == at && added.key.queueId < nextQueueId
    requires forall past :: past in log && past.key == added.key ==> past.at + DEDUP_WINDOW <= at
    ensures var ledger' := ledger[added.key := DedupEntry(added.response, WindowEnd(at))];
      && Spaced(log + [added]) && AllCovered(log + [added], ledger', queues, at)
      && AllLogged(log + [added], ledger') && PastKnown(log + [added], nextQueueId, at)
  {
    var ledger' := ledger[added.key := DedupEntry(added.response, WindowEnd(at))];
    SpacedSnoc(log, added);
    forall i | i in log + [added] && i.at + DEDUP_WINDOW > at && i.key.queueId in queues ensures Covered(i, ledger') {
      if i != added { assert i in log && Covered(i, ledger); }
    }
    forall k | k in ledger' ensures InsertionOf(k, ledger'[k]) in log + [added] {
      if k == added.key { assert InsertionOf(k, ledger'[k]) == added; }
    }
  }

  lemma InsertAccounts(cfg: Config, t: Tables, log: seq<Insertion>, q: Queue, e: Entry, at: int)
    requires Accounts(t, log, at) && QueuesKeyed(cfg, t) && q.id in t.queues && t.queues[q.id] == q
    requires q.fifo && Inserts(cfg, t, q, e, at)
    ensures Accounts(Send(cfg, t, q, e, at), log + [Insertion(EntryKey(cfg, q, e), at, EntryResponse(cfg, q, e))], at)
  {
    var t', added := Send(cfg, t, q, e, at), Insertion(EntryKey(cfg, q, e), at, EntryResponse(cfg, q, e));
    SendAnswers(cfg, t, log, q, e, at);
    OneMoreInsertion(log, t.ledger, t.queues, t.nextQueueId, at, added);
    assert t'.ledger == t.ledger[added.key := DedupEntry(added.response, WindowEnd(at))];
    assert t'.queues == t.queues && t'.nextQueueId == t.nextQueueId;
  }

  lemma SendAccounts(cfg: Config, t: Tables, log: seq<Insertion>, q: Queue, e: Entry, now: int, at: int)
    requires Accounts(t, log, now) && now <= at && QueuesKeyed(cfg, t) && q.id in t.queues && t.queues[q.id] == q
    ensures Accounts(Send(cfg, t, q, e, at),
                     log + if q.fifo && Inserts(cfg, t, q, e, at)
                     then [Insertion(EntryKey(cfg, q, e), at, EntryResponse(cfg, q, e))] else [], at)
  {
    AccountsShrink(t, t, log, now, at);
    if q.fifo && Inserts(cfg, t, q, e, at) {
      InsertAccounts(cfg, t, log, q, e, at);
    } else {
      assert log + [] == log;
      AccountsShrink(t, Send(cfg, t, q, e, at), log, at, at);
    }
  }

  lemma CreateShrinks(cfg: Config, t: Tables, name: string, attributes: map<string, string>, stamps: map<string, string>, now: int)
    requires QueuesKeyed(cfg, t)
    ensures var t' := CreateQueue(cfg, t, name, attributes, stamps, now); QueuesGrow(t, t') && LedgerShrinks(t, t', now)
  {
  }

  lemma QueueShrinks(cfg: Config, t: Tables, now: int, e: QueueEvent)
    requires QueuesKeyed(cfg, t) && QueueEnabled(t, e)
    ensures QueuesGrow(t, QueueStep(cfg, t, now, e)) && LedgerShrinks(t, QueueStep(cfg, t, now, e), now)
  {
    match e
    case Create(name, attributes, stamps) => CreateShrinks(cfg, t, name, attributes, stamps, now);
    case _ => QueueFrame(cfg, t, now, e);
  }

  lemma UpkeepShrinks(t: Tables, now: int, e: UpkeepEvent)
    requires UpkeepEnabled(t, e) && (forall id :: id in t.queues ==> t.queues[id].id == id)
    ensures QueuesGrow(t, UpkeepStep(t, now, e)) && LedgerShrinks(t, UpkeepStep(t, now, e), now)
  {
    match e
    case ApplyMutations => ApplyPatchesFrame(t, DuePatches(t, now), now);
    case DropLedger =>
    case ReapOne(_) =>
    case PassOne(_) =>
  }

  lemma MessageShrinks(cfg: Config, t: Tables, now: int, e: MessageEvent)
    requires MessageEnabled(cfg, t, now, e) && !e.SendOne?
    ensures QueuesGrow(t, MessageStep(cfg, t, now, e)) && LedgerShrinks(t, MessageStep(cfg, t, now, e), now)
  {
  }

  lemma StepAccounts(cfg: Config, t: Tables, log: seq<Insertion>, now: int, tick: Tick)
    requires Keyed(cfg, t) && Accounts(t, log, now) && now <= tick.at && Enabled(cfg, t, tick.at, tick.event)
    ensures Accounts(Step(cfg, t, tick.at, tick.event), log + Inserted(cfg, t, tick), tick.at)
  {
    match tick.event
    case OnMessages(SendOne(id, e)) => SendAccounts(cfg, t, log, t.queues[id], e, now, tick.at);
    case OnMessages(e) =>
      MessageShrinks(cfg, t, tick.at, e);
      AccountsShrink(t, Step(cfg, t, tick.at, tick.event), log, now, tick.at);
      assert log + [] == log;
    case Upkeep(e) =>
      UpkeepShrinks(t, tick.at, e);
      AccountsShrink(t, Step(cfg, t, tick.at, tick.event), log, now, tick.at);
      assert log + [] == log;
    case OnQueues(e) =>
      QueueShrinks(cfg, t, tick.at, e);
      AccountsShrink(t, Step(cfg, t, tick.at, tick.event), log, now, tick.at);
      assert log + [] == log;
  }

  // ---- runs -----------------------------------------------------------------------

  lemma HistoryUnfolds(cfg: Config, t: Tables, now: int, run: seq<Tick>)
    requires Legal(cfg, t, now, run) && run != []
    ensures var t1 := Step(cfg, t, run[0].at, run[0].event);
      && Legal(cfg, t1, run[0].at, run[1..]) && EndOf(now, run) == EndOf(run[0].at, run[1..])
      && After(cfg, t, now, run) == After(cfg, t1, run[0].at, run[1..])
      && Insertions(cfg, t, now, run) == Inserted(cfg, t, run[0]) + Insertions(cfg, t1, run[0].at, run[1..])
  {
  }

  lemma HistoryJoins(log: seq<Insertion>, added: seq<Insertion>, later: seq<Insertion>)
    ensures log + added + later == log + (added + later)
  {
  }

  lemma {:induction false} RunAccounts(cfg: Config, t: Tables, log: seq<Insertion>, now: int, run: seq<Tick>)
    requires Sound(cfg, t, now) && Accounts(t, log, now) && Legal(cfg, t, now, run)
    ensures Accounts(After(cfg, t, now, run), log + Insertions(cfg, t, now, run), EndOf(now, run))
    decreases |run|
  {
    if run == [] {
      assert log + [] == log;
    } else {
      var t1, added := Step(cfg, t, run[0].at, run[0].event), Inserted(cfg, t, run[0]);
      StepAccounts(cfg, t, log, now, run[0]);
      StepSound(cfg, t, now, run[0]);
      HistoryUnfolds(cfg, t, now, run);
      RunAccounts(cfg, t1, log + added, run[0].at, run[1..]);
      HistoryJoins(log, added, Insertions(cfg, t1, run[0].at, run[1..]));
    }
  }

  /** The history of a run from the empty store is what its ledger accounts for. */
  lemma HistoryOf(cfg: Config, start: int, run: seq<Tick>, now: int)
    requires Legal(cfg, EMPTY, start, run) && EndOf(start, run) <= now
    ensures Accounts(After(cfg, EMPTY, start, run), Insertions(cfg, EMPTY, start, run), now)
  {
    var t, log := After(cfg, EMPTY, start, run), Insertions(cfg, EMPTY, start, run);
    assert Sound(cfg, EMPTY, start) && Accounts(EMPTY, [], start);
    RunAccounts(cfg, EMPTY, [], start, run);
    assert [] + log == log;
    AccountsShrink(t, t, log, EndOf(start, run), now);
  }

  /** Insertions under one key are five minutes apart, and a send is answered from the last five minutes. */
  ghost predicate Deduplicates(cfg: Config, t: Tables, log: seq<Insertion>, q: Queue, e: Entry, now: int) {
    q.id in t.queues && t.queues[q.id] == q && q.fifo && EntryError(q, e).None? ==>
      && (Inserts(cfg, t, q, e, now) <==>
            forall past :: past in log && past.key == EntryKey(cfg, q, e) ==> past.at + DEDUP_WINDOW <= now)
      && (forall past :: past in log && past.key == EntryKey(cfg, q, e) && past.at + DEDUP_WINDOW > now ==>
            SendResult(cfg, t, q, e, now) == Ok(past.response))
  }

  lemma AccountsDeduplicate(cfg: Config, t: Tables, log: seq<Insertion>, q: Queue, e: Entry, now: int)
    requires Accounts(t, log, now)
    ensures Deduplicates(cfg, t, log, q, e, now)
  {
    if q.id in t.queues && t.queues[q.id] == q && q.fifo && EntryError(q, e).None? { SendAnswers(cfg, t, log, q, e, now); }
  }

  /**
   * FIFO deduplication over a run: two insertions under the same queue, scope and deduplication id are at
   * least five minutes apart, and afterwards a send is answered by the insertion of the last five minutes
   * under its key; it inserts exactly when there is none.
   */
  lemma RunDeduplicates(cfg: Config, start: int, run: seq<Tick>, q: Queue, e: Entry, now: int)
    requires Legal(cfg, EMPTY, start, run) && EndOf(start, run) <= now
    ensures Spaced(Insertions(cfg, EMPTY, start, run))
    ensures Deduplicates(cfg, After(cfg, EMPTY, start, run), Insertions(cfg, EMPTY, start, run), q, e, now)
  {
    HistoryOf(cfg, start, run, now);
    AccountsDeduplicate(cfg, After(cfg, EMPTY, start, run), Insertions(cfg, EMPTY, start, run), q, e, now);
  }
}
