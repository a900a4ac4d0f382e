/**
 * FIFO deduplication in the terms of a client: which earlier send a send repeats, by the group and the deduplication id it
 * gives and the deduplication scope of the queue.
 */
module Deduplication {
  import opened Records
  import opened Sequences
  import opened Tables
  import opened QueueAttributes
  import opened Plane
  import opened Integrity
  import opened Leases
  import opened Runs
  import opened Ledger

  /**
   * A FIFO send that added a message: the queue and its name, whether its deduplication scope then was the message group, the
   * group and the deduplication id, when it was, and what it answered.
   */
  datatype Deposit = Deposit(queueId: int, queueName: string, byGroup: bool, groupId: string, dedupId: string, at: int, response: SendResponse)

  /** The id given, or the hash of the body if none is given. */
  function IdOf(cfg: Config, e: Entry): string {
    if e.dedupId == "" then cfg.sha256Hex(e.body) else e.dedupId
  }

  predicate ByGroup(q: Queue) {
    "DeduplicationScope" in q.attributes && q.attributes["DeduplicationScope"] == "messageGroup"
  }

  /** The send of the tick added a row to the message table. */
  ghost predicate AddsMessage(cfg: Config, t: Tables, tick: Tick)
    requires Enabled(cfg, t, tick.at, tick.event)
  {
    && tick.event.OnMessages? && tick.event.message.SendOne? && t.queues[tick.event.message.queueId].fifo
    && Step(cfg, t, tick.at, tick.event).messages.Keys != t.messages.Keys
  }

  ghost function Deposited(cfg: Config, t: Tables, tick: Tick): seq<Deposit>
    requires Enabled(cfg, t, tick.at, tick.event)
  {
    if AddsMessage(cfg, t, tick) then
      var q, e := t.queues[tick.event.message.queueId], tick.event.message.entry;
      var result := SendResult(cfg, t, q, e, tick.at);
      if result.Ok? then [Deposit(q.id, q.name, ByGroup(q), e.groupId, IdOf(cfg, e), tick.at, result.value)] else []
    else []
  }

  /** The deposits of a run, in order. */
  ghost function Deposits(cfg: Config, t: Tables, now: int, run: seq<Tick>): seq<Deposit>
    requires Legal(cfg, t, now, run)
    decreases |run|
  {
    if run == [] then []
    else Deposited(cfg, t, run[0]) + Deposits(cfg, Step(cfg, t, run[0].at, run[0].event), run[0].at, run[1..])
  }

  // ---- deposits are insertions ----------------------------------------------------------------

  function Logged(d: Deposit): Insertion {
    Insertion(LedgerKey(d.queueId, if d.byGroup then d.groupId else d.queueName, d.dedupId), d.at, d.response)
  }

  lemma SendAdds(cfg: Config, t: Tables, q: Queue, e: Entry, now: int)
    requires MessagesKeyed(t)
    ensures Send(cfg, t, q, e, now).messages.Keys != t.messages.Keys <==> Inserts(cfg, t, q, e, now)
  {
    if Inserts(cfg, t, q, e, now) { assert t.nextRowId in Send(cfg, t, q, e, now).messages; }
  }

  lemma DepositLogged(cfg: Config, t: Tables, tick: Tick)
    requires Keyed(cfg, t) && Enabled(cfg, t, tick.at, tick.event)
    ensures Inserted(cfg, t, tick) == Map(Deposited(cfg, t, tick), Logged)
  {
    if tick.event.OnMessages? && tick.event.message.SendOne? {
      var e := tick.event.message;
      SendAdds(cfg, t, t.queues[e.queueId], e.entry, tick.at);
    }
  }

  lemma {:induction false} MapTwo(a: seq<Deposit>, b: seq<Deposit>)
    ensures Map(a + b, Logged) == Map(a, Logged) + Map(b, Logged)
  {
  }

  lemma {:induction false} DepositsLogged(cfg: Config, t: Tables, now: int, run: seq<Tick>)
    requires Sound(cfg, t, now) && Legal(cfg, t, now, run)
    ensures Insertions(cfg, t, now, run) == Map(Deposits(cfg, t, now, run), Logged)
    decreases |run|
  {
    if run != [] {
      var t1 := Step(cfg, t, run[0].at, run[0].event);
      DepositLogged(cfg, t, run[0]);
      StepSound(cfg, t, now, run[0]);
      DepositsLogged(cfg, t1, run[0].at, run[1..]);
      MapTwo(Deposited(cfg, t, run[0]), Deposits(cfg, t1, run[0].at, run[1..]));
    }
  }

  // ---- queues keep their names ----------------------------------------------------------------

  /** Queue ids only grow, and a queue keeps its name. */
  ghost predicate NamesKept(t: Tables, t': Tables) {
    && t.nextQueueId <= t'.nextQueueId
    && forall id :: id in t'.queues && id < t.nextQueueId ==> id in t.queues && t'.queues[id].name == t.queues[id].name
  }

  lemma UpkeepNames(cfg: Config, t: Tables, now: int, e: UpkeepEvent)
    requires Keyed(cfg, t) && UpkeepEnabled(t, e)
    ensures NamesKept(t, UpkeepStep(t, now, e))
  {
    match e
    case ApplyMutations => PatchNames(t, DuePatches(t, now), now);
    case DropLedger =>
    case ReapOne(id) =>
    case PassOne(id) =>
  }

  lemma {:induction false} PatchNames(t: Tables, patches: seq<Patch>, now: int)
    ensures ApplyPatches(t, patches, now).nextQueueId == t.nextQueueId
    ensures forall id :: id in ApplyPatches(t, patches, now).queues ==>
      id in t.queues && ApplyPatches(t, patches, now).queues[id].name == t.queues[id].name
    decreases |patches|
  {
    if patches != [] { PatchNames(ApplyPatch(t, patches[0], now), patches[1..], now); }
  }

  lemma MessageNames(cfg: Config, t: Tables, now: int, e: MessageEvent)
    requires MessageEnabled(cfg, t, now, e)
    ensures SameQueues(t, MessageStep(cfg, t, now, e))
  {
    match e
    case SendOne(id, entry) => SendSameQueues(cfg, t, t.queues[id], entry, now);
    case LeaseSome(_, _, _, _, _) =>
    case RedriveOne(id, row) => RedriveRowsOnly(t, t.queues[id].arn, RedriveTarget(cfg, t, t.queues[id]).value.id, {row}, now);
    case RefreshOne(_, _, handle, timeout) => SetLeaseRows(t, handle, LeaseEnd(now, timeout), true);
    case DeleteOne(id, handle) => DeleteRows(t, id, handle, now);
    case ChangeOne(id, handle, timeout) => ChangeRows(t, id, handle, timeout, now);
  }

  lemma SendSameQueues(cfg: Config, t: Tables, q: Queue, e: Entry, now: int)
    ensures SameQueues(t, Send(cfg, t, q, e, now))
  {
  }

  lemma CreateNames(cfg: Config, t: Tables, name: string, attributes: map<string, string>, stamps: map<string, string>, now: int)
    requires QueuesKeyed(cfg, t)
    ensures NamesKept(t, CreateQueue(cfg, t, name, attributes, stamps, now))
  {
  }

  lemma TouchedNames(t: Tables, t': Tables, q: Queue)
    requires q.id in t.queues && t.queues[q.id].name == q.name && t'.queues == t.queues[q.id := q] && t'.nextQueueId == t.nextQueueId
    ensures NamesKept(t, t')
  {
  }

  lemma QueueNames(cfg: Config, t: Tables, now: int, e: QueueEvent)
    requires QueuesKeyed(cfg, t) && QueueEnabled(t, e) && !e.Create?
    ensures NamesKept(t, QueueStep(cfg, t, now, e))
  {
    if e.Tombstone? || e.Purge? || e.Patching? {
      UpdateNames(cfg, t, now, e);
    } else {
      assert QueueStep(cfg, t, now, e).queues == t.queues;
    }
  }

  lemma UpdateNames(cfg: Config, t: Tables, now: int, e: QueueEvent)
    requires QueuesKeyed(cfg, t) && QueueEnabled(t, e) && (e.Tombstone? || e.Purge? || e.Patching?)
    ensures NamesKept(t, QueueStep(cfg, t, now, e))
  {
    var t' := QueueStep(cfg, t, now, e);
    if t' != t { TouchedNames(t, t', t'.queues[e.queueId]); }
  }

  lemma StepNames(cfg: Config, t: Tables, now: int, e: Event)
    requires Keyed(cfg, t) && Enabled(cfg, t, now, e)
    ensures NamesKept(t, Step(cfg, t, now, e))
  {
    match e
    case OnMessages(m) => MessageNames(cfg, t, now, m);
    case Upkeep(u) => UpkeepNames(cfg, t, now, u);
    case OnQueues(Create(name, attributes, stamps)) => CreateNames(cfg, t, name, attributes, stamps, now);
    case OnQueues(q) => QueueNames(cfg, t, now, q);
  }

  /** The deposits know the names of their queues, as long as those exist. */
  ghost predicate NamesKnown(log: seq<Deposit>, t: Tables) {
    && (forall d :: d in log ==> d.queueId < t.nextQueueId && (d.queueId in t.queues ==> t.queues[d.queueId].name == d.queueName))
    && (forall a, b :: a in log && b in log && a.queueId == b.queueId ==> a.queueName == b.queueName)
  }

  lemma DepositNamed(cfg: Config, t: Tables, log: seq<Deposit>, tick: Tick)
    requires Keyed(cfg, t) && Enabled(cfg, t, tick.at, tick.event) && NamesKnown(log, t)
    ensures NamesKnown(log + Deposited(cfg, t, tick), Step(cfg, t, tick.at, tick.event))
  {
    StepNames(cfg, t, tick.at, tick.event);
    if tick.event.OnMessages? { MessageNames(cfg, t, tick.at, tick.event.message); }
    NamesStill(log, Deposited(cfg, t, tick), t, Step(cfg, t, tick.at, tick.event));
  }

  lemma NamesStill(log: seq<Deposit>, added: seq<Deposit>, t: Tables, t': Tables)
    requires NamesKnown(log, t) && NamesKept(t, t')
    requires forall d :: d in added ==> d.queueId < t'.nextQueueId && d.queueId in t'.queues && t'.queues[d.queueId].name == d.queueName
    ensures NamesKnown(log + added, t')
  {
  }

  lemma {:induction false} DepositNames(cfg: Config, t: Tables, log: seq<Deposit>, now: int, run: seq<Tick>)
    requires Sound(cfg, t, now) && Legal(cfg, t, now, run) && NamesKnown(log, t)
    ensures NamesKnown(log + Deposits(cfg, t, now, run), After(cfg, t, now, run))
    decreases |run|
  {
    if run == [] {
      assert log + [] == log;
    } else {
      var t1, added := Step(cfg, t, run[0].at, run[0].event), Deposited(cfg, t, run[0]);
      DepositNamed(cfg, t, log, run[0]);
      StepSound(cfg, t, now, run[0]);
      DepositsUnfold(cfg, t, now, run);
      DepositNames(cfg, t1, log + added, run[0].at, run[1..]);
      DepositsJoin(log, added, Deposits(cfg, t1, run[0].at, run[1..]));
    }
  }

  lemma DepositsUnfold(cfg: Config, t: Tables, now: int, run: seq<Tick>)
    requires Legal(cfg, t, now, run) && run != []
    ensures var t1 := Step(cfg, t, run[0].at, run[0].event);
      && Legal(cfg, t1, run[0].at, run[1..]) && After(cfg, t, now, run) == After(cfg, t1, run[0].at, run[1..])
      && Deposits(cfg, t, now, run) == Deposited(cfg, t, run[0]) + Deposits(cfg, t1, run[0].at, run[1..])
  {
  }

  lemma DepositsJoin(log: seq<Deposit>, added: seq<Deposit>, later: seq<Deposit>)
    ensures log + added + later == log + (added + later)
  {
  }

  // ---- which sends a send repeats -------------------------------------------------------------

  /**
   * The earlier send falls under the scope of this one. If the scope was and is the message group that means the same group, if
   * it was and is the queue it means any group. In between the attribute was changed: then the group must have been, or be, the
   * name of the queue, because the two kinds of key are not told apart.
   */
  predicate Meets(d: Deposit, byGroup: bool, groupId: string, queueName: string) {
    if byGroup then (if d.byGroup then d.groupId == groupId else groupId == queueName)
    else (d.byGroup ==> d.groupId == queueName)
  }

  /** A deposit of the last five minutes in this queue, under the same deduplication id and scope. */
  predicate Covers(d: Deposit, q: Queue, groupId: string, dedupId: string, now: int) {
    && d.queueId == q.id && d.dedupId == dedupId && now < d.at + 300000
    && Meets(d, ByGroup(q), groupId, q.name)
  }

  lemma CoversKey(cfg: Config, d: Deposit, q: Queue, e: Entry, now: int)
    requires q.fifo && (d.queueId == q.id ==> d.queueName == q.name)
    ensures Covers(d, q, e.groupId, IdOf(cfg, e), now) <==> Logged(d).key == EntryKey(cfg, q, e) && now < Logged(d).at + DEDUP_WINDOW
  {
  }

  lemma {:induction false} InMap(log: seq<Deposit>, i: Insertion)
    ensures i in Map(log, Logged) <==> exists d :: d in log && Logged(d) == i
  {
    if i in Map(log, Logged) {
      var k := IndexOf(Map(log, Logged), i);
      assert log[k] in log && Logged(log[k]) == i;
    }
    if d :| d in log && Logged(d) == i {
      assert Map(log, Logged)[IndexOf(log, d)] == i;
    }
  }

  lemma EmptyStart(cfg: Config, start: int)
    ensures Sound(cfg, EMPTY, start) && NamesKnown([], EMPTY)
  {
  }

  /** The history of deposits and the ledger of a run from the empty store. */
  lemma DepositHistory(cfg: Config, start: int, run: seq<Tick>, now: int)
    requires Legal(cfg, EMPTY, start, run) && EndOf(start, run) <= now
    ensures var t, log := After(cfg, EMPTY, start, run), Deposits(cfg, EMPTY, start, run);
      Keyed(cfg, t) && Accounts(t, Map(log, Logged), now) && NamesKnown(log, t)
  {
    EmptyStart(cfg, start);
    HistoryOf(cfg, start, run, now);
    DepositsLogged(cfg, EMPTY, start, run);
    DepositNames(cfg, EMPTY, [], start, run);
    DepositsJoin([], [], Deposits(cfg, EMPTY, start, run));
    RunSound(cfg, EMPTY, start, run);
  }

  /**
   * After a run, an accepted FIFO send adds no message if and only if a deposit of the last five minutes in its queue covers it;
   * it is then answered as that deposit was. The scope is that of `Meets`.
   */
  lemma Duplicates(cfg: Config, start: int, run: seq<Tick>, q: Queue, e: Entry, now: int)
    requires Legal(cfg, EMPTY, start, run) && EndOf(start, run) <= now
    requires var t := After(cfg, EMPTY, start, run); q.id in t.queues && t.queues[q.id] == q
    requires q.fifo && EntryError(q, e).None?
    ensures var t, log := After(cfg, EMPTY, start, run), Deposits(cfg, EMPTY, start, run);
      && (Send(cfg, t, q, e, now).messages.Keys == t.messages.Keys <==>
            exists d :: d in log && Covers(d, q, e.groupId, IdOf(cfg, e), now))
      && (forall d :: d in log && Covers(d, q, e.groupId, IdOf(cfg, e), now) ==>
            SendResult(cfg, t, q, e, now) == Ok(d.response) && Send(cfg, t, q, e, now) == t)
  {
    var t, log := After(cfg, EMPTY, start, run), Deposits(cfg, EMPTY, start, run);
    DepositHistory(cfg, start, run, now);
    DuplicatesOf(cfg, t, log, q, e, now);
  }

  lemma DuplicatesOf(cfg: Config, t: Tables, log: seq<Deposit>, q: Queue, e: Entry, now: int)
    requires Keyed(cfg, t) && Accounts(t, Map(log, Logged), now) && NamesKnown(log, t)
    requires q.id in t.queues && t.queues[q.id] == q && q.fifo && EntryError(q, e).None?
    ensures Send(cfg, t, q, e, now).messages.Keys == t.messages.Keys <==>
      exists d :: d in log && Covers(d, q, e.groupId, IdOf(cfg, e), now)
    ensures forall d :: d in log && Covers(d, q, e.groupId, IdOf(cfg, e), now) ==>
      SendResult(cfg, t, q, e, now) == Ok(d.response) && Send(cfg, t, q, e, now) == t
  {
    SendAnswers(cfg, t, Map(log, Logged), q, e, now);
    SendAdds(cfg, t, q, e, now);
    forall d | d in log
      ensures Logged(d) in Map(log, Logged)
      ensures Covers(d, q, e.groupId, IdOf(cfg, e), now) <==> Logged(d).key == EntryKey(cfg, q, e) && now < Logged(d).at + DEDUP_WINDOW
    {
      InMap(log, Logged(d));
      CoversKey(cfg, d, q, e, now);
    }
    forall past | past in Map(log, Logged) ensures exists d :: d in log && Logged(d) == past {
      InMap(log, past);
    }
  }

  /**
   * With the scope unchanged: under the scope of the message group an accepted send is a duplicate if and only if the same
   * group and deduplication id were deposited within five minutes, and under that of the queue if and only if the same
   * deduplication id was, whatever the group.
   */
  lemma DuplicatesInScope(cfg: Config, start: int, run: seq<Tick>, q: Queue, e: Entry, now: int)
    requires Legal(cfg, EMPTY, start, run) && EndOf(start, run) <= now
    requires var t := After(cfg, EMPTY, start, run); q.id in t.queues && t.queues[q.id] == q
    requires q.fifo && EntryError(q, e).None?
    requires forall d :: d in Deposits(cfg, EMPTY, start, run) && d.queueId == q.id ==> d.byGroup == ByGroup(q)
    ensures var t, log := After(cfg, EMPTY, start, run), Deposits(cfg, EMPTY, start, run);
      var dedupId := if e.dedupId == "" then cfg.sha256Hex(e.body) else e.dedupId;
      if "DeduplicationScope" in q.attributes && q.attributes["DeduplicationScope"] == "messageGroup" then
        (Send(cfg, t, q, e, now).messages.Keys == t.messages.Keys <==>
           exists d :: d in log && d.queueId == q.id && d.groupId == e.groupId && d.dedupId == dedupId && now < d.at + 5 * 60 * 1000)
      else
        (Send(cfg, t, q, e, now).messages.Keys == t.messages.Keys <==>
           exists d :: d in log && d.queueId == q.id && d.dedupId == dedupId && now < d.at + 5 * 60 * 1000)
  {
    Duplicates(cfg, start, run, q, e, now);
  }

  /** Deposits that meet are five minutes apart: a repeat within five minutes is never deposited. */
  lemma DepositsApart(cfg: Config, start: int, run: seq<Tick>, i: nat, j: nat)
    requires Legal(cfg, EMPTY, start, run)
    requires i < j < |Deposits(cfg, EMPTY, start, run)|
    ensures var a, b := Deposits(cfg, EMPTY, start, run)[i], Deposits(cfg, EMPTY, start, run)[j];
      a.queueId == b.queueId && a.dedupId == b.dedupId && a.byGroup == b.byGroup && (a.byGroup ==> a.groupId == b.groupId) ==>
      a.at + 5 * 60 * 1000 <= b.at
  {
    var log := Deposits(cfg, EMPTY, start, run);
    DepositHistory(cfg, start, run, EndOf(start, run));
    assert log[i] in log && log[j] in log;
    assert Map(log, Logged)[i] == Logged(log[i]) && Map(log, Logged)[j] == Logged(log[j]);
  }
}
