/** Maintenance as a whole: what every request does first, and that it is a run of events. */
module Upkeeping {
  import opened Records
  import opened Sequences
  import opened Tables
  import opened Storage
  import opened Plane
  import opened Integrity
  import opened Leases
  import MoveTasks
  import opened Runs
  import opened Traces
  import opened Maintenance

  /** Reaps the live queues of a listing, one after the other. */
  ghost function ReapAll(t: Tables, queues: seq<Queue>, now: int): Tables
    decreases |queues|
  {
    if queues == [] then t
    else ReapAll(if queues[0].deletedAt.Some? then t else Reap(t, queues[0], now), queues[1..], now)
  }

  /** One pass of each task of a listing, one after the other. */
  ghost function PassAll(t: Tables, tasks: seq<MoveTask>, now: int): Tables
    decreases |tasks|
  {
    if tasks == [] then t else PassAll(MovePass(t, tasks[0], now), tasks[1..], now)
  }

  ghost function AfterReaps(t: Tables, now: int): Tables {
    var t1 := ApplyDue(t, now);
    var t2 := t1.(ledger := DropExpired(t1.ledger, now));
    ReapAll(t2, QueuesOf(t2), now)
  }

  /** What `maintain` does to the tables. */
  ghost function Maintained(t: Tables, now: int): Tables {
    PassAll(AfterReaps(t, now), RunningTasks(AfterReaps(t, now)), now)
  }

  // ---- listings ---------------------------------------------------------------------------

  /** The listed rows are the stored ones, each once. */
  ghost predicate QueueRows(t: Tables, queues: seq<Queue>) {
    && (forall i :: 0 <= i < |queues| ==> queues[i].id in t.queues && t.queues[queues[i].id] == queues[i])
    && (forall i, j :: 0 <= i < j < |queues| ==> queues[i].id != queues[j].id)
  }

  ghost predicate TaskRows(t: Tables, tasks: seq<MoveTask>) {
    && (forall i :: 0 <= i < |tasks| ==> tasks[i].id in t.tasks && t.tasks[tasks[i].id] == tasks[i] && IsRunning(tasks[i]))
    && (forall i, j :: 0 <= i < j < |tasks| ==> tasks[i].id != tasks[j].id)
  }

  lemma ListedQueues(cfg: Config, t: Tables)
    requires QueuesKeyed(cfg, t)
    ensures QueueRows(t, QueuesOf(t))
  {
    var queues := QueuesOf(t);
    NamesOrder(cfg, t);
    ListedRows(QueueSet(t), NamedBefore);
    forall i | 0 <= i < |queues| ensures queues[i].id in t.queues && t.queues[queues[i].id] == queues[i] {
      assert queues[i] in queues;
    }
  }

  lemma ListedTasks(t: Tables)
    requires TasksKeyed(t)
    ensures TaskRows(t, RunningTasks(t))
  {
    var tasks := RunningTasks(t);
    TaskOrders(t, 0);
    ListedRows(RunningSet(t), StartedBefore);
    forall i | 0 <= i < |tasks| ensures tasks[i].id in t.tasks && t.tasks[tasks[i].id] == tasks[i] && IsRunning(tasks[i]) {
      assert tasks[i] in tasks;
    }
  }

  lemma ReapKeepsOthers(t: Tables, q: Queue, queues: seq<Queue>, now: int)
    requires QueueRows(t, queues) && queues != [] && q == queues[0]
    ensures QueueRows(Reap(t, q, now), queues[1..])
  {
    var t' := Reap(t, q, now);
    forall i | 0 <= i < |queues[1..]|
      ensures queues[1..][i].id in t'.queues && t'.queues[queues[1..][i].id] == queues[1..][i]
    {
      assert queues[1..][i] == queues[i + 1] && queues[i + 1].id != q.id;
    }
  }

  lemma PassKeepsOthers(t: Tables, tasks: seq<MoveTask>, now: int)
    requires TaskRows(t, tasks) && tasks != []
    ensures TaskRows(MovePass(t, tasks[0], now), tasks[1..])
  {
    var t' := MovePass(t, tasks[0], now);
    MoveTasks.PassTaskRow(t, tasks[0], now);
    forall i | 0 <= i < |tasks[1..]|
      ensures tasks[1..][i].id in t'.tasks && t'.tasks[tasks[1..][i].id] == tasks[1..][i] && IsRunning(tasks[1..][i])
    {
      assert tasks[1..][i] == tasks[i + 1] && tasks[i + 1].id != tasks[0].id;
    }
  }

  // ---- the handler ------------------------------------------------------------------------

  /** The queue loop of `maintain`. */
  method ReapQueues(store: Store, ghost cfg: Config, queues: seq<Queue>, now: int)
    requires Keyed(cfg, store.View()) && QueueRows(store.View(), queues)
    modifies store
    ensures store.View() == ReapAll(old(store.View()), queues, now)
    ensures Keyed(cfg, store.View())
  {
    ghost var t := store.View();
    for i := 0 to |queues|
      invariant Keyed(cfg, store.View()) && QueueRows(store.View(), queues[i..])
      invariant ReapAll(store.View(), queues[i..], now) == ReapAll(t, queues, now)
    {
      var queue := queues[i];
      assert queues[i..][0] == queue && queues[i..][1..] == queues[i + 1..];
      if queue.deletedAt.Some? {
        assert QueueRows(store.View(), queues[i + 1..]);
        continue;
      }
      ReapKeepsOthers(store.View(), queue, queues[i..], now);
      ReapKeyed(cfg, store.View(), queue, now);
      ReapQueue(store, queue, now);
    }
  }

  /** `processMoveTasks`. */
  method ProcessMoveTasks(store: Store, cfg: Config, now: int)
    requires Keyed(cfg, store.View())
    modifies store
    ensures store.View() == PassAll(old(store.View()), RunningTasks(old(store.View())), now)
    ensures Keyed(cfg, store.View())
  {
    ghost var t := store.View();
    var tasks := store.ListRunningMoveTasks();
    for i := 0 to |tasks|
      invariant Keyed(cfg, store.View())
      invariant PassAll(store.View(), tasks[i..], now) == PassAll(t, tasks, now)
    {
      assert tasks[i..][0] == tasks[i] && tasks[i..][1..] == tasks[i + 1..];
      MovePassKeyed(cfg, store.View(), tasks[i], now);
      ProcessMoveTask(store, cfg, tasks[i], now);
    }
  }

  /** `maintain`. */
  method Maintain(store: Store, cfg: Config, now: int)
    requires Keyed(cfg, store.View())
    modifies store
    ensures store.View() == Maintained(old(store.View()), now)
    ensures Keyed(cfg, store.View())
  {
    ApplyPatchesKeyed(cfg, store.View(), DuePatches(store.View(), now), now);
    ApplyDueQueueMutations(store, cfg, now);
    DropKeyed(cfg, store.View(), DropExpired(store.ledger, now));
    store.DeleteExpiredDedupEntries(now);
    var queues := store.ListQueues(cfg);
    ListedQueues(cfg, store.View());
    ReapQueues(store, cfg, queues, now);
    ProcessMoveTasks(store, cfg, now);
  }

  // ---- maintenance is a run --------------------------------------------------------------

  lemma {:induction false} ReapsLead(cfg: Config, t: Tables, queues: seq<Queue>, now: int) returns (trace: seq<Event>)
    requires Keyed(cfg, t) && QueueRows(t, queues)
    ensures Leads(cfg, t, now, trace, ReapAll(t, queues, now)) && Keyed(cfg, ReapAll(t, queues, now))
    decreases |queues|
  {
    if queues == [] {
      LeadsNowhere(cfg, t, now);
      trace := [];
    } else if queues[0].deletedAt.Some? {
      assert QueueRows(t, queues[1..]);
      trace := ReapsLead(cfg, t, queues[1..], now);
    } else {
      var q := queues[0];
      LeadsUpkeep(cfg, t, now, ReapOne(q.id));
      ReapKeepsOthers(t, q, queues, now);
      ReapKeyed(cfg, t, q, now);
      var rest := ReapsLead(cfg, Reap(t, q, now), queues[1..], now);
      LeadsOn(cfg, t, now, [Upkeep(ReapOne(q.id))], Reap(t, q, now), rest, ReapAll(t, queues, now));
      trace := [Upkeep(ReapOne(q.id))] + rest;
    }
  }

  lemma {:induction false} PassesLead(cfg: Config, t: Tables, tasks: seq<MoveTask>, now: int) returns (trace: seq<Event>)
    requires Keyed(cfg, t) && TaskRows(t, tasks)
    ensures Leads(cfg, t, now, trace, PassAll(t, tasks, now)) && Keyed(cfg, PassAll(t, tasks, now))
    decreases |tasks|
  {
    if tasks == [] {
      LeadsNowhere(cfg, t, now);
      trace := [];
    } else {
      var id := tasks[0].id;
      LeadsUpkeep(cfg, t, now, PassOne(id));
      PassKeepsOthers(t, tasks, now);
      MovePassKeyed(cfg, t, tasks[0], now);
      var rest := PassesLead(cfg, MovePass(t, tasks[0], now), tasks[1..], now);
      LeadsOn(cfg, t, now, [Upkeep(PassOne(id))], MovePass(t, tasks[0], now), rest, PassAll(t, tasks, now));
      trace := [Upkeep(PassOne(id))] + rest;
    }
  }

  lemma FirstTwoLead(cfg: Config, t: Tables, now: int) returns (trace: seq<Event>)
    requires Keyed(cfg, t)
    ensures var t1 := ApplyDue(t, now); var t2 := t1.(ledger := DropExpired(t1.ledger, now));
      trace != [] && Leads(cfg, t, now, trace, t2) && Keyed(cfg, t2)
  {
    var t1 := ApplyDue(t, now);
    LeadsUpkeep(cfg, t, now, ApplyMutations);
    ApplyPatchesKeyed(cfg, t, DuePatches(t, now), now);
    LeadsUpkeep(cfg, t1, now, DropLedger);
    DropKeyed(cfg, t1, DropExpired(t1.ledger, now));
    LeadsOn(cfg, t, now, [Upkeep(ApplyMutations)], t1, [Upkeep(DropLedger)], t1.(ledger := DropExpired(t1.ledger, now)));
    trace := [Upkeep(ApplyMutations)] + [Upkeep(DropLedger)];
  }

  /** `maintain` is a run of events, so what holds of every run holds of it. */
  lemma MaintenanceLeads(cfg: Config, t: Tables, now: int) returns (trace: seq<Event>)
    requires Keyed(cfg, t)
    ensures trace != [] && Leads(cfg, t, now, trace, Maintained(t, now))
    ensures Keyed(cfg, Maintained(t, now))
  {
    var t1 := ApplyDue(t, now);
    var t2 := t1.(ledger := DropExpired(t1.ledger, now));
    var first := FirstTwoLead(cfg, t, now);
    ListedQueues(cfg, t2);
    var reaps := ReapsLead(cfg, t2, QueuesOf(t2), now);
    LeadsOn(cfg, t, now, first, t2, reaps, AfterReaps(t, now));
    ListedTasks(AfterReaps(t, now));
    var passes := PassesLead(cfg, AfterReaps(t, now), RunningTasks(AfterReaps(t, now)), now);
    LeadsOn(cfg, t, now, first + reaps, AfterReaps(t, now), passes, Maintained(t, now));
    trace := first + reaps + passes;
  }

  // ---- maintenance draws no handles ---------------------------------------------------------

  lemma {:induction false} ReapsIssued(t: Tables, queues: seq<Queue>, now: int)
    ensures ReapAll(t, queues, now).issued == t.issued
    decreases |queues|
  {
    if queues != [] { ReapsIssued(if queues[0].deletedAt.Some? then t else Reap(t, queues[0], now), queues[1..], now); }
  }

  lemma {:induction false} PassesIssued(t: Tables, tasks: seq<MoveTask>, now: int)
    ensures PassAll(t, tasks, now).issued == t.issued
    decreases |tasks|
  {
    if tasks != [] {
      MovePassRows(t, tasks[0], now);
      PassesIssued(MovePass(t, tasks[0], now), tasks[1..], now);
    }
  }

  lemma MaintainedIssued(t: Tables, now: int)
    ensures Maintained(t, now).issued == t.issued
  {
    var t1 := ApplyDue(t, now);
    var t2 := t1.(ledger := DropExpired(t1.ledger, now));
    ApplyPatchesFrame(t, DuePatches(t, now), now);
    ReapsIssued(t2, QueuesOf(t2), now);
    PassesIssued(AfterReaps(t, now), RunningTasks(AfterReaps(t, now)), now);
  }
}
