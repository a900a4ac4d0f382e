/** The events a request consists of: all of them at the request's one instant. */
module Traces {
  import opened Records
  import opened Sequences
  import opened Tables
  import Deliverable
  import QueueAttributes
  import opened Plane
  import opened Integrity
  import opened Runs

  /** The events can happen one after the other, and take `t` to `t'`. */
  ghost predicate Leads(cfg: Config, t: Tables, now: int, trace: seq<Event>, t': Tables)
    decreases |trace|
  {
    if trace == [] then t' == t
    else Enabled(cfg, t, now, trace[0]) && Leads(cfg, Step(cfg, t, now, trace[0]), now, trace[1..], t')
  }

  lemma LeadsNowhere(cfg: Config, t: Tables, now: int)
    ensures Leads(cfg, t, now, [], t)
  {
  }

  lemma LeadsStep(cfg: Config, t: Tables, now: int, e: Event)
    requires Enabled(cfg, t, now, e)
    ensures Leads(cfg, t, now, [e], Step(cfg, t, now, e))
  {
    assert [e][1..] == [];
  }

  lemma {:induction false} LeadsOn(cfg: Config, t: Tables, now: int, a: seq<Event>, t1: Tables, b: seq<Event>, t2: Tables)
    requires Leads(cfg, t, now, a, t1) && Leads(cfg, t1, now, b, t2)
    ensures Leads(cfg, t, now, a + b, t2)
    decreases |a|
  {
    if a == [] {
      assert a + b == b;
    } else {
      assert (a + b)[0] == a[0] && (a + b)[1..] == a[1..] + b;
      LeadsOn(cfg, Step(cfg, t, now, a[0]), now, a[1..], t1, b, t2);
    }
  }

  function Ticks(now: int, trace: seq<Event>): (r: seq<Tick>)
    ensures |r| == |trace| && forall i :: 0 <= i < |r| ==> r[i] == Tick(now, trace[i])
  {
    seq(|trace|, i requires 0 <= i < |trace| => Tick(now, trace[i]))
  }

  /** A request is a run: what holds of all runs holds of all sequences of requests. */
  lemma {:induction false} RequestRuns(cfg: Config, t: Tables, before: int, now: int, trace: seq<Event>, t': Tables)
    requires Leads(cfg, t, now, trace, t') && before <= now
    ensures Legal(cfg, t, before, Ticks(now, trace)) && After(cfg, t, before, Ticks(now, trace)) == t'
    ensures trace != [] ==> EndOf(before, Ticks(now, trace)) == now
    decreases |trace|
  {
    if trace != [] {
      var t1 := Step(cfg, t, now, trace[0]);
      RequestRuns(cfg, t1, now, now, trace[1..], t');
      assert Ticks(now, trace)[0] == Tick(now, trace[0]);
      assert Ticks(now, trace)[1..] == Ticks(now, trace[1..]);
    }
  }

  /** A request that starts from a reachable state leads to a reachable state. */
  lemma ReachesOn(cfg: Config, t: Tables, before: int, now: int, trace: seq<Event>, t': Tables)
    requires Reachable(cfg, t, before) && before <= now && trace != [] && Leads(cfg, t, now, trace, t')
    ensures Reachable(cfg, t', now)
  {
    var start, run :| Legal(cfg, EMPTY, start, run) && After(cfg, EMPTY, start, run) == t && EndOf(start, run) == before;
    RequestRuns(cfg, t, before, now, trace, t');
    RunJoins(cfg, EMPTY, start, run, Ticks(now, trace));
  }

  lemma {:induction false} LeadsKeyed(cfg: Config, t: Tables, now: int, trace: seq<Event>, t': Tables)
    requires Keyed(cfg, t) && Leads(cfg, t, now, trace, t')
    ensures Keyed(cfg, t')
    decreases |trace|
  {
    if trace != [] {
      StepKeyed(cfg, t, now, trace[0]);
      LeadsKeyed(cfg, Step(cfg, t, now, trace[0]), now, trace[1..], t');
    }
  }

  lemma {:induction false} LeadsSound(cfg: Config, t: Tables, now: int, trace: seq<Event>, t': Tables)
    requires Sound(cfg, t, now) && Leads(cfg, t, now, trace, t')
    ensures Sound(cfg, t', now)
    decreases |trace|
  {
    if trace != [] {
      StepSound(cfg, t, now, Tick(now, trace[0]));
      LeadsSound(cfg, Step(cfg, t, now, trace[0]), now, trace[1..], t');
    }
  }

  // ---- the events of the handlers -------------------------------------------------------

  lemma LeadsSend(cfg: Config, t: Tables, now: int, q: Queue, entry: Entry)
    requires q.id in t.queues && t.queues[q.id] == q && q.deletedAt.None?
    ensures Leads(cfg, t, now, [OnMessages(SendOne(q.id, entry))], Send(cfg, t, q, entry, now))
  {
    LeadsStep(cfg, t, now, OnMessages(SendOne(q.id, entry)));
  }

  lemma LeadsLease(cfg: Config, t: Tables, now: int, q: Queue, max: nat, timeout: int, attemptId: string, handles: seq<Handle>)
    requires q.id in t.queues && t.queues[q.id] == q && q.deletedAt.None?
    requires 0 <= timeout <= MAX_TIMEOUT && Fresh(t, handles)
    requires forall m :: m in CandidatesOf(t, q, max, now) ==> !QueueAttributes.ShouldRedrive(cfg, q, m)
    requires |handles| == |CandidatesOf(t, q, max, now)|
    ensures Leads(cfg, t, now, [OnMessages(LeaseSome(q.id, max, timeout, attemptId, handles))],
                  Lease(t, q.id, CandidatesOf(t, q, max, now), handles, attemptId, LeaseEnd(now, timeout), now))
  {
    LeadsStep(cfg, t, now, OnMessages(LeaseSome(q.id, max, timeout, attemptId, handles)));
  }

  lemma LeadsRedrive(cfg: Config, t: Tables, now: int, q: Queue, rowId: int)
    requires q.id in t.queues && t.queues[q.id] == q && q.deletedAt.None? && RedriveTarget(cfg, t, q).Some?
    requires rowId in t.messages && t.messages[rowId].queueId == q.id && Deliverable.Visible(t.messages[rowId], now)
    requires QueueAttributes.ShouldRedrive(cfg, q, t.messages[rowId])
    ensures Leads(cfg, t, now, [OnMessages(RedriveOne(q.id, rowId))],
                  RedriveRows(t, q.arn, RedriveTarget(cfg, t, q).value.id, {rowId}, now))
  {
    LeadsStep(cfg, t, now, OnMessages(RedriveOne(q.id, rowId)));
  }

  lemma LeadsRefresh(cfg: Config, t: Tables, now: int, q: Queue, attemptId: string, handle: Handle, timeout: int)
    requires q.id in t.queues && t.queues[q.id] == q && q.deletedAt.None? && 0 <= timeout <= MAX_TIMEOUT
    requires FindAttempt(t, AttemptKey(q.id, attemptId), now).Some?
    requires exists d :: d in FindAttempt(t, AttemptKey(q.id, attemptId), now).value.response && d.receiptHandle == handle
    requires Refreshable(t, q.id, handle, now)
    ensures Leads(cfg, t, now, [OnMessages(RefreshOne(q.id, attemptId, handle, timeout))],
                  SetLease(t, handle, LeaseEnd(now, timeout), true))
  {
    LeadsStep(cfg, t, now, OnMessages(RefreshOne(q.id, attemptId, handle, timeout)));
  }

  lemma LeadsUpkeep(cfg: Config, t: Tables, now: int, e: UpkeepEvent)
    requires UpkeepEnabled(t, e)
    ensures Leads(cfg, t, now, [Upkeep(e)], UpkeepStep(t, now, e))
  {
    LeadsStep(cfg, t, now, Upkeep(e));
  }
}
