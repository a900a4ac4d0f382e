/** Runs: any sequence of events, at instants that never go backwards. */
module Runs {
  import opened Records
  import opened Sequences
  import opened Tables
  import opened Plane
  import opened Integrity
  import opened Leases
  import opened LeaseBounds
  import opened FifoLocks

  datatype Tick = Tick(at: int, event: Event)

  /** The run can happen from `t`, where it is `now`. */
  ghost predicate Legal(cfg: Config, t: Tables, now: int, run: seq<Tick>)
    decreases |run|
  {
    run == [] || (
      && now <= run[0].at && Enabled(cfg, t, run[0].at, run[0].event)
      && Legal(cfg, Step(cfg, t, run[0].at, run[0].event), run[0].at, run[1..]))
  }

  ghost function After(cfg: Config, t: Tables, now: int, run: seq<Tick>): Tables
    requires Legal(cfg, t, now, run)
    decreases |run|
  {
    if run == [] then t
    else After(cfg, Step(cfg, t, run[0].at, run[0].event), run[0].at, run[1..])
  }

  function EndOf(now: int, run: seq<Tick>): int {
    if run == [] then now else run[|run| - 1].at
  }

  lemma {:induction false} RunsOn(cfg: Config, t: Tables, now: int, run: seq<Tick>)
    requires Legal(cfg, t, now, run)
    ensures now <= EndOf(now, run)
    decreases |run|
  {
    if run != [] {
      RunsOn(cfg, Step(cfg, t, run[0].at, run[0].event), run[0].at, run[1..]);
    }
  }

  /** A run is its first part and then the rest. */
  lemma {:induction false} RunSplits(cfg: Config, t: Tables, now: int, run: seq<Tick>, n: nat)
    requires Legal(cfg, t, now, run) && n <= |run|
    ensures Legal(cfg, t, now, run[..n])
    ensures Legal(cfg, After(cfg, t, now, run[..n]), EndOf(now, run[..n]), run[n..])
    ensures After(cfg, After(cfg, t, now, run[..n]), EndOf(now, run[..n]), run[n..]) == After(cfg, t, now, run)
    decreases |run|
  {
    if n == 0 {
      assert run[..0] == [] && run[0..] == run;
    } else {
      var first, rest := run[..n], run[1..];
      RunSplits(cfg, Step(cfg, t, run[0].at, run[0].event), run[0].at, rest, n - 1);
      assert first[0] == run[0] && first[1..] == rest[..n - 1] && run[n..] == rest[n - 1..];
      assert EndOf(run[0].at, first[1..]) == EndOf(now, first);
    }
  }

  /** A run and then another one from where it ended are a run. */
  lemma RunJoins(cfg: Config, t: Tables, now: int, a: seq<Tick>, b: seq<Tick>)
    requires Legal(cfg, t, now, a) && Legal(cfg, After(cfg, t, now, a), EndOf(now, a), b)
    ensures Legal(cfg, t, now, a + b)
    ensures After(cfg, t, now, a + b) == After(cfg, After(cfg, t, now, a), EndOf(now, a), b)
    ensures EndOf(now, a + b) == EndOf(EndOf(now, a), b)
  {
    RunGoesOn(cfg, t, now, a, After(cfg, t, now, a), EndOf(now, a), b);
  }

  lemma {:induction false} RunGoesOn(cfg: Config, t: Tables, now: int, a: seq<Tick>, u: Tables, at: int, b: seq<Tick>)
    requires Legal(cfg, t, now, a) && After(cfg, t, now, a) == u && EndOf(now, a) == at && Legal(cfg, u, at, b)
    ensures Legal(cfg, t, now, a + b) && After(cfg, t, now, a + b) == After(cfg, u, at, b)
    decreases |a|
  {
    if a == [] {
      assert a + b == b;
    } else {
      var first, rest := a[0], a[1..];
      Tails(a, b);
      RunHead(cfg, t, now, a);
      RunGoesOn(cfg, Step(cfg, t, first.at, first.event), first.at, rest, u, at, b);
      RunCons(cfg, t, now, first, rest + b, a + b);
    }
  }

  lemma Tails(a: seq<Tick>, b: seq<Tick>)
    requires a != []
    ensures a + b != [] && (a + b)[0] == a[0] && (a + b)[1..] == a[1..] + b
  {
  }

  lemma RunHead(cfg: Config, t: Tables, now: int, a: seq<Tick>)
    requires Legal(cfg, t, now, a) && a != []
    ensures now <= a[0].at && Enabled(cfg, t, a[0].at, a[0].event)
    ensures var t1 := Step(cfg, t, a[0].at, a[0].event);
      && Legal(cfg, t1, a[0].at, a[1..]) && After(cfg, t, now, a) == After(cfg, t1, a[0].at, a[1..])
      && EndOf(now, a) == EndOf(a[0].at, a[1..])
  {
  }

  lemma RunCons(cfg: Config, t: Tables, now: int, first: Tick, rest: seq<Tick>, all: seq<Tick>)
    requires now <= first.at && Enabled(cfg, t, first.at, first.event) && all != [] && all[0] == first && all[1..] == rest
    requires Legal(cfg, Step(cfg, t, first.at, first.event), first.at, rest)
    ensures Legal(cfg, t, now, all)
    ensures After(cfg, t, now, all) == After(cfg, Step(cfg, t, first.at, first.event), first.at, rest)
  {
  }

  /** Every invariant of the tables together. */
  ghost predicate Sound(cfg: Config, t: Tables, now: int) {
    && Keyed(cfg, t) && Referenced(t)
    && LeaseAgreement(t) && LeasesBounded(t) && AttemptsTied(t)
    && GroupsExclusive(t, now)
  }

  lemma StepSound(cfg: Config, t: Tables, now: int, tick: Tick)
    requires Sound(cfg, t, now) && now <= tick.at && Enabled(cfg, t, tick.at, tick.event)
    ensures Sound(cfg, Step(cfg, t, tick.at, tick.event), tick.at)
  {
    ExclusiveLater(t, now, tick.at);
    StepKeyed(cfg, t, tick.at, tick.event);
    StepReferenced(cfg, t, tick.at, tick.event);
    StepAgreement(cfg, t, tick.at, tick.event);
    StepBounds(cfg, t, tick.at, tick.event);
    StepExclusive(cfg, t, tick.at, tick.event);
  }

  lemma {:induction false} RunSound(cfg: Config, t: Tables, now: int, run: seq<Tick>)
    requires Sound(cfg, t, now) && Legal(cfg, t, now, run)
    ensures Sound(cfg, After(cfg, t, now, run), EndOf(now, run))
    decreases |run|
  {
    if run != [] {
      StepSound(cfg, t, now, run[0]);
      RunSound(cfg, Step(cfg, t, run[0].at, run[0].event), run[0].at, run[1..]);
    }
  }

  /** The state a run from the empty store leads to. */
  ghost predicate Reachable(cfg: Config, t: Tables, now: int) {
    exists start, run :: Legal(cfg, EMPTY, start, run) && After(cfg, EMPTY, start, run) == t && EndOf(start, run) == now
  }

  /**
   * In every reachable state the leases of the two tables agree, no lease is longer than its bound, every
   * cached attempt names receipts of its queue, every message is in a queue, and the unexpired leases on one
   * group of a FIFO queue come from one receive call.
   */
  lemma ReachableSound(cfg: Config, t: Tables, now: int)
    requires Reachable(cfg, t, now)
    ensures Keyed(cfg, t) && Referenced(t)
    ensures LeaseAgreement(t) && LeasesBounded(t) && AttemptsTied(t)
    ensures GroupsExclusive(t, now)
  {
    var start, run :| Legal(cfg, EMPTY, start, run) && After(cfg, EMPTY, start, run) == t && EndOf(start, run) == now;
    RunSound(cfg, EMPTY, start, run);
  }
}
