/**
 * The redrive loop in terms of the queue's redrive policy and the columns of the messages: what "received too often" comes to.
 * The policy `p` is what the library reads from the attribute; a policy without a target or with a limit of zero is none.
 */
module RedriveLimits {
  import opened Records
  import opened Sequences
  import opened Tables
  import opened QueueAttributes
  import opened Deliverable
  import opened Plane
  import opened Integrity
  import opened MoveTasks
  import opened Redrive

  /** What the redrive policy of the queue reads as. */
  function PolicyText(q: Queue): string {
    if "RedrivePolicy" in q.attributes then q.attributes["RedrivePolicy"] else ""
  }

  lemma OverLimit(cfg: Config, q: Queue, m: Message)
    ensures Over(cfg, q)(m) <==>
      var p := cfg.readRedrivePolicy(PolicyText(q));
      p.Some? && p.value.targetArn != "" && p.value.maxReceiveCount > 0 && m.receiveCount >= p.value.maxReceiveCount
  {
  }

  /** The dead-letter queue of a valid policy: the live queue with the ARN that the policy names. */
  lemma TargetNamed(cfg: Config, t: Tables, q: Queue)
    requires QueuesKeyed(cfg, t)
    ensures var p, target := cfg.readRedrivePolicy(PolicyText(q)), RedriveTarget(cfg, t, q);
      && (target.Some? ==>
            && p.Some? && p.value.targetArn != "" && p.value.maxReceiveCount > 0
            && target.value.id in t.queues && t.queues[target.value.id] == target.value
            && target.value.arn == p.value.targetArn && target.value.deletedAt.None?)
      && (target.None? && p.Some? && p.value.targetArn != "" && p.value.maxReceiveCount > 0 ==>
            forall id :: id in t.queues && t.queues[id].arn == p.value.targetArn ==> t.queues[id].deletedAt.Some?)
  {
    var p := cfg.readRedrivePolicy(PolicyText(q));
    if p.Some? && p.value.targetArn != "" && p.value.maxReceiveCount > 0 {
      var found := QueueByArn(t, p.value.targetArn);
      forall id | id in t.queues && t.queues[id].arn == p.value.targetArn ensures found == Some(t.queues[id]) {
        NamesFromUrls(cfg, t.queues[id].name, found.value.name);
      }
    }
  }

  /** When the loop stops, every selected message was received less often than the limit, if there is one. */
  lemma DeliveredBelowLimit(cfg: Config, t: Tables, q: Queue, max: nat, now: int, n: nat, m: Message)
    requires StopsAfter(cfg, t, q, max, now, n) && m in CandidatesOf(AfterRounds(cfg, t, q, max, now, n), q, max, now)
    ensures var p := cfg.readRedrivePolicy(PolicyText(q));
      p.Some? && p.value.targetArn != "" && p.value.maxReceiveCount > 0 ==> m.receiveCount < p.value.maxReceiveCount
  {
    OverLimit(cfg, q, m);
  }

  /**
   * Row by row: every row that left was deliverable, had reached the limit, and is now deliverable in the dead-letter queue with
   * its source noted and everything else as it was. No other row has changed.
   */
  lemma LeftAtLimit(cfg: Config, t: Tables, q: Queue, max: nat, now: int, n: nat, id: int)
    requires MessagesKeyed(t) && QueuesKeyed(cfg, t) && Diverts(cfg, t, q) && id in t.messages
    ensures var p, m, t' := cfg.readRedrivePolicy(PolicyText(q)), t.messages[id], AfterRounds(cfg, t, q, max, now, n);
      && p.Some? && id in t'.messages
      && if id in Left(cfg, t, q, max, now, n) then
           && m.queueId == q.id && m.deletedAt.None? && m.retentionDeadline > now && m.availableAt <= now
           && (m.visibilityDeadline.Some? ==> m.visibilityDeadline.value <= now)
           && m.receiveCount >= p.value.maxReceiveCount
           && t'.messages[id] == m.(queueId := RedriveTarget(cfg, t, q).value.id, availableAt := now, visibilityDeadline := None,
                                    deadLetterSourceArn := q.arn)
         else t'.messages[id] == m
  {
    RoundsRedrive(cfg, t, q, max, now, n);
    OverLimit(cfg, q, t.messages[id]);
    assert id in Left(cfg, t, q, max, now, n) ==> id in Redrivable(cfg, t, q, now);
  }

  /** Without a valid policy nothing is too much: the first scan is the last, and no table changes. */
  lemma NoPolicyNoRedrive(cfg: Config, t: Tables, q: Queue, max: nat, now: int, n: nat)
    requires MessagesKeyed(t)
    requires var p := cfg.readRedrivePolicy(PolicyText(q));
      p.None? || p.value.targetArn == "" || p.value.maxReceiveCount <= 0
    ensures StopsAfter(cfg, t, q, max, now, 0) && AfterRounds(cfg, t, q, max, now, n) == t
  {
    SettledStays(cfg, t, q, max, now, n);
  }

  /**
   * The loop ends if and only if the first scan selects nothing at the limit, or the policy names a live queue other than
   * this one.
   */
  lemma EndsExactly(cfg: Config, t: Tables, q: Queue, max: nat, now: int)
    requires MessagesKeyed(t) && QueuesKeyed(cfg, t)
    ensures var p := cfg.readRedrivePolicy(PolicyText(q));
      (exists n: nat :: StopsAfter(cfg, t, q, max, now, n)) <==>
      || p.None? || p.value.targetArn == "" || p.value.maxReceiveCount <= 0
      || (forall m :: m in CandidatesOf(t, q, max, now) ==> m.receiveCount < p.value.maxReceiveCount)
      || (exists id :: id in t.queues && t.queues[id].arn == p.value.targetArn && t.queues[id].deletedAt.None? && id != q.id)
  {
    var p := cfg.readRedrivePolicy(PolicyText(q));
    LoopEnds(cfg, t, q, max, now);
    TargetNamed(cfg, t, q);
    if p.Some? && p.value.targetArn != "" && p.value.maxReceiveCount > 0 {
      forall id | id in t.queues && t.queues[id].arn == p.value.targetArn && t.queues[id].deletedAt.None?
        ensures RedriveTarget(cfg, t, q) == Some(t.queues[id])
      {
        NamesFromUrls(cfg, t.queues[id].name, RedriveTarget(cfg, t, q).value.name);
      }
    }
  }

  /** Leaving out what is not fit is leaving out what the columns say. */
  lemma KeptAlike(cfg: Config, q: Queue, live: seq<Message>, now: int, p: RedrivePolicy, kept: Message -> bool)
    requires cfg.readRedrivePolicy(PolicyText(q)) == Some(p) && p.targetArn != "" && p.maxReceiveCount > 0
    requires forall m :: m in live ==> Live(m, now)
    requires forall m :: m in live ==> kept(m) == !(m.availableAt <= now && !Leased(m, now) && m.receiveCount >= p.maxReceiveCount)
    ensures Filter(live, Deliverables(cfg, q, now)) == Filter(live, kept)
  {
    forall m | m in live ensures Deliverables(cfg, q, now)(m) == kept(m) {
      OverLimit(cfg, q, m);
    }
    FilterAgree(live, Deliverables(cfg, q, now), kept);
  }

  /**
   * What the loop selects, on either kind of queue, is what one pass over the original live messages selects once every
   * deliverable message at or over the limit is left out.
   */
  lemma OnePass(cfg: Config, t: Tables, q: Queue, max: nat, now: int, n: nat, p: RedrivePolicy)
    requires MessagesKeyed(t) && QueuesKeyed(cfg, t) && Diverts(cfg, t, q) && StopsAfter(cfg, t, q, max, now, n)
    requires cfg.readRedrivePolicy(PolicyText(q)) == Some(p)
    ensures CandidatesOf(AfterRounds(cfg, t, q, max, now, n), q, max, now) ==
            Candidates(q.fifo, Filter(LiveOf(t, q.id, now), (m: Message) =>
              !(m.availableAt <= now && (m.visibilityDeadline.Some? ==> m.visibilityDeadline.value <= now)
                && m.receiveCount >= p.maxReceiveCount)), max, now)
  {
    OnePassFit(cfg, t, q, max, now, n);
    LiveRows(t, q.id, now);
    var kept := (m: Message) => !(m.availableAt <= now && (m.visibilityDeadline.Some? ==> m.visibilityDeadline.value <= now)
                                  && m.receiveCount >= p.maxReceiveCount);
    TargetNamed(cfg, t, q);
    KeptAlike(cfg, q, LiveOf(t, q.id, now), now, p, kept);
  }

  /**
   * Exactly which messages leave a standard queue when the loop ends: of those at or over the limit, the deliverable ones with
   * fewer than `max` deliverable ones below the limit before them.
   */
  lemma StandardLeaves(cfg: Config, t: Tables, q: Queue, max: nat, now: int, n: nat, p: RedrivePolicy, i: nat)
    requires MessagesKeyed(t) && QueuesKeyed(cfg, t) && Diverts(cfg, t, q) && !q.fifo && StopsAfter(cfg, t, q, max, now, n)
    requires cfg.readRedrivePolicy(PolicyText(q)) == Some(p) && i < |LiveOf(t, q.id, now)|
    ensures var m, before := LiveOf(t, q.id, now)[i], LiveOf(t, q.id, now)[..i];
      m.rowId in Left(cfg, t, q, max, now, n) <==>
      && m.availableAt <= now && (m.visibilityDeadline.Some? ==> m.visibilityDeadline.value <= now)
      && m.receiveCount >= p.maxReceiveCount
      && |Filter(before, (x: Message) =>
            && x.availableAt <= now && (x.visibilityDeadline.Some? ==> x.visibilityDeadline.value <= now)
            && x.receiveCount < p.maxReceiveCount)| < max
  {
    var live := LiveOf(t, q.id, now);
    StandardLeft(cfg, t, q, max, now, n, i);
    LiveRows(t, q.id, now);
    var below := (x: Message) =>
      && x.availableAt <= now && (x.visibilityDeadline.Some? ==> x.visibilityDeadline.value <= now)
      && x.receiveCount < p.maxReceiveCount;
    forall m | m in live ensures Live(m, now) && Fit(cfg, q, now)(m) == below(m) {
      OverLimit(cfg, q, m);
    }
    assert live[i] in live && forall m :: m in live[..i] ==> m in live;
    FilterAgree(live[..i], Fit(cfg, q, now), below);
  }
}
