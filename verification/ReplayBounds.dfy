/** How long a replayed receive attempt can hold its messages. */
module ReplayBounds {
  import opened Records
  import opened Sequences
  import opened Tables
  import opened Deliverable
  import opened Plane
  import opened LeaseBounds
  import opened Runs
  import opened Receiving
  import opened Requests
  import opened ReceiveRequests

  /** The deliveries whose receipts a replay refreshes before it comes to one that it cannot refresh. */
  ghost function RefreshedOf(t: Tables, queueId: int, response: seq<Delivery>, timeout: int, now: int): (r: seq<Delivery>)
    ensures r <= response
    ensures r == response <==> AllRefreshed(t, queueId, response, timeout, now)
    decreases |response|
  {
    if response == [] || !Refreshable(t, queueId, response[0].receiptHandle, now) then []
    else
      [response[0]] + RefreshedOf(SetLease(t, response[0].receiptHandle, LeaseEnd(now, timeout), true), queueId, response[1..], timeout, now)
  }

  /** What a replay leaves is what a successful replay of those deliveries alone leaves. */
  lemma {:induction false} RefreshedPart(t: Tables, queueId: int, response: seq<Delivery>, timeout: int, now: int)
    ensures var part := RefreshedOf(t, queueId, response, timeout, now);
      && AllRefreshed(t, queueId, part, timeout, now)
      && Refreshed(t, queueId, part, timeout, now) == Refreshed(t, queueId, response, timeout, now)
    decreases |response|
  {
    if response != [] && Refreshable(t, queueId, response[0].receiptHandle, now) {
      var t1 := SetLease(t, response[0].receiptHandle, LeaseEnd(now, timeout), true);
      RefreshedPart(t1, queueId, response[1..], timeout, now);
      var part := RefreshedOf(t, queueId, response, timeout, now);
      assert part[0] == response[0] && part[1..] == RefreshedOf(t1, queueId, response[1..], timeout, now);
    }
  }

  /** The lease under this handle ends within twelve hours of its issue. */
  ghost predicate Within(receipts: map<Handle, Receipt>, h: Handle) {
    h in receipts && receipts[h].visibilityDeadline <= receipts[h].issuedAt + MAX_LEASE
  }

  ghost predicate AllWithin(receipts: map<Handle, Receipt>, ds: seq<Delivery>) {
    forall i :: 0 <= i < |ds| ==> Within(receipts, ds[i].receiptHandle)
  }

  /** The attempt was cached when its receipts were issued, five minutes before it expires. */
  ghost predicate IssuedWith(receipts: map<Handle, Receipt>, h: Handle, expiresAt: int) {
    h in receipts && receipts[h].issuedAt == expiresAt - DEDUP_WINDOW
  }

  lemma CachedIssue(t: Tables, k: AttemptKey, h: Handle)
    requires AttemptsTied(t) && k in t.attempts && h in t.receipts
    requires exists d :: d in t.attempts[k].response && d.receiptHandle == h
    ensures IssuedWith(t.receipts, h, t.attempts[k].expiresAt)
  {
    assert Tied(k, t.attempts[k], t.receipts, t.issued);
  }

  /** One refreshed lease is within twelve hours exactly if the new deadline is within twelve hours of the caching. */
  lemma RefreshedWithin(t: Tables, queueId: int, ds: seq<Delivery>, timeout: int, now: int, i: nat, expiresAt: int)
    requires AllRefreshed(t, queueId, ds, timeout, now) && i < |ds|
    requires ds[i].receiptHandle in t.receipts ==> IssuedWith(t.receipts, ds[i].receiptHandle, expiresAt)
    ensures Within(Refreshed(t, queueId, ds, timeout, now).receipts, ds[i].receiptHandle) <==>
            now + timeout * 1000 <= expiresAt - DEDUP_WINDOW + MAX_LEASE
  {
    ReplayLeases(t, queueId, ds, timeout, now, i);
    ReplayOnlyDeadlines(t, queueId, ds, timeout, now);
  }

  /**
   * A change of visibility is refused once it would pass twelve hours from the issue, a replay is not checked. In every sound
   * state the leases that a replay refreshes, be it successful or abandoned, are within twelve hours of their issue if and only
   * if there are none or the new deadline is within twelve hours of the caching of the attempt.
   */
  lemma ReplayWithinTwelveHours(cfg: Config, t: Tables, q: Queue, r: ReceiveRequest, now: int)
    requires Sound(cfg, t, now) && Cached(t, q, r, now).Some?
    ensures var attempt, timeout := Cached(t, q, r, now).value, TimeoutOf(q, r);
      var refreshed := RefreshedOf(t, q.id, attempt.response, timeout, now);
      && (AllWithin(AfterReplay(t, q, r, now).receipts, refreshed) <==>
            refreshed == [] || now + timeout * 1000 <= attempt.expiresAt - DEDUP_WINDOW + MAX_LEASE)
      && (Replays(t, q, r, now) <==> refreshed == attempt.response)
  {
    var k, attempt, timeout := AttemptKey(q.id, r.attemptId), Cached(t, q, r, now).value, TimeoutOf(q, r);
    var refreshed := RefreshedOf(t, q.id, attempt.response, timeout, now);
    RefreshedPart(t, q.id, attempt.response, timeout, now);
    forall i | 0 <= i < |refreshed|
      ensures Within(AfterReplay(t, q, r, now).receipts, refreshed[i].receiptHandle) <==>
              now + timeout * 1000 <= attempt.expiresAt - DEDUP_WINDOW + MAX_LEASE
    {
      assert refreshed[i] == attempt.response[i];
      if refreshed[i].receiptHandle in t.receipts { CachedIssue(t, k, refreshed[i].receiptHandle); }
      RefreshedWithin(t, q.id, refreshed, timeout, now, i, attempt.expiresAt);
    }
  }

  /** The same for a replay that succeeds, over the deliveries it answers with. */
  lemma SuccessfulReplay(cfg: Config, t: Tables, q: Queue, r: ReceiveRequest, now: int)
    requires Sound(cfg, t, now) && Replays(t, q, r, now)
    ensures var attempt := Cached(t, q, r, now).value;
      AllWithin(AfterReplay(t, q, r, now).receipts, attempt.response) <==>
      attempt.response == [] || now + TimeoutOf(q, r) * 1000 <= attempt.expiresAt - DEDUP_WINDOW + MAX_LEASE
  {
    ReplayWithinTwelveHours(cfg, t, q, r, now);
  }
}
