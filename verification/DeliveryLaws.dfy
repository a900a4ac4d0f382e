/** What the candidate selection guarantees, for every list of messages. */
module DeliveryLaws {
  import opened Records
  import opened Sequences
  import opened Tables
  import opened Deliverable

  // ---- what an offered message is ---------------------------------------------

  lemma {:induction false} OffersSound(ms: seq<Message>, m: Message, now: int)
    requires m in Offers(ms, now)
    ensures m in ms && Visible(m, now) && m.groupId != ""
    ensures !Locked(Members(ms, m.groupId), now)
    decreases |ms|
  {
    if ms[0].groupId == "" {
      OffersSound(ms[1..], m, now);
      MembersOfNamed(ms, m.groupId);
    } else {
      var g := ms[0].groupId;
      if m in Chunk(Members(ms, g), now) {
        assert m in Members(ms, g);
      } else {
        OffersSound(Without(ms, g), m, now);
        MembersOfOthers(ms, g, m.groupId);
      }
    }
  }

  /** A candidate is a visible message, and on a FIFO queue no message of its group is leased. */
  lemma CandidatesSound(fifo: bool, ms: seq<Message>, max: nat, now: int, m: Message)
    requires m in Candidates(fifo, ms, max, now)
    ensures m in ms && Visible(m, now)
    ensures fifo ==> m.groupId != "" && forall other :: other in ms && other.groupId == m.groupId ==> !Leased(other, now)
  {
    if fifo {
      OffersSound(ms, m, now);
      forall other | other in ms && other.groupId == m.groupId ensures !Leased(other, now) {
        assert other in Members(ms, m.groupId);
      }
    }
  }

  lemma {:induction false} FilterDistinct<T(!new)>(xs: seq<T>, keep: T -> bool)
    requires Distinct(xs)
    ensures Distinct(Filter(xs, keep))
  {
    if xs != [] {
      FilterDistinct(xs[1..], keep);
      assert xs[0] !in xs[1..];
    }
  }

  lemma DistinctConcat<T>(xs: seq<T>, ys: seq<T>)
    requires Distinct(xs) && Distinct(ys) && forall x :: x in xs ==> x !in ys
    ensures Distinct(xs + ys)
  {
    forall i, j | 0 <= i < j < |xs + ys| ensures (xs + ys)[i] != (xs + ys)[j] {
      if i < |xs| <= j {
        assert xs[i] in xs && ys[j - |xs|] in ys;
      }
    }
  }

  lemma {:induction false} OffersDistinct(ms: seq<Message>, now: int)
    requires Distinct(ms)
    ensures Distinct(Offers(ms, now))
    decreases |ms|
  {
    if ms == [] {
    } else if ms[0].groupId == "" {
      OffersDistinct(ms[1..], now);
    } else {
      var g := ms[0].groupId;
      FilterDistinct(ms, InGroup(g));
      FilterDistinct(ms, NotInGroup(g));
      OffersDistinct(Without(ms, g), now);
      forall m | m in Chunk(Members(ms, g), now) ensures m !in Offers(Without(ms, g), now) {
        assert m in Members(ms, g);
        if m in Offers(Without(ms, g), now) { OffersSound(Without(ms, g), m, now); }
      }
      DistinctConcat(Chunk(Members(ms, g), now), Offers(Without(ms, g), now));
    }
  }

  lemma CandidatesDistinct(fifo: bool, ms: seq<Message>, max: nat, now: int)
    requires Distinct(ms)
    ensures Distinct(Candidates(fifo, ms, max, now))
  {
    OffersDistinct(ms, now);
    FilterDistinct(ms, VisibleAt(now));
  }

  // ---- order within a group -------------------------------------------------------

  ghost predicate Earlier<T>(xs: seq<T>, x: T, y: T) {
    exists i, j :: 0 <= i < j < |xs| && xs[i] == x && xs[j] == y
  }

  lemma EarlierIndex(group: seq<Message>, i: nat, j: nat)
    requires Increasing(group, SentBefore) && i < |group| && j < |group| && SentBefore(group[i], group[j])
    ensures i < j
  {
    assert j < i ==> SentBefore(group[j], group[i]);
  }

  lemma ChunkInOrder(group: seq<Message>, before: Message, m: Message, now: int)
    requires Increasing(group, SentBefore)
    requires m in Chunk(group, now) && before in group && SentBefore(before, m)
    ensures Earlier(Chunk(group, now), before, m)
  {
    var chunk := Chunk(group, now);
    var i, j := IndexOf(group, before), IndexOf(chunk, m);
    assert group[j] == chunk[j];
    EarlierIndex(group, i, j);
    assert chunk[i] == group[i];
  }

  lemma EarlierInConcat<T>(xs: seq<T>, ys: seq<T>, x: T, y: T)
    requires Earlier(xs, x, y) || Earlier(ys, x, y)
    ensures Earlier(xs + ys, x, y)
  {
    if Earlier(xs, x, y) {
      var i, j :| 0 <= i < j < |xs| && xs[i] == x && xs[j] == y;
      assert (xs + ys)[i] == x && (xs + ys)[j] == y;
    } else {
      var i, j :| 0 <= i < j < |ys| && ys[i] == x && ys[j] == y;
      assert (xs + ys)[|xs| + i] == x && (xs + ys)[|xs| + j] == y;
    }
  }

  lemma {:induction false} OffersInOrder(ms: seq<Message>, before: Message, m: Message, now: int)
    requires Increasing(ms, SentBefore)
    requires m in Offers(ms, now) && before in ms && before.groupId == m.groupId && SentBefore(before, m)
    ensures Earlier(Offers(ms, now), before, m)
    decreases |ms|
  {
    OffersSound(ms, m, now);
    if ms[0].groupId == "" {
      OffersInOrder(ms[1..], before, m, now);
    } else {
      var group, others := Members(ms, ms[0].groupId), Without(ms, ms[0].groupId);
      if m in Chunk(group, now) {
        FilterIncreasing(ms, InGroup(ms[0].groupId), SentBefore);
        assert m in group;
        ChunkInOrder(group, before, m, now);
      } else {
        FilterIncreasing(ms, NotInGroup(ms[0].groupId), SentBefore);
        OffersSound(others, m, now);
        OffersInOrder(others, before, m, now);
      }
      EarlierInConcat(Chunk(group, now), Offers(others, now), before, m);
    }
  }

  lemma EarlierInPrefix<T>(xs: seq<T>, n: nat, x: T, y: T)
    requires Distinct(xs) && Earlier(xs, x, y) && y in Take(xs, n)
    ensures Earlier(Take(xs, n), x, y)
  {
    var i, j :| 0 <= i < j < |xs| && xs[i] == x && xs[j] == y;
    var k := IndexOf(Take(xs, n), y);
    assert xs[k] == y;
    assert k == j;
    assert Take(xs, n)[i] == x;
  }

  /**
   * A FIFO queue never overtakes: with a delivered message, every earlier live message of its group
   * stands before it in the same response.
   */
  lemma FifoNeverOvertakes(ms: seq<Message>, max: nat, now: int, before: Message, m: Message)
    requires forall i, j :: 0 <= i < j < |ms| ==>
      ms[i].sentAt < ms[j].sentAt || (ms[i].sentAt == ms[j].sentAt && ms[i].rowId < ms[j].rowId)
    requires m in Candidates(true, ms, max, now)
    requires before in ms && before.groupId == m.groupId
    requires before.sentAt < m.sentAt || (before.sentAt == m.sentAt && before.rowId < m.rowId)
    ensures Earlier(Candidates(true, ms, max, now), before, m)
  {
    OffersInOrder(ms, before, m, now);
    OffersDistinct(ms, now);
    EarlierInPrefix(Offers(ms, now), max, before, m);
  }

  // ---- dropping messages that are not delivered -----------------------------------

  /** Drops none but visible messages. */
  ghost predicate KeepsHidden(ms: seq<Message>, keep: Message -> bool, now: int) {
    forall m :: m in ms && !keep(m) ==> Visible(m, now)
  }

  lemma FilterLocked(group: seq<Message>, keep: Message -> bool, now: int)
    requires KeepsHidden(group, keep, now)
    ensures Locked(Filter(group, keep), now) <==> Locked(group, now)
  {
    if Locked(group, now) {
      var m :| m in group && Leased(m, now);
      assert m in Filter(group, keep);
    }
  }

  lemma {:induction false} VisiblePrefixDropped(group: seq<Message>, keep: Message -> bool, now: int)
    requires KeepsHidden(group, keep, now)
    ensures VisiblePrefix(Filter(group, keep), now) == Filter(VisiblePrefix(group, now), keep)
  {
    if group != [] {
      VisiblePrefixDropped(group[1..], keep, now);
    }
  }

  lemma ChunkDropped(group: seq<Message>, keep: Message -> bool, now: int)
    requires KeepsHidden(group, keep, now)
    ensures Chunk(Filter(group, keep), now) == Filter(Chunk(group, now), keep)
  {
    FilterLocked(group, keep, now);
    VisiblePrefixDropped(group, keep, now);
  }

  /** A group that offers nothing can be left out. */
  lemma {:induction false} SilentGroup(ms: seq<Message>, g: string, now: int)
    requires g != "" ==> Chunk(Members(ms, g), now) == []
    ensures Offers(Without(ms, g), now) == Offers(ms, now)
    decreases |ms|
  {
    if ms == [] {
    } else if ms[0].groupId == "" {
      if g != "" { MembersOfNamed(ms, g); }
      SilentGroup(ms[1..], g, now);
    } else if ms[0].groupId == g {
    } else {
      var h := ms[0].groupId;
      MembersOfOthers(ms, g, h);
      MembersOfOthers(ms, h, g);
      FilterCommutes(ms, NotInGroup(g), NotInGroup(h));
      SilentGroup(Without(ms, h), g, now);
    }
  }

  lemma {:induction false} TakeOfDropped<T(!new)>(xs: seq<T>, ys: seq<T>, keep: T -> bool, n: nat)
    requires forall x :: x in Take(xs, n) ==> keep(x)
    ensures |xs| >= n ==> Take(Filter(xs, keep) + ys, n) == Take(xs, n)
    ensures |xs| <= n ==> Filter(xs, keep) == xs
  {
    if |xs| <= n { FilterAll(xs, keep); }
    if |xs| >= n {
      assert xs == xs[..n] + xs[n..];
      FilterConcat(xs[..n], xs[n..], keep);
      assert Take(xs, n) == xs[..n];
      FilterAll(xs[..n], keep);
    }
  }

  lemma TakeOfConcat<T>(xs: seq<T>, ys: seq<T>, n: nat)
    ensures |xs| >= n ==> Take(xs + ys, n) == Take(xs, n)
    ensures |xs| <= n ==> Take(xs + ys, n) == xs + Take(ys, n - |xs|)
  {
  }

  lemma DroppedSilent(ms: seq<Message>, g: string, keep: Message -> bool, now: int)
    requires KeepsHidden(ms, keep, now)
    requires Chunk(Members(ms, g), now) == []
    ensures Offers(Filter(ms, keep), now) == Offers(Filter(Without(ms, g), keep), now)
  {
    ChunkDropped(Members(ms, g), keep, now);
    FilterCommutes(ms, InGroup(g), keep);
    FilterCommutes(ms, NotInGroup(g), keep);
    SilentGroup(Filter(ms, keep), g, now);
  }

  lemma DroppedHeadKept(ms: seq<Message>, keep: Message -> bool, now: int)
    requires ms != [] && ms[0].groupId != "" && keep(ms[0])
    requires KeepsHidden(ms, keep, now)
    ensures var g := ms[0].groupId;
      Offers(Filter(ms, keep), now) ==
      Filter(Chunk(Members(ms, g), now), keep) + Offers(Filter(Without(ms, g), keep), now)
  {
    var g := ms[0].groupId;
    ChunkDropped(Members(ms, g), keep, now);
    FilterCommutes(ms, InGroup(g), keep);
    FilterCommutes(ms, NotInGroup(g), keep);
    assert Filter(ms, keep)[0] == ms[0];
  }

  /** The first `n` offers where the first group makes some: if they all come from it, dropping others changes nothing. */
  lemma DroppedWithin(chunk: seq<Message>, others: seq<Message>, rest: seq<Message>, keep: Message -> bool, n: nat)
    requires |chunk| >= n && forall m :: m in Take(chunk + others, n) ==> keep(m)
    ensures Take(Filter(chunk, keep) + rest, n) == Take(chunk + others, n)
  {
    TakeOfConcat(chunk, others, n);
    TakeOfDropped(chunk, rest, keep, n);
  }

  /** And if they do not, the question is about the other groups. */
  lemma DroppedBeyond(chunk: seq<Message>, others: seq<Message>, rest: seq<Message>, keep: Message -> bool, n: nat)
    requires |chunk| < n && forall m :: m in Take(chunk + others, n) ==> keep(m)
    requires Take(rest, n - |chunk|) == Take(others, n - |chunk|)
    ensures Take(Filter(chunk, keep) + rest, n) == Take(chunk + others, n)
  {
    TakeOfConcat(chunk, others, n);
    TakeOfConcat(chunk, rest, n);
    forall m | m in chunk ensures keep(m) {
      assert m in Take(chunk + others, n);
    }
    FilterAll(chunk, keep);
  }

  /** The group of the first message makes an offer, so that its first message is kept. */
  lemma FirstKept(ms: seq<Message>, keep: Message -> bool, n: nat, now: int)
    requires ms != [] && ms[0].groupId != "" && n > 0 && Chunk(Members(ms, ms[0].groupId), now) != []
    requires forall m :: m in Take(Offers(ms, now), n) ==> keep(m)
    ensures keep(ms[0])
  {
    var chunk := Chunk(Members(ms, ms[0].groupId), now);
    assert chunk[0] == ms[0] && Offers(ms, now)[0] == ms[0];
    assert Take(Offers(ms, now), n)[0] == ms[0];
  }

  lemma OffersSplit(ms: seq<Message>, now: int)
    requires ms != [] && ms[0].groupId != ""
    ensures Offers(ms, now) == Chunk(Members(ms, ms[0].groupId), now) + Offers(Without(ms, ms[0].groupId), now)
  {
  }

  /** The other groups' offers among the first `n`. */
  lemma OthersKept(chunk: seq<Message>, others: seq<Message>, keep: Message -> bool, n: nat)
    requires |chunk| < n && forall m :: m in Take(chunk + others, n) ==> keep(m)
    ensures forall m :: m in Take(others, n - |chunk|) ==> keep(m)
  {
    TakeOfConcat(chunk, others, n);
  }

  /**
   * Dropping visible messages that are not among the first `n` offers leaves the first `n` offers
   * as they were, though it may change the order in which groups first appear.
   */
  lemma {:induction false} OffersDropped(ms: seq<Message>, keep: Message -> bool, n: nat, now: int)
    requires KeepsHidden(ms, keep, now)
    requires forall m :: m in Take(Offers(ms, now), n) ==> keep(m)
    ensures Take(Offers(Filter(ms, keep), now), n) == Take(Offers(ms, now), n)
    decreases |ms|, 1
  {
    if ms == [] {
    } else if ms[0].groupId == "" {
      OffersDropped(ms[1..], keep, n, now);
    } else if n > 0 {
      OffersSplit(ms, now);
      GroupDropped(ms, keep, n, now);
    }
  }

  lemma {:induction false} GroupDropped(ms: seq<Message>, keep: Message -> bool, n: nat, now: int)
    requires ms != [] && ms[0].groupId != "" && n > 0 && KeepsHidden(ms, keep, now)
    requires forall m :: m in Take(Chunk(Members(ms, ms[0].groupId), now) + Offers(Without(ms, ms[0].groupId), now), n) ==> keep(m)
    ensures Take(Offers(Filter(ms, keep), now), n) ==
            Take(Chunk(Members(ms, ms[0].groupId), now) + Offers(Without(ms, ms[0].groupId), now), n)
    decreases |ms|, 0
  {
    var g := ms[0].groupId;
    var chunk, others := Chunk(Members(ms, g), now), Without(ms, g);
    if chunk == [] {
      assert chunk + Offers(others, now) == Offers(others, now);
      DroppedSilent(ms, g, keep, now);
      OffersDropped(others, keep, n, now);
    } else {
      OffersSplit(ms, now);
      FirstKept(ms, keep, n, now);
      DroppedHeadKept(ms, keep, now);
      if |chunk| < n {
        OthersKept(chunk, Offers(others, now), keep, n);
        OffersDropped(others, keep, n - |chunk|, now);
        DroppedBeyond(chunk, Offers(others, now), Offers(Filter(others, keep), now), keep, n);
      } else {
        DroppedWithin(chunk, Offers(others, now), Offers(Filter(others, keep), now), keep, n);
      }
    }
  }

  /** The same for either kind of queue. */
  lemma CandidatesDropped(fifo: bool, ms: seq<Message>, keep: Message -> bool, max: nat, now: int)
    requires KeepsHidden(ms, keep, now)
    requires forall m :: m in Candidates(fifo, ms, max, now) ==> keep(m)
    ensures Candidates(fifo, Filter(ms, keep), max, now) == Candidates(fifo, ms, max, now)
  {
    if fifo {
      OffersDropped(ms, keep, max, now);
    } else {
      var visible := Filter(ms, VisibleAt(now));
      FilterCommutes(ms, keep, VisibleAt(now));
      TakeOfDropped(visible, [], keep, max);
      assert Filter(visible, keep) + [] == Filter(visible, keep);
    }
  }

  // ---- how many -----------------------------------------------------------------------

  /** A standard queue hands out as many messages as it may: the first visible ones. */
  lemma StandardCount(ms: seq<Message>, max: nat, now: int)
    ensures var visible := |Filter(ms, VisibleAt(now))|;
      |Candidates(false, ms, max, now)| == if visible < max then visible else max
  {
  }
}
