/** Which messages a receive call may deliver, and in what order. */
module Deliverable {
  import opened Records
  import opened Sequences
  import opened Tables

  predicate Live(m: Message, now: int) {
    m.deletedAt.None? && m.retentionDeadline > now
  }

  /** Held by an unexpired lease. */
  predicate Leased(m: Message, now: int) {
    m.visibilityDeadline.Some? && m.visibilityDeadline.value > now
  }

  predicate Visible(m: Message, now: int) {
    Live(m, now) && m.availableAt <= now && !Leased(m, now)
  }

  function LiveAt(now: int): Message -> bool { (m: Message) => Live(m, now) }

  function VisibleAt(now: int): Message -> bool { (m: Message) => Visible(m, now) }

  function InGroup(group: string): Message -> bool { (m: Message) => m.groupId == group }

  function NotInGroup(group: string): Message -> bool { (m: Message) => m.groupId != group }

  function Members(ms: seq<Message>, group: string): seq<Message> { Filter(ms, InGroup(group)) }

  function Without(ms: seq<Message>, group: string): seq<Message> { Filter(ms, NotInGroup(group)) }

  function VisiblePrefix(ms: seq<Message>, now: int): (r: seq<Message>)
    ensures r <= ms
    ensures forall m :: m in r ==> Visible(m, now)
    ensures |r| < |ms| ==> !Visible(ms[|r|], now)
  {
    if ms == [] || !Visible(ms[0], now) then [] else [ms[0]] + VisiblePrefix(ms[1..], now)
  }

  predicate Locked(ms: seq<Message>, now: int) {
    exists m :: m in ms && Leased(m, now)
  }

  /** What one group offers: nothing while any of its messages is leased, else its longest visible prefix. */
  function Chunk(group: seq<Message>, now: int): (r: seq<Message>)
    ensures r <= group
    ensures forall m :: m in r ==> Visible(m, now)
  {
    if Locked(group, now) then [] else VisiblePrefix(group, now)
  }

  /** The groups' offers, group after group in the order in which the groups first appear. */
  function Offers(ms: seq<Message>, now: int): seq<Message>
    decreases |ms|
  {
    if ms == [] then []
    else if ms[0].groupId == "" then Offers(ms[1..], now)
    else Chunk(Members(ms, ms[0].groupId), now) + Offers(Without(ms, ms[0].groupId), now)
  }

  function Candidates(fifo: bool, ms: seq<Message>, max: nat, now: int): seq<Message> {
    Take(if fifo then Offers(ms, now) else Filter(ms, VisibleAt(now)), max)
  }

  // ---- the loops that compute them --------------------------------------------

  /** `liveMessages`: a filtering loop, then a stable sort by (sent_at, id). */
  method LiveMessages(ms: seq<Message>, now: int) returns (r: seq<Message>)
    ensures r == Sort(Filter(ms, LiveAt(now)), SentBefore)
    ensures multiset(r) == multiset(Filter(ms, LiveAt(now)))
    ensures forall m :: m in r <==> m in ms && m.deletedAt.None? && m.retentionDeadline > now
    ensures forall i, j :: 0 <= i < j < |r| ==>
      r[i].sentAt < r[j].sentAt || (r[i].sentAt == r[j].sentAt && r[i].rowId <= r[j].rowId)
  {
    var out := [];
    for i := 0 to |ms|
      invariant out == Filter(ms[..i], LiveAt(now))
    {
      FilterSnoc(ms, i, LiveAt(now));
      if Live(ms[i], now) {
        out := out + [ms[i]];
      }
    }
    assert ms[..|ms|] == ms;
    r := Sort(out, SentBefore);
    SortPermutes(out, SentBefore);
    SortOrdered(out, SentBefore);
    SameMembers(r, out);
  }

  lemma {:induction false} FilterIncreasing<T(!new)>(xs: seq<T>, keep: T -> bool, less: (T, T) -> bool)
    requires Increasing(xs, less)
    ensures Increasing(Filter(xs, keep), less)
  {
    if xs != [] {
      FilterIncreasing(xs[1..], keep, less);
      assert forall y :: y in xs[1..] ==> less(xs[0], y);
    }
  }

  /** On a listing the sort has nothing to do. */
  lemma LiveOfListing(ms: seq<Message>, now: int)
    requires Increasing(ms, SentBefore)
    ensures Sort(Filter(ms, LiveAt(now)), SentBefore) == Filter(ms, LiveAt(now))
  {
    FilterIncreasing(ms, LiveAt(now), SentBefore);
    SortOfIncreasing(Filter(ms, LiveAt(now)), SentBefore);
  }

  /** Group names in the order of their first message. */
  ghost function Heads(ms: seq<Message>): (r: seq<string>)
    ensures forall g :: g in r <==> g != "" && exists m :: m in ms && m.groupId == g
    decreases |ms|
  {
    if ms == [] then []
    else if ms[0].groupId == "" then
      assert forall m :: m in ms <==> m == ms[0] || m in ms[1..];
      Heads(ms[1..])
    else
      [ms[0].groupId] + Heads(Without(ms, ms[0].groupId))
  }

  lemma WithoutSnoc(ms: seq<Message>, m: Message, g: string)
    ensures Without(ms + [m], g) == Without(ms, g) + if m.groupId == g then [] else [m]
  {
    FilterConcat(ms, [m], NotInGroup(g));
  }

  lemma HeadsOne(m: Message)
    ensures Heads([m]) == if m.groupId == "" then [] else [m.groupId]
  {
    assert [m][1..] == [];
    if m.groupId != "" { FilterNone([m], NotInGroup(m.groupId)); }
  }

  lemma HeadsCons(ms: seq<Message>)
    requires ms != []
    ensures Heads(ms) == if ms[0].groupId == "" then Heads(ms[1..]) else [ms[0].groupId] + Heads(Without(ms, ms[0].groupId))
  {
  }

  /** The heads after one more message: its group is new or not. */
  function HeadsWith(heads: seq<string>, m: Message): seq<string> {
    if m.groupId == "" || m.groupId in heads then heads else heads + [m.groupId]
  }

  lemma HeadsWithFront(g: string, heads: seq<string>, m: Message)
    requires g != "" && g !in heads
    ensures HeadsWith([g] + heads, m) == [g] + if m.groupId == g then heads else HeadsWith(heads, m)
  {
  }

  lemma {:induction false} HeadsSnoc(ms: seq<Message>, m: Message)
    ensures Heads(ms + [m]) == HeadsWith(Heads(ms), m)
    decreases |ms|, 1
  {
    if ms == [] {
      assert ms + [m] == [m];
      HeadsOne(m);
    } else {
      assert (ms + [m])[0] == ms[0] && (ms + [m])[1..] == ms[1..] + [m];
      HeadsCons(ms + [m]);
      HeadsCons(ms);
      if ms[0].groupId == "" {
        HeadsSnoc(ms[1..], m);
      } else {
        HeadsSnocNamed(ms, m);
      }
    }
  }

  lemma {:induction false} HeadsSnocNamed(ms: seq<Message>, m: Message)
    requires ms != [] && ms[0].groupId != ""
    ensures var g := ms[0].groupId; [g] + Heads(Without(ms + [m], g)) == HeadsWith([g] + Heads(Without(ms, g)), m)
    decreases |ms|, 0
  {
    var g := ms[0].groupId;
    WithoutSnoc(ms, m, g);
    HeadsWithFront(g, Heads(Without(ms, g)), m);
    if m.groupId == g {
      assert Without(ms, g) + [] == Without(ms, g);
    } else {
      HeadsSnoc(Without(ms, g), m);
    }
  }

  ghost function ChunksOf(groups: seq<string>, ms: seq<Message>, now: int): seq<Message> {
    if groups == [] then [] else Chunk(Members(ms, groups[0]), now) + ChunksOf(groups[1..], ms, now)
  }

  lemma MembersOfOthers(ms: seq<Message>, g: string, h: string)
    requires g != h
    ensures Members(Without(ms, g), h) == Members(ms, h)
  {
    FilterTwice(ms, NotInGroup(g), InGroup(h), InGroup(h));
  }

  lemma {:induction false} ChunksOfOthers(groups: seq<string>, ms: seq<Message>, g: string, now: int)
    requires g !in groups
    ensures ChunksOf(groups, Without(ms, g), now) == ChunksOf(groups, ms, now)
  {
    if groups != [] {
      MembersOfOthers(ms, g, groups[0]);
      ChunksOfOthers(groups[1..], ms, g, now);
    }
  }

  lemma {:induction false} MembersOfNamed(ms: seq<Message>, h: string)
    requires ms != [] && ms[0].groupId != h
    ensures Members(ms[1..], h) == Members(ms, h)
  {
  }

  lemma {:induction false} ChunksOfTail(groups: seq<string>, ms: seq<Message>, now: int)
    requires ms != [] && ms[0].groupId !in groups
    ensures ChunksOf(groups, ms[1..], now) == ChunksOf(groups, ms, now)
  {
    if groups != [] {
      MembersOfNamed(ms, groups[0]);
      ChunksOfTail(groups[1..], ms, now);
    }
  }

  /** Visiting the groups in first-appearance order makes exactly the declared offers. */
  lemma {:induction false} OffersByGroup(ms: seq<Message>, now: int)
    ensures ChunksOf(Heads(ms), ms, now) == Offers(ms, now)
    decreases |ms|
  {
    if ms == [] {
    } else if ms[0].groupId == "" {
      OffersByGroup(ms[1..], now);
      ChunksOfTail(Heads(ms), ms, now);
    } else {
      var g := ms[0].groupId;
      OffersByGroup(Without(ms, g), now);
      ChunksOfOthers(Heads(Without(ms, g)), ms, g, now);
      assert Heads(ms)[1..] == Heads(Without(ms, g));
    }
  }

  lemma {:induction false} ChunksConcat(a: seq<string>, b: seq<string>, ms: seq<Message>, now: int)
    ensures ChunksOf(a + b, ms, now) == ChunksOf(a, ms, now) + ChunksOf(b, ms, now)
  {
    if a == [] {
      assert a + b == b;
    } else {
      assert (a + b)[1..] == a[1..] + b;
      ChunksConcat(a[1..], b, ms, now);
    }
  }

  lemma ChunksSnoc(groups: seq<string>, n: nat, ms: seq<Message>, now: int)
    requires n < |groups|
    ensures ChunksOf(groups[..n + 1], ms, now) == ChunksOf(groups[..n], ms, now) + Chunk(Members(ms, groups[n]), now)
  {
    assert groups[..n + 1] == groups[..n] + [groups[n]];
    ChunksConcat(groups[..n], [groups[n]], ms, now);
    assert ChunksOf([groups[n]], ms, now) == Chunk(Members(ms, groups[n]), now);
  }

  lemma ChunksPrefix(groups: seq<string>, n: nat, ms: seq<Message>, now: int)
    requires n <= |groups|
    ensures ChunksOf(groups[..n], ms, now) <= ChunksOf(groups, ms, now)
  {
    assert groups == groups[..n] + groups[n..];
    ChunksConcat(groups[..n], groups[n..], ms, now);
  }

  lemma MembersSnoc(ms: seq<Message>, m: Message, g: string)
    ensures Members(ms + [m], g) == Members(ms, g) + (if m.groupId == g then [m] else [])
  {
    FilterConcat(ms, [m], InGroup(g));
  }

  /** `groups` indexes the messages seen by their group. */
  ghost predicate Indexed(ms: seq<Message>, groups: map<string, seq<Message>>) {
    && (forall m :: m in ms && m.groupId != "" ==> m.groupId in groups)
    && (forall g :: g in groups ==> g != "" && groups[g] != [] && groups[g] == Members(ms, g))
  }

  ghost predicate LockedGroups(ms: seq<Message>, now: int, locked: set<string>) {
    forall g :: g in locked <==> g != "" && Locked(Members(ms, g), now)
  }

  lemma IndexedNames(ms: seq<Message>, groups: map<string, seq<Message>>, g: string)
    requires Indexed(ms, groups)
    ensures g in groups <==> g in Heads(ms)
    ensures g != "" && g !in groups ==> Members(ms, g) == []
  {
    if g in groups {
      assert groups[g][0] in Members(ms, g);
    } else if g != "" {
      FilterNone(ms, InGroup(g));
    }
  }

  lemma IndexedStep(ms: seq<Message>, m: Message, groups: map<string, seq<Message>>, added: seq<Message>)
    requires Indexed(ms, groups)
    requires m.groupId != "" ==> added == Members(ms, m.groupId) + [m]
    ensures Indexed(ms + [m], if m.groupId == "" then groups else groups[m.groupId := added])
  {
    forall g | g in groups ensures Members(ms + [m], g) == Members(ms, g) + (if m.groupId == g then [m] else []) {
      MembersSnoc(ms, m, g);
    }
    MembersSnoc(ms, m, m.groupId);
  }

  lemma LockedStep(ms: seq<Message>, m: Message, now: int, locked: set<string>)
    requires LockedGroups(ms, now, locked)
    ensures LockedGroups(ms + [m], now, if m.groupId != "" && Leased(m, now) then locked + {m.groupId} else locked)
  {
    forall g ensures Locked(Members(ms + [m], g), now) <==> Locked(Members(ms, g), now) || (m.groupId == g && Leased(m, now)) {
      MembersSnoc(ms, m, g);
      var before, after := Members(ms, g), Members(ms + [m], g);
      assert forall x :: x in after <==> x in before || (m.groupId == g && x == m);
    }
  }

  /** What the first loop of `fifoCandidateMessages` has found in the messages it has seen. */
  datatype Grouping = Grouping(order: seq<string>, groups: map<string, seq<Message>>, locked: set<string>)

  ghost predicate Groups(ms: seq<Message>, now: int, g: Grouping) {
    g.order == Heads(ms) && Indexed(ms, g.groups) && LockedGroups(ms, now, g.locked)
  }

  /** The body of the loop. */
  function AddToGroups(g: Grouping, m: Message, now: int): Grouping {
    if m.groupId == "" then g
    else
      var locked := if Leased(m, now) then g.locked + {m.groupId} else g.locked;
      if m.groupId !in g.groups then Grouping(g.order + [m.groupId], g.groups[m.groupId := [m]], locked)
      else Grouping(g.order, g.groups[m.groupId := g.groups[m.groupId] + [m]], locked)
  }

  lemma GroupsStep(ms: seq<Message>, now: int, g: Grouping, m: Message)
    requires Groups(ms, now, g)
    ensures Groups(ms + [m], now, AddToGroups(g, m, now))
  {
    HeadsSnoc(ms, m);
    IndexedNames(ms, g.groups, m.groupId);
    IndexedStep(ms, m, g.groups, Members(ms, m.groupId) + [m]);
    LockedStep(ms, m, now, g.locked);
  }

  /** The first loop of `fifoCandidateMessages`: the groups, their order and the locked ones. */
  method GroupMessages(ms: seq<Message>, now: int)
    returns (order: seq<string>, groups: map<string, seq<Message>>, locked: set<string>)
    ensures order == Heads(ms) && Indexed(ms, groups) && LockedGroups(ms, now, locked)
  {
    order, groups, locked := [], map[], {};
    for i := 0 to |ms|
      invariant Groups(ms[..i], now, Grouping(order, groups, locked))
    {
      var m := ms[i];
      assert ms[..i + 1] == ms[..i] + [m];
      GroupsStep(ms[..i], now, Grouping(order, groups, locked), m);
      if m.groupId == "" {
        continue;
      }
      if Leased(m, now) {
        locked := locked + {m.groupId};
      }
      if m.groupId !in groups {
        groups := groups[m.groupId := [m]];
        order := order + [m.groupId];
        continue;
      }
      groups := groups[m.groupId := groups[m.groupId] + [m]];
    }
    assert ms[..|ms|] == ms;
  }

  lemma ChunksDone(order: seq<string>, i: nat, ms: seq<Message>, max: nat, now: int)
    requires order == Heads(ms) && i <= |order|
    requires i == |order| || |Take(ChunksOf(order[..i], ms, now), max)| == max
    ensures Take(ChunksOf(order[..i], ms, now), max) == Candidates(true, ms, max, now)
  {
    assert order[..|order|] == order;
    ChunksPrefix(order, i, ms, now);
    OffersByGroup(ms, now);
  }

  /** `fifoCandidateMessages`. */
  method FifoCandidateMessages(ms: seq<Message>, max: nat, now: int) returns (out: seq<Message>)
    ensures out == Candidates(true, ms, max, now)
  {
    var order, groups, locked := GroupMessages(ms, now);
    out := [];
    var i := 0;
    while i < |order|
      invariant 0 <= i <= |order|
      invariant out == Take(ChunksOf(order[..i], ms, now), max)
    {
      if |out| == max {
        break;
      }
      var group := order[i];
      ChunksSnoc(order, i, ms, now);
      out := AppendOffer(group, groups, locked, ms, out, max, now);
      i := i + 1;
    }
    ChunksDone(order, i, ms, max, now);
  }

  /** The body of the second loop of `fifoCandidateMessages`: one group's turn. */
  method AppendOffer(group: string, groups: map<string, seq<Message>>, locked: set<string>,
        ghost ms: seq<Message>, taken: seq<Message>, max: nat, now: int)
    returns (out: seq<Message>)
    requires Indexed(ms, groups) && LockedGroups(ms, now, locked)
    requires group in Heads(ms) && |taken| <= max
    ensures out == Take(taken + Chunk(Members(ms, group), now), max)
  {
    IndexedNames(ms, groups, group);
    out := taken;
    if group !in locked && groups[group] != [] && Visible(groups[group][0], now) {
      out := AppendVisiblePrefix(out, groups[group], max, now);
    }
  }

  /** The inner loop of `fifoCandidateMessages`: take from one group until full or a message is not visible. */
  method AppendVisiblePrefix(taken: seq<Message>, group: seq<Message>, max: nat, now: int) returns (out: seq<Message>)
    requires |taken| <= max
    ensures out == Take(taken + VisiblePrefix(group, now), max)
  {
    out := taken;
    var j := 0;
    while j < |group|
      invariant 0 <= j <= |VisiblePrefix(group, now)|
      invariant out == taken + VisiblePrefix(group, now)[..j] && |out| <= max
    {
      if |out| == max || !Visible(group[j], now) {
        break;
      }
      VisiblePrefixAt(group, j, now);
      out := out + [group[j]];
      j := j + 1;
    }
    if j < |group| && |out| < max {
      VisiblePrefixAt(group, j, now);
    }
  }

  lemma {:induction false} VisiblePrefixAt(group: seq<Message>, j: nat, now: int)
    requires j < |group| && j <= |VisiblePrefix(group, now)|
    ensures Visible(group[j], now) <==> j < |VisiblePrefix(group, now)|
  {
    if j > 0 { VisiblePrefixAt(group[1..], j - 1, now); }
  }

  lemma VisibleSnoc(sorted: seq<Message>, i: nat, now: int)
    requires i < |sorted|
    ensures Filter(sorted[..i + 1], VisibleAt(now)) ==
            if Visible(sorted[i], now) then Filter(sorted[..i], VisibleAt(now)) + [sorted[i]] else Filter(sorted[..i], VisibleAt(now))
  {
    FilterSnoc(sorted, i, VisibleAt(now));
    assert Filter(sorted[..i], VisibleAt(now)) + [] == Filter(sorted[..i], VisibleAt(now));
  }

  /** As soon as there are enough, the rest does not matter. */
  lemma EnoughVisible(sorted: seq<Message>, n: nat, max: nat, now: int)
    requires n <= |sorted| && |Filter(sorted[..n], VisibleAt(now))| == max
    ensures Filter(sorted[..n], VisibleAt(now)) == Candidates(false, sorted, max, now)
  {
    FilterFirst(sorted, n, VisibleAt(now));
  }

  lemma AllVisible(sorted: seq<Message>, max: nat, now: int)
    requires |Filter(sorted, VisibleAt(now))| < max
    ensures Filter(sorted, VisibleAt(now)) == Candidates(false, sorted, max, now)
  {
  }

  /** The loop of `candidateMessages` for a standard queue: it stops as soon as it has enough. */
  method StandardCandidates(sorted: seq<Message>, max: nat, now: int) returns (out: seq<Message>)
    requires max >= 1
    ensures out == Candidates(false, sorted, max, now)
  {
    out := [];
    for i := 0 to |sorted|
      invariant out == Filter(sorted[..i], VisibleAt(now)) && |out| < max
    {
      VisibleSnoc(sorted, i, now);
      if Visible(sorted[i], now) {
        out := out + [sorted[i]];
        if |out| == max {
          EnoughVisible(sorted, i + 1, max, now);
          return;
        }
      }
    }
    assert sorted[..|sorted|] == sorted;
    AllVisible(sorted, max, now);
  }

  /** `candidateMessages`. */
  method CandidateMessages(fifo: bool, ms: seq<Message>, max: nat, now: int) returns (out: seq<Message>)
    requires max >= 1
    ensures out == Candidates(fifo, Sort(Filter(ms, LiveAt(now)), SentBefore), max, now)
  {
    var sorted := LiveMessages(ms, now);
    if fifo {
      out := FifoCandidateMessages(sorted, max, now);
    } else {
      out := StandardCandidates(sorted, max, now);
    }
  }
}
