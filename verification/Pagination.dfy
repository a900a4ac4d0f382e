/** Listing queues page by page. */
module Pagination {
  import opened Records
  import opened Sequences
  import opened Numerals
  import opened Tables
  import opened Storage
  import opened Tokens

  datatype Page = Page(urls: seq<string>, nextToken: string)

  function LiveQueue(q: Queue): bool { q.deletedAt.None? }

  function UrlOf(q: Queue): string { q.url }

  /** The URLs of the live queues, in the order of their names. */
  ghost function LiveUrls(t: Tables): seq<string> {
    Map(Filter(QueuesOf(t), LiveQueue), UrlOf)
  }

  function PageAt(urls: seq<string>, max: int, offset: nat): Page {
    var rest := urls[if offset > |urls| then |urls| else offset..];
    if 0 < max < |rest| then Page(rest[..max], EncodeNextToken((if offset > |urls| then |urls| else offset) + max))
    else Page(rest, "")
  }

  lemma {:induction false} MapSnoc(queues: seq<Queue>, q: Queue)
    ensures Map(queues + [q], UrlOf) == Map(queues, UrlOf) + [q.url]
  {
  }

  lemma LiveSnoc(queues: seq<Queue>, i: nat)
    requires i < |queues|
    ensures Map(Filter(queues[..i + 1], LiveQueue), UrlOf) ==
            Map(Filter(queues[..i], LiveQueue), UrlOf) + if LiveQueue(queues[i]) then [queues[i].url] else []
  {
    FilterSnoc(queues, i, LiveQueue);
    if LiveQueue(queues[i]) {
      MapSnoc(Filter(queues[..i], LiveQueue), queues[i]);
    } else {
      assert Filter(queues[..i], LiveQueue) + [] == Filter(queues[..i], LiveQueue);
    }
  }

  /** The filtering loop of `ListQueues`. */
  method CollectLiveUrls(store: Store, ghost cfg: Config) returns (filtered: seq<string>)
    requires QueuesKeyed(cfg, store.View())
    ensures filtered == LiveUrls(store.View())
  {
    var queues := store.ListQueues(cfg);
    filtered := [];
    for i := 0 to |queues|
      invariant filtered == Map(Filter(queues[..i], LiveQueue), UrlOf)
    {
      LiveSnoc(queues, i);
      if queues[i].deletedAt.Some? {
        continue;
      }
      filtered := filtered + [queues[i].url];
    }
    assert queues[..|queues|] == queues;
  }

  /** The rest of `ListQueues`: one page of the list. */
  method CutPage(filtered: seq<string>, max: int, start: nat) returns (page: Page)
    ensures page == PageAt(filtered, max, start)
  {
    var offset := start;
    if offset > |filtered| {
      offset := |filtered|;
    }
    var urls, nextToken := filtered[offset..], "";
    if max > 0 && max < |urls| {
      nextToken := EncodeNextToken(offset + max);
      urls := urls[..max];
    }
    page := Page(urls, nextToken);
  }

  /**
   * How listing ends. A token that decodes to a negative offset is not refused, and the source then takes a slice that
   * does not exist: the handler panics.
   */
  datatype Outcome = Answered(page: Page) | Refused(error: ApiError) | Panics

  function OutcomeOf(urls: seq<string>, max: int, token: string): Outcome {
    match DecodeNextToken(token)
    case None => Refused(InvalidParameterValue)
    case Some(offset) => if offset < 0 then Panics else Answered(PageAt(urls, max, offset))
  }

  /** `ListQueues`, without a name prefix and after the mutations it applies first. */
  method ListQueues(store: Store, ghost cfg: Config, max: int, token: string) returns (outcome: Outcome)
    requires QueuesKeyed(cfg, store.View())
    ensures outcome == OutcomeOf(LiveUrls(store.View()), max, token)
  {
    var offset := DecodeNextToken(token);
    if offset.None? {
      return Refused(InvalidParameterValue);
    }
    var filtered := CollectLiveUrls(store, cfg);
    if offset.value < 0 {
      return Panics;
    }
    var page := CutPage(filtered, max, offset.value);
    outcome := Answered(page);
  }

  /** The text of a negative number, as the Go library parses it. */
  predicate NegativeText(raw: string) {
    |raw| > 1 && raw[0] == '-' && AllDigits(raw[1..]) && 0 < DigitsValue(raw[1..]) <= -MIN_INT64
  }

  /** Listing panics exactly on the tokens that are base64 for the text of a negative number. */
  lemma PanicsExactly(urls: seq<string>, max: int, token: string)
    ensures OutcomeOf(urls, max, token) == Panics <==>
      token != "" && FromBase64(token).Some? && NegativeText(FromBase64(token).value)
  {
  }

  lemma IntTextBytes(n: int)
    ensures IsBytes(IntText(n))
  {
    DigitsAreBytes(NatText(if n < 0 then -n else n));
  }

  /** There is such a token for every negative number that the service could read. */
  lemma EveryNegativeOffset(urls: seq<string>, max: int, n: int)
    requires MIN_INT64 <= n < 0
    ensures IsBytes(IntText(n)) && OutcomeOf(urls, max, Base64(IntText(n))) == Panics
  {
    IntTextBytes(n);
    Base64Back(IntText(n));
    ParseIntText(n);
  }

  lemma MinusOneText()
    ensures IntText(-1) == "-1" && Base64("-1") == "LTE"
  {
    assert NatText(1) == "1";
    assert "-" + "1" == "-1";
  }

  /** The token "LTE" stands for -1. */
  lemma MinusOnePanics(urls: seq<string>, max: int)
    ensures OutcomeOf(urls, max, "LTE") == Panics
  {
    EveryNegativeOffset(urls, max, -1);
    MinusOneText();
  }

  /** No token that the service hands out is one of them. */
  lemma HandedOutAnswers(urls: seq<string>, max: int, offset: nat)
    requires offset <= MAX_INT64
    ensures OutcomeOf(urls, max, EncodeNextToken(offset)) == Answered(PageAt(urls, max, offset))
  {
    TokenBack(offset);
  }

  /** Every live queue is listed exactly once. */
  lemma LiveQueuesListed(cfg: Config, t: Tables)
    requires QueuesKeyed(cfg, t)
    ensures Distinct(LiveUrls(t))
    ensures forall url :: url in LiveUrls(t) <==> exists id :: id in t.queues && t.queues[id].url == url && t.queues[id].deletedAt.None?
  {
    var live := Filter(QueuesOf(t), LiveQueue);
    NamesOrder(cfg, t);
    ListedRows(QueueSet(t), NamedBefore);
    LiveDistinct(QueuesOf(t));
    forall url ensures url in LiveUrls(t) <==> exists id :: id in t.queues && t.queues[id].url == url && t.queues[id].deletedAt.None? {
      if url in LiveUrls(t) {
        var i := IndexOf(LiveUrls(t), url);
        assert live[i] in live;
      }
      if id :| id in t.queues && t.queues[id].url == url && t.queues[id].deletedAt.None? {
        assert t.queues[id] in live;
        assert LiveUrls(t)[IndexOf(live, t.queues[id])] == url;
      }
    }
    forall i, j | 0 <= i < j < |live| ensures live[i].url != live[j].url {
      assert live[i] in live && live[j] in live;
      NamesFromUrls(cfg, live[i].name, live[j].name);
    }
  }

  lemma {:induction false} LiveDistinct(queues: seq<Queue>)
    requires Distinct(queues)
    ensures Distinct(Filter(queues, LiveQueue))
  {
    if queues != [] {
      LiveDistinct(queues[1..]);
      assert queues[0] !in queues[1..];
    }
  }

  // ---- following the tokens ---------------------------------------------------------------------

  function Concat(pages: seq<seq<string>>): seq<string> {
    if pages == [] then [] else pages[0] + Concat(pages[1..])
  }

  /** A request for the page of a token, on an unchanged list; `None` if it is not answered. */
  function Request(urls: seq<string>, max: int): string -> Option<Page> {
    (token: string) => match OutcomeOf(urls, max, token) case Answered(page) => Some(page) case _ => None
  }

  /**
   * The pages a client gets that starts with `token` and follows the tokens it is given, for at most `turns` requests;
   * `None` if a token is not accepted or the turns do not suffice.
   */
  function Follow(request: string -> Option<Page>, token: string, turns: nat): Option<seq<seq<string>>>
    decreases turns
  {
    if turns == 0 || request(token).None? then None
    else if request(token).value.nextToken == "" then Some([request(token).value.urls])
    else
      match Follow(request, request(token).value.nextToken, turns - 1)
      case Some(rest) => Some([request(token).value.urls] + rest)
      case None => None
  }

  /** The list cut into pages, from an offset on. */
  function Cut(urls: seq<string>, max: nat, offset: nat): seq<seq<string>>
    requires max >= 1 && offset <= |urls|
    decreases |urls| - offset
  {
    if |urls| - offset > max then [urls[offset..offset + max]] + Cut(urls, max, offset + max) else [urls[offset..]]
  }

  lemma {:induction false} CutIsAll(urls: seq<string>, max: nat, offset: nat)
    requires max >= 1 && offset <= |urls|
    ensures Concat(Cut(urls, max, offset)) == urls[offset..] && |Cut(urls, max, offset)| == Rounds(|urls| - offset, max)
    decreases |urls| - offset
  {
    var pages := Cut(urls, max, offset);
    if |urls| - offset > max {
      CutIsAll(urls, max, offset + max);
      assert pages[1..] == Cut(urls, max, offset + max);
      assert urls[offset..] == urls[offset..offset + max] + urls[offset + max..];
    } else {
      assert pages[1..] == [];
    }
  }

  /** At the offset's token the request answers with the page there, and the token of the next page if there is one. */
  ghost predicate ServesAt(request: string -> Option<Page>, tokenOf: nat -> string, urls: seq<string>, max: nat, offset: nat) {
    offset <= |urls| ==>
      && request(tokenOf(offset)) == Some(
        if |urls| - offset > max then Page(urls[offset..offset + max], tokenOf(offset + max)) else Page(urls[offset..], ""))
      && (|urls| - offset > max ==> tokenOf(offset + max) != "")
  }

  ghost predicate Serves(request: string -> Option<Page>, tokenOf: nat -> string, urls: seq<string>, max: nat) {
    forall offset: nat :: ServesAt(request, tokenOf, urls, max, offset)
  }

  lemma {:induction false} FollowCuts(request: string -> Option<Page>, tokenOf: nat -> string, urls: seq<string>, max: nat,
                                      offset: nat, turns: nat)
    requires max >= 1 && offset <= |urls| && turns >= |Cut(urls, max, offset)| && Serves(request, tokenOf, urls, max)
    ensures Follow(request, tokenOf(offset), turns) == Some(Cut(urls, max, offset))
    decreases turns
  {
    assert ServesAt(request, tokenOf, urls, max, offset);
    if |urls| - offset > max {
      FollowCuts(request, tokenOf, urls, max, offset + max, turns - 1);
    }
  }

  function TokenOf(): nat -> string { (offset: nat) => EncodeNextToken(offset) }

  lemma RequestServes(urls: seq<string>, max: nat, offset: nat)
    requires max >= 1 && |urls| <= MAX_INT64
    ensures ServesAt(Request(urls, max), TokenOf(), urls, max, offset)
  {
    if offset <= |urls| {
      RequestToken(urls, max, offset);
      TokenPage(urls, max, offset);
      ServedBy(Request(urls, max), TokenOf(), urls, max, offset);
    }
  }

  lemma RequestToken(urls: seq<string>, max: nat, offset: nat)
    requires offset <= MAX_INT64
    ensures Request(urls, max)(TokenOf()(offset)) == Some(PageAt(urls, max, offset))
  {
    TokenBack(offset);
    RequestAt(urls, max, EncodeNextToken(offset), offset);
  }

  lemma TokenPage(urls: seq<string>, max: nat, offset: nat)
    requires max >= 1 && offset <= |urls| <= MAX_INT64
    ensures PageIs(PageAt(urls, max, offset), TokenOf(), urls, max, offset)
  {
    NextPage(urls, max, offset);
  }

  ghost predicate PageIs(page: Page, tokenOf: nat -> string, urls: seq<string>, max: nat, offset: nat)
    requires offset <= |urls|
  {
    && page == (if |urls| - offset > max then Page(urls[offset..offset + max], tokenOf(offset + max)) else Page(urls[offset..], ""))
    && (|urls| - offset > max ==> tokenOf(offset + max) != "")
  }

  lemma ServedBy(request: string -> Option<Page>, tokenOf: nat -> string, urls: seq<string>, max: nat, offset: nat)
    requires offset <= |urls| && request(tokenOf(offset)).Some?
    requires PageIs(request(tokenOf(offset)).value, tokenOf, urls, max, offset)
    ensures ServesAt(request, tokenOf, urls, max, offset)
  {
  }

  lemma RequestAt(urls: seq<string>, max: nat, token: string, offset: nat)
    requires DecodeNextToken(token) == Some(offset)
    ensures Request(urls, max)(token) == Some(PageAt(urls, max, offset))
  {
  }

  lemma NextPage(urls: seq<string>, max: int, offset: nat)
    requires max >= 1 && offset <= |urls| <= MAX_INT64
    ensures PageAt(urls, max, offset) ==
      if |urls| - offset > max then Page(urls[offset..offset + max], EncodeNextToken(offset + max)) else Page(urls[offset..], "")
    ensures |urls| - offset > max ==> EncodeNextToken(offset + max) != ""
  {
    if |urls| - offset > max {
      TokenBack(offset + max);
      assert urls[offset..][..max] == urls[offset..offset + max];
    }
  }

  /**
   * With a fixed page size of at least one, following the tokens from the start ends after max(1, ceil(n/m)) pages,
   * and the pages together are the list: every live queue once, in order.
   */
  lemma PagesVisitAll(urls: seq<string>, max: nat, turns: nat)
    requires max >= 1 && |urls| <= MAX_INT64
    requires turns >= if |urls| == 0 then 1 else (|urls| + max - 1) / max
    ensures var pages := Follow(Request(urls, max), "", turns);
      && pages.Some? && Concat(pages.value) == urls
      && |pages.value| == if |urls| == 0 then 1 else (|urls| + max - 1) / max
  {
    RoundsCeiling(|urls|, max);
    CutIsAll(urls, max, 0);
    RequestFollowed(urls, max, turns);
    assert urls[0..] == urls;
  }

  lemma RequestFollowed(urls: seq<string>, max: nat, turns: nat)
    requires max >= 1 && |urls| <= MAX_INT64 && turns >= |Cut(urls, max, 0)|
    ensures Follow(Request(urls, max), "", turns) == Some(Cut(urls, max, 0))
  {
    forall offset: nat ensures ServesAt(Request(urls, max), TokenOf(), urls, max, offset) {
      RequestServes(urls, max, offset);
    }
    FirstToken();
    FollowCuts(Request(urls, max), TokenOf(), urls, max, 0, turns);
  }

  lemma FirstToken()
    ensures TokenOf()(0) == ""
  {
  }
}
