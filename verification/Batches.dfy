/** What the service checks about a batch as a whole, and how it answers one. */
module Batches {
  import opened Records
  import opened Sequences
  import opened Tables
  import opened AttributeSizes
  import opened Contents

  const MAX_BATCH_BYTES: int := 1024 * 1024

  predicate IdCharacter(c: char) {
    'A' <= c <= 'Z' || 'a' <= c <= 'z' || '0' <= c <= '9' || c == '_' || c == '-'
  }

  predicate ValidId(id: string) {
    1 <= |id| <= 80 && forall i :: 0 <= i < |id| ==> IdCharacter(id[i])
  }

  // ---- ids ------------------------------------------------------------------------------------

  /** What is wrong with the `i`th id. */
  function IdFault(ids: seq<string>, i: nat): Option<ApiError>
    requires i < |ids|
  {
    if !ValidId(ids[i]) then Some(InvalidBatchEntryId)
    else if ids[i] in ids[..i] then Some(BatchEntryIdsNotDistinct)
    else None
  }

  /** What is wrong with an entry of a send batch: its id, or the attributes that it is measured with. */
  function EntryFault(ids: seq<string>, sizes: seq<Result<nat>>, i: nat): Option<ApiError>
    requires i < |ids| == |sizes|
  {
    if IdFault(ids, i).Some? then IdFault(ids, i)
    else if sizes[i].Err? then Some(sizes[i].error)
    else None
  }

  /** The first fault from the `i`th entry on. */
  function FaultFrom(ids: seq<string>, sizes: seq<Result<nat>>, i: nat): Option<ApiError>
    requires i <= |ids| == |sizes|
    decreases |ids| - i
  {
    if i == |ids| then None
    else if EntryFault(ids, sizes, i).Some? then EntryFault(ids, sizes, i)
    else FaultFrom(ids, sizes, i + 1)
  }

  /** The first `n` entries together, as far as they can be measured. */
  function TotalBytes(sizes: seq<Result<nat>>, n: nat): nat
    requires n <= |sizes|
  {
    if n == 0 then 0 else TotalBytes(sizes, n - 1) + if sizes[n - 1].Ok? then sizes[n - 1].value else 0
  }

  /** Why a send batch is refused as a whole. */
  function BatchError(ids: seq<string>, sizes: seq<Result<nat>>): Option<ApiError>
    requires |ids| == |sizes|
  {
    if |ids| == 0 then Some(EmptyBatchRequest)
    else if |ids| > 10 then Some(TooManyEntriesInBatchRequest)
    else if FaultFrom(ids, sizes, 0).Some? then FaultFrom(ids, sizes, 0)
    else if TotalBytes(sizes, |sizes|) > MAX_BATCH_BYTES then Some(BatchRequestTooLong)
    else None
  }

  /** The size of an entry: the length of its body and the size of its attributes, which must be acceptable. */
  ghost function SizeOfEntry(cfg: Config, raw: RawEntry): Result<nat> {
    match NormalizedOf(raw.attributes, false, cfg.checks)
    case Ok(accepted) => Ok(|raw.body| + accepted.size)
    case Err(e) => Err(e)
  }

  ghost function SizesOf(cfg: Config, raws: seq<RawEntry>): (r: seq<Result<nat>>)
    ensures |r| == |raws| && forall i :: 0 <= i < |r| ==> r[i] == SizeOfEntry(cfg, raws[i])
  {
    seq(|raws|, i requires 0 <= i < |raws| => SizeOfEntry(cfg, raws[i]))
  }

  ghost predicate IdsInOrder(ids: seq<string>, from: nat) {
    forall i :: from <= i < |ids| ==> ValidId(ids[i]) && ids[i] !in ids[..i]
  }

  ghost predicate AllMeasured(sizes: seq<Result<nat>>, from: nat) {
    forall i :: from <= i < |sizes| ==> sizes[i].Ok?
  }

  lemma {:induction false} FaultFromNone(ids: seq<string>, sizes: seq<Result<nat>>, i: nat)
    requires i <= |ids| == |sizes|
    ensures FaultFrom(ids, sizes, i).None? <==> IdsInOrder(ids, i) && AllMeasured(sizes, i)
    decreases |ids| - i
  {
    if i < |ids| { FaultFromNone(ids, sizes, i + 1); }
  }

  lemma IdsDistinct(ids: seq<string>)
    ensures IdsInOrder(ids, 0) <==> (forall i :: 0 <= i < |ids| ==> ValidId(ids[i])) && Distinct(ids)
  {
    if IdsInOrder(ids, 0) {
      forall i, j | 0 <= i < j < |ids| ensures ids[i] != ids[j] {
        assert ids[..j][i] == ids[i];
      }
    }
  }

  /**
   * A send batch is accepted if and only if it has one to ten entries with valid, distinct ids and acceptable attributes, and
   * all of it together is not longer than a mebibyte.
   */
  lemma BatchAccepted(cfg: Config, ids: seq<string>, raws: seq<RawEntry>)
    requires |ids| == |raws|
    ensures BatchError(ids, SizesOf(cfg, raws)).None? <==>
      && 1 <= |ids| <= 10 && (forall i :: 0 <= i < |ids| ==> ValidId(ids[i])) && Distinct(ids)
      && (forall i :: 0 <= i < |raws| ==> NormalizedOf(raws[i].attributes, false, cfg.checks).Ok?)
      && TotalBytes(SizesOf(cfg, raws), |raws|) <= MAX_BATCH_BYTES
  {
    FaultFromNone(ids, SizesOf(cfg, raws), 0);
    IdsDistinct(ids);
    Measured(cfg, raws);
  }

  lemma Measured(cfg: Config, raws: seq<RawEntry>)
    ensures AllMeasured(SizesOf(cfg, raws), 0) <==> forall i :: 0 <= i < |raws| ==> NormalizedOf(raws[i].attributes, false, cfg.checks).Ok?
  {
    forall i | 0 <= i < |raws|
      ensures SizesOf(cfg, raws)[i].Ok? <==> NormalizedOf(raws[i].attributes, false, cfg.checks).Ok?
    {
    }
  }

  /** The size of one entry, as the loop finds it. */
  method MeasureEntry(cfg: Config, raw: RawEntry) returns (size: Result<nat>)
    ensures size == SizeOfEntry(cfg, raw)
  {
    size := BatchEntrySize(raw.body, raw.attributes, cfg.checks);
  }

  function Seen(ids: seq<string>, i: nat): set<string>
    requires i <= |ids|
  {
    set id | id in ids[..i]
  }

  lemma SeenMore(ids: seq<string>, i: nat)
    requires i < |ids|
    ensures Seen(ids, i + 1) == Seen(ids, i) + {ids[i]}
  {
    assert ids[..i + 1] == ids[..i] + [ids[i]];
  }

  /** The checks of one entry. `total` is the size of the entries before it; the answer is the size with it. */
  method CheckEntry(ids: seq<string>, seen: set<string>, size: Result<nat>, ghost sizes: seq<Result<nat>>, total: nat, i: nat)
    returns (checked: Result<nat>)
    requires i < |ids| == |sizes| && size == sizes[i] && seen == Seen(ids, i) && total == TotalBytes(sizes, i)
    ensures checked == match EntryFault(ids, sizes, i)
      case Some(e) => Err(e)
      case None => Ok(TotalBytes(sizes, i + 1))
  {
    if !ValidId(ids[i]) {
      return Err(InvalidBatchEntryId);
    }
    if ids[i] in seen {
      return Err(BatchEntryIdsNotDistinct);
    }
    if size.Err? {
      return Err(size.error);
    }
    checked := Ok(total + size.value);
  }

  /** The first loop of `SendMessageBatch`: the checks of the entries, and their size together. */
  method CheckEntries(cfg: Config, ids: seq<string>, raws: seq<RawEntry>, ghost sizes: seq<Result<nat>>) returns (total: Result<nat>)
    requires |ids| == |raws| == |sizes| && forall i :: 0 <= i < |raws| ==> sizes[i] == SizeOfEntry(cfg, raws[i])
    ensures total == match FaultFrom(ids, sizes, 0)
      case Some(e) => Err(e)
      case None => Ok(TotalBytes(sizes, |sizes|))
  {
    var seen: set<string>, bytes := {}, 0;
    for i := 0 to |ids|
      invariant seen == Seen(ids, i)
      invariant bytes == TotalBytes(sizes, i)
      invariant FaultFrom(ids, sizes, i) == FaultFrom(ids, sizes, 0)
    {
      SeenMore(ids, i);
      var size := MeasureEntry(cfg, raws[i]);
      var checked := CheckEntry(ids, seen, size, sizes, bytes, i);
      if checked.Err? {
        return Err(checked.error);
      }
      seen := seen + {ids[i]};
      bytes := checked.value;
    }
    total := Ok(bytes);
  }

  /** The checks of `SendMessageBatch` before any entry is sent. */
  method CheckBatch(cfg: Config, ids: seq<string>, raws: seq<RawEntry>) returns (error: Option<ApiError>)
    requires |ids| == |raws|
    ensures error == BatchError(ids, SizesOf(cfg, raws))
  {
    if |ids| == 0 {
      return Some(EmptyBatchRequest);
    }
    if |ids| > 10 {
      return Some(TooManyEntriesInBatchRequest);
    }
    var total := CheckEntries(cfg, ids, raws, SizesOf(cfg, raws));
    if total.Err? {
      return Some(total.error);
    }
    error := if total.value > 1024 * 1024 then Some(BatchRequestTooLong) else None;
  }

  /** The first fault of the ids from the `i`th on. */
  function IdFaultFrom(ids: seq<string>, i: nat): Option<ApiError>
    requires i <= |ids|
    decreases |ids| - i
  {
    if i == |ids| then None else if IdFault(ids, i).Some? then IdFault(ids, i) else IdFaultFrom(ids, i + 1)
  }

  /** Why a delete or visibility batch is refused as a whole. */
  function IdsError(ids: seq<string>): Option<ApiError> {
    if |ids| == 0 then Some(EmptyBatchRequest)
    else if |ids| > 10 then Some(TooManyEntriesInBatchRequest)
    else IdFaultFrom(ids, 0)
  }

  lemma {:induction false} IdFaultFromNone(ids: seq<string>, i: nat)
    requires i <= |ids|
    ensures IdFaultFrom(ids, i).None? <==> IdsInOrder(ids, i)
    decreases |ids| - i
  {
    if i < |ids| { IdFaultFromNone(ids, i + 1); }
  }

  /** Such a batch is accepted if and only if it has one to ten entries with valid, distinct ids. */
  lemma IdsAccepted(ids: seq<string>)
    ensures IdsError(ids).None? <==> 1 <= |ids| <= 10 && (forall i :: 0 <= i < |ids| ==> ValidId(ids[i])) && Distinct(ids)
  {
    IdFaultFromNone(ids, 0);
    IdsDistinct(ids);
  }

  /** `validateBatchRequestEntries`. */
  method ValidateBatchIds(ids: seq<string>) returns (error: Option<ApiError>)
    ensures error == IdsError(ids)
  {
    if |ids| == 0 {
      return Some(EmptyBatchRequest);
    }
    if |ids| > 10 {
      return Some(TooManyEntriesInBatchRequest);
    }
    var seen: set<string> := {};
    for i := 0 to |ids|
      invariant seen == Seen(ids, i)
      invariant IdFaultFrom(ids, i) == IdFaultFrom(ids, 0)
    {
      SeenMore(ids, i);
      if !ValidId(ids[i]) {
        return Some(InvalidBatchEntryId);
      }
      if ids[i] in seen {
        return Some(BatchEntryIdsNotDistinct);
      }
      seen := seen + {ids[i]};
    }
    error := None;
  }

  // ---- the answer -------------------------------------------------------------------------------

  /** What a batch answers: the entries that succeeded, with their results, and those that failed, each list in order. */
  datatype BatchAnswer<+T> = BatchAnswer(successful: seq<(string, T)>, failed: seq<(string, ApiError)>)

  function Answer<T>(ids: seq<string>, results: seq<Result<T>>): (a: BatchAnswer<T>)
    requires |ids| == |results|
    ensures |a.successful| + |a.failed| == |ids|
  {
    if ids == [] then BatchAnswer([], [])
    else AnswerMore(Answer(ids[..|ids| - 1], results[..|ids| - 1]), ids[|ids| - 1], results[|ids| - 1])
  }

  function AnswerMore<T>(answer: BatchAnswer<T>, id: string, result: Result<T>): BatchAnswer<T> {
    match result
    case Ok(value) => answer.(successful := answer.successful + [(id, value)])
    case Err(error) => answer.(failed := answer.failed + [(id, error)])
  }

  lemma AnswerSnoc<T>(ids: seq<string>, results: seq<Result<T>>, i: nat)
    requires i < |ids| == |results|
    ensures Answer(ids[..i + 1], results[..i + 1]) == AnswerMore(Answer(ids[..i], results[..i]), ids[i], results[i])
  {
    assert ids[..i + 1][..i] == ids[..i] && results[..i + 1][..i] == results[..i];
  }

  /** The answer list as the loops of the batches build it. */
  method AnswerEach<T>(ids: seq<string>, results: seq<Result<T>>) returns (answer: BatchAnswer<T>)
    requires |ids| == |results|
    ensures answer == Answer(ids, results)
  {
    answer := BatchAnswer([], []);
    for i := 0 to |ids|
      invariant answer == Answer(ids[..i], results[..i])
    {
      AnswerSnoc(ids, results, i);
      match results[i]
      case Ok(value) => answer := answer.(successful := answer.successful + [(ids[i], value)]);
      case Err(error) => answer := answer.(failed := answer.failed + [(ids[i], error)]);
    }
    assert ids[..|ids|] == ids && results[..|results|] == results;
  }

  ghost predicate Has<T>(ids: seq<string>, results: seq<Result<T>>, id: string, result: Result<T>)
    requires |ids| == |results|
  {
    exists i :: 0 <= i < |ids| && ids[i] == id && results[i] == result
  }

  lemma HasSnoc<T>(ids: seq<string>, results: seq<Result<T>>, id: string, result: Result<T>)
    requires |ids| == |results| > 0
    ensures Has(ids, results, id, result) <==>
      || Has(ids[..|ids| - 1], results[..|ids| - 1], id, result)
      || (ids[|ids| - 1] == id && results[|ids| - 1] == result)
  {
    var n := |ids| - 1;
    assert forall i :: 0 <= i < n ==> ids[..n][i] == ids[i] && results[..n][i] == results[i];
  }

  /** Every entry is answered under its id with its own result: a success is among the successes. */
  lemma {:induction false} AnswerSucceeds<T>(ids: seq<string>, results: seq<Result<T>>, id: string, value: T)
    requires |ids| == |results|
    ensures (id, value) in Answer(ids, results).successful <==> Has(ids, results, id, Ok(value))
  {
    if ids != [] {
      AnswerSucceeds(ids[..|ids| - 1], results[..|ids| - 1], id, value);
      HasSnoc(ids, results, id, Ok(value));
    }
  }

  /** And an error is among the failures. */
  lemma {:induction false} AnswerFails<T>(ids: seq<string>, results: seq<Result<T>>, id: string, error: ApiError)
    requires |ids| == |results|
    ensures (id, error) in Answer(ids, results).failed <==> Has(ids, results, id, Err(error))
  {
    if ids != [] {
      AnswerFails(ids[..|ids| - 1], results[..|ids| - 1], id, error);
      HasSnoc(ids, results, id, Err(error));
    }
  }
}
