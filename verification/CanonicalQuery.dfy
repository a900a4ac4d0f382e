/** The canonical query string of AWS Signature Version 4. Strings stand for their bytes. */
module CanonicalQuery {
  import opened Records
  import opened Sequences
  import opened Strings

  // ---- percent-encoding -----------------------------------------------------------------------

  type Byte = c: char | c as int < 256 witness 'a'

  type Bytes = seq<Byte>

  /** The unreserved characters of section 2.3 of RFC 3986. */
  predicate Unreserved(c: char) {
    'A' <= c <= 'Z' || 'a' <= c <= 'z' || '0' <= c <= '9' || c == '-' || c == '_' || c == '.' || c == '~'
  }

  const HEX: string := "0123456789ABCDEF"

  function HexDigit(d: int): (c: Byte)
    requires 0 <= d < 16
    ensures Unreserved(c) && HexValue(c) == Some(d)
  {
    if d < 10 then ('0' as int + d) as char else ('A' as int + d - 10) as char
  }

  function HexValue(c: char): (d: Option<int>)
    ensures d.Some? ==> 0 <= d.value < 16
  {
    if '0' <= c <= '9' then Some(c as int - '0' as int)
    else if 'A' <= c <= 'F' then Some(c as int - 'A' as int + 10)
    else None
  }

  function EncodeByte(c: Byte): (r: Bytes)
    ensures forall x :: x in r ==> Unreserved(x) || x == '%'
  {
    if Unreserved(c) then [c] else ['%', HexDigit(c as int / 16), HexDigit(c as int % 16)]
  }

  function PercentEncode(raw: Bytes): (r: Bytes)
    ensures forall x :: x in r ==> Unreserved(x) || x == '%'
  {
    if raw == [] then [] else EncodeByte(raw[0]) + PercentEncode(raw[1..])
  }

  function PercentDecode(s: Bytes): Option<Bytes> {
    if s == [] then Some([])
    else if s[0] == '%' then
      if |s| < 3 || HexValue(s[1]).None? || HexValue(s[2]).None? then None
      else
        match PercentDecode(s[3..])
        case Some(rest) => Some([(HexValue(s[1]).value * 16 + HexValue(s[2]).value) as char] + rest)
        case None => None
    else
      match PercentDecode(s[1..])
      case Some(rest) => Some([s[0]] + rest)
      case None => None
  }

  /** Percent-encoding can be undone, whatever the bytes. */
  lemma {:induction false} DecodeEncoded(raw: Bytes)
    ensures PercentDecode(PercentEncode(raw)) == Some(raw)
  {
    if raw != [] {
      var s := PercentEncode(raw);
      DecodeEncoded(raw[1..]);
      if Unreserved(raw[0]) {
        assert s[1..] == PercentEncode(raw[1..]);
      } else {
        assert s[3..] == PercentEncode(raw[1..]);
      }
      assert [raw[0]] + raw[1..] == raw;
    }
  }

  /** It leaves exactly the unreserved characters alone: a string is its own encoding if it has no others. */
  lemma {:induction false} EncodeUnchanged(raw: Bytes)
    ensures PercentEncode(raw) == raw <==> forall c :: c in raw ==> Unreserved(c)
    ensures |PercentEncode(raw)| >= |raw|
  {
    if raw != [] {
      EncodeUnchanged(raw[1..]);
      assert raw == [raw[0]] + raw[1..];
      if Unreserved(raw[0]) {
        assert PercentEncode(raw)[1..] == PercentEncode(raw[1..]);
      } else {
        assert |PercentEncode(raw)| > |raw|;
      }
    }
  }

  lemma {:induction false} EncodeConcat(a: Bytes, b: Bytes)
    ensures PercentEncode(a + b) == PercentEncode(a) + PercentEncode(b)
  {
    if a == [] {
      assert a + b == b;
    } else {
      assert (a + b)[1..] == a[1..] + b;
      EncodeConcat(a[1..], b);
    }
  }

  lemma EncodeSnoc(raw: Bytes, i: nat)
    requires i < |raw|
    ensures PercentEncode(raw[..i + 1]) == PercentEncode(raw[..i]) + EncodeByte(raw[i])
  {
    assert raw[..i + 1] == raw[..i] + [raw[i]];
    EncodeConcat(raw[..i], [raw[i]]);
    assert PercentEncode([raw[i]]) == EncodeByte(raw[i]) + PercentEncode([raw[i]][1..]);
  }

  /** `awsPercentEncode`. */
  method AwsPercentEncode(raw: Bytes) returns (encoded: Bytes)
    ensures encoded == PercentEncode(raw)
  {
    encoded := [];
    for i := 0 to |raw|
      invariant encoded == PercentEncode(raw[..i])
    {
      var c := raw[i];
      EncodeSnoc(raw, i);
      if ('A' <= c <= 'Z') || ('a' <= c <= 'z') || ('0' <= c <= '9') || c == '-' || c == '_' || c == '.' || c == '~' {
        encoded := encoded + [c];
        continue;
      }
      encoded := encoded + ['%', HexDigit(c as int / 16), HexDigit(c as int % 16)];
    }
    assert raw[..|raw|] == raw;
  }

  // ---- pairs ----------------------------------------------------------------------------------

  datatype Pair = Pair(key: Bytes, value: Bytes)

  function EncodePair(p: Pair): Pair { Pair(PercentEncode(p.key), PercentEncode(p.value)) }

  predicate PairLess(a: Pair, b: Pair) {
    if a.key == b.key then Less(a.value, b.value) else Less(a.key, b.key)
  }

  lemma PairsOrder(pairs: seq<Pair>)
    ensures StrictWeak(PairLess) && Decides(pairs, PairLess)
  {
    LessOrders();
    forall a, b | PairLess(a, b) ensures !PairLess(b, a) {
      LessAntisymmetric(if a.key == b.key then a.value else a.key, if a.key == b.key then b.value else b.key);
    }
    forall a, b, c | !PairLess(b, a) && !PairLess(c, b) ensures !PairLess(c, a) {
      PairNotLess(a, b, c);
    }
    forall a, b | a in pairs && b in pairs && a != b ensures PairLess(a, b) || PairLess(b, a) {
      LessDecides(if a.key == b.key then a.value else a.key, if a.key == b.key then b.value else b.key);
    }
  }

  lemma PairNotLess(a: Pair, b: Pair, c: Pair)
    requires !PairLess(b, a) && !PairLess(c, b)
    ensures !PairLess(c, a)
  {
    if a.key == b.key && b.key == c.key {
      NotLessTransitive(a.value, b.value, c.value);
    } else {
      NotLessIs(a.key, b.key);
      NotLessIs(b.key, c.key);
      NotLessTransitive(a.key, b.key, c.key);
      if a.key == c.key { LessDecides(a.key, b.key); }
    }
  }

  lemma {:induction false} NotLessIs(a: string, b: string)
    ensures a == b ==> !Less(a, b)
  {
    if Less(a, b) { LessAntisymmetric(a, b); }
  }

  function Part(p: Pair): Bytes { p.key + ['='] + p.value }

  function Join(pairs: seq<Pair>): Bytes {
    if pairs == [] then []
    else if |pairs| == 1 then Part(pairs[0])
    else Part(pairs[0]) + ['&'] + Join(pairs[1..])
  }

  /** The canonical query string of some parameters, given in any order. */
  function Canonical(pairs: seq<Pair>): Bytes {
    Join(Sort(Map(pairs, EncodePair), PairLess))
  }

  lemma {:induction false} MapPermutes(a: seq<Pair>, b: seq<Pair>)
    requires multiset(a) == multiset(b)
    ensures multiset(Map(a, EncodePair)) == multiset(Map(b, EncodePair))
  {
    SameMembers(a, b);
    if a != [] {
      var i := IndexOf(b, a[0]);
      WithoutFirst(a, b, i);
      MapOut(b, i);
      MapOut(a, 0);
      assert a[..0] + a[0 + 1..] == a[1..];
      MapPermutes(a[1..], b[..i] + b[i + 1..]);
    }
  }

  lemma MapOut(b: seq<Pair>, i: nat)
    requires i < |b|
    ensures multiset(Map(b, EncodePair)) == multiset(Map(b[..i] + b[i + 1..], EncodePair)) + multiset{EncodePair(b[i])}
  {
    var front, back := b[..i], b[i + 1..];
    SplitAt(b, i);
    MapJoin(front, back);
    MapJoin(front, [b[i]] + back);
    MapCons(b[i], back);
    OneMore(Map(front, EncodePair), [EncodePair(b[i])], Map(back, EncodePair));
  }

  lemma MapCons(p: Pair, back: seq<Pair>)
    ensures Map([p] + back, EncodePair) == [EncodePair(p)] + Map(back, EncodePair)
  {
    assert ([p] + back)[1..] == back;
  }

  lemma {:induction false} MapJoin(a: seq<Pair>, b: seq<Pair>)
    ensures Map(a + b, EncodePair) == Map(a, EncodePair) + Map(b, EncodePair)
  {
    if a == [] {
      assert a + b == b;
    } else {
      assert (a + b)[1..] == a[1..] + b;
      MapJoin(a[1..], b);
    }
  }

  /** The order in which the parameters come does not matter. */
  lemma CanonicalInAnyOrder(a: seq<Pair>, b: seq<Pair>)
    requires multiset(a) == multiset(b)
    ensures Canonical(a) == Canonical(b)
  {
    MapPermutes(a, b);
    PairsOrder(Map(a, EncodePair));
    SortIgnoresOrder(Map(a, EncodePair), Map(b, EncodePair), PairLess);
  }

  // ---- reading it back --------------------------------------------------------------------------

  /** Up to the first separator. */
  function Until(s: Bytes, separator: char): (r: Bytes)
    ensures r <= s && separator !in r && (|r| < |s| ==> s[|r|] == separator)
  {
    if s == [] || s[0] == separator then [] else [s[0]] + Until(s[1..], separator)
  }

  lemma {:induction false} UntilSeparator(a: Bytes, separator: char, b: Bytes)
    requires separator !in a && (b == [] || b[0] == separator)
    ensures Until(a + b, separator) == a
  {
    if a == [] {
      assert a + b == b;
    } else {
      assert (a + b)[1..] == a[1..] + b;
      UntilSeparator(a[1..], separator, b);
    }
  }

  function ReadPair(s: Bytes): Option<Pair> {
    var key := Until(s, '=');
    if |key| == |s| then None else Some(Pair(key, s[|key| + 1..]))
  }

  function ReadPairs(s: Bytes): Option<seq<Pair>>
    decreases |s|
  {
    var part := Until(s, '&');
    match ReadPair(part)
    case None => None
    case Some(p) =>
      if |part| == |s| then Some([p])
      else
        match ReadPairs(s[|part| + 1..])
        case None => None
        case Some(rest) => Some([p] + rest)
  }

  function ReadQuery(s: Bytes): Option<seq<Pair>> {
    if s == [] then Some([]) else ReadPairs(s)
  }

  predicate Plain(p: Pair) {
    '=' !in p.key && '&' !in p.key && '&' !in p.value
  }

  lemma EncodedPlain(p: Pair)
    ensures Plain(EncodePair(p))
  {
  }

  lemma ReadPart(p: Pair)
    requires Plain(p)
    ensures ReadPair(Part(p)) == Some(p) && '&' !in Part(p)
  {
    assert Part(p) == p.key + (['='] + p.value);
    UntilSeparator(p.key, '=', ['='] + p.value);
    assert Part(p)[|p.key| + 1..] == p.value;
  }

  lemma ReadLast(p: Pair)
    requires Plain(p)
    ensures ReadPairs(Part(p)) == Some([p])
  {
    ReadPart(p);
    UntilSeparator(Part(p), '&', []);
    assert Part(p) + [] == Part(p);
  }

  lemma ReadNext(p: Pair, rest: Bytes)
    requires Plain(p)
    ensures ReadPairs(Part(p) + ['&'] + rest) ==
      match ReadPairs(rest) case Some(more) => Some([p] + more) case None => None
  {
    var s := Part(p) + ['&'] + rest;
    ReadPart(p);
    assert s == Part(p) + (['&'] + rest);
    UntilSeparator(Part(p), '&', ['&'] + rest);
    assert s[|Part(p)| + 1..] == rest;
  }

  lemma JoinNext(pairs: seq<Pair>)
    requires |pairs| > 1
    ensures Join(pairs) == Part(pairs[0]) + ['&'] + Join(pairs[1..]) && pairs == [pairs[0]] + pairs[1..]
  {
  }

  lemma {:induction false} ReadJoined(pairs: seq<Pair>)
    requires pairs != [] && forall p :: p in pairs ==> Plain(p)
    ensures ReadPairs(Join(pairs)) == Some(pairs) && Join(pairs) != []
  {
    if |pairs| == 1 {
      ReadLast(pairs[0]);
      assert pairs == [pairs[0]];
    } else {
      ReadJoined(pairs[1..]);
      ReadNext(pairs[0], Join(pairs[1..]));
      JoinNext(pairs);
    }
  }

  /**
   * Nothing is lost: the canonical query string can be read back to the encoded parameters in their canonical order, and
   * percent-decoding those gives the parameters back, each as often as it was given.
   */
  lemma CanonicalReadBack(pairs: seq<Pair>)
    ensures var sorted := Sort(Map(pairs, EncodePair), PairLess);
      && ReadQuery(Canonical(pairs)) == Some(sorted)
      && Ordered(sorted, PairLess)
      && multiset(sorted) == multiset(Map(pairs, EncodePair))
      && forall i :: 0 <= i < |pairs| ==>
           PercentDecode(Map(pairs, EncodePair)[i].key) == Some(pairs[i].key)
           && PercentDecode(Map(pairs, EncodePair)[i].value) == Some(pairs[i].value)
  {
    var encoded := Map(pairs, EncodePair);
    var sorted := Sort(encoded, PairLess);
    PairsOrder(encoded);
    SortOrdered(encoded, PairLess);
    SortPermutes(encoded, PairLess);
    SameMembers(sorted, encoded);
    forall p | p in sorted ensures Plain(p) {
      var i := IndexOf(encoded, p);
      EncodedPlain(pairs[i]);
    }
    if sorted != [] { ReadJoined(sorted); }
    forall i | 0 <= i < |pairs|
      ensures PercentDecode(encoded[i].key) == Some(pairs[i].key) && PercentDecode(encoded[i].value) == Some(pairs[i].value)
    {
      DecodeEncoded(pairs[i].key);
      DecodeEncoded(pairs[i].value);
    }
  }

  // ---- and decoding what was read ---------------------------------------------------------------

  function DecodePair(p: Pair): Option<Pair> {
    match PercentDecode(p.key)
    case None => None
    case Some(key) =>
      match PercentDecode(p.value)
      case None => None
      case Some(value) => Some(Pair(key, value))
  }

  function DecodePairs(pairs: seq<Pair>): Option<seq<Pair>> {
    if pairs == [] then Some([])
    else
      match DecodePair(pairs[0])
      case None => None
      case Some(p) =>
        match DecodePairs(pairs[1..])
        case None => None
        case Some(rest) => Some([p] + rest)
  }

  /** The parameters of a query string. */
  function DecodeQuery(s: Bytes): Option<seq<Pair>> {
    match ReadQuery(s)
    case None => None
    case Some(pairs) => DecodePairs(pairs)
  }

  lemma DecodeEncodedPair(p: Pair)
    ensures DecodePair(EncodePair(p)) == Some(p)
  {
    DecodeEncoded(p.key);
    DecodeEncoded(p.value);
  }

  /** Encoded parameters in any order decode to those parameters. */
  lemma {:induction false} DecodePermuted(encoded: seq<Pair>, pairs: seq<Pair>)
    requires multiset(encoded) == multiset(Map(pairs, EncodePair))
    ensures DecodePairs(encoded).Some? && multiset(DecodePairs(encoded).value) == multiset(pairs)
  {
    SameMembers(encoded, Map(pairs, EncodePair));
    if encoded != [] {
      var i := IndexOf(Map(pairs, EncodePair), encoded[0]);
      var others := pairs[..i] + pairs[i + 1..];
      OneEncodedLess(encoded, pairs, i);
      DecodePermuted(encoded[1..], others);
      DecodeEncodedPair(pairs[i]);
      PutBack(pairs, i, DecodePairs(encoded[1..]).value);
    }
  }

  lemma OneEncodedLess(encoded: seq<Pair>, pairs: seq<Pair>, i: nat)
    requires multiset(encoded) == multiset(Map(pairs, EncodePair)) && encoded != []
    requires i < |pairs| && EncodePair(pairs[i]) == encoded[0]
    ensures multiset(encoded[1..]) == multiset(Map(pairs[..i] + pairs[i + 1..], EncodePair))
  {
    MapOut(pairs, i);
    TailMultiset(encoded);
  }

  lemma PutBack(pairs: seq<Pair>, i: nat, others: seq<Pair>)
    requires i < |pairs| && multiset(others) == multiset(pairs[..i] + pairs[i + 1..])
    ensures multiset([pairs[i]] + others) == multiset(pairs)
  {
    SplitAt(pairs, i);
    OneMore(pairs[..i], [pairs[i]], pairs[i + 1..]);
  }

  /** Decoding the canonical query string gives the parameters back, each as often as it was given. */
  lemma CanonicalDecodes(pairs: seq<Pair>)
    ensures DecodeQuery(Canonical(pairs)).Some? && multiset(DecodeQuery(Canonical(pairs)).value) == multiset(pairs)
  {
    CanonicalReadBack(pairs);
    DecodePermuted(Sort(Map(pairs, EncodePair), PairLess), pairs);
  }

  /** The canonical query string says exactly which parameters there are, and how often: no more, no less. */
  lemma CanonicalExact(a: seq<Pair>, b: seq<Pair>)
    ensures Canonical(a) == Canonical(b) <==> multiset(a) == multiset(b)
  {
    if multiset(a) == multiset(b) { CanonicalInAnyOrder(a, b); }
    CanonicalDecodes(a);
    CanonicalDecodes(b);
  }

  // ---- collecting the parameters ------------------------------------------------------------------

  type Parameters = map<Bytes, seq<Bytes>>

  const SIGNATURE: Bytes := "X-Amz-Signature"

  function PairsFor(key: Bytes, values: seq<Bytes>, presigned: bool): seq<Pair> {
    if presigned && key == SIGNATURE then [] else Map(values, (v: Bytes) => Pair(key, v))
  }

  /** All parameters, key by key, in the given order of the keys; a presigned request leaves out its signature. */
  function PairsIn(parameters: Parameters, keys: seq<Bytes>, presigned: bool): seq<Pair>
    requires forall k :: k in keys ==> k in parameters
  {
    if keys == [] then [] else PairsFor(keys[0], parameters[keys[0]], presigned) + PairsIn(parameters, keys[1..], presigned)
  }

  lemma {:induction false} PairsConcat(parameters: Parameters, a: seq<Bytes>, b: seq<Bytes>, presigned: bool)
    requires (forall k :: k in a ==> k in parameters) && (forall k :: k in b ==> k in parameters)
    ensures PairsIn(parameters, a + b, presigned) == PairsIn(parameters, a, presigned) + PairsIn(parameters, b, presigned)
  {
    if a == [] {
      assert a + b == b;
    } else {
      assert (a + b)[1..] == a[1..] + b;
      PairsConcat(parameters, a[1..], b, presigned);
    }
  }

  lemma PairsOut(parameters: Parameters, b: seq<Bytes>, i: nat, presigned: bool)
    requires i < |b| && forall k :: k in b ==> k in parameters
    ensures forall k :: k in b[..i] + b[i + 1..] ==> k in parameters
    ensures multiset(PairsIn(parameters, b, presigned)) ==
            multiset(PairsIn(parameters, b[..i] + b[i + 1..], presigned)) + multiset(PairsFor(b[i], parameters[b[i]], presigned))
  {
    var front, back := b[..i], b[i + 1..];
    assert forall k :: k in front + back ==> k in b;
    SplitAt(b, i);
    PairsConcat(parameters, front, back, presigned);
    PairsConcat(parameters, front, [b[i]] + back, presigned);
    OneMore(PairsIn(parameters, front, presigned), PairsFor(b[i], parameters[b[i]], presigned), PairsIn(parameters, back, presigned));
  }

  lemma {:induction false} PairsPermute(parameters: Parameters, a: seq<Bytes>, b: seq<Bytes>, presigned: bool)
    requires (forall k :: k in a ==> k in parameters) && (forall k :: k in b ==> k in parameters)
    requires multiset(a) == multiset(b)
    ensures multiset(PairsIn(parameters, a, presigned)) == multiset(PairsIn(parameters, b, presigned))
  {
    SameMembers(a, b);
    if a != [] {
      var i := IndexOf(b, a[0]);
      WithoutFirst(a, b, i);
      PairsOut(parameters, b, i, presigned);
      PairsPermute(parameters, a[1..], b[..i] + b[i + 1..], presigned);
    }
  }

  lemma PairsMore(parameters: Parameters, visited: seq<Bytes>, key: Bytes, presigned: bool)
    requires key in parameters && forall k :: k in visited ==> k in parameters
    ensures Map(PairsIn(parameters, visited + [key], presigned), EncodePair) ==
            Map(PairsIn(parameters, visited, presigned), EncodePair) + Map(PairsFor(key, parameters[key], presigned), EncodePair)
  {
    PairsConcat(parameters, visited, [key], presigned);
    assert [key][1..] == [];
    assert PairsIn(parameters, [key], presigned) == PairsFor(key, parameters[key], presigned) + [];
    MapJoin(PairsIn(parameters, visited, presigned), PairsFor(key, parameters[key], presigned));
  }

  ghost predicate Enumerates(keys: seq<Bytes>, parameters: Parameters) {
    Distinct(keys) && forall k :: k in keys <==> k in parameters
  }

  lemma AnyEnumeration(parameters: Parameters, a: seq<Bytes>, b: seq<Bytes>, presigned: bool)
    requires Enumerates(a, parameters) && Enumerates(b, parameters)
    ensures Canonical(PairsIn(parameters, a, presigned)) == Canonical(PairsIn(parameters, b, presigned))
  {
    DistinctMultiset(a);
    DistinctMultiset(b);
    assert (set k | k in a) == parameters.Keys == (set k | k in b);
    PairsPermute(parameters, a, b, presigned);
    CanonicalInAnyOrder(PairsIn(parameters, a, presigned), PairsIn(parameters, b, presigned));
  }

  /** Encodes and collects the values of one key. */
  method CollectPairs(key: Bytes, values: seq<Bytes>, presigned: bool) returns (pairs: seq<Pair>)
    ensures pairs == Map(PairsFor(key, values, presigned), EncodePair)
  {
    pairs := [];
    if presigned && key == SIGNATURE {
      return;
    }
    for i := 0 to |values|
      invariant |pairs| == i
      invariant forall j :: 0 <= j < i ==> pairs[j] == EncodePair(Pair(key, values[j]))
    {
      var encodedKey := AwsPercentEncode(key);
      var encodedValue := AwsPercentEncode(values[i]);
      pairs := pairs + [Pair(encodedKey, encodedValue)];
    }
  }

  /**
   * `buildCanonicalQueryString`. The map gives its keys in any order; the result is the canonical string of the
   * parameters in every order.
   */
  method BuildCanonicalQueryString(parameters: Parameters, presigned: bool) returns (query: Bytes)
    ensures forall keys :: Enumerates(keys, parameters) ==> query == Canonical(PairsIn(parameters, keys, presigned))
  {
    var pairs: seq<Pair> := [];
    ghost var visited: seq<Bytes> := [];
    var rest := parameters.Keys;
    while rest != {}
      invariant rest <= parameters.Keys
      invariant Distinct(visited) && forall k :: k in visited <==> k in parameters && k !in rest
      invariant pairs == Map(PairsIn(parameters, visited, presigned), EncodePair)
      decreases rest
    {
      var key :| key in rest;
      var more := CollectPairs(key, parameters[key], presigned);
      PairsMore(parameters, visited, key, presigned);
      pairs := pairs + more;
      visited := visited + [key];
      rest := rest - {key};
    }
    var sorted := Sort(pairs, PairLess);
    query := Join(sorted);
    forall keys | Enumerates(keys, parameters) ensures query == Canonical(PairsIn(parameters, keys, presigned)) {
      AnyEnumeration(parameters, visited, keys, presigned);
    }
  }
}
