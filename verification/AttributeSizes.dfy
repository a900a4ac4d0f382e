/** Accepting message attributes: what is kept of them, and that both ways of measuring them agree. */
module AttributeSizes {
  import opened Records
  import opened Sequences
  import opened Strings
  import opened AttributeDigest

  /** An attribute as it comes with a request. */
  datatype Raw = Raw(isStructure: bool, dataType: string, stringValue: string, binaryValue: string, hasLists: bool)

  type RawAttributes = map<string, Raw>

  /** The library checks the service relies on: name and text patterns, and base64. */
  datatype Checks = Checks(validName: (string, bool) -> bool, validText: string -> bool, decode: string -> Option<string>)

  datatype Normalized = Normalized(attrs: map<string, Attribute>, size: nat)

  function SizeOf(name: string, a: Attribute): nat {
    |name| + |a.dataType| + |a.stringValue| + |a.binaryValue|
  }

  /** What is kept of one attribute: its type, and only the value its type calls for. */
  function Accepted(name: string, raw: Raw, system: bool, checks: Checks): Result<Attribute> {
    if !checks.validName(name, system) || !raw.isStructure || raw.dataType == "" || raw.hasLists then Err(InvalidParameterValue)
    else if HasPrefix(raw.dataType, "Binary") then
      if raw.binaryValue == "" || checks.decode(raw.binaryValue).None? || system then Err(InvalidParameterValue)
      else Ok(Attribute(raw.dataType, "", raw.binaryValue))
    else if raw.stringValue == "" then Err(InvalidParameterValue)
    else if !checks.validText(raw.stringValue) then Err(InvalidMessageContents)
    else if system && (name != "AWSTraceHeader" || !HasPrefix(raw.dataType, "String")) then Err(InvalidParameterValue)
    else Ok(Attribute(raw.dataType, raw.stringValue, ""))
  }

  // ---- what normalising comes to --------------------------------------------------------------

  function SumSizes(attrs: map<string, Attribute>, names: seq<string>): nat
    requires forall n :: n in names ==> n in attrs
  {
    if names == [] then 0 else SizeOf(names[0], attrs[names[0]]) + SumSizes(attrs, names[1..])
  }

  /** The sizes of all attributes together. */
  ghost function TotalSize(attrs: map<string, Attribute>): nat {
    SumSizes(attrs, Names(attrs))
  }

  /** The accepted ones among the attributes, as they are kept. */
  ghost function Kept(raw: RawAttributes, system: bool, checks: Checks): map<string, Attribute> {
    map n | n in raw && Accepted(n, raw[n], system, checks).Ok? :: Accepted(n, raw[n], system, checks).value
  }

  /** Why the first of the named attributes that is refused is refused. */
  ghost function Refusal(raw: RawAttributes, names: seq<string>, system: bool, checks: Checks): Option<ApiError>
    requires forall n :: n in names ==> n in raw
  {
    if names == [] then None
    else
      match Accepted(names[0], raw[names[0]], system, checks)
      case Err(e) => Some(e)
      case Ok(_) => Refusal(raw, names[1..], system, checks)
  }

  /** The attributes as accepted and their size, or the error of the first refused name in byte order. */
  ghost function NormalizedOf(raw: RawAttributes, system: bool, checks: Checks): Result<Normalized> {
    if |raw| > 10 && !system then Err(InvalidParameterValue)
    else
      match Refusal(raw, Names(raw), system, checks)
      case Some(e) => Err(e)
      case None => Ok(Normalized(Kept(raw, system, checks), TotalSize(Kept(raw, system, checks))))
  }

  lemma {:induction false} RefusesFirst(raw: RawAttributes, names: seq<string>, system: bool, checks: Checks)
    requires forall n :: n in names ==> n in raw
    ensures Refusal(raw, names, system, checks).None? <==> forall n :: n in names ==> Accepted(n, raw[n], system, checks).Ok?
    ensures Refusal(raw, names, system, checks).Some? ==> exists i ::
      && 0 <= i < |names| && Accepted(names[i], raw[names[i]], system, checks) == Err(Refusal(raw, names, system, checks).value)
      && forall j :: 0 <= j < i ==> Accepted(names[j], raw[names[j]], system, checks).Ok?
  {
    if names != [] {
      RefusesFirst(raw, names[1..], system, checks);
      if Accepted(names[0], raw[names[0]], system, checks).Err? {
        assert names[0] in names;
      } else if Refusal(raw, names[1..], system, checks).Some? {
        var i :| 0 <= i < |names[1..]| && Accepted(names[1..][i], raw[names[1..][i]], system, checks) ==
                                          Err(Refusal(raw, names[1..], system, checks).value)
                 && forall j :: 0 <= j < i ==> Accepted(names[1..][j], raw[names[1..][j]], system, checks).Ok?;
        assert forall j :: 0 < j < i + 1 ==> names[j] == names[1..][j - 1];
        assert names[i + 1] == names[1..][i];
      }
    }
  }

  /**
   * Attributes are accepted if and only if there are not too many and each is accepted; then all of them are kept, each as its
   * type calls for.
   */
  lemma NormalizedAccepts(raw: RawAttributes, system: bool, checks: Checks)
    ensures NormalizedOf(raw, system, checks).Ok? <==>
      (system || |raw| <= 10) && forall n :: n in raw ==> Accepted(n, raw[n], system, checks).Ok?
    ensures NormalizedOf(raw, system, checks).Ok? ==>
      var attrs := NormalizedOf(raw, system, checks).value.attrs;
      attrs.Keys == raw.Keys && forall n :: n in raw ==> Accepted(n, raw[n], system, checks) == Ok(attrs[n])
  {
    RefusesFirst(raw, Names(raw), system, checks);
  }

  lemma AcceptedField(name: string, raw: Raw, system: bool, checks: Checks)
    ensures Accepted(name, raw, system, checks).Ok? ==> FieldOf(name, Accepted(name, raw, system, checks).value, checks.decode).Some?
  {
  }

  /** Attributes each of which was accepted can be hashed: every binary value among them was decoded. */
  lemma EachDecoded(raw: RawAttributes, attrs: map<string, Attribute>, names: seq<string>, system: bool, checks: Checks)
    requires attrs.Keys == raw.Keys && forall n :: n in raw ==> Accepted(n, raw[n], system, checks) == Ok(attrs[n])
    requires forall n :: n in names ==> n in attrs
    ensures FieldsOf(attrs, names, checks.decode).Some?
  {
    forall n | n in names ensures FieldOf(n, attrs[n], checks.decode).Some? {
      AcceptedField(n, raw[n], system, checks);
    }
    AllDecoded(attrs, names, checks.decode);
  }

  /** Accepted attributes can always be hashed. */
  lemma AcceptedDecode(raw: RawAttributes, system: bool, checks: Checks)
    requires NormalizedOf(raw, system, checks).Ok?
    ensures SortedFields(NormalizedOf(raw, system, checks).value.attrs, checks.decode).Some?
  {
    var attrs := NormalizedOf(raw, system, checks).value.attrs;
    NormalizedAccepts(raw, system, checks);
    EachDecoded(raw, attrs, Names(attrs), system, checks);
  }

  // ---- measuring ------------------------------------------------------------------------------

  lemma {:induction false} SumConcat(attrs: map<string, Attribute>, a: seq<string>, b: seq<string>)
    requires (forall n :: n in a ==> n in attrs) && (forall n :: n in b ==> n in attrs)
    ensures SumSizes(attrs, a + b) == SumSizes(attrs, a) + SumSizes(attrs, b)
  {
    if a == [] {
      assert a + b == b;
    } else {
      assert (a + b)[1..] == a[1..] + b;
      SumConcat(attrs, a[1..], b);
    }
  }

  /** A sum does not depend on the order. */
  lemma {:induction false} SumPermutes(attrs: map<string, Attribute>, a: seq<string>, b: seq<string>)
    requires (forall n :: n in a ==> n in attrs) && (forall n :: n in b ==> n in attrs)
    requires multiset(a) == multiset(b)
    ensures SumSizes(attrs, a) == SumSizes(attrs, b)
  {
    SameMembers(a, b);
    if a != [] {
      var i := IndexOf(b, a[0]);
      WithoutFirst(a, b, i);
      SumOut(attrs, b, i);
      SumPermutes(attrs, a[1..], b[..i] + b[i + 1..]);
    }
  }

  lemma SumOut(attrs: map<string, Attribute>, b: seq<string>, i: nat)
    requires i < |b| && forall n :: n in b ==> n in attrs
    ensures forall n :: n in b[..i] + b[i + 1..] ==> n in attrs
    ensures SumSizes(attrs, b) == SizeOf(b[i], attrs[b[i]]) + SumSizes(attrs, b[..i] + b[i + 1..])
  {
    var front, back := b[..i], b[i + 1..];
    assert forall n :: n in front + back ==> n in b;
    SumConcat(attrs, front, back);
    assert b == front + ([b[i]] + back) && ([b[i]] + back)[1..] == back;
    SumConcat(attrs, front, [b[i]] + back);
  }

  lemma TotalInAnyOrder(attrs: map<string, Attribute>, names: seq<string>)
    requires Distinct(names) && forall n :: n in names <==> n in attrs
    ensures SumSizes(attrs, names) == TotalSize(attrs)
  {
    NamesListed(attrs.Keys);
    DistinctMultiset(names);
    DistinctMultiset(Names(attrs));
    assert (set n | n in names) == attrs.Keys == (set n | n in Names(attrs));
    SumPermutes(attrs, names, Names(attrs));
  }

  /** `estimateMessageSize`: the attributes are visited in whatever order the map gives them. */
  method EstimateMessageSize(body: string, attrs: map<string, Attribute>) returns (size: nat)
    ensures size == |body| + TotalSize(attrs)
  {
    size := |body|;
    ghost var visited: seq<string> := [];
    var rest := attrs.Keys;
    while rest != {}
      invariant rest <= attrs.Keys
      invariant Distinct(visited) && forall n :: n in visited <==> n in attrs && n !in rest
      invariant size == |body| + SumSizes(attrs, visited)
      decreases rest
    {
      var name :| name in rest;
      SumConcat(attrs, visited, [name]);
      size := size + |name| + |attrs[name].dataType| + |attrs[name].stringValue| + |attrs[name].binaryValue|;
      visited := visited + [name];
      rest := rest - {name};
    }
    TotalInAnyOrder(attrs, visited);
  }

  // ---- accepting ------------------------------------------------------------------------------

  /** The kept ones under some of the names. */
  ghost function KeptUnder(raw: RawAttributes, names: seq<string>, system: bool, checks: Checks): map<string, Attribute> {
    map n | n in Kept(raw, system, checks) && n in names :: Kept(raw, system, checks)[n]
  }

  lemma KeptMore(raw: RawAttributes, front: seq<string>, name: string, system: bool, checks: Checks)
    requires name in raw && Accepted(name, raw[name], system, checks).Ok?
    ensures KeptUnder(raw, front + [name], system, checks) ==
            KeptUnder(raw, front, system, checks)[name := Accepted(name, raw[name], system, checks).value]
  {
  }

  lemma {:induction false} SumOfFewer(a: map<string, Attribute>, b: map<string, Attribute>, names: seq<string>)
    requires forall n :: n in names ==> n in a && n in b && a[n] == b[n]
    ensures SumSizes(a, names) == SumSizes(b, names)
  {
    if names != [] { SumOfFewer(a, b, names[1..]); }
  }

  ghost predicate AllAccepted(raw: RawAttributes, names: seq<string>, system: bool, checks: Checks) {
    forall n :: n in names ==> n in raw && Accepted(n, raw[n], system, checks).Ok?
  }

  /** The loop has kept, and measured, the attributes under these names. */
  ghost predicate KeptFor(raw: RawAttributes, names: seq<string>, system: bool, checks: Checks, n: Normalized) {
    && AllAccepted(raw, names, system, checks)
    && n.attrs == KeptUnder(raw, names, system, checks) && n.size == SumSizes(n.attrs, names)
  }

  lemma SumMore(attrs: map<string, Attribute>, names: seq<string>, name: string, kept: Attribute)
    requires name !in names && forall n :: n in names ==> n in attrs
    ensures SumSizes(attrs[name := kept], names + [name]) == SumSizes(attrs, names) + SizeOf(name, kept)
  {
    var more := attrs[name := kept];
    SumOfFewer(attrs, more, names);
    SumConcat(more, names, [name]);
    assert [name][1..] == [];
  }

  lemma KeptNext(raw: RawAttributes, front: seq<string>, name: string, system: bool, checks: Checks, n: Normalized)
    requires name !in front && name in raw && Accepted(name, raw[name], system, checks).Ok?
    requires KeptFor(raw, front, system, checks, n)
    ensures var kept := Accepted(name, raw[name], system, checks).value;
      KeptFor(raw, front + [name], system, checks, Normalized(n.attrs[name := kept], n.size + SizeOf(name, kept)))
  {
    KeptMore(raw, front, name, system, checks);
    SumMore(n.attrs, front, name, Accepted(name, raw[name], system, checks).value);
  }

  /** The body of the loop of `normalizeMessageAttributeMap`: one attribute. */
  method KeepAttribute(name: string, raw: Raw, system: bool, checks: Checks) returns (kept: Result<Attribute>)
    ensures kept == Accepted(name, raw, system, checks)
  {
    if !checks.validName(name, system) || !raw.isStructure || raw.dataType == "" || raw.hasLists {
      return Err(InvalidParameterValue);
    }
    var attribute := Attribute(raw.dataType, "", "");
    assert "Binary"[0] == 'B' && "String"[0] == 'S';
    if HasPrefix(raw.dataType, "Binary") {
      var decoded := checks.decode(raw.binaryValue);
      if raw.binaryValue == "" || decoded.None? {
        return Err(InvalidParameterValue);
      }
      attribute := attribute.(binaryValue := raw.binaryValue);
    } else {
      if raw.stringValue == "" {
        return Err(InvalidParameterValue);
      }
      if !checks.validText(raw.stringValue) {
        return Err(InvalidMessageContents);
      }
      attribute := attribute.(stringValue := raw.stringValue);
    }
    if system && (name != "AWSTraceHeader" || !HasPrefix(raw.dataType, "String")) {
      return Err(InvalidParameterValue);
    }
    kept := Ok(attribute);
  }

  /** The loop of `normalizeMessageAttributeMap`, over the sorted names. */
  method KeepAttributes(raw: RawAttributes, names: seq<string>, system: bool, checks: Checks) returns (result: Result<Normalized>)
    requires Unrepeated(names) && forall n :: n in names ==> n in raw
    ensures match Refusal(raw, names, system, checks)
      case Some(e) => result == Err(e)
      case None => result.Ok? && KeptFor(raw, names, system, checks, result.value)
  {
    var out: map<string, Attribute>, size: nat := map[], 0;
    assert names[0..] == names;
    for i := 0 to |names|
      invariant KeptFor(raw, names[..i], system, checks, Normalized(out, size))
      invariant Refusal(raw, names[i..], system, checks) == Refusal(raw, names, system, checks)
    {
      var name := names[i];
      BackStep(names, i);
      FrontStep(names, i);
      var kept := KeepAttribute(name, raw[name], system, checks);
      if kept.Err? {
        return Err(kept.error);
      }
      KeptNext(raw, names[..i], name, system, checks, Normalized(out, size));
      out := out[name := kept.value];
      size := size + |name| + |kept.value.dataType| + |kept.value.stringValue| + |kept.value.binaryValue|;
    }
    assert names[..|names|] == names;
    result := Ok(Normalized(out, size));
  }

  /**
   * `normalizeMessageAttributeMap`: it accepts the attributes if it accepts each of them, keeps of each what its type
   * calls for, and measures what it keeps; if it refuses, it is for the first refused name.
   */
  method NormalizeAttributes(raw: RawAttributes, system: bool, checks: Checks) returns (result: Result<Normalized>)
    ensures result == NormalizedOf(raw, system, checks)
    ensures result.Ok? <==> (system || |raw| <= 10) && forall n :: n in raw ==> Accepted(n, raw[n], system, checks).Ok?
    ensures result.Ok? ==>
      && result.value.attrs.Keys == raw.Keys
      && (forall n :: n in raw ==> Accepted(n, raw[n], system, checks) == Ok(result.value.attrs[n]))
      && result.value.size == TotalSize(result.value.attrs)
  {
    NormalizedAccepts(raw, system, checks);
    if |raw| > 10 && !system {
      return Err(InvalidParameterValue);
    }
    NamesListed(raw.Keys);
    var names := List(raw.Keys, Less);
    DistinctUnrepeated(names);
    result := KeepAttributes(raw, names, system, checks);
    if result.Ok? {
      KeptAll(raw, names, system, checks, result.value);
    }
  }

  lemma KeptAll(raw: RawAttributes, names: seq<string>, system: bool, checks: Checks, n: Normalized)
    requires Distinct(names) && (forall n :: n in names <==> n in raw) && KeptFor(raw, names, system, checks, n)
    ensures n == Normalized(Kept(raw, system, checks), TotalSize(Kept(raw, system, checks)))
  {
    assert n.attrs == Kept(raw, system, checks);
    TotalInAnyOrder(n.attrs, names);
  }

  /**
   * How a batch measures an entry: it takes the attributes as accepted, and estimates. The estimate is the length
   * of the body and the size found on acceptance.
   */
  method BatchEntrySize(body: string, raw: RawAttributes, checks: Checks) returns (estimate: Result<nat>)
    ensures estimate == match NormalizedOf(raw, false, checks)
      case Ok(accepted) => Ok(|body| + accepted.size)
      case Err(e) => Err(e)
  {
    var normalized := NormalizeAttributes(raw, false, checks);
    if normalized.Err? {
      return Err(normalized.error);
    }
    var total := EstimateMessageSize(body, normalized.value.attrs);
    estimate := Ok(total);
  }
}
