/** The Query protocol decoder: flat dotted keys to nested values, driven by a registry of shapes. */
module QueryDecoding {
  import opened Records
  import opened Sequences
  import opened Numerals
  import opened Strings

  datatype Kind = Structure | ListOf | MapOf | Integer | Long | Boolean | Text

  datatype Member = Member(shape: string, locationName: string)

  /** `element` is the member shape of a list and the value shape of a map. */
  datatype Shape = Shape(kind: Kind, memberOrder: seq<string>, members: map<string, Member>, element: string)

  type Registry = map<string, Shape>

  /** The form values of a request: every key with its values in order. */
  type Form = map<string, seq<string>>

  datatype Value =
    | Struct(fields: map<string, Value>)
    | Items(items: seq<Value>)
    | Entries(entries: map<string, Value>)
    | Number(number: int)
    | Flag(flag: bool)
    | Str(text: string)

  // ---- names ----------------------------------------------------------------------------

  predicate EndsWith(s: string, suffix: string) {
    |suffix| <= |s| && s[|s| - |suffix|..] == suffix
  }

  function Cut(s: string, n: nat): string
    requires n <= |s|
  {
    s[..|s| - n]
  }

  function Singularize(name: string): string {
    if EndsWith(name, "ies") then Cut(name, 3) + "y"
    else if EndsWith(name, "sses") then Cut(name, 2)
    else if EndsWith(name, "s") then Cut(name, 1)
    else name
  }

  function CollectionWireName(memberName: string, shapeName: string): string {
    if shapeName == "QueueAttributeMap" then "Attribute"
    else if shapeName == "MessageBodyAttributeMap" then "MessageAttribute"
    else if shapeName == "MessageSystemAttributeMap" then "Attribute"
    else if shapeName == "MessageSystemAttributeList" then "MessageSystemAttributeName"
    else if shapeName == "TagMap" then "Tag"
    else if EndsWith(shapeName, "List") then Cut(shapeName, 4)
    else if EndsWith(shapeName, "Map") then Cut(shapeName, 3)
    else Singularize(memberName)
  }

  function WireName(reg: Registry, memberName: string, member: Member): string
    requires member.shape in reg
  {
    if member.locationName != "" then member.locationName
    else if reg[member.shape].kind in {ListOf, MapOf} then CollectionWireName(memberName, member.shape)
    else memberName
  }

  predicate DotFree(s: string) { '.' !in s }

  /** Names without dots have wire names without dots. */
  lemma WireNameDotFree(reg: Registry, memberName: string, member: Member)
    requires member.shape in reg
    requires DotFree(memberName) && DotFree(member.shape) && DotFree(member.locationName)
    ensures DotFree(WireName(reg, memberName, member))
  {
  }

  // ---- the registry -----------------------------------------------------------------------

  /** Every reference resolves, and leads to a shape of smaller rank: the registry is acyclic. */
  ghost predicate Ranked(reg: Registry, rank: map<string, nat>) {
    forall s :: s in reg ==>
      && s in rank
      && (reg[s].kind == Structure ==> forall n :: n in reg[s].memberOrder ==>
            n in reg[s].members && reg[s].members[n].shape in reg
            && reg[s].members[n].shape in rank && rank[reg[s].members[n].shape] < rank[s])
      && (reg[s].kind in {ListOf, MapOf} ==>
            reg[s].element in reg && reg[s].element in rank && rank[reg[s].element] < rank[s])
  }

  function Wire(reg: Registry, s: string, n: string): string
    requires s in reg && n in reg[s].members && reg[s].members[n].shape in reg
  {
    WireName(reg, n, reg[s].members[n])
  }

  /** The members of every structure have distinct wire names without dots. */
  ghost predicate Wired(reg: Registry, rank: map<string, nat>)
    requires Ranked(reg, rank)
  {
    forall s :: s in reg && reg[s].kind == Structure ==>
      && Distinct(reg[s].memberOrder)
      && (forall n :: n in reg[s].memberOrder ==> Wire(reg, s, n) != "" && DotFree(Wire(reg, s, n)))
      && (forall a, b :: a in reg[s].memberOrder && b in reg[s].memberOrder && Wire(reg, s, a) == Wire(reg, s, b) ==> a == b)
  }

  /** What the names in a registry must be like: no dots anywhere, and no empty or repeated wire name in a structure. */
  ghost predicate Named(reg: Registry, rank: map<string, nat>)
    requires Ranked(reg, rank)
  {
    && (forall s :: s in reg ==> DotFree(s))
    && forall s :: s in reg && reg[s].kind == Structure ==>
      && Distinct(reg[s].memberOrder)
      && (forall n :: n in reg[s].memberOrder ==>
            DotFree(n) && DotFree(reg[s].members[n].locationName) && Wire(reg, s, n) != "")
      && (forall a, b :: a in reg[s].memberOrder && b in reg[s].memberOrder && Wire(reg, s, a) == Wire(reg, s, b) ==> a == b)
  }

  /** Such a registry meets the hypothesis of the round trip: its wire names are free of dots too. */
  lemma NamedWired(reg: Registry, rank: map<string, nat>)
    requires Ranked(reg, rank) && Named(reg, rank)
    ensures Wired(reg, rank)
  {
    forall s, n | s in reg && reg[s].kind == Structure && n in reg[s].memberOrder ensures DotFree(Wire(reg, s, n)) {
      WireNameDotFree(reg, n, reg[s].members[n]);
    }
  }

  // ---- primitives -----------------------------------------------------------------------

  function ParseBool(s: string): Option<bool> {
    if s in {"1", "t", "T", "TRUE", "true", "True"} then Some(true)
    else if s in {"0", "f", "F", "FALSE", "false", "False"} then Some(false)
    else None
  }

  function DecodePrimitive(kind: Kind, raw: string): Result<Value> {
    match kind
    case Integer | Long =>
      (match ParseInt(raw) case Some(n) => Ok(Number(n)) case None => Err(InvalidParameterValue))
    case Boolean =>
      (match ParseBool(raw) case Some(b) => Ok(Flag(b)) case None => Err(InvalidParameterValue))
    case _ => Ok(Str(raw))
  }

  // ---- indices ----------------------------------------------------------------------------

  /** Up to the first dot. */
  function Head(s: string): (h: string)
    ensures h <= s && DotFree(h)
  {
    if s == "" || s[0] == '.' then "" else [s[0]] + Head(s[1..])
  }

  /** The index a key has below a prefix, if it has one. */
  function IndexIn(key: string, prefix: string): Option<int> {
    if prefix + "." <= key then ParseInt(Head(key[|prefix| + 1..])) else None
  }

  predicate IntLess(a: int, b: int) { a < b }

  ghost function IndexSet(keys: set<string>, prefix: string): set<int> {
    set key | key in keys && IndexIn(key, prefix).Some? :: IndexIn(key, prefix).value
  }

  lemma IndexSetMore(keys: set<string>, key: string, prefix: string)
    ensures IndexSet(keys + {key}, prefix) ==
      IndexSet(keys, prefix) + if IndexIn(key, prefix).Some? then {IndexIn(key, prefix).value} else {}
  {
  }

  /** The indices below a prefix, in ascending order. */
  ghost function Indices(form: Form, prefix: string): seq<int> {
    Listed(IndexSet(form.Keys, prefix), IntLess)
  }

  lemma IntsOrdered(s: set<int>)
    ensures StrictWeak(IntLess) && Separates(s, IntLess)
  {
  }

  /** `collectIndices`: whatever order the keys are visited in, the indices come out sorted. */
  method CollectIndices(form: Form, prefix: string) returns (indices: seq<int>)
    ensures indices == Indices(form, prefix)
  {
    var seen: set<int> := {};
    var rest := form.Keys;
    while rest != {}
      invariant rest <= form.Keys
      invariant seen == IndexSet(form.Keys - rest, prefix)
      decreases rest
    {
      var key :| key in rest;
      IndexSetMore(form.Keys - rest, key, prefix);
      assert form.Keys - (rest - {key}) == form.Keys - rest + {key};
      if prefix + "." <= key {
        var index := ParseInt(Head(key[|prefix| + 1..]));
        if index.Some? {
          seen := seen + {index.value};
        }
      }
      rest := rest - {key};
    }
    assert form.Keys - rest == form.Keys;
    IntsOrdered(seen);
    indices := List(seen, IntLess);
  }

  // ---- decoding -----------------------------------------------------------------------------

  function Get(form: Form, key: string): string {
    if key in form && form[key] != [] then form[key][0] else ""
  }

  function Under(prefix: string, wire: string): string {
    if prefix == "" then wire else prefix + "." + wire
  }

  function At(prefix: string, index: int): string {
    prefix + "." + IntText(index)
  }

  /** What `decodeShape` answers: an error, nothing found, or a value. */
  ghost function Decode(reg: Registry, rank: map<string, nat>, form: Form, s: string, prefix: string): Result<Option<Value>>
    requires Ranked(reg, rank) && s in reg
    decreases rank[s], 1, 0
  {
    match reg[s].kind
    case Structure =>
      (match DecodeMembers(reg, rank, form, s, reg[s].memberOrder, prefix)
       case Ok(fields) => Ok(if fields == map[] then None else Some(Struct(fields)))
       case Err(e) => Err(e))
    case ListOf =>
      (match DecodeItems(reg, rank, form, s, Indices(form, prefix), prefix)
       case Ok(items) => Ok(if items == [] then None else Some(Items(items)))
       case Err(e) => Err(e))
    case MapOf =>
      (match DecodeEntries(reg, rank, form, s, Indices(form, prefix), prefix)
       case Ok(entries) => Ok(if entries == map[] then None else Some(Entries(entries)))
       case Err(e) => Err(e))
    case kind =>
      if prefix !in form || form[prefix] == [] then Ok(None)
      else
        match DecodePrimitive(kind, form[prefix][0])
        case Ok(v) => Ok(Some(v))
        case Err(e) => Err(e)
  }

  ghost function DecodeMembers(reg: Registry, rank: map<string, nat>, form: Form, s: string, names: seq<string>, prefix: string)
    : Result<map<string, Value>>
    requires Ranked(reg, rank) && s in reg && reg[s].kind == Structure
    requires forall n :: n in names ==> n in reg[s].memberOrder
    decreases rank[s], 0, |names|
  {
    if names == [] then Ok(map[])
    else
      match Decode(reg, rank, form, reg[s].members[names[0]].shape, Under(prefix, Wire(reg, s, names[0])))
      case Err(e) => Err(e)
      case Ok(found) =>
        match DecodeMembers(reg, rank, form, s, names[1..], prefix)
        case Err(e) => Err(e)
        case Ok(rest) => Ok(if found.Some? then map[names[0] := found.value] + rest else rest)
  }

  /** A value, or failing that the bare text at its key as a primitive. */
  ghost function DecodeOrRaw(reg: Registry, rank: map<string, nat>, form: Form, s: string, prefix: string): Result<Option<Value>>
    requires Ranked(reg, rank) && s in reg
    decreases rank[s], 2, 0
  {
    match Decode(reg, rank, form, s, prefix)
    case Err(e) => Err(e)
    case Ok(Some(v)) => Ok(Some(v))
    case Ok(None) =>
      if Get(form, prefix) == "" then Ok(None)
      else
        match DecodePrimitive(reg[s].kind, Get(form, prefix))
        case Ok(v) => Ok(Some(v))
        case Err(e) => Err(e)
  }

  ghost function DecodeItems(reg: Registry, rank: map<string, nat>, form: Form, s: string, indices: seq<int>, prefix: string)
    : Result<seq<Value>>
    requires Ranked(reg, rank) && s in reg && reg[s].kind == ListOf
    decreases rank[s], 0, |indices|
  {
    if indices == [] then Ok([])
    else
      match DecodeOrRaw(reg, rank, form, reg[s].element, At(prefix, indices[0]))
      case Err(e) => Err(e)
      case Ok(found) =>
        match DecodeItems(reg, rank, form, s, indices[1..], prefix)
        case Err(e) => Err(e)
        case Ok(rest) => Ok(if found.Some? then [found.value] + rest else rest)
  }

  ghost function DecodeEntries(reg: Registry, rank: map<string, nat>, form: Form, s: string, indices: seq<int>, prefix: string)
    : Result<map<string, Value>>
    requires Ranked(reg, rank) && s in reg && reg[s].kind == MapOf
    decreases rank[s], 0, |indices| + 1
  {
    if indices == [] then Ok(map[])
    else
      match DecodeEntry(reg, rank, form, s, At(prefix, indices[0]))
      case Err(e) => Err(e)
      case Ok(found) =>
        match DecodeEntries(reg, rank, form, s, indices[1..], prefix)
        case Err(e) => Err(e)
        case Ok(rest) => Ok(if found.Some? then map[found.value.0 := found.value.1] + rest else rest)
  }

  /** One entry of a map: its key and its value, unless one of them is missing. */
  ghost function DecodeEntry(reg: Registry, rank: map<string, nat>, form: Form, s: string, at: string): Result<Option<(string, Value)>>
    requires Ranked(reg, rank) && s in reg && reg[s].kind == MapOf
    decreases rank[s], 0, 0
  {
    if Get(form, at + ".Name") == "" then Ok(None)
    else
      match DecodeOrRaw(reg, rank, form, reg[s].element, at + ".Value")
      case Err(e) => Err(e)
      case Ok(Some(v)) => Ok(Some((Get(form, at + ".Name"), v)))
      case Ok(None) => Ok(None)
  }

  // ---- the loops ------------------------------------------------------------------------------

  /** What a loop has so far, and then what it has still to find. */
  ghost function JoinFields(sofar: map<string, Value>, rest: Result<map<string, Value>>): Result<map<string, Value>> {
    match rest case Ok(fields) => Ok(sofar + fields) case Err(e) => Err(e)
  }

  ghost function JoinItems(sofar: seq<Value>, rest: Result<seq<Value>>): Result<seq<Value>> {
    match rest case Ok(items) => Ok(sofar + items) case Err(e) => Err(e)
  }

  lemma JoinStart(rest: Result<map<string, Value>>)
    ensures JoinFields(map[], rest) == rest
  {
    if rest.Ok? { assert map[] + rest.value == rest.value; }
  }

  lemma JoinOne(sofar: map<string, Value>, name: string, v: Value, rest: map<string, Value>)
    ensures sofar + (map[name := v] + rest) == sofar[name := v] + rest
  {
  }

  /** One member of a structure. */
  method DecodeMember(reg: Registry, ghost rank: map<string, nat>, form: Form, s: string, name: string, prefix: string)
    returns (child: Result<Option<Value>>)
    requires Ranked(reg, rank) && s in reg && reg[s].kind == Structure && name in reg[s].memberOrder
    ensures child == Decode(reg, rank, form, reg[s].members[name].shape, Under(prefix, Wire(reg, s, name)))
    decreases rank[s], 0, 0
  {
    var member := reg[s].members[name];
    child := DecodeShape(reg, rank, form, member.shape, Under(prefix, WireName(reg, name, member)));
  }

  /** The structure case of `decodeShape`. */
  method DecodeStructure(reg: Registry, ghost rank: map<string, nat>, form: Form, s: string, prefix: string)
    returns (result: Result<map<string, Value>>)
    requires Ranked(reg, rank) && s in reg && reg[s].kind == Structure
    ensures result == DecodeMembers(reg, rank, form, s, reg[s].memberOrder, prefix)
    decreases rank[s], 0, 1
  {
    var names, out := reg[s].memberOrder, map[];
    ghost var whole := DecodeMembers(reg, rank, form, s, names, prefix);
    assert names[0..] == names;
    JoinStart(whole);
    for i := 0 to |names|
      invariant JoinFields(out, MembersFrom(reg, rank, form, s, prefix, i)) == whole
    {
      var child := DecodeMember(reg, rank, form, s, names[i], prefix);
      MemberStep(reg, rank, form, s, prefix, i, out, child);
      if child.Err? {
        return Err(child.error);
      }
      if child.value.Some? {
        out := out[names[i] := child.value.value];
      }
    }
    MembersDone(reg, rank, form, s, prefix, out);
    result := Ok(out);
  }

  /** What the members from the `i`th on decode to. */
  ghost function MembersFrom(reg: Registry, rank: map<string, nat>, form: Form, s: string, prefix: string, i: nat): Result<map<string, Value>>
    requires Ranked(reg, rank) && s in reg && reg[s].kind == Structure && i <= |reg[s].memberOrder|
    decreases rank[s], 0, |reg[s].memberOrder| + 1
  {
    DecodeMembers(reg, rank, form, s, reg[s].memberOrder[i..], prefix)
  }

  lemma MembersDone(reg: Registry, rank: map<string, nat>, form: Form, s: string, prefix: string, out: map<string, Value>)
    requires Ranked(reg, rank) && s in reg && reg[s].kind == Structure
    ensures JoinFields(out, MembersFrom(reg, rank, form, s, prefix, |reg[s].memberOrder|)) == Ok(out)
  {
    assert out + map[] == out;
  }

  lemma MemberStep(reg: Registry, rank: map<string, nat>, form: Form, s: string, prefix: string, i: nat, out: map<string, Value>,
                   child: Result<Option<Value>>)
    requires Ranked(reg, rank) && s in reg && reg[s].kind == Structure && i < |reg[s].memberOrder|
    requires var name := reg[s].memberOrder[i];
      child == Decode(reg, rank, form, reg[s].members[name].shape, Under(prefix, Wire(reg, s, name)))
    ensures JoinFields(out, MembersFrom(reg, rank, form, s, prefix, i)) ==
      match child
      case Err(e) => Err(e)
      case Ok(found) =>
        JoinFields(if found.Some? then out[reg[s].memberOrder[i] := found.value] else out,
                   MembersFrom(reg, rank, form, s, prefix, i + 1))
  {
    var names := reg[s].memberOrder;
    BackStep(names, i);
    var rest := DecodeMembers(reg, rank, form, s, names[i + 1..], prefix);
    if child.Ok? && child.value.Some? && rest.Ok? { JoinOne(out, names[i], child.value.value, rest.value); }
  }

  /** A list's item or a map's value: `decodeShape`, and if that finds nothing the bare text. */
  method DecodeElement(reg: Registry, ghost rank: map<string, nat>, form: Form, s: string, prefix: string)
    returns (result: Result<Option<Value>>)
    requires Ranked(reg, rank) && s in reg
    ensures result == DecodeOrRaw(reg, rank, form, s, prefix)
    decreases rank[s], 2, 0
  {
    result := DecodeShape(reg, rank, form, s, prefix);
    if result.Err? || result.value.Some? {
      return;
    }
    var raw := Get(form, prefix);
    if raw == "" {
      return;
    }
    var primitive := DecodePrimitive(reg[s].kind, raw);
    result := match primitive case Ok(v) => Ok(Some(v)) case Err(e) => Err(e);
  }

  /** The list case of `decodeShape`. */
  method DecodeList(reg: Registry, ghost rank: map<string, nat>, form: Form, s: string, prefix: string)
    returns (result: Result<seq<Value>>)
    requires Ranked(reg, rank) && s in reg && reg[s].kind == ListOf
    ensures result == DecodeItems(reg, rank, form, s, Indices(form, prefix), prefix)
    decreases rank[s], 0, 0
  {
    var indices := CollectIndices(form, prefix);
    var items := [];
    assert indices[0..] == indices;
    JoinNothing(DecodeItems(reg, rank, form, s, indices, prefix));
    for i := 0 to |indices|
      invariant JoinItems(items, DecodeItems(reg, rank, form, s, indices[i..], prefix))
                == DecodeItems(reg, rank, form, s, indices, prefix)
    {
      ItemStep(reg, rank, form, s, indices, prefix, i, items);
      var item := DecodeElement(reg, rank, form, reg[s].element, At(prefix, indices[i]));
      if item.Err? {
        return Err(item.error);
      }
      if item.value.Some? {
        items := items + [item.value.value];
      }
    }
    assert items + [] == items;
    result := Ok(items);
  }

  lemma JoinNothing(rest: Result<seq<Value>>)
    ensures JoinItems([], rest) == rest
  {
    if rest.Ok? { assert [] + rest.value == rest.value; }
  }

  lemma ItemStep(reg: Registry, rank: map<string, nat>, form: Form, s: string, indices: seq<int>, prefix: string, i: nat, items: seq<Value>)
    requires Ranked(reg, rank) && s in reg && reg[s].kind == ListOf && i < |indices|
    ensures JoinItems(items, DecodeItems(reg, rank, form, s, indices[i..], prefix)) ==
      match DecodeOrRaw(reg, rank, form, reg[s].element, At(prefix, indices[i]))
      case Err(e) => Err(e)
      case Ok(found) =>
        JoinItems(if found.Some? then items + [found.value] else items, DecodeItems(reg, rank, form, s, indices[i + 1..], prefix))
  {
    assert indices[i..][0] == indices[i] && indices[i..][1..] == indices[i + 1..];
    var item := DecodeOrRaw(reg, rank, form, reg[s].element, At(prefix, indices[i]));
    var rest := DecodeItems(reg, rank, form, s, indices[i + 1..], prefix);
    if item.Ok? && item.value.Some? && rest.Ok? {
      assert items + ([item.value.value] + rest.value) == items + [item.value.value] + rest.value;
    }
  }

  /** One turn of the loop of the map case. */
  method ReadEntry(reg: Registry, ghost rank: map<string, nat>, form: Form, s: string, at: string)
    returns (result: Result<Option<(string, Value)>>)
    requires Ranked(reg, rank) && s in reg && reg[s].kind == MapOf
    ensures result == DecodeEntry(reg, rank, form, s, at)
    decreases rank[s], 0, 0
  {
    var key := Get(form, at + ".Name");
    if key == "" {
      return Ok(None);
    }
    var value := DecodeElement(reg, rank, form, reg[s].element, at + ".Value");
    if value.Err? {
      return Err(value.error);
    }
    result := Ok(if value.value.Some? then Some((key, value.value.value)) else None);
  }

  /** The map case of `decodeShape`. */
  method DecodeMap(reg: Registry, ghost rank: map<string, nat>, form: Form, s: string, prefix: string)
    returns (result: Result<map<string, Value>>)
    requires Ranked(reg, rank) && s in reg && reg[s].kind == MapOf
    ensures result == DecodeEntries(reg, rank, form, s, Indices(form, prefix), prefix)
    decreases rank[s], 0, 1
  {
    var indices := CollectIndices(form, prefix);
    var out := map[];
    assert indices[0..] == indices;
    JoinStart(DecodeEntries(reg, rank, form, s, indices, prefix));
    for i := 0 to |indices|
      invariant JoinFields(out, DecodeEntries(reg, rank, form, s, indices[i..], prefix))
                == DecodeEntries(reg, rank, form, s, indices, prefix)
    {
      EntryStep(reg, rank, form, s, indices, prefix, i, out);
      var entry := ReadEntry(reg, rank, form, s, At(prefix, indices[i]));
      if entry.Err? {
        return Err(entry.error);
      }
      if entry.value.Some? {
        out := out[entry.value.value.0 := entry.value.value.1];
      }
    }
    assert out + map[] == out;
    result := Ok(out);
  }

  lemma EntryStep(reg: Registry, rank: map<string, nat>, form: Form, s: string, indices: seq<int>, prefix: string, i: nat,
                  out: map<string, Value>)
    requires Ranked(reg, rank) && s in reg && reg[s].kind == MapOf && i < |indices|
    ensures JoinFields(out, DecodeEntries(reg, rank, form, s, indices[i..], prefix)) ==
      match DecodeEntry(reg, rank, form, s, At(prefix, indices[i]))
      case Err(e) => Err(e)
      case Ok(found) =>
        JoinFields(if found.Some? then out[found.value.0 := found.value.1] else out,
                   DecodeEntries(reg, rank, form, s, indices[i + 1..], prefix))
  {
    assert indices[i..][0] == indices[i] && indices[i..][1..] == indices[i + 1..];
    var entry := DecodeEntry(reg, rank, form, s, At(prefix, indices[i]));
    var rest := DecodeEntries(reg, rank, form, s, indices[i + 1..], prefix);
    if entry.Ok? && entry.value.Some? && rest.Ok? { JoinOne(out, entry.value.value.0, entry.value.value.1, rest.value); }
  }

  /** `decodeShape`. It ends because every shape refers to shapes of smaller rank only. */
  method DecodeShape(reg: Registry, ghost rank: map<string, nat>, form: Form, s: string, prefix: string)
    returns (result: Result<Option<Value>>)
    requires Ranked(reg, rank) && s in reg
    ensures result == Decode(reg, rank, form, s, prefix)
    decreases rank[s], 1, 0
  {
    match reg[s].kind
    case Structure =>
      var fields := DecodeStructure(reg, rank, form, s, prefix);
      if fields.Err? { return Err(fields.error); }
      result := Ok(if fields.value == map[] then None else Some(Struct(fields.value)));
    case ListOf =>
      var items := DecodeList(reg, rank, form, s, prefix);
      if items.Err? { return Err(items.error); }
      result := Ok(if items.value == [] then None else Some(Items(items.value)));
    case MapOf =>
      var entries := DecodeMap(reg, rank, form, s, prefix);
      if entries.Err? { return Err(entries.error); }
      result := Ok(if entries.value == map[] then None else Some(Entries(entries.value)));
    case kind =>
      if prefix !in form || form[prefix] == [] { return Ok(None); }
      var primitive := DecodePrimitive(kind, form[prefix][0]);
      result := match primitive case Ok(v) => Ok(Some(v)) case Err(e) => Err(e);
  }
}
