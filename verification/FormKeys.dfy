/** Which form keys a request is read from, spelled out. */
module FormKeys {
  import opened Records
  import opened Sequences
  import opened Numerals
  import opened Strings
  import opened QueryDecoding
  import opened QueryRoundTrip

  // ---- structures -----------------------------------------------------------------------------

  /** A structure has exactly the members that are found under their wire names, each with the value found there. */
  lemma {:induction false} MembersRead(reg: Registry, rank: map<string, nat>, form: Form, s: string, names: seq<string>, prefix: string, n: string)
    requires Ranked(reg, rank) && s in reg && reg[s].kind == Structure && forall m :: m in names ==> m in reg[s].memberOrder
    requires DecodeMembers(reg, rank, form, s, names, prefix).Ok?
    ensures var fields := DecodeMembers(reg, rank, form, s, names, prefix).value;
      && (n in fields ==> n in names)
      && (n in names ==>
            var found := Decode(reg, rank, form, reg[s].members[n].shape, Under(prefix, Wire(reg, s, n)));
            found.Ok? && (n in fields <==> found.value.Some?) && (n in fields ==> fields[n] == found.value.value))
    decreases |names|
  {
    if names != [] { MembersRead(reg, rank, form, s, names[1..], prefix, n); }
  }

  /** A structure is refused only if the value of a member is. */
  lemma {:induction false} MembersRefused(reg: Registry, rank: map<string, nat>, form: Form, s: string, names: seq<string>, prefix: string)
    requires Ranked(reg, rank) && s in reg && reg[s].kind == Structure && forall m :: m in names ==> m in reg[s].memberOrder
    requires DecodeMembers(reg, rank, form, s, names, prefix).Err?
    ensures exists n :: n in names && Decode(reg, rank, form, reg[s].members[n].shape, Under(prefix, Wire(reg, s, n))).Err?
    decreases |names|
  {
    assert names[0] in names;
    if Decode(reg, rank, form, reg[s].members[names[0]].shape, Under(prefix, Wire(reg, s, names[0]))).Ok? {
      MembersRefused(reg, rank, form, s, names[1..], prefix);
    }
  }

  /** Numbers are decimal with 64 bits, truth values are the words of the Go library, and all else is text. */
  lemma PrimitiveRead(kind: Kind, raw: string)
    ensures kind == Integer || kind == Long ==>
      DecodePrimitive(kind, raw) == (if ParseInt(raw).Some? then Ok(Number(ParseInt(raw).value)) else Err(InvalidParameterValue))
    ensures kind == Boolean ==>
      && (DecodePrimitive(kind, raw) == Ok(Flag(true)) <==> raw in {"1", "t", "T", "TRUE", "true", "True"})
      && (DecodePrimitive(kind, raw) == Ok(Flag(false)) <==> raw in {"0", "f", "F", "FALSE", "false", "False"})
      && (DecodePrimitive(kind, raw).Err? ==> DecodePrimitive(kind, raw) == Err(InvalidParameterValue))
    ensures kind == Text ==> DecodePrimitive(kind, raw) == Ok(Str(raw))
  {
  }

  // ---- maps -----------------------------------------------------------------------------------

  /** Below the prefix and the index there is this key, with a value. */
  ghost predicate EntryAt(reg: Registry, rank: map<string, nat>, form: Form, s: string, prefix: string, i: int, k: string, v: Value)
    requires Ranked(reg, rank) && s in reg && reg[s].kind == MapOf
  {
    var at := prefix + "." + IntText(i);
    && MIN_INT64 <= i <= MAX_INT64 && k != "" && Get(form, at + ".Name") == k
    && DecodeOrRaw(reg, rank, form, reg[s].element, at + ".Value") == Ok(Some(v))
  }

  lemma EntryIs(reg: Registry, rank: map<string, nat>, form: Form, s: string, prefix: string, i: int, k: string, v: Value)
    requires Ranked(reg, rank) && s in reg && reg[s].kind == MapOf
    requires MIN_INT64 <= i <= MAX_INT64
    ensures EntryAt(reg, rank, form, s, prefix, i, k, v) <==> DecodeEntry(reg, rank, form, s, At(prefix, i)) == Ok(Some((k, v)))
  {
  }

  /** The key is that of an entry among these indices. */
  ghost predicate EntryIn(reg: Registry, rank: map<string, nat>, form: Form, s: string, indices: seq<int>, prefix: string, k: string)
    requires Ranked(reg, rank) && s in reg && reg[s].kind == MapOf
  {
    exists i, v :: i in indices && DecodeEntry(reg, rank, form, s, At(prefix, i)) == Ok(Some((k, v)))
  }

  /** The entry of the last of the indices that has the key. */
  ghost predicate LastEntry(reg: Registry, rank: map<string, nat>, form: Form, s: string, indices: seq<int>, prefix: string, k: string, v: Value)
    requires Ranked(reg, rank) && s in reg && reg[s].kind == MapOf
  {
    exists n :: 0 <= n < |indices| && DecodeEntry(reg, rank, form, s, At(prefix, indices[n])) == Ok(Some((k, v)))
                && !EntryIn(reg, rank, form, s, indices[n + 1..], prefix, k)
  }

  lemma {:induction false} LastEntryRead(reg: Registry, rank: map<string, nat>, form: Form, s: string, indices: seq<int>, prefix: string, k: string)
    requires Ranked(reg, rank) && s in reg && reg[s].kind == MapOf && DecodeEntries(reg, rank, form, s, indices, prefix).Ok?
    ensures var entries := DecodeEntries(reg, rank, form, s, indices, prefix).value;
      && (k in entries <==> EntryIn(reg, rank, form, s, indices, prefix, k))
      && (k in entries ==> LastEntry(reg, rank, form, s, indices, prefix, k, entries[k]))
    decreases |indices|
  {
    if indices != [] {
      LastEntryRead(reg, rank, form, s, indices[1..], prefix, k);
      var entries, rest := DecodeEntries(reg, rank, form, s, indices, prefix).value, DecodeEntries(reg, rank, form, s, indices[1..], prefix).value;
      var found := DecodeEntry(reg, rank, form, s, At(prefix, indices[0]));
      EntryInCons(reg, rank, form, s, indices, prefix, k);
      if k in rest {
        var n :| 0 <= n < |indices[1..]| && DecodeEntry(reg, rank, form, s, At(prefix, indices[1..][n])) == Ok(Some((k, rest[k])))
                 && !EntryIn(reg, rank, form, s, indices[1..][n + 1..], prefix, k);
        assert indices[1..][n + 1..] == indices[n + 2..] && indices[1..][n] == indices[n + 1];
      } else if k in entries {
        assert indices[0 + 1..] == indices[1..];
      }
    }
  }

  lemma EntryInCons(reg: Registry, rank: map<string, nat>, form: Form, s: string, indices: seq<int>, prefix: string, k: string)
    requires Ranked(reg, rank) && s in reg && reg[s].kind == MapOf && indices != []
    ensures EntryIn(reg, rank, form, s, indices, prefix, k) <==>
      || (exists v :: DecodeEntry(reg, rank, form, s, At(prefix, indices[0])) == Ok(Some((k, v))))
      || EntryIn(reg, rank, form, s, indices[1..], prefix, k)
  {
    assert indices == [indices[0]] + indices[1..];
  }

  lemma IntTextDotFree(n: int)
    ensures DotFree(IntText(n))
  {
    DigitsDotFree(NatText(if n < 0 then -n else n));
  }

  /** A name below the prefix makes its index one of the collected ones. */
  lemma NameIndexed(form: Form, prefix: string, i: int)
    requires MIN_INT64 <= i <= MAX_INT64 && At(prefix, i) + ".Name" in form
    ensures i in Indices(form, prefix)
  {
    var key := At(prefix, i) + ".Name";
    IntTextDotFree(i);
    assert key == (prefix + ".") + (IntText(i) + ".Name");
    assert prefix + "." <= key && key[|prefix| + 1..] == IntText(i) + ".Name";
    HeadOf(IntText(i), ".Name");
    ParseIntText(i);
    assert IndexIn(key, prefix) == Some(i);
    IntsOrdered(IndexSet(form.Keys, prefix));
    ListedRows(IndexSet(form.Keys, prefix), IntLess);
  }

  lemma {:induction false} IndexInRange(key: string, prefix: string)
    ensures IndexIn(key, prefix).Some? ==> MIN_INT64 <= IndexIn(key, prefix).value <= MAX_INT64
  {
  }

  lemma IndicesAscend(form: Form, prefix: string)
    ensures forall i :: i in Indices(form, prefix) ==> MIN_INT64 <= i <= MAX_INT64
    ensures forall a, b :: 0 <= a < b < |Indices(form, prefix)| ==> Indices(form, prefix)[a] < Indices(form, prefix)[b]
  {
    IntsOrdered(IndexSet(form.Keys, prefix));
    ListedRows(IndexSet(form.Keys, prefix), IntLess);
    forall key ensures IndexIn(key, prefix).Some? ==> MIN_INT64 <= IndexIn(key, prefix).value <= MAX_INT64 {
      IndexInRange(key, prefix);
    }
  }

  /** Some index has the key. */
  ghost predicate EntryFor(reg: Registry, rank: map<string, nat>, form: Form, s: string, prefix: string, k: string)
    requires Ranked(reg, rank) && s in reg && reg[s].kind == MapOf
  {
    exists i, v :: EntryAt(reg, rank, form, s, prefix, i, k, v)
  }

  /** The index with the key and this value is the greatest one with the key. */
  ghost predicate GreatestEntry(reg: Registry, rank: map<string, nat>, form: Form, s: string, prefix: string, i: int, k: string, v: Value)
    requires Ranked(reg, rank) && s in reg && reg[s].kind == MapOf
  {
    EntryAt(reg, rank, form, s, prefix, i, k, v) && forall j, w :: EntryAt(reg, rank, form, s, prefix, j, k, w) ==> j <= i
  }

  lemma EntryIndexed(reg: Registry, rank: map<string, nat>, form: Form, s: string, prefix: string, i: int, k: string, v: Value)
    requires Ranked(reg, rank) && s in reg && reg[s].kind == MapOf
    ensures EntryAt(reg, rank, form, s, prefix, i, k, v) <==>
      i in Indices(form, prefix) && DecodeEntry(reg, rank, form, s, At(prefix, i)) == Ok(Some((k, v)))
  {
    IndicesAscend(form, prefix);
    if MIN_INT64 <= i <= MAX_INT64 { EntryIs(reg, rank, form, s, prefix, i, k, v); }
    if EntryAt(reg, rank, form, s, prefix, i, k, v) { NameIndexed(form, prefix, i); }
  }

  lemma EntryForIn(reg: Registry, rank: map<string, nat>, form: Form, s: string, prefix: string, k: string)
    requires Ranked(reg, rank) && s in reg && reg[s].kind == MapOf
    ensures EntryFor(reg, rank, form, s, prefix, k) <==> EntryIn(reg, rank, form, s, Indices(form, prefix), prefix, k)
  {
    if i, v :| EntryAt(reg, rank, form, s, prefix, i, k, v) { EntryIndexed(reg, rank, form, s, prefix, i, k, v); }
    if i, v :| i in Indices(form, prefix) && DecodeEntry(reg, rank, form, s, At(prefix, i)) == Ok(Some((k, v))) {
      EntryIndexed(reg, rank, form, s, prefix, i, k, v);
    }
  }

  lemma LastIsGreatest(reg: Registry, rank: map<string, nat>, form: Form, s: string, prefix: string, k: string, v: Value) returns (i: int)
    requires Ranked(reg, rank) && s in reg && reg[s].kind == MapOf && LastEntry(reg, rank, form, s, Indices(form, prefix), prefix, k, v)
    ensures GreatestEntry(reg, rank, form, s, prefix, i, k, v)
  {
    var indices := Indices(form, prefix);
    var n :| 0 <= n < |indices| && DecodeEntry(reg, rank, form, s, At(prefix, indices[n])) == Ok(Some((k, v)))
             && !EntryIn(reg, rank, form, s, indices[n + 1..], prefix, k);
    i := indices[n];
    EntryIndexed(reg, rank, form, s, prefix, i, k, v);
    forall j, w | EntryAt(reg, rank, form, s, prefix, j, k, w) ensures j <= i {
      EntryIndexed(reg, rank, form, s, prefix, j, k, w);
      BehindLast(reg, rank, form, s, prefix, n, k, j, w);
    }
  }

  lemma BehindLast(reg: Registry, rank: map<string, nat>, form: Form, s: string, prefix: string, n: nat, k: string, j: int, w: Value)
    requires Ranked(reg, rank) && s in reg && reg[s].kind == MapOf && n < |Indices(form, prefix)|
    requires !EntryIn(reg, rank, form, s, Indices(form, prefix)[n + 1..], prefix, k)
    requires j in Indices(form, prefix) && DecodeEntry(reg, rank, form, s, At(prefix, j)) == Ok(Some((k, w)))
    ensures j <= Indices(form, prefix)[n]
  {
    IndicesAscend(form, prefix);
    NotBehind(reg, rank, form, s, Indices(form, prefix)[n + 1..], prefix, k, j, w);
    UpToThere(Indices(form, prefix), n, j);
  }

  lemma NotBehind(reg: Registry, rank: map<string, nat>, form: Form, s: string, tail: seq<int>, prefix: string, k: string, j: int, w: Value)
    requires Ranked(reg, rank) && s in reg && reg[s].kind == MapOf && !EntryIn(reg, rank, form, s, tail, prefix, k)
    requires DecodeEntry(reg, rank, form, s, At(prefix, j)) == Ok(Some((k, w)))
    ensures j !in tail
  {
  }

  lemma UpToThere(xs: seq<int>, n: nat, x: int)
    requires forall a, b :: 0 <= a < b < |xs| ==> xs[a] < xs[b]
    requires n < |xs| && x in xs && x !in xs[n + 1..]
    ensures x <= xs[n]
  {
    InTail(xs, n, IndexOf(xs, x));
  }

  lemma InTail(xs: seq<int>, n: nat, m: nat)
    requires n < |xs| && m < |xs|
    ensures m > n ==> xs[m] in xs[n + 1..]
  {
    if m > n { assert xs[n + 1..][m - n - 1] == xs[m]; }
  }

  /**
   * A map is read from the keys `<prefix>.<i>.Name` and `<prefix>.<i>.Value`: it has exactly the names that come with a value, and
   * of a name that comes more than once the value with the greatest index.
   */
  lemma EntriesRead(reg: Registry, rank: map<string, nat>, form: Form, s: string, prefix: string, k: string)
    requires Ranked(reg, rank) && s in reg && reg[s].kind == MapOf
    requires DecodeEntries(reg, rank, form, s, Indices(form, prefix), prefix).Ok?
    ensures var entries := DecodeEntries(reg, rank, form, s, Indices(form, prefix), prefix).value;
      && (k in entries <==> EntryFor(reg, rank, form, s, prefix, k))
      && (k in entries ==> exists i :: GreatestEntry(reg, rank, form, s, prefix, i, k, entries[k]))
  {
    LastEntryRead(reg, rank, form, s, Indices(form, prefix), prefix, k);
    EntryForIn(reg, rank, form, s, prefix, k);
    var entries := DecodeEntries(reg, rank, form, s, Indices(form, prefix), prefix).value;
    if k in entries { var i := LastIsGreatest(reg, rank, form, s, prefix, k, entries[k]); }
  }

  // ---- the maps of requests ---------------------------------------------------------------------

  /** The text at a key, if the key is there. */
  function TextAt(form: Form, key: string): Option<string> {
    if key in form && form[key] != [] then Some(form[key][0]) else None
  }

  lemma TextRead(reg: Registry, rank: map<string, nat>, form: Form, s: string, key: string)
    requires Ranked(reg, rank) && s in reg && reg[s].kind == Text
    ensures DecodeOrRaw(reg, rank, form, s, key) == Ok(match TextAt(form, key) case Some(text) => Some(Str(text)) case None => None)
  {
  }

  /** Below the prefix and the index there is this name with this text. */
  ghost predicate NamedText(form: Form, prefix: string, i: int, name: string, text: string) {
    && MIN_INT64 <= i <= MAX_INT64 && name != ""
    && TextAt(form, prefix + "." + IntText(i) + ".Name") == Some(name)
    && TextAt(form, prefix + "." + IntText(i) + ".Value") == Some(text)
  }

  lemma NamedTextIs(reg: Registry, rank: map<string, nat>, form: Form, s: string, prefix: string, i: int, name: string, v: Value)
    requires Ranked(reg, rank) && s in reg && reg[s].kind == MapOf && reg[reg[s].element].kind == Text
    ensures EntryAt(reg, rank, form, s, prefix, i, name, v) <==> v.Str? && NamedText(form, prefix, i, name, v.text)
  {
    TextRead(reg, rank, form, reg[s].element, prefix + "." + IntText(i) + ".Value");
  }

  /** The names of a map of texts and the text of each, from the form keys below a prefix. */
  ghost predicate TextsBelow(form: Form, prefix: string, entries: map<string, Value>) {
    && (forall name :: name in entries <==> exists i, text :: NamedText(form, prefix, i, name, text))
    && (forall name :: name in entries ==> entries[name].Str? && exists i ::
          NamedText(form, prefix, i, name, entries[name].text) && forall j, text :: NamedText(form, prefix, j, name, text) ==> j <= i)
  }

  lemma TextsRead(reg: Registry, rank: map<string, nat>, form: Form, s: string, prefix: string)
    requires Ranked(reg, rank) && s in reg && reg[s].kind == MapOf && reg[reg[s].element].kind == Text
    requires DecodeEntries(reg, rank, form, s, Indices(form, prefix), prefix).Ok?
    ensures TextsBelow(form, prefix, DecodeEntries(reg, rank, form, s, Indices(form, prefix), prefix).value)
  {
    var entries := DecodeEntries(reg, rank, form, s, Indices(form, prefix), prefix).value;
    forall i, name, v ensures EntryAt(reg, rank, form, s, prefix, i, name, v) <==> v.Str? && NamedText(form, prefix, i, name, v.text) {
      NamedTextIs(reg, rank, form, s, prefix, i, name, v);
    }
    forall name
      ensures name in entries <==> exists i, text :: NamedText(form, prefix, i, name, text)
      ensures name in entries ==> entries[name].Str? && exists i ::
        NamedText(form, prefix, i, name, entries[name].text) && forall j, text :: NamedText(form, prefix, j, name, text) ==> j <= i
    {
      EntriesRead(reg, rank, form, s, prefix, name);
      if i, text :| NamedText(form, prefix, i, name, text) {
        assert EntryAt(reg, rank, form, s, prefix, i, name, Str(text));
      }
      if name in entries {
        var i :| GreatestEntry(reg, rank, form, s, prefix, i, name, entries[name]);
        forall j, text | NamedText(form, prefix, j, name, text) ensures j <= i {
          assert EntryAt(reg, rank, form, s, prefix, j, name, Str(text));
        }
      }
    }
  }

  lemma MapRead(reg: Registry, rank: map<string, nat>, form: Form, s: string, prefix: string)
    requires Ranked(reg, rank) && s in reg && reg[s].kind == MapOf && reg[reg[s].element].kind == Text
    requires Decode(reg, rank, form, s, prefix).Ok?
    ensures var found := Decode(reg, rank, form, s, prefix).value;
      if found.None? then TextsBelow(form, prefix, map[]) else found.value.Entries? && TextsBelow(form, prefix, found.value.entries)
  {
    TextsRead(reg, rank, form, s, prefix);
  }

  /** The shape is a map of texts, and the member has no location name. */
  ghost predicate TextMap(reg: Registry, rank: map<string, nat>, s: string, n: string, shape: string)
    requires Ranked(reg, rank) && s in reg && reg[s].kind == Structure
  {
    && n in reg[s].memberOrder && reg[s].members[n] == Member(shape, "") && reg[shape].kind == MapOf
    && reg[reg[shape].element].kind == Text
  }

  /** What the member is read from, under its wire name. */
  lemma MemberRead(reg: Registry, rank: map<string, nat>, form: Form, s: string, n: string, shape: string, wire: string)
    requires Ranked(reg, rank) && s in reg && reg[s].kind == Structure && TextMap(reg, rank, s, n, shape)
    requires DecodeMembers(reg, rank, form, s, reg[s].memberOrder, "").Ok? && CollectionWireName(n, shape) == wire
    ensures var fields := DecodeMembers(reg, rank, form, s, reg[s].memberOrder, "").value;
      if n in fields then fields[n].Entries? && TextsBelow(form, wire, fields[n].entries) else TextsBelow(form, wire, map[])
  {
    MembersRead(reg, rank, form, s, reg[s].memberOrder, "", n);
    assert Wire(reg, s, n) == wire && Under("", wire) == wire;
    MapRead(reg, rank, form, shape, wire);
  }

  /**
   * The attributes of a creation are read from `Attribute.<i>.Name` and `Attribute.<i>.Value`, and the tags from `Tag.<i>.Name` and
   * `Tag.<i>.Value`.
   */
  lemma CreationRead(reg: Registry, rank: map<string, nat>, form: Form)
    requires Ranked(reg, rank) && "CreateQueueRequest" in reg && reg["CreateQueueRequest"].kind == Structure
    requires TextMap(reg, rank, "CreateQueueRequest", "Attributes", "QueueAttributeMap")
    requires TextMap(reg, rank, "CreateQueueRequest", "tags", "TagMap")
    requires DecodeMembers(reg, rank, form, "CreateQueueRequest", reg["CreateQueueRequest"].memberOrder, "").Ok?
    ensures var fields := DecodeMembers(reg, rank, form, "CreateQueueRequest", reg["CreateQueueRequest"].memberOrder, "").value;
      && (if "Attributes" in fields then fields["Attributes"].Entries? && TextsBelow(form, "Attribute", fields["Attributes"].entries)
          else TextsBelow(form, "Attribute", map[]))
      && (if "tags" in fields then fields["tags"].Entries? && TextsBelow(form, "Tag", fields["tags"].entries)
          else TextsBelow(form, "Tag", map[]))
  {
    MemberRead(reg, rank, form, "CreateQueueRequest", "Attributes", "QueueAttributeMap", "Attribute");
    MemberRead(reg, rank, form, "CreateQueueRequest", "tags", "TagMap", "Tag");
  }

  /**
   * The message attributes of a send are read from `MessageAttribute.<i>.Name` and, each a structure, from the keys below
   * `MessageAttribute.<i>.Value`.
   */
  lemma SendRead(reg: Registry, rank: map<string, nat>, form: Form, name: string)
    requires Ranked(reg, rank) && "SendMessageRequest" in reg && reg["SendMessageRequest"].kind == Structure
    requires "MessageAttributes" in reg["SendMessageRequest"].memberOrder
    requires reg["SendMessageRequest"].members["MessageAttributes"] == Member("MessageBodyAttributeMap", "")
    requires reg["MessageBodyAttributeMap"].kind == MapOf
    requires DecodeMembers(reg, rank, form, "SendMessageRequest", reg["SendMessageRequest"].memberOrder, "").Ok?
    ensures var fields := DecodeMembers(reg, rank, form, "SendMessageRequest", reg["SendMessageRequest"].memberOrder, "").value;
      && ("MessageAttributes" in fields ==> fields["MessageAttributes"].Entries?)
      && ("MessageAttributes" in fields && name in fields["MessageAttributes"].entries <==>
            EntryFor(reg, rank, form, "MessageBodyAttributeMap", "MessageAttribute", name))
      && ("MessageAttributes" in fields && name in fields["MessageAttributes"].entries ==> exists i ::
            GreatestEntry(reg, rank, form, "MessageBodyAttributeMap", "MessageAttribute", i, name, fields["MessageAttributes"].entries[name]))
  {
    MembersRead(reg, rank, form, "SendMessageRequest", reg["SendMessageRequest"].memberOrder, "", "MessageAttributes");
    assert Wire(reg, "SendMessageRequest", "MessageAttributes") == "MessageAttribute" && Under("", "MessageAttribute") == "MessageAttribute";
    EntriesRead(reg, rank, form, "MessageBodyAttributeMap", "MessageAttribute", name);
  }

  // ---- lists and single values ----------------------------------------------------------------------

  /** The indices below a prefix at which there is a text. */
  function Texted(form: Form, prefix: string): int -> bool {
    (i: int) => TextAt(form, prefix + "." + IntText(i)).Some?
  }

  function ValueAt(form: Form, prefix: string): int -> Value {
    (i: int) => match TextAt(form, prefix + "." + IntText(i)) case Some(text) => Str(text) case None => Str("")
  }

  lemma {:induction false} ItemsRead(reg: Registry, rank: map<string, nat>, form: Form, s: string, indices: seq<int>, prefix: string)
    requires Ranked(reg, rank) && s in reg && reg[s].kind == ListOf && reg[reg[s].element].kind == Text
    ensures DecodeItems(reg, rank, form, s, indices, prefix) == Ok(Map(Filter(indices, Texted(form, prefix)), ValueAt(form, prefix)))
    decreases |indices|
  {
    if indices != [] {
      TextRead(reg, rank, form, reg[s].element, At(prefix, indices[0]));
      ItemsRead(reg, rank, form, s, indices[1..], prefix);
      var rest := Filter(indices[1..], Texted(form, prefix));
      assert ([indices[0]] + rest)[1..] == rest;
    }
  }

  /** A list of texts is read from the keys `<prefix>.<i>`, in the order of the indices. */
  lemma ListRead(reg: Registry, rank: map<string, nat>, form: Form, s: string, prefix: string)
    requires Ranked(reg, rank) && s in reg && reg[s].kind == ListOf && reg[reg[s].element].kind == Text
    ensures var found, items := Decode(reg, rank, form, s, prefix), Map(Filter(Indices(form, prefix), Texted(form, prefix)), ValueAt(form, prefix));
      found == Ok(if items == [] then None else Some(Items(items)))
    ensures forall a, b :: 0 <= a < b < |Indices(form, prefix)| ==> Indices(form, prefix)[a] < Indices(form, prefix)[b]
    ensures forall i :: i in Indices(form, prefix) <==> exists key :: key in form && IndexIn(key, prefix) == Some(i)
  {
    ItemsRead(reg, rank, form, s, Indices(form, prefix), prefix);
    IndicesAscend(form, prefix);
    IntsOrdered(IndexSet(form.Keys, prefix));
    ListedRows(IndexSet(form.Keys, prefix), IntLess);
  }

  /** A single text is the first value of its key. */
  lemma ScalarRead(reg: Registry, rank: map<string, nat>, form: Form, s: string, n: string)
    requires Ranked(reg, rank) && s in reg && reg[s].kind == Structure && n in reg[s].memberOrder
    requires reg[s].members[n].locationName == "" && reg[reg[s].members[n].shape].kind == Text
    requires DecodeMembers(reg, rank, form, s, reg[s].memberOrder, "").Ok?
    ensures var fields := DecodeMembers(reg, rank, form, s, reg[s].memberOrder, "").value;
      && (n in fields <==> n in form && form[n] != [])
      && (n in fields ==> fields[n] == Str(form[n][0]))
  {
    MembersRead(reg, rank, form, s, reg[s].memberOrder, "", n);
    assert Wire(reg, s, n) == n && Under("", n) == n;
  }

  /** The wire names of collections that have none of their own: from the shape, or failing that from the member in the singular. */
  lemma CollectionNames(memberName: string, stem: string)
    ensures CollectionWireName(memberName, "MessageSystemAttributeMap") == "Attribute"
    ensures CollectionWireName(memberName, "MessageSystemAttributeList") == "MessageSystemAttributeName"
    ensures stem != "MessageSystemAttribute" ==> CollectionWireName(memberName, stem + "List") == stem
    ensures stem !in {"QueueAttribute", "MessageBodyAttribute", "MessageSystemAttribute", "Tag"} ==> CollectionWireName(memberName, stem + "Map") == stem
  {
    Suffixed(stem, "List");
    Suffixed(stem, "Map");
    Tells(stem, "MessageSystemAttribute", "List", "MessageSystemAttributeList");
    Tells(stem, "QueueAttribute", "Map", "QueueAttributeMap");
    Tells(stem, "MessageBodyAttribute", "Map", "MessageBodyAttributeMap");
    Tells(stem, "MessageSystemAttribute", "Map", "MessageSystemAttributeMap");
    Tells(stem, "Tag", "Map", "TagMap");
    EndsApart(stem + "List", stem + "Map");
  }

  lemma Tells(stem: string, other: string, suffix: string, name: string)
    requires name == other + suffix
    ensures stem + suffix == name ==> stem == other
  {
    if stem + suffix == name {
      assert |stem| == |other|;
      assert stem == (stem + suffix)[..|stem|] && other == (other + suffix)[..|other|];
    }
  }

  lemma EndsApart(list: string, mapping: string)
    requires EndsWith(list, "List") && EndsWith(mapping, "Map")
    ensures list !in {"QueueAttributeMap", "MessageBodyAttributeMap", "MessageSystemAttributeMap", "TagMap"}
    ensures mapping != "MessageSystemAttributeList" && !EndsWith(mapping, "List")
  {
    LastLetter(list, "List");
    LastLetter(mapping, "Map");
    if EndsWith(mapping, "List") { LastLetter(mapping, "List"); }
  }

  lemma LastLetter(s: string, suffix: string)
    requires EndsWith(s, suffix) && suffix != ""
    ensures s != "" && s[|s| - 1] == suffix[|suffix| - 1]
  {
    assert s[|s| - |suffix|..][|suffix| - 1] == s[|s| - 1];
  }

  lemma Suffixed(stem: string, suffix: string)
    ensures EndsWith(stem + suffix, suffix) && Cut(stem + suffix, |suffix|) == stem
  {
  }

  lemma Singulars(stem: string)
    ensures Singularize(stem + "ies") == stem + "y"
    ensures Singularize(stem + "sses") == stem + "ss"
    ensures !EndsWith(stem + "s", "ies") && !EndsWith(stem + "s", "sses") ==> Singularize(stem + "s") == stem
  {
    Suffixed(stem, "ies");
    Suffixed(stem, "sses");
    Suffixed(stem, "s");
    assert (stem + "sses")[|stem| + 1] == 's';
    assert stem + "sses" == (stem + "ss") + "es";
  }
}
