/** Flattening a value to dotted keys and decoding it again gives the value back. */
module QueryRoundTrip {
  import opened Records
  import opened Sequences
  import opened Numerals
  import opened Strings
  import opened QueryDecoding

  // ---- keys below a prefix ------------------------------------------------------------------

  predicate Below(key: string, prefix: string) {
    key == prefix || prefix + "." <= key
  }

  lemma {:induction false} HeadOf(word: string, rest: string)
    requires DotFree(word) && (rest == "" || rest[0] == '.')
    ensures Head(word + rest) == word
  {
    if word == "" {
      assert word + rest == rest;
    } else {
      assert (word + rest)[1..] == word[1..] + rest;
      HeadOf(word[1..], rest);
    }
  }

  /** A key below `token + word` tells the word. */
  lemma HeadBelow(key: string, token: string, word: string)
    requires DotFree(word) && Below(key, token + word)
    ensures token <= key && Head(key[|token|..]) == word
  {
    var rest := key[|token| + |word|..];
    assert key == token + word + rest;
    assert key[|token|..] == word + rest;
    assert rest == "" || rest[0] == '.';
    HeadOf(word, rest);
  }

  lemma BelowChild(key: string, prefix: string, word: string)
    requires Below(key, prefix + "." + word)
    ensures prefix + "." <= key && Below(key, prefix)
  {
    assert prefix + "." <= prefix + "." + word;
    assert prefix + "." + word <= key;
  }

  lemma {:induction false} DigitsDotFree(s: string)
    requires AllDigits(s)
    ensures DotFree(s)
  {
  }

  lemma IndexBelow(key: string, prefix: string, index: nat)
    requires Below(key, At(prefix, index)) && index <= MAX_INT64
    ensures IndexIn(key, prefix) == Some(index) && Below(key, prefix)
  {
    DigitsDotFree(NatText(index));
    HeadBelow(key, prefix + ".", IntText(index));
    BelowChild(key, prefix, IntText(index));
    ParseIntText(index);
    assert |prefix + "."| == |prefix| + 1;
  }

  // ---- merging parts with different words ----------------------------------------------------

  ghost function Merge(parts: seq<map<string, string>>): map<string, string> {
    if parts == [] then map[] else parts[0] + Merge(parts[1..])
  }

  /** Each part has only keys below its own word; the words differ. */
  ghost predicate Parted(token: string, words: seq<string>, parts: seq<map<string, string>>) {
    && |parts| == |words|
    && (forall i :: 0 <= i < |words| ==> DotFree(words[i]))
    && (forall i, j :: 0 <= i < j < |words| ==> words[i] != words[j])
    && (forall i, key :: 0 <= i < |parts| && key in parts[i] ==> Below(key, token + words[i]))
  }

  lemma {:induction false} InMerge(token: string, words: seq<string>, parts: seq<map<string, string>>, key: string) returns (i: nat)
    requires Parted(token, words, parts) && key in Merge(parts)
    ensures i < |parts| && key in parts[i] && Below(key, token + words[i])
  {
    if key in parts[0] {
      i := 0;
    } else {
      i := InMerge(token, words[1..], parts[1..], key);
      i := i + 1;
    }
  }

  lemma PartOfWord(token: string, words: seq<string>, parts: seq<map<string, string>>, key: string, i: nat, j: nat)
    requires Parted(token, words, parts) && i < |parts| && j < |parts|
    requires Below(key, token + words[i]) && key in parts[j]
    ensures i == j
  {
    HeadBelow(key, token, words[i]);
    HeadBelow(key, token, words[j]);
  }

  /** Below a word the merged map is that word's part. */
  lemma {:induction false} MergePart(token: string, words: seq<string>, parts: seq<map<string, string>>, i: nat, key: string)
    requires Parted(token, words, parts) && i < |parts| && Below(key, token + words[i])
    ensures key in Merge(parts) <==> key in parts[i]
    ensures key in parts[i] ==> Merge(parts)[key] == parts[i][key]
  {
    if key in Merge(parts[1..]) {
      var j := InMerge(token, words[1..], parts[1..], key);
      PartOfWord(token, words, parts, key, i, j + 1);
    }
    if i > 0 {
      if key in parts[0] { PartOfWord(token, words, parts, key, i, 0); }
      MergePart(token, words[1..], parts[1..], i - 1, key);
    }
  }

  // ---- canonical values and their keys --------------------------------------------------------

  /** A value of the shape, without empty lists, maps and structures, and without empty map keys. */
  ghost predicate Canonical(reg: Registry, rank: map<string, nat>, s: string, v: Value)
    requires Ranked(reg, rank) && s in reg
    decreases rank[s]
  {
    match reg[s].kind
    case Structure =>
      && v.Struct? && v.fields != map[]
      && forall n :: n in v.fields ==>
           n in reg[s].memberOrder && Canonical(reg, rank, reg[s].members[n].shape, v.fields[n])
    case ListOf =>
      && v.Items? && 0 < |v.items| <= MAX_INT64
      && forall i :: 0 <= i < |v.items| ==> Canonical(reg, rank, reg[s].element, v.items[i])
    case MapOf =>
      && v.Entries? && 0 < |v.entries| <= MAX_INT64
      && forall k :: k in v.entries ==> k != "" && Canonical(reg, rank, reg[s].element, v.entries[k])
    case Integer | Long => v.Number? && MIN_INT64 <= v.number <= MAX_INT64
    case Boolean => v.Flag?
    case Text => v.Str?
  }

  /** The keys of a map, in some fixed order. */
  ghost function KeyOrder(entries: map<string, Value>): seq<string> {
    Listed(entries.Keys, Less)
  }

  lemma KeysListed(entries: map<string, Value>)
    ensures Distinct(KeyOrder(entries)) && |KeyOrder(entries)| == |entries|
    ensures forall k :: k in KeyOrder(entries) <==> k in entries
  {
    LessOrders();
    forall a, b | a in entries.Keys && b in entries.Keys && a != b ensures Less(a, b) || Less(b, a) {
      LessDecides(a, b);
    }
    ListedRows(entries.Keys, Less);
    DistinctMultiset(KeyOrder(entries));
    assert (set k | k in KeyOrder(entries)) == entries.Keys;
    assert |multiset(KeyOrder(entries))| == |multiset(entries.Keys)|;
  }

  function PrimitiveText(v: Value): string {
    match v
    case Number(n) => IntText(n)
    case Flag(b) => if b then "true" else "false"
    case Str(t) => t
    case _ => ""
  }

  /** The dotted keys of a value. */
  ghost function Flatten(reg: Registry, rank: map<string, nat>, s: string, prefix: string, v: Value): map<string, string>
    requires Ranked(reg, rank) && s in reg && Canonical(reg, rank, s, v)
    decreases rank[s], 1
  {
    match reg[s].kind
    case Structure => Merge(MemberParts(reg, rank, s, prefix, v.fields))
    case ListOf => Merge(ItemParts(reg, rank, s, prefix, v.items))
    case MapOf => KeysListed(v.entries); Merge(EntryParts(reg, rank, s, prefix, v.entries, KeyOrder(v.entries)))
    case _ => map[prefix := PrimitiveText(v)]
  }

  ghost function MemberParts(reg: Registry, rank: map<string, nat>, s: string, prefix: string, fields: map<string, Value>)
    : (parts: seq<map<string, string>>)
    requires Ranked(reg, rank) && s in reg && reg[s].kind == Structure
    requires forall n :: n in fields ==> n in reg[s].memberOrder && Canonical(reg, rank, reg[s].members[n].shape, fields[n])
    ensures |parts| == |reg[s].memberOrder|
    decreases rank[s], 0
  {
    var order := reg[s].memberOrder;
    seq(|order|, i requires 0 <= i < |order| =>
      if order[i] in fields
      then Flatten(reg, rank, reg[s].members[order[i]].shape, Under(prefix, Wire(reg, s, order[i])), fields[order[i]])
      else map[])
  }

  ghost function ItemParts(reg: Registry, rank: map<string, nat>, s: string, prefix: string, items: seq<Value>)
    : (parts: seq<map<string, string>>)
    requires Ranked(reg, rank) && s in reg && reg[s].kind == ListOf
    requires forall i :: 0 <= i < |items| ==> Canonical(reg, rank, reg[s].element, items[i])
    ensures |parts| == |items|
    decreases rank[s], 0
  {
    seq(|items|, i requires 0 <= i < |items| => Flatten(reg, rank, reg[s].element, At(prefix, i + 1), items[i]))
  }

  ghost function EntryParts(reg: Registry, rank: map<string, nat>, s: string, prefix: string, entries: map<string, Value>, keys: seq<string>)
    : (parts: seq<map<string, string>>)
    requires Ranked(reg, rank) && s in reg && reg[s].kind == MapOf
    requires forall k :: k in entries ==> Canonical(reg, rank, reg[s].element, entries[k])
    requires forall k :: k in keys ==> k in entries
    ensures |parts| == |keys|
    decreases rank[s], 0, 1
  {
    seq(|keys|, i requires 0 <= i < |keys| => EntryPart(reg, rank, s, At(prefix, i + 1), keys[i], entries[keys[i]]))
  }

  function Token(prefix: string): string { if prefix == "" then "" else prefix + "." }

  function Words(reg: Registry, s: string): seq<string>
    requires s in reg && forall n :: n in reg[s].memberOrder ==> n in reg[s].members && reg[s].members[n].shape in reg
  {
    seq(|reg[s].memberOrder|, i requires 0 <= i < |reg[s].memberOrder| => Wire(reg, s, reg[s].memberOrder[i]))
  }

  function IndexWords(n: nat): seq<string> { seq(n, i => IntText(i + 1)) }

  lemma IndexWordsDiffer(n: nat)
    ensures forall i :: 0 <= i < n ==> DotFree(IndexWords(n)[i])
    ensures forall i, j :: 0 <= i < j < n ==> IndexWords(n)[i] != IndexWords(n)[j]
  {
    forall i | 0 <= i < n ensures DotFree(IndexWords(n)[i]) { DigitsDotFree(NatText(i + 1)); }
    forall i, j | 0 <= i < j < n ensures IndexWords(n)[i] != IndexWords(n)[j] {
      if IndexWords(n)[i] == IndexWords(n)[j] { NatTextInjective(i + 1, j + 1); }
    }
  }

  lemma WordsDiffer(reg: Registry, rank: map<string, nat>, s: string)
    requires Ranked(reg, rank) && Wired(reg, rank) && s in reg && reg[s].kind == Structure
    ensures forall i :: 0 <= i < |Words(reg, s)| ==> DotFree(Words(reg, s)[i])
    ensures forall i, j :: 0 <= i < j < |Words(reg, s)| ==> Words(reg, s)[i] != Words(reg, s)[j]
  {
    var order := reg[s].memberOrder;
    forall i | 0 <= i < |order| ensures DotFree(Words(reg, s)[i]) { assert order[i] in order; }
    forall i, j | 0 <= i < j < |order| ensures Words(reg, s)[i] != Words(reg, s)[j] {
      assert order[i] in order && order[j] in order;
    }
  }

  // ---- where the keys are, and that there are some ----------------------------------------------

  lemma {:induction false} SomePart(parts: seq<map<string, string>>, i: nat)
    requires i < |parts| && parts[i] != map[]
    ensures Merge(parts) != map[]
  {
    if i == 0 {
      var key :| key in parts[0];
      assert key in Merge(parts);
    } else {
      SomePart(parts[1..], i - 1);
      var key :| key in Merge(parts[1..]);
      assert key in Merge(parts);
    }
  }

  ghost predicate AllBelow(flat: map<string, string>, prefix: string) {
    forall key :: key in flat ==> Below(key, prefix)
  }

  lemma MergeBelow(prefix: string, words: seq<string>, parts: seq<map<string, string>>)
    requires Parted(prefix + ".", words, parts)
    ensures AllBelow(Merge(parts), prefix)
  {
    forall key | key in Merge(parts) ensures Below(key, prefix) {
      var i := InMerge(prefix + ".", words, parts, key);
      BelowChild(key, prefix, words[i]);
    }
  }

  /** Every canonical value has keys, all of them below its prefix. */
  lemma {:induction false} Flattened(reg: Registry, rank: map<string, nat>, s: string, prefix: string, v: Value)
    requires Ranked(reg, rank) && Wired(reg, rank) && s in reg && Canonical(reg, rank, s, v) && prefix != ""
    ensures Flatten(reg, rank, s, prefix, v) != map[] && AllBelow(Flatten(reg, rank, s, prefix, v), prefix)
    decreases rank[s], 1
  {
    match reg[s].kind
    case Structure => StructureFlattened(reg, rank, s, prefix, v.fields);
    case ListOf => ListFlattened(reg, rank, s, prefix, v.items);
    case MapOf =>
      KeysListed(v.entries);
      MapFlattened(reg, rank, s, prefix, v.entries, KeyOrder(v.entries));
    case _ => assert prefix in Flatten(reg, rank, s, prefix, v);
  }

  lemma StructureFlattened(reg: Registry, rank: map<string, nat>, s: string, prefix: string, fields: map<string, Value>)
    requires Ranked(reg, rank) && Wired(reg, rank) && s in reg && reg[s].kind == Structure && prefix != "" && fields != map[]
    requires forall n :: n in fields ==> n in reg[s].memberOrder && Canonical(reg, rank, reg[s].members[n].shape, fields[n])
    ensures Merge(MemberParts(reg, rank, s, prefix, fields)) != map[]
    ensures AllBelow(Merge(MemberParts(reg, rank, s, prefix, fields)), prefix)
    decreases rank[s], 0, 2
  {
    var parts := MemberParts(reg, rank, s, prefix, fields);
    MembersParted(reg, rank, s, prefix, fields);
    MergeBelow(prefix, Words(reg, s), parts);
    var n :| n in fields;
    var i := IndexOf(reg[s].memberOrder, n);
    Flattened(reg, rank, reg[s].members[n].shape, Under(prefix, Wire(reg, s, n)), fields[n]);
    SomePart(parts, i);
  }

  lemma ListFlattened(reg: Registry, rank: map<string, nat>, s: string, prefix: string, items: seq<Value>)
    requires Ranked(reg, rank) && Wired(reg, rank) && s in reg && reg[s].kind == ListOf && items != []
    requires forall i :: 0 <= i < |items| ==> Canonical(reg, rank, reg[s].element, items[i])
    ensures Merge(ItemParts(reg, rank, s, prefix, items)) != map[]
    ensures AllBelow(Merge(ItemParts(reg, rank, s, prefix, items)), prefix)
    decreases rank[s], 0, 1
  {
    ItemsParted(reg, rank, s, prefix, items);
    MergeBelow(prefix, IndexWords(|items|), ItemParts(reg, rank, s, prefix, items));
    Flattened(reg, rank, reg[s].element, At(prefix, 1), items[0]);
    SomePart(ItemParts(reg, rank, s, prefix, items), 0);
  }

  lemma MapFlattened(reg: Registry, rank: map<string, nat>, s: string, prefix: string, entries: map<string, Value>, keys: seq<string>)
    requires Ranked(reg, rank) && Wired(reg, rank) && s in reg && reg[s].kind == MapOf && keys != []
    requires forall k :: k in entries ==> Canonical(reg, rank, reg[s].element, entries[k])
    requires forall k :: k in keys ==> k in entries
    ensures Merge(EntryParts(reg, rank, s, prefix, entries, keys)) != map[]
    ensures AllBelow(Merge(EntryParts(reg, rank, s, prefix, entries, keys)), prefix)
    decreases rank[s], 0, 2
  {
    EntriesParted(reg, rank, s, prefix, entries, keys);
    MergeBelow(prefix, IndexWords(|keys|), EntryParts(reg, rank, s, prefix, entries, keys));
    EntryNamed(reg, rank, s, prefix, entries, keys, 0);
    SomePart(EntryParts(reg, rank, s, prefix, entries, keys), 0);
  }

  lemma MembersParted(reg: Registry, rank: map<string, nat>, s: string, prefix: string, fields: map<string, Value>)
    requires Ranked(reg, rank) && Wired(reg, rank) && s in reg && reg[s].kind == Structure
    requires forall n :: n in fields ==> n in reg[s].memberOrder && Canonical(reg, rank, reg[s].members[n].shape, fields[n])
    ensures Parted(Token(prefix), Words(reg, s), MemberParts(reg, rank, s, prefix, fields))
    decreases rank[s], 0, 1
  {
    var parts := MemberParts(reg, rank, s, prefix, fields);
    WordsDiffer(reg, rank, s);
    forall i, key | 0 <= i < |parts| && key in parts[i] ensures Below(key, Token(prefix) + Words(reg, s)[i]) {
      MemberBelow(reg, rank, s, prefix, fields, i);
    }
  }

  lemma MemberBelow(reg: Registry, rank: map<string, nat>, s: string, prefix: string, fields: map<string, Value>, i: nat)
    requires Ranked(reg, rank) && Wired(reg, rank) && s in reg && reg[s].kind == Structure && i < |reg[s].memberOrder|
    requires forall n :: n in fields ==> n in reg[s].memberOrder && Canonical(reg, rank, reg[s].members[n].shape, fields[n])
    ensures AllBelow(MemberParts(reg, rank, s, prefix, fields)[i], Token(prefix) + Words(reg, s)[i])
    decreases rank[s], 0, 0
  {
    var n := reg[s].memberOrder[i];
    assert n in reg[s].memberOrder;
    if n in fields {
      Flattened(reg, rank, reg[s].members[n].shape, Under(prefix, Wire(reg, s, n)), fields[n]);
    }
  }

  lemma ItemsParted(reg: Registry, rank: map<string, nat>, s: string, prefix: string, items: seq<Value>)
    requires Ranked(reg, rank) && Wired(reg, rank) && s in reg && reg[s].kind == ListOf
    requires forall i :: 0 <= i < |items| ==> Canonical(reg, rank, reg[s].element, items[i])
    ensures Parted(prefix + ".", IndexWords(|items|), ItemParts(reg, rank, s, prefix, items))
    decreases rank[s], 0, 0
  {
    var parts := ItemParts(reg, rank, s, prefix, items);
    IndexWordsDiffer(|items|);
    forall i, key | 0 <= i < |parts| && key in parts[i] ensures Below(key, prefix + "." + IndexWords(|items|)[i]) {
      Flattened(reg, rank, reg[s].element, At(prefix, i + 1), items[i]);
    }
  }

  /** The part of one map entry. */
  ghost function EntryPart(reg: Registry, rank: map<string, nat>, s: string, at: string, key: string, v: Value): map<string, string>
    requires Ranked(reg, rank) && s in reg && reg[s].kind == MapOf && Canonical(reg, rank, reg[s].element, v)
    decreases rank[s], 0, 0
  {
    map[at + ".Name" := key] + Flatten(reg, rank, reg[s].element, at + ".Value", v)
  }

  lemma EntryFlattened(reg: Registry, rank: map<string, nat>, s: string, at: string, key: string, v: Value)
    requires Ranked(reg, rank) && Wired(reg, rank) && s in reg && reg[s].kind == MapOf && Canonical(reg, rank, reg[s].element, v)
    ensures AllBelow(EntryPart(reg, rank, s, at, key, v), at)
    ensures at + ".Name" in EntryPart(reg, rank, s, at, key, v) && EntryPart(reg, rank, s, at, key, v)[at + ".Name"] == key
    ensures forall k :: Below(k, at + ".Value") ==>
      (k in EntryPart(reg, rank, s, at, key, v) <==> k in Flatten(reg, rank, reg[s].element, at + ".Value", v))
    ensures forall k :: Below(k, at + ".Value") && k in EntryPart(reg, rank, s, at, key, v) ==>
      EntryPart(reg, rank, s, at, key, v)[k] == Flatten(reg, rank, reg[s].element, at + ".Value", v)[k]
    decreases rank[s], 0, 0
  {
    var value := Flatten(reg, rank, reg[s].element, at + ".Value", v);
    Flattened(reg, rank, reg[s].element, at + ".Value", v);
    assert at + ".Value" == at + "." + "Value" && at + ".Name" == at + "." + "Name";
    NameNotBelowValue(at);
    forall k | k in value ensures Below(k, at) { BelowChild(k, at, "Value"); }
  }

  lemma NameNotBelowValue(at: string)
    ensures !Below(at + ".Name", at + ".Value")
  {
    assert (at + ".Name")[|at| + 1] == 'N' && (at + ".Value")[|at| + 1] == 'V' && (at + ".Value" + ".")[|at| + 1] == 'V';
  }

  lemma EntryNamed(reg: Registry, rank: map<string, nat>, s: string, prefix: string, entries: map<string, Value>, keys: seq<string>, i: nat)
    requires Ranked(reg, rank) && Wired(reg, rank) && s in reg && reg[s].kind == MapOf && i < |keys|
    requires forall k :: k in entries ==> Canonical(reg, rank, reg[s].element, entries[k])
    requires forall k :: k in keys ==> k in entries
    ensures var part, name := EntryParts(reg, rank, s, prefix, entries, keys)[i], At(prefix, i + 1) + ".Name";
      name in part && part[name] == keys[i]
    decreases rank[s], 0, 1
  {
    assert keys[i] in keys;
    EntryFlattened(reg, rank, s, At(prefix, i + 1), keys[i], entries[keys[i]]);
  }

  lemma EntriesParted(reg: Registry, rank: map<string, nat>, s: string, prefix: string, entries: map<string, Value>, keys: seq<string>)
    requires Ranked(reg, rank) && Wired(reg, rank) && s in reg && reg[s].kind == MapOf
    requires forall k :: k in entries ==> Canonical(reg, rank, reg[s].element, entries[k])
    requires forall k :: k in keys ==> k in entries
    ensures Parted(prefix + ".", IndexWords(|keys|), EntryParts(reg, rank, s, prefix, entries, keys))
    decreases rank[s], 0, 1
  {
    var parts := EntryParts(reg, rank, s, prefix, entries, keys);
    IndexWordsDiffer(|keys|);
    forall i, key | 0 <= i < |parts| && key in parts[i] ensures Below(key, prefix + "." + IndexWords(|keys|)[i]) {
      assert keys[i] in keys;
      EntryFlattened(reg, rank, s, At(prefix, i + 1), keys[i], entries[keys[i]]);
    }
  }

  // ---- decoding what was flattened ----------------------------------------------------------------

  /** Below the prefix the form has exactly these keys, each with this text first. */
  ghost predicate Carries(form: Form, prefix: string, flat: map<string, string>) {
    forall key :: Below(key, prefix) ==>
      && (key in form <==> key in flat)
      && (key in flat ==> form[key] != [] && form[key][0] == flat[key])
  }

  lemma CarriesPart(form: Form, prefix: string, words: seq<string>, parts: seq<map<string, string>>, i: nat)
    requires Parted(prefix + ".", words, parts) && Carries(form, prefix, Merge(parts)) && i < |parts|
    ensures Carries(form, prefix + "." + words[i], parts[i])
  {
    forall key | Below(key, prefix + "." + words[i])
      ensures Below(key, prefix)
      ensures key in Merge(parts) <==> key in parts[i]
      ensures key in parts[i] ==> Merge(parts)[key] == parts[i][key]
    {
      BelowChild(key, prefix, words[i]);
      MergePart(prefix + ".", words, parts, i, key);
    }
  }

  lemma NoIndices(form: Form, prefix: string)
    requires Carries(form, prefix, map[])
    ensures Indices(form, prefix) == []
  {
    assert IndexSet(form.Keys, prefix) == {};
    IntsOrdered({});
    ListedUnique([], {}, IntLess);
  }

  /** Where the form has no keys there is nothing to decode. */
  lemma {:induction false} DecodesNothing(reg: Registry, rank: map<string, nat>, form: Form, s: string, prefix: string)
    requires Ranked(reg, rank) && Wired(reg, rank) && s in reg && prefix != "" && Carries(form, prefix, map[])
    ensures Decode(reg, rank, form, s, prefix) == Ok(None)
    decreases rank[s], 1, 0
  {
    match reg[s].kind
    case Structure => NoMembers(reg, rank, form, s, prefix, reg[s].memberOrder);
    case ListOf => NoIndices(form, prefix);
    case MapOf => NoIndices(form, prefix);
    case _ => assert Below(prefix, prefix);
  }

  lemma {:induction false} NoMembers(reg: Registry, rank: map<string, nat>, form: Form, s: string, prefix: string, names: seq<string>)
    requires Ranked(reg, rank) && Wired(reg, rank) && s in reg && reg[s].kind == Structure && prefix != ""
    requires Carries(form, prefix, map[]) && forall n :: n in names ==> n in reg[s].memberOrder
    ensures DecodeMembers(reg, rank, form, s, names, prefix) == Ok(map[])
    decreases rank[s], 0, |names|
  {
    if names != [] {
      var wire := Wire(reg, s, names[0]);
      forall key | Below(key, prefix + "." + wire) ensures Below(key, prefix) { BelowChild(key, prefix, wire); }
      DecodesNothing(reg, rank, form, reg[s].members[names[0]].shape, Under(prefix, wire));
      NoMembers(reg, rank, form, s, prefix, names[1..]);
    }
  }

  /** Below the wire name of a member the form has the member's keys, or none if the member is absent. */
  ghost predicate CarriesMember(reg: Registry, rank: map<string, nat>, form: Form, s: string, prefix: string,
                                fields: map<string, Value>, n: string)
    requires Ranked(reg, rank) && s in reg && reg[s].kind == Structure && n in reg[s].memberOrder
    requires n in fields ==> Canonical(reg, rank, reg[s].members[n].shape, fields[n])
  {
    Carries(form, Under(prefix, Wire(reg, s, n)),
            if n in fields then Flatten(reg, rank, reg[s].members[n].shape, Under(prefix, Wire(reg, s, n)), fields[n]) else map[])
  }

  ghost predicate Typed(reg: Registry, rank: map<string, nat>, s: string, fields: map<string, Value>)
    requires Ranked(reg, rank) && s in reg && reg[s].kind == Structure
  {
    forall n :: n in fields ==> n in reg[s].memberOrder && Canonical(reg, rank, reg[s].members[n].shape, fields[n])
  }

  lemma {:induction false} MembersDecode(reg: Registry, rank: map<string, nat>, form: Form, s: string, prefix: string,
                                         fields: map<string, Value>, names: seq<string>)
    requires Ranked(reg, rank) && Wired(reg, rank) && s in reg && reg[s].kind == Structure && Typed(reg, rank, s, fields)
    requires forall n :: n in names ==> n in reg[s].memberOrder && CarriesMember(reg, rank, form, s, prefix, fields, n)
    ensures DecodeMembers(reg, rank, form, s, names, prefix) == Ok(map n | n in fields && n in names :: fields[n])
    decreases rank[s], 0, |names|
  {
    if names != [] {
      var n := names[0];
      assert CarriesMember(reg, rank, form, s, prefix, fields, n);
      if n in fields {
        RoundTrip(reg, rank, form, reg[s].members[n].shape, Under(prefix, Wire(reg, s, n)), fields[n]);
      } else {
        DecodesNothing(reg, rank, form, reg[s].members[n].shape, Under(prefix, Wire(reg, s, n)));
      }
      MembersDecode(reg, rank, form, s, prefix, fields, names[1..]);
      FieldsOf(fields, names);
    }
  }

  lemma FieldsOf(fields: map<string, Value>, names: seq<string>)
    requires names != []
    ensures (map n | n in fields && n in names :: fields[n]) ==
      (if names[0] in fields then map[names[0] := fields[names[0]]] + (map n | n in fields && n in names[1..] :: fields[n])
       else map n | n in fields && n in names[1..] :: fields[n])
  {
  }

  lemma {:induction false} RoundTrip(reg: Registry, rank: map<string, nat>, form: Form, s: string, prefix: string, v: Value)
    requires Ranked(reg, rank) && Wired(reg, rank) && s in reg && Canonical(reg, rank, s, v) && prefix != ""
    requires Carries(form, prefix, Flatten(reg, rank, s, prefix, v))
    ensures Decode(reg, rank, form, s, prefix) == Ok(Some(v))
    decreases rank[s], 1, 0
  {
    match reg[s].kind
    case Structure => StructureDecodes(reg, rank, form, s, prefix, v.fields);
    case ListOf => ListDecodes(reg, rank, form, s, prefix, v.items);
    case MapOf =>
      KeysListed(v.entries);
      MapDecodes(reg, rank, form, s, prefix, v.entries);
    case _ => PrimitiveDecodes(reg, rank, form, s, prefix, v);
  }

  lemma PrimitiveDecodes(reg: Registry, rank: map<string, nat>, form: Form, s: string, prefix: string, v: Value)
    requires Ranked(reg, rank) && s in reg && Canonical(reg, rank, s, v)
    requires reg[s].kind !in {Structure, ListOf, MapOf} && Carries(form, prefix, Flatten(reg, rank, s, prefix, v))
    ensures Decode(reg, rank, form, s, prefix) == Ok(Some(v))
  {
    assert Below(prefix, prefix);
    if v.Number? { ParseIntText(v.number); }
  }

  lemma StructureDecodes(reg: Registry, rank: map<string, nat>, form: Form, s: string, prefix: string, fields: map<string, Value>)
    requires Ranked(reg, rank) && Wired(reg, rank) && s in reg && reg[s].kind == Structure && prefix != ""
    requires Typed(reg, rank, s, fields) && Carries(form, prefix, Merge(MemberParts(reg, rank, s, prefix, fields)))
    ensures DecodeMembers(reg, rank, form, s, reg[s].memberOrder, prefix) == Ok(fields)
    decreases rank[s], 0, |reg[s].memberOrder| + 1
  {
    var order := reg[s].memberOrder;
    MembersParted(reg, rank, s, prefix, fields);
    forall n | n in order ensures CarriesMember(reg, rank, form, s, prefix, fields, n) {
      CarriesPart(form, prefix, Words(reg, s), MemberParts(reg, rank, s, prefix, fields), IndexOf(order, n));
    }
    MembersDecode(reg, rank, form, s, prefix, fields, order);
    AllFields(fields, order);
  }

  // ---- lists and maps -------------------------------------------------------------------------------

  function UpTo(n: nat): seq<int> { seq(n, i => i + 1) }

  lemma IndexFound(form: Form, prefix: string, parts: seq<map<string, string>>, i: nat)
    requires Parted(prefix + ".", IndexWords(|parts|), parts) && Carries(form, prefix, Merge(parts)) && |parts| <= MAX_INT64
    requires i < |parts| && parts[i] != map[]
    ensures i + 1 in IndexSet(form.Keys, prefix)
  {
    var key :| key in parts[i];
    KeyFound(form, prefix, parts, i, key);
  }

  lemma KeyFound(form: Form, prefix: string, parts: seq<map<string, string>>, i: nat, key: string)
    requires Parted(prefix + ".", IndexWords(|parts|), parts) && Carries(form, prefix, Merge(parts)) && |parts| <= MAX_INT64
    requires i < |parts| && key in parts[i]
    ensures key in form && IndexIn(key, prefix) == Some(i + 1)
  {
    PartBelow(prefix, IndexWords(|parts|), parts, i, key);
    WordIsIndex(prefix, |parts|, i);
    IndexBelow(key, prefix, i + 1);
    MergePart(prefix + ".", IndexWords(|parts|), parts, i, key);
    CarriedKey(form, prefix, Merge(parts), key);
  }

  lemma WordIsIndex(prefix: string, n: nat, i: nat)
    requires i < n
    ensures prefix + "." + IndexWords(n)[i] == At(prefix, i + 1)
  {
  }

  lemma CarriedKey(form: Form, prefix: string, flat: map<string, string>, key: string)
    requires Carries(form, prefix, flat) && Below(key, prefix)
    ensures key in form <==> key in flat
  {
  }

  lemma PartBelow(prefix: string, words: seq<string>, parts: seq<map<string, string>>, i: nat, key: string)
    requires Parted(prefix + ".", words, parts) && i < |parts| && key in parts[i]
    ensures Below(key, prefix + "." + words[i])
  {
  }

  lemma IndexKnown(form: Form, prefix: string, parts: seq<map<string, string>>, index: int)
    requires Parted(prefix + ".", IndexWords(|parts|), parts) && Carries(form, prefix, Merge(parts)) && |parts| <= MAX_INT64
    requires index in IndexSet(form.Keys, prefix)
    ensures 1 <= index <= |parts|
  {
    var key :| key in form && IndexIn(key, prefix) == Some(index);
    assert Below(key, prefix);
    var i := InMerge(prefix + ".", IndexWords(|parts|), parts, key);
    IndexBelow(key, prefix, i + 1);
  }

  /** The indices below the prefix of `n` parts are 1 to `n`. */
  lemma IndicesOf(form: Form, prefix: string, parts: seq<map<string, string>>)
    requires Parted(prefix + ".", IndexWords(|parts|), parts) && Carries(form, prefix, Merge(parts)) && |parts| <= MAX_INT64
    requires forall i :: 0 <= i < |parts| ==> parts[i] != map[]
    ensures Indices(form, prefix) == UpTo(|parts|)
  {
    var s := IndexSet(form.Keys, prefix);
    forall x: int ensures x in UpTo(|parts|) <==> x in s {
      if x in UpTo(|parts|) { IndexFound(form, prefix, parts, x - 1); }
      if x in s {
        IndexKnown(form, prefix, parts, x);
        assert UpTo(|parts|)[x - 1] == x;
      }
    }
    IntsOrdered(s);
    ListedUnique(UpTo(|parts|), s, IntLess);
  }

  lemma ListDecodes(reg: Registry, rank: map<string, nat>, form: Form, s: string, prefix: string, items: seq<Value>)
    requires Ranked(reg, rank) && Wired(reg, rank) && s in reg && reg[s].kind == ListOf && 0 < |items| <= MAX_INT64
    requires forall i :: 0 <= i < |items| ==> Canonical(reg, rank, reg[s].element, items[i])
    requires Carries(form, prefix, Merge(ItemParts(reg, rank, s, prefix, items)))
    ensures DecodeItems(reg, rank, form, s, Indices(form, prefix), prefix) == Ok(items)
    decreases rank[s], 0, |items| + 1
  {
    var parts := ItemParts(reg, rank, s, prefix, items);
    ItemsParted(reg, rank, s, prefix, items);
    forall i | 0 <= i < |items| ensures parts[i] != map[] && Carries(form, At(prefix, i + 1), parts[i]) {
      Flattened(reg, rank, reg[s].element, At(prefix, i + 1), items[i]);
      CarriesPart(form, prefix, IndexWords(|items|), parts, i);
    }
    IndicesOf(form, prefix, parts);
    ItemsDecode(reg, rank, form, s, prefix, items);
  }

  lemma ItemsDecode(reg: Registry, rank: map<string, nat>, form: Form, s: string, prefix: string, items: seq<Value>)
    requires Ranked(reg, rank) && Wired(reg, rank) && s in reg && reg[s].kind == ListOf
    requires forall i :: 0 <= i < |items| ==> Canonical(reg, rank, reg[s].element, items[i])
    requires forall i :: 0 <= i < |items| ==> Carries(form, At(prefix, i + 1), ItemParts(reg, rank, s, prefix, items)[i])
    ensures DecodeItems(reg, rank, form, s, UpTo(|items|), prefix) == Ok(items)
    decreases rank[s], 0, 1
  {
    var indices := UpTo(|items|);
    forall i | 0 <= i < |items| ensures ItemIs(reg, rank, form, s, prefix, indices[i], items[i]) {
      ItemDecodes(reg, rank, form, s, prefix, items, i);
    }
    ItemsInTurn(reg, rank, form, s, prefix, indices, items);
  }

  ghost predicate ItemIs(reg: Registry, rank: map<string, nat>, form: Form, s: string, prefix: string, index: int, item: Value)
    requires Ranked(reg, rank) && s in reg && reg[s].kind == ListOf
  {
    DecodeOrRaw(reg, rank, form, reg[s].element, At(prefix, index)) == Ok(Some(item))
  }

  lemma {:induction false} ItemsInTurn(reg: Registry, rank: map<string, nat>, form: Form, s: string, prefix: string, indices: seq<int>, items: seq<Value>)
    requires Ranked(reg, rank) && s in reg && reg[s].kind == ListOf && |indices| == |items|
    requires forall i :: 0 <= i < |items| ==> ItemIs(reg, rank, form, s, prefix, indices[i], items[i])
    ensures DecodeItems(reg, rank, form, s, indices, prefix) == Ok(items)
    decreases |items|
  {
    if items != [] {
      ItemsInTurn(reg, rank, form, s, prefix, indices[1..], items[1..]);
      assert ItemIs(reg, rank, form, s, prefix, indices[0], items[0]);
      assert items == [items[0]] + items[1..];
    }
  }

  lemma UpToTail(n: nat, k: nat)
    requires k < n
    ensures UpTo(n)[k..][0] == k + 1 && UpTo(n)[k..][1..] == UpTo(n)[k + 1..]
  {
  }

  lemma ItemDecodes(reg: Registry, rank: map<string, nat>, form: Form, s: string, prefix: string, items: seq<Value>, k: nat)
    requires Ranked(reg, rank) && Wired(reg, rank) && s in reg && reg[s].kind == ListOf && k < |items|
    requires forall i :: 0 <= i < |items| ==> Canonical(reg, rank, reg[s].element, items[i])
    requires Carries(form, At(prefix, k + 1), ItemParts(reg, rank, s, prefix, items)[k])
    ensures DecodeOrRaw(reg, rank, form, reg[s].element, At(prefix, k + 1)) == Ok(Some(items[k]))
    decreases rank[s], 0, 0
  {
    RoundTrip(reg, rank, form, reg[s].element, At(prefix, k + 1), items[k]);
  }

  lemma MapDecodes(reg: Registry, rank: map<string, nat>, form: Form, s: string, prefix: string, entries: map<string, Value>)
    requires Ranked(reg, rank) && Wired(reg, rank) && s in reg && reg[s].kind == MapOf && 0 < |entries| <= MAX_INT64
    requires forall k :: k in entries ==> k != "" && Canonical(reg, rank, reg[s].element, entries[k])
    requires (forall k :: k in KeyOrder(entries) ==> k in entries)
      && Carries(form, prefix, Merge(EntryParts(reg, rank, s, prefix, entries, KeyOrder(entries))))
    ensures DecodeEntries(reg, rank, form, s, Indices(form, prefix), prefix) == Ok(entries)
    decreases rank[s], 0, |entries| + 1
  {
    var keys := KeyOrder(entries);
    KeysListed(entries);
    EntriesCarried(reg, rank, form, s, prefix, entries, keys);
    EntriesDecode(reg, rank, form, s, prefix, entries, keys, 0);
    assert UpTo(|keys|)[0..] == UpTo(|keys|) && keys[0..] == keys;
    AllFields(entries, keys);
  }

  lemma AllFields(fields: map<string, Value>, names: seq<string>)
    requires forall n :: n in fields ==> n in names
    ensures (map n | n in fields && n in names :: fields[n]) == fields
  {
  }

  lemma EntriesCarried(reg: Registry, rank: map<string, nat>, form: Form, s: string, prefix: string,
                       entries: map<string, Value>, keys: seq<string>)
    requires Ranked(reg, rank) && Wired(reg, rank) && s in reg && reg[s].kind == MapOf && |keys| <= MAX_INT64
    requires forall k :: k in entries ==> Canonical(reg, rank, reg[s].element, entries[k])
    requires (forall k :: k in keys ==> k in entries) && Carries(form, prefix, Merge(EntryParts(reg, rank, s, prefix, entries, keys)))
    ensures Indices(form, prefix) == UpTo(|keys|)
    ensures forall i :: 0 <= i < |keys| ==> Carries(form, At(prefix, i + 1), EntryParts(reg, rank, s, prefix, entries, keys)[i])
    decreases rank[s], 0, |keys|
  {
    var parts := EntryParts(reg, rank, s, prefix, entries, keys);
    EntriesParted(reg, rank, s, prefix, entries, keys);
    forall i | 0 <= i < |keys| ensures parts[i] != map[] && Carries(form, At(prefix, i + 1), parts[i]) {
      EntryNamed(reg, rank, s, prefix, entries, keys, i);
      CarriesPart(form, prefix, IndexWords(|keys|), parts, i);
    }
    IndicesOf(form, prefix, parts);
  }

  lemma {:induction false} EntriesDecode(reg: Registry, rank: map<string, nat>, form: Form, s: string, prefix: string,
                                         entries: map<string, Value>, keys: seq<string>, k: nat)
    requires Ranked(reg, rank) && Wired(reg, rank) && s in reg && reg[s].kind == MapOf && k <= |keys|
    requires forall n :: n in entries ==> n != "" && Canonical(reg, rank, reg[s].element, entries[n])
    requires forall n :: n in keys ==> n in entries
    requires forall i :: 0 <= i < |keys| ==> Carries(form, At(prefix, i + 1), EntryParts(reg, rank, s, prefix, entries, keys)[i])
    ensures DecodeEntries(reg, rank, form, s, UpTo(|keys|)[k..], prefix) == Ok(map n | n in entries && n in keys[k..] :: entries[n])
    decreases rank[s], 0, |keys| - k
  {
    if k < |keys| {
      var at := At(prefix, k + 1);
      UpToTail(|keys|, k);
      assert Carries(form, at, EntryParts(reg, rank, s, prefix, entries, keys)[k]);
      EntryDecodes(reg, rank, form, s, at, keys[k], entries[keys[k]]);
      EntriesDecode(reg, rank, form, s, prefix, entries, keys, k + 1);
      assert keys[k..][1..] == keys[k + 1..];
      FieldsOf(entries, keys[k..]);
    }
  }

  /** One entry of a map: its name, and its value decoded. */
  lemma EntryDecodes(reg: Registry, rank: map<string, nat>, form: Form, s: string, at: string, key: string, v: Value)
    requires Ranked(reg, rank) && Wired(reg, rank) && s in reg && reg[s].kind == MapOf && Canonical(reg, rank, reg[s].element, v)
    requires Carries(form, at, EntryPart(reg, rank, s, at, key, v))
    requires key != ""
    ensures DecodeEntry(reg, rank, form, s, at) == Ok(Some((key, v)))
    decreases rank[s], 0, 0
  {
    EntryFlattened(reg, rank, s, at, key, v);
    assert Below(at + ".Name", at) && Carries(form, at, EntryPart(reg, rank, s, at, key, v));
    ValueCarried(form, at, EntryPart(reg, rank, s, at, key, v), Flatten(reg, rank, reg[s].element, at + ".Value", v));
    RoundTrip(reg, rank, form, reg[s].element, at + ".Value", v);
  }

  lemma ValueCarried(form: Form, at: string, part: map<string, string>, value: map<string, string>)
    requires Carries(form, at, part)
    requires forall k :: Below(k, at + ".Value") ==> (k in part <==> k in value) && (k in part ==> part[k] == value[k])
    ensures Carries(form, at + ".Value", value)
  {
    assert at + ".Value" == at + "." + "Value";
    forall k | Below(k, at + ".Value") ensures Below(k, at) { BelowChild(k, at, "Value"); }
  }

  // ---- whole requests ---------------------------------------------------------------------------------

  /**
   * The round trip for the input of a request: if below the wire name of every member the form has exactly the flattened
   * member, or nothing where the member is absent, decoding gives the input back. Other keys, like the action's
   * own, do not matter; neither do further values under a key, nor any order.
   */
  lemma RequestRoundTrip(reg: Registry, rank: map<string, nat>, form: Form, s: string, fields: map<string, Value>)
    requires Ranked(reg, rank) && Wired(reg, rank) && s in reg && reg[s].kind == Structure && Typed(reg, rank, s, fields)
    requires forall n :: n in reg[s].memberOrder ==> CarriesMember(reg, rank, form, s, "", fields, n)
    ensures DecodeMembers(reg, rank, form, s, reg[s].memberOrder, "") == Ok(fields)
  {
    MembersDecode(reg, rank, form, s, "", fields, reg[s].memberOrder);
    AllFields(fields, reg[s].memberOrder);
  }

  /** The form that a flattened input is sent as. */
  function FormOf(flat: map<string, string>): Form {
    map key | key in flat :: [flat[key]]
  }

  /** Flattening the input of a request and decoding the form gives the input back. */
  lemma FlattenedDecodes(reg: Registry, rank: map<string, nat>, s: string, fields: map<string, Value>)
    requires Ranked(reg, rank) && Wired(reg, rank) && s in reg && reg[s].kind == Structure && Typed(reg, rank, s, fields)
    ensures DecodeMembers(reg, rank, FormOf(Merge(MemberParts(reg, rank, s, "", fields))), s, reg[s].memberOrder, "") == Ok(fields)
  {
    var parts := MemberParts(reg, rank, s, "", fields);
    MembersParted(reg, rank, s, "", fields);
    forall n | n in reg[s].memberOrder ensures CarriesMember(reg, rank, FormOf(Merge(parts)), s, "", fields, n) {
      FormCarries(Words(reg, s), parts, IndexOf(reg[s].memberOrder, n));
    }
    RequestRoundTrip(reg, rank, FormOf(Merge(parts)), s, fields);
  }

  /** The round trip for every acyclic registry whose names have no dots and whose structures have distinct wire names. */
  lemma NamedDecodes(reg: Registry, rank: map<string, nat>, s: string, fields: map<string, Value>)
    requires Ranked(reg, rank) && Named(reg, rank) && s in reg && reg[s].kind == Structure && Typed(reg, rank, s, fields)
    ensures DecodeMembers(reg, rank, FormOf(Merge(MemberParts(reg, rank, s, "", fields))), s, reg[s].memberOrder, "") == Ok(fields)
  {
    NamedWired(reg, rank);
    FlattenedDecodes(reg, rank, s, fields);
  }

  lemma FormCarries(words: seq<string>, parts: seq<map<string, string>>, i: nat)
    requires Parted("", words, parts) && i < |parts|
    ensures Carries(FormOf(Merge(parts)), words[i], parts[i])
  {
    assert "" + words[i] == words[i];
    forall key | Below(key, words[i])
      ensures key in Merge(parts) <==> key in parts[i]
      ensures key in parts[i] ==> Merge(parts)[key] == parts[i][key]
    {
      MergePart("", words, parts, i, key);
    }
  }
}
