/** The digest of message attributes: what is hashed, and that nothing is lost in it. Strings stand for their bytes. */
module AttributeDigest {
  import opened Records
  import opened Sequences
  import opened Strings

  datatype Attribute = Attribute(dataType: string, stringValue: string, binaryValue: string)

  predicate HasPrefix(s: string, prefix: string) { prefix <= s }

  const LENGTHS: int := 0x1_0000_0000

  /** The four big-endian bytes of a 32-bit length; a longer length is cut to its low 32 bits. */
  function LengthBytes(n: nat): string {
    Bytes(n % LENGTHS)
  }

  function Bytes(k: nat): string
    requires k < LENGTHS
  {
    [(k / 0x100_0000) as char, (k / 0x1_0000 % 0x100) as char, (k / 0x100 % 0x100) as char, (k % 0x100) as char]
  }

  function ReadLength(s: string): nat
    requires |s| == 4
  {
    ((s[0] as nat * 0x100 + s[1] as nat) * 0x100 + s[2] as nat) * 0x100 + s[3] as nat
  }

  lemma BytesOf(n: nat)
    requires n < LENGTHS
    ensures n / 0x1_0000 == n / 0x100 / 0x100 && n / 0x100_0000 == n / 0x100 / 0x100 / 0x100
    ensures n / 0x100_0000 < 0x100
  {
  }

  lemma ReadLengthBytes(n: nat)
    requires n < LENGTHS
    ensures ReadLength(LengthBytes(n)) == n
  {
    InWidth(n);
    ReadBytes(n % LENGTHS);
  }

  lemma InWidth(n: nat)
    requires n < LENGTHS
    ensures n % LENGTHS == n
  {
  }

  lemma ReadBytes(k: nat)
    requires k < LENGTHS
    ensures ReadLength(Bytes(k)) == k
  {
    BytesOf(k);
    FourBytes(k / 0x100_0000, k / 0x1_0000, k / 0x100, k);
  }

  lemma FourBytes(a: nat, b: nat, c: nat, n: nat)
    requires a < 0x100 && a == b / 0x100 && b == c / 0x100 && c == n / 0x100
    ensures ReadLength([a as char, (b % 0x100) as char, (c % 0x100) as char, (n % 0x100) as char]) == n
  {
  }

  function WithLength(value: string): string {
    LengthBytes(|value|) + value
  }

  /** One attribute as it is hashed: the transport type is 2 for binary values and 1 for others. */
  datatype Field = Field(name: string, dataType: string, binary: bool, payload: string)

  function FieldBytes(f: Field): string {
    WithLength(f.name) + WithLength(f.dataType) + [if f.binary then 2 as char else 1 as char] + WithLength(f.payload)
  }

  function FieldsBytes(fields: seq<Field>): string {
    if fields == [] then "" else FieldBytes(fields[0]) + FieldsBytes(fields[1..])
  }

  /** The attribute under its name; a binary value that is not base64 is an error. */
  function FieldOf(name: string, a: Attribute, decode: string -> Option<string>): Option<Field> {
    if HasPrefix(a.dataType, "Binary") then
      match decode(a.binaryValue)
      case Some(bytes) => Some(Field(name, a.dataType, true, bytes))
      case None => None
    else Some(Field(name, a.dataType, false, a.stringValue))
  }

  function FieldsOf(attrs: map<string, Attribute>, names: seq<string>, decode: string -> Option<string>): Option<seq<Field>>
    requires forall n :: n in names ==> n in attrs
  {
    if names == [] then Some([])
    else
      match FieldOf(names[0], attrs[names[0]], decode)
      case None => None
      case Some(f) =>
        match FieldsOf(attrs, names[1..], decode)
        case None => None
        case Some(rest) => Some([f] + rest)
  }

  ghost function Names<T>(attrs: map<string, T>): (names: seq<string>)
    ensures forall n :: n in names <==> n in attrs
  {
    NamesListed(attrs.Keys);
    Listed(attrs.Keys, Less)
  }

  lemma NamesListed(names: set<string>)
    ensures StrictWeak(Less) && Separates(names, Less)
    ensures forall n :: n in Listed(names, Less) <==> n in names
    ensures Distinct(Listed(names, Less))
  {
    LessOrders();
    forall a, b | a in names && b in names && a != b ensures Less(a, b) || Less(b, a) { LessDecides(a, b); }
    ListedRows(names, Less);
  }

  /** The fields in the order of their names. */
  ghost function SortedFields(attrs: map<string, Attribute>, decode: string -> Option<string>): Option<seq<Field>> {
    FieldsOf(attrs, Names(attrs), decode)
  }

  /** What is in the buffer, and then the fields still to be written. */
  function Append(buffer: string, fields: Option<seq<Field>>): Option<string> {
    match fields case Some(fs) => Some(buffer + FieldsBytes(fs)) case None => None
  }

  lemma AppendOne(buffer: string, f: Field, fields: Option<seq<Field>>)
    ensures Append(buffer + FieldBytes(f), fields) == Append(buffer, match fields case Some(fs) => Some([f] + fs) case None => None)
  {
    if fields.Some? {
      assert ([f] + fields.value)[1..] == fields.value;
      assert buffer + FieldBytes(f) + FieldsBytes(fields.value) == buffer + (FieldBytes(f) + FieldsBytes(fields.value));
    }
  }

  lemma AppendStep(buffer: string, attrs: map<string, Attribute>, names: seq<string>, i: nat, decode: string -> Option<string>)
    requires i < |names| && forall n :: n in names ==> n in attrs
    ensures Append(buffer, FieldsOf(attrs, names[i..], decode)) ==
      match FieldOf(names[i], attrs[names[i]], decode)
      case Some(f) => Append(buffer + FieldBytes(f), FieldsOf(attrs, names[i + 1..], decode))
      case None => None
  {
    assert names[i..][0] == names[i] && names[i..][1..] == names[i + 1..];
    match FieldOf(names[i], attrs[names[i]], decode)
    case Some(f) => AppendOne(buffer, f, FieldsOf(attrs, names[i + 1..], decode));
    case None =>
  }

  lemma AppendAll(attrs: map<string, Attribute>, decode: string -> Option<string>)
    ensures Append("", SortedFields(attrs, decode)) ==
      match SortedFields(attrs, decode) case Some(fields) => Some(FieldsBytes(fields)) case None => None
  {
    if SortedFields(attrs, decode).Some? {
      assert "" + FieldsBytes(SortedFields(attrs, decode).value) == FieldsBytes(SortedFields(attrs, decode).value);
    }
  }

  lemma AppendNone(buffer: string)
    ensures Append(buffer, Some([])) == Some(buffer)
  {
    assert buffer + "" == buffer;
  }

  /** The body of the loop of `md5OfAttributeMap`. */
  method WriteAttribute(buffer: string, name: string, a: Attribute, decode: string -> Option<string>) returns (written: Option<string>)
    ensures written == match FieldOf(name, a, decode) case Some(f) => Some(buffer + FieldBytes(f)) case None => None
  {
    var head := buffer + WithLength(name) + WithLength(a.dataType);
    if HasPrefix(a.dataType, "Binary") {
      var decoded := decode(a.binaryValue);
      if decoded.None? {
        return None;
      }
      assert head + [2 as char] + WithLength(decoded.value) == buffer + FieldBytes(Field(name, a.dataType, true, decoded.value));
      return Some(head + [2 as char] + WithLength(decoded.value));
    }
    assert head + [1 as char] + WithLength(a.stringValue) == buffer + FieldBytes(Field(name, a.dataType, false, a.stringValue));
    written := Some(head + [1 as char] + WithLength(a.stringValue));
  }

  /**
   * The bytes `md5OfAttributeMap` hashes. The names are taken in whatever order the map gives them; the
   * result depends on the map alone.
   */
  method DigestInput(attrs: map<string, Attribute>, decode: string -> Option<string>) returns (input: Option<string>)
    ensures input == match SortedFields(attrs, decode) case Some(fields) => Some(FieldsBytes(fields)) case None => None
  {
    NamesListed(attrs.Keys);
    AppendAll(attrs, decode);
    var names := List(attrs.Keys, Less);
    var buffer := "";
    assert names[0..] == names;
    for i := 0 to |names|
      invariant Append(buffer, FieldsOf(attrs, names[i..], decode)) == Append("", SortedFields(attrs, decode))
    {
      AppendStep(buffer, attrs, names, i, decode);
      var written := WriteAttribute(buffer, names[i], attrs[names[i]], decode);
      if written.None? {
        return None;
      }
      buffer := written.value;
    }
    AppendNone(buffer);
    input := Some(buffer);
  }

  // ---- reading it back ------------------------------------------------------------------------

  /** A length-prefixed string from the front, and the rest. */
  function ReadString(s: string): (r: Option<(string, string)>)
    ensures r.Some? ==> |r.value.1| < |s|
  {
    if |s| < 4 then None
    else
      var n := ReadLength(s[..4]);
      if |s| - 4 < n then None else Some((s[4..4 + n], s[4 + n..]))
  }

  function ReadField(s: string): (r: Option<(Field, string)>)
    ensures r.Some? ==> |r.value.1| < |s|
  {
    match ReadString(s)
    case None => None
    case Some((name, s1)) =>
      match ReadString(s1)
      case None => None
      case Some((dataType, s2)) =>
        if s2 == "" then None
        else
          match ReadString(s2[1..])
          case None => None
          case Some((payload, s3)) => Some((Field(name, dataType, s2[0] == 2 as char, payload), s3))
  }

  function ReadFields(s: string): Option<seq<Field>>
    decreases |s|
  {
    if s == "" then Some([])
    else
      match ReadField(s)
      case None => None
      case Some((f, rest)) =>
        match ReadFields(rest)
        case None => None
        case Some(fields) => Some([f] + fields)
  }

  predicate Short(f: Field) {
    |f.name| < LENGTHS && |f.dataType| < LENGTHS && |f.payload| < LENGTHS
  }

  lemma ReadStringBack(value: string, rest: string)
    requires |value| < LENGTHS
    ensures ReadString(WithLength(value) + rest) == Some((value, rest))
  {
    var s := WithLength(value) + rest;
    ReadLengthBytes(|value|);
    assert s[..4] == LengthBytes(|value|);
    assert s[4..4 + |value|] == value && s[4 + |value|..] == rest;
  }

  lemma ReadFieldBack(f: Field, rest: string)
    requires Short(f)
    ensures ReadField(FieldBytes(f) + rest) == Some((f, rest))
  {
    var kind: string := [if f.binary then 2 as char else 1 as char];
    var s2 := kind + (WithLength(f.payload) + rest);
    var s1 := WithLength(f.dataType) + s2;
    assert FieldBytes(f) + rest == WithLength(f.name) + s1;
    ReadStringBack(f.name, s1);
    ReadStringBack(f.dataType, s2);
    assert s2[1..] == WithLength(f.payload) + rest;
    ReadStringBack(f.payload, rest);
  }

  lemma ReadFieldsOnce(s: string, f: Field, rest: string, fields: seq<Field>)
    requires ReadField(s) == Some((f, rest)) && ReadFields(rest) == Some(fields)
    ensures ReadFields(s) == Some([f] + fields)
  {
  }

  lemma FieldsBytesCons(f: Field, fields: seq<Field>)
    ensures FieldsBytes([f] + fields) == FieldBytes(f) + FieldsBytes(fields)
  {
    assert ([f] + fields)[1..] == fields;
  }

  lemma ReadOneMore(f: Field, fields: seq<Field>)
    requires Short(f) && ReadFields(FieldsBytes(fields)) == Some(fields)
    ensures ReadFields(FieldsBytes([f] + fields)) == Some([f] + fields)
  {
    FieldsBytesCons(f, fields);
    ReadFieldBack(f, FieldsBytes(fields));
    ReadFieldsOnce(FieldBytes(f) + FieldsBytes(fields), f, FieldsBytes(fields), fields);
  }

  /** The hashed bytes can be read back to the list of names, types and values. */
  lemma {:induction false} ReadBack(fields: seq<Field>)
    requires forall f :: f in fields ==> Short(f)
    ensures ReadFields(FieldsBytes(fields)) == Some(fields)
  {
    if fields != [] {
      ReadBack(fields[1..]);
      ReadOneMore(fields[0], fields[1..]);
      assert fields == [fields[0]] + fields[1..];
    }
  }

  lemma {:induction false} FieldNamed(attrs: map<string, Attribute>, names: seq<string>, decode: string -> Option<string>, n: string)
    requires (forall m :: m in names ==> m in attrs) && FieldsOf(attrs, names, decode).Some?
    requires n in names
    ensures FieldOf(n, attrs[n], decode).Some? && FieldOf(n, attrs[n], decode).value in FieldsOf(attrs, names, decode).value
  {
    if names[0] != n { FieldNamed(attrs, names[1..], decode, n); }
  }

  lemma {:induction false} FieldFrom(attrs: map<string, Attribute>, names: seq<string>, decode: string -> Option<string>, f: Field)
    requires (forall m :: m in names ==> m in attrs) && FieldsOf(attrs, names, decode).Some?
    requires f in FieldsOf(attrs, names, decode).value
    ensures f.name in names && Some(f) == FieldOf(f.name, attrs[f.name], decode)
  {
    if FieldOf(names[0], attrs[names[0]], decode) != Some(f) { FieldFrom(attrs, names[1..], decode, f); }
  }

  /** Where every value can be decoded there is a field for every name. */
  lemma {:induction false} AllDecoded(attrs: map<string, Attribute>, names: seq<string>, decode: string -> Option<string>)
    requires forall n :: n in names ==> n in attrs && FieldOf(n, attrs[n], decode).Some?
    ensures FieldsOf(attrs, names, decode).Some?
  {
    if names != [] { AllDecoded(attrs, names[1..], decode); }
  }

  /** The same attributes as far as the digest is concerned: names, types and decoded values. */
  ghost predicate SameAttributes(a: map<string, Attribute>, b: map<string, Attribute>, decode: string -> Option<string>) {
    a.Keys == b.Keys && forall n :: n in a ==> FieldOf(n, a[n], decode) == FieldOf(n, b[n], decode)
  }

  /**
   * Two attribute maps hash the same bytes if and only if they have the same names, types and decoded values,
   * as long as no length reaches 2^32.
   */
  lemma DigestInjective(a: map<string, Attribute>, b: map<string, Attribute>, decode: string -> Option<string>)
    requires SortedFields(a, decode).Some? && SortedFields(b, decode).Some?
    requires forall f :: f in SortedFields(a, decode).value ==> Short(f)
    requires forall f :: f in SortedFields(b, decode).value ==> Short(f)
    ensures FieldsBytes(SortedFields(a, decode).value) == FieldsBytes(SortedFields(b, decode).value)
            <==> SameAttributes(a, b, decode)
  {
    if FieldsBytes(SortedFields(a, decode).value) == FieldsBytes(SortedFields(b, decode).value) {
      ReadBack(SortedFields(a, decode).value);
      ReadBack(SortedFields(b, decode).value);
      SameFields(a, b, decode);
      SameFields(b, a, decode);
    }
    if SameAttributes(a, b, decode) {
      assert Names(a) == Names(b);
      FieldsAgree(a, b, Names(a), decode);
    }
  }

  lemma SameFields(a: map<string, Attribute>, b: map<string, Attribute>, decode: string -> Option<string>)
    requires SortedFields(a, decode).Some? && SortedFields(a, decode) == SortedFields(b, decode)
    ensures forall n :: n in a ==> n in b && FieldOf(n, a[n], decode) == FieldOf(n, b[n], decode)
  {
    forall n | n in a ensures n in b && FieldOf(n, a[n], decode) == FieldOf(n, b[n], decode) {
      FieldNamed(a, Names(a), decode, n);
      FieldFrom(b, Names(b), decode, FieldOf(n, a[n], decode).value);
    }
  }

  lemma {:induction false} FieldsAgree(a: map<string, Attribute>, b: map<string, Attribute>, names: seq<string>, decode: string -> Option<string>)
    requires SameAttributes(a, b, decode) && forall n :: n in names ==> n in a
    ensures FieldsOf(a, names, decode) == FieldsOf(b, names, decode)
  {
    if names != [] { FieldsAgree(a, b, names[1..], decode); }
  }
}
