/** The encodings against their written form: alphabets, byte orders, place values and separators. */
module EncodingLaws {
  import opened Records
  import opened Sequences
  import opened Strings
  import Numerals
  import Tokens
  import AttributeDigest
  import opened AttributeSizes
  import CanonicalQuery

  // ---- decimal text -----------------------------------------------------------------------------

  function Power(n: nat): nat { if n == 0 then 1 else 10 * Power(n - 1) }

  /** The value of decimal digits, the first of them the most significant. */
  function PlaceValue(s: string): int {
    if s == "" then 0 else (s[0] as int - '0' as int) * Power(|s| - 1) + PlaceValue(s[1..])
  }

  lemma {:induction false} PlaceSnoc(s: string, c: char)
    ensures PlaceValue(s + [c]) == PlaceValue(s) * 10 + (c as int - '0' as int)
  {
    if s == "" {
      assert (s + [c])[1..] == "" && Power(0) == 1;
    } else {
      PlaceSnoc(s[1..], c);
      assert (s + [c])[1..] == s[1..] + [c];
      TenTimes(s[0] as int - '0' as int, |s| - 1);
    }
  }

  lemma TenTimes(d: int, n: nat)
    ensures d * Power(n + 1) == d * Power(n) * 10
  {
    assert Power(n + 1) == 10 * Power(n);
  }

  lemma {:induction false} DigitsPlace(s: string)
    requires Numerals.AllDigits(s)
    ensures Numerals.DigitsValue(s) == PlaceValue(s)
  {
    if s != "" {
      var front := s[..|s| - 1];
      DigitsPlace(front);
      PlaceSnoc(front, s[|s| - 1]);
      assert front + [s[|s| - 1]] == s;
    }
  }

  /** A text is read as a number exactly if it is digits after at most one sign, and the number they stand for has 64 bits. */
  lemma NumberRead(s: string, n: int)
    ensures Numerals.ParseInt(s) == Some(n) <==>
      && -0x8000_0000_0000_0000 <= n <= 0x7FFF_FFFF_FFFF_FFFF
      && s != ""
      && var body := if s[0] == '-' || s[0] == '+' then s[1..] else s;
      && body != "" && (forall i :: 0 <= i < |body| ==> '0' <= body[i] <= '9')
      && n == if s[0] == '-' then -PlaceValue(body) else PlaceValue(body)
  {
    if s != "" {
      var body := if s[0] == '-' || s[0] == '+' then s[1..] else s;
      if Numerals.AllDigits(body) { DigitsPlace(body); }
    }
  }

  /** A number is written in its digits, without leading zeros. */
  lemma NumberWritten(n: nat)
    ensures PlaceValue(Numerals.NatText(n)) == n
    ensures n > 0 ==> Numerals.NatText(n)[0] != '0'
    ensures Numerals.IntText(n) == Numerals.NatText(n)
    ensures n > 0 ==> Numerals.IntText(-(n as int)) == "-" + Numerals.NatText(n)
  {
    Numerals.DigitsOfNat(n);
    DigitsPlace(Numerals.NatText(n));
    NoLeadingZero(n);
  }

  lemma {:induction false} NoLeadingZero(n: nat)
    ensures n > 0 ==> Numerals.NatText(n)[0] != '0'
  {
    if n >= 10 { NoLeadingZero(n / 10); }
  }

  // ---- base64 -----------------------------------------------------------------------------------

  /** The alphabet: upper case, lower case, digits, and then '-' and '_'. */
  lemma Alphabet(v: int)
    requires 0 <= v < 64
    ensures Tokens.Sextet(0) == 'A' && Tokens.Sextet(26) == 'a' && Tokens.Sextet(52) == '0'
    ensures Tokens.Sextet(62) == '-' && Tokens.Sextet(63) == '_'
    ensures v < 61 && v != 25 && v != 51 ==> Tokens.Sextet(v + 1) as int == Tokens.Sextet(v) as int + 1
  {
  }

  lemma Bits(a: int, b: int, c: int)
    requires 0 <= a < 256 && 0 <= b < 256 && 0 <= c < 256
    ensures ((a / 4 * 64 + (a % 4 * 16 + b / 16)) * 64 + (b % 16 * 4 + c / 64)) * 64 + c % 64 == (a * 256 + b) * 256 + c
    ensures (a / 4 * 64 + (a % 4 * 16 + b / 16)) * 64 + b % 16 * 4 == (a * 256 + b) * 4
    ensures a / 4 * 64 + a % 4 * 16 == a * 16
  {
  }

  /** The text of four sextets. */
  ghost predicate Spells(s: string, w: int, x: int, y: int, z: int) {
    && 0 <= w < 64 && 0 <= x < 64 && 0 <= y < 64 && 0 <= z < 64
    && s == [Tokens.Sextet(w), Tokens.Sextet(x), Tokens.Sextet(y), Tokens.Sextet(z)]
  }

  /** Three bytes are four sextets of the same 24 bits, the first the most significant. */
  lemma ThreeBytes(a: int, b: int, c: int) returns (w: int, x: int, y: int, z: int)
    requires 0 <= a < 256 && 0 <= b < 256 && 0 <= c < 256
    ensures Spells(Tokens.Four(a, b, c), w, x, y, z) && ((w * 64 + x) * 64 + y) * 64 + z == (a * 256 + b) * 256 + c
  {
    w, x, y, z := a / 4, a % 4 * 16 + b / 16, b % 16 * 4 + c / 64, c % 64;
    Tokens.Regrouped(a, b, c);
    Bits(a, b, c);
  }

  /** At the end one or two bytes are filled up with zeros to two or three sextets. */
  lemma LastBytes(a: int, b: int) returns (w: int, x: int, y: int)
    requires 0 <= a < 256 && 0 <= b < 256
    ensures 0 <= w < 64 && 0 <= x < 64 && 0 <= y < 64
    ensures Tokens.Three(a, b) == [Tokens.Sextet(w), Tokens.Sextet(x), Tokens.Sextet(y)] && (w * 64 + x) * 64 + y == (a * 256 + b) * 4
    ensures Tokens.Two(a) == [Tokens.Sextet(w), Tokens.Sextet(a % 4 * 16)] && w * 64 + a % 4 * 16 == a * 16
  {
    w, x, y := a / 4, a % 4 * 16 + b / 16, b % 16 * 4;
    Tokens.Regrouped(a, b, 0);
    Bits(a, b, 0);
  }

  // ---- attribute digests ------------------------------------------------------------------------

  /** A length-prefixed string: the length in four bytes, the most significant first, and then the string. */
  lemma LengthFirst(value: string)
    requires |value| < 0x1_0000_0000
    ensures var s := AttributeDigest.WithLength(value);
      && |s| == 4 + |value| && s[4..] == value
      && s[0] as int * 0x100_0000 + s[1] as int * 0x1_0000 + s[2] as int * 0x100 + s[3] as int == |value|
      && s[0] as int < 0x100 && s[1] as int < 0x100 && s[2] as int < 0x100 && s[3] as int < 0x100
  {
    AttributeDigest.ReadLengthBytes(|value|);
    AttributeDigest.InWidth(|value|);
    AttributeDigest.BytesOf(|value|);
  }

  /**
   * One attribute in the digest: name, type, a byte that is 2 if the type begins with "Binary" and 1 if not, and the value, which
   * is decoded if binary.
   */
  lemma AttributeBytes(name: string, a: AttributeDigest.Attribute, decode: string -> Option<string>)
    ensures var binary := |a.dataType| >= 6 && a.dataType[..6] == "Binary";
      var field := AttributeDigest.FieldOf(name, a, decode);
      && (field.None? <==> binary && decode(a.binaryValue).None?)
      && (field.Some? ==>
            AttributeDigest.FieldBytes(field.value) ==
            AttributeDigest.WithLength(name) + AttributeDigest.WithLength(a.dataType) + [(if binary then 2 else 1) as char]
            + AttributeDigest.WithLength(if binary then decode(a.binaryValue).value else a.stringValue))
  {
    var prefix := "Binary";
    assert AttributeDigest.HasPrefix(a.dataType, prefix) <==> |a.dataType| >= 6 && a.dataType[..6] == prefix;
  }

  /** The attributes come in the byte order of their names, each name once. */
  lemma NamesAscend(names: set<string>, i: nat, j: nat)
    requires i < j < |Listed(names, Less)|
    ensures var a, b := Listed(names, Less)[i], Listed(names, Less)[j];
      exists k :: 0 <= k <= |a| && k < |b| && a[..k] == b[..k] && (k == |a| || (a[k] as int) < (b[k] as int))
  {
    AttributeDigest.NamesListed(names);
    ListedRows(names, Less);
    LessAtFirstDifference(Listed(names, Less)[i], Listed(names, Less)[j]);
  }

  // ---- attribute sizes --------------------------------------------------------------------------

  /** The size of attributes: each adds the lengths of its name, its type and its values. */
  lemma OneAttributeMore(attrs: map<string, AttributeDigest.Attribute>, name: string, a: AttributeDigest.Attribute)
    requires name !in attrs
    ensures TotalSize(map[]) == 0
    ensures TotalSize(attrs[name := a]) == TotalSize(attrs) + |name| + |a.dataType| + |a.stringValue| + |a.binaryValue|
  {
    var names := AttributeDigest.Names(attrs);
    AttributeDigest.NamesListed(attrs.Keys);
    SumMore(attrs, names, name, a);
    assert Distinct(names + [name]);
    TotalInAnyOrder(attrs[name := a], names + [name]);
    TotalInAnyOrder(map[], []);
  }

  // ---- acceptance of attributes -------------------------------------------------------------------

  /**
   * An attribute is accepted if and only if its name and its structure are right and it has the value that its type calls for: a
   * binary one decodable text, any other a non-empty valid string. The one system attribute is a string.
   */
  lemma AttributeAccepted(name: string, raw: Raw, system: bool, checks: Checks)
    ensures var binary := |raw.dataType| >= 6 && raw.dataType[..6] == "Binary";
      Accepted(name, raw, system, checks).Ok? <==>
      && checks.validName(name, system) && raw.isStructure && raw.dataType != "" && !raw.hasLists
      && (if binary then raw.binaryValue != "" && checks.decode(raw.binaryValue).Some? && !system
          else raw.stringValue != "" && checks.validText(raw.stringValue))
      && (system ==> name == "AWSTraceHeader" && |raw.dataType| >= 6 && raw.dataType[..6] == "String")
    ensures Accepted(name, raw, system, checks).Ok? ==>
      Accepted(name, raw, system, checks).value ==
        (if |raw.dataType| >= 6 && raw.dataType[..6] == "Binary" then AttributeDigest.Attribute(raw.dataType, "", raw.binaryValue)
         else AttributeDigest.Attribute(raw.dataType, raw.stringValue, ""))
    ensures Accepted(name, raw, system, checks) == Err(InvalidMessageContents) ==>
      raw.stringValue != "" && !checks.validText(raw.stringValue)
  {
    var binary, text := "Binary", "String";
    assert binary[0] == 'B' && text[0] == 'S';
    assert AttributeDigest.HasPrefix(raw.dataType, binary) <==> |raw.dataType| >= 6 && raw.dataType[..6] == binary;
    assert AttributeDigest.HasPrefix(raw.dataType, text) <==> |raw.dataType| >= 6 && raw.dataType[..6] == text;
  }

  // ---- the canonical query string -----------------------------------------------------------------

  /** A byte is left alone if it is a letter, a digit, '-', '.', '_' or '~', and else written as a percent sign and two hexadecimal digits in upper case. */
  lemma ByteEncoded(c: CanonicalQuery.Byte)
    ensures var n := c as int;
      CanonicalQuery.EncodeByte(c) ==
      if 65 <= n <= 90 || 97 <= n <= 122 || 48 <= n <= 57 || n in {45, 46, 95, 126} then [c] else ['%', Hex(n / 16), Hex(n % 16)]
  {
    HexIs(c as int / 16);
    HexIs(c as int % 16);
  }

  function Hex(d: int): CanonicalQuery.Byte
    requires 0 <= d < 16
  {
    "0123456789ABCDEF"[d]
  }

  lemma HexIs(d: int)
    requires 0 <= d < 16
    ensures CanonicalQuery.HexDigit(d) == Hex(d)
  {
  }

  /** The encoded parameters come in the byte order of their keys, and those of one key in the byte order of their values. */
  lemma PartsAscend(pairs: seq<CanonicalQuery.Pair>, i: nat, j: nat)
    requires i < j < |pairs|
    ensures var sorted := Sort(Map(pairs, CanonicalQuery.EncodePair), CanonicalQuery.PairLess);
      && |sorted| == |pairs|
      && var a, b := sorted[i], sorted[j];
      || (exists k :: 0 <= k <= |a.key| && k < |b.key| && a.key[..k] == b.key[..k] && (k == |a.key| || (a.key[k] as int) < (b.key[k] as int)))
      || (a.key == b.key
          && (a.value == b.value
              || exists k :: 0 <= k <= |a.value| && k < |b.value| && a.value[..k] == b.value[..k]
                             && (k == |a.value| || (a.value[k] as int) < (b.value[k] as int))))
  {
    var encoded := Map(pairs, CanonicalQuery.EncodePair);
    var sorted := Sort(encoded, CanonicalQuery.PairLess);
    CanonicalQuery.PairsOrder(encoded);
    SortOrdered(encoded, CanonicalQuery.PairLess);
    SortPermutes(encoded, CanonicalQuery.PairLess);
    SameMembers(sorted, encoded);
    LessAtFirstDifference(sorted[i].key, sorted[j].key);
    LessAtFirstDifference(sorted[i].value, sorted[j].value);
    if sorted[i].key != sorted[j].key { LessDecides(sorted[i].key, sorted[j].key); }
    if sorted[i].value != sorted[j].value { LessDecides(sorted[i].value, sorted[j].value); }
  }

  /** The parts are written as key, '=' and value, with '&' between them. */
  lemma {:induction false} PartsJoined(pairs: seq<CanonicalQuery.Pair>, p: CanonicalQuery.Pair)
    ensures CanonicalQuery.Join([]) == []
    ensures CanonicalQuery.Join(pairs + [p]) ==
      (if pairs == [] then [] else CanonicalQuery.Join(pairs) + ['&']) + p.key + ['='] + p.value
  {
    var all := pairs + [p];
    if |pairs| == 1 {
      assert all[1..] == [p];
    } else if |pairs| > 1 {
      PartsJoined(pairs[1..], p);
      assert all[1..] == pairs[1..] + [p];
    }
  }

  /** The parameters of a request are all values of all keys, but for the signature of a presigned one. */
  lemma {:induction false} ParametersCollected(parameters: CanonicalQuery.Parameters, keys: seq<CanonicalQuery.Bytes>, presigned: bool,
                                               p: CanonicalQuery.Pair)
    requires forall k :: k in keys ==> k in parameters
    ensures p in CanonicalQuery.PairsIn(parameters, keys, presigned) <==>
      p.key in keys && p.value in parameters[p.key] && !(presigned && p.key == "X-Amz-Signature")
  {
    if keys != [] {
      ParametersCollected(parameters, keys[1..], presigned, p);
      ValuesCollected(keys[0], parameters[keys[0]], presigned, p);
    }
  }

  lemma ValuesCollected(key: CanonicalQuery.Bytes, values: seq<CanonicalQuery.Bytes>, presigned: bool, p: CanonicalQuery.Pair)
    ensures p in CanonicalQuery.PairsFor(key, values, presigned) <==>
      p.key == key && p.value in values && !(presigned && key == "X-Amz-Signature")
  {
    var pairs := CanonicalQuery.PairsFor(key, values, presigned);
    if p in pairs { var i := IndexOf(pairs, p); }
    if p.key == key && p.value in values && !(presigned && key == "X-Amz-Signature") {
      assert pairs[IndexOf(values, p.value)] == p;
    }
  }
}
