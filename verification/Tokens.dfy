/** Page tokens: an offset in decimal, in the URL-safe base64 alphabet of section 5 of RFC 4648, without padding. */
module Tokens {
  import opened Records
  import opened Sequences
  import opened Numerals

  function Sextet(v: int): (c: char)
    requires 0 <= v < 64
    ensures SextetValue(c) == Some(v)
  {
    if v < 26 then ('A' as int + v) as char
    else if v < 52 then ('a' as int + v - 26) as char
    else if v < 62 then ('0' as int + v - 52) as char
    else if v == 62 then '-' else '_'
  }

  function SextetValue(c: char): (v: Option<int>)
    ensures v.Some? ==> 0 <= v.value < 64
  {
    if 'A' <= c <= 'Z' then Some(c as int - 'A' as int)
    else if 'a' <= c <= 'z' then Some(c as int - 'a' as int + 26)
    else if '0' <= c <= '9' then Some(c as int - '0' as int + 52)
    else if c == '-' then Some(62)
    else if c == '_' then Some(63)
    else None
  }

  predicate IsBytes(s: string) { forall i :: 0 <= i < |s| ==> s[i] as int < 256 }

  /** One, two and three bytes in sextets. */
  function Two(a: int): string
    requires 0 <= a < 256
  {
    [Sextet(a / 4), Sextet(a % 4 * 16)]
  }

  function Three(a: int, b: int): string
    requires 0 <= a < 256 && 0 <= b < 256
  {
    [Sextet(a / 4), Sextet(a % 4 * 16 + b / 16), Sextet(b % 16 * 4)]
  }

  function Four(a: int, b: int, c: int): string
    requires 0 <= a < 256 && 0 <= b < 256 && 0 <= c < 256
  {
    [Sextet(a / 4), Sextet(a % 4 * 16 + b / 16), Sextet(b % 16 * 4 + c / 64), Sextet(c % 64)]
  }

  function Base64(s: string): string
    requires IsBytes(s)
  {
    if s == "" then ""
    else if |s| == 1 then Two(s[0] as int)
    else if |s| == 2 then Three(s[0] as int, s[1] as int)
    else Four(s[0] as int, s[1] as int, s[2] as int) + Base64(s[3..])
  }

  predicate AllSextets(s: string) { forall i :: 0 <= i < |s| ==> SextetValue(s[i]).Some? }

  function Value(s: string, i: nat): (v: int)
    requires AllSextets(s) && i < |s|
    ensures 0 <= v < 64
  {
    SextetValue(s[i]).value
  }

  /** As the Go decoder reads it: bits left over at the end are ignored. */
  function FromSextets(s: string): Option<string>
    requires AllSextets(s)
  {
    if s == "" then Some("")
    else if |s| == 1 then None
    else
      var a := (Value(s, 0) * 4 + Value(s, 1) / 16) as char;
      if |s| == 2 then Some([a])
      else
        var b := (Value(s, 1) % 16 * 16 + Value(s, 2) / 4) as char;
        if |s| == 3 then Some([a, b])
        else
          var c := (Value(s, 2) % 4 * 64 + Value(s, 3)) as char;
          match FromSextets(s[4..])
          case Some(rest) => Some([a, b, c] + rest)
          case None => None
  }

  function NotLineBreak(c: char): bool { c != '\n' && c != '\r' }

  /** The Go decoder skips line breaks. */
  function FromBase64(s: string): Option<string> {
    var t := Filter(s, NotLineBreak);
    if AllSextets(t) then FromSextets(t) else None
  }

  lemma FromOne(a: int)
    requires 0 <= a < 256
    ensures AllSextets(Two(a)) && FromSextets(Two(a)) == Some([a as char])
  {
    var s := Two(a);
    assert Value(s, 0) == a / 4 && Value(s, 1) == a % 4 * 16;
  }

  lemma FromTwo(a: int, b: int)
    requires 0 <= a < 256 && 0 <= b < 256
    ensures AllSextets(Three(a, b)) && FromSextets(Three(a, b)) == Some([a as char, b as char])
  {
    var s := Three(a, b);
    assert Value(s, 0) == a / 4 && Value(s, 1) == a % 4 * 16 + b / 16 && Value(s, 2) == b % 16 * 4;
  }

  lemma Regrouped(a: int, b: int, c: int)
    requires 0 <= a < 256 && 0 <= b < 256 && 0 <= c < 256
    ensures a / 4 * 4 + (a % 4 * 16 + b / 16) / 16 == a
    ensures (a % 4 * 16 + b / 16) % 16 * 16 + (b % 16 * 4 + c / 64) / 4 == b
    ensures (b % 16 * 4 + c / 64) % 4 * 64 + c % 64 == c
    ensures 0 <= a / 4 < 64 && 0 <= a % 4 * 16 + b / 16 < 64 && 0 <= b % 16 * 4 + c / 64 < 64 && 0 <= c % 64 < 64
  {
  }

  lemma FromFour(a: int, b: int, c: int, more: string)
    requires 0 <= a < 256 && 0 <= b < 256 && 0 <= c < 256 && AllSextets(more)
    ensures AllSextets(Four(a, b, c) + more)
    ensures FromSextets(Four(a, b, c) + more) ==
         match FromSextets(more) case Some(rest) => Some([a as char, b as char, c as char] + rest) case None => None
  {
    Regrouped(a, b, c);
    FromSix(a / 4, a % 4 * 16 + b / 16, b % 16 * 4 + c / 64, c % 64, a, b, c, more);
  }

  lemma FromSix(w: int, x: int, y: int, z: int, a: int, b: int, c: int, more: string)
    requires 0 <= w < 64 && 0 <= x < 64 && 0 <= y < 64 && 0 <= z < 64 && AllSextets(more)
    requires 0 <= a < 256 && 0 <= b < 256 && 0 <= c < 256
    requires w * 4 + x / 16 == a && x % 16 * 16 + y / 4 == b && y % 4 * 64 + z == c
    ensures var four := [Sextet(w), Sextet(x), Sextet(y), Sextet(z)];
      && AllSextets(four + more)
      && FromSextets(four + more) ==
         match FromSextets(more) case Some(rest) => Some([a as char, b as char, c as char] + rest) case None => None
  {
    FourSextets(w, x, y, z, more);
  }

  lemma FourSextets(w: int, x: int, y: int, z: int, more: string)
    requires 0 <= w < 64 && 0 <= x < 64 && 0 <= y < 64 && 0 <= z < 64 && AllSextets(more)
    ensures var four := [Sextet(w), Sextet(x), Sextet(y), Sextet(z)];
      && AllSextets(four + more)
      && FromSextets(four + more) ==
         match FromSextets(more)
         case Some(rest) => Some([(w * 4 + x / 16) as char, (x % 16 * 16 + y / 4) as char, (y % 4 * 64 + z) as char] + rest)
         case None => None
  {
    var s := [Sextet(w), Sextet(x), Sextet(y), Sextet(z)] + more;
    assert AllSextets(s) && s[4..] == more;
    assert Value(s, 0) == w && Value(s, 1) == x && Value(s, 2) == y && Value(s, 3) == z;
  }

  lemma {:induction false} SextetsBack(s: string)
    requires IsBytes(s)
    ensures AllSextets(Base64(s)) && FromSextets(Base64(s)) == Some(s)
  {
    if s == "" {
    } else if |s| == 1 {
      FromOne(s[0] as int);
      assert s == [s[0]];
    } else if |s| == 2 {
      FromTwo(s[0] as int, s[1] as int);
      assert s == [s[0], s[1]];
    } else {
      SextetsBack(s[3..]);
      MoreBack(s);
    }
  }

  lemma MoreBack(s: string)
    requires IsBytes(s) && |s| >= 3
    requires AllSextets(Base64(s[3..])) && FromSextets(Base64(s[3..])) == Some(s[3..])
    ensures AllSextets(Base64(s)) && FromSextets(Base64(s)) == Some(s)
  {
    FourBack(s, Base64(s[3..]), Base64(s));
  }

  lemma FourBack(s: string, more: string, all: string)
    requires IsBytes(s) && |s| >= 3 && AllSextets(more) && FromSextets(more) == Some(s[3..])
    requires all == Four(s[0] as int, s[1] as int, s[2] as int) + more
    ensures AllSextets(all) && FromSextets(all) == Some(s)
  {
    FromFour(s[0] as int, s[1] as int, s[2] as int, more);
    CharsBack(s);
  }

  lemma CharsBack(s: string)
    requires |s| >= 3
    ensures [s[0] as int as char, s[1] as int as char, s[2] as int as char] + s[3..] == s
  {
  }

  /** Decoding the encoding gives the bytes back. */
  lemma Base64Back(s: string)
    requires IsBytes(s)
    ensures FromBase64(Base64(s)) == Some(s)
  {
    SextetsBack(s);
    forall c | c in Base64(s) ensures NotLineBreak(c) {
      var i :| 0 <= i < |Base64(s)| && Base64(s)[i] == c;
    }
    FilterAll(Base64(s), NotLineBreak);
  }

  lemma {:induction false} DigitsAreBytes(s: string)
    requires AllDigits(s)
    ensures IsBytes(s)
  {
  }

  function EncodeNextToken(offset: int): string {
    if offset <= 0 then "" else DigitsAreBytes(NatText(offset)); Base64(NatText(offset))
  }

  function DecodeNextToken(token: string): Option<int> {
    if token == "" then Some(0)
    else
      match FromBase64(token)
      case Some(raw) => ParseInt(raw)
      case None => None
  }

  /** A token leads back to its offset. */
  lemma TokenBack(offset: nat)
    requires offset <= MAX_INT64
    ensures DecodeNextToken(EncodeNextToken(offset)) == Some(offset)
    ensures EncodeNextToken(offset) == "" <==> offset == 0
  {
    if offset > 0 {
      DigitsAreBytes(NatText(offset));
      Base64Back(NatText(offset));
      ParseIntText(offset);
    }
  }
}
