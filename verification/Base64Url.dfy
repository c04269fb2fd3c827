/**
 Unpadded base64url (section 5 of RFC 4648) as `base64.RawURLEncoding` computes it: the encoder
 is canonical, the decoder skips line breaks and ignores the unused bits of the last character.
 */
module Base64Url {
  import opened Wrappers

  type Byte = b: int | 0 <= b < 256
  type Sextet = x: int | 0 <= x < 64

  // ---- alphabet ----

  function Symbol(x: Sextet): char {
    if x < 26 then (x + 65) as char
    else if x < 52 then (x + 71) as char
    else if x < 62 then (x - 4) as char
    else if x == 62 then '-'
    else '_'
  }

  predicate InAlphabet(c: char) {
    'A' <= c <= 'Z' || 'a' <= c <= 'z' || '0' <= c <= '9' || c == '-' || c == '_'
  }

  function Index(c: char): Sextet
    requires InAlphabet(c)
  {
    if 'A' <= c <= 'Z' then c as int - 65
    else if 'a' <= c <= 'z' then c as int - 71
    else if '0' <= c <= '9' then c as int + 4
    else if c == '-' then 62
    else 63
  }

  function Spell(xs: seq<Sextet>): string {
    seq(|xs|, i requires 0 <= i < |xs| => Symbol(xs[i]))
  }

  predicate Spelled(s: string) {
    forall i :: 0 <= i < |s| ==> InAlphabet(s[i])
  }

  function Read(s: string): seq<Sextet>
    requires Spelled(s)
  {
    seq(|s|, i requires 0 <= i < |s| => Index(s[i]))
  }

  lemma SymbolIndex(x: Sextet)
    ensures InAlphabet(Symbol(x)) && Index(Symbol(x)) == x
  {
  }

  lemma IndexSymbol(c: char)
    requires InAlphabet(c)
    ensures Symbol(Index(c)) == c
  {
  }

  lemma ReadSpell(xs: seq<Sextet>)
    ensures Spelled(Spell(xs)) && Read(Spell(xs)) == xs
  {
    forall i | 0 <= i < |xs| ensures InAlphabet(Spell(xs)[i]) && Index(Spell(xs)[i]) == xs[i] {
      SymbolIndex(xs[i]);
    }
  }

  lemma SpellRead(s: string)
    requires Spelled(s)
    ensures Spell(Read(s)) == s
  {
    forall i | 0 <= i < |s| ensures Spell(Read(s))[i] == s[i] {
      IndexSymbol(s[i]);
    }
  }

  // ---- bits: three octets are four sextets ----

  // The four sextets of three octets, and the three octets of four sextets.
  function S0(x: int): int { x / 4 }
  function S1(x: int, y: int): int { x % 4 * 16 + y / 16 }
  function S2(y: int, z: int): int { y % 16 * 4 + z / 64 }
  function S3(z: int): int { z % 64 }
  function O0(p: int, q: int): int { p * 4 + q / 16 }
  function O1(q: int, r: int): int { q % 16 * 16 + r / 4 }
  function O2(r: int, t: int): int { r % 4 * 64 + t }

  lemma BytesBack(x: Byte, y: Byte, z: Byte)
    ensures O0(S0(x), S1(x, y)) == x && O1(S1(x, y), S2(y, z)) == y && O2(S2(y, z), S3(z)) == z
  {
  }

  lemma SextetsBack(p: Sextet, q: Sextet, r: Sextet, t: Sextet)
    ensures S0(O0(p, q)) == p && S1(O0(p, q), O1(q, r)) == q && S2(O1(q, r), O2(r, t)) == r && S3(O2(r, t)) == t
  {
  }

  function Four(x: Byte, y: Byte, z: Byte): seq<Sextet> {
    [S0(x), S1(x, y), S2(y, z), S3(z)]
  }

  function Three(p: Sextet, q: Sextet, r: Sextet, t: Sextet): seq<Byte> {
    [O0(p, q), O1(q, r), O2(r, t)]
  }

  function Sextets(b: seq<Byte>): seq<Sextet> {
    if |b| == 0 then []
    else if |b| == 1 then [S0(b[0]), S1(b[0], 0)]
    else if |b| == 2 then [S0(b[0]), S1(b[0], b[1]), S2(b[1], 0)]
    else Four(b[0], b[1], b[2]) + Sextets(b[3..])
  }

  function Octets(x: seq<Sextet>): seq<Byte> {
    if |x| < 2 then []
    else if |x| == 2 then [O0(x[0], x[1])]
    else if |x| == 3 then [O0(x[0], x[1]), O1(x[1], x[2])]
    else Three(x[0], x[1], x[2], x[3]) + Octets(x[4..])
  }

  /** A lone sextet at the end holds no octet: the decoder refuses it. */
  predicate Whole(x: seq<Sextet>) {
    if |x| < 4 then |x| != 1 else Whole(x[4..])
  }

  /** The last sextet carries no unused bits. */
  predicate TailBitsZero(x: seq<Sextet>) {
    if |x| == 2 then x[1] % 16 == 0
    else if |x| == 3 then x[2] % 4 == 0
    else |x| < 4 || TailBitsZero(x[4..])
  }

  lemma {:induction false} SextetsLength(b: seq<Byte>)
    ensures |Sextets(b)| == (4 * |b| + 2) / 3 && Whole(Sextets(b))
    decreases |b|
  {
    if |b| >= 3 {
      SextetsLength(b[3..]);
      assert Sextets(b)[4..] == Sextets(b[3..]);
    }
  }

  lemma {:induction false} OctetsSextets(b: seq<Byte>)
    ensures Octets(Sextets(b)) == b
    decreases |b|
  {
    if |b| < 3 {
      assert b == [] || b == [b[0]] || b == [b[0], b[1]];
      if |b| == 1 { OneByteBack(b[0]); } else if |b| == 2 { TwoBytesBack(b[0], b[1]); }
    } else {
      OctetsSextets(b[3..]);
      BytesBack(b[0], b[1], b[2]);
      var x := Sextets(b);
      assert x[4..] == Sextets(b[3..]);
      assert Octets(x) == [O0(x[0], x[1]), O1(x[1], x[2]), O2(x[2], x[3])] + Octets(x[4..]);
      assert b == [b[0], b[1], b[2]] + b[3..];
    }
  }

  lemma OneByteBack(x: Byte)
    ensures Octets(Sextets([x])) == [x]
  {
    assert x / 4 * 4 + x % 4 * 16 / 16 == x;
    assert Sextets([x]) == [S0(x), S1(x, 0)];
  }

  lemma TwoBytesBack(x: Byte, y: Byte)
    ensures Octets(Sextets([x, y])) == [x, y]
  {
    BytesBack(x, y, 0);
    assert Sextets([x, y]) == [S0(x), S1(x, y), S2(y, 0)];
  }

  lemma SamePrefix(h: seq<Sextet>, a: seq<Sextet>, b: seq<Sextet>)
    ensures h + a == h + b <==> a == b
  {
    assert (h + a)[|h|..] == a && (h + b)[|h|..] == b;
  }

  lemma TwoSextetsBack(p: Sextet, q: Sextet)
    ensures Sextets(Octets([p, q])) == [p, q] <==> q % 16 == 0
  {
    var x := p * 4 + q / 16;
    assert x / 4 == p && x % 4 * 16 == q / 16 * 16;
    assert Sextets([x]) == [S0(x), S1(x, 0)];
    assert Octets([p, q]) == [x];
  }

  lemma ThreeSextetsBack(p: Sextet, q: Sextet, r: Sextet)
    ensures Sextets(Octets([p, q, r])) == [p, q, r] <==> r % 4 == 0
  {
    SextetsBack(p, q, r, 0);
    var x, y := O0(p, q), O1(q, r);
    assert S2(y, 0) == r / 4 * 4;
    assert Sextets([x, y]) == [S0(x), S1(x, y), S2(y, 0)];
    assert Octets([p, q, r]) == [x, y];
  }

  lemma {:induction false} SextetsOctets(x: seq<Sextet>)
    requires Whole(x)
    ensures Sextets(Octets(x)) == x <==> TailBitsZero(x)
    decreases |x|
  {
    if |x| < 4 {
      SextetsOctetsTail(x);
    } else {
      var tail := x[4..];
      var back := Sextets(Octets(tail));
      assert Sextets(Octets(x)) == x[..4] + back by { QuadBack(x); }
      assert back == tail <==> TailBitsZero(tail) by { SextetsOctets(tail); }
      SamePrefix(x[..4], back, tail);
      assert x == x[..4] + tail;
    }
  }

  lemma {:induction false} SextetsOctetsTail(x: seq<Sextet>)
    requires |x| < 4 && |x| != 1
    ensures Sextets(Octets(x)) == x <==> TailBitsZero(x)
  {
    if |x| == 2 {
      TwoSextetsBack(x[0], x[1]);
      assert x == [x[0], x[1]];
    } else if |x| == 3 {
      ThreeSextetsBack(x[0], x[1], x[2]);
      assert x == [x[0], x[1], x[2]];
    }
  }

  lemma {:induction false} QuadBack(x: seq<Sextet>)
    requires |x| >= 4
    ensures Sextets(Octets(x)) == x[..4] + Sextets(Octets(x[4..]))
  {
    SextetsBack(x[0], x[1], x[2], x[3]);
    var b := Octets(x);
    assert b[3..] == Octets(x[4..]);
    assert Sextets(b) == [x[0], x[1], x[2], x[3]] + Sextets(b[3..]);
  }

  // ---- text ----

  function Encode(b: seq<Byte>): string {
    Spell(Sextets(b))
  }

  predicate IsLineBreak(c: char) {
    c == '\n' || c == '\r'
  }

  function SkipLineBreaks(s: string): string {
    if s == "" then ""
    else if IsLineBreak(s[0]) then SkipLineBreaks(s[1..])
    else [s[0]] + SkipLineBreaks(s[1..])
  }

  function Decode(s: string): Option<seq<Byte>> {
    var t := SkipLineBreaks(s);
    if Spelled(t) && Whole(Read(t)) then Some(Octets(Read(t))) else None
  }

  lemma {:induction false} SkipBounds(s: string)
    ensures |SkipLineBreaks(s)| <= |s|
    ensures Spelled(s) ==> SkipLineBreaks(s) == s
    ensures SkipLineBreaks(s) == s ==> forall k :: 0 <= k < |s| ==> !IsLineBreak(s[k])
    ensures (forall k :: 0 <= k < |s| ==> !IsLineBreak(s[k])) ==> SkipLineBreaks(s) == s
  {
    if s != "" {
      SkipBounds(s[1..]);
      assert s == [s[0]] + s[1..];
    }
  }

  /** Only alphabet symbols appear, so an encoding holds neither a dot nor a line break. */
  lemma EncodeAlphabet(b: seq<Byte>)
    ensures Spelled(Encode(b))
  {
    ReadSpell(Sextets(b));
  }

  lemma EncodeLength(b: seq<Byte>)
    ensures |Encode(b)| == (4 * |b| + 2) / 3
  {
    SextetsLength(b);
  }

  /** Decoding an encoding gives the bytes back. */
  lemma RoundTrip(b: seq<Byte>)
    ensures Decode(Encode(b)) == Some(b)
  {
    ReadSpell(Sextets(b));
    SkipBounds(Encode(b));
    SextetsLength(b);
    OctetsSextets(b);
  }

  lemma EncodeInjective(a: seq<Byte>, b: seq<Byte>)
    requires Encode(a) == Encode(b)
    ensures a == b
  {
    RoundTrip(a);
    RoundTrip(b);
  }

  /** No line break, and no unused bit set in the last character. */
  predicate Canonical(s: string) {
    Spelled(s) && TailBitsZero(Read(s))
  }

  /** Encoding what was decoded restores the text exactly when the text was canonical. */
  lemma EncodeAfterDecode(s: string)
    requires Decode(s).Some?
    ensures Encode(Decode(s).value) == s <==> Canonical(s)
  {
    var t := SkipLineBreaks(s);
    var b := Decode(s).value;
    SextetsOctets(Read(t));
    SpellRead(t);
    ReadSpell(Sextets(b));
    SkipBounds(s);
  }

  // ---- the browser page's encoder: padded base64, two characters translated, padding stripped ----

  /** The symbols of section 4 of RFC 4648, counted from the letters and figures themselves. */
  function StdSymbol(x: Sextet): char {
    if x < 26 then 'A' + x as char
    else if x < 52 then 'a' + (x - 26) as char
    else if x < 62 then '0' + (x - 52) as char
    else if x == 62 then '+'
    else '/'
  }

  function Padding(b: seq<Byte>): string {
    if |b| % 3 == 1 then "==" else if |b| % 3 == 2 then "=" else ""
  }

  /** `btoa`: standard base64 (section 4 of RFC 4648) with padding. */
  function Btoa(b: seq<Byte>): string {
    var xs := Sextets(b);
    seq(|xs|, i requires 0 <= i < |xs| => StdSymbol(xs[i])) + Padding(b)
  }

  function Replace(s: string, from: char, to: char): string {
    seq(|s|, i requires 0 <= i < |s| => if s[i] == from then to else s[i])
  }

  function StripPadding(s: string): string {
    if s != "" && s[|s| - 1] == '=' then StripPadding(s[..|s| - 1]) else s
  }

  function PageEncode(b: seq<Byte>): string {
    StripPadding(Replace(Replace(Btoa(b), '+', '-'), '/', '_'))
  }

  lemma StripTwo(e: string)
    requires e == "" || e[|e| - 1] != '='
    ensures StripPadding(e) == e && StripPadding(e + "=") == e && StripPadding(e + "==") == e
  {
    assert (e + "=")[..|e|] == e;
    assert (e + "==")[..|e| + 1] == e + "=";
  }

  /** The page and the server encode alike, so a challenge computed in the browser is the server's. */
  lemma PageEncodeIsEncode(b: seq<Byte>)
    ensures PageEncode(b) == Encode(b)
  {
    var xs := Sextets(b);
    var e := Encode(b);
    forall i | 0 <= i < |xs|
      ensures Replace(Replace([StdSymbol(xs[i])], '+', '-'), '/', '_') == [e[i]]
      ensures InAlphabet(e[i])
    {
      SymbolIndex(xs[i]);
    }
    assert Replace(Replace(Btoa(b), '+', '-'), '/', '_') == e + Padding(b) by {
      forall i | 0 <= i < |xs|
        ensures Replace(Replace(Btoa(b), '+', '-'), '/', '_')[i] == e[i]
      {
        assert Replace(Replace([StdSymbol(xs[i])], '+', '-'), '/', '_')[0] == e[i];
      }
    }
    StripTwo(e);
  }
}
