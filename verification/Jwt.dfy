/** Compact JWS tokens (section 7.1 of RFC 7515): signing, splitting, verifying. */
module Jwt {
  import opened Wrappers
  import opened Clock
  import opened Base64Url
  import opened JwtClaims
  import opened Primitives
  import Text

  datatype Alg = RS256 | EdDSA

  function AlgName(a: Alg): string {
    match a
    case RS256 => "RS256"
    case EdDSA => "EdDSA"
  }

  /** The names on the wire (section 3.1 of RFC 7518 and RFC 8037). */
  lemma AlgNames()
    ensures AlgName(RS256) == "RS256" && AlgName(EdDSA) == "EdDSA"
  {
  }

  lemma AlgNameInjective(a: Alg, b: Alg)
    ensures AlgName(a) == AlgName(b) <==> a == b
  {
    assert "RS256"[0] != "EdDSA"[0];
  }

  datatype Header = Header(alg: string, typ: string, kid: string)

  // ---- header object ----

  function HeaderMembers(h: Header): Members {
    [("alg", Str(h.alg)), ("typ", Str(h.typ)), ("kid", Str(h.kid))]
  }

  /** The value a header field is left with, matching names without regard to case; null changes nothing. */
  function LastNamed(ms: Members, name: string): Option<Json> {
    if ms == [] then None
    else if Fold(ms[|ms| - 1].0) == name && !ms[|ms| - 1].1.Null? then Some(ms[|ms| - 1].1)
    else LastNamed(ms[..|ms| - 1], name)
  }

  predicate HeaderFits(ms: Members) {
    forall i :: 0 <= i < |ms| && Fold(ms[i].0) in {"alg", "typ", "kid"} ==> ms[i].1.Str? || ms[i].1.Null?
  }

  function ReadHeader(ms: Members): Option<Header> {
    if HeaderFits(ms) then
      Some(Header(TextOf(LastNamed(ms, "alg")), TextOf(LastNamed(ms, "typ")), TextOf(LastNamed(ms, "kid"))))
    else None
  }

  lemma {:induction false} LastNamedOnly(ms: Members, name: string, i: nat)
    requires i < |ms| && Fold(ms[i].0) == name && !ms[i].1.Null?
    requires forall j :: 0 <= j < |ms| && j != i ==> Fold(ms[j].0) != name
    ensures LastNamed(ms, name) == Some(ms[i].1)
  {
    if i < |ms| - 1 {
      LastNamedOnly(ms[..|ms| - 1], name, i);
    }
  }

  lemma HeaderReadsBack(h: Header)
    ensures ReadHeader(HeaderMembers(h)) == Some(h)
  {
    assert Fold("alg") == "alg" && Fold("typ") == "typ" && Fold("kid") == "kid";
    assert "alg"[0] != "typ"[0] && "alg"[0] != "kid"[0] && "typ"[0] != "kid"[0];
    LastNamedOnly(HeaderMembers(h), "alg", 0);
    LastNamedOnly(HeaderMembers(h), "typ", 1);
    LastNamedOnly(HeaderMembers(h), "kid", 2);
  }

  // ---- signing ----

  function Segment(l: Library, ms: Members): string {
    Encode(l.write(ms))
  }

  function SigningInput(l: Library, h: Header, c: Claims): string {
    Segment(l, HeaderMembers(h)) + "." + Segment(l, Document(c))
  }

  function SignToken(l: Library, a: Alg, kid: string, pair: KeyPair, c: Claims): string {
    var input := SigningInput(l, Header(AlgName(a), "JWT", kid), c);
    input + "." + Encode(l.sign(pair, input))
  }

  // ---- parsing ----

  datatype Parsed = Parsed(header: Header, claims: Claims, input: string, sig: seq<Byte>)

  function ReadObject(l: Library, segment: string): Option<Members> {
    match Decode(segment)
    case Some(b) => l.read(b)
    case None => None
  }

  function HeaderOf(l: Library, segment: string): Option<Header> {
    match ReadObject(l, segment)
    case Some(ms) => ReadHeader(ms)
    case None => None
  }

  function ClaimsOf(l: Library, segment: string): Option<Claims> {
    match ReadObject(l, segment)
    case Some(ms) => Unflatten(ms)
    case None => None
  }

  function SplitToken(l: Library, token: string): Option<Parsed> {
    var parts := Text.Split(token);
    if |parts| != 3 then None
    else
      match (HeaderOf(l, parts[0]), ClaimsOf(l, parts[1]), Decode(parts[2]))
      case (Some(h), Some(c), Some(sig)) => Some(Parsed(h, c, parts[0] + "." + parts[1], sig))
      case _ => None
  }

  /** The header read without looking at the signature. */
  function PeekKid(l: Library, token: string): Option<Header> {
    HeaderOf(l, Text.UpToDot(token))
  }

  /** `checkTimes` lets the claims pass. */
  predicate Live(c: Claims, now: Time) {
    !(c.expiresAt != 0 && Unix(now) > c.expiresAt) && !(c.notBefore != 0 && Unix(now) < c.notBefore)
  }

  /** The time check against the instants: from the start of the first second to the end of the expiry second, zero for no limit. */
  lemma LiveExactly(c: Claims, now: Time)
    ensures Live(c, now) <==>
      && (c.expiresAt != 0 ==> now < (c.expiresAt + 1) * 1_000_000_000)
      && (c.notBefore != 0 ==> c.notBefore * 1_000_000_000 <= now)
  {
    UnixSecond(now, c.expiresAt);
  }

  function Verify(l: Library, signed: Signed, a: Alg, pair: KeyPair, token: string, now: Time): Option<Claims> {
    match SplitToken(l, token)
    case None => None
    case Some(t) =>
      if t.header.alg != AlgName(a) then None
      else if !Accepts(l, signed, pair, t.input, t.sig) then None
      else if !Live(t.claims, now) then None
      else Some(t.claims)
  }

  // ---- round trips ----

  /** The claims survive the trip through JSON: `RoundTripExactly`. */
  predicate Sound(c: Claims) {
    IntsInRange(c) && Returns(c)
  }

  lemma SegmentDotFree(b: seq<Byte>)
    ensures Text.Without(Encode(b), '.')
  {
    EncodeAlphabet(b);
  }

  lemma HeaderSegment(l: Library, h: Header)
    requires JsonRoundTrips(l)
    ensures HeaderOf(l, Segment(l, HeaderMembers(h))) == Some(h)
  {
    RoundTrip(l.write(HeaderMembers(h)));
    HeaderReadsBack(h);
  }

  lemma ClaimsSegment(l: Library, c: Claims)
    requires JsonRoundTrips(l) && Sound(c)
    ensures ClaimsOf(l, Segment(l, Document(c))) == Some(c)
  {
    RoundTrip(l.write(Document(c)));
    RoundTripExactly(c);
  }

  lemma TokenParts(l: Library, a: Alg, kid: string, pair: KeyPair, c: Claims)
    ensures var h := Header(AlgName(a), "JWT", kid);
            Text.Split(SignToken(l, a, kid, pair, c))
            == [Segment(l, HeaderMembers(h)), Segment(l, Document(c)), Encode(l.sign(pair, SigningInput(l, h, c)))]
  {
    var h := Header(AlgName(a), "JWT", kid);
    SegmentDotFree(l.write(HeaderMembers(h)));
    SegmentDotFree(l.write(Document(c)));
    SegmentDotFree(l.sign(pair, SigningInput(l, h, c)));
    Text.SplitJoined(Segment(l, HeaderMembers(h)), Segment(l, Document(c)), Encode(l.sign(pair, SigningInput(l, h, c))));
  }

  /** Splitting a signed token returns exactly what went into it. */
  lemma SplitSigned(l: Library, a: Alg, kid: string, pair: KeyPair, c: Claims)
    requires JsonRoundTrips(l) && Sound(c)
    ensures var h := Header(AlgName(a), "JWT", kid);
            var input := SigningInput(l, h, c);
            SplitToken(l, SignToken(l, a, kid, pair, c)) == Some(Parsed(h, c, input, l.sign(pair, input)))
  {
    var h := Header(AlgName(a), "JWT", kid);
    TokenParts(l, a, kid, pair, c);
    HeaderSegment(l, h);
    ClaimsSegment(l, c);
    RoundTrip(l.sign(pair, SigningInput(l, h, c)));
  }

  /** `PeekKid` returns the signer's key id and algorithm. */
  lemma PeekSigned(l: Library, a: Alg, kid: string, pair: KeyPair, c: Claims)
    requires JsonRoundTrips(l)
    ensures PeekKid(l, SignToken(l, a, kid, pair, c)) == Some(Header(AlgName(a), "JWT", kid))
  {
    TokenParts(l, a, kid, pair, c);
    Text.UpToDotIsFirst(SignToken(l, a, kid, pair, c));
    HeaderSegment(l, Header(AlgName(a), "JWT", kid));
  }

  /**
   Which verifier accepts a signed token, and when: the one for the same algorithm whose key
   signed this very message, as long as the claims are live; and it returns the claims signed.
   */
  lemma VerifySigned(l: Library, signed: Signed, a: Alg, kid: string, pair: KeyPair, c: Claims,
                     a': Alg, pair': KeyPair, now: Time)
    requires JsonRoundTrips(l) && Sound(c)
    ensures var input := SigningInput(l, Header(AlgName(a), "JWT", kid), c);
            Verify(l, signed, a', pair', SignToken(l, a, kid, pair, c), now)
            == if a == a' && Accepts(l, signed, pair', input, l.sign(pair, input)) && Live(c, now) then Some(c) else None
  {
    SplitSigned(l, a, kid, pair, c);
    AlgNameInjective(a, a');
  }

  /** The signing input determines the header and the claims. */
  lemma SigningInputInjective(l: Library, h: Header, c: Claims, h': Header, c': Claims)
    requires JsonRoundTrips(l) && Sound(c) && Sound(c') && SigningInput(l, h, c) == SigningInput(l, h', c')
    ensures h == h' && c == c'
  {
    SegmentDotFree(l.write(HeaderMembers(h)));
    SegmentDotFree(l.write(HeaderMembers(h')));
    Text.JoinInjective(Segment(l, HeaderMembers(h)), Segment(l, Document(c)),
                       Segment(l, HeaderMembers(h')), Segment(l, Document(c')));
    HeaderSegment(l, h);
    HeaderSegment(l, h');
    ClaimsSegment(l, c);
    ClaimsSegment(l, c');
  }

  /** Whatever token is accepted, its signed part is its first two segments and they name the claims returned. */
  lemma AcceptedMessage(l: Library, signed: Signed, a: Alg, pair: KeyPair, token: string, now: Time,
                        h: Header, c: Claims)
    requires JsonRoundTrips(l) && Sound(c)
    requires Verify(l, signed, a, pair, token, now).Some?
    requires SplitToken(l, token).value.input == SigningInput(l, h, c)
    ensures SplitToken(l, token).value.header == h && Verify(l, signed, a, pair, token, now) == Some(c)
  {
    var parts := Text.Split(token);
    Text.SplitJoins(token);
    SegmentDotFree(l.write(HeaderMembers(h)));
    Text.JoinInjective(parts[0], parts[1], Segment(l, HeaderMembers(h)), Segment(l, Document(c)));
    HeaderSegment(l, h);
    ClaimsSegment(l, c);
  }

  /** The header object as it is written. */
  lemma HeaderWritten(l: Library, a: Alg, kid: string, pair: KeyPair, c: Claims)
    ensures Text.Split(SignToken(l, a, kid, pair, c))[0]
            == Encode(l.write([("alg", Str(if a.RS256? then "RS256" else "EdDSA")), ("typ", Str("JWT")), ("kid", Str(kid))]))
  {
    TokenParts(l, a, kid, pair, c);
    AlgNames();
  }

  /**
   Exactly which strings verify: three dot-free segments, a header that names the algorithm, claims that
   parse, and a third segment whose bytes are a signature, made and valid, over the first two.
   */
  lemma VerifyExactly(l: Library, signed: Signed, a: Alg, pair: KeyPair, token: string, now: Time, c: Claims)
    ensures Verify(l, signed, a, pair, token, now) == Some(c) <==>
      exists x, y, z :: Segments(token, x, y, z) && Genuine(l, signed, a, pair, x, y, z) && ClaimsOf(l, y) == Some(c) && Live(c, now)
  {
    var parts := Text.Split(token);
    Text.SplitJoins(token);
    if |parts| == 3 {
      ThreeJoined(parts);
      assert Segments(token, parts[0], parts[1], parts[2]);
    }
    forall x, y, z | Segments(token, x, y, z) ensures parts == [x, y, z] {
      Text.SplitJoined(x, y, z);
    }
    hide Live, HeaderOf, ClaimsOf, Decode, Text.Split, Text.Join, Text.Without;
  }

  lemma ThreeJoined(parts: seq<string>)
    requires |parts| == 3
    ensures Text.Join(parts) == parts[0] + "." + parts[1] + "." + parts[2]
  {
    assert Text.Join(parts[1..]) == parts[1] + "." + Text.Join(parts[1..][1..]);
    assert Text.Join(parts[1..][1..]) == parts[2];
  }

  predicate Segments(token: string, x: string, y: string, z: string) {
    token == x + "." + y + "." + z && Text.Without(x, '.') && Text.Without(y, '.') && Text.Without(z, '.')
  }

  predicate Genuine(l: Library, signed: Signed, a: Alg, pair: KeyPair, x: string, y: string, z: string) {
    && HeaderOf(l, x).Some? && HeaderOf(l, x).value.alg == AlgName(a)
    && (pair, x + "." + y) in signed && Decode(z).Some? && l.matches(pair, x + "." + y, Decode(z).value)
  }
}
