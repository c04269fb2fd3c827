/** Proof Key for Code Exchange with S256 (RFC 7636). */
module Pkce {
  import opened Base64Url
  import opened Primitives

  /** The unreserved characters of section 4.1 of RFC 7636. */
  predicate Unreserved(c: char) {
    'A' <= c <= 'Z' || 'a' <= c <= 'z' || '0' <= c <= '9' || c == '-' || c == '.' || c == '_' || c == '~'
  }

  predicate WellFormed(verifier: string) {
    43 <= |verifier| <= 128 && forall i :: 0 <= i < |verifier| ==> Unreserved(verifier[i])
  }

  predicate MethodAccepted(codeChallengeMethod: string) {
    codeChallengeMethod == "S256"
  }

  function Challenge(l: Library, verifier: string): string {
    Encode(l.sha(verifier))
  }

  predicate Verify(l: Library, verifier: string, storedChallenge: string) {
    WellFormed(verifier) && Challenge(l, verifier) == storedChallenge
  }

  const LETTERS: string := "ABCDEFGHIJKLMNOPQRSTUVWXYZ" + "abcdefghijklmnopqrstuvwxyz"
  const UNRESERVED: string := LETTERS + "0123456789" + "-._~"

  /** The verifier as section 4.1 of the RFC has it, and the challenge it makes as section 4.2 has it. */
  ghost predicate Fits(l: Library, verifier: string, challenge: string) {
    && 43 <= |verifier| <= 128 && (forall i :: 0 <= i < |verifier| ==> verifier[i] in UNRESERVED)
    && challenge == Encode(l.sha(verifier))
  }

  lemma VerifyExactly(l: Library, verifier: string, challenge: string)
    ensures Verify(l, verifier, challenge) <==> Fits(l, verifier, challenge)
    ensures forall m :: MethodAccepted(m) <==> m == "S256"
  {
    forall i | 0 <= i < |verifier| ensures Unreserved(verifier[i]) <==> verifier[i] in UNRESERVED {
      UnreservedListed(verifier[i]);
    }
    hide UNRESERVED, Unreserved;
  }

  lemma UnreservedListed(c: char)
    ensures Unreserved(c) <==> c in UNRESERVED
  {
    LetterListed(c);
    hide LETTERS;
  }

  lemma LetterListed(c: char)
    ensures ('A' <= c <= 'Z' || 'a' <= c <= 'z') <==> c in LETTERS
  {
  }

  /** The base64url text of random bytes is an acceptable verifier exactly for 32 to 96 bytes. */
  lemma EncodedVerifier(b: seq<Byte>)
    ensures WellFormed(Encode(b)) <==> 32 <= |b| <= 96
  {
    EncodeLength(b);
    EncodeAlphabet(b);
  }

  /** The demo page's challenge, made with its own encoder, verifies against the page's verifier. */
  lemma PageFlowVerifies(l: Library, random: seq<Byte>)
    requires 32 <= |random| <= 96
    ensures Verify(l, PageEncode(random), PageEncode(l.sha(PageEncode(random))))
  {
    PageEncodeIsEncode(random);
    PageEncodeIsEncode(l.sha(PageEncode(random)));
    EncodedVerifier(random);
  }

  /** A challenge fits at most one verifier, so a code cannot be redeemed with another one. */
  lemma ChallengeBinds(l: Library, v: string, v': string, challenge: string)
    requires HashInjective(l) && Verify(l, v, challenge) && Verify(l, v', challenge)
    ensures v == v'
  {
    EncodeInjective(l.sha(v), l.sha(v'));
  }
}
