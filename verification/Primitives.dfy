/**
 The foreign code the server calls, as parameters of the model: the byte-level JSON codec, SHA-256
 and the signature algorithms. `Faithful` states what the proofs take for granted about them.
 */
module Primitives {
  import opened Wrappers
  import opened Base64Url
  import opened JwtClaims

  /** A private key and its public half, told apart by a serial number. */
  datatype KeyPair = KeyPair(serial: nat)

  /** The signature algorithms; a verification is asked for a key, a message and signature bytes. */
  datatype Library = Library(
    write: Members -> seq<Byte>,
    read: seq<Byte> -> Option<Members>,
    sha: string -> seq<Byte>,
    sign: (KeyPair, string) -> seq<Byte>,
    matches: (KeyPair, string, seq<Byte>) -> bool)

  /** Every (key, message) pair that has been signed so far. */
  type Signed = set<(KeyPair, string)>

  ghost predicate JsonRoundTrips(l: Library) {
    forall ms: Members :: l.read(l.write(ms)) == Some(ms)
  }

  ghost predicate HashInjective(l: Library) {
    forall a: string, b: string :: l.sha(a) == l.sha(b) ==> a == b
  }

  ghost predicate SignaturesMatch(l: Library) {
    forall k: KeyPair, m: string :: l.matches(k, m, l.sign(k, m))
  }

  ghost predicate Faithful(l: Library) {
    JsonRoundTrips(l) && HashInjective(l) && SignaturesMatch(l)
  }

  /** Ideal signatures: accepted only for a pair that was signed, and the signer's own bytes always are. */
  predicate Accepts(l: Library, signed: Signed, k: KeyPair, msg: string, sig: seq<Byte>) {
    (k, msg) in signed && l.matches(k, msg, sig)
  }
}
