/** The minimal big-endian bytes of an RSA exponent, as a published key carries them (section 6.3.1.2 of RFC 7518). */
module BigEndian {
  import opened Base64Url

  function Value(b: seq<Byte>): nat {
    if b == [] then 0 else Value(b[..|b| - 1]) * 256 + b[|b| - 1]
  }

  function Weight(n: nat): nat {
    if n == 0 then 1 else 256 * Weight(n - 1)
  }

  /** No leading zero, except for the number zero itself. */
  predicate Minimal(b: seq<Byte>) {
    b == [0] || (b != [] && b[0] != 0)
  }

  lemma {:induction false} ValueOfPrepended(d: Byte, b: seq<Byte>)
    ensures Value([d] + b) == d * Weight(|b|) + Value(b)
  {
    var whole := [d] + b;
    if b != [] {
      assert whole[..|whole| - 1] == [d] + b[..|b| - 1];
      ValueOfPrepended(d, b[..|b| - 1]);
    }
  }

  /** `big64`: the bytes of a number, most significant first; none for a negative one. */
  method Big64(v: int) returns (out: seq<Byte>)
    ensures v >= 0 ==> Value(out) == v && Minimal(out)
    ensures v < 0 ==> out == []
  {
    if v == 0 {
      return [0];
    }
    out := [];
    var rest := v;
    while rest > 0
      invariant v < 0 ==> rest == v && out == []
      invariant v > 0 ==> rest >= 0 && v == rest * Weight(|out|) + Value(out)
      invariant v > 0 && rest == 0 ==> out != [] && out[0] != 0
    {
      ghost var before := out;
      var low := rest % 256;
      out := [low] + out;
      ValueOfPrepended(low, before);
      assert rest * Weight(|before|) == (rest / 256) * (256 * Weight(|before|)) + low * Weight(|before|) by {
        assert rest == (rest / 256) * 256 + low;
      }
      rest := rest / 256;
    }
  }

  lemma {:induction false} PositiveValue(b: seq<Byte>)
    requires b != [] && b[0] != 0
    ensures Value(b) > 0
  {
    if |b| > 1 {
      PositiveValue(b[..|b| - 1]);
    }
  }

  /** Two minimal encodings of the same number are the same bytes. */
  lemma {:induction false} MinimalUnique(a: seq<Byte>, b: seq<Byte>)
    requires Minimal(a) && Minimal(b) && Value(a) == Value(b)
    ensures a == b
  {
    var a', b' := a[..|a| - 1], b[..|b| - 1];
    assert a == a' + [a[|a| - 1]] && b == b' + [b[|b| - 1]];
    assert Value(a') == Value(b') && a[|a| - 1] == b[|b| - 1];
    if a' != [] && a[0] != 0 { PositiveValue(a'); }
    if b' != [] && b[0] != 0 { PositiveValue(b'); }
    if a' != [] && b' != [] {
      MinimalUnique(a', b');
    }
  }
}
