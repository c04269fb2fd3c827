/** Numbers written out in digits, most significant first. */
module Radix {

  function Number(base: int, digits: seq<int>): int {
    if digits == [] then 0 else Number(base, digits[..|digits| - 1]) * base + digits[|digits| - 1]
  }

  function Power(base: int, n: nat): int {
    if n == 0 then 1 else base * Power(base, n - 1)
  }

  lemma {:induction false} NumberOfConcat(base: int, a: seq<int>, b: seq<int>)
    ensures Number(base, a + b) == Number(base, a) * Power(base, |b|) + Number(base, b)
  {
    if b == [] {
      assert a + b == a;
    } else {
      var init, last := b[..|b| - 1], b[|b| - 1];
      assert (a + b)[..|a + b| - 1] == a + init && (a + b)[|a + b| - 1] == last;
      NumberOfConcat(base, a, init);
      assert Number(base, a) * Power(base, |b|) == Number(base, a) * Power(base, |init|) * base;
    }
  }

  lemma NumberOfPair(base: int, x: int, y: int)
    ensures Number(base, [x]) == x && Number(base, [x, y]) == x * base + y
  {
    assert [x][..0] == [] && [x, y][..1] == [x];
  }

  lemma NumberOfFour(base: int, p: int, q: int, r: int, t: int)
    ensures Number(base, [p, q, r]) == (p * base + q) * base + r
    ensures Number(base, [p, q, r, t]) == ((p * base + q) * base + r) * base + t
  {
    NumberOfPair(base, p, q);
    assert [p, q, r][..2] == [p, q] && [p, q, r, t][..3] == [p, q, r];
  }
}
