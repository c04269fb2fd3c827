/**
 Base64url against the tables and the arithmetic of RFC 4648, section 5: each character is the table's
 symbol for a digit, and the digits spell the number that the bytes spell, shifted by the unused bits.
 */
module Alphabet {
  import opened Base64Url
  import opened Radix

  const CAPITALS: string := "ABCDEFGHIJKLMNOPQRSTUVWXYZ"
  const SMALL: string := "abcdefghijklmnopqrstuvwxyz"
  const FIGURES: string := "0123456789"
  const TABLE: string := CAPITALS + SMALL + FIGURES + "-_"

  // ---- the table ----

  lemma LetterAt(x: nat)
    requires x < 26
    ensures |CAPITALS| == |SMALL| == 26
    ensures CAPITALS[x] == Symbol(x) == StdSymbol(x) && SMALL[x] == Symbol(26 + x) == StdSymbol(26 + x)
  {
    match x {
      case 0 => case 1 => case 2 => case 3 => case 4 => case 5 => case 6 => case 7 => case 8 => case 9 => case 10 => case 11 => case 12 =>
      case 13 => case 14 => case 15 => case 16 => case 17 => case 18 => case 19 => case 20 => case 21 => case 22 => case 23 => case 24 => case 25 =>
    }
  }

  lemma FigureAt(x: nat)
    requires x < 10
    ensures |FIGURES| == 10 && FIGURES[x] == Symbol(52 + x) == StdSymbol(52 + x)
  {
    match x {
      case 0 => case 1 => case 2 => case 3 => case 4 => case 5 => case 6 => case 7 => case 8 => case 9 =>
    }
  }

  /** Both tables, the page's as well. */
  lemma SymbolTable(x: Sextet)
    ensures |TABLE| == 64 && Symbol(x) == TABLE[x]
    ensures StdSymbol(x) == (CAPITALS + SMALL + FIGURES + "+/")[x]
  {
    hide CAPITALS, SMALL, FIGURES;
    LetterAt(0);
    FigureAt(0);
    if x < 26 { LetterAt(x); } else if x < 52 { LetterAt(x - 26); } else if x < 62 { FigureAt(x - 52); }
  }

  // ---- the number ----

  /** Two to the number of bits the last character leaves unused. */
  function Shift(bytes: nat): int {
    if bytes % 3 == 1 then 16 else if bytes % 3 == 2 then 4 else 1
  }

  function SymbolsFor(bytes: nat): nat {
    (4 * bytes + 2) / 3
  }

  lemma PowerUp(base: int, n: nat)
    ensures Power(base, n + 3) == base * (base * (base * Power(base, n)))
    ensures Power(base, n + 4) == base * (base * (base * (base * Power(base, n))))
  {
    assert Power(base, n + 1) == base * Power(base, n);
    assert Power(base, n + 2) == base * Power(base, n + 1);
    assert Power(base, n + 3) == base * Power(base, n + 2);
  }

  /** Four symbols hold what three bytes hold. */
  lemma SameSize(p: int, q: int, shift: int)
    requires p == q * shift
    ensures 64 * (64 * (64 * (64 * p))) == 256 * (256 * (256 * q)) * shift
  {
  }

  lemma {:induction false} PowersMeet(n: nat)
    ensures Power(64, SymbolsFor(n)) == Power(256, n) * Shift(n)
  {
    if n < 3 {
      assert Power(64, 1) == 64 && Power(64, 2) == 64 * Power(64, 1) && Power(64, 3) == 64 * Power(64, 2);
      assert Power(256, 1) == 256 && Power(256, 2) == 256 * Power(256, 1);
    } else {
      hide Power;
      PowersMeet(n - 3);
      assert SymbolsFor(n) == SymbolsFor(n - 3) + 4 && Shift(n) == Shift(n - 3);
      PowerUp(64, SymbolsFor(n - 3));
      PowerUp(256, n - 3);
      SameSize(Power(64, SymbolsFor(n - 3)), Power(256, n - 3), Shift(n));
    }
  }

  lemma OneNumber(x: Byte)
    ensures Number(64, Sextets([x])) == 16 * x
  {
    assert Sextets([x]) == [S0(x), S1(x, 0)];
    NumberOfPair(64, S0(x), S1(x, 0));
  }

  lemma FourNumber(x: Byte, y: Byte, z: Byte)
    ensures Number(64, Four(x, y, z)) == Number(256, [x, y, z])
  {
    hide Number;
    NumberOfFour(64, S0(x), S1(x, y), S2(y, z), S3(z));
    NumberOfFour(256, x, y, z, 0);
  }

  lemma ThreeNumber(p: Sextet, q: Sextet, r: Sextet, t: Sextet)
    ensures Number(256, Three(p, q, r, t)) == Number(64, [p, q, r, t])
  {
    hide Number;
    NumberOfFour(64, p, q, r, t);
    NumberOfFour(256, O0(p, q), O1(q, r), O2(r, t), 0);
  }

  lemma SextetsOfThree(b: seq<Byte>)
    requires |b| >= 3
    ensures Sextets(b) == Four(b[0], b[1], b[2]) + Sextets(b[3..])
  {
    hide Four, S0, S1, S2, S3;
  }

  lemma OctetsOfFour(x: seq<Sextet>)
    requires |x| >= 4
    ensures Octets(x) == Three(x[0], x[1], x[2], x[3]) + Octets(x[4..])
  {
    hide Three, O0, O1, O2;
  }

  lemma TwoNumber(x: Byte, y: Byte)
    ensures Number(64, Sextets([x, y])) == 4 * (256 * x + y)
  {
    assert Sextets([x, y]) == [S0(x), S1(x, y), S2(y, 0)];
    hide Number, Sextets;
    NumberOfFour(64, S0(x), S1(x, y), S2(y, 0), 0);
    TwoArithmetic(x, y);
  }

  lemma TwoArithmetic(x: Byte, y: Byte)
    ensures (S0(x) * 64 + S1(x, y)) * 64 + S2(y, 0) == 4 * (256 * x + y)
  {
  }

  /** A number, shifted, and the same number unshifted. */
  lemma Shifted(a: int, p: int, r: int, shift: int)
    ensures a * (p * shift) + r * shift == (a * p + r) * shift
  {
  }

  lemma Unshifted(a: int, p: int, r: int, shift: int)
    requires shift in {1, 4, 16}
    ensures (a * (p * shift) + r) / shift == a * p + r / shift
  {
    assert a * (p * shift) == (a * p) * shift;
  }

  lemma {:induction false} SextetsNumber(b: seq<Byte>)
    ensures Number(64, Sextets(b)) == Number(256, b) * Shift(|b|)
    decreases |b|
  {
    if |b| == 0 {
    } else if |b| == 1 {
      assert b == [b[0]];
      OneNumber(b[0]);
      NumberOfPair(256, b[0], 0);
      hide Number, Sextets;
    } else if |b| == 2 {
      assert b == [b[0], b[1]];
      TwoNumber(b[0], b[1]);
      NumberOfPair(256, b[0], b[1]);
      hide Number, Sextets;
    } else {
      hide Number, Power, Sextets, Four, Shift;
      var rest := b[3..];
      assert b == [b[0], b[1], b[2]] + rest;
      SextetsOfThree(b);
      SextetsNumber(rest);
      SextetsSize(rest);
      FourNumber(b[0], b[1], b[2]);
      PowersMeet(|rest|);
      NumberOfConcat(64, Four(b[0], b[1], b[2]), Sextets(rest));
      NumberOfConcat(256, [b[0], b[1], b[2]], rest);
      SameShift(|rest|);
      Shifted(Number(256, [b[0], b[1], b[2]]), Power(256, |rest|), Number(256, rest), Shift(|rest|));
    }
  }

  lemma SextetsSize(b: seq<Byte>)
    ensures |Sextets(b)| == SymbolsFor(|b|)
  {
    SextetsLength(b);
  }

  lemma SameShift(n: nat)
    ensures Shift(n + 3) == Shift(n) && Shift(n) in {1, 4, 16}
  {
  }

  /**
   What an encoding is, without the encoder's own steps: each character is the table's symbol for a digit,
   and the digits, read as one number, are the number the bytes spell, shifted by the unused bits.
   */
  lemma EncodeSpellsNumber(b: seq<Byte>) returns (digits: seq<int>)
    ensures |Encode(b)| == SymbolsFor(|b|) == |digits|
    ensures forall i :: 0 <= i < |digits| ==> 0 <= digits[i] < |TABLE| && Encode(b)[i] == TABLE[digits[i]]
    ensures Number(64, digits) == Number(256, b) * Shift(|b|)
  {
    var xs := Sextets(b);
    digits := xs;
    SextetsLength(b);
    SextetsNumber(b);
    forall i | 0 <= i < |xs| ensures 0 <= digits[i] < |TABLE| && Encode(b)[i] == TABLE[digits[i]] {
      SymbolTable(xs[i]);
      hide TABLE;
    }
  }

  // ---- decoding ----

  lemma {:induction false} OctetsNumber(x: seq<Sextet>)
    requires Whole(x)
    ensures |x| == SymbolsFor(|Octets(x)|)
    ensures Number(256, Octets(x)) == Number(64, x) / Shift(|Octets(x)|)
    decreases |x|
  {
    if |x| < 4 {
      OctetsNumberTail(x);
    } else {
      hide Number, Power, Octets, Three, Shift;
      var rest := x[4..];
      assert x == [x[0], x[1], x[2], x[3]] + rest;
      OctetsOfFour(x);
      OctetsNumber(rest);
      ThreeNumber(x[0], x[1], x[2], x[3]);
      PowersMeet(|Octets(rest)|);
      NumberOfConcat(64, [x[0], x[1], x[2], x[3]], rest);
      NumberOfConcat(256, Three(x[0], x[1], x[2], x[3]), Octets(rest));
      assert |Three(x[0], x[1], x[2], x[3])| == 3 by { ThreeLong(x[0], x[1], x[2], x[3]); }
      SameShift(|Octets(rest)|);
      Unshifted(Number(64, [x[0], x[1], x[2], x[3]]), Power(256, |Octets(rest)|), Number(64, rest), Shift(|Octets(rest)|));
    }
  }

  lemma ThreeLong(p: Sextet, q: Sextet, r: Sextet, t: Sextet)
    ensures |Three(p, q, r, t)| == 3
  {
  }

  lemma OctetsNumberTail(x: seq<Sextet>)
    requires |x| < 4 && |x| != 1
    ensures |x| == SymbolsFor(|Octets(x)|)
    ensures Number(256, Octets(x)) == Number(64, x) / Shift(|Octets(x)|)
  {
    if |x| == 2 {
      assert x == [x[0], x[1]];
      NumberOfPair(64, x[0], x[1]);
      NumberOfPair(256, O0(x[0], x[1]), 0);
    } else if |x| == 3 {
      assert x == [x[0], x[1], x[2]];
      NumberOfFour(64, x[0], x[1], x[2], 0);
      NumberOfPair(256, O0(x[0], x[1]), O1(x[1], x[2]));
    }
  }

  /** Decoding takes exactly the table's characters, not one too many, and drops the unused bits. */
  lemma DecodeReadsNumber(s: string) returns (digits: seq<int>)
    requires forall i :: 0 <= i < |s| ==> s[i] != '\n' && s[i] != '\r'
    ensures Decode(s).Some? <==> (forall i :: 0 <= i < |s| ==> s[i] in TABLE) && |s| % 4 != 1
    ensures Decode(s).Some? ==>
      && |digits| == |s| == SymbolsFor(|Decode(s).value|)
      && (forall i :: 0 <= i < |s| ==> 0 <= digits[i] < |TABLE| && s[i] == TABLE[digits[i]])
      && Number(256, Decode(s).value) == Number(64, digits) / Shift(|Decode(s).value|)
  {
    SkipBounds(s);
    forall i | 0 <= i < |s| ensures InAlphabet(s[i]) <==> s[i] in TABLE { InTable(s[i]); }
    digits := [];
    if Spelled(s) {
      WholeLength(Read(s));
      digits := Read(s);
      if Whole(Read(s)) { OctetsNumber(Read(s)); }
      forall i | 0 <= i < |s| ensures 0 <= digits[i] < |TABLE| && s[i] == TABLE[digits[i]] {
        IndexSymbol(s[i]);
        SymbolTable(Index(s[i]));
        hide TABLE;
      }
    }
    hide TABLE, Octets, Number;
  }

  lemma InTable(c: char)
    ensures InAlphabet(c) <==> c in TABLE
  {
    hide TABLE;
    if InAlphabet(c) {
      IndexSymbol(c);
      SymbolTable(Index(c));
    }
    if i :| 0 <= i < |TABLE| && TABLE[i] == c {
      SymbolTable(0);
      SymbolTable(i);
      SymbolIndex(i);
    }
  }

  lemma {:induction false} WholeLength(x: seq<Sextet>)
    ensures Whole(x) <==> |x| % 4 != 1
    decreases |x|
  {
    if |x| >= 4 {
      WholeLength(x[4..]);
    }
  }

  /** Line breaks anywhere change nothing. */
  lemma {:induction false} BreaksIgnored(a: string, c: char, b: string)
    requires c == '\n' || c == '\r'
    ensures SkipLineBreaks(a + [c] + b) == SkipLineBreaks(a + b) && Decode(a + [c] + b) == Decode(a + b)
    decreases |a|
  {
    if a == "" {
      assert a + [c] + b == [c] + b && a + b == b;
      assert ([c] + b)[1..] == b;
    } else {
      assert (a + [c] + b)[1..] == a[1..] + [c] + b && (a + b)[1..] == a[1..] + b;
      BreaksIgnored(a[1..], c, b);
    }
  }
}
