/** The string routines the server leans on: splitting at dots, decimal printing, splitting at white space. */
module Text {
  import Radix

  // ---- strings.Split(s, ".") ----

  predicate Without(s: string, c: char) {
    forall i :: 0 <= i < |s| ==> s[i] != c
  }

  function CutAt(s: string, c: char): (i: nat)
    ensures i <= |s| && Without(s[..i], c) && (i < |s| ==> s[i] == c)
  {
    if s == "" || s[0] == c then 0
    else
      var i := 1 + CutAt(s[1..], c);
      assert s[..i] == [s[0]] + s[1..][..i - 1];
      i
  }

  function Split(s: string): (parts: seq<string>)
    ensures parts != []
    decreases |s|
  {
    var i := CutAt(s, '.');
    if i == |s| then [s] else [s[..i]] + Split(s[i + 1..])
  }

  /** `strings.SplitN(s, ".", 2)[0]`. */
  function UpToDot(s: string): string {
    s[..CutAt(s, '.')]
  }

  lemma UpToDotIsFirst(s: string)
    ensures UpToDot(s) == Split(s)[0]
  {
  }

  lemma CutAtFirst(a: string, c: char, rest: string)
    requires Without(a, c)
    ensures CutAt(a + [c] + rest, c) == |a|
    ensures (a + [c] + rest)[|a| + 1..] == rest
  {
    var s := a + [c] + rest;
    var i := CutAt(s, c);
    assert forall k :: 0 <= k < |a| ==> s[k] == a[k];
    assert forall k :: 0 <= k < i ==> s[k] == s[..i][k];
    assert s[|a|] == c && s[|a| + 1..] == rest;
  }

  lemma SplitStep(a: string, rest: string)
    requires Without(a, '.')
    ensures Split(a + "." + rest) == [a] + Split(rest)
  {
    CutAtFirst(a, '.', rest);
    assert (a + "." + rest)[..|a|] == a;
  }

  lemma SplitDotFree(s: string)
    requires Without(s, '.')
    ensures Split(s) == [s]
  {
    var i := CutAt(s, '.');
    assert i == |s|;
  }

  /** Three dot-free segments joined by dots split back into exactly those three. */
  lemma SplitJoined(a: string, b: string, c: string)
    requires Without(a, '.') && Without(b, '.') && Without(c, '.')
    ensures Split(a + "." + b + "." + c) == [a, b, c]
  {
    hide Split, Without;
    assert a + "." + b + "." + c == a + "." + (b + "." + c);
    SplitStep(a, b + "." + c);
    SplitStep(b, c);
    SplitDotFree(c);
  }

  /** A dot-free prefix fixes where the joined text splits, so two segments can be told apart. */
  lemma JoinInjective(a: string, b: string, a': string, b': string)
    requires Without(a, '.') && Without(a', '.') && a + "." + b == a' + "." + b'
    ensures a == a' && b == b'
  {
    CutAtFirst(a, '.', b);
    CutAtFirst(a', '.', b');
    assert (a + "." + b)[..|a|] == a && (a' + "." + b')[..|a'|] == a';
  }

  function Join(parts: seq<string>): string {
    if parts == [] then "" else if |parts| == 1 then parts[0] else parts[0] + "." + Join(parts[1..])
  }

  /** The pieces joined again are the text, and no piece holds a dot. */
  lemma {:induction false} SplitJoins(s: string)
    ensures Join(Split(s)) == s && forall i :: 0 <= i < |Split(s)| ==> Without(Split(s)[i], '.')
    decreases |s|
  {
    var i := CutAt(s, '.');
    if i < |s| {
      var rest := s[i + 1..];
      SplitJoins(rest);
      assert Split(s) == [s[..i]] + Split(rest);
      assert Split(s)[1..] == Split(rest);
      assert s == s[..i] + "." + rest;
    }
  }

  // ---- fmt's %d ----

  function Digit(d: int): char
    requires 0 <= d < 10
  {
    (d + 48) as char
  }

  function Digits(n: nat): (s: string)
    ensures s != "" && Without(s, '-')
  {
    if n < 10 then [Digit(n)] else Digits(n / 10) + [Digit(n % 10)]
  }

  function Decimal(n: int): string {
    if n < 0 then "-" + Digits(-n) else Digits(n)
  }

  lemma {:induction false} DigitsInjective(m: nat, n: nat)
    requires Digits(m) == Digits(n)
    ensures m == n
  {
    var s := Digits(m);
    assert s[|s| - 1] == Digit(m % 10) && s[|s| - 1] == Digit(n % 10);
    if m >= 10 && n >= 10 {
      assert s[..|s| - 1] == Digits(m / 10) && s[..|s| - 1] == Digits(n / 10);
      DigitsInjective(m / 10, n / 10);
    }
  }

  const FIGURES: string := "0123456789"

  lemma FigureAt(d: int)
    requires 0 <= d < 10
    ensures |FIGURES| == 10 && FIGURES[d] == Digit(d)
  {
    match d {
      case 0 => case 1 => case 2 => case 3 => case 4 => case 5 => case 6 => case 7 => case 8 => case 9 =>
    }
  }

  /** The digits printed are figures that read back as the number, without a leading zero. */
  lemma {:induction false} DigitsRead(n: nat) returns (digits: seq<int>)
    ensures |digits| == |Digits(n)|
    ensures forall i :: 0 <= i < |digits| ==> 0 <= digits[i] < |FIGURES| && Digits(n)[i] == FIGURES[digits[i]]
    ensures Radix.Number(10, digits) == n && (digits[0] == 0 ==> n == 0)
  {
    FigureAt(n % 10);
    hide FIGURES;
    if n < 10 {
      digits := [n];
      assert digits[..0] == [];
    } else {
      var front := DigitsRead(n / 10);
      digits := front + [n % 10];
      assert digits[..|digits| - 1] == front;
    }
  }

  lemma DecimalSign(n: int)
    ensures n < 0 <==> Decimal(n)[0] == '-'
  {
  }

  lemma DecimalInjective(m: int, n: int)
    requires Decimal(m) == Decimal(n)
    ensures m == n
  {
    DecimalSign(m);
    DecimalSign(n);
    if m < 0 {
      assert Decimal(m)[1..] == Digits(-m) && Decimal(n)[1..] == Digits(-n);
      DigitsInjective(-m, -n);
    } else {
      DigitsInjective(m, n);
    }
  }

  /** What follows the last dash is fixed by the whole text. */
  lemma LastDash(a: string, d: string, b: string, e: string)
    requires Without(d, '-') && Without(e, '-') && a + "-" + d == b + "-" + e
    ensures d == e
  {
    var s := a + "-" + d;
    assert s[|a|] == '-' && (b + "-" + e)[|b|] == '-';
    assert forall k :: |a| < k < |s| ==> s[k] == d[k - |a| - 1];
    assert forall k :: |b| < k < |s| ==> s[k] == e[k - |b| - 1];
    assert s[|a| + 1..] == d && (b + "-" + e)[|b| + 1..] == e;
  }

  // ---- strings.Fields ----

  /** `unicode.IsSpace`: the Unicode property White Space. */
  predicate IsSpace(c: char) {
    var n := c as int;
    || 0x09 <= n <= 0x0D || n == 0x20 || n == 0x85 || n == 0xA0 || n == 0x1680
    || 0x2000 <= n <= 0x200A || n == 0x2028 || n == 0x2029 || n == 0x202F || n == 0x205F || n == 0x3000
  }

  /** The 25 characters, one by one. */
  const WHITE: string :=
    "\t\n\U{0B}\U{0C}\r \U{85}\U{A0}\U{1680}\U{2000}\U{2001}\U{2002}\U{2003}" +
    "\U{2004}\U{2005}\U{2006}\U{2007}\U{2008}\U{2009}\U{200A}\U{2028}\U{2029}\U{202F}\U{205F}\U{3000}"

  lemma SpacesListed(c: char)
    ensures IsSpace(c) <==> c in WHITE
  {
  }

  predicate NoSpace(s: string) {
    forall i :: 0 <= i < |s| ==> !IsSpace(s[i])
  }

  function WordEnd(s: string): (i: nat)
    ensures i <= |s| && NoSpace(s[..i]) && (i < |s| ==> IsSpace(s[i]))
  {
    if s == "" || IsSpace(s[0]) then 0
    else
      var i := 1 + WordEnd(s[1..]);
      assert s[..i] == [s[0]] + s[1..][..i - 1];
      i
  }

  function Fields(s: string): seq<string>
    decreases |s|
  {
    if s == "" then []
    else if IsSpace(s[0]) then Fields(s[1..])
    else [s[..WordEnd(s)]] + Fields(s[WordEnd(s)..])
  }

  /** `w` stands in `s` from `i` on, with white space or an end of the text on either side. */
  predicate StandsAt(s: string, w: string, i: nat) {
    && i + |w| <= |s| && s[i..i + |w|] == w
    && (i == 0 || IsSpace(s[i - 1]))
    && (i + |w| == |s| || IsSpace(s[i + |w|]))
  }

  lemma {:induction false} FieldStands(s: string, w: string)
    requires w in Fields(s)
    ensures exists i: nat :: StandsAt(s, w, i)
    decreases |s|
  {
    if IsSpace(s[0]) {
      FieldStands(s[1..], w);
      var i: nat :| StandsAt(s[1..], w, i);
      StandsLater(s, 1, w, i);
    } else {
      var e := WordEnd(s);
      if w == s[..e] {
        assert StandsAt(s, w, 0);
      } else {
        FieldStands(s[e..], w);
        var i: nat :| StandsAt(s[e..], w, i);
        FieldsNoSpace(s[e..], w);
        assert e < |s| && w[0] == s[e..][i..i + |w|][0];
        StandsLater(s, e, w, i);
      }
    }
  }

  lemma StandsLater(s: string, n: nat, w: string, i: nat)
    requires n <= |s| && StandsAt(s[n..], w, i) && (i > 0 || (n > 0 && IsSpace(s[n - 1])))
    ensures StandsAt(s, w, n + i)
  {
    assert s[n..][i..i + |w|] == s[n + i..n + i + |w|];
  }

  lemma {:induction false} FieldsNoSpace(s: string, w: string)
    requires w in Fields(s)
    ensures w != "" && NoSpace(w)
    decreases |s|
  {
    if IsSpace(s[0]) {
      FieldsNoSpace(s[1..], w);
    } else if w != s[..WordEnd(s)] {
      FieldsNoSpace(s[WordEnd(s)..], w);
    }
  }

  lemma {:induction false} StandingIsField(s: string, w: string, i: nat)
    requires StandsAt(s, w, i) && w != "" && NoSpace(w)
    ensures w in Fields(s)
    decreases |s|
  {
    assert s[i] == s[i..i + |w|][0];
    if IsSpace(s[0]) {
      StandsAgain(s, 1, w, i);
      StandingIsField(s[1..], w, i - 1);
    } else {
      var e := WordEnd(s);
      if i == 0 {
        WordEndAt(s, |w|);
      } else {
        assert forall k :: 0 <= k < e ==> s[k] == s[..e][k];
        StandsAgain(s, e, w, i);
        StandingIsField(s[e..], w, i - e);
      }
    }
  }

  lemma WordEndAt(s: string, n: nat)
    requires n <= |s| && NoSpace(s[..n]) && (n == |s| || IsSpace(s[n]))
    ensures WordEnd(s) == n
  {
    var e := WordEnd(s);
    assert forall k :: 0 <= k < n ==> s[k] == s[..n][k];
    assert forall k :: 0 <= k < e ==> s[k] == s[..e][k];
  }

  lemma StandsAgain(s: string, n: nat, w: string, i: nat)
    requires n <= i && n <= |s| && StandsAt(s, w, i)
    ensures StandsAt(s[n..], w, i - n)
  {
    assert s[n..][i - n..i - n + |w|] == s[i..i + |w|];
  }

  /** A word is among the fields exactly when it stands in the text between white space or its ends. */
  lemma FieldsAreStandingWords(s: string, w: string)
    requires w != "" && NoSpace(w)
    ensures w in Fields(s) <==> exists i: nat :: StandsAt(s, w, i)
  {
    if w in Fields(s) {
      FieldStands(s, w);
    }
    forall i: nat | StandsAt(s, w, i) ensures w in Fields(s) {
      StandingIsField(s, w, i);
    }
  }

  function Spaced(words: seq<string>): string {
    if words == [] then "" else if |words| == 1 then words[0] else words[0] + " " + Spaced(words[1..])
  }

  lemma FirstWord(w: string, rest: string)
    requires w != "" && NoSpace(w) && (rest == "" || IsSpace(rest[0]))
    ensures Fields(w + rest) == [w] + Fields(rest)
  {
    var s := w + rest;
    assert s[..|w|] == w && s[|w|..] == rest && s[0] == w[0];
    hide IsSpace;
    WordEndAt(s, |w|);
  }

  lemma SpaceDropped(rest: string)
    ensures Fields(" " + rest) == Fields(rest)
  {
    SpacesListed(' ');
    assert (" " + rest)[1..] == rest;
  }

  lemma WordNoSpace(w: string)
    requires forall k :: 0 <= k < |w| ==> w[k] !in WHITE
    ensures NoSpace(w)
  {
    forall k | 0 <= k < |w| ensures !IsSpace(w[k]) { SpacesListed(w[k]); }
    hide WHITE;
  }

  /** Words parted by plain spaces are the fields, in order. */
  lemma {:induction false} FieldsOfSpaced(words: seq<string>)
    requires forall i :: 0 <= i < |words| ==> words[i] != "" && forall k :: 0 <= k < |words[i]| ==> words[i][k] !in WHITE
    ensures Fields(Spaced(words)) == words
    decreases |words|
  {
    hide WHITE, Fields, IsSpace, NoSpace;
    if words == [] {
      assert Fields("") == [] by { NoFields(); }
    } else {
      var w, rest := words[0], Spaced(words[1..]);
      WordNoSpace(w);
      FieldsOfSpaced(words[1..]);
      NoFields();
      if |words| == 1 {
        FirstWord(w, "");
        assert w + "" == w;
      } else {
        assert IsSpace(' ') by { PlainSpace(); }
        FirstWord(w, " " + rest);
        SpaceDropped(rest);
        assert w + " " + rest == w + (" " + rest);
      }
      assert words == [w] + words[1..];
    }
  }

  lemma NoFields()
    ensures Fields("") == []
  {
  }

  lemma PlainSpace()
    ensures IsSpace(' ')
  {
  }

  // ---- the order of strings ----

  /** `a` does not come after `b`, comparing code points from the left as comparing UTF-8 bytes does. */
  predicate Upto(a: string, b: string) {
    a == "" || (b != "" && (a[0] < b[0] || (a[0] == b[0] && Upto(a[1..], b[1..]))))
  }

  lemma {:induction false} UptoReflexive(a: string)
    ensures Upto(a, a)
  {
    if a != "" {
      UptoReflexive(a[1..]);
    }
  }

  lemma {:induction false} UptoAntisymmetric(a: string, b: string)
    requires Upto(a, b) && Upto(b, a)
    ensures a == b
  {
    if a != "" {
      UptoAntisymmetric(a[1..], b[1..]);
      assert a == [a[0]] + a[1..] && b == [b[0]] + b[1..];
    }
  }

  lemma {:induction false} UptoTransitive(a: string, b: string, c: string)
    requires Upto(a, b) && Upto(b, c)
    ensures Upto(a, c)
  {
    if a != "" && a[0] == b[0] == c[0] {
      UptoTransitive(a[1..], b[1..], c[1..]);
    }
  }

  lemma {:induction false} UptoTotal(a: string, b: string)
    ensures Upto(a, b) || Upto(b, a)
  {
    if a != "" && b != "" && a[0] == b[0] {
      UptoTotal(a[1..], b[1..]);
    }
  }

  predicate IsLeast(keys: set<string>, k: string) {
    k in keys && forall x :: x in keys ==> Upto(k, x)
  }

  lemma {:induction false} LeastExists(keys: set<string>) returns (k: string)
    requires keys != {}
    ensures IsLeast(keys, k)
    decreases keys
  {
    var some :| some in keys;
    k := some;
    UptoReflexive(k);
    if keys != {some} {
      assert keys == {some} + (keys - {some});
      k := LeastExists(keys - {some});
      UptoTotal(some, k);
      if Upto(some, k) {
        forall x | x in keys ensures Upto(some, x) {
          UptoReflexive(some);
          if x != some { UptoTransitive(some, k, x); }
        }
        k := some;
      }
    }
  }

  lemma LeastUnique(keys: set<string>)
    requires keys != {}
    ensures exists k :: IsLeast(keys, k)
    ensures forall k, l :: IsLeast(keys, k) && IsLeast(keys, l) ==> k == l
  {
    var least := LeastExists(keys);
    forall k, l | IsLeast(keys, k) && IsLeast(keys, l) ensures k == l {
      UptoAntisymmetric(k, l);
    }
  }

  function Least(keys: set<string>): (k: string)
    requires keys != {}
    ensures IsLeast(keys, k)
  {
    LeastUnique(keys);
    var k :| k in keys && IsLeast(keys, k);
    k
  }
}
