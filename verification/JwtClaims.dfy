/**
 The claim set of a JWT and how it is flattened into one JSON object and read back
 (`Claims.MarshalJSON` and `Claims.UnmarshalJSON`).

 A JSON object is kept above the byte level, as the list of its members in the order they are
 written: struct fields in declaration order, map entries in the order of their keys. Numbers that
 pass through Go's `interface{}` become float64 and are printed with the fewest digits that read
 back as the same float64.
 */
module JwtClaims {
  import opened Wrappers
  import Text

  // ---- JSON values ----

  /** A value as these documents hold them; the further values (booleans, objects, fractions, mixed arrays) are told apart by a number. */
  datatype Json = Str(text: string) | Num(n: int) | Strs(items: seq<string>) | Null | Other(serial: nat)

  type Object = map<string, Json>
  type Members = seq<(string, Json)>

  /** The members of a map as they are written: one per key, keys ascending. */
  function Sorted(m: Object): Members
    decreases m.Keys
  {
    if m == map[] then []
    else
      var k := Text.Least(m.Keys);
      assert k in m.Keys && k !in Remove(m, k).Keys;
      [(k, m[k])] + Sorted(Remove(m, k))
  }

  function Remove(m: Object, k: string): Object {
    map x | x in m && x != k :: m[x]
  }

  // ---- float64 ----

  const EXACT: int := 0x20_0000_0000_0000 // 2^53

  /** The distance between neighbouring float64 values around `n`. */
  function Ulp(n: nat): (u: int)
    ensures u >= 1
  {
    if n < EXACT then 1 else 2 * Ulp(n / 2)
  }

  /** Round to the nearest float64, ties to the even neighbour. */
  function RoundToFloat(n: nat): (f: int)
    ensures f >= 0
  {
    var u := Ulp(n);
    var r := n % u;
    if 2 * r < u || (2 * r == u && n / u % 2 == 0) then n - r else n - r + u
  }

  function ToFloat(n: int): int {
    if n < 0 then -RoundToFloat(-n) else RoundToFloat(n)
  }

  predicate Representable(n: int) {
    (if n < 0 then -n else n) % Ulp(if n < 0 then -n else n) == 0
  }

  /** float64 keeps exactly the representable integers, which include all up to 2^53. */
  lemma FloatExact(n: int)
    ensures ToFloat(n) == n <==> Representable(n)
    ensures -EXACT <= n <= EXACT ==> Representable(n)
  {
    var a: nat := if n < 0 then -n else n;
    if a == EXACT {
      assert Ulp(a) == 2 * Ulp(a / 2) && Ulp(a / 2) == 1;
    }
  }

  // ---- the shortest decimal ----

  function Power10(k: nat): nat
    ensures Power10(k) >= 1
  {
    if k == 0 then 1 else 10 * Power10(k - 1)
  }

  /** The multiple of `p` next to a float64 that reads back as it, the nearer one if both neighbours do. */
  function Rounded(m: nat, p: nat): (r: Option<int>)
    requires p >= 1
    ensures r.Some? ==> r.value >= 0
  {
    var down := m - m % p;
    var up := down + p;
    var (low, high) := (RoundToFloat(down) == m, RoundToFloat(up) == m);
    if low && high then
      Some(if m % p < up - m || (m % p == up - m && down / p % 2 == 0) then down else up)
    else if low then Some(down)
    else if high then Some(up)
    else None
  }

  /** The integer with the fewest significant digits that reads back as the float64, tried from `k` trailing zeros down. */
  function Shortest(m: nat, k: nat): (x: int)
    ensures x >= 0
  {
    match Rounded(m, Power10(k))
    case Some(x) => x
    case None => if k == 0 then m else Shortest(m, k - 1)
  }

  function ShortestOf(m: nat): (x: int)
    ensures x >= 0
  {
    Shortest(m, |Text.Digits(m)|)
  }

  /** A number that has been decoded into `interface{}` and printed again. */
  function Printed(n: int): int {
    if n < 0 then -ShortestOf(RoundToFloat(-n)) else ShortestOf(RoundToFloat(n))
  }

  predicate Int64(n: int) {
    -0x8000_0000_0000_0000 <= n < 0x8000_0000_0000_0000
  }

  /** A value decoded into `interface{}`: numbers become float64. */
  function Loosen(v: Json): Json {
    if v.Num? then Num(ToFloat(v.n)) else v
  }

  function Reprinted(v: Json): Json {
    if v.Num? then Num(Printed(v.n)) else v
  }

  // ---- the eight registered names ----

  datatype Name = Iss | Sub | Aud | Exp | Nbf | Iat | Jti | Scope

  function Key(n: Name): string {
    match n
    case Iss => "iss"
    case Sub => "sub"
    case Aud => "aud"
    case Exp => "exp"
    case Nbf => "nbf"
    case Iat => "iat"
    case Jti => "jti"
    case Scope => "scope"
  }

  function Recognise(k: string): (n: Option<Name>)
    ensures n.Some? ==> Key(n.value) == k
  {
    if k == "iss" then Some(Iss)
    else if k == "sub" then Some(Sub)
    else if k == "aud" then Some(Aud)
    else if k == "exp" then Some(Exp)
    else if k == "nbf" then Some(Nbf)
    else if k == "iat" then Some(Iat)
    else if k == "jti" then Some(Jti)
    else if k == "scope" then Some(Scope)
    else None
  }

  lemma RecogniseKey(n: Name)
    ensures Recognise(Key(n)) == Some(n)
  {
    assert "iss"[0] == 'i' && "sub"[0] == 's' && "aud"[0] == 'a' && "exp"[0] == 'e';
    assert "nbf"[0] == 'n' && "iat"[0] == 'i' && "jti"[0] == 'j' && "scope"[0] == 's';
    assert "iss"[1] == 's' && "iat"[1] == 'a' && |"sub"| == 3 && |"scope"| == 5;
  }

  /** `encoding/json` matches object keys to struct fields without regard to case. */
  function FoldChar(c: char): char {
    if 'A' <= c <= 'Z' then (c as int + 32) as char
    else if c == 0x17F as char then 's'
    else if c == 0x212A as char then 'k'
    else c
  }

  function Fold(k: string): string {
    seq(|k|, i requires 0 <= i < |k| => FoldChar(k[i]))
  }

  function RecogniseFold(k: string): Option<Name> {
    Recognise(Fold(k))
  }

  /** The spellings taken for `sub`. */
  lemma FoldsToSub(k: string)
    ensures RecogniseFold(k) == Some(Sub) <==>
      |k| == 3 && k[0] in {'s', 'S', '\U{17F}'} && k[1] in {'u', 'U'} && k[2] in {'b', 'B'}
  {
    RecogniseKey(Sub);
    assert RecogniseFold(k) == Some(Sub) <==> Fold(k) == "sub" by { hide FoldChar; }
    hide Recognise, Fold;
    FoldsByLetters(k);
  }

  lemma FoldsByLetters(k: string)
    ensures Fold(k) == "sub" <==> |k| == 3 && FoldChar(k[0]) == 's' && FoldChar(k[1]) == 'u' && FoldChar(k[2]) == 'b'
  {
    hide FoldChar;
    if |k| == 3 {
      assert Fold(k) == [FoldChar(k[0]), FoldChar(k[1]), FoldChar(k[2])];
    } else {
      assert |Fold(k)| != |"sub"|;
    }
  }

  lemma RecogniseFoldKey(n: Name)
    ensures RecogniseFold(Key(n)) == Some(n)
  {
    assert Fold(Key(n)) == Key(n);
    RecogniseKey(n);
  }

  // ---- claims ----

  datatype Claims = Claims(
    issuer: string, subject: string, audience: seq<string>,
    expiresAt: int, notBefore: int, issuedAt: int,
    jwtID: string, scope: string, extra: Object)

  function ValueOf(c: Claims, n: Name): Json {
    match n
    case Iss => Str(c.issuer)
    case Sub => Str(c.subject)
    case Aud => Strs(c.audience)
    case Exp => Num(c.expiresAt)
    case Nbf => Num(c.notBefore)
    case Iat => Num(c.issuedAt)
    case Jti => Str(c.jwtID)
    case Scope => Str(c.scope)
  }

  /** What `omitempty` drops. */
  predicate Empty(v: Json) {
    v == Str("") || v == Num(0) || v == Strs([])
  }

  predicate Present(c: Claims, k: string) {
    Recognise(k).Some? && !Empty(ValueOf(c, Recognise(k).value))
  }

  const REGISTERED: set<string> := {"iss", "sub", "aud", "exp", "nbf", "iat", "jti", "scope"}

  /** The struct fields on their own. */
  function Base(c: Claims): Object {
    map k | k in REGISTERED && Present(c, k) :: ValueOf(c, Recognise(k).value)
  }

  const FIELD_ORDER: seq<Name> := [Iss, Sub, Aud, Exp, Nbf, Iat, Jti, Scope]

  /** The struct fields as `encoding/json` writes them, in declaration order. */
  function FieldMembers(c: Claims, names: seq<Name>): Members {
    if names == [] then []
    else (if Empty(ValueOf(c, names[0])) then [] else [(Key(names[0]), ValueOf(c, names[0]))]) + FieldMembers(c, names[1..])
  }

  /** With extras, the map `MarshalJSON` fills: the fields after a detour through `interface{}`, then the extras. */
  function Flatten(c: Claims): Object {
    (map k | k in Base(c) :: Reprinted(Base(c)[k])) + c.extra
  }

  /** The object `MarshalJSON` writes. */
  function Document(c: Claims): Members {
    if c.extra == map[] then FieldMembers(c, FIELD_ORDER) else Sorted(Flatten(c))
  }

  method MarshalClaims(c: Claims) returns (ms: Members)
    ensures ms == Document(c)
  {
    if c.extra == map[] {
      return FieldMembers(c, FIELD_ORDER);
    }
    var m := map k | k in Base(c) :: Reprinted(Base(c)[k]);
    ghost var fields := m;
    var todo := c.extra.Keys;
    while todo != {}
      invariant todo <= c.extra.Keys
      invariant m.Keys == fields.Keys + (c.extra.Keys - todo)
      invariant forall k :: k in m ==> m[k] == if k in c.extra.Keys - todo then c.extra[k] else fields[k]
      decreases todo
    {
      var k :| k in todo;
      m := m[k := c.extra[k]];
      todo := todo - {k};
    }
    assert m == Flatten(c);
    ms := Sorted(m);
  }

  /** A value a field takes without an error; null always is one. */
  predicate Fits(n: Name, v: Json) {
    v.Null? ||
    match n
    case Aud => v.Strs?
    case Exp => v.Num? && Int64(v.n)
    case Nbf => v.Num? && Int64(v.n)
    case Iat => v.Num? && Int64(v.n)
    case _ => v.Str?
  }

  predicate AllFit(ms: Members) {
    forall i :: 0 <= i < |ms| && RecogniseFold(ms[i].0).Some? ==> Fits(RecogniseFold(ms[i].0).value, ms[i].1)
  }

  /** The member sets the field: its name matches, and it is not a null, which only empties a list. */
  predicate Sets(n: Name, member: (string, Json)) {
    RecogniseFold(member.0) == Some(n) && (member.1.Null? ==> n == Aud)
  }

  /** The value a struct field is left with: the last member that sets it. */
  function LastValue(ms: Members, n: Name): Option<Json> {
    if ms == [] then None
    else if Sets(n, ms[|ms| - 1]) then Some(ms[|ms| - 1].1)
    else LastValue(ms[..|ms| - 1], n)
  }

  function TextOf(v: Option<Json>): string {
    if v.Some? && v.value.Str? then v.value.text else ""
  }

  function IntOf(v: Option<Json>): int {
    if v.Some? && v.value.Num? then v.value.n else 0
  }

  function ListOf(v: Option<Json>): seq<string> {
    if v.Some? && v.value.Strs? then v.value.items else []
  }

  function AsMap(ms: Members): Object {
    if ms == [] then map[] else AsMap(ms[..|ms| - 1])[ms[|ms| - 1].0 := ms[|ms| - 1].1]
  }

  function Leftover(m: Object): Object {
    map k | k in m && k !in REGISTERED :: Loosen(m[k])
  }

  /** `UnmarshalJSON`: None when some member does not fit the field its name matches. */
  function Unflatten(ms: Members): Option<Claims> {
    if !AllFit(ms) then None
    else Some(Claims(
      TextOf(LastValue(ms, Iss)), TextOf(LastValue(ms, Sub)), ListOf(LastValue(ms, Aud)),
      IntOf(LastValue(ms, Exp)), IntOf(LastValue(ms, Nbf)), IntOf(LastValue(ms, Iat)),
      TextOf(LastValue(ms, Jti)), TextOf(LastValue(ms, Scope)), Leftover(AsMap(ms))))
  }

  /** The loop of `UnmarshalJSON` that keeps every member whose exact name is not registered. */
  method CollectExtra(m: Object) returns (extra: Object)
    ensures extra == Leftover(m)
  {
    extra := map[];
    var todo := m.Keys;
    while todo != {}
      invariant todo <= m.Keys
      invariant extra == map k | k in m && k !in todo && k !in REGISTERED :: Loosen(m[k])
      decreases todo
    {
      var k :| k in todo;
      todo := todo - {k};
      if k in REGISTERED {
        continue;
      }
      extra := extra[k := Loosen(m[k])];
    }
  }

  // ---- when the round trip holds ----

  predicate IntsInRange(c: Claims) {
    Int64(c.expiresAt) && Int64(c.notBefore) && Int64(c.issuedAt)
  }

  /** Extras come back: none is taken for a registered field, and numbers are float64 values. */
  predicate ExtrasReturn(c: Claims) {
    forall k :: k in c.extra ==> k !in REGISTERED && (c.extra[k].Num? ==> Representable(c.extra[k].n))
  }

  /** Among the members that set a field, the one whose key comes last. */
  predicate Prevails(m: Object, n: Name, k: string) {
    && k in m && Sets(n, (k, m[k]))
    && forall x :: x in m && Sets(n, (x, m[x])) ==> Text.Upto(x, k)
  }

  /** A null list is an empty one. */
  predicate Carries(v: Json, w: Json) {
    v == w || (v.Null? && w == Strs([]))
  }

  predicate FieldReturns(c: Claims, k: string)
    requires k in Flatten(c)
  {
    var n := RecogniseFold(k);
    n.Some? ==>
      && Fits(n.value, Flatten(c)[k])
      && (Prevails(Flatten(c), n.value, k) ==> Carries(Flatten(c)[k], ValueOf(c, n.value)))
  }

  /**
   Fields come back: whatever name a member goes by when case is ignored, it fits that field, and the
   last one in key order carries the field's value, which for a number is how it was printed.
   */
  predicate FieldsReturn(c: Claims) {
    forall k :: k in Flatten(c) ==> FieldReturns(c, k)
  }

  predicate Returns(c: Claims) {
    c.extra == map[] || (ExtrasReturn(c) && FieldsReturn(c))
  }

  // ---- listings ----

  lemma RegisteredIff(k: string)
    ensures k in REGISTERED <==> Recognise(k).Some?
    ensures Recognise(k).Some? ==> RecogniseFold(k) == Recognise(k)
  {
    if Recognise(k).Some? {
      RecogniseFoldKey(Recognise(k).value);
    }
  }

  lemma BaseValue(c: Claims, k: string)
    ensures k in Base(c) <==> Present(c, k)
  {
    RegisteredIff(k);
  }

  predicate Distinct(ms: Members) {
    forall i, j :: 0 <= i < j < |ms| ==> ms[i].0 != ms[j].0
  }

  predicate Ascending(ms: Members) {
    forall i, j :: 0 <= i < j < |ms| ==> Text.Upto(ms[i].0, ms[j].0)
  }

  /** The members are those of the map. */
  predicate Lists(ms: Members, m: Object) {
    && (forall i :: 0 <= i < |ms| ==> ms[i].0 in m && m[ms[i].0] == ms[i].1)
    && (forall k :: k in m ==> exists i :: 0 <= i < |ms| && ms[i].0 == k)
  }

  /** Putting the least entry in front of the rest in order. */
  lemma FrontLists(m: Object, k: string, rest: Members)
    requires k in m && Lists(rest, Remove(m, k))
    ensures Lists([(k, m[k])] + rest, m)
  {
    var ms := [(k, m[k])] + rest;
    forall x | x in m ensures exists i :: 0 <= i < |ms| && ms[i].0 == x {
      if x == k {
        assert ms[0].0 == x;
      } else {
        assert x in Remove(m, k);
        var i :| 0 <= i < |rest| && rest[i].0 == x;
        assert ms[i + 1].0 == x;
      }
    }
  }

  lemma FrontAscends(m: Object, k: string, rest: Members)
    requires Text.IsLeast(m.Keys, k)
    requires Lists(rest, Remove(m, k)) && Distinct(rest) && Ascending(rest)
    ensures var ms := [(k, m[k])] + rest; Distinct(ms) && Ascending(ms)
  {
    var ms := [(k, m[k])] + rest;
    hide Text.Upto;
    forall i, j | 0 <= i < j < |ms| ensures ms[i].0 != ms[j].0 && Text.Upto(ms[i].0, ms[j].0) {
      assert rest[j - 1] == ms[j] && rest[j - 1].0 in Remove(m, k);
      assert i > 0 ==> rest[i - 1] == ms[i];
    }
  }

  lemma {:induction false} SortedLists(m: Object)
    ensures Lists(Sorted(m), m) && Distinct(Sorted(m)) && Ascending(Sorted(m))
    decreases m.Keys
  {
    if m != map[] {
      var k := Text.Least(m.Keys);
      assert k in m.Keys && k !in Remove(m, k).Keys;
      SortedLists(Remove(m, k));
      hide Lists, Distinct, Ascending, Text.IsLeast, Text.Least, Remove;
      FrontLists(m, k, Sorted(Remove(m, k)));
      FrontAscends(m, k, Sorted(Remove(m, k)));
    }
  }

  lemma {:induction false} AsMapCovers(ms: Members)
    ensures forall k :: k in AsMap(ms) ==> exists i :: 0 <= i < |ms| && ms[i].0 == k
  {
    if ms != [] {
      var rest := ms[..|ms| - 1];
      AsMapCovers(rest);
      forall k | k in AsMap(ms) ensures exists i :: 0 <= i < |ms| && ms[i].0 == k {
        if k in AsMap(rest) {
          var i :| 0 <= i < |rest| && rest[i].0 == k;
          assert ms[i].0 == k;
        } else {
          assert ms[|ms| - 1].0 == k;
        }
      }
    }
  }

  lemma {:induction false} AsMapKeys(ms: Members)
    requires Distinct(ms)
    ensures forall i :: 0 <= i < |ms| ==> ms[i].0 in AsMap(ms) && AsMap(ms)[ms[i].0] == ms[i].1
  {
    if ms != [] {
      AsMapKeys(ms[..|ms| - 1]);
    }
  }

  lemma AsMapOfListing(ms: Members, m: Object)
    requires Lists(ms, m) && Distinct(ms)
    ensures AsMap(ms) == m
  {
    AsMapKeys(ms);
    AsMapCovers(ms);
    forall k | k in m ensures k in AsMap(ms) && AsMap(ms)[k] == m[k] {
      var i :| 0 <= i < |ms| && ms[i].0 == k;
    }
  }

  lemma {:induction false} LastIndex(ms: Members, n: Name) returns (i: int)
    ensures -1 <= i < |ms|
    ensures if i == -1 then LastValue(ms, n) == None else Sets(n, ms[i]) && LastValue(ms, n) == Some(ms[i].1)
    ensures forall j :: i < j < |ms| ==> !Sets(n, ms[j])
  {
    hide Sets;
    if ms == [] {
      i := -1;
    } else if Sets(n, ms[|ms| - 1]) {
      i := |ms| - 1;
    } else {
      i := LastIndex(ms[..|ms| - 1], n);
    }
  }

  /** In a document with extras the field is left with the value of the member that prevails, if any sets it. */
  lemma LastPrevails(m: Object, n: Name) returns (k: Option<string>)
    ensures k.Some? ==> Prevails(m, n, k.value) && LastValue(Sorted(m), n) == Some(m[k.value])
    ensures k.None? ==> LastValue(Sorted(m), n) == None && forall x :: x in m ==> !Sets(n, (x, m[x]))
  {
    var ms := Sorted(m);
    SortedLists(m);
    var i := LastIndex(ms, n);
    hide Sorted, Sets, LastValue;
    k := if i == -1 then None else Some(ms[i].0);
    forall x | x in m && Sets(n, (x, m[x])) ensures i != -1 && Text.Upto(x, ms[i].0) {
      var j :| 0 <= j < |ms| && ms[j].0 == x;
      assert ms[j] == (x, m[x]);
      Text.UptoReflexive(x);
    }
  }

  lemma OnlyOnePrevails(m: Object, n: Name, k: string, x: string)
    requires Prevails(m, n, k) && Prevails(m, n, x)
    ensures k == x
  {
    Text.UptoAntisymmetric(k, x);
  }

  /** A field left with `v` holds `w`, the value it was written from. */
  predicate Restores(v: Option<Json>, w: Json) {
    && (w.Str? ==> TextOf(v) == w.text)
    && (w.Num? ==> IntOf(v) == w.n)
    && (w.Strs? ==> ListOf(v) == w.items)
  }

  lemma Assemble(ms: Members, c: Claims)
    requires AllFit(ms) && Leftover(AsMap(ms)) == c.extra && forall n :: Restores(LastValue(ms, n), ValueOf(c, n))
    ensures Unflatten(ms) == Some(c)
  {
    assert Restores(LastValue(ms, Iss), Str(c.issuer)) && Restores(LastValue(ms, Sub), Str(c.subject));
    assert Restores(LastValue(ms, Aud), Strs(c.audience)) && Restores(LastValue(ms, Exp), Num(c.expiresAt));
    assert Restores(LastValue(ms, Nbf), Num(c.notBefore)) && Restores(LastValue(ms, Iat), Num(c.issuedAt));
    assert Restores(LastValue(ms, Jti), Str(c.jwtID)) && Restores(LastValue(ms, Scope), Str(c.scope));
  }

  lemma Disassemble(ms: Members, c: Claims, n: Name)
    requires Unflatten(ms) == Some(c)
    ensures AllFit(ms) && Leftover(AsMap(ms)) == c.extra && Restores(LastValue(ms, n), ValueOf(c, n))
  {
    hide AllFit, Leftover, AsMap, LastValue;
  }

  // ---- the document, name by name ----

  function WithoutEmpties(ms: Members): Members {
    if ms == [] then []
    else (if ms[0].1 in {Str(""), Num(0), Strs([])} then [] else [ms[0]]) + WithoutEmpties(ms[1..])
  }

  function Fields(c: Claims, names: seq<Name>): Members {
    seq(|names|, i requires 0 <= i < |names| => (Key(names[i]), ValueOf(c, names[i])))
  }

  lemma {:induction false} FieldsLeft(c: Claims, names: seq<Name>)
    ensures FieldMembers(c, names) == WithoutEmpties(Fields(c, names))
  {
    if names != [] {
      FieldsLeft(c, names[1..]);
      assert Fields(c, names)[1..] == Fields(c, names[1..]);
    }
  }

  /** Without extras: the names of RFC 7519 (and `scope`) in the order of the struct, each unless its value is empty. */
  lemma FieldsWritten(c: Claims)
    requires c.extra == map[]
    ensures Document(c)
            == WithoutEmpties([("iss", Str(c.issuer)), ("sub", Str(c.subject)), ("aud", Strs(c.audience)),
                               ("exp", Num(c.expiresAt)), ("nbf", Num(c.notBefore)), ("iat", Num(c.issuedAt)),
                               ("jti", Str(c.jwtID)), ("scope", Str(c.scope))])
  {
    FieldsLeft(c, FIELD_ORDER);
    assert Fields(c, FIELD_ORDER)
           == [("iss", Str(c.issuer)), ("sub", Str(c.subject)), ("aud", Strs(c.audience)),
               ("exp", Num(c.expiresAt)), ("nbf", Num(c.notBefore)), ("iat", Num(c.issuedAt)),
               ("jti", Str(c.jwtID)), ("scope", Str(c.scope))];
    hide WithoutEmpties, FieldMembers, Fields;
  }

  /** What the document holds under a name, beside extras: the extra of that name, else the field's value as printed again. */
  predicate OnWire(c: Claims, k: string, v: Json) {
    if k in c.extra then v == c.extra[k]
    else if k == "iss" then v == Str(c.issuer) && c.issuer != ""
    else if k == "sub" then v == Str(c.subject) && c.subject != ""
    else if k == "aud" then v == Strs(c.audience) && c.audience != []
    else if k == "exp" then v == Num(Printed(c.expiresAt)) && c.expiresAt != 0
    else if k == "nbf" then v == Num(Printed(c.notBefore)) && c.notBefore != 0
    else if k == "iat" then v == Num(Printed(c.issuedAt)) && c.issuedAt != 0
    else if k == "jti" then v == Str(c.jwtID) && c.jwtID != ""
    else k == "scope" && v == Str(c.scope) && c.scope != ""
  }

  lemma BaseField(c: Claims, k: string)
    ensures k in Base(c) <==> Recognise(k).Some? && !Empty(ValueOf(c, Recognise(k).value))
    ensures k in Base(c) ==> Base(c)[k] == ValueOf(c, Recognise(k).value)
  {
    BaseValue(c, k);
    hide Recognise, ValueOf, Empty;
  }

  lemma FlattenOnWire(c: Claims, k: string, v: Json)
    ensures k in Flatten(c) && Flatten(c)[k] == v <==> OnWire(c, k, v)
  {
    BaseField(c, k);
    hide Printed, Base;
  }

  /** With extras: exactly these members, one for each name, names ascending. */
  lemma ExtrasWritten(c: Claims, k: string, v: Json)
    requires c.extra != map[]
    ensures (k, v) in Document(c) <==> OnWire(c, k, v)
    ensures Distinct(Document(c)) && Ascending(Document(c))
  {
    FlattenOnWire(c, k, v);
    SortedLists(Flatten(c));
    hide Sorted, Flatten, OnWire, Distinct, Ascending;
    if k in Flatten(c) && Flatten(c)[k] == v {
      var i :| 0 <= i < |Document(c)| && Document(c)[i].0 == k;
      assert Document(c)[i] == (k, v);
    }
  }

  // ---- without extras ----

  lemma {:induction false} FieldMembersFrom(c: Claims, names: seq<Name>, member: (string, Json))
    requires member in FieldMembers(c, names)
    ensures exists n :: !Empty(ValueOf(c, n)) && member == (Key(n), ValueOf(c, n))
  {
    if member !in FieldMembers(c, names[1..]) {
      assert !Empty(ValueOf(c, names[0])) && member == (Key(names[0]), ValueOf(c, names[0]));
    } else {
      FieldMembersFrom(c, names[1..], member);
    }
  }

  lemma {:induction false} FieldMembersHave(c: Claims, names: seq<Name>, n: Name)
    requires n in names && !Empty(ValueOf(c, n))
    ensures (Key(n), ValueOf(c, n)) in FieldMembers(c, names)
  {
    if n != names[0] {
      FieldMembersHave(c, names[1..], n);
    }
  }

  lemma FieldMemberSets(c: Claims, n: Name, member: (string, Json))
    requires member in FieldMembers(c, FIELD_ORDER)
    ensures member.0 in REGISTERED && (RecogniseFold(member.0) == Some(n) ==> member == (Key(n), ValueOf(c, n)))
  {
    FieldMembersFrom(c, FIELD_ORDER, member);
    hide FieldMembers;
    var m :| !Empty(ValueOf(c, m)) && member == (Key(m), ValueOf(c, m));
    RecogniseKey(m);
    RecogniseFoldKey(m);
    RegisteredIff(Key(m));
  }

  lemma FieldAloneReturns(c: Claims, n: Name)
    ensures Restores(LastValue(FieldMembers(c, FIELD_ORDER), n), ValueOf(c, n))
  {
    var ms := FieldMembers(c, FIELD_ORDER);
    var i := LastIndex(ms, n);
    if !Empty(ValueOf(c, n)) {
      FieldMembersHave(c, FIELD_ORDER, n);
    }
    if i != -1 {
      FieldMemberSets(c, n, ms[i]);
    }
    hide FieldMembers, LastValue, FIELD_ORDER;
    RecogniseFoldKey(n);
    assert !Empty(ValueOf(c, n)) ==> exists j :: 0 <= j < |ms| && ms[j] == (Key(n), ValueOf(c, n));
  }

  lemma FieldsAloneReturn(c: Claims)
    requires IntsInRange(c) && c.extra == map[]
    ensures Unflatten(Document(c)) == Some(c)
  {
    var ms := FieldMembers(c, FIELD_ORDER);
    forall n ensures Restores(LastValue(ms, n), ValueOf(c, n)) {
      FieldAloneReturns(c, n);
    }
    forall i | 0 <= i < |ms| && RecogniseFold(ms[i].0).Some? ensures Fits(RecogniseFold(ms[i].0).value, ms[i].1) {
      FieldMemberSets(c, RecogniseFold(ms[i].0).value, ms[i]);
    }
    AsMapCovers(ms);
    forall k | k in AsMap(ms) ensures k in REGISTERED {
      var i :| 0 <= i < |ms| && ms[i].0 == k;
      FieldMemberSets(c, Iss, ms[i]);
    }
    hide FieldMembers, LastValue, AsMap;
    Assemble(ms, c);
  }

  // ---- with extras ----

  /** A field that is not empty is among the members, under its own name. */
  lemma OwnMember(c: Claims, n: Name)
    requires ExtrasReturn(c) && !Empty(ValueOf(c, n))
    ensures Key(n) in Flatten(c) && Sets(n, (Key(n), Flatten(c)[Key(n)]))
  {
    RecogniseKey(n);
    RecogniseFoldKey(n);
    RegisteredIff(Key(n));
    BaseValue(c, Key(n));
    assert Key(n) !in c.extra;
  }

  lemma FieldBesideExtras(c: Claims, n: Name)
    requires ExtrasReturn(c) && FieldsReturn(c)
    ensures Restores(LastValue(Sorted(Flatten(c)), n), ValueOf(c, n))
  {
    var k := LastPrevails(Flatten(c), n);
    hide Flatten, Sorted, LastValue;
    if k.Some? {
      assert FieldReturns(c, k.value);
    } else if !Empty(ValueOf(c, n)) {
      OwnMember(c, n);
    }
  }

  lemma LeftoverReturns(c: Claims)
    requires ExtrasReturn(c)
    ensures Leftover(Flatten(c)) == c.extra
  {
    forall k ensures k in Leftover(Flatten(c)) <==> k in c.extra {
      BaseValue(c, k);
      RegisteredIff(k);
    }
    forall k | k in c.extra ensures Leftover(Flatten(c))[k] == c.extra[k] {
      if c.extra[k].Num? {
        FloatExact(c.extra[k].n);
      }
    }
  }

  lemma ReturnsBesideExtras(c: Claims)
    requires c.extra != map[] && ExtrasReturn(c) && FieldsReturn(c)
    ensures Unflatten(Document(c)) == Some(c)
  {
    var m := Flatten(c);
    var ms := Sorted(m);
    SortedLists(m);
    AsMapOfListing(ms, m);
    LeftoverReturns(c);
    forall n ensures Restores(LastValue(ms, n), ValueOf(c, n)) {
      FieldBesideExtras(c, n);
    }
    forall i | 0 <= i < |ms| && RecogniseFold(ms[i].0).Some? ensures Fits(RecogniseFold(ms[i].0).value, ms[i].1) {
      assert FieldReturns(c, ms[i].0);
    }
    hide Flatten, Sorted, LastValue, AsMap, Leftover;
    Assemble(ms, c);
  }

  lemma ExtrasMustReturn(c: Claims)
    requires Leftover(Flatten(c)) == c.extra
    ensures ExtrasReturn(c)
  {
    forall k | k in c.extra ensures k !in REGISTERED && (c.extra[k].Num? ==> Representable(c.extra[k].n)) {
      assert k in Leftover(Flatten(c));
      if c.extra[k].Num? {
        FloatExact(c.extra[k].n);
      }
    }
  }

  lemma MemberFits(c: Claims, k: string)
    requires AllFit(Sorted(Flatten(c))) && k in Flatten(c) && RecogniseFold(k).Some?
    ensures Fits(RecogniseFold(k).value, Flatten(c)[k])
  {
    SortedLists(Flatten(c));
    hide Sorted, Flatten, Fits, RecogniseFold, Distinct, Ascending;
    var i :| 0 <= i < |Sorted(Flatten(c))| && Sorted(Flatten(c))[i].0 == k;
  }

  lemma PrevailingCarries(c: Claims, k: string, n: Name)
    requires Restores(LastValue(Sorted(Flatten(c)), n), ValueOf(c, n))
    requires Prevails(Flatten(c), n, k) && Fits(n, Flatten(c)[k])
    ensures Carries(Flatten(c)[k], ValueOf(c, n))
  {
    var x := LastPrevails(Flatten(c), n);
    OnlyOnePrevails(Flatten(c), n, k, x.value);
    hide Flatten, Sorted, LastValue, RecogniseFold;
  }

  lemma FieldMustReturn(c: Claims, k: string)
    requires c.extra != map[] && Unflatten(Document(c)) == Some(c) && k in Flatten(c) && RecogniseFold(k).Some?
    ensures FieldReturns(c, k)
  {
    var n := RecogniseFold(k).value;
    Disassemble(Sorted(Flatten(c)), c, n);
    MemberFits(c, k);
    hide Flatten, Sorted, LastValue, AllFit, Restores, Fits, Prevails, Carries, RecogniseFold, AsMap, Leftover, Unflatten;
    if Prevails(Flatten(c), n, k) {
      PrevailingCarries(c, k, n);
    }
  }

  /**
   Claims survive being written and read back exactly when there are no extras, or every extra comes
   back and, for each field, every member whose name matches it fits it and the last such member in
   key order carries its value.
   */
  lemma RoundTripExactly(c: Claims)
    requires IntsInRange(c)
    ensures Unflatten(Document(c)) == Some(c) <==> Returns(c)
  {
    if c.extra == map[] {
      FieldsAloneReturn(c);
    } else if Returns(c) {
      ReturnsBesideExtras(c);
    } else if Unflatten(Document(c)) == Some(c) {
      SortedLists(Flatten(c));
      AsMapOfListing(Sorted(Flatten(c)), Flatten(c));
      Disassemble(Sorted(Flatten(c)), c, Iss);
      ExtrasMustReturn(c);
      forall k | k in Flatten(c) ensures FieldReturns(c, k) {
        if RecogniseFold(k).Some? { FieldMustReturn(c, k); }
      }
    }
  }

  // ---- extras that have nothing to do with the fields ----

  /** A float64 of at least 2^53 is within one part in 2^53 of what is rounded to it. */
  lemma {:induction false} UlpBound(n: nat)
    requires n >= EXACT
    ensures Ulp(n) * 0x10_0000_0000_0000 <= n
  {
    if n / 2 >= EXACT {
      UlpBound(n / 2);
    } else {
      assert Ulp(n / 2) == 1;
    }
  }

  lemma RoundingError(n: nat)
    ensures n < EXACT ==> RoundToFloat(n) == n
    ensures n >= EXACT ==> EXACT * (n - RoundToFloat(n)) <= n && EXACT * (RoundToFloat(n) - n) <= n
  {
    if n >= EXACT {
      UlpBound(n);
      var u := Ulp(n);
      var f := RoundToFloat(n);
      assert 2 * (n - f) <= u && 2 * (f - n) <= u;
    }
  }

  lemma PowerOfTen(k: nat)
    requires k >= 1
    ensures Power10(k) % 10 == 0
  {
  }

  /** Of the numbers above one up to 2^53, only 2^53 + 1 rounds down to it. */
  lemma RoundsDown(a: nat, up: nat)
    requires a <= EXACT && a < up && RoundToFloat(up) == a
    ensures a == EXACT && up == EXACT + 1
  {
    RoundingError(up);
    if up == EXACT {
      FloatExact(up);
    }
    hide RoundToFloat;
  }

  lemma WholeMultiples(a: nat, p: nat)
    requires p >= 1
    ensures a - a % p == (a / p) * p && a - a % p + p == (a / p + 1) * p
  {
  }

  lemma MultipleOfTen(q: nat, p: nat)
    requires p % 10 == 0
    ensures q * p % 10 == 0
  {
    assert q * p == (q * (p / 10)) * 10;
  }

  lemma Division(a: nat, p: nat) returns (q: nat, down: nat)
    requires p >= 1
    ensures q == a / p && down == q * p == a - a % p && down <= a < down + p && down + p == (q + 1) * p
    ensures p == 1 ==> down == a
  {
    q, down := a / p, a - a % p;
    WholeMultiples(a, p);
  }

  lemma NearMultiple(a: nat, k: nat) returns (p: nat, down: nat)
    ensures p == Power10(k) >= 1 && down == a - a % p && down <= a < down + p
    ensures if k == 0 then down == a else (down + p) % 10 == 0
  {
    p := Power10(k);
    if k > 0 { PowerOfTen(k); }
    hide Power10;
    var q, d := Division(a, p);
    if k > 0 { MultipleOfTen(q + 1, p); }
    down := d;
  }

  lemma RoundedOnly(a: nat, p: nat, down: nat)
    requires p >= 1 && down == a - a % p
    requires RoundToFloat(down) == a <==> down == a
    requires RoundToFloat(down + p) == a ==> down == a
    ensures Rounded(a, p) == if down == a then Some(a) else None
  {
    hide RoundToFloat;
  }

  /** The neighbours at distance `p`, neither of which reads back as the number unless it is the number. */
  lemma NeighboursSmall(a: nat, down: nat, up: nat)
    requires a <= EXACT && down <= a < up && (up % 10 == 0 || down == a)
    ensures RoundToFloat(down) == a <==> down == a
    ensures RoundToFloat(up) == a ==> down == a
  {
    FloatExact(down);
    hide RoundToFloat;
    if RoundToFloat(up) == a {
      RoundsDown(a, up);
    }
  }

  /** Up to 2^53 the neighbours that read back as a number are the number itself. */
  lemma RoundedSmall(a: nat, k: nat)
    requires a <= EXACT
    ensures var r := Rounded(a, Power10(k)); if k == 0 then r == Some(a) else r == None || r == Some(a)
  {
    hide RoundToFloat, Power10, Rounded;
    var p, down := NearMultiple(a, k);
    NeighboursSmall(a, down, down + p);
    RoundedOnly(a, p, down);
  }

  lemma {:induction false} ShortestSmall(a: nat, k: nat)
    requires a <= EXACT
    ensures Shortest(a, k) == a
  {
    RoundedSmall(a, k);
    if k > 0 && Rounded(a, Power10(k)).None? {
      ShortestSmall(a, k - 1);
    }
  }

  /** Numbers up to 2^53 are printed as they were. */
  lemma PrintedSmall(n: int)
    requires -EXACT <= n <= EXACT
    ensures Printed(n) == n
  {
    var a: nat := if n < 0 then -n else n;
    FloatExact(a);
    ShortestSmall(a, |Text.Digits(a)|);
  }

  /** No extra is taken for a field, extra numbers are float64 values, and with extras the fields stay within 2^53. */
  predicate Plain(c: Claims) {
    && (forall k :: k in c.extra ==> RecogniseFold(k).None? && (c.extra[k].Num? ==> Representable(c.extra[k].n)))
    && (c.extra != map[] ==> forall n :: ValueOf(c, n).Num? ==> -EXACT <= ValueOf(c, n).n <= EXACT)
  }

  lemma PlainField(c: Claims, k: string)
    requires IntsInRange(c) && Plain(c) && c.extra != map[] && k in Flatten(c)
    ensures FieldReturns(c, k)
  {
    BaseValue(c, k);
    RegisteredIff(k);
    hide Printed, RecogniseFold, Recognise, Representable, Prevails;
    if k !in c.extra {
      var v := ValueOf(c, Recognise(k).value);
      if v.Num? { PrintedSmall(v.n); }
      assert Flatten(c)[k] == v;
    }
  }

  /** Such claims always survive the trip, empty fields dropped and restored as zero values. */
  lemma UnflattenFlatten(c: Claims)
    requires IntsInRange(c) && Plain(c)
    ensures Returns(c) && Unflatten(Document(c)) == Some(c)
  {
    if c.extra != map[] {
      forall k | k in Flatten(c) ensures FieldReturns(c, k) {
        PlainField(c, k);
      }
      forall k | k in c.extra ensures k !in REGISTERED {
        RegisteredIff(k);
      }
    }
    RoundTripExactly(c);
  }

  // ---- claims that change ----

  function WithExtra(subject: string, key: string, value: string): Claims {
    Claims("", subject, [], 0, 0, 0, "", "", map[key := Str(value)])
  }

  lemma OneField(subject: string, key: string, value: string)
    requires subject != "" && key !in REGISTERED
    ensures Flatten(WithExtra(subject, key, value)) == map["sub" := Str(subject), key := Str(value)]
  {
    var c := WithExtra(subject, key, value);
    forall k ensures k in Base(c) <==> k == "sub" {
      BaseValue(c, k);
      RecogniseKey(Sub);
    }
    RecogniseKey(Sub);
  }

  /**
   An extra key that is `sub` but for case decides the subject when it comes after `sub` in key
   order, and changes nothing when it comes before.
   */
  lemma VariantDecides(subject: string, key: string, value: string)
    requires subject != "" && RecogniseFold(key) == Some(Sub) && key != "sub"
    ensures var c := WithExtra(subject, key, value);
            Unflatten(Document(c)) == Some(c) <==> value == subject || Text.Upto(key, "sub")
  {
    var c := WithExtra(subject, key, value);
    RegisteredIff(key);
    RecogniseFoldKey(Sub);
    assert key !in REGISTERED && RecogniseFold("sub") == Some(Sub);
    hide Flatten, RecogniseFold, Recognise, Document, Unflatten, Text.Upto, Returns;
    OneField(subject, key, value);
    VariantReturns(c, key, value);
    RoundTripExactly(c);
  }

  lemma VariantReturns(c: Claims, key: string, value: string)
    requires c.extra == map[key := Str(value)] && key !in REGISTERED
    requires Flatten(c) == map["sub" := Str(c.subject), key := Str(value)] && key != "sub"
    requires RecogniseFold(key) == Some(Sub) && RecogniseFold("sub") == Some(Sub)
    ensures Returns(c) <==> value == c.subject || Text.Upto(key, "sub")
  {
    VariantField(c, key, value);
    hide Flatten, RecogniseFold, Text.Upto, FieldReturns, Representable;
    assert key in c.extra;
    assert FieldsReturn(c) <==> FieldReturns(c, "sub") && FieldReturns(c, key);
  }

  lemma VariantField(c: Claims, key: string, value: string)
    requires Flatten(c) == map["sub" := Str(c.subject), key := Str(value)] && key != "sub"
    requires RecogniseFold(key) == Some(Sub) && RecogniseFold("sub") == Some(Sub)
    ensures FieldReturns(c, "sub") && FieldReturns(c, key) <==> value == c.subject || Text.Upto(key, "sub")
  {
    hide RecogniseFold, Flatten, Text.Upto;
    var m := Flatten(c);
    Text.UptoReflexive(key);
    Text.UptoReflexive("sub");
    Text.UptoTotal(key, "sub");
    if Text.Upto(key, "sub") && Text.Upto("sub", key) {
      Text.UptoAntisymmetric(key, "sub");
    }
    assert Prevails(m, Sub, key) <==> Text.Upto("sub", key);
    assert Prevails(m, Sub, "sub") <==> Text.Upto(key, "sub");
  }

  /** Written with a long s, a claim `sub` in the extras overwrites the subject; in capitals it does not. */
  lemma CaseVariantOverwrites()
    ensures var c := WithExtra("alice", [0x17F as char] + "ub", "mallory"); Unflatten(Document(c)) != Some(c)
    ensures var c := WithExtra("alice", "SUB", "mallory"); Unflatten(Document(c)) == Some(c)
  {
    var late := [0x17F as char] + "ub";
    assert Fold(late) == "sub" && Fold("SUB") == "sub";
    RecogniseKey(Sub);
    assert "alice"[0] != "mallory"[0] && late[0] > "sub"[0] && "SUB"[0] < "sub"[0];
    assert !Text.Upto(late, "sub") && Text.Upto("SUB", "sub");
    hide Flatten, Document, Unflatten, Recognise, Text.Upto, Fold;
    VariantDecides("alice", late, "mallory");
    VariantDecides("alice", "SUB", "mallory");
  }

  /** 2^60 is printed with three zeros at the end. */
  lemma {:induction false} LargePrints(k: nat)
    requires k >= 3
    ensures Shortest(0x1000_0000_0000_0000, k) == 1_152_921_504_606_847_000
  {
    var m: nat := 0x1000_0000_0000_0000;
    if k == 3 {
      var down, up := 1_152_921_504_606_846_000, 1_152_921_504_606_847_000;
      assert Power10(3) == 1000 && m % 1000 == 976;
      RoundingError(down);
      assert Ulp(up) == 256;
      assert RoundToFloat(up) == m;
    } else {
      TooCoarse(k);
      LargePrints(k - 1);
    }
  }

  lemma {:induction false} PowerOfMyriad(k: nat)
    requires k >= 4
    ensures Power10(k) % 10_000 == 0
  {
    if k == 4 {
      assert Power10(4) == 10_000;
    } else {
      PowerOfMyriad(k - 1);
    }
  }

  lemma MultipleOfMyriad(q: nat, p: nat)
    requires p % 10_000 == 0
    ensures q * p % 10_000 == 0
  {
    assert q * p == (q * (p / 10_000)) * 10_000;
  }

  lemma FarFrom(x: nat)
    requires x % 10_000 == 0
    ensures RoundToFloat(x) != 0x1000_0000_0000_0000
  {
    assert 0x1000_0000_0000_0000 % 10_000 == 6_976;
    RoundingError(x);
    hide RoundToFloat;
  }

  ghost predicate SkipsMyriads(m: nat) {
    forall x: nat :: x % 10_000 == 0 ==> RoundToFloat(x) != m
  }

  lemma MultipleMisses(m: nat, q: nat, p: nat)
    requires p % 10_000 == 0 && SkipsMyriads(m)
    ensures RoundToFloat(q * p) != m
  {
    hide RoundToFloat;
    MultipleOfMyriad(q, p);
  }

  lemma NoneReadsBack(m: nat, p: nat, q: nat)
    requires p >= 1 && q == m / p && RoundToFloat(q * p) != m && RoundToFloat((q + 1) * p) != m
    ensures Rounded(m, p) == None
  {
    WholeMultiples(m, p);
    hide RoundToFloat;
  }

  lemma Quotient(m: nat, p: nat) returns (q: nat)
    requires p >= 1
    ensures q == m / p
  {
    q := m / p;
  }

  lemma TooCoarse(k: nat)
    requires k >= 4
    ensures Rounded(0x1000_0000_0000_0000, Power10(k)) == None
  {
    hide RoundToFloat, Power10, Rounded;
    forall x: nat | x % 10_000 == 0 ensures RoundToFloat(x) != 0x1000_0000_0000_0000 {
      FarFrom(x);
    }
    PowerOfMyriad(k);
    assert SkipsMyriads(0x1000_0000_0000_0000);
    var m: nat, p := 0x1000_0000_0000_0000, Power10(k);
    var q := Quotient(m, p);
    MultipleMisses(m, q, p);
    MultipleMisses(m, q + 1, p);
    NoneReadsBack(m, p, q);
  }

  lemma LargePrinted()
    ensures Printed(0x1000_0000_0000_0000) == 1_152_921_504_606_847_000
  {
    var m: nat := 0x1000_0000_0000_0000;
    assert |Text.Digits(m)| >= 3 by { ThreeDigits(m); }
    assert RoundToFloat(m) == m by { assert Ulp(m) == 256; }
    LargePrints(|Text.Digits(m)|);
    hide RoundToFloat, Shortest;
  }

  lemma ThreeDigits(n: nat)
    requires n >= 100
    ensures |Text.Digits(n)| >= 3
  {
    assert |Text.Digits(n / 10 / 10)| >= 1;
    assert |Text.Digits(n / 10)| >= 2;
  }

  /** With any extra, an expiry of 2^60 seconds comes back as another number. */
  lemma LateExpiryChanges()
    ensures var c := Claims("", "", [], 0x1000_0000_0000_0000, 0, 0, "", "", map["nonce" := Str("n")]);
            Unflatten(Document(c)) != Some(c)
  {
    var c := Claims("", "", [], 0x1000_0000_0000_0000, 0, 0, "", "", map["nonce" := Str("n")]);
    hide Printed, Flatten, Document, Unflatten, RecogniseFold, FieldReturns;
    LargePrinted();
    ExpiryReprinted(c);
    RoundTripExactly(c);
    ExpiryDecides(c);
    assert "nonce" in c.extra && "exp" in Flatten(c);
  }

  lemma ExpiryDecides(c: Claims)
    requires Flatten(c) == map["exp" := Num(Printed(c.expiresAt)), "nonce" := Str("n")] && Printed(c.expiresAt) != c.expiresAt
    ensures !FieldReturns(c, "exp")
  {
    RecogniseFoldKey(Exp);
    NonceIsNoField();
    hide RecogniseFold, Flatten, Text.Upto, Printed;
    Text.UptoReflexive("exp");
    assert Prevails(Flatten(c), Exp, "exp");
  }

  lemma NonceIsNoField()
    ensures RecogniseFold("nonce") == None
  {
    assert Fold("nonce") == "nonce" && "nonce"[0] == 'n' && "nonce"[1] == 'o' && |"nbf"| == 3 && |"nonce"| == 5;
  }

  lemma ExpiryReprinted(c: Claims)
    requires c == Claims("", "", [], c.expiresAt, 0, 0, "", "", map["nonce" := Str("n")]) && c.expiresAt != 0
    ensures Flatten(c) == map["exp" := Num(Printed(c.expiresAt)), "nonce" := Str("n")]
  {
    hide Printed;
    RecogniseKey(Exp);
    forall k ensures k in Base(c) <==> k == "exp" {
      BaseValue(c, k);
    }
    assert "exp" != "nonce" by { assert |"exp"| != |"nonce"|; }
  }
}
