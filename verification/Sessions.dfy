/** Sessions, the rows of the stateful table, and what each table operation does: the one map specification. */
module Sessions {
  import opened Wrappers
  import opened Clock

  datatype Session = Session(
    id: string, subject: string, clientID: string, scope: string,
    issuedAt: Time, expiresAt: Time, extra: map<string, string>)

  predicate Expired(s: Session, now: Time) {
    now > s.expiresAt
  }

  datatype Row = Row(session: Session, createdAt: Time)

  type Table = map<string, Row>

  datatype Op =
    | Put(key: string, session: Session, now: Time)
    | Get(key: string, now: Time)
    | Delete(key: string)
    | DeleteWhereSubject(subject: string)
    | Sweep(now: Time)

  datatype Answer = Done | Found(session: Option<Session>) | Count(n: nat)

  function Lookup(t: Table, key: string, now: Time): Option<Session> {
    if key !in t || Expired(t[key].session, now) then None else Some(t[key].session)
  }

  function OfSubject(t: Table, subject: string): set<string> {
    set k | k in t && t[k].session.subject == subject
  }

  function ExpiredKeys(t: Table, now: Time): set<string> {
    set k | k in t && Expired(t[k].session, now)
  }

  function Next(t: Table, op: Op): Table {
    match op
    case Put(k, s, now) => t[k := Row(s, now)]
    case Get(_, _) => t
    case Delete(k) => t - {k}
    case DeleteWhereSubject(sub) => t - OfSubject(t, sub)
    case Sweep(now) => t - ExpiredKeys(t, now)
  }

  /** Whether the file backend takes a snapshot after the operation. */
  predicate Changes(t: Table, op: Op) {
    match op
    case Put(_, _, _) => true
    case Get(_, _) => false
    case Delete(k) => k in t
    case DeleteWhereSubject(sub) => OfSubject(t, sub) != {}
    case Sweep(now) => ExpiredKeys(t, now) != {}
  }

  function Reply(t: Table, op: Op): Answer {
    match op
    case Put(_, _, _) => Done
    case Get(k, now) => Found(Lookup(t, k, now))
    case Delete(_) => Done
    case DeleteWhereSubject(sub) => Count(|OfSubject(t, sub)|)
    case Sweep(now) => Count(|ExpiredKeys(t, now)|)
  }

  /**
   Subject-wide deletion removes exactly the subject's rows and counts exactly those it removed;
   every other key answers as before.
   */
  lemma SubjectDeletion(t: Table, subject: string, key: string, now: Time)
    ensures var t' := Next(t, DeleteWhereSubject(subject));
            && |t'| + |OfSubject(t, subject)| == |t|
            && (key in t' <==> key in t && t[key].session.subject != subject)
            && Lookup(t', key, now) == if key in t && t[key].session.subject == subject then None else Lookup(t, key, now)
  {
    var t' := Next(t, DeleteWhereSubject(subject));
    assert OfSubject(t, subject) <= t.Keys;
    assert t'.Keys == t.Keys - OfSubject(t, subject);
    assert |t'.Keys| == |t.Keys| - |OfSubject(t, subject)|;
  }

  /** Sweeping at an instant that is not in the future changes no lookup, now or later. */
  lemma SweepInvisible(t: Table, swept: Time, key: string, now: Time)
    requires swept <= now
    ensures Lookup(Next(t, Sweep(swept)), key, now) == Lookup(t, key, now)
  {
  }

  function SelectRows(rows: Table, doomed: Row -> bool): set<string> {
    set k | k in rows && doomed(rows[k])
  }

  /**
   The deleting loop both backends run: range over the table, drop every row that matches, count
   the drops. The order in which a Go map is ranged over is arbitrary.
   */
  method DeleteMatching(rows: Table, doomed: Row -> bool) returns (rest: Table, n: nat)
    ensures rest == rows - SelectRows(rows, doomed) && n == |SelectRows(rows, doomed)|
  {
    rest, n := rows, 0;
    ghost var gone: set<string> := {};
    var todo := rows.Keys;
    while todo != {}
      invariant todo <= rows.Keys
      invariant gone == set k | k in rows && k !in todo && doomed(rows[k])
      invariant rest == rows - gone && n == |gone|
      decreases todo
    {
      var k :| k in todo;
      todo := todo - {k};
      if doomed(rows[k]) {
        rest := rest - {k};
        n := n + 1;
        gone := gone + {k};
      }
    }
    assert gone == SelectRows(rows, doomed);
  }
}
