/** `session.MemoryBackend`: the table in process memory. Each operation is proved against the map specification. */
module MemoryBackend {
  import opened Wrappers
  import opened Clock
  import opened Sessions

  class MemoryBackend {
    var rows: Table

    constructor ()
      ensures rows == map[]
    {
      rows := map[];
    }

    method Put(key: string, s: Session, now: Time)
      modifies this
      ensures rows == Next(old(rows), Op.Put(key, s, now))
    {
      rows := rows[key := Row(s, now)];
    }

    method Get(key: string, now: Time) returns (r: Option<Session>)
      ensures Found(r) == Reply(rows, Op.Get(key, now))
    {
      if key !in rows {
        return None;
      }
      if Expired(rows[key].session, now) {
        return None;
      }
      r := Some(rows[key].session);
    }

    method Delete(key: string)
      modifies this
      ensures rows == Next(old(rows), Op.Delete(key))
    {
      rows := rows - {key};
    }

    method DeleteWhereSubject(subject: string) returns (n: nat)
      modifies this
      ensures rows == Next(old(rows), Op.DeleteWhereSubject(subject))
      ensures Count(n) == Reply(old(rows), Op.DeleteWhereSubject(subject))
    {
      assert OfSubject(rows, subject) == SelectRows(rows, (r: Row) => r.session.subject == subject);
      rows, n := DeleteMatching(rows, (r: Row) => r.session.subject == subject);
    }

    method Sweep(now: Time) returns (n: nat)
      modifies this
      ensures rows == Next(old(rows), Op.Sweep(now))
      ensures Count(n) == Reply(old(rows), Op.Sweep(now))
    {
      assert ExpiredKeys(rows, now) == SelectRows(rows, (r: Row) => Expired(r.session, now));
      rows, n := DeleteMatching(rows, (r: Row) => Expired(r.session, now));
    }
  }
}
