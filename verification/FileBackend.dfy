/**
 `session.FileBackend`: the table in memory plus a snapshot file rewritten after every change.

 The directory records every state it passes through, one per system call and one per byte that
 reaches the temporary file, so "the process stops at any point" is "some recorded state".
 */
module FileBackend {
  import opened Wrappers
  import opened Clock
  import opened Base64Url
  import opened Sessions

  /** The byte format of a snapshot (encoding/gob). */
  datatype Format = Format(encode: Table -> seq<Byte>, decode: seq<Byte> -> Option<Table>)

  ghost predicate FormatRoundTrips(g: Format) {
    forall t: Table :: g.decode(g.encode(t)) == Some(t)
  }

  /** The two files the backend touches: the snapshot and its temporary. */
  datatype Files = Files(main: Option<seq<Byte>>, tmp: Option<seq<Byte>>)

  /** How one snapshot attempt goes: where it fails, or that it does not. */
  datatype Fate = CreateFails | WriteFails(written: nat) | CloseFails | RenameFails | Succeeds

  function Min(a: nat, b: nat): nat {
    if a < b then a else b
  }

  function Load(g: Format, f: Files): Option<Table> {
    match f.main
    case None => Some(map[])
    case Some(b) => g.decode(b)
  }

  // ---- what one attempt does to the directory ----

  function Written(bytes: seq<Byte>, fate: Fate): nat
    ensures Written(bytes, fate) <= |bytes|
  {
    if fate.WriteFails? then Min(fate.written, |bytes|) else |bytes|
  }

  /** Every directory state one snapshot attempt passes through, in order. */
  function Trace(f: Files, bytes: seq<Byte>, fate: Fate): seq<Files> {
    if fate.CreateFails? then []
    else
      seq(Written(bytes, fate) + 1, i requires 0 <= i <= Written(bytes, fate) => Files(f.main, Some(bytes[..i])))
      + (if fate.Succeeds? then [Files(Some(bytes), None)] else [])
  }

  class Directory {
    var files: Files
    var history: seq<Files>

    constructor (files: Files)
      ensures this.files == files && history == [files]
    {
      this.files := files;
      history := [files];
    }

    ghost predicate Recorded()
      reads this
    {
      history != [] && history[|history| - 1] == files
    }

    method Become(f: Files)
      modifies this
      ensures files == f && history == old(history) + [f]
    {
      files := f;
      history := history + [f];
    }
  }

  // ---- the abstract store ----

  /** `committed` is the table of the last completed rename, `behind` whether the last attempt failed. */
  datatype Store = Store(rows: Table, files: Files, committed: Table, behind: bool)

  function LastOf(f: Files, states: seq<Files>): Files {
    if states == [] then f else states[|states| - 1]
  }

  /** The directory states one operation passes through. */
  function OpTrace(g: Format, s: Store, op: Op, fate: Fate): seq<Files> {
    if Changes(s.rows, op) then Trace(s.files, g.encode(Next(s.rows, op)), fate) else []
  }

  function Apply(g: Format, s: Store, op: Op, fate: Fate): Store {
    var rows := Next(s.rows, op);
    if !Changes(s.rows, op) then s.(rows := rows)
    else
      var files := LastOf(s.files, OpTrace(g, s, op, fate));
      if fate.Succeeds? then Store(rows, files, rows, false) else Store(rows, files, s.committed, true)
  }

  /** The disk holds the last completed snapshot, and the table in memory unless the last attempt failed. */
  predicate Consistent(g: Format, s: Store) {
    Load(g, s.files) == Some(s.committed) && (!s.behind ==> s.committed == s.rows)
  }

  /** Stopping anywhere inside an operation and loading gives the table before the snapshot or the one after. */
  lemma CrashAtomic(g: Format, s: Store, op: Op, fate: Fate, i: nat)
    requires FormatRoundTrips(g) && Consistent(g, s) && i < |OpTrace(g, s, op, fate)|
    ensures var at := OpTrace(g, s, op, fate)[i];
            Load(g, at) == Some(if fate.Succeeds? && i == |OpTrace(g, s, op, fate)| - 1
                                then Next(s.rows, op) else s.committed)
  {
  }

  lemma ApplyConsistent(g: Format, s: Store, op: Op, fate: Fate)
    requires FormatRoundTrips(g) && Consistent(g, s)
    ensures Consistent(g, Apply(g, s, op, fate))
  {
    var states := OpTrace(g, s, op, fate);
    if states != [] {
      CrashAtomic(g, s, op, fate, |states| - 1);
    }
  }

  // ---- whole runs ----

  type Script = seq<(Op, Fate)>

  function Run(g: Format, s: Store, script: Script): Store
    decreases |script|
  {
    if script == [] then s else Run(g, Apply(g, s, script[0].0, script[0].1), script[1..])
  }

  function RunMap(t: Table, script: Script): Table
    decreases |script|
  {
    if script == [] then t else RunMap(Next(t, script[0].0), script[1..])
  }

  /**
   After any run, whatever snapshots fail, the table in memory is the one the map specification
   (and so the memory backend) reaches, and the disk holds it too unless the last attempt failed.
   */
  lemma {:induction false} FileRefinesMap(g: Format, s: Store, script: Script)
    requires FormatRoundTrips(g) && Consistent(g, s)
    ensures Run(g, s, script).rows == RunMap(s.rows, script)
    ensures Consistent(g, Run(g, s, script))
    decreases |script|
  {
    if script != [] {
      ApplyConsistent(g, s, script[0].0, script[0].1);
      FileRefinesMap(g, Apply(g, s, script[0].0, script[0].1), script[1..]);
    }
  }

  /** The table of the last snapshot that was renamed into place during the run, or the one before it. */
  function LastCommitted(t: Table, committed: Table, script: Script): Table
    decreases |script|
  {
    if script == [] then committed
    else
      var (op, fate) := script[0];
      var t' := Next(t, op);
      LastCommitted(t', if Changes(t, op) && fate.Succeeds? then t' else committed, script[1..])
  }

  lemma {:induction false} RunCommitted(g: Format, s: Store, script: Script)
    ensures Run(g, s, script).committed == LastCommitted(s.rows, s.committed, script)
    decreases |script|
  {
    if script != [] {
      RunCommitted(g, Apply(g, s, script[0].0, script[0].1), script[1..]);
    }
  }

  /**
   Crash and restart: stop at any point of the operation that follows any run; loading then yields
   exactly the table of the last completed rename, never a mixture, and never fails.
   */
  lemma CrashAndReload(g: Format, s: Store, script: Script, op: Op, fate: Fate, i: nat)
    requires FormatRoundTrips(g) && Consistent(g, s)
    requires i < |OpTrace(g, Run(g, s, script), op, fate)|
    ensures var renamed := fate.Succeeds? && i == |OpTrace(g, Run(g, s, script), op, fate)| - 1;
            Load(g, OpTrace(g, Run(g, s, script), op, fate)[i])
            == Some(if renamed then RunMap(s.rows, script + [(op, fate)]) else LastCommitted(s.rows, s.committed, script))
  {
    FileRefinesMap(g, s, script);
    RunCommitted(g, s, script);
    CrashAtomic(g, Run(g, s, script), op, fate, i);
    RunMapSnoc(s.rows, script, (op, fate));
  }

  lemma {:induction false} RunMapSnoc(t: Table, script: Script, last: (Op, Fate))
    ensures RunMap(t, script + [last]) == Next(RunMap(t, script), last.0)
    decreases |script|
  {
    if script == [] {
      assert RunMap(t, [last]) == RunMap(Next(t, last.0), [last][1..]);
    } else {
      assert (script + [last])[1..] == script[1..] + [last];
      RunMapSnoc(Next(t, script[0].0), script[1..], last);
    }
  }

  // ---- what a restart finds ----

  /** The operation at this position changes the table, and its snapshot is renamed into place: it reports success. */
  predicate SavesAt(t: Table, script: Script, j: nat)
    requires j < |script|
  {
    Changes(RunMap(t, script[..j]), script[j].0) && script[j].1.Succeeds?
  }

  predicate PutsKey(op: Op, key: string) {
    op.Put? && op.key == key
  }

  ghost predicate NeverPuts(script: Script, key: string) {
    forall j :: 0 <= j < |script| ==> !PutsKey(script[j].0, key)
  }

  ghost predicate Saves(t: Table, script: Script) {
    exists j :: 0 <= j < |script| && SavesAt(t, script, j)
  }

  lemma SavesStep(t: Table, script: Script)
    requires script != []
    ensures Saves(t, script) <==> (Changes(t, script[0].0) && script[0].1.Succeeds?) || Saves(Next(t, script[0].0), script[1..])
  {
    var t', rest := Next(t, script[0].0), script[1..];
    assert SavesAt(t, script, 0) <==> Changes(t, script[0].0) && script[0].1.Succeeds?;
    forall j | 0 <= j < |rest| ensures SavesAt(t, script, j + 1) <==> SavesAt(t', rest, j) {
      assert script[..j + 1][0] == script[0] && script[..j + 1][1..] == rest[..j];
    }
    hide SavesAt, Changes;
    if j :| 0 <= j < |script| && SavesAt(t, script, j) && j > 0 {
      assert SavesAt(t', rest, j - 1);
    }
  }

  /** A key that is gone leaves the disk with the first snapshot. */
  lemma {:induction false} GoneFromDisk(t: Table, committed: Table, script: Script, key: string)
    requires key !in t && NeverPuts(script, key)
    ensures key in LastCommitted(t, committed, script) <==> key in committed && !Saves(t, script)
    decreases |script|
  {
    if script != [] {
      var (op, fate) := script[0];
      var t' := Next(t, op);
      assert !PutsKey(op, key);
      SavesStep(t, script);
      GoneFromDisk(t', if Changes(t, op) && fate.Succeeds? then t' else committed, script[1..], key);
    }
  }

  /** The key stays in the table throughout. */
  ghost predicate Keeps(t: Table, script: Script, key: string) {
    forall j :: 0 <= j <= |script| ==> key in RunMap(t, script[..j])
  }

  lemma KeepsStep(t: Table, script: Script, key: string)
    requires script != [] && Keeps(t, script, key)
    ensures key in t && Keeps(Next(t, script[0].0), script[1..], key)
  {
    assert script[..0] == [];
    assert RunMap(t, script[..0]) == t;
    forall j | 0 <= j <= |script[1..]| ensures key in RunMap(Next(t, script[0].0), script[1..][..j]) {
      assert script[..j + 1][0] == script[0] && script[..j + 1][1..] == script[1..][..j];
      assert key in RunMap(t, script[..j + 1]);
    }
  }

  ghost predicate Has(t: Table, key: string, row: Row) {
    key in t && t[key] == row
  }

  /** A row that stays gets onto the disk with the first snapshot. */
  lemma {:induction false} KeptOnDisk(t: Table, committed: Table, script: Script, key: string, row: Row)
    requires Has(t, key, row) && NeverPuts(script, key) && Keeps(t, script, key)
    ensures Has(LastCommitted(t, committed, script), key, row) <==> Has(committed, key, row) || Saves(t, script)
    decreases |script|
  {
    if script != [] {
      var (op, fate) := script[0];
      var t' := Next(t, op);
      assert !PutsKey(op, key);
      SavesStep(t, script);
      KeepsStep(t, script, key);
      assert script[1..][..0] == [] && key in RunMap(t', script[1..][..0]);
      KeptOnDisk(t', if Changes(t, op) && fate.Succeeds? then t' else committed, script[1..], key, row);
    }
  }

  lemma {:induction false} RunParts(g: Format, s: Store, script: Script, i: nat)
    requires i <= |script|
    ensures Run(g, s, script) == Run(g, Run(g, s, script[..i]), script[i..])
    ensures RunMap(s.rows, script) == RunMap(RunMap(s.rows, script[..i]), script[i..])
    ensures Run(g, s, script[..i]).rows == RunMap(s.rows, script[..i])
    decreases |script|
  {
    if i == 0 {
      assert script[..0] == [] && script[0..] == script;
    } else {
      assert script[..i][0] == script[0] && script[..i][1..] == script[1..][..i - 1] && script[1..][i - 1..] == script[i..];
      RunParts(g, Apply(g, s, script[0].0, script[0].1), script[1..], i - 1);
    }
  }

  lemma SavesFrom(g: Format, s: Store, script: Script, i: nat)
    requires i <= |script|
    ensures Saves(Run(g, s, script[..i]).rows, script[i..]) <==> exists j :: i <= j < |script| && SavesAt(s.rows, script, j)
  {
    RunParts(g, s, script, i);
    var t := Run(g, s, script[..i]).rows;
    forall j | i <= j < |script| ensures SavesAt(s.rows, script, j) <==> SavesAt(t, script[i..], j - i) {
      assert script[..j][..i] == script[..i] && script[..j][i..] == script[i..][..j - i];
      RunParts(g, s, script[..j], i);
    }
    hide SavesAt, Changes, Run;
    if j :| i <= j < |script| && SavesAt(s.rows, script, j) {
      assert SavesAt(t, script[i..], j - i);
    }
    if k :| 0 <= k < |script[i..]| && SavesAt(t, script[i..], k) {
      assert SavesAt(s.rows, script, k + i);
    }
  }

  /**
   A removal survives a restart exactly if some operation from it on changed the table and reported
   success: until then the snapshot that still has the row is the one a restart loads.
   */
  lemma RemovalSurvives(g: Format, s: Store, script: Script, i: nat, key: string)
    requires FormatRoundTrips(g) && Consistent(g, s) && i < |script|
    requires key in Run(g, s, script[..i]).committed && key !in Next(Run(g, s, script[..i]).rows, script[i].0)
    requires NeverPuts(script[i + 1..], key)
    ensures var found := Load(g, Run(g, s, script).files);
            found.Some? && (key !in found.value <==> exists j :: i <= j < |script| && SavesAt(s.rows, script, j))
  {
    FileRefinesMap(g, s, script);
    RunParts(g, s, script, i);
    var at, rest := Run(g, s, script[..i]), script[i..];
    RunCommitted(g, at, rest);
    SavesFrom(g, s, script, i);
    SavesStep(at.rows, rest);
    assert rest[0] == script[i] && rest[1..] == script[i + 1..];
    var t' := Next(at.rows, rest[0].0);
    var saved := Changes(at.rows, rest[0].0) && rest[0].1.Succeeds?;
    GoneFromDisk(t', if saved then t' else at.committed, rest[1..], key);
  }

  /** A row put in the table, and left there, survives a restart exactly if some operation from then on reported a change saved. */
  lemma PutSurvives(g: Format, s: Store, script: Script, i: nat, key: string, row: Row)
    requires FormatRoundTrips(g) && Consistent(g, s) && i < |script|
    requires script[i].0 == Op.Put(key, row.session, row.createdAt)
    requires !Has(Run(g, s, script[..i]).committed, key, row)
    requires NeverPuts(script[i + 1..], key) && Keeps(RunMap(s.rows, script[..i + 1]), script[i + 1..], key)
    ensures var found := Load(g, Run(g, s, script).files);
            found.Some? && (Has(found.value, key, row) <==> exists j :: i <= j < |script| && SavesAt(s.rows, script, j))
  {
    FileRefinesMap(g, s, script);
    RunParts(g, s, script, i);
    var at, rest := Run(g, s, script[..i]), script[i..];
    RunCommitted(g, at, rest);
    SavesFrom(g, s, script, i);
    SavesStep(at.rows, rest);
    assert rest[0] == script[i] && rest[1..] == script[i + 1..];
    assert script[..i + 1] == script[..i] + [script[i]];
    RunMapSnoc(s.rows, script[..i], script[i]);
    var t' := Next(at.rows, rest[0].0);
    KeptOnDisk(t', if rest[0].1.Succeeds? then t' else at.committed, rest[1..], key, row);
  }

  /** A deletion whose snapshot fails is undone by a restart: the row is back. */
  lemma DeletionLost(g: Format, key: string, session: Session, now: Time)
    requires FormatRoundTrips(g)
    ensures var empty := Store(map[], Files(None, None), map[], false);
            var script := [(Op.Put(key, session, now), Succeeds), (Op.Delete(key), CreateFails)];
            && key !in Run(g, empty, script).rows
            && Load(g, Run(g, empty, script).files) == Some(map[key := Row(session, now)])
  {
    var empty := Store(map[], Files(None, None), map[], false);
    var put: (Op, Fate) := (Op.Put(key, session, now), Succeeds);
    var delete: (Op, Fate) := (Op.Delete(key), CreateFails);
    var stored := Apply(g, empty, put.0, put.1);
    assert Load(g, stored.files) == Some(stored.rows) by { ApplyConsistent(g, empty, put.0, put.1); }
    assert [put, delete][1..] == [delete] && |[delete][1..]| == 0;
    assert Run(g, empty, [put, delete]) == Run(g, stored, [delete]) == Run(g, Apply(g, stored, delete.0, delete.1), []);
  }

  // ---- the class ----

  class FileBackend {
    const format: Format
    const dir: Directory
    var rows: Table
    ghost var committed: Table
    ghost var behind: bool

    constructor Fresh(format: Format, dir: Directory, rows: Table)
      ensures this.format == format && this.dir == dir
      ensures this.rows == rows && committed == rows && !behind
    {
      this.format := format;
      this.dir := dir;
      this.rows := rows;
      committed := rows;
      behind := false;
    }

    ghost function Abstract(): Store
      reads this, dir
    {
      Store(rows, dir.files, committed, behind)
    }

    /** `NewFileBackend`: loads the snapshot, an absent file being a fresh table; refuses one that does not decode. */
    static method Open(format: Format, dir: Directory) returns (b: Option<FileBackend>)
      ensures b.Some? <==> Load(format, dir.files).Some?
      ensures b.Some? ==> fresh(b.value) && b.value.dir == dir && b.value.format == format
                          && Consistent(format, b.value.Abstract()) && Some(b.value.rows) == Load(format, dir.files)
    {
      var loaded: Option<Table> := Some(map[]);
      if dir.files.main.Some? {
        loaded := format.decode(dir.files.main.value);
      }
      if loaded.None? {
        return None;
      }
      var made := new FileBackend.Fresh(format, dir, loaded.value);
      b := Some(made);
    }

    /** `snapshot`: create the temporary file, write it, close it, rename it into place. */
    method Snapshot(fate: Fate) returns (ok: bool)
      requires dir.Recorded()
      modifies dir, this`committed, this`behind
      ensures ok <==> fate.Succeeds?
      ensures dir.history == old(dir.history) + Trace(old(dir.files), format.encode(rows), fate)
      ensures dir.files == LastOf(old(dir.files), Trace(old(dir.files), format.encode(rows), fate)) && dir.Recorded()
      ensures if ok then committed == rows && !behind else committed == old(committed) && behind
    {
      behind := true;
      var main, bytes := dir.files.main, format.encode(rows);
      if fate.CreateFails? {
        return false;
      }
      dir.Become(Files(main, Some([])));
      var n := Written(bytes, fate);
      ghost var trace := Trace(old(dir.files), bytes, fate);
      for i := 0 to n
        modifies dir
        invariant dir.files == Files(main, Some(bytes[..i])) && dir.Recorded()
        invariant dir.history == old(dir.history) + trace[..i + 1]
      {
        dir.Become(Files(main, Some(bytes[..i + 1])));
      }
      if fate.WriteFails? || fate.CloseFails? || fate.RenameFails? {
        assert trace[..n + 1] == trace && trace[n] == dir.files;
        return false;
      }
      assert trace == trace[..n + 1] + [Files(Some(bytes), None)];
      dir.Become(Files(Some(bytes), None));
      committed, behind := rows, false;
      ok := true;
    }

    method Put(key: string, s: Session, now: Time, fate: Fate) returns (ok: bool)
      requires dir.Recorded()
      modifies this, dir
      ensures dir.Recorded() && Abstract() == Apply(format, old(Abstract()), Op.Put(key, s, now), fate)
      ensures dir.history == old(dir.history) + OpTrace(format, old(Abstract()), Op.Put(key, s, now), fate)
      ensures ok <==> fate.Succeeds?
    {
      rows := rows[key := Row(s, now)];
      ok := Snapshot(fate);
    }

    method Get(key: string, now: Time) returns (r: Option<Session>)
      ensures Found(r) == Reply(rows, Op.Get(key, now))
    {
      if key !in rows || Expired(rows[key].session, now) {
        return None;
      }
      r := Some(rows[key].session);
    }

    method Delete(key: string, fate: Fate) returns (ok: bool)
      requires dir.Recorded()
      modifies this, dir
      ensures dir.Recorded() && Abstract() == Apply(format, old(Abstract()), Op.Delete(key), fate)
      ensures dir.history == old(dir.history) + OpTrace(format, old(Abstract()), Op.Delete(key), fate)
      ensures ok <==> key !in old(rows) || fate.Succeeds?
    {
      if key !in rows {
        assert rows - {key} == rows;
        return true;
      }
      rows := rows - {key};
      ok := Snapshot(fate);
    }

    method DeleteWhereSubject(subject: string, fate: Fate) returns (n: nat, ok: bool)
      requires dir.Recorded()
      modifies this, dir
      ensures dir.Recorded() && Abstract() == Apply(format, old(Abstract()), Op.DeleteWhereSubject(subject), fate)
      ensures dir.history == old(dir.history) + OpTrace(format, old(Abstract()), Op.DeleteWhereSubject(subject), fate)
      ensures Count(n) == Reply(old(rows), Op.DeleteWhereSubject(subject))
      ensures ok <==> n == 0 || fate.Succeeds?
    {
      assert OfSubject(rows, subject) == SelectRows(rows, (r: Row) => r.session.subject == subject);
      rows, n := DeleteMatching(rows, (r: Row) => r.session.subject == subject);
      ok := true;
      if n > 0 {
        ok := Snapshot(fate);
      }
    }

    method Sweep(now: Time, fate: Fate) returns (n: nat, ok: bool)
      requires dir.Recorded()
      modifies this, dir
      ensures dir.Recorded() && Abstract() == Apply(format, old(Abstract()), Op.Sweep(now), fate)
      ensures dir.history == old(dir.history) + OpTrace(format, old(Abstract()), Op.Sweep(now), fate)
      ensures Count(n) == Reply(old(rows), Op.Sweep(now))
      ensures ok <==> n == 0 || fate.Succeeds?
    {
      assert ExpiredKeys(rows, now) == SelectRows(rows, (r: Row) => Expired(r.session, now));
      rows, n := DeleteMatching(rows, (r: Row) => Expired(r.session, now));
      ok := true;
      if n > 0 {
        ok := Snapshot(fate);
      }
    }
  }
}
