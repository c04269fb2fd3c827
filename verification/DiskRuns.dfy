/** The machine's table and disk against the file backend's own specification. */
module DiskRuns {
  import opened Sessions
  import opened Grants
  import opened Sidecar
  import opened OpaqueTokens
  import FileBackend

  /** The operations a run performs on the table, in order, with the fates of their snapshots. */
  function Script(w: World, s: State, es: seq<Event>): FileBackend.Script
    decreases |es|
  {
    if es == [] then []
    else
      var rest := Script(w, Step(w, s, es[0]), es[1..]);
      match TableOp(w, s, es[0])
      case Some(op) => [(op, if SnapshotSucceeds(es[0]) then FileBackend.Succeeds else FileBackend.RenameFails)] + rest
      case None => rest
  }

  /**
   Between restarts, the table is what the run's operations make of it, and the disk holds the table of
   the last snapshot the file backend completes over just these operations.
   */
  lemma {:induction false} DiskIsCommitted(w: World, s: State, es: seq<Event>)
    requires AllowedRun(w, s, es) && NoRestart(es)
    ensures Run(w, s, es).table == FileBackend.RunMap(s.table, Script(w, s, es))
    ensures Run(w, s, es).disk == FileBackend.LastCommitted(s.table, s.disk, Script(w, s, es))
    decreases |es|
  {
    hide Step, Allowed, TableOp, Next, Changes;
    if es != [] {
      StepTable(w, s, es[0]);
      DiskIsCommitted(w, Step(w, s, es[0]), es[1..]);
      if TableOp(w, s, es[0]).Some? {
        assert Script(w, s, es)[1..] == Script(w, Step(w, s, es[0]), es[1..]);
      }
    }
  }
}
