/** Delete after forward (core-service/internal/app/forward.go, `deleteForwarded`, and
    file_cleanup.go): what a run of a forward job does to the library and to the files on disk. */
module ForwardFiles {
  import opened ForwardDelivery
  import opened ForwardAgreement
  import Files = FileCleanup

  /** The library after a run of a job with this record: its row is deleted if the run said so,
      unless it is gone or has another path by now. */
  ghost predicate Recorded(s: Files.State, t: Files.State, after: Job, record: nat, key: Files.Aliases) {
    t == s || (after.at.deleted && Files.Step(s, Files.Delete({record}), t, key))
  }

  /** ... and after the drain that follows, committed or cut off. */
  ghost predicate Drained(t: Files.State, u: Files.State, key: Files.Aliases) {
    Files.Step(t, Files.DrainCut, u, key) || exists fails :: Files.Step(t, Files.Drain(fails), u, key)
  }

  /** For every run, every answer and every drain: the job's row leaves the library only with every
      destination sent, backed by an accepted request or an operator; every other row stays, and so
      does its stored file, also if it is the same file. */
  lemma DeletedOnlyWhenSent(j: Job, limit: nat, oracle: Oracle, s: Files.State, t: Files.State, u: Files.State,
                            record: nat, key: Files.Aliases, row: Files.Row)
    requires AllVouched(j.dests) && !HasUncertain(j.dests) && !j.at.deleted && Files.Sound(s, key) && row in s.rows
    requires Recorded(s, t, Run(j, limit, oracle).0, record, key) && Drained(t, u, key)
    ensures var k := Run(j, limit, oracle).0;
            && (row !in u.rows ==> row.id == record && AllForwarded(k.dests) && AllVouched(k.dests))
            && (row in u.rows && row.stored && Files.MediaName(row.path).Some? ==>
                  key(Files.MediaName(row.path).value) in u.disk)
  {
    var k := Run(j, limit, oracle).0;
    RunAgrees(j, limit, oracle);
    if t != s {
      Files.StepSound(s, Files.Delete({record}), t, key);
      Files.RemainingRows(s.rows, {record}, row);
    }
    DrainKeepsRows(t, u, key);
    Files.DrainSound(t, u, key);
    if row in u.rows {
      var n :| 0 <= n < |u.rows| && u.rows[n] == row;
      assert Files.MediaName(row.path).Some? ==>
               Files.LeadsTo(u.rows[n].path, key, key(Files.MediaName(row.path).value));
    }
  }

  lemma DrainKeepsRows(t: Files.State, u: Files.State, key: Files.Aliases)
    requires Drained(t, u, key)
    ensures u.rows == t.rows && (Files.Cut(t, u, key) || exists fails :: Files.Drained(t, u, key, fails))
  {
    if !Files.Step(t, Files.DrainCut, u, key) {
      var fails :| Files.Step(t, Files.Drain(fails), u, key);
      assert Files.Drained(t, u, key, fails);
    }
  }

  /** When the row was deleted and no other row leads to its file, a drain that nothing hinders
      removes the file. */
  lemma UnusedFileGoes(s: Files.State, t: Files.State, u: Files.State, record: nat, key: Files.Aliases, row: Files.Row)
    requires row in s.rows && row.id == record && Files.MediaName(row.path).Some?
    requires Files.Step(s, Files.Delete({record}), t, key) && Files.Step(t, Files.Drain({}), u, key)
    requires forall other :: other in s.rows && other.id != record ==>
               !Files.LeadsTo(other.path, key, key(Files.MediaName(row.path).value))
    ensures key(Files.MediaName(row.path).value) !in u.disk
  {
    var file := key(Files.MediaName(row.path).value);
    var n :| 0 <= n < |s.rows| && s.rows[n] == row;
    assert row.path != "";
    assert s.rows[n].path in Files.PathsOf(s.rows, {record}, false);
    assert row.path in t.outbox;
    if Files.Referenced(t.rows, key, file) {
      var k :| 0 <= k < |t.rows| && Files.LeadsTo(t.rows[k].path, key, file);
      Files.RemainingRows(s.rows, {record}, t.rows[k]);
    }
  }
}
