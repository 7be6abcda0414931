/** At most one copy per destination over every run of the queue (core-service/internal/app/forward.go):
    when exactly the bound holds, what keeps it without an operator, and the runs that break it. */
module ForwardOnce {
  import opened ForwardDelivery
  import opened ForwardAgreement
  import opened ForwardBound
  import opened ForwardSafety
  import opened ForwardSnapshot
  import opened ForwardQueue

  // ---- The bound, exactly, in every run ----

  ghost predicate OneCopyEach(q: Queue) {
    forall id :: id in q.rows ==> AllAtMostOne(q.rows[id].dests)
  }

  /** The requests for destination k that the interrupted run had made when the process died. */
  function MadeBeforeDeath(q: Queue, id: nat, floodAttempts: nat, oracle: Oracle, death: Death, k: nat): History
    requires id in q.rows && k < |SavedDests(q.rows[id])| &&
             Grown(SavedDests(q.rows[id]), InFlight(q, id, floodAttempts, oracle))
  {
    var before, after := SavedDests(q.rows[id])[k].history, InFlight(q, id, floodAttempts, oracle)[k].history;
    var cut := |before| + death.made(id, k);
    if cut < |after| then after[..cut] else after
  }

  /** A run that a death interrupts had broken the bound before it. */
  ghost predicate DeathBreaks(q: Queue, id: nat, floodAttempts: nat, oracle: Oracle, death: Death)
    requires id in q.rows
  {
    && Grown(SavedDests(q.rows[id]), InFlight(q, id, floodAttempts, oracle))
    && exists k ::
         0 <= k < |SavedDests(q.rows[id])| && !AtMostOne(MadeBeforeDeath(q, id, floodAttempts, oracle, death, k))
  }

  /** A worker's run breaks the bound in this step, or had when this restart interrupted it. */
  ghost predicate StepBreaks(q: Queue, s: Step) {
    match s
    case DoRun(w, floodAttempts, oracle) =>
      w in q.workers && q.workers[w] in q.rows && RunBreaks(LoadJob(q.rows[q.workers[w]]), floodAttempts, oracle)
    case DoRestart(floodAttempts, oracles, death) =>
      exists id :: id in q.workers.Values && id in q.rows && DeathBreaks(q, id, floodAttempts, oracles(id), death)
    case _ => false
  }

  lemma SavedBound(row: Row)
    requires AllAtMostOne(row.dests)
    ensures AllAtMostOne(SavedDests(row))
  {
  }

  lemma RecordExactly(row: Row, floodAttempts: nat, oracle: Oracle)
    requires AllAtMostOne(row.dests)
    ensures AllAtMostOne(RunRecord(row, floodAttempts, oracle).dests) <==>
              !RunBreaks(LoadJob(row), floodAttempts, oracle)
  {
    SavedBound(row);
    RunBreaksExactly(LoadJob(row), floodAttempts, oracle);
  }

  /** The direct forward asks once per destination: nothing can break the bound. */
  lemma {:induction false} DirectBound(j: Job, i: nat, oracle: Oracle)
    requires i <= |j.dests| && DirectLoop(j.dests, i)
    ensures AllAtMostOne(DirectNow(j, i, oracle).0.dests)
    decreases |j.dests| - i
  {
    if i < |j.dests| && !(j.dests[i].settings.custom && j.dests[i].settings.captionError) {
      var a := oracle(j.at.tick);
      var (k, move) := DirectStep(j, i, a);
      if move.Go? {
        DirectGoesOn(j.dests, i, a.reply);
        DirectBound(k, i + 1, oracle);
      } else if a.gate == Open {
        DirectRefused(j.dests, i, a.reply);
        StoppedAtMostOne(k.dests, i, j.dests[i], a.reply);
      }
    }
  }

  lemma DirectRowBound(row: Row, oracle: Oracle, ingest: Ingest)
    requires row.dests == []
    ensures AllAtMostOne(DirectRun(LoadJob(row), oracle, ingest).0.dests)
  {
    DirectBound(LoadJob(row), 0, oracle);
  }

  /** What a death cuts: the bound of a destination is that of the requests made before it. */
  lemma CutExactly(q: Queue, id: nat, floodAttempts: nat, oracle: Oracle, death: Death)
    requires id in q.rows && Grown(SavedDests(q.rows[id]), InFlight(q, id, floodAttempts, oracle))
    ensures AllAtMostOne(CutAll(SavedDests(q.rows[id]), InFlight(q, id, floodAttempts, oracle), id, death)) <==>
              !DeathBreaks(q, id, floodAttempts, oracle, death)
  {
    var before, after := SavedDests(q.rows[id]), InFlight(q, id, floodAttempts, oracle);
    forall k | 0 <= k < |before|
      ensures CutAll(before, after, id, death)[k].history == MadeBeforeDeath(q, id, floodAttempts, oracle, death, k)
    {
      assert CutAll(before, after, id, death)[k] ==
               CutDest(before[k], after[k], |before[k].history| + death.made(id, k), death.saved(id, k));
    }
  }

  /** A death cuts a broken history only out of a run that would have broken the bound. */
  lemma DeathBreaksOnlyIfRunDoes(q: Queue, id: nat, floodAttempts: nat, oracle: Oracle, death: Death)
    requires OneCopyEach(q) && id in q.workers.Values && id in q.rows
    ensures DeathBreaks(q, id, floodAttempts, oracle, death) ==> RunBreaks(LoadJob(q.rows[id]), floodAttempts, oracle)
  {
    if DeathBreaks(q, id, floodAttempts, oracle, death) && !RunBreaks(LoadJob(q.rows[id]), floodAttempts, oracle) {
      RecordExactly(q.rows[id], floodAttempts, oracle);
      CutSafe(SavedDests(q.rows[id]), InFlight(q, id, floodAttempts, oracle), id, death);
      CutExactly(q, id, floodAttempts, oracle, death);
    }
  }

  lemma RestartedRowExactly(q: Queue, id: nat, floodAttempts: nat, oracle: Oracle, death: Death)
    requires QueueAgrees(q) && OneCopyEach(q) && id in q.rows
    ensures AllAtMostOne(RestartedRow(q, id, floodAttempts, oracle, death).dests) <==>
              !(id in q.workers.Values && DeathBreaks(q, id, floodAttempts, oracle, death))
  {
    var row := q.rows[id];
    SavedBound(row);
    if row.status == RowProcessing {
      InFlightGrows(q, id, floodAttempts, oracle);
      CutExactly(q, id, floodAttempts, oracle, death);
      if id !in q.workers.Values {
        if id in q.direct {
          DirectRowBound(row, oracle, Abandoned);
        }
        CutSafe(SavedDests(row), InFlight(q, id, floodAttempts, oracle), id, death);
      }
    }
  }

  lemma RestartExactly(q: Queue, s: Step)
    requires QueueAgrees(q) && OneCopyEach(q) && s.DoRestart?
    ensures OneCopyEach(Stepped(q, s)) <==> !StepBreaks(q, s)
  {
    forall id | id in q.rows
      ensures AllAtMostOne(Stepped(q, s).rows[id].dests) <==>
                !(id in q.workers.Values && DeathBreaks(q, id, s.floodAttempts, s.oracles(id), s.death))
    {
      RestartedRowExactly(q, id, s.floodAttempts, s.oracles(id), s.death);
    }
  }

  /** Operator actions and claims ask for nothing. */
  lemma HistoriesStay(row: Row, target: Target, sent: bool)
    requires AllAtMostOne(row.dests)
    ensures AllAtMostOne(Reconciled(row, target, sent).dests) && AllAtMostOne(Retried(row).dests)
  {
    SavedBound(row);
    assert AllAtMostOne(Doubted(SavedDests(row)));
  }

  /** A step that can change the destinations of a row already there. */
  predicate MovesRows(s: Step) {
    s.DoRun? || s.DoRestart? || s.DoReconcile? || s.DoDirect?
  }

  lemma OthersStay(q: Queue, s: Step, id: nat)
    requires QueueAgrees(q) && !MovesRows(s) && id in q.rows
    ensures id in Stepped(q, s).rows && Stepped(q, s).rows[id].dests == q.rows[id].dests
  {
    if Makes(s) {
      OldRowStays(q, s, id);
    } else if s.DoClaim? || s.DoRelease? {
      StatusKeepsDests(q, s, id);
    }
  }

  lemma OldRowStays(q: Queue, s: Step, id: nat)
    requires QueueAgrees(q) && Makes(s) && id in q.rows
    ensures id in Stepped(q, s).rows && Stepped(q, s).rows[id] == q.rows[id]
  {
    assert q.nextId !in q.rows;
  }

  lemma StatusKeepsDests(q: Queue, s: Step, id: nat)
    requires (s.DoClaim? || s.DoRelease?) && id in q.rows
    ensures id in Stepped(q, s).rows && Stepped(q, s).rows[id].dests == q.rows[id].dests
  {
  }

  lemma NewRowsBound(q: Queue, s: Step, id: nat)
    requires QueueAgrees(q) && !MovesRows(s) && id in Stepped(q, s).rows && id !in q.rows
    ensures AllAtMostOne(Stepped(q, s).rows[id].dests)
  {
  }

  lemma OthersKeep(q: Queue, s: Step)
    requires QueueAgrees(q) && OneCopyEach(q) && !MovesRows(s)
    ensures OneCopyEach(Stepped(q, s))
  {
    forall id | id in Stepped(q, s).rows ensures AllAtMostOne(Stepped(q, s).rows[id].dests) {
      if id in q.rows {
        OthersStay(q, s, id);
      } else {
        NewRowsBound(q, s, id);
      }
    }
  }

  lemma QuietStepKeeps(q: Queue, s: Step)
    requires QueueAgrees(q) && OneCopyEach(q) && !s.DoRun? && !s.DoRestart?
    ensures OneCopyEach(Stepped(q, s))
  {
    if s.DoReconcile? {
      if s.id in q.rows {
        HistoriesStay(q.rows[s.id], s.target, s.sent);
      }
    } else if s.DoDirect? {
      if s.id in q.direct {
        assert Driven(q, s.id);
        DirectRowBound(q.rows[s.id], s.oracle, s.ingest);
      }
    } else {
      OthersKeep(q, s);
    }
  }

  /** A step breaks the bound exactly when `StepBreaks` says so. */
  lemma StepExactly(q: Queue, s: Step)
    requires QueueAgrees(q) && OneCopyEach(q)
    ensures OneCopyEach(Stepped(q, s)) <==> !StepBreaks(q, s)
  {
    if s.DoRestart? {
      RestartExactly(q, s);
    } else if s.DoRun? {
      if s.w in q.workers {
        assert Driven(q, q.workers[s.w]);
        RecordExactly(q.rows[q.workers[s.w]], s.floodAttempts, s.oracle);
        assert Stepped(q, s).rows[q.workers[s.w]] == RunRecord(q.rows[q.workers[s.w]], s.floodAttempts, s.oracle);
      }
    } else {
      QuietStepKeeps(q, s);
    }
  }

  // ---- No step forgets a request ----

  /** The requests of every row are still there. */
  ghost predicate RowGrew(row: Row, row': Row) {
    row.dests == [] || Grown(row.dests, row'.dests)
  }

  lemma RestartedRowGrows(q: Queue, id: nat, floodAttempts: nat, oracle: Oracle, death: Death)
    requires QueueAgrees(q) && id in q.rows
    ensures RowGrew(q.rows[id], RestartedRow(q, id, floodAttempts, oracle, death))
  {
    if q.rows[id].status == RowProcessing {
      InFlightGrows(q, id, floodAttempts, oracle);
    }
  }

  lemma ReconciledGrows(row: Row, target: Target, sent: bool)
    ensures RowGrew(row, Reconciled(row, target, sent))
  {
    if row.dests != [] && ReconcileAccepted(row, target, sent) {
      assert Grown(row.dests, Doubted(row.dests));
      assert Grown(Doubted(row.dests), ReconciledDests(row, target, sent));
      GrownOn(row.dests, Doubted(row.dests), ReconciledDests(row, target, sent));
    }
  }

  lemma RecordGrows(row: Row, floodAttempts: nat, oracle: Oracle)
    requires RowAgrees(row)
    ensures RowGrew(row, RunRecord(row, floodAttempts, oracle))
  {
    if row.dests != [] {
      RunGrows(LoadJob(row), floodAttempts, oracle);
    }
  }

  lemma RunStepGrows(q: Queue, s: Step, id: nat)
    requires QueueAgrees(q) && id in q.rows && s.DoRun?
    ensures id in Stepped(q, s).rows && RowGrew(q.rows[id], Stepped(q, s).rows[id])
  {
    if s.w in q.workers {
      RecordGrows(q.rows[q.workers[s.w]], s.floodAttempts, s.oracle);
    }
  }

  lemma OtherStepGrows(q: Queue, s: Step, id: nat)
    requires QueueAgrees(q) && id in q.rows && (s.DoDirect? || s.DoReconcile?)
    ensures id in Stepped(q, s).rows && RowGrew(q.rows[id], Stepped(q, s).rows[id])
  {
    if s.DoReconcile? {
      ReconciledGrows(q.rows[id], s.target, s.sent);
    } else {
      assert s.id in q.direct ==> q.rows[s.id].dests == [];
    }
  }

  lemma StepGrows(q: Queue, s: Step, id: nat)
    requires QueueAgrees(q) && id in q.rows
    ensures id in Stepped(q, s).rows && RowGrew(q.rows[id], Stepped(q, s).rows[id])
  {
    if s.DoRun? {
      RunStepGrows(q, s, id);
    } else if s.DoRestart? {
      RestartedRowGrows(q, id, s.floodAttempts, s.oracles(id), s.death);
    } else if MovesRows(s) {
      OtherStepGrows(q, s, id);
    } else {
      OthersStay(q, s, id);
    }
  }

  /** A bound that is broken stays broken. */
  lemma StepKeepsBroken(q: Queue, s: Step)
    requires QueueAgrees(q) && OneCopyEach(Stepped(q, s))
    ensures OneCopyEach(q)
  {
    forall id, k | id in q.rows && 0 <= k < |q.rows[id].dests| ensures AtMostOne(q.rows[id].dests[k].history) {
      StepGrows(q, s, id);
      BrokenStays(q.rows[id].dests[k].history, Stepped(q, s).rows[id].dests[k].history);
    }
  }

  /** No step of the run breaks the bound. */
  ghost predicate NeverBreaks(steps: seq<Step>) {
    steps == [] || (var before, s := steps[..|steps| - 1], steps[|steps| - 1];
                    NeverBreaks(before) && !StepBreaks(After(EMPTY, before), s))
  }

  /** At-most-once delivery, exactly: over every run of the queue, with operator actions, restarts at
      any request, caption edits and untrimmed settings, no destination of any job ever could hold two
      copies if and only if no worker's run made a request that breaks the bound. */
  lemma {:induction false} AtMostOneCopyExactly(steps: seq<Step>)
    ensures OneCopyEach(After(EMPTY, steps)) <==> NeverBreaks(steps)
  {
    if steps != [] {
      var before, s := steps[..|steps| - 1], steps[|steps| - 1];
      AtMostOneCopyExactly(before);
      RowsAlwaysAgree(before);
      if OneCopyEach(After(EMPTY, before)) {
        StepExactly(After(EMPTY, before), s);
      } else if OneCopyEach(After(EMPTY, steps)) {
        StepKeepsBroken(After(EMPTY, before), s);
      }
    }
  }

  // ---- What keeps the bound without operator action ----

  /** A worker's run in this step, or one that this restart interrupts, strays, ... */
  ghost predicate StepStrays(q: Queue, s: Step) {
    match s
    case DoRun(w, floodAttempts, oracle) =>
      w in q.workers && q.workers[w] in q.rows && RunStrays(LoadJob(q.rows[q.workers[w]]), floodAttempts, oracle)
    case DoRestart(floodAttempts, oracles, _) =>
      exists id :: id in q.workers.Values && id in q.rows && RunStrays(LoadJob(q.rows[id]), floodAttempts, oracles(id))
    case _ => false
  }

  /** ... or leaves a copy behind a record that the lookup does not find. */
  ghost predicate StepLeavesUnmarked(q: Queue, s: Step) {
    match s
    case DoRun(w, floodAttempts, oracle) =>
      w in q.workers && q.workers[w] in q.rows &&
      RunLeavesUnmarked(LoadJob(q.rows[q.workers[w]]), floodAttempts, oracle)
    case DoRestart(floodAttempts, oracles, _) =>
      exists id :: id in q.workers.Values && id in q.rows &&
              RunLeavesUnmarked(LoadJob(q.rows[id]), floodAttempts, oracles(id))
    case _ => false
  }

  /** A row of a run without operator action. */
  ghost predicate RowSafe(q: Queue, id: nat)
    requires id in q.rows
  {
    var row := q.rows[id];
    && AllAtMostOne(row.dests)
    && (row.status == RowPending || id in q.workers.Values ==> ClaimedClean(LoadJob(row)))
    && (id in q.direct ==> row.stage != CaptionEditFailed)
  }

  ghost predicate QueueSafe(q: Queue) {
    QueueAgrees(q) && forall id :: id in q.rows ==> RowSafe(q, id)
  }

  lemma FreshClean(config: Config, hasPath: bool)
    ensures RowClean(config, Fresh(config.routes), hasPath) && Untouched(Fresh(config.routes), 0)
  {
  }

  /** The rows that a death cuts keep the bound. */
  lemma CutSafe(before: seq<Dest>, after: seq<Dest>, id: nat, death: Death)
    requires Grown(before, after) && AllAtMostOne(after)
    ensures AllAtMostOne(CutAll(before, after, id, death))
  {
    var dests := CutAll(before, after, id, death);
    forall k | 0 <= k < |before| ensures AtMostOne(dests[k].history) {
      BrokenStays(dests[k].history, after[k].history);
    }
  }

  lemma InFlightSafe(q: Queue, id: nat, floodAttempts: nat, oracle: Oracle)
    requires QueueSafe(q) && id in q.rows &&
             (id in q.workers.Values ==> !RunStrays(LoadJob(q.rows[id]), floodAttempts, oracle))
    ensures AllAtMostOne(InFlight(q, id, floodAttempts, oracle))
    ensures AllAtMostOne(SavedDests(q.rows[id]))
  {
    var row := q.rows[id];
    assert RowSafe(q, id) && RowAgrees(row);
    FreshClean(row.config, row.hasPath);
    if id in q.workers.Values {
      RunSafe(LoadJob(row), floodAttempts, oracle);
    } else if id in q.direct {
      DirectRunSafe(LoadJob(row), oracle, Abandoned);
    }
  }

  lemma RestartedRowSafe(q: Queue, id: nat, floodAttempts: nat, oracle: Oracle, death: Death)
    requires QueueSafe(q) && id in q.rows &&
             (id in q.workers.Values ==> !RunStrays(LoadJob(q.rows[id]), floodAttempts, oracle))
    ensures var row := RestartedRow(q, id, floodAttempts, oracle, death);
            AllAtMostOne(row.dests) && (row.status == RowPending ==> row == q.rows[id])
  {
    var row := q.rows[id];
    assert RowSafe(q, id);
    InFlightSafe(q, id, floodAttempts, oracle);
    if row.status == RowProcessing && Grown(SavedDests(row), InFlight(q, id, floodAttempts, oracle)) {
      CutSafe(SavedDests(row), InFlight(q, id, floodAttempts, oracle), id, death);
    }
  }

  /** The rows a step does not touch stay safe. */
  lemma OthersSafe(q: Queue, q': Queue, id: nat)
    requires QueueSafe(q) && id in q'.rows && QueueAgrees(q')
    requires q'.rows == q.rows[id := q'.rows[id]] && RowSafe(q', id)
    requires forall w :: w in q'.workers && q'.workers[w] != id ==> w in q.workers && q'.workers[w] == q.workers[w]
    requires forall other :: other in q'.direct && other != id ==> other in q.direct
    ensures QueueSafe(q')
  {
    forall other | other in q'.rows ensures RowSafe(q', other) {
      if other != id {
        assert RowSafe(q, other) && q'.rows[other] == q.rows[other];
        if other in q'.workers.Values {
          var w :| w in q'.workers && q'.workers[w] == other;
          assert other in q.workers.Values;
        }
      }
    }
  }

  lemma InsertSafe(q: Queue, row: Row, direct: bool)
    requires QueueSafe(q) && RowAgrees(row) && AllAtMostOne(row.dests) && row.stage != CaptionEditFailed
    requires direct ==> row.status == RowProcessing && row.dests == [] && !row.deleted
    requires row.status == RowPending ==> ClaimedClean(LoadJob(row))
    ensures QueueSafe(Insert(q, row).(direct := if direct then q.direct + {q.nextId} else q.direct))
  {
    RowInserted(q, row, direct);
    var q' := Insert(q, row).(direct := if direct then q.direct + {q.nextId} else q.direct);
    assert q.nextId !in q.rows;
    OthersSafe(q, q', q.nextId);
  }

  lemma ClaimSafe(q: Queue, w: nat, due: set<nat>, id: nat, valid: bool)
    requires QueueSafe(q) && id in q.rows && ClaimTakes(q, due, id)
    ensures QueueSafe(Claim(q, w, id, valid))
  {
    ClaimAgrees(q, w, due, id, valid);
    IdleRow(q, id);
    var q' := Claim(q, w, id, valid);
    assert RowSafe(q, id);
    if q' != q {
      assert LoadJob(q'.rows[id]) == LoadJob(q.rows[id]);
      OthersSafe(q, q', id);
    }
  }

  lemma FreedSafe(q: Queue, w: nat, row: Row)
    requires QueueSafe(q) && w in q.workers && RowAgrees(row) && AllAtMostOne(row.dests)
    requires row.status == RowPending ==> ClaimedClean(LoadJob(row))
    ensures QueueSafe(Freed(q, w, row))
  {
    FreedAgrees(q, w, row);
    WorkerFreed(q, w);
    OthersSafe(q, Freed(q, w, row), q.workers[w]);
  }

  lemma ReleaseSafe(q: Queue, w: nat)
    requires QueueSafe(q) && w in q.workers
    ensures QueueSafe(Release(q, w))
  {
    ReleaseAgrees(q, w);
    var id := q.workers[w];
    assert id in q.workers.Values && RowSafe(q, id) && RowAgrees(q.rows[id]);
    var row := q.rows[id].(status := RowPending);
    assert LoadJob(row) == LoadJob(q.rows[id]);
    FreedSafe(q, w, row);
  }

  lemma FinishedSafe(q: Queue, w: nat, floodAttempts: nat, oracle: Oracle)
    requires QueueSafe(q) && w in q.workers && !RunStrays(LoadJob(q.rows[q.workers[w]]), floodAttempts, oracle)
    ensures QueueSafe(Finished(q, w, floodAttempts, oracle))
  {
    var id := q.workers[w];
    assert id in q.workers.Values && RowSafe(q, id) && RowAgrees(q.rows[id]) && Driven(q, id);
    RunRecordsSafe(q.rows[id], floodAttempts, oracle);
    FinishedRowAgrees(q.rows[id], floodAttempts, oracle);
    FreedSafe(q, w, RunRecord(q.rows[id], floodAttempts, oracle));
  }

  lemma RunRecordsSafe(row: Row, floodAttempts: nat, oracle: Oracle)
    requires ClaimedClean(LoadJob(row)) && !RunStrays(LoadJob(row), floodAttempts, oracle)
    ensures var after := RunRecord(row, floodAttempts, oracle);
            after.config == row.config && AllAtMostOne(after.dests) &&
            (after.status == RowPending ==> ClaimedClean(LoadJob(after)))
  {
    RunSafe(LoadJob(row), floodAttempts, oracle);
    FreshClean(row.config, row.hasPath);
  }

  lemma DirectFreedSafe(q: Queue, id: nat, row: Row)
    requires QueueSafe(q) && id in q.direct && RowAgrees(row) && AllAtMostOne(row.dests)
    requires row.status == RowPending ==> ClaimedClean(LoadJob(row))
    ensures QueueSafe(DirectFreed(q, id, row))
  {
    DirectFreedAgrees(q, id, row);
    forall w | w in q.workers ensures q.workers[w] != id {}
    OthersSafe(q, DirectFreed(q, id, row), id);
  }

  lemma DirectRecordsSafe(row: Row, oracle: Oracle, ingest: Ingest)
    requires row.dests == [] && row.stage != CaptionEditFailed
    ensures var after := DirectRecorded(row, oracle, ingest);
            after.config == row.config && AllAtMostOne(after.dests) &&
            (after.status == RowPending ==> ClaimedClean(LoadJob(after)))
  {
    FreshClean(row.config, row.hasPath);
    DirectRunSafe(LoadJob(row), oracle, ingest);
    FreshClean(row.config, true);
  }

  lemma EnqueueSafe(q: Queue, limit: nat, config: Config, manual: bool, hasPath: bool, hasRecord: bool)
    requires QueueSafe(q)
    ensures QueueSafe(Enqueue(q, limit, config, manual, hasPath, hasRecord))
  {
    FreshClean(config, hasPath);
    if |ActiveIds(q.rows)| < limit {
      InsertSafe(q, Row(config, RowPending, [], if manual then Available else Metadata, hasPath, hasRecord, 0, false),
                 false);
    }
  }

  lemma EnqueueScanSafe(q: Queue, limit: nat, config: Config)
    requires QueueSafe(q)
    ensures QueueSafe(EnqueueScan(q, limit, config))
  {
    FreshClean(config, false);
    FreshFacts(config.routes);
    if config.routes != [] {
      InsertSafe(q, Row(config, if |ActiveIds(q.rows)| >= limit then RowFailed else RowPending, Fresh(config.routes),
                        ScanDirect, false, false, 0, false), false);
    }
  }

  lemma ReserveSafe(q: Queue, limit: nat, config: Config)
    requires QueueSafe(q)
    ensures QueueSafe(Reserve(q, limit, config))
  {
    FreshClean(config, false);
    InsertSafe(q, Row(config, RowProcessing, [], NativeForward, false, false, 0, false), true);
  }

  lemma DirectFinishedSafe(q: Queue, id: nat, oracle: Oracle, ingest: Ingest)
    requires QueueSafe(q) && id in q.direct
    ensures QueueSafe(DirectFinished(q, id, oracle, ingest))
  {
    assert RowSafe(q, id) && RowAgrees(q.rows[id]) && Driven(q, id);
    DirectRecordsSafe(q.rows[id], oracle, ingest);
    DirectRowAgrees(q.rows[id], oracle, ingest);
    DirectFreedSafe(q, id, DirectRecorded(q.rows[id], oracle, ingest));
  }

  lemma PauseSafe(q: Queue, paused: bool)
    requires QueueSafe(q)
    ensures QueueSafe(q.(paused := paused))
  {
    assert forall id :: id in q.rows ==> RowSafe(q, id);
  }

  /** A step that is no operator action and does not stray keeps every row safe. */
  lemma StepSafe(q: Queue, s: Step)
    requires QueueSafe(q) && !ByOperator(s) && !StepStrays(q, s)
    ensures QueueSafe(Stepped(q, s))
  {
    match s
    case DoEnqueue(limit, source, manual, hasPath, hasRecord) =>
      EnqueueSafe(q, limit, Snapshot(source), manual, hasPath, hasRecord);
    case DoScan(limit, source) => EnqueueScanSafe(q, limit, Snapshot(source));
    case DoReserve(limit, source) => ReserveSafe(q, limit, Snapshot(source));
    case DoClaim(w, due, id, valid) =>
      if id in q.rows && ClaimTakes(q, due, id) {
        ClaimSafe(q, w, due, id, valid);
      }
    case DoRelease(w) =>
      if w in q.workers {
        ReleaseSafe(q, w);
      }
    case DoRun(w, floodAttempts, oracle) =>
      if w in q.workers {
        FinishedSafe(q, w, floodAttempts, oracle);
      }
    case DoDirect(id, oracle, ingest) =>
      if id in q.direct {
        DirectFinishedSafe(q, id, oracle, ingest);
      }
    case DoRestart(floodAttempts, oracles, death) => RestartSafe(q, floodAttempts, oracles, death);
    case DoPause(paused) => PauseSafe(q, paused);
  }

  lemma RestartSafe(q: Queue, floodAttempts: nat, oracles: nat -> Oracle, death: Death)
    requires QueueSafe(q) && !StepStrays(q, DoRestart(floodAttempts, oracles, death))
    ensures QueueSafe(Restarted(q, floodAttempts, oracles, death))
  {
    RestartAgrees(q, floodAttempts, oracles, death);
    var q' := Restarted(q, floodAttempts, oracles, death);
    forall id | id in q'.rows ensures RowSafe(q', id) {
      RestartedRowSafe(q, id, floodAttempts, oracles(id), death);
      assert RowSafe(q, id) && q'.rows[id] == RestartedRow(q, id, floodAttempts, oracles(id), death);
    }
  }

  /** A run without operator action in which no worker's run strays. */
  ghost predicate Unaided(steps: seq<Step>) {
    steps == [] || (var before, s := steps[..|steps| - 1], steps[|steps| - 1];
                    Unaided(before) && !ByOperator(s) && !StepStrays(After(EMPTY, before), s))
  }

  lemma {:induction false} RunsStaySafe(steps: seq<Step>)
    requires Unaided(steps)
    ensures QueueSafe(After(EMPTY, steps))
  {
    if steps != [] {
      RunsStaySafe(steps[..|steps| - 1]);
      StepSafe(After(EMPTY, steps[..|steps| - 1]), steps[|steps| - 1]);
    }
  }

  /** At-most-once delivery: in every run without operator action in which no worker's run strays,
      over all interleavings of workers, direct forwards, releases, pauses and restarts at any
      request, no destination of any job ever could hold two copies, and whatever is asked for while
      one could be there is an edit of it. */
  lemma AtMostOneCopy(steps: seq<Step>, id: nat, k: nat, n: nat)
    requires Unaided(steps)
    ensures var q := After(EMPTY, steps);
            id in q.rows && k < |q.rows[id].dests| ==>
              var h := q.rows[id].dests[k].history;
              n <= |h| ==> Copies(h[..n]) <= 1 && (n < |h| && !h[n].request.Edit? ==> Copies(h[..n]) == 0)
  {
    RunsStaySafe(steps);
    var q := After(EMPTY, steps);
    if id in q.rows && k < |q.rows[id].dests| && n <= |q.rows[id].dests[k].history| {
      assert RowSafe(q, id);
      AtMostOneAlways(q.rows[id].dests[k].history, n);
    }
  }

  /** A claimed row whose run does not stray: it leaves nothing unmarked, unresolved forwards name their
      message and, only if an unserved destination holds a copy, its edit goes through. */
  lemma NamedStepNeverStrays(q: Queue, w: nat, floodAttempts: nat, oracle: Oracle)
    requires QueueSafe(q) && w in q.workers && forall n: nat :: oracle(n).reply != Unresolved(0)
    requires !StepLeavesUnmarked(q, DoRun(w, floodAttempts, oracle))
    ensures EditsGoThrough(q.rows[q.workers[w]].dests, oracle(2)) ==> !StepStrays(q, DoRun(w, floodAttempts, oracle))
  {
    var id := q.workers[w];
    assert id in q.workers.Values && RowSafe(q, id);
    if EditsGoThrough(q.rows[id].dests, oracle(2)) {
      NamedRunsNeverStray(LoadJob(q.rows[id]), floodAttempts, oracle);
    }
  }

  // ---- Queues without caption edits ----

  /** The step's new row, if any, needs no caption edits. */
  ghost predicate PlainStep(s: Step) {
    Makes(s) ==> PlainConfig(Snapshot(s.source))
  }

  predicate PlainConfig(c: Config) {
    forall k :: 0 <= k < |c.routes| ==> !(c.routes[k].custom && c.DirectCaptions())
  }

  ghost predicate AllPlain(q: Queue) {
    forall id :: id in q.rows ==> PlainConfig(q.rows[id].config)
  }

  /** No worker's run leaves a copy behind a record that the lookup does not find. */
  ghost predicate AllMarked(steps: seq<Step>) {
    steps == [] || (var before, s := steps[..|steps| - 1], steps[|steps| - 1];
                    AllMarked(before) && !StepLeavesUnmarked(After(EMPTY, before), s))
  }

  lemma PlainRowNeverStrays(q: Queue, id: nat, floodAttempts: nat, oracle: Oracle)
    requires QueueSafe(q) && AllPlain(q) && id in q.rows && id in q.workers.Values
    requires !RunLeavesUnmarked(LoadJob(q.rows[id]), floodAttempts, oracle)
    ensures !RunStrays(LoadJob(q.rows[id]), floodAttempts, oracle)
  {
    assert RowSafe(q, id) && RowAgrees(q.rows[id]) && PlainConfig(q.rows[id].config);
    FreshFacts(q.rows[id].config.routes);
    PlainRunsNeverStray(LoadJob(q.rows[id]), floodAttempts, oracle);
  }

  lemma PlainStepNeverStrays(q: Queue, s: Step)
    requires QueueSafe(q) && AllPlain(q) && !StepLeavesUnmarked(q, s)
    ensures !StepStrays(q, s)
  {
    match s
    case DoRun(w, floodAttempts, oracle) =>
      if w in q.workers {
        assert q.workers[w] in q.workers.Values && Driven(q, q.workers[w]);
        PlainRowNeverStrays(q, q.workers[w], floodAttempts, oracle);
      }
    case DoRestart(floodAttempts, oracles, _) =>
      forall id | id in q.workers.Values && id in q.rows
        ensures !RunStrays(LoadJob(q.rows[id]), floodAttempts, oracles(id)) {
        PlainRowNeverStrays(q, id, floodAttempts, oracles(id));
      }
    case _ =>
  }

  lemma {:induction false} PlainRunsAreUnaided(steps: seq<Step>)
    requires AllMarked(steps) && forall m :: 0 <= m < |steps| ==> !ByOperator(steps[m]) && PlainStep(steps[m])
    ensures Unaided(steps) && AllPlain(After(EMPTY, steps))
  {
    if steps != [] {
      var before, s := steps[..|steps| - 1], steps[|steps| - 1];
      PlainRunsAreUnaided(before);
      RunsStaySafe(before);
      PlainStepNeverStrays(After(EMPTY, before), s);
      StepConfigs(After(EMPTY, before), s);
    }
  }

  /** Without caption edits at-most-once delivery rests on one thing: that no answer leaves a copy
      behind a record that the lookup does not find. */
  lemma AtMostOneCopyWithoutEdits(steps: seq<Step>, id: nat, k: nat, n: nat)
    requires AllMarked(steps) && forall m :: 0 <= m < |steps| ==> !ByOperator(steps[m]) && PlainStep(steps[m])
    ensures var q := After(EMPTY, steps);
            id in q.rows && k < |q.rows[id].dests| ==>
              var h := q.rows[id].dests[k].history;
              n <= |h| ==> Copies(h[..n]) <= 1 && (n < |h| ==> Copies(h[..n]) == 0 || h[n].request.Edit?)
  {
    PlainRunsAreUnaided(steps);
    AtMostOneCopy(steps, id, k, n);
  }

  // ---- Queues whose lookups find every record ----

  /** The step's source is no untrimmed setting without a route list. */
  predicate Tidy(s: Step) {
    Makes(s) ==> !Untrimmed(s.source.setting)
  }

  ghost predicate AllTidy(q: Queue) {
    forall id :: id in q.rows ==> Indexed(q.rows[id].config)
  }

  lemma TidyRowMarks(row: Row, floodAttempts: nat, oracle: Oracle)
    requires RowAgrees(row) && Indexed(row.config)
    ensures !RunLeavesUnmarked(LoadJob(row), floodAttempts, oracle)
  {
    FreshFacts(row.config.routes);
    IndexedRunsMark(LoadJob(row), floodAttempts, oracle);
  }

  lemma TidyStepMarks(q: Queue, s: Step)
    requires QueueAgrees(q) && AllTidy(q)
    ensures !StepLeavesUnmarked(q, s)
  {
    forall id, floodAttempts, oracle | id in q.rows
      ensures !RunLeavesUnmarked(LoadJob(q.rows[id]), floodAttempts, oracle) {
      assert RowAgrees(q.rows[id]);
      TidyRowMarks(q.rows[id], floodAttempts, oracle);
    }
  }

  /** Jobs from other settings than untrimmed ones leave nothing unmarked, whatever is answered: for
      them, without caption edits, at-most-once delivery rests on nothing else. */
  lemma {:induction false} TidyRunsMark(steps: seq<Step>)
    requires forall m :: 0 <= m < |steps| ==> Tidy(steps[m])
    ensures AllMarked(steps) && AllTidy(After(EMPTY, steps))
  {
    if steps != [] {
      var before, s := steps[..|steps| - 1], steps[|steps| - 1];
      TidyRunsMark(before);
      RowsAlwaysAgree(before);
      TidyStepMarks(After(EMPTY, before), s);
      StepConfigs(After(EMPTY, before), s);
      if Makes(s) {
        SnapshotIndexed(s.source);
      }
    }
  }

  // ---- Runs that send again ----

  /** A job with one destination that still has to be sent. */
  predicate OneDest(j: Job) {
    && |j.config.routes| == 1 && |j.dests| == 1 && !Served(j.dests[0]) && !j.dests[0].settings.captionError
    && j.config.enabled && j.at.stage != CaptionEditFailed
    && !j.at.cancelled && !j.at.waitForEngine && !j.at.retryBeforeSend && !j.at.noAutoRetry
  }

  /** Its media is at hand, or can be fetched. */
  predicate HasMedia(j: Job) {
    j.at.hasPath || (j.config.hasMessage && j.config.hasSource)
  }

  predicate OneUpload(j: Job)
    requires |j.dests| == 1
  {
    j.at.hasPath || UploadOnly(j.config, j.at.stage, j.dests[0].settings)
  }

  /** The job at its delivery, when nothing stops it before. */
  function Begun(j: Job, oracle: Oracle): Job
    requires |j.dests| == 1
  {
    var p := Asked(j.at, oracle(j.at.tick));
    var started := j.(attempts := j.attempts + 1);
    if !OneUpload(j) then started.(at := p.(stage := NativeForward))
    else if j.at.hasPath then started.(at := p.(stage := UploadStage))
    else started.(at := DownloadStep(j.config, p, oracle(p.tick)).0.(stage := UploadStage))
  }

  predicate Unstopped(j: Job, oracle: Oracle)
    requires |j.dests| == 1
  {
    && oracle(j.at.tick).config && oracle(j.at.tick).live && oracle(j.at.tick).access == Free
    && (OneUpload(j) && !j.at.hasPath ==> oracle(j.at.tick + 1).download)
  }

  /** The run of such a job is its one delivery and the bookkeeping after it. */
  lemma RunOfOne(j: Job, limit: nat, oracle: Oracle)
    requires OneDest(j) && HasMedia(j) && Unstopped(j, oracle)
    ensures var begun := Begun(j, oracle);
            var (k, ok) := Serve(begun, 0, limit, oracle);
            Run(j, limit, oracle) == if ok then Settle(k.(at := k.at.(stage := Complete)), RowForwarded)
            else Settle(k, RowFailed)
  {
    var begun := Begun(j, oracle);
    var asked := j.(attempts := j.attempts + 1, at := Asked(j.at, oracle(j.at.tick)));
    assert NeedsUpload(j.config, j.at.stage, j.dests) == UploadOnly(j.config, j.at.stage, j.dests[0].settings);
    assert Body(j.(attempts := j.attempts + 1), limit, oracle) == Prepared(asked, limit, oracle);
    assert Prepared(asked, limit, oracle) == Deliver(begun, 0, limit, oracle);
    var (k, ok) := Serve(begun, 0, limit, oracle);
    if ok {
      assert Deliver(k, 1, limit, oracle) == (k.(at := k.at.(stage := Complete)), RowForwarded);
    }
  }

  /** Nothing hinders such a job; `reply` answers its request, while the context may end. */
  function Unhindered(reply: Reply, dies: bool): Oracle {
    n => Answer(true, true, Free, Open, reply, true, true, dies)
  }

  /** The request of an unhindered delivery. */
  function OnlyRequest(c: Config, l: Leg): Request {
    if NativeApplies(c, l.d.settings, l.p) then RequestOf(c, l) else Upload
  }

  /** The request went out and nothing but its answer, and the end of the context, is noted. */
  predicate Noted(before: Leg, request: Request, reply: Reply, dies: bool, after: Leg) {
    && after.d.history == Sent(before.d, request, reply).history && after.d.settings == before.d.settings
    && (!reply.Accepted? ==> after.d.messageId == before.d.messageId)
    && (reply.Lost? && (!before.d.settings.indexed || (request.Upload? && dies)) ==> after.d.status == before.d.status)
    && after.p.cancelled == (before.p.cancelled || dies) && after.p.waitForEngine == before.p.waitForEngine
    && after.p.retryBeforeSend == before.p.retryBeforeSend && after.p.noAutoRetry == before.p.noAutoRetry
    && after.p.stage == before.p.stage && after.p.hasPath == before.p.hasPath
  }

  lemma OneSent(c: Config, l: Leg, deleteAfter: bool, limit: nat, reply: Reply, dies: bool)
    requires !l.d.settings.captionError && (reply.Lost? || reply.Accepted?) && PlainStage(l.p)
    ensures var (k, ok) := ToRoute(c, l, deleteAfter, limit, Unhindered(reply, dies));
            Noted(l, OnlyRequest(c, l), reply, dies, k) && (ok <==> reply.Accepted?)
  {
    var o := Unhindered(reply, dies);
    var checked := l.(p := Asked(l.p, o(l.p.tick)));
    if NativeApplies(c, l.d.settings, l.p) {
      OneForwardSent(c, checked, reply, dies);
      NativeReached(c, l, deleteAfter, limit, o);
      AskedSame(c, l, o(0), o(0), 0, o);
    } else {
      OneUploadSent(checked, deleteAfter, limit, reply, dies);
    }
  }

  lemma OneForwardSent(c: Config, l: Leg, reply: Reply, dies: bool)
    requires !l.d.settings.captionError && (reply.Lost? || reply.Accepted?) && !l.p.hasPath
    ensures var (k, next) := NativeStep(c, l, Unhindered(reply, dies)(l.p.tick));
            Noted(l, RequestOf(c, l), reply, dies, k) && next == Return(reply.Accepted?)
  {
    var a := Unhindered(reply, dies)(l.p.tick);
    NativeOpen(c, l, a);
    OutcomeKeeps(Sent(l.d, RequestOf(c, l), reply), Gated(l.p, a), ReportedId(RequestOf(c, l), KnownId(l.d), reply),
                 reply);
  }

  lemma OneUploadSent(l: Leg, deleteAfter: bool, limit: nat, reply: Reply, dies: bool)
    requires !l.d.settings.captionError && (reply.Lost? || reply.Accepted?)
    ensures var (k, ok) := UploadStep(l, deleteAfter, limit, Unhindered(reply, dies));
            Noted(l, Upload, reply, dies, k) && (ok <==> reply.Accepted?)
  {
    var o := Unhindered(reply, dies);
    var ready := l.(p := Asked(l.p, o(l.p.tick)));
    var sent := Leg(Sent(l.d, Upload, reply), Gated(ready.p, o(ready.p.tick)));
    assert SendLoop(ready, 1, limit, o) == (sent, Answered(reply));
    UploadRecordKeeps(sent, deleteAfter, reply);
  }

  /** The request of an unhindered run of the job. */
  function RunRequest(j: Job): Request
    requires |j.dests| == 1
  {
    if OneUpload(j) then Upload else NativeRequest(j.dests[0].settings.custom &&
                                                   !(j.dests[0].settings.emptyCaption && KnownId(j.dests[0]) == 0),
                                                   KnownId(j.dests[0]))
  }

  lemma BegunRequest(j: Job, oracle: Oracle)
    requires OneDest(j) && HasMedia(j) && Unstopped(j, oracle)
    ensures var begun := Begun(j, oracle);
            && begun.config == j.config && begun.dests == j.dests && begun.attempts == j.attempts + 1
            && PlainStage(begun.at) && OnlyRequest(j.config, LegOf(begun, 0)) == RunRequest(j)
  {
  }

  lemma OneServed(j: Job, limit: nat, reply: Reply, dies: bool)
    requires |j.dests| == 1 && !Served(j.dests[0]) && !j.dests[0].settings.captionError && PlainStage(j.at) &&
             (reply.Lost? || reply.Accepted?)
    ensures var (k, ok) := Serve(j, 0, limit, Unhindered(reply, dies));
            var request := OnlyRequest(j.config, LegOf(j, 0));
            && (ok <==> reply.Accepted?) && k.config == j.config && k.attempts == j.attempts
            && k.dests[0].history == Sent(j.dests[0], request, reply).history
            && k.dests[0].settings == j.dests[0].settings
            && (reply.Lost? ==> k.dests[0].messageId == j.dests[0].messageId)
            && k.at.cancelled == (j.at.cancelled || dies) && k.at.waitForEngine == j.at.waitForEngine
            && k.at.retryBeforeSend == j.at.retryBeforeSend && k.at.noAutoRetry == j.at.noAutoRetry
            && k.at.stage == j.at.stage
            && (ok ==> k.dests[0].status == Forwarded)
            && (reply.Lost? && (!j.dests[0].settings.indexed || (request.Upload? && dies)) && !j.at.waitForEngine &&
                !j.at.retryBeforeSend ==>
                  k.dests[0].status == Failed)
  {
    OneSent(j.config, LegOf(j, 0), DeletesAfter(j, 0), limit, reply, dies);
  }

  /** One unhindered run. */
  lemma OneRun(j: Job, limit: nat, reply: Reply, dies: bool)
    requires OneDest(j) && HasMedia(j) && (reply.Lost? || reply.Accepted?)
    ensures var (k, status) := Run(j, limit, Unhindered(reply, dies));
            && |k.dests| == 1 && k.config == j.config
            && k.dests[0].history == Sent(j.dests[0], RunRequest(j), reply).history
            && k.dests[0].settings == j.dests[0].settings
            && (reply.Lost? ==> k.dests[0].messageId == j.dests[0].messageId)
            && (reply.Accepted? && !dies ==> status == RowForwarded)
            && (reply.Lost? && !dies && !j.dests[0].settings.indexed && j.attempts <= 1 ==>
                  status == RowPending && k.dests[0].status == Failed)
            && (reply.Lost? && dies && OneUpload(j) ==> status == RowInterrupted && k.dests[0].status == Failed)
            && k.at.stage != CaptionEditFailed
  {
    var o := Unhindered(reply, dies);
    var begun := Begun(j, o);
    BegunRequest(j, o);
    RunOfOne(j, limit, o);
    OneServed(begun, limit, reply, dies);
  }

  /** Such a row, due for a first run or for a retry, with no copy at its destination. */
  predicate Unsent(row: Row) {
    OneDest(LoadJob(row)) && HasMedia(LoadJob(row)) && Copies(SavedDests(row)[0].history) == 0
  }

  /** A row with one possible copy that may be claimed once more, and one that was sent twice. */
  predicate OnceAndAgain(row: Row, again: Row) {
    && row.status == RowPending && |row.dests| == 1 && Copies(row.dests[0].history) == 1 && !HasUncertain(row.dests)
    && again.status == RowForwarded && |again.dests| == 1 && Copies(again.dests[0].history) == 2
  }

  /** A retry that nothing hinders, beside one possible copy and without an edit, makes two. */
  lemma SendsAgain(row: Row, limit: nat, id: nat)
    requires |row.dests| == 1 && OneDest(LoadJob(row)) && HasMedia(LoadJob(row)) && !RunRequest(LoadJob(row)).Edit?
    requires Copies(row.dests[0].history) == 1
    ensures var again := RunRecord(row, limit, Unhindered(Accepted(id), false));
            again.status == RowForwarded && |again.dests| == 1 && Copies(again.dests[0].history) == 2
  {
    OneRun(LoadJob(row), limit, Accepted(id), false);
    SentCopies(row.dests[0], RunRequest(LoadJob(row)), Accepted(id));
  }

  /** An untrimmed setting needs no operator for a second copy: when the answer to the only request is
      lost, the row goes back to the queue, and the next run's accepted request posts again. */
  lemma LostAnswerSendsAgain(row: Row, limit: nat, id: nat)
    requires Unsent(row) && row.attempts <= 1 && !SavedDests(row)[0].settings.indexed
    ensures var lost := RunRecord(row, limit, Unhindered(Lost, false));
            OnceAndAgain(lost, RunRecord(lost, limit, Unhindered(Accepted(id), false)))
  {
    var lost := RunRecord(row, limit, Unhindered(Lost, false));
    OneRun(LoadJob(row), limit, Lost, false);
    SentCopies(SavedDests(row)[0], RunRequest(LoadJob(row)), Lost);
    SendsAgain(lost, limit, id);
  }

  /** Every row with an upload whose context ends while the answer is lost becomes `interrupted`, with
      a copy possibly delivered and no uncertain destination; a retry that nothing hinders posts
      another one. */
  lemma InterruptedRetrySendsAgain(row: Row, limit: nat, id: nat)
    requires Unsent(row) && OneUpload(LoadJob(row))
    ensures var cut := RunRecord(row, limit, Unhindered(Lost, true));
            cut.status == RowInterrupted &&
            OnceAndAgain(Retried(cut), RunRecord(Retried(cut), limit, Unhindered(Accepted(id), false)))
  {
    var cut := RunRecord(row, limit, Unhindered(Lost, true));
    OneRun(LoadJob(row), limit, Lost, true);
    SentCopies(SavedDests(row)[0], Upload, Lost);
    SendsAgain(Retried(cut), limit, id);
  }

  /** The native request is refused, and the context ends while the answer to the upload that follows
      is lost. */
  function RefusedThenLost(permanent: bool): Oracle {
    n => Answer(true, true, Free, Open, if n == 2 then Rejected(permanent, false) else Lost, true, true, n == 6)
  }

  lemma RefusedForward(c: Config, l: Leg, permanent: bool)
    requires l.p.tick == 2 && !l.p.hasPath && !l.d.settings.captionError
    ensures var (k, next) := NativeStep(c, l, RefusedThenLost(permanent)(2));
            && next == TryDownload && k.d.history == Sent(l.d, RequestOf(c, l), Rejected(permanent, false)).history
            && k.d.settings == l.d.settings && k.d.status == l.d.status
            && (RequestOf(c, l).Edit? || k.d.messageId == l.d.messageId)
            && k.p == Gated(l.p, RefusedThenLost(permanent)(2))
                        .(noAutoRetry := k.p.noAutoRetry, stage := FallbackDownload)
  {
    NativeOpen(c, l, RefusedThenLost(permanent)(2));
  }

  lemma LostFallback(c: Config, l: Leg, deleteAfter: bool, limit: nat, permanent: bool)
    requires l.p.tick == 3 && !l.p.hasPath && !l.d.settings.captionError && c.hasMessage && c.hasSource
    ensures var (k, ok) := Refetched(c, l, deleteAfter, limit, RefusedThenLost(permanent));
            && !ok && k.d.history == Sent(l.d, Upload, Lost).history && k.d == l.d.(history := k.d.history)
            && k.p.cancelled && k.p.stage == FallbackUpload && k.p.waitForEngine == l.p.waitForEngine
            && k.p.retryBeforeSend == l.p.retryBeforeSend
  {
    var o := RefusedThenLost(permanent);
    var (p, _) := DownloadStep(c, l.p, o(3));
    var checked := l.(p := Asked(p, o(4)));
    var ready := l.(p := Asked(checked.p, o(5)));
    FetchedUploads(c, l.(p := p), deleteAfter, limit, o);
    assert SendLoop(ready, 1, limit, o) == (Leg(Sent(l.d, Upload, Lost), Gated(ready.p, o(6))), Answered(Lost));
  }

  lemma RefusedDelivery(c: Config, l: Leg, deleteAfter: bool, limit: nat, permanent: bool)
    requires l.p.tick == 1 && !l.p.hasPath && !l.d.settings.captionError && c.hasMessage && c.hasSource
    requires NativeApplies(c, l.d.settings, l.p) && KnownId(l.d) == 0
    ensures var (k, ok) := ToRoute(c, l, deleteAfter, limit, RefusedThenLost(permanent));
            && !ok && k.d.settings == l.d.settings && k.d.messageId == l.d.messageId && k.d.status == l.d.status
            && k.d.history == Sent(Sent(l.d, RequestOf(c, l), Rejected(permanent, false)), Upload, Lost).history
            && k.p.cancelled && k.p.stage == FallbackUpload && k.p.waitForEngine == l.p.waitForEngine
            && k.p.retryBeforeSend == l.p.retryBeforeSend
  {
    var o := RefusedThenLost(permanent);
    var checked := l.(p := Asked(l.p, o(1)));
    NativeReached(c, l, deleteAfter, limit, o);
    AskedSame(c, l, o(1), o(2), 0, o);
    RefusedForward(c, checked, permanent);
    var (refused, next) := NativeStep(c, checked, o(2));
    LostFallback(c, refused, deleteAfter, limit, permanent);
  }

  /** The run of a job without a local file that ends like this. */
  lemma RefusedRun(j: Job, limit: nat, permanent: bool)
    requires OneDest(j) && HasMedia(j) && !OneUpload(j) && j.config.hasSource && j.at.tick == 0 &&
             KnownId(j.dests[0]) == 0
    ensures var (k, status) := Run(j, limit, RefusedThenLost(permanent));
            && status == RowInterrupted && |k.dests| == 1 && k.config == j.config && k.at.stage == FallbackUpload
            && (var refused := Sent(j.dests[0], RunRequest(j), Rejected(permanent, false));
                k.dests[0].history == Sent(refused, Upload, Lost).history)
            && k.dests[0].settings == j.dests[0].settings && k.dests[0].messageId == j.dests[0].messageId
            && k.dests[0].status == Failed
  {
    var o := RefusedThenLost(permanent);
    BegunRequest(j, o);
    RunOfOne(j, limit, o);
    var begun := Begun(j, o);
    RefusedDelivery(j.config, LegOf(begun, 0), DeletesAfter(begun, 0), limit, permanent);
  }

  /** Every row of a job without a local file whose forward is refused and whose fallback upload loses
      its answer as the context ends becomes `interrupted` too, still without a file: the retry that
      posts another copy is a native forward. */
  lemma InterruptedForwardSendsAgain(row: Row, limit: nat, permanent: bool, id: nat)
    requires Unsent(row) && !OneUpload(LoadJob(row)) && row.config.hasSource && KnownId(SavedDests(row)[0]) == 0
    ensures var cut := RunRecord(row, limit, RefusedThenLost(permanent));
            && cut.status == RowInterrupted && !cut.hasPath && |cut.dests| == 1 && RunRequest(LoadJob(cut)).Native?
            && OnceAndAgain(Retried(cut), RunRecord(Retried(cut), limit, Unhindered(Accepted(id), false)))
  {
    var cut := RunRecord(row, limit, RefusedThenLost(permanent));
    RefusedRun(LoadJob(row), limit, permanent);
    RefusedThenLostCopies(SavedDests(row)[0], RunRequest(LoadJob(row)), permanent);
    SendsAgain(Retried(cut), limit, id);
  }

  lemma RefusedThenLostCopies(d: Dest, request: Request, permanent: bool)
    requires Copies(d.history) == 0
    ensures Copies(Sent(Sent(d, request, Rejected(permanent, false)), Upload, Lost).history) == 1
  {
    SentCopies(d, request, Rejected(permanent, false));
    SentCopies(Sent(d, request, Rejected(permanent, false)), Upload, Lost);
  }
}
