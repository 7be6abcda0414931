/** The durable auto-forward queue (core-service/internal/app/forward.go, ingest.go, scan_forward.go
    and the restart step of core-service/internal/store/migrate.go): rows, workers, the direct
    reservation, operator actions and restarts, as steps on one state. */
module ForwardQueue {
  import opened ForwardDelivery
  import opened ForwardAgreement
  import opened ForwardSafety
  import opened ForwardSnapshot
  import ForwardRoutes

  /** A queue row. `deleted`: delete-after-forward removed the job's local copy. */
  datatype Row = Row(config: Config, status: RowStatus, dests: seq<Dest>, stage: Stage, hasPath: bool, hasRecord: bool,
                     attempts: nat, deleted: bool)

  /** `workers` maps a busy worker to the row it drives, `direct` holds the rows driven by a
      direct-forward goroutine. */
  datatype Queue = Queue(rows: map<nat, Row>, nextId: nat, paused: bool, workers: map<nat, nat>, direct: set<nat>)

  const EMPTY := Queue(map[], 0, false, map[], {})
  const MAX_WORKERS := 5

  // ---- Spec of the steps ----

  function ActiveIds(rows: map<nat, Row>): set<nat> {
    set id | id in rows && (rows[id].status == RowPending || rows[id].status == RowProcessing)
  }

  function Insert(q: Queue, row: Row): Queue {
    q.(rows := q.rows[q.nextId := row], nextId := q.nextId + 1)
  }

  /** `queueForward`; a full queue takes no row. */
  function Enqueue(q: Queue, limit: nat, config: Config, manual: bool, hasPath: bool, hasRecord: bool): Queue {
    if |ActiveIds(q.rows)| >= limit then q
    else Insert(q, Row(config, RowPending, [], if manual then Available else Metadata, hasPath, hasRecord, 0, false))
  }

  /** `insertDirectScanTx`: a full queue keeps the row for a later retry. */
  function EnqueueScan(q: Queue, limit: nat, config: Config): Queue {
    if config.routes == [] then q
    else Insert(q, Row(config, if |ActiveIds(q.rows)| >= limit then RowFailed else RowPending, Fresh(config.routes),
                       ScanDirect, false, false, 0, false))
  }

  /** `reserveForward`: the row is born in progress and driven by a goroutine. */
  function Reserve(q: Queue, limit: nat, config: Config): Queue {
    if |ActiveIds(q.rows)| >= limit then q
    else
      var reserved := Row(config, RowProcessing, [], NativeForward, false, false, 0, false);
      Insert(q, reserved).(direct := q.direct + {q.nextId})
  }

  /** The rows a claim may take: pending and due. */
  predicate Claimable(q: Queue, due: set<nat>, id: nat) {
    id in q.rows && q.rows[id].status == RowPending && id in due
  }

  /** The claim takes the oldest one. */
  predicate ClaimTakes(q: Queue, due: set<nat>, id: nat) {
    Claimable(q, due, id) && forall other :: Claimable(q, due, other) ==> id <= other
  }

  function SetStatus(q: Queue, id: nat, status: RowStatus): Queue
    requires id in q.rows
  {
    q.(rows := q.rows[id := q.rows[id].(status := status)])
  }

  /** `claimForward` by a free worker; `valid`: the saved job can be read. */
  function Claim(q: Queue, w: nat, id: nat, valid: bool): Queue
    requires id in q.rows
  {
    if q.paused || w in q.workers || w >= MAX_WORKERS then q
    else if valid then SetStatus(q, id, RowProcessing).(workers := q.workers[w := id])
    else SetStatus(q, id, RowFailed)
  }

  function Release(q: Queue, w: nat): Queue
    requires w in q.workers && q.workers[w] in q.rows
  {
    var id := q.workers[w];
    var freed := q.(workers := q.workers - {w});
    if q.rows[id].status == RowProcessing then SetStatus(freed, id, RowPending) else freed
  }

  function SavedDests(row: Row): seq<Dest> {
    if row.dests == [] then Fresh(row.config.routes) else row.dests
  }

  /** The job a claim loads. */
  function LoadJob(row: Row): Job {
    Job(row.config, SavedDests(row), row.attempts,
        Progress(row.stage, row.hasPath, row.hasRecord, false, false, false, false, false, 0))
  }

  /** What the end of a run records; the row keeps its file columns. */
  function Recorded(row: Row, k: Job, status: RowStatus): Row {
    row.(status := status, stage := k.at.stage, dests := k.dests, attempts := k.attempts,
         deleted := row.deleted || k.at.deleted)
  }

  function Finished(q: Queue, w: nat, floodAttempts: nat, oracle: Oracle): Queue
    requires w in q.workers && q.workers[w] in q.rows
  {
    Freed(q, w, RunRecord(q.rows[q.workers[w]], floodAttempts, oracle))
  }

  function Freed(q: Queue, w: nat, row: Row): Queue
    requires w in q.workers
  {
    q.(rows := q.rows[q.workers[w] := row], workers := q.workers - {w})
  }

  function RunRecord(row: Row, floodAttempts: nat, oracle: Oracle): Row {
    var (k, status) := Run(LoadJob(row), floodAttempts, oracle);
    Recorded(row, k, status)
  }

  /** The direct goroutine ends; `updateForwardReservation` also writes the file columns. */
  function DirectFinished(q: Queue, id: nat, oracle: Oracle, ingest: Ingest): Queue
    requires id in q.rows
  {
    DirectFreed(q, id, DirectRecorded(q.rows[id], oracle, ingest))
  }

  function DirectFreed(q: Queue, id: nat, row: Row): Queue {
    q.(rows := q.rows[id := row], direct := q.direct - {id})
  }

  function DirectRecorded(row: Row, oracle: Oracle, ingest: Ingest): Row {
    var (k, status) := DirectRun(LoadJob(row), oracle, ingest);
    row.(status := status, stage := k.at.stage, dests := k.dests, hasPath := k.at.hasPath, hasRecord := k.at.hasRecord,
         deleted := row.deleted || k.at.deleted)
  }

  /** A destination when the process died: of the run's requests a first part had been made, and the
      record of a destination that was done with may have been `saved`. */
  function CutDest(before: Dest, after: Dest, cut: nat, saved: bool): (r: Dest)
    requires after.settings == before.settings && before.history <= after.history && |before.history| <= cut
    ensures r.settings == before.settings && before.history <= r.history <= after.history
    ensures r.status == before.status || (Served(after) && r == after)
  {
    if cut < |after.history| then before.(history := after.history[..cut])
    else if saved && Served(after) && !Served(before) then after
    else before.(history := after.history)
  }

  /** Where a process dies: how many requests of destination k of row id had been made in the run,
      and whether its record had been saved. */
  datatype Death = Death(made: (nat, nat) -> nat, saved: (nat, nat) -> bool)

  /** Process death and restart. Rows in progress become uncertain, nobody drives anything. */
  function Restarted(q: Queue, floodAttempts: nat, oracle: nat -> Oracle, death: Death): Queue {
    Queue(map id | id in q.rows :: RestartedRow(q, id, floodAttempts, oracle(id), death), q.nextId, q.paused, map[], {})
  }

  /** Every history lies between the ones before and after the interrupted run. */
  function CutAll(before: seq<Dest>, after: seq<Dest>, id: nat, death: Death): (r: seq<Dest>)
    requires Grown(before, after)
    ensures Grown(before, r) && Grown(r, after)
    ensures forall k :: 0 <= k < |r| ==> r[k].status == before[k].status || (Served(after[k]) && r[k] == after[k])
  {
    var cut := seq(|before|, k requires 0 <= k < |before| && Grown(before, after) =>
                     CutDest(before[k], after[k], |before[k].history| + death.made(id, k), death.saved(id, k)));
    assert forall k :: 0 <= k < |before| ==>
             cut[k] == CutDest(before[k], after[k], |before[k].history| + death.made(id, k), death.saved(id, k));
    cut
  }

  /** The destinations as the interrupted driver, if any, would have left them. */
  function InFlight(q: Queue, id: nat, floodAttempts: nat, oracle: Oracle): seq<Dest>
    requires id in q.rows
  {
    var job := LoadJob(q.rows[id]);
    if id in q.workers.Values then Run(job, floodAttempts, oracle).0.dests
    else if id in q.direct then DirectRun(job, oracle, Abandoned).0.dests
    else job.dests
  }

  function RestartedRow(q: Queue, id: nat, floodAttempts: nat, oracle: Oracle, death: Death): Row
    requires id in q.rows
  {
    var row := q.rows[id];
    var after := InFlight(q, id, floodAttempts, oracle);
    if row.status != RowProcessing then row
    else if !Grown(SavedDests(row), after) then row.(status := RowUncertain)
    else row.(status := RowUncertain, dests := CutAll(SavedDests(row), after, id, death))
  }

  // ---- Operator actions ----

  function Retried(row: Row): Row {
    if row.status == RowFailed || row.status == RowInterrupted then row.(status := RowPending) else row
  }

  function RetriedAll(q: Queue): Queue {
    q.(rows := map id | id in q.rows :: Retried(q.rows[id]))
  }

  function Doubted(dests: seq<Dest>): seq<Dest> {
    seq(|dests|, k requires 0 <= k < |dests| =>
          if dests[k].status == Pending || dests[k].status == Processing then dests[k].(status := Uncertain)
          else dests[k])
  }

  function Resolved(d: Dest, sent: bool): Dest {
    if sent then d.(status := Forwarded, confirmed := true) else d.(status := Pending)
  }

  /** Which destination an action is for; none means all. */
  datatype Target = All | One(index: int)

  predicate Chosen(target: Target, k: nat) {
    target.All? || target.index == k
  }

  function ResolveChosen(dests: seq<Dest>, target: Target, sent: bool): seq<Dest> {
    seq(|dests|, k requires 0 <= k < |dests| =>
          if Chosen(target, k) && dests[k].status == Uncertain then Resolved(dests[k], sent) else dests[k])
  }

  predicate AnyChosen(dests: seq<Dest>, target: Target) {
    exists k :: 0 <= k < |dests| && Chosen(target, k) && dests[k].status == Uncertain
  }

  function ResendRest(dests: seq<Dest>): seq<Dest> {
    seq(|dests|, k requires 0 <= k < |dests| =>
          if dests[k].status == Forwarded then dests[k] else Resolved(dests[k], false))
  }

  /** The destinations after an accepted reconcile action. */
  function ReconciledDests(row: Row, target: Target, sent: bool): seq<Dest> {
    var doubted := Doubted(SavedDests(row));
    if AnyChosen(doubted, target) then ResolveChosen(doubted, target, sent) else ResendRest(doubted)
  }

  predicate ReconcileAccepted(row: Row, target: Target, sent: bool) {
    var doubted := Doubted(SavedDests(row));
    && row.status == RowUncertain
    && (target.One? ==> 0 <= target.index < |doubted|)
    && (AnyChosen(doubted, target) ||
        (target.All? && !sent && exists k :: 0 <= k < |doubted| && doubted[k].status != Forwarded))
  }

  function ReconciledStatus(dests: seq<Dest>, sent: bool): RowStatus {
    if HasUncertain(dests) then RowUncertain
    else if sent && AllForwarded(dests) then RowForwarded
    else RowPending
  }

  function Reconciled(row: Row, target: Target, sent: bool): Row {
    if ReconcileAccepted(row, target, sent) then
      var dests := ReconciledDests(row, target, sent);
      row.(status := ReconciledStatus(dests, sent), dests := dests)
    else row
  }

  // ---- One step of the system ----

  datatype Step =
    | DoEnqueue(limit: nat, source: Source, manual: bool, hasPath: bool, hasRecord: bool)
    | DoScan(limit: nat, source: Source)
    | DoReserve(limit: nat, source: Source)
    | DoClaim(w: nat, due: set<nat>, id: nat, valid: bool)
    | DoRelease(w: nat)
    | DoRun(w: nat, floodAttempts: nat, oracle: Oracle)
    | DoDirect(id: nat, oracle: Oracle, ingest: Ingest)
    | DoRestart(floodAttempts: nat, oracles: nat -> Oracle, death: Death)
    | DoPause(paused: bool)
    | DoRetry(id: nat)
    | DoRetryAll
    | DoReconcile(id: nat, target: Target, sent: bool)

  predicate ByOperator(s: Step) {
    s.DoRetry? || s.DoRetryAll? || s.DoReconcile?
  }

  function Stepped(q: Queue, s: Step): Queue {
    match s
    case DoEnqueue(limit, source, manual, hasPath, hasRecord) =>
      Enqueue(q, limit, Snapshot(source), manual, hasPath, hasRecord)
    case DoScan(limit, source) => EnqueueScan(q, limit, Snapshot(source))
    case DoReserve(limit, source) => Reserve(q, limit, Snapshot(source))
    case DoClaim(w, due, id, valid) => if id in q.rows && ClaimTakes(q, due, id) then Claim(q, w, id, valid) else q
    case DoRelease(w) => if w in q.workers && q.workers[w] in q.rows then Release(q, w) else q
    case DoRun(w, floodAttempts, oracle) =>
      if w in q.workers && q.workers[w] in q.rows then Finished(q, w, floodAttempts, oracle) else q
    case DoDirect(id, oracle, ingest) =>
      if id in q.direct && id in q.rows then DirectFinished(q, id, oracle, ingest) else q
    case DoRestart(floodAttempts, oracles, death) => Restarted(q, floodAttempts, oracles, death)
    case DoPause(paused) => q.(paused := paused)
    case DoRetry(id) => if id in q.rows then q.(rows := q.rows[id := Retried(q.rows[id])]) else q
    case DoRetryAll => RetriedAll(q)
    case DoReconcile(id, target, sent) =>
      if id in q.rows then q.(rows := q.rows[id := Reconciled(q.rows[id], target, sent)]) else q
  }

  function After(q: Queue, steps: seq<Step>): Queue {
    if steps == [] then q else Stepped(After(q, steps[..|steps| - 1]), steps[|steps| - 1])
  }

  // ---- Row and destinations agree, in every run ----

  /** One destination per route, with the route's settings. */
  predicate OwnSettings(c: Config, dests: seq<Dest>) {
    |dests| == |c.routes| && forall k :: 0 <= k < |dests| ==> dests[k].settings == c.routes[k]
  }

  ghost predicate RowAgrees(row: Row) {
    && (row.dests == [] || OwnSettings(row.config, row.dests))
    && AllVouched(row.dests)
    && (row.status == RowPending || row.status == RowFailed || row.status == RowInterrupted ==>
          !HasUncertain(row.dests))
    && (row.status == RowForwarded || row.deleted ==> AllForwarded(row.dests))
    && (row.deleted ==> |row.dests| == |row.config.routes|)
  }

  /** Who drives a row: at most one worker, or one direct goroutine, and only rows in progress. */
  ghost predicate DriversAgree(q: Queue) {
    && (forall w :: w in q.workers ==> Driven(q, q.workers[w]) && q.workers[w] !in q.direct && w < MAX_WORKERS)
    && (forall v, w :: v in q.workers && w in q.workers && q.workers[v] == q.workers[w] ==> v == w)
    && (forall id :: id in q.direct ==> Driven(q, id) && q.rows[id].dests == [] && !q.rows[id].deleted)
    && (forall id :: id in q.rows ==> id < q.nextId)
  }

  ghost predicate Driven(q: Queue, id: nat) {
    id in q.rows && q.rows[id].status == RowProcessing && !HasUncertain(q.rows[id].dests)
  }

  ghost predicate QueueAgrees(q: Queue) {
    DriversAgree(q) && forall id :: id in q.rows ==> RowAgrees(q.rows[id])
  }

  lemma FreshFacts(routes: seq<Settings>)
    ensures AllVouched(Fresh(routes)) && !HasUncertain(Fresh(routes)) && |Fresh(routes)| == |routes|
    ensures forall k :: 0 <= k < |routes| ==> Fresh(routes)[k].settings == routes[k]
  {
  }

  /** A run of a job whose destinations are all sent changes nothing about them. */
  lemma {:induction false} SentStaysSent(j: Job, i: nat, limit: nat, oracle: Oracle)
    requires i <= |j.dests| && AllForwarded(j.dests)
    ensures Deliver(j, i, limit, oracle).0.dests == j.dests
    decreases |j.dests| - i
  {
    if i < |j.dests| {
      SentStaysSent(j, i + 1, limit, oracle);
    }
  }

  lemma RunKeepsSent(j: Job, limit: nat, oracle: Oracle)
    requires AllForwarded(j.dests) && |j.dests| == |j.config.routes|
    ensures Run(j, limit, oracle).0.dests == j.dests
  {
    var start := j.(attempts := j.attempts + 1);
    var asked := start.(at := Asked(start.at, oracle(start.at.tick)));
    var upload := NeedsUpload(asked.config, asked.at.stage, asked.dests);
    var (p, ok) := DownloadStep(asked.config, asked.at, oracle(asked.at.tick));
    SentStaysSent(asked.(at := p.(stage := UploadStage)), 0, limit, oracle);
    SentStaysSent(asked.(at := asked.at.(stage := FirstStage(asked, upload))), 0, limit, oracle);
  }

  lemma LoadedJob(row: Row)
    requires RowAgrees(row) && !HasUncertain(row.dests)
    ensures var j := LoadJob(row);
            AllVouched(j.dests) && !HasUncertain(j.dests) && !j.at.deleted && OwnSettings(row.config, j.dests) &&
            j.config == row.config
  {
    FreshFacts(row.config.routes);
  }

  lemma FinishedRowAgrees(row: Row, floodAttempts: nat, oracle: Oracle)
    requires RowAgrees(row) && !HasUncertain(row.dests)
    ensures RowAgrees(RunRecord(row, floodAttempts, oracle))
  {
    LoadedJob(row);
    RunAgrees(LoadJob(row), floodAttempts, oracle);
    RunGrows(LoadJob(row), floodAttempts, oracle);
    if row.deleted {
      assert row.dests == [] ==> row.config.routes == [];
      RunKeepsSent(LoadJob(row), floodAttempts, oracle);
    }
  }

  lemma DirectRowAgrees(row: Row, oracle: Oracle, ingest: Ingest)
    requires RowAgrees(row) && row.dests == [] && !row.deleted
    ensures RowAgrees(DirectRecorded(row, oracle, ingest))
  {
    DirectRunAgrees(LoadJob(row), oracle, ingest);
  }

  lemma CutAgrees(before: seq<Dest>, after: seq<Dest>, id: nat, death: Death)
    requires Grown(before, after) && AllVouched(before) && AllVouched(after)
    ensures AllVouched(CutAll(before, after, id, death)) &&
            (AllForwarded(before) ==> AllForwarded(CutAll(before, after, id, death)))
  {
    var dests := CutAll(before, after, id, death);
    forall k | 0 <= k < |before|
      ensures Vouched(dests[k]) && (before[k].status == Forwarded ==> dests[k].status == Forwarded) {
      assert dests[k] == CutDest(before[k], after[k], |before[k].history| + death.made(id, k), death.saved(id, k));
      if HasAccepted(before[k].history) {
        var n :| 0 <= n < |before[k].history| && before[k].history[n].reply.Accepted?;
        assert dests[k].history[n] == before[k].history[n];
      }
    }
  }

  lemma InFlightGrows(q: Queue, id: nat, floodAttempts: nat, oracle: Oracle)
    requires QueueAgrees(q) && id in q.rows && q.rows[id].status == RowProcessing
    ensures Grown(SavedDests(q.rows[id]), InFlight(q, id, floodAttempts, oracle))
    ensures AllVouched(InFlight(q, id, floodAttempts, oracle))
  {
    var row := q.rows[id];
    assert RowAgrees(row);
    FreshFacts(row.config.routes);
    if id in q.workers.Values {
      LoadedJob(row);
      RunGrows(LoadJob(row), floodAttempts, oracle);
      RunAgrees(LoadJob(row), floodAttempts, oracle);
    } else if id in q.direct {
      DirectRunAgrees(LoadJob(row), oracle, Abandoned);
    }
  }

  lemma RestartedRowAgrees(q: Queue, id: nat, floodAttempts: nat, oracle: Oracle, death: Death)
    requires QueueAgrees(q) && id in q.rows
    ensures RowAgrees(RestartedRow(q, id, floodAttempts, oracle, death))
  {
    var row := q.rows[id];
    if row.status == RowProcessing {
      FreshFacts(row.config.routes);
      InFlightGrows(q, id, floodAttempts, oracle);
      CutAgrees(SavedDests(row), InFlight(q, id, floodAttempts, oracle), id, death);
    }
  }

  // ---- Operator actions keep the agreement ----

  lemma ReconciledOwn(row: Row, target: Target, sent: bool)
    requires row.dests == [] || OwnSettings(row.config, row.dests)
    ensures OwnSettings(row.config, ReconciledDests(row, target, sent))
  {
    FreshFacts(row.config.routes);
    assert OwnSettings(row.config, Doubted(SavedDests(row)));
  }

  lemma ReconciledVouched(row: Row, target: Target, sent: bool)
    requires AllVouched(row.dests)
    ensures AllVouched(ReconciledDests(row, target, sent))
  {
    FreshFacts(row.config.routes);
    assert AllVouched(Doubted(SavedDests(row)));
  }

  /** A reconcile action: the row stays uncertain exactly while a destination is uncertain, is
      "forwarded" only with every destination forwarded, and agrees with its destinations. */
  lemma ReconcileAgrees(row: Row, target: Target, sent: bool)
    requires RowAgrees(row)
    ensures RowAgrees(Reconciled(row, target, sent))
    ensures ReconcileAccepted(row, target, sent) ==>
              var after := Reconciled(row, target, sent);
              && (after.status == RowUncertain <==> HasUncertain(after.dests))
              && (after.status == RowForwarded ==> AllForwarded(after.dests))
  {
    ReconciledOwn(row, target, sent);
    ReconciledVouched(row, target, sent);
    if row.deleted {
      ReconciledSent(row, target, sent);
    }
  }

  /** Destinations that are all sent stay so. */
  lemma ReconciledSent(row: Row, target: Target, sent: bool)
    requires AllForwarded(row.dests) && |row.dests| == |row.config.routes|
    ensures AllForwarded(ReconciledDests(row, target, sent))
  {
    assert row.dests == [] ==> SavedDests(row) == [];
    assert AllForwarded(SavedDests(row));
  }

  // ---- Agreement in every run, with operator actions and restarts ----

  /** A row nobody drives any more is replaced. */
  lemma RowReplaced(q: Queue, q': Queue, id: nat)
    requires QueueAgrees(q) && id in q.rows && id in q'.rows
    requires q'.rows == q.rows[id := q'.rows[id]] && q'.nextId == q.nextId && RowAgrees(q'.rows[id])
    requires q'.direct == q.direct - {id} && id !in q'.workers.Values
    requires forall w :: w in q'.workers ==> w in q.workers && q'.workers[w] == q.workers[w]
    ensures QueueAgrees(q')
  {
    forall w | w in q'.workers ensures q'.workers[w] != id {
      assert q'.workers[w] in q'.workers.Values;
    }
  }

  lemma IdleRow(q: Queue, id: nat)
    requires QueueAgrees(q) && id in q.rows && q.rows[id].status != RowProcessing
    ensures id !in q.direct && id !in q.workers.Values
  {
  }

  lemma RowInserted(q: Queue, row: Row, direct: bool)
    requires QueueAgrees(q) && RowAgrees(row)
    requires direct ==> row.status == RowProcessing && row.dests == [] && !row.deleted
    ensures QueueAgrees(Insert(q, row).(direct := if direct then q.direct + {q.nextId} else q.direct))
  {
    var q' := Insert(q, row).(direct := if direct then q.direct + {q.nextId} else q.direct);
    assert q.nextId !in q.rows;
    InsertedDrivers(q, row, direct);
    assert forall id :: id in q'.rows ==> q'.rows[id] == if id == q.nextId then row else q.rows[id];
  }

  lemma InsertedDrivers(q: Queue, row: Row, direct: bool)
    requires DriversAgree(q) && q.nextId !in q.rows
    requires direct ==> row.status == RowProcessing && row.dests == [] && !row.deleted
    ensures DriversAgree(Insert(q, row).(direct := if direct then q.direct + {q.nextId} else q.direct))
  {
    var q' := Insert(q, row).(direct := if direct then q.direct + {q.nextId} else q.direct);
    forall w | w in q'.workers ensures Driven(q', q'.workers[w]) && q'.workers[w] !in q'.direct {
      assert Driven(q, q.workers[w]);
    }
    forall id | id in q'.direct ensures Driven(q', id) && q'.rows[id].dests == [] && !q'.rows[id].deleted {
      assert id != q.nextId ==> Driven(q, id);
    }
  }

  lemma WorkerFreed(q: Queue, w: nat)
    requires QueueAgrees(q) && w in q.workers
    ensures q.workers[w] !in (q.workers - {w}).Values && q.direct - {q.workers[w]} == q.direct
  {
  }

  lemma ClaimAgrees(q: Queue, w: nat, due: set<nat>, id: nat, valid: bool)
    requires QueueAgrees(q) && id in q.rows && ClaimTakes(q, due, id)
    ensures QueueAgrees(Claim(q, w, id, valid))
  {
    IdleRow(q, id);
    var q' := Claim(q, w, id, valid);
    forall v | v in q.workers ensures q.workers[v] != id {
      assert q.workers[v] in q.workers.Values;
    }
    assert RowAgrees(q.rows[id]);
    assert q'.rows == q.rows || RowAgrees(q'.rows[id]);
  }

  lemma FreedAgrees(q: Queue, w: nat, row: Row)
    requires QueueAgrees(q) && w in q.workers && RowAgrees(row)
    ensures QueueAgrees(Freed(q, w, row))
  {
    WorkerFreed(q, w);
    RowReplaced(q, Freed(q, w, row), q.workers[w]);
  }

  lemma DirectFreedAgrees(q: Queue, id: nat, row: Row)
    requires QueueAgrees(q) && id in q.direct && RowAgrees(row)
    ensures QueueAgrees(DirectFreed(q, id, row))
  {
    forall w | w in q.workers ensures q.workers[w] != id {}
    RowReplaced(q, DirectFreed(q, id, row), id);
  }

  lemma ReleaseAgrees(q: Queue, w: nat)
    requires QueueAgrees(q) && w in q.workers
    ensures QueueAgrees(Release(q, w)) && Release(q, w) == Freed(q, w, q.rows[q.workers[w]].(status := RowPending))
  {
    assert RowAgrees(q.rows[q.workers[w]]);
    FreedAgrees(q, w, q.rows[q.workers[w]].(status := RowPending));
  }

  lemma RestartAgrees(q: Queue, floodAttempts: nat, oracles: nat -> Oracle, death: Death)
    requires QueueAgrees(q)
    ensures QueueAgrees(Restarted(q, floodAttempts, oracles, death))
  {
    forall id | id in q.rows ensures RowAgrees(RestartedRow(q, id, floodAttempts, oracles(id), death)) {
      RestartedRowAgrees(q, id, floodAttempts, oracles(id), death);
    }
  }

  lemma OperatorAgrees(q: Queue, id: nat, row: Row)
    requires QueueAgrees(q) && id in q.rows && RowAgrees(row) &&
             (q.rows[id].status != RowProcessing || row == q.rows[id])
    ensures QueueAgrees(q.(rows := q.rows[id := row]))
  {
    if row == q.rows[id] {
      assert q.rows[id := row] == q.rows;
    } else {
      IdleRow(q, id);
      RowReplaced(q, q.(rows := q.rows[id := row]), id);
    }
  }

  lemma EnqueueScanAgrees(q: Queue, limit: nat, config: Config)
    requires QueueAgrees(q)
    ensures QueueAgrees(EnqueueScan(q, limit, config))
  {
    FreshFacts(config.routes);
    RowInserted(q, Row(config, if |ActiveIds(q.rows)| >= limit then RowFailed else RowPending, Fresh(config.routes),
                       ScanDirect, false, false, 0, false), false);
  }

  lemma FinishedAgrees(q: Queue, w: nat, floodAttempts: nat, oracle: Oracle)
    requires QueueAgrees(q) && w in q.workers
    ensures QueueAgrees(Finished(q, w, floodAttempts, oracle))
  {
    FinishedRowAgrees(q.rows[q.workers[w]], floodAttempts, oracle);
    FreedAgrees(q, w, RunRecord(q.rows[q.workers[w]], floodAttempts, oracle));
  }

  lemma DirectFinishedAgrees(q: Queue, id: nat, oracle: Oracle, ingest: Ingest)
    requires QueueAgrees(q) && id in q.direct
    ensures QueueAgrees(DirectFinished(q, id, oracle, ingest))
  {
    DirectRowAgrees(q.rows[id], oracle, ingest);
    DirectFreedAgrees(q, id, DirectRecorded(q.rows[id], oracle, ingest));
  }

  /** A step that makes a row. */
  predicate Makes(s: Step) {
    s.DoEnqueue? || s.DoScan? || s.DoReserve?
  }

  lemma NewRowAgrees(q: Queue, s: Step)
    requires QueueAgrees(q) && Makes(s)
    ensures QueueAgrees(Stepped(q, s))
  {
    var config := Snapshot(s.source);
    match s
    case DoEnqueue(_, _, manual, hasPath, hasRecord) =>
      RowInserted(q, Row(config, RowPending, [], if manual then Available else Metadata, hasPath, hasRecord, 0, false),
                  false);
    case DoScan(limit, _) => EnqueueScanAgrees(q, limit, config);
    case DoReserve(_, _) => RowInserted(q, Row(config, RowProcessing, [], NativeForward, false, false, 0, false), true);
  }

  lemma OperatorStepAgrees(q: Queue, s: Step)
    requires QueueAgrees(q) && ByOperator(s)
    ensures QueueAgrees(Stepped(q, s))
  {
    match s
    case DoRetryAll => RetriedAllAgrees(q);
    case DoRetry(id) =>
      if id in q.rows {
        OperatorAgrees(q, id, Retried(q.rows[id]));
      }
    case DoReconcile(id, target, sent) =>
      if id in q.rows {
        ReconcileAgrees(q.rows[id], target, sent);
        OperatorAgrees(q, id, Reconciled(q.rows[id], target, sent));
      }
  }

  lemma DriverStepAgrees(q: Queue, s: Step)
    requires QueueAgrees(q) && !Makes(s) && !ByOperator(s)
    ensures QueueAgrees(Stepped(q, s))
  {
    match s
    case DoClaim(w, due, id, valid) =>
      if id in q.rows && ClaimTakes(q, due, id) {
        ClaimAgrees(q, w, due, id, valid);
      }
    case DoRelease(w) =>
      if w in q.workers {
        ReleaseAgrees(q, w);
      }
    case DoRun(w, floodAttempts, oracle) =>
      if w in q.workers {
        FinishedAgrees(q, w, floodAttempts, oracle);
      }
    case DoDirect(id, oracle, ingest) =>
      if id in q.direct {
        DirectFinishedAgrees(q, id, oracle, ingest);
      }
    case DoRestart(floodAttempts, oracles, death) => RestartAgrees(q, floodAttempts, oracles, death);
    case DoPause(_) =>
  }

  lemma StepAgrees(q: Queue, s: Step)
    requires QueueAgrees(q)
    ensures QueueAgrees(Stepped(q, s))
  {
    if Makes(s) {
      NewRowAgrees(q, s);
    } else if ByOperator(s) {
      OperatorStepAgrees(q, s);
    } else {
      DriverStepAgrees(q, s);
    }
  }

  lemma RetriedAllAgrees(q: Queue)
    requires QueueAgrees(q)
    ensures QueueAgrees(RetriedAll(q))
  {
    var q' := RetriedAll(q);
    assert forall id :: id in q.rows && q.rows[id].status == RowProcessing ==> q'.rows[id] == q.rows[id];
    assert forall id :: id in q.rows ==> RowAgrees(q'.rows[id]);
  }

  /** Every run: rows agree with their destinations (no uncertain destination behind a pending,
      failed or interrupted row; only forwarded ones behind a forwarded row; a deleted local file
      only with every destination sent), and no row is ever driven by two actors. */
  lemma {:induction false} RowsAlwaysAgree(steps: seq<Step>)
    ensures QueueAgrees(After(EMPTY, steps))
  {
    if steps != [] {
      RowsAlwaysAgree(steps[..|steps| - 1]);
      StepAgrees(After(EMPTY, steps[..|steps| - 1]), steps[|steps| - 1]);
    }
  }

  // ---- The route list of a row ----

  ghost predicate KeepsConfigs(q: Queue, q': Queue) {
    forall id :: id in q.rows ==> id in q'.rows && q'.rows[id].config == q.rows[id].config
  }

  /** A step that makes no row keeps the rows and their snapshots. */
  lemma StepKeepsConfigs(q: Queue, s: Step)
    requires QueueAgrees(q) && !Makes(s)
    ensures KeepsConfigs(q, Stepped(q, s)) && Stepped(q, s).rows.Keys == q.rows.Keys
  {
    match s
    case DoRun(w, floodAttempts, oracle) =>
      if w in q.workers {
        RecordKeepsConfig(q.rows[q.workers[w]], floodAttempts, oracle);
        OneRowKeepsConfigs(q, Finished(q, w, floodAttempts, oracle), q.workers[w]);
      }
    case DoDirect(id, oracle, ingest) =>
      if id in q.direct {
        OneRowKeepsConfigs(q, DirectFinished(q, id, oracle, ingest), id);
      }
    case DoRestart(floodAttempts, oracles, death) => RestartKeepsConfigs(q, floodAttempts, oracles, death);
    case DoClaim(_, _, _, _) => StatusKeepsConfigs(q, s);
    case DoRelease(_) => StatusKeepsConfigs(q, s);
    case DoPause(_) =>
    case _ => OperatorKeepsConfigs(q, s);
  }

  lemma OneRowKeepsConfigs(q: Queue, q': Queue, id: nat)
    requires id in q.rows && id in q'.rows && q'.rows == q.rows[id := q'.rows[id]] &&
             q'.rows[id].config == q.rows[id].config
    ensures KeepsConfigs(q, q') && q'.rows.Keys == q.rows.Keys
  {
  }

  lemma StatusKeepsConfigs(q: Queue, s: Step)
    requires s.DoClaim? || s.DoRelease?
    ensures KeepsConfigs(q, Stepped(q, s)) && Stepped(q, s).rows.Keys == q.rows.Keys
  {
  }

  lemma OperatorKeepsConfigs(q: Queue, s: Step)
    requires ByOperator(s)
    ensures KeepsConfigs(q, Stepped(q, s)) && Stepped(q, s).rows.Keys == q.rows.Keys
  {
  }

  lemma RestartKeepsConfigs(q: Queue, floodAttempts: nat, oracles: nat -> Oracle, death: Death)
    ensures KeepsConfigs(q, Restarted(q, floodAttempts, oracles, death)) &&
            Restarted(q, floodAttempts, oracles, death).rows.Keys == q.rows.Keys
  {
    forall id | id in q.rows
      ensures RestartedRow(q, id, floodAttempts, oracles(id), death).config == q.rows[id].config {}
  }

  lemma RecordKeepsConfig(row: Row, floodAttempts: nat, oracle: Oracle)
    ensures RunRecord(row, floodAttempts, oracle).config == row.config
  {
  }

  /** A step keeps the snapshot of every row; a new row has the snapshot of its source. */
  lemma StepConfigs(q: Queue, s: Step)
    requires QueueAgrees(q)
    ensures var q' := Stepped(q, s);
            && KeepsConfigs(q, q')
            && (forall id :: id in q'.rows && id !in q.rows ==> Makes(s) && q'.rows[id].config == Snapshot(s.source))
  {
    if !Makes(s) {
      StepKeepsConfigs(q, s);
    }
  }

  /** The route list of a row and its length stay through every retry, reconciliation and restart,
      so the records of a job are never started afresh once it has some. */
  lemma {:induction false} RouteListStays(steps: seq<Step>, n: nat, id: nat)
    requires n <= |steps|
    ensures var early, late := After(EMPTY, steps[..n]), After(EMPTY, steps);
            id in early.rows ==>
              && id in late.rows && late.rows[id].config == early.rows[id].config
              && SavedDests(late.rows[id]) == LoadJob(late.rows[id]).dests
              && |SavedDests(late.rows[id])| == |early.rows[id].config.routes|
    decreases |steps|
  {
    if n == |steps| {
      assert steps[..n] == steps;
    } else {
      var before := steps[..|steps| - 1];
      RouteListStays(before, n, id);
      assert before[..n] == steps[..n];
      RowsAlwaysAgree(before);
      StepConfigs(After(EMPTY, before), steps[|steps| - 1]);
    }
    RowsAlwaysAgree(steps);
    var late := After(EMPTY, steps);
    if id in late.rows {
      assert RowAgrees(late.rows[id]);
      FreshFacts(late.rows[id].config.routes);
    }
  }

  // ---- Attempts ----

  /** Without an operator a row is tried at most three times. */
  predicate AttemptsBounded(row: Row) {
    row.attempts <= 3 && (row.status == RowPending || row.status == RowProcessing ==> row.attempts <= 2)
  }

  ghost predicate AllBounded(q: Queue) {
    forall id :: id in q.rows ==> AttemptsBounded(q.rows[id])
  }

  lemma StepKeepsAttempts(q: Queue, s: Step)
    requires QueueAgrees(q) && AllBounded(q) && !ByOperator(s)
    ensures AllBounded(Stepped(q, s))
  {
    match s
    case DoRun(w, floodAttempts, oracle) =>
      if w in q.workers {
        assert Driven(q, q.workers[w]);
        RecordKeepsAttempts(q.rows[q.workers[w]], floodAttempts, oracle);
        BoundedRow(q, Finished(q, w, floodAttempts, oracle), q.workers[w]);
      }
    case DoDirect(id, oracle, ingest) =>
      if id in q.direct {
        assert Driven(q, id) && DirectRecorded(q.rows[id], oracle, ingest).attempts == q.rows[id].attempts;
        BoundedRow(q, DirectFinished(q, id, oracle, ingest), id);
      }
    case DoRestart(floodAttempts, oracles, death) => RestartKeepsAttempts(q, floodAttempts, oracles, death);
    case DoClaim(_, _, _, _) => ClaimKeepsAttempts(q, s);
    case DoRelease(w) =>
      if w in q.workers {
        assert Driven(q, q.workers[w]);
        BoundedRow(q, Release(q, w), q.workers[w]);
      }
    case DoPause(_) =>
    case _ => NewRowBounded(q, s);
  }

  lemma ClaimKeepsAttempts(q: Queue, s: Step)
    requires AllBounded(q) && s.DoClaim?
    ensures AllBounded(Stepped(q, s))
  {
  }

  lemma NewRowBounded(q: Queue, s: Step)
    requires AllBounded(q) && Makes(s)
    ensures AllBounded(Stepped(q, s))
  {
  }

  lemma BoundedRow(q: Queue, q': Queue, id: nat)
    requires AllBounded(q) && id in q'.rows && q'.rows == q.rows[id := q'.rows[id]] && AttemptsBounded(q'.rows[id])
    ensures AllBounded(q')
  {
  }

  lemma RecordKeepsAttempts(row: Row, floodAttempts: nat, oracle: Oracle)
    requires row.attempts <= 2
    ensures AttemptsBounded(RunRecord(row, floodAttempts, oracle))
  {
    RunCountsAttempts(LoadJob(row), floodAttempts, oracle);
  }

  lemma RestartKeepsAttempts(q: Queue, floodAttempts: nat, oracles: nat -> Oracle, death: Death)
    requires AllBounded(q)
    ensures AllBounded(Restarted(q, floodAttempts, oracles, death))
  {
    forall id | id in q.rows ensures AttemptsBounded(RestartedRow(q, id, floodAttempts, oracles(id), death)) {}
  }

  /** No job is tried more than three times without an operator, whatever is answered; waits for the
      engine are not counted. */
  lemma {:induction false} AttemptsStayBounded(steps: seq<Step>)
    requires forall m :: 0 <= m < |steps| ==> !ByOperator(steps[m])
    ensures AllBounded(After(EMPTY, steps))
  {
    if steps != [] {
      AttemptsStayBounded(steps[..|steps| - 1]);
      RowsAlwaysAgree(steps[..|steps| - 1]);
      StepKeepsAttempts(After(EMPTY, steps[..|steps| - 1]), steps[|steps| - 1]);
    }
  }

  // ---- The queue as the program keeps it ----

  /** The rows with a smaller id were retried. */
  ghost predicate RetriedBelow(before: map<nat, Row>, rows: map<nat, Row>, bound: nat) {
    rows.Keys == before.Keys && forall k :: k in rows ==> rows[k] == if k < bound then Retried(before[k]) else before[k]
  }

  lemma RetriedBelowAll(q: Queue, rows: map<nat, Row>)
    requires QueueAgrees(q) && RetriedBelow(q.rows, rows, q.nextId)
    ensures rows == RetriedAll(q).rows
  {
  }

  class ForwardQueueStore {
    var rows: map<nat, Row>
    var nextId: nat
    var paused: bool
    var workers: map<nat, nat>
    var direct: set<nat>

    ghost function State(): Queue
      reads this
    {
      Queue(rows, nextId, paused, workers, direct)
    }

    constructor ()
      ensures State() == EMPTY
    {
      rows, nextId, paused, workers, direct := map[], 0, false, map[], {};
    }

    /** Oldest pending row that is due goes to a free worker. */
    method ClaimForward(w: nat, due: set<nat>, valid: bool) returns (found: bool, id: nat)
      requires QueueAgrees(State())
      modifies this
      ensures State() == Stepped(old(State()), DoClaim(w, due, id, valid))
      ensures if found then ClaimTakes(old(State()), due, id) && State() == Claim(old(State()), w, id, valid)
              else State() == old(State()) &&
                   (w < MAX_WORKERS && w !in workers && !paused ==> forall k :: !Claimable(State(), due, k))
      ensures QueueAgrees(State())
    {
      id := 0;
      if paused || w in workers || w >= MAX_WORKERS {
        return false, id;
      }
      while id < nextId
        invariant id <= nextId && State() == old(State())
        invariant forall k: nat :: k < id ==> !Claimable(State(), due, k)
      {
        if id in rows && rows[id].status == RowPending && id in due {
          ClaimAgrees(State(), w, due, id, valid);
          if !valid {
            rows := rows[id := rows[id].(status := RowFailed)];
            return true, id;
          }
          rows := rows[id := rows[id].(status := RowProcessing)];
          workers := workers[w := id];
          return true, id;
        }
        id := id + 1;
      }
      return false, id;
    }

    method ReleaseForwardClaim(w: nat)
      requires QueueAgrees(State()) && w in workers
      modifies this
      ensures State() == Release(old(State()), w) && QueueAgrees(State())
    {
      ReleaseAgrees(State(), w);
      var id := workers[w];
      if rows[id].status == RowProcessing {
        rows := rows[id := rows[id].(status := RowPending)];
      }
      workers := workers - {w};
    }

    /** A worker runs its job and `finishForwardQueue` records the outcome. */
    method RunJob(w: nat, floodAttempts: nat, oracle: Oracle)
      requires QueueAgrees(State()) && w in workers
      modifies this
      ensures State() == Finished(old(State()), w, floodAttempts, oracle) && QueueAgrees(State())
    {
      FinishedRowAgrees(rows[workers[w]], floodAttempts, oracle);
      FreedAgrees(State(), w, RunRecord(rows[workers[w]], floodAttempts, oracle));
      var id := workers[w];
      var row := rows[id];
      var job := new ForwardJob(LoadJob(row));
      var status := job.Forward(floodAttempts, oracle);
      rows := rows[id := row.(status := status, stage := job.stage, dests := job.dests, attempts := job.attempts,
                              deleted := row.deleted || job.deleted)];
      workers := workers - {w};
    }

    /** The direct goroutine sends, then records what `ingest` left to record. */
    method RunDirect(id: nat, oracle: Oracle, ingest: Ingest)
      requires QueueAgrees(State()) && id in direct
      modifies this
      ensures State() == DirectFinished(old(State()), id, oracle, ingest) && QueueAgrees(State())
    {
      DirectRowAgrees(rows[id], oracle, ingest);
      DirectFreedAgrees(State(), id, DirectRecorded(rows[id], oracle, ingest));
      var row := rows[id];
      var job := new ForwardJob(LoadJob(row));
      var end := job.DirectForwardNow(oracle);
      var status := job.RecordDirectOutcome(end, ingest);
      rows := rows[id := row.(status := status, stage := job.stage, dests := job.dests, hasPath := job.hasPath,
                              hasRecord := job.hasRecord, deleted := row.deleted || job.deleted)];
      direct := direct - {id};
    }

    method Retry(id: nat) returns (ok: bool)
      requires QueueAgrees(State())
      modifies this
      ensures State() == Stepped(old(State()), DoRetry(id)) && QueueAgrees(State())
      ensures ok <==> id in old(rows) && (old(rows)[id].status == RowFailed || old(rows)[id].status == RowInterrupted)
    {
      StepAgrees(State(), DoRetry(id));
      if id !in rows || (rows[id].status != RowFailed && rows[id].status != RowInterrupted) {
        assert id in rows ==> rows[id := Retried(rows[id])] == rows;
        return false;
      }
      rows := rows[id := rows[id].(status := RowPending)];
      return true;
    }

    method RetryAll() returns (retried: nat)
      requires QueueAgrees(State())
      modifies this
      ensures State() == RetriedAll(old(State())) && QueueAgrees(State())
    {
      RetriedAllAgrees(State());
      ghost var before := State();
      rows, retried := RetryRows(rows, nextId);
      RetriedBelowAll(before, rows);
    }

    static method RetryRows(before: map<nat, Row>, bound: nat) returns (rows: map<nat, Row>, retried: nat)
      ensures RetriedBelow(before, rows, bound)
    {
      rows, retried := before, 0;
      for id := 0 to bound
        invariant RetriedBelow(before, rows, id)
      {
        if id in rows && (rows[id].status == RowFailed || rows[id].status == RowInterrupted) {
          rows := rows[id := rows[id].(status := RowPending)];
          retried := retried + 1;
        }
      }
    }

    /** The operator resolves uncertain destinations; refused requests change nothing. */
    method Reconcile(id: nat, target: Target, sent: bool) returns (ok: bool)
      requires QueueAgrees(State())
      modifies this
      ensures State() == Stepped(old(State()), DoReconcile(id, target, sent)) && QueueAgrees(State())
      ensures ok <==> id in old(rows) && ReconcileAccepted(old(rows)[id], target, sent)
    {
      StepAgrees(State(), DoReconcile(id, target, sent));
      if id !in rows {
        return false;
      }
      var row;
      row, ok := ReconcileRow(rows[id], target, sent);
      assert !ok ==> rows[id := row] == rows;
      if ok {
        rows := rows[id := row];
      }
    }

    static method ReconcileRow(before: Row, target: Target, sent: bool) returns (row: Row, ok: bool)
      ensures row == Reconciled(before, target, sent) && (ok <==> ReconcileAccepted(before, target, sent)) &&
              (!ok ==> row == before)
    {
      row := before;
      if before.status != RowUncertain {
        return row, false;
      }
      var dests := Doubt(SavedDests(before));
      ghost var doubted := dests;
      if target.One? && (target.index < 0 || target.index >= |dests|) {
        return row, false;
      }
      var changed;
      dests, changed := Resolve(dests, target, sent);
      if target.All? && !changed && !sent {
        assert dests == doubted;
        dests, changed := Resend(dests);
      }
      if !changed {
        return row, false;
      }
      var status := RowPending;
      if HasUncertain(dests) {
        status := RowUncertain;
      } else if sent && AllForwarded(dests) {
        status := RowForwarded;
      }
      return before.(status := status, dests := dests), true;
    }

    static method Doubt(before: seq<Dest>) returns (dests: seq<Dest>)
      ensures dests == Doubted(before)
    {
      dests := before;
      for k := 0 to |before|
        invariant |dests| == |before|
        invariant forall m :: 0 <= m < |before| ==> dests[m] == if m < k then Doubted(before)[m] else before[m]
      {
        if dests[k].status == Pending || dests[k].status == Processing {
          dests := dests[k := dests[k].(status := Uncertain)];
        }
      }
    }

    static method Resolve(before: seq<Dest>, target: Target, sent: bool) returns (dests: seq<Dest>, changed: bool)
      ensures dests == ResolveChosen(before, target, sent) && (changed <==> AnyChosen(before, target))
    {
      dests, changed := before, false;
      for k := 0 to |before|
        invariant |dests| == |before|
        invariant forall m :: 0 <= m < |before| ==>
                    dests[m] == if m < k then ResolveChosen(before, target, sent)[m] else before[m]
        invariant changed <==> exists m :: 0 <= m < k && Chosen(target, m) && before[m].status == Uncertain
      {
        if target.One? && k != target.index {
          continue;
        }
        if dests[k].status != Uncertain {
          continue;
        }
        changed := true;
        if sent {
          dests := dests[k := dests[k].(status := Forwarded, confirmed := true)];
        } else {
          dests := dests[k := dests[k].(status := Pending)];
        }
      }
    }

    static method Resend(before: seq<Dest>) returns (dests: seq<Dest>, changed: bool)
      ensures dests == ResendRest(before) &&
              (changed <==> exists k :: 0 <= k < |before| && before[k].status != Forwarded)
    {
      dests, changed := before, false;
      for k := 0 to |before|
        invariant |dests| == |before|
        invariant forall m :: 0 <= m < |before| ==> dests[m] == if m < k then ResendRest(before)[m] else before[m]
        invariant changed <==> exists m :: 0 <= m < k && before[m].status != Forwarded
      {
        if dests[k].status == Forwarded {
          continue;
        }
        dests := dests[k := dests[k].(status := Pending)];
        changed := true;
      }
    }
  }

  // ---- Start times (waitForwardStart) ----

  /** The shared schedule: the next start that may be given out, in milliseconds. */
  class StartSchedule {
    var next: int

    constructor ()
      ensures next == 0
    {
      next := 0;
    }

    method ReserveStart(now: int, interval: nat) returns (start: int)
      modifies this
      ensures start == StartAt(old(next), now) && next == start + interval
    {
      start := now;
      if next > start {
        start := next;
      }
      next := start + interval;
    }
  }

  function StartAt(next: int, now: int): int {
    if next > now then next else now
  }

  /** The starts given out for calls at these times. */
  function Starts(next: int, nows: seq<int>, interval: nat): seq<int>
    decreases nows
  {
    if nows == [] then []
    else [StartAt(next, nows[0])] + Starts(StartAt(next, nows[0]) + interval, nows[1..], interval)
  }

  /** Any n start times in a row span at least (n - 1) intervals, whenever the workers ask, and
      no worker starts before it asked. */
  lemma {:induction false} StartsAreSpaced(next: int, nows: seq<int>, interval: nat, i: nat, j: nat)
    requires i <= j < |nows|
    ensures var starts := Starts(next, nows, interval);
            |starts| == |nows| && starts[j] - starts[i] >= (j - i) * interval && starts[i] >= nows[i] &&
            starts[i] >= next + i * interval
    decreases nows
  {
    if i > 0 {
      StartsAreSpaced(StartAt(next, nows[0]) + interval, nows[1..], interval, i - 1, j - 1);
      assert (i - 1) * interval + interval == i * interval;
    } else if j > 0 {
      StartsAreSpaced(StartAt(next, nows[0]) + interval, nows[1..], interval, j - 1, j - 1);
      assert (j - 1) * interval + interval == j * interval;
    }
    StartsLength(next, nows, interval);
  }

  lemma {:induction false} StartsLength(next: int, nows: seq<int>, interval: nat)
    ensures |Starts(next, nows, interval)| == |nows|
    decreases nows
  {
    if nows != [] {
      StartsLength(StartAt(next, nows[0]) + interval, nows[1..], interval);
    }
  }
}
