/** What holds over every run of backfill jobs: exactly-once enumeration, final cancels, pauses that
    never fail a job, one worker per job. */
module HistoryRuns {
  import opened HistoryRunner

  // ---- Exactly once ----

  /** Every run, whatever crashes, pauses and resumes it holds: the checkpoints of a job visit a
      descending run of its window without repeat and without gap, the queued work is that of the
      visited messages, the counters count them, and "done" means the limit or the whole window. */
  lemma ExactlyOnce(steps: seq<Step>, id: nat)
    ensures var s := After(EMPTY, steps);
            id in s.rows ==>
              var j := s.rows[id];
              && WalkOk(s.chat, j.bounds, j.walk)
              && id in s.work && s.work[id] == AllTasks(j.walk.visited)
              && j.processed == |j.walk.visited| && j.downloaded == Downloads(j.walk.visited) <= j.processed
              && (j.limit.Some? ==> j.processed <= j.limit.value)
              && (j.state == Done ==> LimitReached(j) || Complete(s.chat, j.bounds, j.walk))
  {
    RunsKeep(EMPTY, steps);
    var s := After(EMPTY, steps);
    if id in s.rows {
      assert RowOk(s, id, Rows(s.chat));
      DownloadsAtMost(s.rows[id].walk.visited);
    }
  }

  lemma {:induction false} DownloadsAtMost(visited: seq<Visit>)
    ensures Downloads(visited) <= |visited|
  {
    if visited != [] {
      DownloadsAtMost(visited[..|visited| - 1]);
    }
  }

  /** The tasks of the visited messages are queued, and nothing else is ... */
  lemma {:induction false} TasksOfVisited(visited: seq<Visit>, task: Task)
    ensures task in AllTasks(visited) <==> exists k :: 0 <= k < |visited| && task in Tasks(visited[k])
  {
    if visited != [] {
      var init, last := visited[..|visited| - 1], visited[|visited| - 1];
      TasksOfVisited(init, task);
      if task in AllTasks(init) {
        var k :| 0 <= k < |init| && task in Tasks(init[k]);
        assert visited[k] == init[k];
      }
      if k :| 0 <= k < |visited| && task in Tasks(visited[k]) {
        assert k < |init| ==> init[k] == visited[k];
      }
    }
  }

  /** ... and none of them twice. */
  lemma {:induction false} NoTaskTwice(visited: seq<Visit>)
    requires forall a, b :: 0 <= a < b < |visited| ==> visited[a].id > visited[b].id
    ensures forall a, b :: 0 <= a < b < |AllTasks(visited)| ==> AllTasks(visited)[a] != AllTasks(visited)[b]
  {
    if visited != [] {
      var init, last := visited[..|visited| - 1], Tasks(visited[|visited| - 1]);
      NoTaskTwice(init);
      forall a, b | 0 <= a < |AllTasks(init)| && 0 <= b < |last| ensures AllTasks(init)[a] != last[b] {
        NotOfLast(visited, AllTasks(init)[a]);
      }
    }
  }

  lemma NotOfLast(visited: seq<Visit>, task: Task)
    requires visited != [] && forall a, b :: 0 <= a < b < |visited| ==> visited[a].id > visited[b].id
    requires task in AllTasks(visited[..|visited| - 1])
    ensures task !in Tasks(visited[|visited| - 1])
  {
    IdOfTask(visited[..|visited| - 1], task);
  }

  lemma {:induction false} IdOfTask(visited: seq<Visit>, task: Task)
    requires task in AllTasks(visited)
    ensures exists k :: 0 <= k < |visited| && visited[k].id == task.id
  {
    var init := visited[..|visited| - 1];
    if task in Tasks(visited[|visited| - 1]) {
      assert visited[|visited| - 1].id == task.id;
    } else {
      IdOfTask(init, task);
      var k :| 0 <= k < |init| && init[k].id == task.id;
      assert visited[k].id == task.id;
    }
  }

  // ---- What one step may do to one job ----

  predicate RowMoves(j: Job, k: Job) {
    && k.bounds == j.bounds && k.limit == j.limit
    && (j.state != Running ==> k == j)
    && (j.cancelled ==> k == j.(state := k.state) && (k.state == Running || k.state == Stopped || k.state == j.state))
    && WalkMoves(j, k)
  }

  /** The cursor moves only with a checkpoint and then strictly down, and the window of an
      initialized job never changes. */
  predicate WalkMoves(j: Job, k: Job) {
    && (k.walk.visited == j.walk.visited ||
        (|k.walk.visited| == |j.walk.visited| + 1 && k.walk.visited[..|j.walk.visited|] == j.walk.visited))
    && (k.walk.visited != j.walk.visited ==> k.walk.cursor > 0 && (j.walk.cursor > 0 ==> k.walk.cursor < j.walk.cursor))
    && (j.initialized ==>
          && k.initialized && k.walk.minId == j.walk.minId && k.walk.start == j.walk.start
          && (k.walk.visited == j.walk.visited ==> k.walk.cursor == j.walk.cursor)
          && (j.walk.visited != [] ==> k.walk.horizon == j.walk.horizon))
  }

  /** Cancelled on disk, or cancelled and deleted since. */
  predicate GivenUp(s: State, id: nat) {
    id < s.next && id in s.work && (id in s.rows ==> s.rows[id].cancelled)
  }

  /** Paused or cancelled, and no new worker was started since. */
  predicate Held(s: State, id: nat) {
    id in s.jobs && id in s.rows && s.rows[id].state == Running && (s.jobs[id].paused || s.rows[id].cancelled)
  }

  /** Every worker of the job has handled its end. */
  ghost predicate Unmanned(s: State, id: nat) {
    forall t :: t in s.workers && s.workers[t].job == id ==> s.workers[t].phase.Finished?
  }

  predicate Concluded(state: JobState) {
    state == Done || state == Errored
  }

  predicate Restarts(s: State, step: Step, id: nat) {
    step.DoCrash? || (step.DoStart? && step.id == id && Startable(s, id))
  }

  /** The step ends a worker of the job that no pause interrupted. */
  predicate Ends(s: State, step: Step, id: nat) {
    && step.DoFinish? && step.saved && step.t in s.workers && s.workers[step.t].job == id
    && !s.workers[step.t].stopped && id in s.jobs && !s.jobs[id].paused && !s.jobs[id].job.cancelled
  }

  ghost predicate Moves(s: State, s': State, id: nat, restarts: bool, ends: bool) {
    && s'.next >= s.next
    && (id !in s.rows && id < s.next ==> id !in s'.rows)
    && (id in s.rows && id in s'.rows ==> RowMoves(s.rows[id], s'.rows[id]))
    && (id in s.rows && s.rows[id].state == Running ==> id in s'.rows)
    && (GivenUp(s, id) ==> id in s'.work && s'.work[id] == s.work[id])
    && (id in s.rows && id in s'.rows && s.rows[id].state == Running && Concluded(s'.rows[id].state) ==> ends)
    && (Held(s, id) && !restarts ==> Held(s', id) || s'.rows[id].state == Stopped)
    && (id in s.rows && s.rows[id].cancelled && s.rows[id].state == Running && Unmanned(s, id) ==>
          Unmanned(s', id) && s'.rows[id].state == Running)
  }

  lemma PutMoves(s: State, t: nat, l: Live, tasks: seq<Task>, phase: Phase, id: nat, ends: bool, ok: RowProperty,
                 fits: PhaseProperty)
    requires Sound(s, ok, fits) && t in s.workers && !s.workers[t].phase.Finished? && s.workers[t].job in s.jobs
    requires var was := s.jobs[s.workers[t].job];
             && RowMoves(was.job, l.job) && (was.job.cancelled ==> tasks == []) && (was.paused ==> l.paused)
             && (Concluded(l.job.state) ==> !was.paused && !was.job.cancelled && (id == s.workers[t].job ==> ends))
    ensures Moves(s, Put(s, t, l, tasks, phase), id, false, ends)
  {
    WorkersJob(s, t, ok, fits);
    var job := s.workers[t].job;
    assert job in s.work && s.work[job] + [] == s.work[job];
  }

  lemma PhaseMoves(s: State, t: nat, phase: Phase, id: nat, ok: RowProperty, fits: PhaseProperty)
    requires Sound(s, ok, fits) && t in s.workers && !s.workers[t].phase.Finished?
    ensures Moves(s, SetPhase(s, t, phase), id, false, false)
  {
    WorkersJob(s, t, ok, fits);
  }

  lemma WorkerStepMoves(s: State, step: Step, id: nat)
    requires Inv(s) && Possible(s, step) && OfWorker(step)
    ensures Moves(s, Next(s, step), id, false, Ends(s, step, id))
  {
    match step
    case DoInitialize(t, oldest, newest) => InitializeMoves(s, t, oldest, newest, id, Rows(s.chat), Phases(s.chat));
    case DoEngineLost(t) => EngineLostMoves(s, t, id, Rows(s.chat), Phases(s.chat));
    case DoFetch(t, room, page, done) => FetchMoves(s, t, page, done, id, Rows(s.chat), Phases(s.chat));
    case DoCheckpoint(t, allowed, route, changed) =>
      var v := Visit(s.workers[t].phase.page[0], allowed, route, changed);
      CheckpointKeeps(s, t, v);
      CheckpointMoves(s, t, v, id, Rows(s.chat), Phases(s.chat));
    case DoFail(t) => PhaseMoves(s, t, Ended(false), id, Rows(s.chat), Phases(s.chat));
    case DoFinish(t, saved) => FinishMoves(s, t, saved, id, Rows(s.chat), Phases(s.chat));
    case DoLeave(t) => LeaveMoves(s, t, id, Rows(s.chat), Phases(s.chat));
  }

  lemma InitializeMoves(s: State, t: nat, oldest: nat, newest: nat, id: nat, ok: RowProperty, fits: PhaseProperty)
    requires Sound(s, ok, fits) && In(s, t, true)
    ensures Moves(s, Initialized(s, t, oldest, newest), id, false, false)
  {
    WorkersJob(s, t, ok, fits);
    var l := s.jobs[s.workers[t].job];
    if l.job.cancelled {
      PhaseMoves(s, t, Ended(false), id, ok, fits);
    } else {
      PutMoves(s, t, l.(job := InitializedJob(l.job, oldest, newest)), [], Walking([], false), id, false, ok, fits);
    }
  }

  lemma EngineLostMoves(s: State, t: nat, id: nat, ok: RowProperty, fits: PhaseProperty)
    requires Sound(s, ok, fits) && In(s, t, true)
    ensures Moves(s, EngineLost(s, t), id, false, false)
  {
    WorkersJob(s, t, ok, fits);
    var l := s.jobs[s.workers[t].job];
    if l.job.cancelled {
      PhaseMoves(s, t, Ended(false), id, ok, fits);
    } else {
      PutMoves(s, t, l.(paused := true), [], Ended(false), id, false, ok, fits);
    }
  }

  lemma FetchMoves(s: State, t: nat, page: seq<nat>, done: bool, id: nat, ok: RowProperty, fits: PhaseProperty)
    requires Sound(s, ok, fits) && In(s, t, false)
    ensures Moves(s, Fetched(s, t, page, done), id, false, false)
  {
    WorkersJob(s, t, ok, fits);
    var l := s.jobs[s.workers[t].job];
    if l.job.cancelled {
      PhaseMoves(s, t, Ended(false), id, ok, fits);
    } else if LimitReached(l.job) {
      PhaseMoves(s, t, Ended(true), id, ok, fits);
    } else {
      PutMoves(s, t, l.(job := Fetching(s.chat, l.job)), [], PagePhase(page, done), id, false, ok, fits);
    }
  }

  lemma CheckpointMoves(s: State, t: nat, v: Visit, id: nat, ok: RowProperty, fits: PhaseProperty)
    requires Sound(s, ok, fits) && In(s, t, false) && s.workers[t].phase.page != [] && s.workers[t].job in s.jobs
    ensures Moves(s, Checkpointed(s, t, v), id, false, false)
  {
    WorkersJob(s, t, ok, fits);
    var w := s.workers[t];
    var l, rest := s.jobs[w.job], NextPhase(w.phase.page[1..], w.phase.done);
    if l.job.cancelled {
      PhaseMoves(s, t, Ended(false), id, ok, fits);
    } else if LimitReached(l.job) {
      PhaseMoves(s, t, rest, id, ok, fits);
    } else if v.id == 0 || (l.job.walk.cursor > 0 && v.id >= l.job.walk.cursor) {
      PhaseMoves(s, t, Ended(false), id, ok, fits);
    } else {
      assert (l.job.walk.visited + [v])[..|l.job.walk.visited|] == l.job.walk.visited;
      PutMoves(s, t, l.(job := CommittedJob(l.job, v)), Tasks(v), rest, id, false, ok, fits);
    }
  }

  lemma FinishMoves(s: State, t: nat, saved: bool, id: nat, ok: RowProperty, fits: PhaseProperty)
    requires Sound(s, ok, fits) && t in s.workers && s.workers[t].phase.Ended?
    ensures Moves(s, FinishedStep(s, t, saved), id, false, Ends(s, DoFinish(t, saved), id))
  {
    WorkersJob(s, t, ok, fits);
    var l := s.jobs[s.workers[t].job];
    if (l.paused && !l.job.cancelled) || !saved {
      PhaseMoves(s, t, Finished, id, ok, fits);
    } else {
      PutMoves(s, t, l.(job := l.job.(state := FinalState(l.job, s.workers[t].phase.ok))), [], Finished, id,
               Ends(s, DoFinish(t, saved), id), ok, fits);
    }
  }

  lemma LeaveMoves(s: State, t: nat, id: nat, ok: RowProperty, fits: PhaseProperty)
    requires Sound(s, ok, fits) && t in s.workers
    ensures Moves(s, Left(s, t), id, false, false)
  {
  }

  lemma StartMoves(s: State, id0: nat, launched: bool, id: nat, ok: RowProperty, fits: PhaseProperty)
    requires Sound(s, ok, fits)
    ensures Moves(s, Started(s, id0, launched), id, id0 == id && Startable(s, id), false)
  {
  }

  lemma CancelMoves(s: State, id0: nat, id: nat, ok: RowProperty, fits: PhaseProperty)
    requires Sound(s, ok, fits)
    ensures Moves(s, CancelledStep(s, id0), id, false, false)
  {
    if !Cancellable(s, id0) {
      QuietMoves(s, s.paused, s.chat, id);
    } else {
      CancelledMoves(s, id0, id);
    }
  }

  lemma CancelledMoves(s: State, id0: nat, id: nat)
    requires Cancellable(s, id0) && id0 in s.rows && s.jobs[id0].job == s.rows[id0] && id0 < s.next
    requires forall c :: c in s.cancels && s.cancels[c] in s.workers ==> s.workers[s.cancels[c]].job == c
    ensures Moves(s, CancelledStep(s, id0), id, false, false)
  {
  }

  lemma CreateMoves(s: State, j: Job, id: nat, ok: RowProperty, fits: PhaseProperty)
    requires Sound(s, ok, fits)
    ensures Moves(s, Created(s, j), id, false, false)
  {
    assert forall k :: k in s.rows ==> RowOk(s, k, ok);
  }

  lemma PauseMoves(s: State, id: nat, ok: RowProperty, fits: PhaseProperty)
    requires Sound(s, ok, fits)
    ensures Moves(s, PausedStep(s), id, false, false)
  {
  }

  lemma RecoverMoves(s: State, paused: bool, id: nat, ok: RowProperty, fits: PhaseProperty)
    requires Sound(s, ok, fits)
    ensures Moves(s, Recovered(s, paused), id, true, false)
  {
  }

  lemma DeleteMoves(s: State, id0: nat, id: nat, ok: RowProperty, fits: PhaseProperty)
    requires Sound(s, ok, fits)
    ensures Moves(s, DeletedStep(s, id0), id, false, false)
  {
    if id0 !in s.rows || s.rows[id0].state == Running {
      QuietMoves(s, s.paused, s.chat, id);
    } else if id0 in s.jobs {
      assert s.jobs[id0].job == s.rows[id0];
    }
  }

  lemma ExpireMoves(s: State, id0: nat, id: nat, ok: RowProperty, fits: PhaseProperty)
    requires Sound(s, ok, fits)
    ensures Moves(s, ExpiredStep(s, id0), id, false, false)
  {
  }

  lemma QuietMoves(s: State, paused: bool, chat: Chat, id: nat)
    ensures Moves(s, s.(paused := paused, chat := chat), id, false, false)
  {
  }

  predicate OfOperator(step: Step) {
    step.DoCancel? || step.DoPause? || step.DoResume? || step.DoDelete? || step.DoExpire?
  }

  lemma OperatorStepMoves(s: State, step: Step, id: nat, ok: RowProperty, fits: PhaseProperty)
    requires Sound(s, ok, fits) && OfOperator(step)
    ensures Moves(s, Next(s, step), id, false, false)
  {
    match step
    case DoCancel(id0) => CancelMoves(s, id0, id, ok, fits);
    case DoPause => PauseMoves(s, id, ok, fits);
    case DoResume => QuietMoves(s, false, s.chat, id);
    case DoDelete(id0) => DeleteMoves(s, id0, id, ok, fits);
    case DoExpire(id0) => ExpireMoves(s, id0, id, ok, fits);
  }

  lemma OtherStepMoves(s: State, step: Step, id: nat)
    requires Inv(s) && !OfOperator(step) && !OfWorker(step)
    ensures Moves(s, Next(s, step), id, Restarts(s, step, id), false)
  {
    match step
    case DoCreate(mode, bounds, limit, offset) =>
      CreateMoves(s, NewJob(mode, bounds, limit, offset), id, Rows(s.chat), Phases(s.chat));
    case DoStart(id0, launched) => StartMoves(s, id0, launched, id, Rows(s.chat), Phases(s.chat));
    case DoCrash(paused) => RecoverMoves(s, paused, id, Rows(s.chat), Phases(s.chat));
    case DoArrive(m, date) => QuietMoves(s, s.paused, Arrived(s, m, date).chat, id);
  }

  /** One step, seen from one job. */
  lemma StepMoves(s: State, step: Step, id: nat)
    requires Inv(s)
    ensures Moves(s, Take(s, step), id, Restarts(s, step, id), Ends(s, step, id))
  {
    if !Possible(s, step) {
      QuietMoves(s, s.paused, s.chat, id);
    } else if OfWorker(step) {
      WorkerStepMoves(s, step, id);
    } else if OfOperator(step) {
      OperatorStepMoves(s, step, id, Rows(s.chat), Phases(s.chat));
    } else {
      OtherStepMoves(s, step, id);
    }
  }

  /** Over one step of a run, also a crash: the cursor of a job falls with every checkpoint and
      stands still otherwise, and work is queued for it exactly by the steps that checkpoint. */
  lemma CursorFalls(s: State, step: Step, id: nat)
    requires Inv(s) && id in s.rows && id in Take(s, step).rows
    ensures RowMoves(s.rows[id], Take(s, step).rows[id])
    ensures var j, k := s.rows[id], Take(s, step).rows[id];
            && id in s.work && id in Take(s, step).work
            && Take(s, step).work[id] == if k.walk.visited == j.walk.visited then s.work[id]
               else s.work[id] + Tasks(k.walk.visited[|j.walk.visited|])
  {
    var s' := Take(s, step);
    assert RowMoves(s.rows[id], s'.rows[id]) by {
      StepMoves(s, step, id);
    }
    assert id in s'.work && JobOk(s'.chat, s'.rows[id], s'.work[id]) by {
      StepKeeps(s, step);
      assert RowOk(s', id, Rows(s'.chat));
    }
    assert RowOk(s, id, Rows(s.chat));
    WorkFollows(s.rows[id].walk.visited, s'.rows[id].walk.visited);
  }

  lemma WorkFollows(before: seq<Visit>, after: seq<Visit>)
    requires after == before || (|after| == |before| + 1 && after[..|before|] == before)
    ensures AllTasks(after) == if after == before then AllTasks(before) else AllTasks(before) + Tasks(after[|before|])
  {
  }

  // ---- Cancel ----

  lemma CancelGivesUp(s: State, id: nat)
    requires Inv(s) && Cancellable(s, id)
    ensures GivenUp(CancelledStep(s, id), id)
  {
    assert RowOk(s, id, Rows(s.chat));
  }

  /** Once a cancel is acknowledged nothing more is ever queued for the job, over any further
      steps and restarts, and the job can only become `cancelled`. */
  lemma {:induction false} CancelIsFinal(s: State, steps: seq<Step>, id: nat)
    requires Inv(s) && GivenUp(s, id)
    ensures var s' := After(s, steps);
            && GivenUp(s', id) && s'.work[id] == s.work[id]
            && (id in s'.rows ==>
                  id in s.rows && (s'.rows[id].state == s.rows[id].state || s'.rows[id].state == Stopped))
  {
    if steps != [] {
      var init := steps[..|steps| - 1];
      CancelIsFinal(s, init, id);
      RunsKeep(s, init);
      StepMoves(After(s, init), steps[|steps| - 1], id);
    }
  }

  /** A finished job stays as it is until it is deleted. */
  lemma {:induction false} TerminalIsFinal(s: State, steps: seq<Step>, id: nat)
    requires Inv(s) && id in s.rows && s.rows[id].state != Running
    ensures id < After(s, steps).next && (id in After(s, steps).rows ==> After(s, steps).rows[id] == s.rows[id])
  {
    if steps == [] {
      assert RowOk(s, id, Rows(s.chat));
    } else {
      var init := steps[..|steps| - 1];
      TerminalIsFinal(s, init, id);
      RunsKeep(s, init);
      StepMoves(After(s, init), steps[|steps| - 1], id);
    }
  }

  // ---- Pause and resume ----

  /** A job turns into done or error only at the end of a worker that no pause interrupted. */
  lemma OnlyUninterruptedWorkersEnd(s: State, step: Step, id: nat)
    requires Inv(s) && id in s.rows && s.rows[id].state == Running && id in Take(s, step).rows &&
             Concluded(Take(s, step).rows[id].state)
    ensures Ends(s, step, id)
  {
    StepMoves(s, step, id);
  }

  lemma {:induction false} HeldUntilRestart(s: State, steps: seq<Step>, id: nat)
    requires Inv(s) && Held(s, id)
    requires forall n :: 0 <= n < |steps| ==> !Restarts(After(s, steps[..n]), steps[n], id)
    ensures var s' := After(s, steps); id < s'.next && (Held(s', id) || id !in s'.rows || s'.rows[id].state == Stopped)
  {
    if steps == [] {
      assert RowOk(s, id, Rows(s.chat));
    } else {
      var init := steps[..|steps| - 1];
      assert forall n :: 0 <= n < |init| ==> init[..n] == steps[..n] && init[n] == steps[n];
      HeldUntilRestart(s, init, id);
      RunsKeep(s, init);
      assert !Restarts(After(s, init), steps[|steps| - 1], id);
      StepMoves(After(s, init), steps[|steps| - 1], id);
    }
  }

  /** A pause, followed at once by a resume or not, never turns a job into done or error: it
      stays running, or stops as cancelled, until a new worker takes over. */
  lemma PausedJobsHold(s: State, steps: seq<Step>, id: nat)
    requires Inv(s) && id in s.jobs && s.rows[id].state == Running
    requires forall n :: 0 <= n < |steps| ==> !Restarts(After(PausedStep(s), steps[..n]), steps[n], id)
    ensures var s' := After(PausedStep(s), steps);
            Held(s', id) || id !in s'.rows || s'.rows[id].state == Stopped
  {
    PauseSound(s, Rows(s.chat), Phases(s.chat));
    HeldUntilRestart(PausedStep(s), steps, id);
  }

  /** While the old worker is still registered, the start of a resume does nothing. */
  lemma ResumeWaitsForOldWorker(s: State, id: nat, launched: bool)
    requires Inv(s) && id in s.cancels
    ensures var resumed := PausedStep(s).(paused := false);
            Started(resumed, id, launched) == resumed && !Restarts(resumed, DoStart(id, launched), id)
  {
  }

  /** At most one worker runs a job, also across restarts. */
  lemma OneWorkerPerJob(steps: seq<Step>, t: nat, u: nat)
    ensures var s := After(EMPTY, steps);
            t in s.workers && u in s.workers && s.workers[t].job == s.workers[u].job ==> t == u
  {
    RunsKeep(EMPTY, steps);
    var s := After(EMPTY, steps);
    if t in s.workers && u in s.workers {
      assert WorkerOk(s, t, Phases(s.chat)) && WorkerOk(s, u, Phases(s.chat));
    }
  }

  // ---- A cancel that nobody completes ----

  /** No worker takes up a cancelled job again. */
  lemma {:induction false} NobodyCompletes(s: State, steps: seq<Step>, id: nat)
    requires Inv(s) && id in s.rows && s.rows[id].state == Running && s.rows[id].cancelled && Unmanned(s, id)
    ensures var s' := After(s, steps);
            id in s'.rows && s'.rows[id].state == Running && s'.rows[id].cancelled && Unmanned(s', id)
  {
    if steps != [] {
      var init := steps[..|steps| - 1];
      NobodyCompletes(s, init, id);
      RunsKeep(s, init);
      StepMoves(After(s, init), steps[|steps| - 1], id);
    }
  }

  /** An acknowledged cancel can still become the final state `cancelled` exactly while a worker
      of the job has not yet handled its end. */
  lemma CancelCompletesExactly(s: State, id: nat)
    requires Inv(s) && id in s.rows && s.rows[id].state == Running && s.rows[id].cancelled
    ensures (exists steps :: id in After(s, steps).rows && After(s, steps).rows[id].state == Stopped) <==>
              !Unmanned(s, id)
  {
    if Unmanned(s, id) {
      forall steps | id in After(s, steps).rows ensures After(s, steps).rows[id].state != Stopped {
        NobodyCompletes(s, steps, id);
      }
    } else {
      var t :| t in s.workers && s.workers[t].job == id && !s.workers[t].phase.Finished?;
      var steps := WorkerCompletes(s, t);
      assert id in After(s, steps).rows && After(s, steps).rows[id].state == Stopped;
    }
  }

  lemma AfterOne(s: State, a: Step)
    ensures After(s, [a]) == Take(s, a)
  {
    assert [a][..0] == [];
  }

  lemma AfterTwo(s: State, a: Step, b: Step)
    ensures After(s, [a, b]) == Take(Take(s, a), b)
  {
    assert [a, b][..1] == [a];
    AfterOne(s, a);
  }

  lemma WorkerCompletes(s: State, t: nat) returns (steps: seq<Step>)
    requires Inv(s) && t in s.workers && !s.workers[t].phase.Finished? && s.workers[t].job in s.rows &&
             s.rows[s.workers[t].job].cancelled
    ensures var s' := After(s, steps); s.workers[t].job in s'.rows && s'.rows[s.workers[t].job].state == Stopped
  {
    if s.workers[t].phase.Ended? {
      EndedCompletes(s, t);
      steps := [DoFinish(t, true)];
      AfterOne(s, DoFinish(t, true));
    } else {
      steps := [DoFail(t), DoFinish(t, true)];
      AfterTwo(s, DoFail(t), DoFinish(t, true));
      FailedCompletes(s, t);
    }
  }

  lemma FailedCompletes(s: State, t: nat)
    requires Inv(s) && (In(s, t, true) || In(s, t, false)) && s.workers[t].job in s.rows &&
             s.rows[s.workers[t].job].cancelled
    ensures var s' := Take(Take(s, DoFail(t)), DoFinish(t, true));
            s.workers[t].job in s'.rows && s'.rows[s.workers[t].job].state == Stopped
  {
    FailKeeps(s, t);
    var ended := SetPhase(s, t, Ended(false));
    assert Take(s, DoFail(t)) == ended;
    EndedCompletes(ended, t);
  }

  lemma EndedCompletes(s: State, t: nat)
    requires Inv(s) && t in s.workers && s.workers[t].phase.Ended? && s.workers[t].job in s.rows &&
             s.rows[s.workers[t].job].cancelled
    ensures var s' := Take(s, DoFinish(t, true));
            s.workers[t].job in s'.rows && s'.rows[s.workers[t].job].state == Stopped
  {
    WorkersJob(s, t, Rows(s.chat), Phases(s.chat));
  }
}
