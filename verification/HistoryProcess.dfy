/** Backfill jobs as the process keeps them (core-service/internal/app/history_runner.go and
    history_api.go): one object whose entry points are the steps of HistoryRunner. */
module HistoryProcess {
  import opened HistoryRunner

  class Runner {
    var rows: map<nat, Job>
    var work: map<nat, seq<Task>>
    var jobs: map<nat, Live>
    var workers: map<nat, Worker>
    var cancels: map<nat, nat>
    var paused: bool
    var chat: Chat
    var next: nat

    ghost function Value(): State
      reads this
    {
      State(rows, work, jobs, workers, cancels, paused, chat, next)
    }

    constructor ()
      ensures Value() == EMPTY
    {
      rows, work, jobs, workers, cancels, paused, chat, next :=
        map[], map[], map[], map[], map[], false, Chat(map[], 0), 0;
    }

    /** `handleHistoryStart`, once its checks passed. */
    method CreateJob(mode: Mode, bounds: Bounds, limit: Option<nat>, offset: nat) returns (id: nat)
      modifies this
      ensures Value() == Take(old(Value()), DoCreate(mode, bounds, limit, offset)) && id == old(next)
    {
      id := next;
      var j := NewJob(mode, bounds, limit, offset);
      rows := rows[id := j];
      work := work[id := []];
      jobs := jobs[id := Live(j, false)];
      next := next + 1;
    }

    method StartHistoryWorker(id: nat, launched: bool)
      modifies this
      ensures Value() == Take(old(Value()), DoStart(id, launched))
    {
      if paused || id !in jobs || jobs[id].job.state != Running || jobs[id].job.cancelled || id in cancels {
        return;
      }
      jobs := jobs[id := jobs[id].(paused := false)];
      if launched {
        workers := workers[next := Worker(id, false, Starting)];
        cancels := cancels[id := next];
        next := next + 1;
      }
    }

    method SetWorkerPhase(t: nat, phase: Phase)
      requires t in workers
      modifies this`workers
      ensures Value() == SetPhase(old(Value()), t, phase)
    {
      workers := workers[t := workers[t].(phase := phase)];
    }

    /** One transaction, then memory: the row, the work and the job in memory change together. */
    method Commit(t: nat, j: Job, tasks: seq<Task>, phase: Phase)
      requires t in workers && workers[t].job in jobs
      modifies this
      ensures Value() == Put(old(Value()), t, old(jobs)[old(workers)[t].job].(job := j), tasks, phase)
    {
      var id := workers[t].job;
      rows := rows[id := j];
      work := work[id := (if id in work then work[id] else []) + tasks];
      jobs := jobs[id := jobs[id].(job := j)];
      workers := workers[t := workers[t].(phase := phase)];
    }

    method InitializeHistory(t: nat, oldest: nat, newest: nat)
      requires In(Value(), t, true)
      modifies this
      ensures Value() == Take(old(Value()), DoInitialize(t, oldest, newest))
    {
      var id := workers[t].job;
      if id !in jobs || jobs[id].job.cancelled {
        SetWorkerPhase(t, Ended(false));
        return;
      }
      var j := jobs[id].job;
      if !j.initialized {
        if j.mode == PullOlder && (j.bounds.offset > 0 || j.bounds.min > 0) {
        } else if j.mode == PullOlder {
          j := j.(walk := j.walk.(cursor := oldest, start := oldest));
        } else if j.mode == CatchUp {
          j := j.(walk := j.walk.(minId := newest));
        }
        j := j.(initialized := true);
      }
      Commit(t, j, [], Walking([], false));
    }

    /** `runHistory` finds the engine stopped. */
    method LoseEngine(t: nat)
      requires In(Value(), t, true)
      modifies this
      ensures Value() == Take(old(Value()), DoEngineLost(t))
    {
      var id := workers[t].job;
      if id !in jobs || jobs[id].job.cancelled {
        SetWorkerPhase(t, Ended(false));
        return;
      }
      jobs := jobs[id := jobs[id].(paused := true)];
      SetWorkerPhase(t, Ended(false));
    }

    /** The guards of the loop and the page Telegram answers with. */
    method FetchPage(t: nat, ghost room: nat, page: seq<nat>, done: bool)
      requires In(Value(), t, false) && workers[t].phase.page == [] && PageOffered(Value(), t, room, page, done)
      modifies this
      ensures Value() == Take(old(Value()), DoFetch(t, room, page, done))
    {
      var id := workers[t].job;
      if id !in jobs || jobs[id].job.cancelled {
        SetWorkerPhase(t, Ended(false));
        return;
      }
      var j := jobs[id].job;
      if j.limit.Some? && j.processed >= j.limit.value {
        SetWorkerPhase(t, Ended(true));
        return;
      }
      Commit(t, Fetching(chat, j), [], if page == [] then Ended(done) else Walking(page, done));
    }

    method CheckpointHistory(t: nat, allowed: bool, route: Route, changed: bool)
      requires In(Value(), t, false) && workers[t].phase.page != []
      modifies this
      ensures Value() == Take(old(Value()), DoCheckpoint(t, allowed, route, changed))
    {
      var id := workers[t].job;
      if id !in jobs || jobs[id].job.cancelled {
        SetWorkerPhase(t, Ended(false));
        return;
      }
      var j := jobs[id].job;
      var cursor, rest := workers[t].phase.page[0], NextPhase(workers[t].phase.page[1..], workers[t].phase.done);
      if j.limit.Some? && j.processed >= j.limit.value {
        SetWorkerPhase(t, rest);
        return;
      }
      if cursor == 0 || (j.walk.cursor > 0 && cursor >= j.walk.cursor) {
        SetWorkerPhase(t, Ended(false));
        return;
      }
      var committed, tasks := Count(j, Visit(cursor, allowed, route, changed));
      Commit(t, committed, tasks, rest);
    }

    /** The counters and the queued work of one message. */
    static method Count(before: Job, v: Visit) returns (j: Job, tasks: seq<Task>)
      ensures j == CommittedJob(before, v) && tasks == Tasks(v)
    {
      j := before.(processed := before.processed + 1,
                   walk := before.walk.(cursor := v.id, visited := before.walk.visited + [v]));
      tasks := [];
      if v.allowed {
        if v.route == DirectOnly || v.route == Both {
          tasks := tasks + [Forward(v.id)];
        }
        if v.route != DirectOnly {
          tasks := tasks + [Download(v.id)];
          if v.changed {
            j := j.(downloaded := j.downloaded + 1);
          }
        }
      }
    }

    method FinishHistory(t: nat, saved: bool)
      requires t in workers && workers[t].phase.Ended?
      modifies this
      ensures Value() == Take(old(Value()), DoFinish(t, saved))
    {
      var id := workers[t].job;
      if id !in jobs || (jobs[id].paused && !jobs[id].job.cancelled) || !saved {
        SetWorkerPhase(t, Finished);
        return;
      }
      var state := Done;
      if jobs[id].job.cancelled {
        state := Stopped;
      } else if !workers[t].phase.ok {
        state := Errored;
      }
      Commit(t, jobs[id].job.(state := state), [], Finished);
    }

    /** The end of the goroutine; the result says whether it starts a new one. */
    method Leave(t: nat) returns (resume: bool)
      requires t in workers && workers[t].phase.Finished?
      modifies this
      ensures Value() == Take(old(Value()), DoLeave(t))
      ensures resume <==> Startable(Value(), old(workers)[t].job)
    {
      var id := workers[t].job;
      workers := workers - {t};
      cancels := cancels - {id};
      resume := !paused && id in jobs && jobs[id].job.state == Running && !jobs[id].job.cancelled;
    }

    /** The acknowledgement is the result. */
    method CancelHistory(id: nat) returns (acknowledged: bool)
      modifies this
      ensures Value() == Take(old(Value()), DoCancel(id))
      ensures acknowledged <==> Cancellable(old(Value()), id)
    {
      if id !in jobs || jobs[id].job.state != Running {
        return false;
      }
      var j := jobs[id].job.(cancelled := true);
      rows := rows[id := j];
      jobs := jobs[id := jobs[id].(job := j)];
      if id in cancels && cancels[id] in workers {
        workers := workers[cancels[id] := workers[cancels[id]].(stopped := true)];
      }
      return true;
    }

    /** `deleteHistory` for one job that is not running. */
    method DeleteHistory(id: nat)
      modifies this
      ensures Value() == Take(old(Value()), DoDelete(id))
    {
      if id in rows && rows[id].state != Running {
        rows := rows - {id};
        jobs := jobs - {id};
      }
    }

    /** `historyLiveLocked` forgets a job that ended a while ago. */
    method Expire(id: nat)
      modifies this
      ensures Value() == Take(old(Value()), DoExpire(id))
    {
      if id in jobs && jobs[id].job.state != Running {
        jobs := jobs - {id};
      }
    }

    /** The chat gets a message. */
    method Receive(m: nat, date: int)
      modifies this`chat
      ensures Value() == Take(old(Value()), DoArrive(m, date))
    {
      if m > chat.top {
        chat := Chat(chat.dates[m := date], m);
      }
    }

    method PauseHistoryWorkers()
      requires Registered(workers, cancels)
      modifies this
      ensures Value() == Take(old(Value()), DoPause)
    {
      var marked := MarkPaused(jobs);
      var stopped := StopAll(workers, cancels);
      assert PausedStep(Value()) == Value().(paused := true, jobs := marked, workers := stopped);
      paused, jobs, workers := true, marked, stopped;
    }

    static method MarkPaused(before: map<nat, Live>) returns (jobs: map<nat, Live>)
      ensures jobs == map id | id in before :: PausedLive(before[id])
    {
      jobs := before;
      var rest := before.Keys;
      while rest != {}
        invariant rest <= jobs.Keys == before.Keys
        invariant forall id :: id in jobs ==> jobs[id] == if id in rest then before[id] else PausedLive(before[id])
        decreases |rest|
      {
        var id :| id in rest;
        rest := rest - {id};
        if jobs[id].job.state == Running && !jobs[id].job.cancelled {
          jobs := jobs[id := jobs[id].(paused := true)];
        }
      }
    }

    static method StopAll(before: map<nat, Worker>, cancels: map<nat, nat>) returns (workers: map<nat, Worker>)
      requires Registered(before, cancels)
      ensures workers == map t | t in before :: before[t].(stopped := true)
    {
      workers := before;
      var rest := cancels.Keys;
      while rest != {}
        invariant rest <= cancels.Keys && workers.Keys == before.Keys
        invariant forall t :: t in workers ==>
                    workers[t] == if before[t].job in rest then before[t] else before[t].(stopped := true)
        decreases |rest|
      {
        var id :| id in rest;
        rest := rest - {id};
        workers := workers[cancels[id] := workers[cancels[id]].(stopped := true)];
      }
    }

    method Resume() returns (ids: set<nat>)
      modifies this
      ensures Value() == Take(old(Value()), DoResume)
      ensures forall id :: id in ids <==> id in jobs && jobs[id].job.state == Running && !jobs[id].job.cancelled
    {
      paused := false;
      ids := set id | id in jobs && jobs[id].job.state == Running && !jobs[id].job.cancelled;
    }

    /** `recoverHistoryJobs` in a new process. */
    method RecoverHistoryJobs(enginePaused: bool)
      modifies this
      ensures Value() == Take(old(Value()), DoCrash(enginePaused))
    {
      workers, cancels, paused := map[], map[], enginePaused;
      jobs := LoadRunning(rows);
    }

    static method LoadRunning(rows: map<nat, Job>) returns (jobs: map<nat, Live>)
      ensures jobs == map id | id in rows && rows[id].state == Running :: Live(rows[id], false)
    {
      jobs := map[];
      var rest := rows.Keys;
      while rest != {}
        invariant rest <= rows.Keys
        invariant forall id :: id in jobs <==> id in rows && id !in rest && rows[id].state == Running
        invariant forall id :: id in jobs ==> jobs[id] == Live(rows[id], false)
        decreases |rest|
      {
        var id :| id in rest;
        rest := rest - {id};
        if rows[id].state == Running {
          jobs := jobs[id := Live(rows[id], false)];
        }
      }
    }

    /** Any possible step on an object whose memory, disk and workers fit together: the entry point
        that makes it, the new state, and that they still fit. */
    method Perform(step: Step)
      requires Inv(Value()) && Possible(Value(), step)
      modifies this
      ensures Value() == Take(old(Value()), step) && Inv(Value())
    {
      ghost var before := Value();
      WorkersAreRegistered(before, Rows(chat), Phases(chat));
      Dispatch(step);
      StepKeeps(before, step);
    }

    method Dispatch(step: Step)
      requires Registered(workers, cancels) && Possible(Value(), step)
      modifies this
      ensures Value() == Take(old(Value()), step)
    {
      match step
      case DoCreate(mode, bounds, limit, offset) => var _ := CreateJob(mode, bounds, limit, offset);
      case DoStart(id, launched) => StartHistoryWorker(id, launched);
      case DoInitialize(t, oldest, newest) => InitializeHistory(t, oldest, newest);
      case DoEngineLost(t) => LoseEngine(t);
      case DoFetch(t, room, page, done) => FetchPage(t, room, page, done);
      case DoCheckpoint(t, allowed, route, changed) => CheckpointHistory(t, allowed, route, changed);
      case DoFail(t) => SetWorkerPhase(t, Ended(false));
      case DoFinish(t, saved) => FinishHistory(t, saved);
      case DoLeave(t) => var _ := Leave(t);
      case DoCancel(id) => var _ := CancelHistory(id);
      case DoPause => PauseHistoryWorkers();
      case DoResume => var _ := Resume();
      case DoCrash(enginePaused) => RecoverHistoryJobs(enginePaused);
      case DoDelete(id) => DeleteHistory(id);
      case DoExpire(id) => Expire(id);
      case DoArrive(m, date) => Receive(m, date);
    }
  }

  /** A whole run on the object ends in the state that the theorems about runs speak of. */
  method Play(steps: seq<Step>) returns (runner: Runner)
    requires forall n :: 0 <= n < |steps| ==> Possible(After(EMPTY, steps[..n]), steps[n])
    ensures fresh(runner) && runner.Value() == After(EMPTY, steps) && Inv(runner.Value())
  {
    runner := new Runner();
    for n := 0 to |steps|
      invariant fresh(runner) && runner.Value() == After(EMPTY, steps[..n]) && Inv(runner.Value())
    {
      assert steps[..n + 1][..n] == steps[..n];
      runner.Perform(steps[n]);
    }
    assert steps[..|steps|] == steps;
  }
}
