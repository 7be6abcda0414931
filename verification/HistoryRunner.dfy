/** Backfill jobs (core-service/internal/app/history_runner.go and history_api.go): enumerators
    that walk a chat newest-first and commit cursor, counters and queued work together. Steps of
    different workers, of the operator and of the process itself interleave freely. */
module HistoryRunner {

  datatype Option<T> = None | Some(value: T)

  // ---- The chat ----

  /** Message ids with their dates; ids and so the newest message only grow. */
  datatype Chat = Chat(dates: map<nat, int>, top: nat)

  ghost predicate ChatOk(chat: Chat) {
    forall m :: m in chat.dates ==> 0 < m <= chat.top
  }

  // ---- Jobs ----

  datatype JobState = Running | Done | Stopped | Errored

  datatype Mode = PullOlder | CatchUp | Rescan

  /** Date bounds in seconds, 0 for none: messages before `offset`, down to `min`. */
  datatype Bounds = Bounds(offset: nat, min: nat)

  datatype Route = DownloadOnly | DirectOnly | Both

  /** One checkpointed message: what the filter and the queue said about it. */
  datatype Visit = Visit(id: nat, allowed: bool, route: Route, changed: bool)

  datatype Task = Forward(id: nat) | Download(id: nat)

  /** `start`, `horizon` and `visited` only record the past: the cursor the walk started with,
      the newest message it could meet, and the messages checkpointed so far. */
  datatype Walk = Walk(minId: nat, cursor: nat, start: nat, horizon: nat, visited: seq<Visit>)

  datatype Job = Job(state: JobState, cancelled: bool, mode: Mode, bounds: Bounds, limit: Option<nat>,
                     initialized: bool, processed: nat, downloaded: nat, walk: Walk)

  /** A job in memory; `paused` is its enginePaused mark, which no row keeps. */
  datatype Live = Live(job: Job, paused: bool)

  /** `Walking`: the rest of the fetched page and whether it was the last one. `Ended`: left the
      loop, with or without success; `Finished`: the outcome was handled. */
  datatype Phase = Starting | Walking(page: seq<nat>, done: bool) | Ended(ok: bool) | Finished

  /** One goroutine; `stopped`: its context was cancelled. */
  datatype Worker = Worker(job: nat, stopped: bool, phase: Phase)

  /** `rows` and `work` are on disk; the others live in memory. */
  datatype State = State(rows: map<nat, Job>, work: map<nat, seq<Task>>, jobs: map<nat, Live>,
                         workers: map<nat, Worker>,
                         cancels: map<nat, nat>, paused: bool, chat: Chat, next: nat)

  predicate LimitReached(j: Job) {
    j.limit.Some? && j.processed >= j.limit.value
  }

  /** The window of a walk: newer than `minId`, between the date bounds. */
  predicate InWindow(chat: Chat, b: Bounds, w: Walk, m: nat) {
    && m in chat.dates && m > w.minId
    && (b.offset > 0 ==> chat.dates[m] < b.offset)
    && (b.min > 0 ==> chat.dates[m] >= b.min)
  }

  /** Messages of the window the walk has still to meet. */
  predicate Ahead(chat: Chat, b: Bounds, w: Walk, m: nat) {
    InWindow(chat, b, w, m) && m <= w.horizon && (w.cursor > 0 ==> m < w.cursor)
  }

  predicate Descending(s: seq<nat>) {
    forall a, b :: 0 <= a < b < |s| ==> s[a] > s[b]
  }

  /** The newest messages ahead, without gaps; the last page holds all of them. */
  ghost predicate PageFits(chat: Chat, b: Bounds, w: Walk, page: seq<nat>, done: bool) {
    && Descending(page)
    && (forall k :: 0 <= k < |page| ==> Ahead(chat, b, w, page[k]))
    && (forall m: nat :: Ahead(chat, b, w, m) && (done || (page != [] && m >= page[|page| - 1])) ==> m in page)
  }

  // ---- Spec of the steps ----

  function NewJob(mode: Mode, bounds: Bounds, limit: Option<nat>, offset: nat): Job {
    Job(Running, false, if offset > 0 then Rescan else mode, bounds, limit, false, 0, 0, Walk(0, offset, offset, 0, []))
  }

  /** `handleHistoryStart`, once its checks passed. */
  function Created(s: State, j: Job): State {
    s.(rows := s.rows[s.next := j], work := s.work[s.next := []], jobs := s.jobs[s.next := Live(j, false)],
       next := s.next + 1)
  }

  predicate Startable(s: State, id: nat) {
    !s.paused && id in s.jobs && s.jobs[id].job.state == Running && !s.jobs[id].job.cancelled && id !in s.cancels
  }

  /** `startHistoryWorker`; `launched`: the process still takes new goroutines. */
  function Started(s: State, id: nat, launched: bool): State {
    if !Startable(s, id) then s
    else
      var marked := s.(jobs := s.jobs[id := s.jobs[id].(paused := false)]);
      if !launched then marked
      else marked.(workers := s.workers[s.next := Worker(id, false, Starting)], cancels := s.cancels[id := s.next],
                   next := s.next + 1)
  }

  function SetPhase(s: State, t: nat, phase: Phase): State
    requires t in s.workers
  {
    s.(workers := s.workers[t := s.workers[t].(phase := phase)])
  }

  function TasksOf(s: State, id: nat): seq<Task> {
    if id in s.work then s.work[id] else []
  }

  /** A change of the job of worker t, with the work it queues, committed in one transaction and
      then taken over in memory. */
  function Put(s: State, t: nat, l: Live, tasks: seq<Task>, phase: Phase): State
    requires t in s.workers
  {
    var id := s.workers[t].job;
    SetPhase(s, t, phase).(rows := s.rows[id := l.job], work := s.work[id := TasksOf(s, id) + tasks],
                           jobs := s.jobs[id := l])
  }

  /** The window is fixed once: `oldest` and `newest` are the stored messages of the chat. */
  function InitializedJob(j: Job, oldest: nat, newest: nat): Job {
    if j.initialized then j
    else if j.mode == PullOlder && j.bounds == Bounds(0, 0) then
           j.(initialized := true, walk := j.walk.(cursor := oldest, start := oldest))
    else if j.mode == CatchUp then j.(initialized := true, walk := j.walk.(minId := newest))
    else j.(initialized := true)
  }

  function Initialized(s: State, t: nat, oldest: nat, newest: nat): State
    requires t in s.workers
  {
    var id := s.workers[t].job;
    if id !in s.jobs || s.jobs[id].job.cancelled then SetPhase(s, t, Ended(false))
    else Put(s, t, s.jobs[id].(job := InitializedJob(s.jobs[id].job, oldest, newest)), [], Walking([], false))
  }

  /** The engine stopped before the walk began: the job waits for the next start. */
  function EngineLost(s: State, t: nat): State
    requires t in s.workers
  {
    var id := s.workers[t].job;
    if id !in s.jobs || s.jobs[id].job.cancelled then SetPhase(s, t, Ended(false))
    else SetPhase(s, t, Ended(false)).(jobs := s.jobs[id := s.jobs[id].(paused := true)])
  }

  /** A page may ask for. */
  function PageLimit(j: Job, room: nat): nat {
    var n := if room < 100 then room else 100;
    if j.limit.Some? && j.limit.value <= j.processed then 0
    else if j.limit.Some? && j.limit.value - j.processed < n then j.limit.value - j.processed else n
  }

  /** The walk that has met nothing yet sees the messages present now. */
  function Horizon(chat: Chat, w: Walk): nat {
    if w.visited != [] then w.horizon
    else if 0 < w.cursor <= chat.top then w.cursor - 1 else chat.top
  }

  function FetchingWalk(chat: Chat, w: Walk): Walk {
    w.(horizon := Horizon(chat, w))
  }

  function Fetching(chat: Chat, j: Job): Job {
    j.(walk := FetchingWalk(chat, j.walk))
  }

  function PagePhase(page: seq<nat>, done: bool): Phase {
    if page == [] then Ended(done) else Walking(page, done)
  }

  /** One round of the loop: guards, then a page. */
  function Fetched(s: State, t: nat, page: seq<nat>, done: bool): State
    requires t in s.workers
  {
    var id := s.workers[t].job;
    if id !in s.jobs || s.jobs[id].job.cancelled then SetPhase(s, t, Ended(false))
    else if LimitReached(s.jobs[id].job) then SetPhase(s, t, Ended(true))
    else Put(s, t, s.jobs[id].(job := Fetching(s.chat, s.jobs[id].job)), [], PagePhase(page, done))
  }

  function Advanced(w: Walk, v: Visit): Walk {
    w.(cursor := v.id, visited := w.visited + [v])
  }

  function CommittedJob(j: Job, v: Visit): Job {
    j.(processed := j.processed + 1, downloaded := j.downloaded + (if Counts(v) then 1 else 0),
       walk := Advanced(j.walk, v))
  }

  predicate Counts(v: Visit) {
    v.allowed && v.route != DirectOnly && v.changed
  }

  function Tasks(v: Visit): seq<Task> {
    if !v.allowed then []
    else (if v.route != DownloadOnly then [Forward(v.id)] else []) + (if v.route != DirectOnly then [Download(v.id)]
                                                                      else [])
  }

  function AllTasks(visited: seq<Visit>): seq<Task> {
    if visited == [] then [] else AllTasks(visited[..|visited| - 1]) + Tasks(visited[|visited| - 1])
  }

  function NextPhase(page: seq<nat>, done: bool): Phase {
    if page == [] && done then Ended(true) else Walking(page, page != [] && done)
  }

  /** `checkpointHistory` for the next message of the page. */
  function Checkpointed(s: State, t: nat, v: Visit): State
    requires t in s.workers && s.workers[t].phase.Walking? && s.workers[t].phase.page != []
  {
    var id := s.workers[t].job;
    var rest := NextPhase(s.workers[t].phase.page[1..], s.workers[t].phase.done);
    if id !in s.jobs || s.jobs[id].job.cancelled then SetPhase(s, t, Ended(false))
    else if LimitReached(s.jobs[id].job) then SetPhase(s, t, rest)
    else if v.id == 0 || (s.jobs[id].job.walk.cursor > 0 && v.id >= s.jobs[id].job.walk.cursor) then
           SetPhase(s, t, Ended(false))
    else Put(s, t, s.jobs[id].(job := CommittedJob(s.jobs[id].job, v)), Tasks(v), rest)
  }

  function FinalState(j: Job, ok: bool): JobState {
    if j.cancelled then Stopped else if ok then Done else Errored
  }

  /** `finishHistory`; `saved`: its transaction committed. */
  function FinishedStep(s: State, t: nat, saved: bool): State
    requires t in s.workers && s.workers[t].phase.Ended?
  {
    var id := s.workers[t].job;
    if id !in s.jobs || (s.jobs[id].paused && !s.jobs[id].job.cancelled) || !saved then SetPhase(s, t, Finished)
    else Put(s, t, s.jobs[id].(job := s.jobs[id].job.(state := FinalState(s.jobs[id].job, s.workers[t].phase.ok))), [],
             Finished)
  }

  /** The goroutine ends and gives up its entry. */
  function Left(s: State, t: nat): State
    requires t in s.workers
  {
    s.(workers := s.workers - {t}, cancels := s.cancels - {s.workers[t].job})
  }

  function StopWorker(s: State, id: nat): map<nat, Worker> {
    if id in s.cancels && s.cancels[id] in s.workers then
      s.workers[s.cancels[id] := s.workers[s.cancels[id]].(stopped := true)] else s.workers
  }

  predicate Cancellable(s: State, id: nat) {
    id in s.jobs && s.jobs[id].job.state == Running
  }

  /** `handleHistoryCancel`: written to disk, then acknowledged. */
  function CancelledStep(s: State, id: nat): State {
    if !Cancellable(s, id) then s
    else
      var j := s.jobs[id].job.(cancelled := true);
      s.(rows := s.rows[id := j], jobs := s.jobs[id := s.jobs[id].(job := j)], workers := StopWorker(s, id))
  }

  function PausedLive(l: Live): Live {
    if l.job.state == Running && !l.job.cancelled then l.(paused := true) else l
  }

  /** `pauseHistoryWorkers`. */
  function PausedStep(s: State): State {
    s.(paused := true,
       jobs := map id | id in s.jobs :: PausedLive(s.jobs[id]),
       workers := map t | t in s.workers :: s.workers[t].(stopped := true))
  }

  /** Process death and `recoverHistoryJobs`. */
  function Recovered(s: State, paused: bool): State {
    s.(jobs := map id | id in s.rows && s.rows[id].state == Running :: Live(s.rows[id], false), workers := map[],
       cancels := map[], paused := paused)
  }

  /** Finished jobs may be deleted, on disk and in memory ... */
  function DeletedStep(s: State, id: nat): State {
    if id in s.rows && s.rows[id].state != Running then s.(rows := s.rows - {id}, jobs := s.jobs - {id}) else s
  }

  /** ... or leave memory after a while. */
  function ExpiredStep(s: State, id: nat): State {
    if id in s.jobs && s.jobs[id].job.state != Running then s.(jobs := s.jobs - {id}) else s
  }

  function Arrived(s: State, m: nat, date: int): State {
    if m > s.chat.top then s.(chat := Chat(s.chat.dates[m := date], m)) else s
  }

  // ---- One step of the system ----

  datatype Step =
    | DoCreate(mode: Mode, bounds: Bounds, limit: Option<nat>, offset: nat)
    | DoStart(id: nat, launched: bool)
    | DoInitialize(t: nat, oldest: nat, newest: nat)
    | DoEngineLost(t: nat)
    | DoFetch(t: nat, room: nat, page: seq<nat>, done: bool)
    | DoCheckpoint(t: nat, allowed: bool, route: Route, changed: bool)
    | DoFail(t: nat)
    | DoFinish(t: nat, saved: bool)
    | DoLeave(t: nat)
    | DoCancel(id: nat)
    | DoPause
    | DoResume
    | DoCrash(paused: bool)
    | DoDelete(id: nat)
    | DoExpire(id: nat)
    | DoArrive(m: nat, date: int)

  predicate In(s: State, t: nat, starting: bool) {
    t in s.workers && (if starting then s.workers[t].phase.Starting? else s.workers[t].phase.Walking?)
  }

  /** What Telegram may answer to the request of worker t. */
  ghost predicate PageOffered(s: State, t: nat, room: nat, page: seq<nat>, done: bool)
    requires t in s.workers
  {
    var id := s.workers[t].job;
    id in s.jobs ==>
      |page| <= PageLimit(s.jobs[id].job, room) &&
      PageFits(s.chat, s.jobs[id].job.bounds, FetchingWalk(s.chat, s.jobs[id].job.walk), page, done)
  }

  ghost predicate Possible(s: State, step: Step) {
    match step
    case DoInitialize(t, _, _) => In(s, t, true)
    case DoEngineLost(t) => In(s, t, true)
    case DoFetch(t, room, page, done) =>
      In(s, t, false) && s.workers[t].phase.page == [] && PageOffered(s, t, room, page, done)
    case DoCheckpoint(t, _, _, _) => In(s, t, false) && s.workers[t].phase.page != []
    case DoFail(t) => In(s, t, true) || In(s, t, false)
    case DoFinish(t, _) => t in s.workers && s.workers[t].phase.Ended?
    case DoLeave(t) => t in s.workers && s.workers[t].phase.Finished?
    case _ => true
  }

  ghost function Next(s: State, step: Step): State
    requires Possible(s, step)
  {
    match step
    case DoCreate(mode, bounds, limit, offset) => Created(s, NewJob(mode, bounds, limit, offset))
    case DoStart(id, launched) => Started(s, id, launched)
    case DoInitialize(t, oldest, newest) => Initialized(s, t, oldest, newest)
    case DoEngineLost(t) => EngineLost(s, t)
    case DoFetch(t, _, page, done) => Fetched(s, t, page, done)
    case DoCheckpoint(t, allowed, route, changed) =>
      Checkpointed(s, t, Visit(s.workers[t].phase.page[0], allowed, route, changed))
    case DoFail(t) => SetPhase(s, t, Ended(false))
    case DoFinish(t, saved) => FinishedStep(s, t, saved)
    case DoLeave(t) => Left(s, t)
    case DoCancel(id) => CancelledStep(s, id)
    case DoPause => PausedStep(s)
    case DoResume => s.(paused := false)
    case DoCrash(paused) => Recovered(s, paused)
    case DoDelete(id) => DeletedStep(s, id)
    case DoExpire(id) => ExpiredStep(s, id)
    case DoArrive(m, date) => Arrived(s, m, date)
  }

  ghost function Take(s: State, step: Step): State {
    if Possible(s, step) then Next(s, step) else s
  }

  ghost function After(s: State, steps: seq<Step>): State {
    if steps == [] then s else Take(After(s, steps[..|steps| - 1]), steps[|steps| - 1])
  }

  const EMPTY := State(map[], map[], map[], map[], map[], false, Chat(map[], 0), 0)

  // ---- What every run keeps ----

  ghost predicate Visited(w: Walk, m: nat) {
    exists k :: 0 <= k < |w.visited| && w.visited[k].id == m
  }

  /** Every message of the window up to the horizon was checkpointed. */
  ghost predicate Complete(chat: Chat, b: Bounds, w: Walk) {
    forall m: nat :: InWindow(chat, b, w, m) && m <= w.horizon ==> Visited(w, m)
  }

  function Downloads(visited: seq<Visit>): nat {
    if visited == [] then 0 else Downloads(visited[..|visited| - 1]) + if Counts(visited[|visited| - 1]) then 1 else 0
  }

  /** Exactly once: the visits descend through the window without repeat and without gap. */
  ghost predicate WalkOk(chat: Chat, b: Bounds, w: Walk) {
    && (forall k, n :: 0 <= k < n < |w.visited| ==> w.visited[k].id > w.visited[n].id)
    && (forall k :: 0 <= k < |w.visited| ==>
          InWindow(chat, b, w, w.visited[k].id) && w.visited[k].id <= w.horizon &&
          (w.start > 0 ==> w.visited[k].id < w.start))
    && w.cursor == (if w.visited == [] then w.start else w.visited[|w.visited| - 1].id)
    && (w.visited != [] ==> w.cursor > 0 && forall m: nat :: InWindow(chat, b, w, m) && w.cursor <= m <= w.horizon ==>
          Visited(w, m))
    && w.horizon <= chat.top && (w.start > 0 ==> w.horizon < w.start)
  }

  ghost predicate JobOk(chat: Chat, j: Job, tasks: seq<Task>) {
    && WalkOk(chat, j.bounds, j.walk) && tasks == AllTasks(j.walk.visited)
    && j.processed == |j.walk.visited| && j.downloaded == Downloads(j.walk.visited)
    && (j.limit.Some? ==> j.processed <= j.limit.value)
    && (!j.initialized ==> j.walk.visited == [] && j.walk.horizon == 0)
    && (j.state == Done ==> LimitReached(j) || Complete(chat, j.bounds, j.walk))
    && (j.state == Stopped ==> j.cancelled)
  }

  ghost predicate PhaseFits(chat: Chat, j: Job, phase: Phase) {
    match phase
    case Starting => true
    case Walking(page, done) =>
      j.initialized && (LimitReached(j) || if page == [] then !done else PageFits(chat, j.bounds, j.walk, page, done))
    case Ended(ok) => ok ==> LimitReached(j) || Complete(chat, j.bounds, j.walk)
    case Finished => true
  }

  /** A property of a row and of the work queued by its job; one of a row and a phase. */
  type RowProperty = (Job, seq<Task>) -> bool
  type PhaseProperty = (Job, Phase) -> bool

  ghost predicate WorkerOk(s: State, t: nat, fits: PhaseProperty)
    requires t in s.workers
  {
    var w := s.workers[t];
    && t < s.next && w.job in s.cancels && s.cancels[w.job] == t
    && (!w.phase.Finished? ==>
          && w.job in s.jobs && w.job in s.rows && s.rows[w.job].state == Running
          && fits(s.rows[w.job], w.phase)
          && (w.stopped ==> s.jobs[w.job].paused || s.rows[w.job].cancelled))
  }

  ghost predicate RowOk(s: State, id: nat, ok: RowProperty)
    requires id in s.rows
  {
    id < s.next && id in s.work && ok(s.rows[id], s.work[id]) && (s.rows[id].state == Running ==> id in s.jobs)
  }

  /** Memory, disk and workers fit together, for any properties of rows and phases. */
  ghost predicate Sound(s: State, ok: RowProperty, fits: PhaseProperty) {
    && (forall id :: id in s.rows ==> RowOk(s, id, ok))
    && (forall id :: id in s.jobs ==> id in s.rows && s.jobs[id].job == s.rows[id])
    && (forall t :: t in s.workers ==> WorkerOk(s, t, fits))
    && (forall id :: id in s.cancels ==> s.cancels[id] in s.workers && s.workers[s.cancels[id]].job == id)
  }

  ghost function Rows(chat: Chat): RowProperty {
    (j, tasks) => JobOk(chat, j, tasks)
  }

  ghost function Phases(chat: Chat): PhaseProperty {
    (j, phase) => PhaseFits(chat, j, phase)
  }

  ghost predicate Inv(s: State) {
    ChatOk(s.chat) && Sound(s, Rows(s.chat), Phases(s.chat))
  }

  // ---- Steps keep memory, disk and workers together ----

  /** Only worker t and its job change. */
  lemma PutSound(s: State, t: nat, l: Live, tasks: seq<Task>, phase: Phase, ok: RowProperty, fits: PhaseProperty)
    requires Sound(s, ok, fits) && t in s.workers && s.workers[t].job in s.jobs
    requires ok(l.job, TasksOf(s, s.workers[t].job) + tasks) && (l.job.state != Running ==> phase.Finished?)
    requires !phase.Finished? ==> fits(l.job, phase)
    requires s.workers[t].stopped && !phase.Finished? ==> l.paused || l.job.cancelled
    ensures Sound(Put(s, t, l, tasks, phase), ok, fits)
  {
    var s' := Put(s, t, l, tasks, phase);
    assert WorkerOk(s, t, fits) && RowOk(s, s.workers[t].job, ok);
    forall u | u in s'.workers ensures WorkerOk(s', u, fits) {
      assert WorkerOk(s, u, fits);
    }
    forall k | k in s'.rows ensures RowOk(s', k, ok) {
      assert k in s.rows && RowOk(s, k, ok);
    }
  }

  /** Only the phase of worker t changes. */
  lemma PhaseSound(s: State, t: nat, phase: Phase, ok: RowProperty, fits: PhaseProperty)
    requires Sound(s, ok, fits) && t in s.workers
    requires !phase.Finished? ==>
               !s.workers[t].phase.Finished? && s.workers[t].job in s.rows && fits(s.rows[s.workers[t].job], phase)
    ensures Sound(SetPhase(s, t, phase), ok, fits)
  {
    var s' := SetPhase(s, t, phase);
    assert WorkerOk(s, t, fits);
    forall u | u in s'.workers ensures WorkerOk(s', u, fits) {
      assert WorkerOk(s, u, fits);
    }
    forall k | k in s'.rows ensures RowOk(s', k, ok) {
      assert RowOk(s, k, ok);
    }
  }

  /** Rows that stay, on disk and with their work, stay sound. */
  lemma RowsStay(s: State, s': State, ok: RowProperty, fits: PhaseProperty)
    requires Sound(s, ok, fits) && s'.next >= s.next
    requires s'.work == s.work && forall k :: k in s'.rows ==> k in s.rows && s'.rows[k] == s.rows[k]
    requires forall k :: k in s.jobs && k in s'.rows && s'.rows[k].state == Running ==> k in s'.jobs
    ensures forall k :: k in s'.rows ==> RowOk(s', k, ok)
  {
    forall k | k in s'.rows ensures RowOk(s', k, ok) {
      assert RowOk(s, k, ok);
    }
  }

  lemma CreateSound(s: State, j: Job, ok: RowProperty, fits: PhaseProperty)
    requires Sound(s, ok, fits) && ok(j, [])
    ensures Sound(Created(s, j), ok, fits)
  {
    var s' := Created(s, j);
    assert forall k :: k in s.rows ==> RowOk(s, k, ok);
    forall u | u in s'.workers ensures WorkerOk(s', u, fits) {
      assert WorkerOk(s, u, fits);
    }
    forall k | k in s'.rows ensures RowOk(s', k, ok) {
      if k in s.rows {
        assert RowOk(s, k, ok);
      }
    }
  }

  lemma StartSound(s: State, id: nat, launched: bool, ok: RowProperty, fits: PhaseProperty)
    requires Sound(s, ok, fits) && Startable(s, id) && fits(s.jobs[id].job, Starting)
    ensures Sound(Started(s, id, launched), ok, fits)
  {
    var s' := Started(s, id, launched);
    forall u | u in s'.workers ensures WorkerOk(s', u, fits) {
      assert u in s.workers ==> WorkerOk(s, u, fits);
    }
    RowsStay(s, s', ok, fits);
  }

  lemma LeaveSound(s: State, t: nat, ok: RowProperty, fits: PhaseProperty)
    requires Sound(s, ok, fits) && t in s.workers
    ensures Sound(Left(s, t), ok, fits)
  {
    var s' := Left(s, t);
    assert WorkerOk(s, t, fits);
    forall u | u in s'.workers ensures WorkerOk(s', u, fits) {
      assert WorkerOk(s, u, fits);
    }
    RowsStay(s, s', ok, fits);
  }

  lemma CancelSound(s: State, id: nat, ok: RowProperty, fits: PhaseProperty)
    requires Sound(s, ok, fits) && Cancellable(s, id)
    requires ok(s.jobs[id].job.(cancelled := true), TasksOf(s, id))
    requires forall phase: Phase :: fits(s.jobs[id].job, phase) ==> fits(s.jobs[id].job.(cancelled := true), phase)
    ensures Sound(CancelledStep(s, id), ok, fits)
  {
    var s' := CancelledStep(s, id);
    assert RowOk(s, id, ok);
    forall u | u in s'.workers ensures WorkerOk(s', u, fits) {
      assert u in s.workers && WorkerOk(s, u, fits);
    }
    forall k | k in s'.rows ensures RowOk(s', k, ok) {
      assert k in s.rows && RowOk(s, k, ok);
    }
  }

  lemma PauseSound(s: State, ok: RowProperty, fits: PhaseProperty)
    requires Sound(s, ok, fits)
    ensures Sound(PausedStep(s), ok, fits)
  {
    var s' := PausedStep(s);
    forall u | u in s'.workers ensures WorkerOk(s', u, fits) {
      assert WorkerOk(s, u, fits);
    }
    RowsStay(s, s', ok, fits);
  }

  lemma ResumeSound(s: State, ok: RowProperty, fits: PhaseProperty)
    requires Sound(s, ok, fits)
    ensures Sound(s.(paused := false), ok, fits)
  {
    var s' := s.(paused := false);
    assert forall u :: u in s.workers ==> WorkerOk(s, u, fits) && WorkerOk(s', u, fits);
    assert forall k :: k in s.rows ==> RowOk(s, k, ok) && RowOk(s', k, ok);
  }

  lemma RecoverSound(s: State, paused: bool, ok: RowProperty, fits: PhaseProperty)
    requires Sound(s, ok, fits)
    ensures Sound(Recovered(s, paused), ok, fits)
  {
    var s' := Recovered(s, paused);
    RowsStay(s, s', ok, fits);
  }

  lemma DeleteSound(s: State, id: nat, ok: RowProperty, fits: PhaseProperty)
    requires Sound(s, ok, fits)
    ensures Sound(DeletedStep(s, id), ok, fits)
  {
    var s' := DeletedStep(s, id);
    forall u | u in s'.workers ensures WorkerOk(s', u, fits) {
      assert WorkerOk(s, u, fits);
    }
    RowsStay(s, s', ok, fits);
  }

  lemma ExpireSound(s: State, id: nat, ok: RowProperty, fits: PhaseProperty)
    requires Sound(s, ok, fits)
    ensures Sound(ExpiredStep(s, id), ok, fits)
  {
    var s' := ExpiredStep(s, id);
    forall u | u in s'.workers ensures WorkerOk(s', u, fits) {
      assert WorkerOk(s, u, fits);
    }
    RowsStay(s, s', ok, fits);
  }

  // ---- Steps keep the walk of every job ----

  lemma InitializedJobOk(chat: Chat, j: Job, tasks: seq<Task>, oldest: nat, newest: nat)
    requires Rows(chat)(j, tasks) && j.state == Running
    ensures Rows(chat)(InitializedJob(j, oldest, newest), tasks)
    ensures Phases(chat)(j, Ended(false)) && Phases(chat)(InitializedJob(j, oldest, newest), Walking([], false))
  {
  }

  lemma FetchingOk(chat: Chat, j: Job, tasks: seq<Task>)
    requires ChatOk(chat) && JobOk(chat, j, tasks) && j.state == Running && j.initialized
    ensures JobOk(chat, Fetching(chat, j), tasks)
  {
  }

  /** A last page without messages: everything was visited. */
  lemma EmptyPageEnds(chat: Chat, b: Bounds, w: Walk)
    requires WalkOk(chat, b, w) && PageFits(chat, b, w, [], true)
    requires w.visited != [] || w.horizon == Horizon(chat, w)
    ensures Complete(chat, b, w)
  {
    forall m: nat | InWindow(chat, b, w, m) && m <= w.horizon ensures Visited(w, m) {
      assert !Ahead(chat, b, w, m);
    }
  }

  /** The commit of the first message of the page. */
  lemma CommittedOk(chat: Chat, j: Job, tasks: seq<Task>, page: seq<nat>, done: bool, v: Visit)
    requires ChatOk(chat) && JobOk(chat, j, tasks) && j.state == Running && j.initialized && !LimitReached(j)
    requires page != [] && PageFits(chat, j.bounds, j.walk, page, done) && v.id == page[0]
    ensures v.id > 0 && (j.walk.cursor > 0 ==> v.id < j.walk.cursor)
    ensures JobOk(chat, CommittedJob(j, v), tasks + Tasks(v))
    ensures PhaseFits(chat, CommittedJob(j, v), NextPhase(page[1..], done))
  {
    assert Ahead(chat, j.bounds, j.walk, page[0]);
    AdvancedOk(chat, j.bounds, j.walk, page, done, v);
    RestFits(chat, j.bounds, j.walk, page, done, v);
    assert (j.walk.visited + [v])[..|j.walk.visited|] == j.walk.visited;
  }

  lemma AdvancedOk(chat: Chat, b: Bounds, w: Walk, page: seq<nat>, done: bool, v: Visit)
    requires ChatOk(chat) && WalkOk(chat, b, w) && page != [] && PageFits(chat, b, w, page, done) && v.id == page[0]
    ensures WalkOk(chat, b, Advanced(w, v))
  {
    var x := Advanced(w, v);
    assert Ahead(chat, b, w, page[0]);
    forall m: nat | InWindow(chat, b, x, m) && x.cursor <= m <= x.horizon ensures Visited(x, m) {
      AdvancedCovers(chat, b, w, page, done, v, m);
    }
    forall k | 0 <= k < |x.visited| ensures InWindow(chat, b, x, x.visited[k].id) && x.visited[k].id <= x.horizon {
      assert k < |w.visited| ==> InWindow(chat, b, w, w.visited[k].id);
    }
  }

  lemma AdvancedCovers(chat: Chat, b: Bounds, w: Walk, page: seq<nat>, done: bool, v: Visit, m: nat)
    requires WalkOk(chat, b, w) && page != [] && PageFits(chat, b, w, page, done) && v.id == page[0]
    requires InWindow(chat, b, w, m) && v.id <= m <= w.horizon
    ensures Visited(Advanced(w, v), m)
  {
    var x := Advanced(w, v);
    if Ahead(chat, b, w, m) {
      assert page[0] >= page[|page| - 1];
      assert m in page;
      var n :| 0 <= n < |page| && page[n] == m;
      assert n == 0;
      assert x.visited[|w.visited|].id == m;
    } else {
      assert Visited(w, m);
      var n :| 0 <= n < |w.visited| && w.visited[n].id == m;
      assert x.visited[n].id == m;
    }
  }

  lemma RestFits(chat: Chat, b: Bounds, w: Walk, page: seq<nat>, done: bool, v: Visit)
    requires ChatOk(chat) && WalkOk(chat, b, w) && page != [] && PageFits(chat, b, w, page, done) && v.id == page[0]
    ensures page[1..] != [] ==> PageFits(chat, b, Advanced(w, v), page[1..], done)
    ensures page[1..] == [] && done ==> Complete(chat, b, Advanced(w, v))
  {
    var x, rest := Advanced(w, v), page[1..];
    assert Ahead(chat, b, w, page[0]);
    forall m: nat | Ahead(chat, b, x, m) && (done || (rest != [] && m >= rest[|rest| - 1])) ensures m in rest {
      assert Ahead(chat, b, w, m);
      assert m in page && m != page[0];
    }
    forall n | 0 <= n < |rest| ensures Ahead(chat, b, x, rest[n]) {
      assert Ahead(chat, b, w, page[n + 1]) && page[0] > page[n + 1];
    }
    if rest == [] && done {
      forall m: nat | InWindow(chat, b, x, m) && m <= x.horizon ensures Visited(x, m) {
        assert !Ahead(chat, b, x, m);
        AdvancedCovers(chat, b, w, page, done, v, m);
      }
    }
  }

  lemma WorkersJob(s: State, t: nat, ok: RowProperty, fits: PhaseProperty)
    requires Sound(s, ok, fits) && t in s.workers && !s.workers[t].phase.Finished?
    ensures var id := s.workers[t].job;
            && id in s.jobs && id in s.rows && s.jobs[id].job == s.rows[id] && s.rows[id].state == Running
            && fits(s.rows[id], s.workers[t].phase)
            && (s.workers[t].stopped ==> s.jobs[id].paused || s.rows[id].cancelled)
            && id in s.work && ok(s.rows[id], TasksOf(s, id)) && TasksOf(s, id) + [] == TasksOf(s, id)
  {
    assert WorkerOk(s, t, fits);
    assert RowOk(s, s.workers[t].job, ok);
  }

  lemma InitializeSound(s: State, t: nat, oldest: nat, newest: nat, ok: RowProperty, fits: PhaseProperty)
    requires Sound(s, ok, fits) && In(s, t, true)
    requires s.workers[t].job in s.jobs
    requires var j := s.jobs[s.workers[t].job].job;
             && fits(j, Ended(false)) && ok(InitializedJob(j, oldest, newest), TasksOf(s, s.workers[t].job))
             && fits(InitializedJob(j, oldest, newest), Walking([], false))
    ensures Sound(Initialized(s, t, oldest, newest), ok, fits)
  {
    WorkersJob(s, t, ok, fits);
    var l := s.jobs[s.workers[t].job];
    if l.job.cancelled {
      PhaseSound(s, t, Ended(false), ok, fits);
    } else {
      PutSound(s, t, l.(job := InitializedJob(l.job, oldest, newest)), [], Walking([], false), ok, fits);
    }
  }

  lemma InitializeKeeps(s: State, t: nat, oldest: nat, newest: nat)
    requires Inv(s) && In(s, t, true)
    ensures Inv(Initialized(s, t, oldest, newest))
  {
    WorkersJob(s, t, Rows(s.chat), Phases(s.chat));
    InitializedJobOk(s.chat, s.jobs[s.workers[t].job].job, TasksOf(s, s.workers[t].job), oldest, newest);
    InitializeSound(s, t, oldest, newest, Rows(s.chat), Phases(s.chat));
  }

  lemma EngineLostKeeps(s: State, t: nat)
    requires Inv(s) && In(s, t, true)
    ensures Inv(EngineLost(s, t))
  {
    WorkersJob(s, t, Rows(s.chat), Phases(s.chat));
    var l := s.jobs[s.workers[t].job];
    if l.job.cancelled {
      PhaseSound(s, t, Ended(false), Rows(s.chat), Phases(s.chat));
    } else {
      PutSound(s, t, l.(paused := true), [], Ended(false), Rows(s.chat), Phases(s.chat));
      PausePuts(s, t, l);
    }
  }

  /** A mark in memory is a commit that changes nothing on disk. */
  lemma PausePuts(s: State, t: nat, l: Live)
    requires t in s.workers && s.workers[t].job in s.jobs && s.workers[t].job in s.rows && s.workers[t].job in s.work
    requires l == s.jobs[s.workers[t].job] && l.job == s.rows[s.workers[t].job] && !l.job.cancelled
    ensures Put(s, t, l.(paused := true), [], Ended(false)) == EngineLost(s, t)
  {
    var id := s.workers[t].job;
    assert TasksOf(s, id) + [] == s.work[id];
    assert s.rows[id := l.job] == s.rows && s.work[id := s.work[id]] == s.work;
  }

  lemma FetchSound(s: State, t: nat, page: seq<nat>, done: bool, ok: RowProperty, fits: PhaseProperty)
    requires Sound(s, ok, fits) && In(s, t, false) && s.workers[t].job in s.jobs
    requires var j := s.jobs[s.workers[t].job].job;
             && fits(j, Ended(false)) && (LimitReached(j) ==> fits(j, Ended(true)))
             && (!LimitReached(j) ==>
                   ok(Fetching(s.chat, j), TasksOf(s, s.workers[t].job)) &&
                   fits(Fetching(s.chat, j), PagePhase(page, done)))
    ensures Sound(Fetched(s, t, page, done), ok, fits)
  {
    WorkersJob(s, t, ok, fits);
    var l := s.jobs[s.workers[t].job];
    if l.job.cancelled {
      PhaseSound(s, t, Ended(false), ok, fits);
    } else if LimitReached(l.job) {
      PhaseSound(s, t, Ended(true), ok, fits);
    } else {
      PutSound(s, t, l.(job := Fetching(s.chat, l.job)), [], PagePhase(page, done), ok, fits);
    }
  }

  lemma FetchFits(chat: Chat, j: Job, tasks: seq<Task>, page: seq<nat>, done: bool)
    requires ChatOk(chat) && JobOk(chat, j, tasks) && j.state == Running && PhaseFits(chat, j, Walking([], false))
    requires PageFits(chat, j.bounds, FetchingWalk(chat, j.walk), page, done)
    ensures PhaseFits(chat, j, Ended(false)) && (LimitReached(j) ==> PhaseFits(chat, j, Ended(true)))
    ensures JobOk(chat, Fetching(chat, j), tasks) && PhaseFits(chat, Fetching(chat, j), PagePhase(page, done))
  {
    FetchingOk(chat, j, tasks);
    if page == [] && done {
      EmptyPageEnds(chat, j.bounds, FetchingWalk(chat, j.walk));
    }
  }

  lemma FetchKeeps(s: State, t: nat, room: nat, page: seq<nat>, done: bool)
    requires Inv(s) && In(s, t, false) && s.workers[t].phase.page == [] && PageOffered(s, t, room, page, done)
    ensures Inv(Fetched(s, t, page, done))
  {
    WorkersJob(s, t, Rows(s.chat), Phases(s.chat));
    EmptyPageGoesOn(s.chat, s.jobs[s.workers[t].job].job, s.workers[t].phase.done);
    FetchFits(s.chat, s.jobs[s.workers[t].job].job, TasksOf(s, s.workers[t].job), page, done);
    FetchSound(s, t, page, done, Rows(s.chat), Phases(s.chat));
  }

  lemma EmptyPageGoesOn(chat: Chat, j: Job, done: bool)
    requires PhaseFits(chat, j, Walking([], done))
    ensures PhaseFits(chat, j, Walking([], false))
  {
  }

  lemma CheckpointSound(s: State, t: nat, v: Visit, ok: RowProperty, fits: PhaseProperty)
    requires Sound(s, ok, fits) && In(s, t, false) && s.workers[t].phase.page != [] && s.workers[t].job in s.jobs
    requires var l, rest := s.jobs[s.workers[t].job], NextPhase(s.workers[t].phase.page[1..], s.workers[t].phase.done);
             && fits(l.job, Ended(false)) && (LimitReached(l.job) ==> fits(l.job, rest))
             && (!LimitReached(l.job) ==>
                   && v.id > 0 && (l.job.walk.cursor > 0 ==> v.id < l.job.walk.cursor)
                   && ok(CommittedJob(l.job, v), TasksOf(s, s.workers[t].job) + Tasks(v))
                   && fits(CommittedJob(l.job, v), rest))
    ensures Sound(Checkpointed(s, t, v), ok, fits)
  {
    WorkersJob(s, t, ok, fits);
    var w := s.workers[t];
    var l, rest := s.jobs[w.job], NextPhase(w.phase.page[1..], w.phase.done);
    if l.job.cancelled {
      PhaseSound(s, t, Ended(false), ok, fits);
    } else if LimitReached(l.job) {
      PhaseSound(s, t, rest, ok, fits);
    } else {
      PutSound(s, t, l.(job := CommittedJob(l.job, v)), Tasks(v), rest, ok, fits);
    }
  }

  /** The guard on the cursor never fails: a checkpoint commits unless the job was cancelled or
      has reached its limit. */
  lemma CheckpointKeeps(s: State, t: nat, v: Visit)
    requires Inv(s) && In(s, t, false) && s.workers[t].phase.page != [] && v.id == s.workers[t].phase.page[0]
    ensures Inv(Checkpointed(s, t, v)) && s.workers[t].job in s.jobs
    ensures var j := s.jobs[s.workers[t].job].job;
            !j.cancelled && !LimitReached(j) ==> v.id > 0 && (j.walk.cursor > 0 ==> v.id < j.walk.cursor)
  {
    WorkersJob(s, t, Rows(s.chat), Phases(s.chat));
    var w := s.workers[t];
    CheckpointFits(s.chat, s.jobs[w.job].job, TasksOf(s, w.job), w.phase.page, w.phase.done, v);
    assert PhaseFits(s.chat, s.jobs[w.job].job, Ended(false));
    CheckpointSound(s, t, v, Rows(s.chat), Phases(s.chat));
  }

  lemma CheckpointFits(chat: Chat, j: Job, tasks: seq<Task>, page: seq<nat>, done: bool, v: Visit)
    requires ChatOk(chat) && JobOk(chat, j, tasks) && j.state == Running && PhaseFits(chat, j, Walking(page, done)) &&
             page != [] && v.id == page[0]
    ensures LimitReached(j) ==> PhaseFits(chat, j, NextPhase(page[1..], done))
    ensures !LimitReached(j) ==>
              && v.id > 0 && (j.walk.cursor > 0 ==> v.id < j.walk.cursor)
              && JobOk(chat, CommittedJob(j, v), tasks + Tasks(v))
              && PhaseFits(chat, CommittedJob(j, v), NextPhase(page[1..], done))
  {
    if LimitReached(j) {
      LimitFits(chat, j, page[1..], done);
    } else {
      CommittedOk(chat, j, tasks, page, done, v);
    }
  }

  lemma LimitFits(chat: Chat, j: Job, rest: seq<nat>, done: bool)
    requires LimitReached(j) && j.initialized
    ensures PhaseFits(chat, j, NextPhase(rest, done))
  {
  }

  lemma FinalOk(chat: Chat, j: Job, tasks: seq<Task>, ok: bool)
    requires JobOk(chat, j, tasks) && j.state == Running && PhaseFits(chat, j, Ended(ok))
    ensures JobOk(chat, j.(state := FinalState(j, ok)), tasks)
  {
  }

  lemma FinishKeeps(s: State, t: nat, saved: bool)
    requires Inv(s) && t in s.workers && s.workers[t].phase.Ended?
    ensures Inv(FinishedStep(s, t, saved))
  {
    WorkersJob(s, t, Rows(s.chat), Phases(s.chat));
    var l := s.jobs[s.workers[t].job];
    if (l.paused && !l.job.cancelled) || !saved {
      PhaseSound(s, t, Finished, Rows(s.chat), Phases(s.chat));
    } else {
      FinalOk(s.chat, l.job, TasksOf(s, s.workers[t].job), s.workers[t].phase.ok);
      PutSound(s, t, l.(job := l.job.(state := FinalState(l.job, s.workers[t].phase.ok))), [], Finished, Rows(s.chat),
               Phases(s.chat));
    }
  }

  lemma CancelledOk(chat: Chat, j: Job, tasks: seq<Task>)
    requires JobOk(chat, j, tasks) && j.state == Running
    ensures JobOk(chat, j.(cancelled := true), tasks)
    ensures forall phase: Phase :: Phases(chat)(j, phase) ==> Phases(chat)(j.(cancelled := true), phase)
  {
    forall phase: Phase | PhaseFits(chat, j, phase) ensures PhaseFits(chat, j.(cancelled := true), phase) {}
  }

  lemma CancelKeeps(s: State, id: nat)
    requires Inv(s)
    ensures Inv(CancelledStep(s, id))
  {
    if Cancellable(s, id) {
      assert RowOk(s, id, Rows(s.chat));
      CancelledOk(s.chat, s.rows[id], s.work[id]);
      CancelSound(s, id, Rows(s.chat), Phases(s.chat));
    }
  }

  lemma GrownChat(chat: Chat, j: Job, tasks: seq<Task>, m: nat, date: int)
    requires ChatOk(chat) && JobOk(chat, j, tasks) && m > chat.top
    ensures JobOk(Chat(chat.dates[m := date], m), j, tasks)
  {
    var grown := Chat(chat.dates[m := date], m);
    assert forall n: nat :: n <= chat.top ==>
             (InWindow(grown, j.bounds, j.walk, n) <==> InWindow(chat, j.bounds, j.walk, n));
  }

  lemma GrownPhase(chat: Chat, j: Job, tasks: seq<Task>, phase: Phase, m: nat, date: int)
    requires ChatOk(chat) && JobOk(chat, j, tasks) && PhaseFits(chat, j, phase) && m > chat.top
    ensures PhaseFits(Chat(chat.dates[m := date], m), j, phase)
  {
    var grown := Chat(chat.dates[m := date], m);
    assert forall n: nat :: n <= chat.top ==>
             (InWindow(grown, j.bounds, j.walk, n) <==> InWindow(chat, j.bounds, j.walk, n));
    assert forall n: nat :: Ahead(grown, j.bounds, j.walk, n) <==> Ahead(chat, j.bounds, j.walk, n);
  }

  lemma ArriveKeeps(s: State, m: nat, date: int)
    requires Inv(s)
    ensures Inv(Arrived(s, m, date))
  {
    if m > s.chat.top {
      var grown := Chat(s.chat.dates[m := date], m);
      forall u | u in s.workers && !s.workers[u].phase.Finished?
        ensures Phases(grown)(s.rows[s.workers[u].job], s.workers[u].phase) {
        WorkersJob(s, u, Rows(s.chat), Phases(s.chat));
        GrownPhase(s.chat, s.rows[s.workers[u].job], TasksOf(s, s.workers[u].job), s.workers[u].phase, m, date);
      }
      forall k | k in s.rows ensures Rows(grown)(s.rows[k], s.work[k]) {
        assert RowOk(s, k, Rows(s.chat));
        GrownChat(s.chat, s.rows[k], s.work[k], m, date);
      }
      ChatSound(s, grown, Rows(s.chat), Phases(s.chat), Rows(grown), Phases(grown));
    }
  }

  lemma ChatSound(s: State, chat: Chat, ok: RowProperty, fits: PhaseProperty, ok': RowProperty, fits': PhaseProperty)
    requires Sound(s, ok, fits)
    requires forall k :: k in s.rows ==> k in s.work && ok'(s.rows[k], s.work[k])
    requires forall u :: u in s.workers && !s.workers[u].phase.Finished? ==>
               s.workers[u].job in s.rows && fits'(s.rows[s.workers[u].job], s.workers[u].phase)
    ensures Sound(s.(chat := chat), ok', fits')
  {
    var s' := s.(chat := chat);
    forall u | u in s'.workers ensures WorkerOk(s', u, fits') {
      assert WorkerOk(s, u, fits);
    }
    forall k | k in s'.rows ensures RowOk(s', k, ok') {
      assert RowOk(s, k, ok);
    }
  }

  lemma StepKeeps(s: State, step: Step)
    requires Inv(s)
    ensures Inv(Take(s, step))
  {
    if Possible(s, step) {
      match step
      case DoCreate(mode, bounds, limit, offset) =>
        CreateSound(s, NewJob(mode, bounds, limit, offset), Rows(s.chat), Phases(s.chat));
      case DoStart(id, launched) => StartKeeps(s, id, launched);
      case DoCancel(id) => CancelKeeps(s, id);
      case DoPause => PauseSound(s, Rows(s.chat), Phases(s.chat));
      case DoResume => ResumeSound(s, Rows(s.chat), Phases(s.chat));
      case DoCrash(paused) => RecoverSound(s, paused, Rows(s.chat), Phases(s.chat));
      case DoDelete(id) => DeleteSound(s, id, Rows(s.chat), Phases(s.chat));
      case DoExpire(id) => ExpireSound(s, id, Rows(s.chat), Phases(s.chat));
      case DoArrive(m, date) => ArriveKeeps(s, m, date);
      case _ => WorkerStepKeeps(s, step);
    }
  }

  predicate OfWorker(step: Step) {
    step.DoInitialize? || step.DoEngineLost? || step.DoFetch? || step.DoCheckpoint? || step.DoFail? || step.DoFinish? ||
    step.DoLeave?
  }

  lemma WorkerStepKeeps(s: State, step: Step)
    requires Inv(s) && Possible(s, step) && OfWorker(step)
    ensures Inv(Next(s, step))
  {
    match step
    case DoInitialize(t, oldest, newest) => InitializeKeeps(s, t, oldest, newest);
    case DoEngineLost(t) => EngineLostKeeps(s, t);
    case DoFetch(t, room, page, done) => FetchKeeps(s, t, room, page, done);
    case DoCheckpoint(t, allowed, route, changed) =>
      CheckpointKeeps(s, t, Visit(s.workers[t].phase.page[0], allowed, route, changed));
    case DoFail(t) => FailKeeps(s, t);
    case DoFinish(t, saved) => FinishKeeps(s, t, saved);
    case DoLeave(t) => LeaveSound(s, t, Rows(s.chat), Phases(s.chat));
  }

  lemma StartKeeps(s: State, id: nat, launched: bool)
    requires Inv(s)
    ensures Inv(Started(s, id, launched))
  {
    if Startable(s, id) {
      StartSound(s, id, launched, Rows(s.chat), Phases(s.chat));
    }
  }

  lemma FailKeeps(s: State, t: nat)
    requires Inv(s) && (In(s, t, true) || In(s, t, false))
    ensures Inv(SetPhase(s, t, Ended(false)))
  {
    WorkersJob(s, t, Rows(s.chat), Phases(s.chat));
    PhaseSound(s, t, Ended(false), Rows(s.chat), Phases(s.chat));
  }

  lemma {:induction false} RunsKeep(s: State, steps: seq<Step>)
    requires Inv(s)
    ensures Inv(After(s, steps))
  {
    if steps != [] {
      RunsKeep(s, steps[..|steps| - 1]);
      StepKeeps(After(s, steps[..|steps| - 1]), steps[|steps| - 1]);
    }
  }

  /** Every worker has its own entry, and every entry its worker. */
  predicate Registered(workers: map<nat, Worker>, cancels: map<nat, nat>) {
    && (forall t :: t in workers ==> workers[t].job in cancels && cancels[workers[t].job] == t)
    && (forall id :: id in cancels ==> cancels[id] in workers && workers[cancels[id]].job == id)
  }

  lemma WorkersAreRegistered(s: State, ok: RowProperty, fits: PhaseProperty)
    requires Sound(s, ok, fits)
    ensures Registered(s.workers, s.cancels)
  {
    assert forall t :: t in s.workers ==> WorkerOk(s, t, fits);
  }
}
