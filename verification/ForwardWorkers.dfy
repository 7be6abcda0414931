/** The worker loop of the forward queue (core-service/internal/app/forward.go, `runForwards`): five
    goroutines share a counter of busy workers, which each loads, compares with the setting, and
    raises by compare-and-swap before it claims a row. Their atomic actions interleave in any order. */
module ForwardWorkers {
  import opened ForwardDelivery
  import opened ForwardAgreement
  import opened ForwardQueue

  /** Where a worker is in its loop: the setting read, the counter loaded, a slot taken, a row
      claimed, and on the way out with the slot still counted. */
  datatype Pc = Idle | Configured(limit: nat) | Loaded(limit: nat, seen: int) | Holding | Driving | Leaving

  predicate HasSlot(pc: Pc) {
    pc.Holding? || pc.Driving? || pc.Leaving?
  }

  predicate HasJob(pc: Pc) {
    pc.Driving?
  }

  datatype Pool = Pool(queue: Queue, active: int, pcs: seq<Pc>)

  const IDLE_WORKERS := [Idle, Idle, Idle, Idle, Idle]
  const START := Pool(EMPTY, 0, IDLE_WORKERS)

  /** The concurrency a worker reads, whatever number is configured. */
  function Concurrency(configured: int): nat {
    if configured < 1 then 1 else if configured > MAX_WORKERS then MAX_WORKERS else configured
  }

  /** The actions of worker w, and the steps of the queue that are not a worker's. */
  datatype Action =
    | ReadSetting(w: nat, configured: int)
    | LoadCounter(w: nat)
    | SwapCounter(w: nat)
    | ClaimRow(w: nat, due: set<nat>, id: nat, valid: bool)
    | FindNone(w: nat)
    | GiveBackRow(w: nat)
    | RunRow(w: nat, floodAttempts: nat, oracle: Oracle)
    | LowerCounter(w: nat)
    | Elsewhere(step: Step)

  predicate OfWorker(s: Step) {
    s.DoClaim? || s.DoRelease? || s.DoRun?
  }

  function Goto(p: Pool, w: nat, pc: Pc): Pool
    requires w < |p.pcs|
  {
    p.(pcs := p.pcs[w := pc])
  }

  /** The queue step in an action, if there is one. */
  function QueueStep(p: Pool, a: Action): seq<Step> {
    match a
    case ClaimRow(w, due, id, valid) => if w < |p.pcs| && p.pcs[w].Holding? then [DoClaim(w, due, id, valid)] else []
    case GiveBackRow(w) => if w < |p.pcs| && p.pcs[w].Driving? then [DoRelease(w)] else []
    case RunRow(w, floodAttempts, oracle) =>
      if w < |p.pcs| && p.pcs[w].Driving? then [DoRun(w, floodAttempts, oracle)] else []
    case Elsewhere(step) => if OfWorker(step) then [] else [step]
    case _ => []
  }

  /** A worker's own move; an action that is not its next one does nothing. */
  function Moved(p: Pool, w: nat, a: Action): Pool
    requires w < |p.pcs|
  {
    match a
    case ReadSetting(_, configured) => if p.pcs[w].Idle? then Goto(p, w, Configured(Concurrency(configured))) else p
    case LoadCounter(_) => if p.pcs[w].Configured? then Goto(p, w, Loaded(p.pcs[w].limit, p.active)) else p
    case SwapCounter(_) =>
      if !p.pcs[w].Loaded? then p
      else if p.pcs[w].seen < p.pcs[w].limit && p.active == p.pcs[w].seen then
             Goto(p, w, Holding).(active := p.active + 1)
      else Goto(p, w, Idle)
    case FindNone(_) => if p.pcs[w].Holding? then Goto(p, w, Leaving) else p
    case LowerCounter(_) => if p.pcs[w].Leaving? then Goto(p, w, Idle).(active := p.active - 1) else p
    case _ => p
  }

  /** An action with its queue step. A claim that finds no row, or one that cannot be read, leaves. */
  function Acted(p: Pool, a: Action): Pool {
    match a
    case ClaimRow(w, due, id, valid) =>
      if w < |p.pcs| && p.pcs[w].Holding? then
        var q := Stepped(p.queue, DoClaim(w, due, id, valid));
        Goto(p, w, if w in q.workers then Driving else Leaving).(queue := q)
      else p
    case GiveBackRow(w) =>
      if w < |p.pcs| && p.pcs[w].Driving? then Goto(p, w, Leaving).(queue := Stepped(p.queue, DoRelease(w))) else p
    case RunRow(w, floodAttempts, oracle) =>
      if w < |p.pcs| && p.pcs[w].Driving? then
        Goto(p, w, Leaving).(queue := Stepped(p.queue, DoRun(w, floodAttempts, oracle))) else p
    case Elsewhere(step) =>
      if OfWorker(step) then p
      else if step.DoRestart? then Pool(Stepped(p.queue, step), 0, IDLE_WORKERS)
      else p.(queue := Stepped(p.queue, step))
    case _ => if a.w < |p.pcs| then Moved(p, a.w, a) else p
  }

  function RunOf(p: Pool, actions: seq<Action>): Pool {
    if actions == [] then p else Acted(RunOf(p, actions[..|actions| - 1]), actions[|actions| - 1])
  }

  // ---- The pool runs the queue ----

  function QueueSteps(p: Pool, actions: seq<Action>): seq<Step> {
    if actions == [] then []
    else QueueSteps(p, actions[..|actions| - 1]) + QueueStep(RunOf(p, actions[..|actions| - 1]), actions[|actions| - 1])
  }

  lemma AfterAppend(q: Queue, steps: seq<Step>, s: Step)
    ensures After(q, steps + [s]) == Stepped(After(q, steps), s)
  {
    assert (steps + [s])[..|steps|] == steps;
  }

  lemma QueueStepOne(p: Pool, a: Action)
    ensures |QueueStep(p, a)| <= 1
    ensures Acted(p, a).queue == if QueueStep(p, a) == [] then p.queue else Stepped(p.queue, QueueStep(p, a)[0])
  {
  }

  /** Every interleaving of the workers is a run of the queue, so what holds over every run of the
      queue holds for the pool. */
  lemma {:induction false} PoolRunsQueue(actions: seq<Action>)
    ensures RunOf(START, actions).queue == After(EMPTY, QueueSteps(START, actions))
  {
    if actions != [] {
      var before, a := actions[..|actions| - 1], actions[|actions| - 1];
      PoolRunsQueue(before);
      var earlier, steps := QueueSteps(START, before), QueueStep(RunOf(START, before), a);
      QueueStepOne(RunOf(START, before), a);
      if steps == [] {
        assert earlier + steps == earlier;
      } else {
        assert steps == [steps[0]];
        AfterAppend(EMPTY, earlier, steps[0]);
      }
    }
  }

  // ---- The counter ----

  function Count(pcs: seq<Pc>, counts: Pc -> bool): nat {
    if pcs == [] then 0 else Count(pcs[..|pcs| - 1], counts) + if counts(pcs[|pcs| - 1]) then 1 else 0
  }

  function One(b: bool): nat {
    if b then 1 else 0
  }

  lemma {:induction false} CountMoved(pcs: seq<Pc>, w: nat, pc: Pc, counts: Pc -> bool)
    requires w < |pcs|
    ensures Count(pcs[w := pc], counts) == Count(pcs, counts) - One(counts(pcs[w])) + One(counts(pc))
  {
    var init := pcs[..|pcs| - 1];
    if w == |pcs| - 1 {
      assert pcs[w := pc][..w] == init;
    } else {
      CountMoved(init, w, pc, counts);
      assert pcs[w := pc][..|pcs| - 1] == init[w := pc];
    }
  }

  lemma {:induction false} CountLess(pcs: seq<Pc>, fewer: Pc -> bool, more: Pc -> bool)
    requires forall pc :: fewer(pc) ==> more(pc)
    ensures Count(pcs, fewer) <= Count(pcs, more)
  {
    if pcs != [] {
      CountLess(pcs[..|pcs| - 1], fewer, more);
    }
  }

  function Slots(pcs: seq<Pc>): nat {
    Count(pcs, HasSlot)
  }

  function Drivers(pcs: seq<Pc>): nat {
    Count(pcs, HasJob)
  }

  lemma GotoCounts(pcs: seq<Pc>, w: nat, pc: Pc)
    requires w < |pcs|
    ensures Slots(pcs[w := pc]) == Slots(pcs) - One(HasSlot(pcs[w])) + One(HasSlot(pc))
    ensures Drivers(pcs[w := pc]) == Drivers(pcs) - One(HasJob(pcs[w])) + One(HasJob(pc))
  {
    CountMoved(pcs, w, pc, HasSlot);
    CountMoved(pcs, w, pc, HasJob);
  }

  /** The limits that workers hold on to. */
  predicate LimitsUpTo(pcs: seq<Pc>, bound: nat) {
    forall w :: 0 <= w < |pcs| && (pcs[w].Configured? || pcs[w].Loaded?) ==> pcs[w].limit <= bound
  }

  /** The counter is the number of workers with a slot and within the bound; the jobs in progress are
      those of the driving workers. */
  ghost predicate CounterInv(active: int, pcs: seq<Pc>, workers: map<nat, nat>, bound: nat) {
    && |pcs| == MAX_WORKERS && LimitsUpTo(pcs, bound)
    && active == Slots(pcs) && active <= bound
    && (forall w: nat :: w in workers <==> w < |pcs| && pcs[w].Driving?)
    && |workers| == Drivers(pcs)
  }

  ghost predicate PoolInv(p: Pool, bound: nat) {
    QueueAgrees(p.queue) && CounterInv(p.active, p.pcs, p.queue.workers, bound)
  }

  lemma {:induction false} CountNone(pcs: seq<Pc>, counts: Pc -> bool)
    requires forall k :: 0 <= k < |pcs| ==> !counts(pcs[k])
    ensures Count(pcs, counts) == 0
  {
    if pcs != [] {
      CountNone(pcs[..|pcs| - 1], counts);
    }
  }

  lemma IdleCounts(bound: nat)
    ensures CounterInv(0, IDLE_WORKERS, map[], bound)
  {
    CountNone(IDLE_WORKERS, HasSlot);
    CountNone(IDLE_WORKERS, HasJob);
  }

  /** No setting above the bound is read. */
  predicate ReadsUpTo(a: Action, bound: nat) {
    a.ReadSetting? ==> Concurrency(a.configured) <= bound
  }

  lemma MovedKeeps(p: Pool, w: nat, a: Action, bound: nat)
    requires CounterInv(p.active, p.pcs, p.queue.workers, bound) && w < |p.pcs| && ReadsUpTo(a, bound)
    ensures var p' := Moved(p, w, a); p'.queue == p.queue && CounterInv(p'.active, p'.pcs, p.queue.workers, bound)
  {
    var p' := Moved(p, w, a);
    GotoCounts(p.pcs, w, p'.pcs[w]);
    assert p'.pcs == p.pcs[w := p'.pcs[w]];
  }

  /** A slot holder gets a row, ... */
  lemma GetsRow(active: int, pcs: seq<Pc>, workers: map<nat, nat>, w: nat, id: nat, bound: nat)
    requires CounterInv(active, pcs, workers, bound) && w < |pcs| && pcs[w].Holding?
    ensures CounterInv(active, pcs[w := Driving], workers[w := id], bound)
  {
    GotoCounts(pcs, w, Driving);
    assert workers[w := id].Keys == workers.Keys + {w};
  }

  /** ... gives it up, or never got one. */
  lemma GivesUp(active: int, pcs: seq<Pc>, workers: map<nat, nat>, w: nat, bound: nat)
    requires CounterInv(active, pcs, workers, bound) && w < |pcs| && (pcs[w].Holding? || pcs[w].Driving?)
    ensures CounterInv(active, pcs[w := Leaving], workers - {w}, bound) &&
            (pcs[w].Holding? ==> workers - {w} == workers)
  {
    GotoCounts(pcs, w, Leaving);
    OneLess(workers, w);
    assert LimitsUpTo(pcs[w := Leaving], bound);
  }

  lemma OneLess(workers: map<nat, nat>, w: nat)
    ensures if w in workers then |workers - {w}| == |workers| - 1 else workers - {w} == workers
  {
    assert (workers - {w}).Keys == workers.Keys - {w};
    assert w in workers ==> workers.Keys == (workers.Keys - {w}) + {w};
  }

  /** What a queue step does to the drivers. */
  lemma ClaimedWorkers(q: Queue, w: nat, due: set<nat>, id: nat, valid: bool)
    requires w !in q.workers
    ensures var q' := Stepped(q, DoClaim(w, due, id, valid));
            q'.workers == q.workers || q'.workers == q.workers[w := id]
  {
  }

  lemma FreedWorkers(q: Queue, w: nat, s: Step)
    requires w in q.workers && q.workers[w] in q.rows && (s == DoRelease(w) || (s.DoRun? && s.w == w))
    ensures Stepped(q, s).workers == q.workers - {w}
  {
  }

  lemma ElsewhereWorkers(q: Queue, s: Step)
    requires !OfWorker(s)
    ensures Stepped(q, s).workers == if s.DoRestart? then map[] else q.workers
  {
  }

  ghost predicate Counts(p: Pool, bound: nat) {
    CounterInv(p.active, p.pcs, p.queue.workers, bound)
  }

  lemma ClaimCounts(p: Pool, w: nat, due: set<nat>, id: nat, valid: bool, bound: nat)
    requires Counts(p, bound) && w < |p.pcs| && p.pcs[w].Holding?
    ensures Counts(Acted(p, ClaimRow(w, due, id, valid)), bound)
  {
    ClaimedWorkers(p.queue, w, due, id, valid);
    GetsRow(p.active, p.pcs, p.queue.workers, w, id, bound);
    GivesUp(p.active, p.pcs, p.queue.workers, w, bound);
  }

  lemma FreeCounts(p: Pool, a: Action, bound: nat)
    requires Counts(p, bound) && (a.GiveBackRow? || a.RunRow?) && a.w < |p.pcs| && p.pcs[a.w].Driving?
    requires forall w :: w in p.queue.workers ==> p.queue.workers[w] in p.queue.rows
    ensures Counts(Acted(p, a), bound)
  {
    FreedWorkers(p.queue, a.w, if a.GiveBackRow? then DoRelease(a.w) else DoRun(a.w, a.floodAttempts, a.oracle));
    GivesUp(p.active, p.pcs, p.queue.workers, a.w, bound);
  }

  lemma ElsewhereCounts(p: Pool, s: Step, bound: nat)
    requires Counts(p, bound) && !OfWorker(s)
    ensures Counts(Acted(p, Elsewhere(s)), bound)
  {
    ElsewhereWorkers(p.queue, s);
    IdleCounts(bound);
  }

  lemma ActedCounts(p: Pool, a: Action, bound: nat)
    requires Counts(p, bound) && ReadsUpTo(a, bound)
    requires forall w :: w in p.queue.workers ==> p.queue.workers[w] in p.queue.rows
    ensures Counts(Acted(p, a), bound)
  {
    match a
    case ClaimRow(w, due, id, valid) =>
      if w < |p.pcs| && p.pcs[w].Holding? {
        ClaimCounts(p, w, due, id, valid, bound);
      }
    case Elsewhere(s) =>
      if !OfWorker(s) {
        ElsewhereCounts(p, s, bound);
      }
    case GiveBackRow(w) =>
      if w < |p.pcs| && p.pcs[w].Driving? {
        FreeCounts(p, a, bound);
      }
    case RunRow(w, _, _) =>
      if w < |p.pcs| && p.pcs[w].Driving? {
        FreeCounts(p, a, bound);
      }
    case _ =>
      if a.w < |p.pcs| {
        MovedKeeps(p, a.w, a, bound);
      }
  }

  lemma ActedAgrees(p: Pool, a: Action)
    requires QueueAgrees(p.queue)
    ensures QueueAgrees(Acted(p, a).queue)
  {
    QueueStepOne(p, a);
    if QueueStep(p, a) != [] {
      StepAgrees(p.queue, QueueStep(p, a)[0]);
    }
  }

  /** Every action keeps the counter right. */
  lemma ActedKeeps(p: Pool, a: Action, bound: nat)
    requires PoolInv(p, bound) && ReadsUpTo(a, bound)
    ensures PoolInv(Acted(p, a), bound)
  {
    ActedAgrees(p, a);
    ActedCounts(p, a, bound);
  }

  lemma {:induction false} PoolStays(actions: seq<Action>, bound: nat)
    requires forall m :: 0 <= m < |actions| ==> ReadsUpTo(actions[m], bound)
    ensures PoolInv(RunOf(START, actions), bound)
  {
    if actions == [] {
      IdleCounts(bound);
    } else {
      PoolStays(actions[..|actions| - 1], bound);
      ActedKeeps(RunOf(START, actions[..|actions| - 1]), actions[|actions| - 1], bound);
    }
  }

  /** Over every interleaving of loads, swaps, claims, ends and restarts the counter is the number of
      workers with a slot, and the jobs in progress are at most the counter, which never exceeds the
      largest concurrency any worker has read. */
  lemma JobsWithinConcurrency(actions: seq<Action>, bound: nat)
    requires forall m :: 0 <= m < |actions| ==> ReadsUpTo(actions[m], bound)
    ensures var p := RunOf(START, actions);
            |p.queue.workers| <= p.active == Slots(p.pcs) <= bound
  {
    PoolStays(actions, bound);
    CountLess(RunOf(START, actions).pcs, HasJob, HasSlot);
  }

  /** ... so never more than five, whatever is configured. */
  lemma AtMostFiveJobs(actions: seq<Action>)
    ensures |RunOf(START, actions).queue.workers| <= MAX_WORKERS
  {
    JobsWithinConcurrency(actions, MAX_WORKERS);
  }

  // ---- The actions as the goroutines do them ----

  /** Each method is one atomic action on the pool, so ActedKeeps is about them. */
  class WorkerPool {
    const store: ForwardQueueStore
    var active: int
    var pcs: seq<Pc>

    ghost function State(): Pool
      reads this, store
    {
      Pool(store.State(), active, pcs)
    }

    constructor (store: ForwardQueueStore)
      requires store.State() == EMPTY
      ensures this.store == store && State() == START
    {
      this.store := store;
      active := 0;
      pcs := IDLE_WORKERS;
    }

    /** `forwarderConfig`. */
    method ReadLimit(w: nat, configured: int)
      requires w < |pcs| && pcs[w].Idle?
      modifies this
      ensures State() == Acted(old(State()), ReadSetting(w, configured))
    {
      var limit := configured;
      if limit > MAX_WORKERS {
        limit := MAX_WORKERS;
      }
      if limit < 1 {
        limit := 1;
      }
      pcs := pcs[w := Configured(limit)];
    }

    /** `active.Load`. */
    method LoadActive(w: nat)
      requires w < |pcs| && pcs[w].Configured?
      modifies this
      ensures State() == Acted(old(State()), LoadCounter(w))
    {
      pcs := pcs[w := Loaded(pcs[w].limit, active)];
    }

    /** The comparison and `active.CompareAndSwap`. */
    method TrySlot(w: nat) returns (ok: bool)
      requires w < |pcs| && pcs[w].Loaded?
      modifies this
      ensures State() == Acted(old(State()), SwapCounter(w)) && (ok <==> pcs[w].Holding?)
    {
      var current := pcs[w].seen;
      ok := current < pcs[w].limit && active == current;
      if ok {
        active := current + 1;
      }
      pcs := pcs[w := if ok then Holding else Idle];
    }

    /** `claimForward`; a worker without a job leaves. */
    method ClaimNext(w: nat, due: set<nat>, valid: bool) returns (id: nat)
      requires QueueAgrees(store.State()) && w < |pcs| && pcs[w].Holding?
      modifies this, store
      ensures State() == Acted(old(State()), ClaimRow(w, due, id, valid)) && QueueAgrees(store.State())
    {
      var found;
      found, id := store.ClaimForward(w, due, valid);
      pcs := pcs[w := if w in store.workers then Driving else Leaving];
    }

    method RunClaimed(w: nat, floodAttempts: nat, oracle: Oracle)
      requires QueueAgrees(store.State()) && w < |pcs| && pcs[w].Driving? && w in store.workers
      modifies this, store
      ensures State() == Acted(old(State()), RunRow(w, floodAttempts, oracle)) && QueueAgrees(store.State())
    {
      store.RunJob(w, floodAttempts, oracle);
      pcs := pcs[w := Leaving];
    }

    /** The start was cancelled, or the monitor stopped. */
    method GiveBack(w: nat)
      requires QueueAgrees(store.State()) && w < |pcs| && pcs[w].Driving? && w in store.workers
      modifies this, store
      ensures State() == Acted(old(State()), GiveBackRow(w)) && QueueAgrees(store.State())
    {
      store.ReleaseForwardClaim(w);
      pcs := pcs[w := Leaving];
    }

    /** `active.Add(-1)`. */
    method LowerActive(w: nat)
      requires w < |pcs| && pcs[w].Leaving?
      modifies this
      ensures State() == Acted(old(State()), LowerCounter(w))
    {
      active := active - 1;
      pcs := pcs[w := Idle];
    }
  }
}
