/** The rotation sweep (core-service/internal/app/disk_rotator.go): deletes the oldest unprotected
    rows, batch by batch, until the library is back under its cap. */
module DiskRotator {
  import opened FileCleanup

  // ---- The pass, for any database ----

  /** What the queries of the rotator answer: the rows it may delete, oldest first, the effect of a
      deletion, the bytes that it counts for, and the path it puts into the outbox. */
  datatype Database<!S, !R> = Database(eligible: S -> seq<R>, delete: (S, R) -> S, freed: (S, R) -> nat,
                                       queued: R -> set<string>)

  /** The rows after the first n deletions of the queue. */
  function Left<S, R>(db: Database<S, R>, rows: S, queue: seq<R>, n: nat): S
    requires n <= |queue|
  {
    if n == 0 then rows else db.delete(Left(db, rows, queue, n - 1), queue[n - 1])
  }

  /** The bytes that the first n deletions count for, each taken after the row is gone. */
  function Costs<S, R>(db: Database<S, R>, rows: S, queue: seq<R>, n: nat): (r: seq<nat>)
    requires n <= |queue|
    ensures |r| == n
  {
    if n == 0 then [] else Costs(db, rows, queue, n - 1) + [db.freed(Left(db, rows, queue, n), queue[n - 1])]
  }

  function Spent(costs: seq<nat>, n: nat): nat
    requires n <= |costs|
  {
    if n == 0 then 0 else Spent(costs, n - 1) + costs[n - 1]
  }

  /** Deletions go on while the total is over the cap and the limit allows. */
  predicate Stops(costs: seq<nat>, total: int, cap: int, limit: nat, n: nat) {
    && n <= |costs| && n <= limit
    && (total - Spent(costs, n) <= cap || n == limit || n == |costs|)
    && forall m :: 0 <= m < n ==> total - Spent(costs, m) > cap
  }

  lemma StopsOnce(costs: seq<nat>, total: int, cap: int, limit: nat, a: nat, b: nat)
    requires Stops(costs, total, cap, limit, a) && Stops(costs, total, cap, limit, b)
    ensures a == b
  {
  }

  function Count(costs: seq<nat>, total: int, cap: int, limit: nat, from: nat): (n: nat)
    requires from <= |costs| && from <= limit
    requires forall m :: 0 <= m < from ==> total - Spent(costs, m) > cap
    ensures Stops(costs, total, cap, limit, n)
    decreases |costs| - from
  {
    if total - Spent(costs, from) <= cap || from == limit || from == |costs| then from
    else Count(costs, total, cap, limit, from + 1)
  }

  function QueuedBy<S, R>(db: Database<S, R>, deleted: seq<R>): set<string> {
    if deleted == [] then {} else QueuedBy(db, deleted[..|deleted| - 1]) + db.queued(deleted[|deleted| - 1])
  }

  datatype Progress<S, R> = Progress(rows: S, total: int, deleted: seq<R>)

  /** The shortest prefix of the eligible rows whose deletion brings the total to the cap, unless
      the limit or the end of these rows cuts it off: what is left, the total counted, and the
      deleted rows. */
  function Swept<S, R>(db: Database<S, R>, rows: S, total: int, cap: int, limit: nat): Progress<S, R> {
    var queue := db.eligible(rows);
    var costs := Costs(db, rows, queue, |queue|);
    var n := Count(costs, total, cap, limit, 0);
    Progress(Left(db, rows, queue, n), total - Spent(costs, n), queue[..n])
  }

  /** Deletions leave the rest of the queue eligible. */
  ghost predicate Steady<S, R>(db: Database<S, R>, rows: S) {
    forall n: nat :: n <= |db.eligible(rows)| ==>
      db.eligible(Left(db, rows, db.eligible(rows), n)) == db.eligible(rows)[n..]
  }

  lemma {:induction false} LeftRest<S, R>(db: Database<S, R>, rows: S, queue: seq<R>, n: nat, more: nat)
    requires n + more <= |queue|
    ensures Left(db, Left(db, rows, queue, n), queue[n..], more) == Left(db, rows, queue, n + more)
    decreases more
  {
    if more > 0 {
      LeftRest(db, rows, queue, n, more - 1);
    }
  }

  lemma {:induction false} CostAt<S, R>(db: Database<S, R>, rows: S, queue: seq<R>, n: nat, k: nat)
    requires k < n <= |queue|
    ensures Costs(db, rows, queue, n)[k] == db.freed(Left(db, rows, queue, k + 1), queue[k])
  {
    if k < n - 1 {
      CostAt(db, rows, queue, n - 1, k);
    }
  }

  lemma CostsRest<S, R>(db: Database<S, R>, rows: S, queue: seq<R>, n: nat)
    requires n <= |queue|
    ensures Costs(db, Left(db, rows, queue, n), queue[n..], |queue| - n) == Costs(db, rows, queue, |queue|)[n..]
  {
    forall m | 0 <= m < |queue| - n
      ensures Costs(db, Left(db, rows, queue, n), queue[n..], |queue| - n)[m] == Costs(db, rows, queue, |queue|)[n..][m]
    {
      LeftRest(db, rows, queue, n, m + 1);
      CostAt(db, rows, queue, |queue|, n + m);
      CostAt(db, Left(db, rows, queue, n), queue[n..], |queue| - n, m);
    }
  }

  lemma {:induction false} SpentRest(costs: seq<nat>, n: nat, more: nat)
    requires n + more <= |costs|
    ensures Spent(costs, n + more) == Spent(costs, n) + Spent(costs[n..], more)
    decreases more
  {
    if more > 0 {
      SpentRest(costs, n, more - 1);
    }
  }

  /** Deletions that stop after n, and then after k more, stop after n + k. */
  lemma CountContinues(costs: seq<nat>, total: int, cap: int, n: nat, limit: nat)
    requires n <= |costs| && limit > 0 && total - Spent(costs, n) > cap && forall m :: 0 <= m < n ==>
               total - Spent(costs, m) > cap
    ensures var k := Count(costs[n..], total - Spent(costs, n), cap, limit, 0);
            && n + k <= |costs| && k <= limit && (k == 0 ==> n == |costs|)
            && Spent(costs, n + k) == Spent(costs, n) + Spent(costs[n..], k)
            && forall m :: 0 <= m < n + k ==> total - Spent(costs, m) > cap
  {
    var k := Count(costs[n..], total - Spent(costs, n), cap, limit, 0);
    SpentRest(costs, n, k);
    forall m | n <= m < n + k ensures total - Spent(costs, m) > cap {
      SpentRest(costs, n, m - n);
    }
  }

  lemma SweptIs<S, R>(db: Database<S, R>, rows: S, total: int, cap: int, limit: nat, queue: seq<R>, costs: seq<nat>,
                      n: nat)
    requires queue == db.eligible(rows) && costs == Costs(db, rows, queue, |queue|) &&
             Stops(costs, total, cap, limit, n)
    ensures Swept(db, rows, total, cap, limit) ==
              Progress(Left(db, rows, queue, n), total - Spent(costs, n), queue[..n])
  {
    StopsOnce(costs, total, cap, limit, n, Count(costs, total, cap, limit, 0));
  }

  /** A batch on what the earlier batches left continues the pass over all eligible rows. */
  lemma BatchContinues<S, R>(db: Database<S, R>, rows: S, total: int, cap: int, n: nat, limit: nat, queue: seq<R>,
                             costs: seq<nat>, k: nat)
    requires Steady(db, rows) && queue == db.eligible(rows) && costs == Costs(db, rows, queue, |queue|) && n <= |queue|
    requires Stops(costs[n..], total - Spent(costs, n), cap, limit, k)
    ensures n + k <= |queue| && Spent(costs, n + k) == Spent(costs, n) + Spent(costs[n..], k)
    ensures Swept(db, Left(db, rows, queue, n), total - Spent(costs, n), cap, limit) ==
              Progress(Left(db, rows, queue, n + k), total - Spent(costs, n + k), queue[n..n + k])
  {
    CostsRest(db, rows, queue, n);
    SpentRest(costs, n, k);
    SweptIs(db, Left(db, rows, queue, n), total - Spent(costs, n), cap, limit, queue[n..], costs[n..], k);
    LeftRest(db, rows, queue, n, k);
    SliceOf(queue, n, k);
  }

  lemma SliceOf<R>(queue: seq<R>, n: nat, k: nat)
    requires n + k <= |queue|
    ensures queue[n..][..k] == queue[n..n + k]
  {
  }

  /** Where a sweep of `all` stands after n deletions. */
  ghost predicate Deleting<S, R>(db: Database<S, R>, all: S, before: int, cap: int, n: nat, rows: S, total: int) {
    var queue := db.eligible(all);
    Steady(db, all) && DeletingAt(db, all, queue, Costs(db, all, queue, |queue|), before, cap, n, rows, total)
  }

  ghost predicate DeletingAt<S, R>(db: Database<S, R>, all: S, queue: seq<R>, costs: seq<nat>, before: int, cap: int,
                                   n: nat, rows: S, total: int) {
    && n <= |queue| == |costs| && rows == Left(db, all, queue, n) && total == before - Spent(costs, n)
    && forall m :: 0 <= m < n ==> before - Spent(costs, m) > cap
  }

  /** The next batch goes on where the earlier ones stopped, and is empty only at the end. */
  lemma NextBatch<S, R>(db: Database<S, R>, all: S, before: int, cap: int, n: nat, rows: S, total: int, limit: nat)
    requires Deleting(db, all, before, cap, n, rows, total) && total > cap && limit > 0
    ensures var p, queue := Swept(db, rows, total, cap, limit), db.eligible(all);
            && Deleting(db, all, before, cap, n + |p.deleted|, p.rows, p.total) && |p.deleted| <= limit
            && queue[..n] + p.deleted == queue[..n + |p.deleted|] && (p.deleted == [] ==> n == |queue|)
  {
    var queue := db.eligible(all);
    NextBatchAt(db, all, queue, Costs(db, all, queue, |queue|), before, cap, n, rows, total, limit);
  }

  lemma NextBatchAt<S, R>(db: Database<S, R>, all: S, queue: seq<R>, costs: seq<nat>, before: int, cap: int, n: nat,
                          rows: S, total: int, limit: nat)
    requires Steady(db, all) && queue == db.eligible(all) && costs == Costs(db, all, queue, |queue|)
    requires DeletingAt(db, all, queue, costs, before, cap, n, rows, total) && total > cap && limit > 0
    ensures var p := Swept(db, rows, total, cap, limit);
            && n + |p.deleted| <= |queue| && DeletingAt(db, all, queue, costs, before, cap, n + |p.deleted|, p.rows,
                                                        p.total) && |p.deleted| <= limit
            && queue[..n] + p.deleted == queue[..n + |p.deleted|] && (p.deleted == [] ==> n == |queue|)
  {
    var k := Count(costs[n..], total, cap, limit, 0);
    CountContinues(costs, before, cap, n, limit);
    BatchSwept(db, all, queue, costs, before, cap, n, rows, total, limit, k);
    PrefixGoesOn(queue, n, k);
  }

  lemma BatchSwept<S, R>(db: Database<S, R>, all: S, queue: seq<R>, costs: seq<nat>, before: int, cap: int, n: nat,
                         rows: S, total: int, limit: nat, k: nat)
    requires Steady(db, all) && queue == db.eligible(all) && costs == Costs(db, all, queue, |queue|)
    requires n <= |queue| && rows == Left(db, all, queue, n) && total == before - Spent(costs, n)
    requires Stops(costs[n..], total, cap, limit, k) && n + k <= |queue|
    ensures Swept(db, rows, total, cap, limit) ==
              Progress(Left(db, all, queue, n + k), before - Spent(costs, n + k), queue[n..n + k])
  {
    BatchContinues(db, all, before, cap, n, limit, queue, costs, k);
  }

  lemma PrefixGoesOn<R>(queue: seq<R>, n: nat, k: nat)
    requires n + k <= |queue|
    ensures queue[..n] + queue[n..n + k] == queue[..n + k] && |queue[n..n + k]| == k
  {
  }

  /** What deletion k takes from the measure is at least what it counts for, and exactly that if
      the deletion is exact. */
  ghost predicate DropAt<S, R>(db: Database<S, R>, rows: S, queue: seq<R>, measure: S -> int, exact: (S, R) -> bool,
                               k: nat)
    requires k < |queue|
  {
    var after := Left(db, rows, queue, k + 1);
    var drop := measure(Left(db, rows, queue, k)) - measure(after);
    drop >= db.freed(after, queue[k]) && (drop == db.freed(after, queue[k]) <==> exact(after, queue[k]))
  }

  predicate Exactly<S, R>(db: Database<S, R>, rows: S, queue: seq<R>, exact: (S, R) -> bool, n: nat)
    requires n <= |queue|
  {
    n == 0 || (Exactly(db, rows, queue, exact, n - 1) && exact(Left(db, rows, queue, n), queue[n - 1]))
  }

  lemma {:induction false} ExactlyMeans<S, R>(db: Database<S, R>, rows: S, queue: seq<R>, exact: (S, R) -> bool, n: nat)
    requires n <= |queue|
    ensures Exactly(db, rows, queue, exact, n) <==> forall k: nat :: k < n ==>
              exact(Left(db, rows, queue, k + 1), queue[k])
  {
    if n > 0 {
      ExactlyMeans(db, rows, queue, exact, n - 1);
    }
  }

  /** Then the same holds of all deletions together. */
  lemma {:induction false} TotalFollows<S, R>(db: Database<S, R>, rows: S, queue: seq<R>, measure: S -> int,
                                              exact: (S, R) -> bool, n: nat)
    requires n <= |queue| && forall k: nat :: k < n ==> DropAt(db, rows, queue, measure, exact, k)
    ensures var drop, spent := measure(rows) - measure(Left(db, rows, queue, n)),
            Spent(Costs(db, rows, queue, |queue|), n);
            drop >= spent && (drop == spent <==> Exactly(db, rows, queue, exact, n))
  {
    if n > 0 {
      TotalFollows(db, rows, queue, measure, exact, n - 1);
      CostAt(db, rows, queue, |queue|, n - 1);
      assert DropAt(db, rows, queue, measure, exact, n - 1);
    }
  }

  lemma QueuedStep<S, R>(db: Database<S, R>, deleted: seq<R>, row: R)
    ensures QueuedBy(db, deleted + [row]) == QueuedBy(db, deleted) + db.queued(row)
  {
    assert (deleted + [row])[..|deleted|] == deleted;
  }

  lemma {:induction false} QueuedJoin<S, R>(db: Database<S, R>, a: seq<R>, b: seq<R>)
    ensures QueuedBy(db, a + b) == QueuedBy(db, a) + QueuedBy(db, b)
  {
    if b == [] {
      assert a + b == a;
    } else {
      QueuedJoin(db, a, b[..|b| - 1]);
      assert (a + b)[..|a + b| - 1] == a + b[..|b| - 1];
    }
  }

  lemma {:induction false} QueuedMeans<S, R>(db: Database<S, R>, deleted: seq<R>, path: string)
    ensures path in QueuedBy(db, deleted) <==> exists k :: 0 <= k < |deleted| && path in db.queued(deleted[k])
  {
    if deleted != [] {
      var init := deleted[..|deleted| - 1];
      QueuedMeans(db, init, path);
      if k :| 0 <= k < |deleted| && path in db.queued(deleted[k]) {
        assert k < |init| ==> init[k] == deleted[k];
      }
    }
  }

  // ---- The sweep as the program runs it ----

  class Rotator<S, R> {
    const db: Database<S, R>
    var rows: S
    var outbox: set<string>

    constructor (db: Database<S, R>, rows: S, outbox: set<string>)
      ensures this.db == db && this.rows == rows && this.outbox == outbox
    {
      this.db, this.rows, this.outbox := db, rows, outbox;
    }

    /** `rotateBatch`: one transaction over the oldest eligible rows, at most `limit`. */
    method RotateBatch(total: int, cap: int, limit: nat) returns (remaining: int, deleted: seq<R>)
      modifies this
      ensures Progress(rows, remaining, deleted) == Swept(db, old(rows), total, cap, limit)
      ensures outbox == old(outbox) + QueuedBy(db, deleted)
    {
      var queue := db.eligible(rows);
      var candidates := if limit < |queue| then queue[..limit] else queue;
      ghost var all := rows;
      ghost var costs := Costs(db, all, queue, |queue|);
      remaining, deleted := total, [];
      var k := 0;
      while k < |candidates| && remaining > cap
        invariant k <= |candidates| <= |queue| && deleted == queue[..k]
        invariant rows == Left(db, all, queue, k) && remaining == total - Spent(costs, k)
        invariant forall m :: 0 <= m < k ==> total - Spent(costs, m) > cap
        invariant outbox == old(outbox) + QueuedBy(db, deleted)
        decreases |candidates| - k
      {
        var row := candidates[k];
        CostAt(db, all, queue, |queue|, k);
        QueuedStep(db, deleted, row);
        outbox := outbox + db.queued(row);
        rows := db.delete(rows, row);
        remaining := remaining - db.freed(rows, row);
        assert queue[..k + 1] == queue[..k] + [row];
        deleted := deleted + [row];
        k := k + 1;
      }
      SweptIs(db, all, total, cap, limit, queue, costs, k);
    }

    /** A batch after n deletions. */
    method NextDeletions(ghost all: S, ghost before: int, ghost n: nat, total: int, cap: int, limit: nat)
        returns (left: int, part: seq<R>)
      requires Deleting(db, all, before, cap, n, rows, total) && total > cap && limit > 0
      modifies this
      ensures Deleting(db, all, before, cap, n + |part|, rows, left) && |part| <= limit
      ensures db.eligible(all)[..n] + part == db.eligible(all)[..n + |part|] && (part == [] ==> n == |db.eligible(all)|)
      ensures outbox == old(outbox) + QueuedBy(db, part)
    {
      NextBatch(db, all, before, cap, n, rows, total, limit);
      left, part := RotateBatch(total, cap, limit);
    }

    /** `sweepDiskRotator`: whatever the batch size, the batches together delete what one pass over
        all eligible rows would; the loop ends because the budget falls. */
    method Sweep(before: int, cap: int, batch: nat, maxDeletes: nat) returns (total: int, deleted: seq<R>)
      requires Steady(db, rows) && batch > 0
      modifies this
      ensures Progress(rows, total, deleted) == Swept(db, old(rows), before, cap, maxDeletes)
      ensures outbox == old(outbox) + QueuedBy(db, deleted)
    {
      ghost var all := rows;
      total, deleted := before, [];
      var budget: nat := maxDeletes;
      while total > cap && budget > 0
        invariant |deleted| + budget == maxDeletes && Deleting(db, all, before, cap, |deleted|, rows, total)
        invariant deleted == db.eligible(all)[..|deleted|]
        invariant outbox == old(outbox) + QueuedBy(db, deleted)
        decreases budget
      {
        var part;
        total, part := NextDeletions(all, before, |deleted|, total, cap, if batch < budget then batch else budget);
        if part == [] {
          break;
        }
        QueuedJoin(db, deleted, part);
        deleted := deleted + part;
        budget := budget - |part|;
      }
      SweepDone(db, all, before, cap, maxDeletes, rows, total, deleted);
    }
  }

  lemma SweepDone<S, R>(db: Database<S, R>, all: S, before: int, cap: int, limit: nat, rows: S, total: int,
                        deleted: seq<R>)
    requires Deleting(db, all, before, cap, |deleted|, rows, total) && deleted == db.eligible(all)[..|deleted|]
    requires |deleted| <= limit && (total <= cap || |deleted| == limit || |deleted| == |db.eligible(all)|)
    ensures Progress(rows, total, deleted) == Swept(db, all, before, cap, limit)
  {
    var queue := db.eligible(all);
    SweptIs(db, all, before, cap, limit, queue, Costs(db, all, queue, |queue|), |deleted|);
  }

  // ---- The media library as that database ----

  predicate DistinctIds<P(==)>(rows: seq<Entry<P>>) {
    forall i, j :: 0 <= i < j < |rows| ==> rows[i].id != rows[j].id
  }

  /** Which rows are open to deletion, the path that means no file, and what a row puts into the
      outbox. */
  datatype Rules<!P> = Rules(open: Entry<P> -> bool, none: P, queued: Entry<P> -> set<string>)

  function Eligible<P(==)>(rows: seq<Entry<P>>, rules: Rules<P>): (r: seq<Entry<P>>)
    ensures |r| <= |rows|
  {
    if rows == [] then []
    else Eligible(rows[..|rows| - 1], rules) + if rules.open(rows[|rows| - 1]) then [rows[|rows| - 1]] else []
  }

  predicate Uses<P(==)>(rows: seq<Entry<P>>, path: P) {
    rows != [] && (rows[|rows| - 1].path == path || Uses(rows[..|rows| - 1], path))
  }

  lemma {:induction false} UsesMeans<P>(rows: seq<Entry<P>>, path: P)
    ensures Uses(rows, path) <==> exists k :: 0 <= k < |rows| && rows[k].path == path
  {
    if rows != [] {
      var init := rows[..|rows| - 1];
      UsesMeans(init, path);
      if k :| 0 <= k < |rows| && rows[k].path == path {
        assert k < |init| ==> init[k] == rows[k];
      }
    }
  }

  /** Bytes the deletion of `row` counts for: none without a file or while `left` still uses it. */
  function Freed<P(==)>(left: seq<Entry<P>>, row: Entry<P>, none: P): nat {
    if row.path == none || Uses(left, row.path) then 0 else row.size
  }

  function Rotation<P(==)>(rules: Rules<P>): Database<seq<Entry<P>>, Entry<P>> {
    Database(rows => Eligible(rows, rules),
             (rows: seq<Entry<P>>, row: Entry<P>) => Remaining(rows, {row.id}),
             (rows: seq<Entry<P>>, row: Entry<P>) => Freed(rows, row, rules.none),
             rules.queued)
  }

  function Ids<P(==)>(rows: seq<Entry<P>>): set<nat> {
    set k | 0 <= k < |rows| :: rows[k].id
  }

  // ---- Eligible rows under deletion ----

  lemma {:induction false} EligibleRows<P>(rows: seq<Entry<P>>, rules: Rules<P>, row: Entry<P>)
    ensures row in Eligible(rows, rules) <==> row in rows && rules.open(row)
  {
    if rows != [] {
      EligibleRows(rows[..|rows| - 1], rules, row);
      assert rows == rows[..|rows| - 1] + [rows[|rows| - 1]];
    }
  }

  lemma {:induction false} RemainingAll<P>(rows: seq<Entry<P>>, ids: set<nat>)
    requires forall k :: 0 <= k < |rows| ==> rows[k].id !in ids
    ensures Remaining(rows, ids) == rows
  {
    if rows != [] {
      RemainingAll(rows[..|rows| - 1], ids);
    }
  }

  lemma {:induction false} RemainingDistinct<P>(rows: seq<Entry<P>>, ids: set<nat>)
    requires DistinctIds(rows)
    ensures DistinctIds(Remaining(rows, ids)) && |Remaining(rows, ids)| <= |rows|
  {
    if rows != [] {
      var init, last := rows[..|rows| - 1], rows[|rows| - 1];
      RemainingDistinct(init, ids);
      forall k | 0 <= k < |Remaining(init, ids)| ensures Remaining(init, ids)[k].id != last.id {
        RemainingRows(init, ids, Remaining(init, ids)[k]);
      }
    }
  }

  lemma {:induction false} RemainingTwice<P>(rows: seq<Entry<P>>, a: set<nat>, b: set<nat>)
    ensures Remaining(Remaining(rows, a), b) == Remaining(rows, a + b)
  {
    if rows != [] {
      var init, last := rows[..|rows| - 1], rows[|rows| - 1];
      RemainingTwice(init, a, b);
      var r := Remaining(init, a);
      assert (r + [last])[..|r|] == r;
      assert r + [] == r;
    }
  }

  lemma RemainingSnoc<P>(rows: seq<Entry<P>>, last: Entry<P>, ids: set<nat>)
    ensures Remaining(rows + [last], ids) == if last.id in ids then Remaining(rows, ids)
            else Remaining(rows, ids) + [last]
  {
    assert (rows + [last])[..|rows|] == rows;
    assert Remaining(rows, ids) + [] == Remaining(rows, ids);
  }

  lemma EligibleSnoc<P>(rows: seq<Entry<P>>, last: Entry<P>, rules: Rules<P>)
    ensures Eligible(rows + [last], rules) == if rules.open(last) then Eligible(rows, rules) + [last]
            else Eligible(rows, rules)
  {
    assert (rows + [last])[..|rows|] == rows;
    assert Eligible(rows, rules) + [] == Eligible(rows, rules);
  }

  /** Deleting the oldest eligible row leaves the others eligible, in order. */
  lemma {:induction false} EligibleAfter<P>(rows: seq<Entry<P>>, rules: Rules<P>)
    requires DistinctIds(rows) && Eligible(rows, rules) != []
    ensures Eligible(Remaining(rows, {Eligible(rows, rules)[0].id}), rules) == Eligible(rows, rules)[1..]
  {
    var init, last := rows[..|rows| - 1], rows[|rows| - 1];
    assert rows == init + [last];
    EligibleSnoc(init, last, rules);
    if Eligible(init, rules) == [] {
      RemainingAll(init, {last.id});
      RemainingSnoc(init, last, {last.id});
    } else {
      var first := Eligible(init, rules)[0];
      EligibleRows(init, rules, first);
      assert first.id != last.id;
      EligibleAfter(init, rules);
      EligibleAfterSnoc(init, last, rules, first);
    }
  }

  lemma EligibleAfterSnoc<P>(init: seq<Entry<P>>, last: Entry<P>, rules: Rules<P>, first: Entry<P>)
    requires Eligible(init, rules) != [] && first.id != last.id
    requires Eligible(Remaining(init, {first.id}), rules) == Eligible(init, rules)[1..]
    ensures Eligible(Remaining(init + [last], {first.id}), rules) == Eligible(init + [last], rules)[1..]
  {
    EligibleSnoc(init, last, rules);
    RemainingSnoc(init, last, {first.id});
    EligibleSnoc(Remaining(init, {first.id}), last, rules);
    TailSnoc(Eligible(init, rules), last);
  }

  lemma TailSnoc<T>(s: seq<T>, last: T)
    requires s != []
    ensures (s + [last])[1..] == s[1..] + [last]
  {
  }

  /** ... also after the deletion of the n oldest, and the ids stay distinct. */
  lemma {:induction false} EligibleRest<P>(rows: seq<Entry<P>>, rules: Rules<P>, n: nat)
    requires DistinctIds(rows) && n <= |Eligible(rows, rules)|
    ensures var left := Left(Rotation(rules), rows, Eligible(rows, rules), n);
            DistinctIds(left) && Eligible(left, rules) == Eligible(rows, rules)[n..]
  {
    if n > 0 {
      EligibleRest(rows, rules, n - 1);
      EligibleStep(rows, rules, Eligible(rows, rules), n - 1,
                   Left(Rotation(rules), rows, Eligible(rows, rules), n - 1));
    }
  }

  lemma EligibleStep<P>(rows: seq<Entry<P>>, rules: Rules<P>, queue: seq<Entry<P>>, n: nat, left: seq<Entry<P>>)
    requires n < |queue| && left == Left(Rotation(rules), rows, queue, n) && DistinctIds(left) &&
             Eligible(left, rules) == queue[n..]
    ensures var after := Left(Rotation(rules), rows, queue, n + 1);
            DistinctIds(after) && Eligible(after, rules) == queue[n + 1..]
  {
    EligibleAfter(left, rules);
    RemainingDistinct(left, {queue[n].id});
    assert queue[n..][1..] == queue[n + 1..];
  }

  lemma LibraryIsSteady<P>(rows: seq<Entry<P>>, rules: Rules<P>)
    requires DistinctIds(rows)
    ensures Steady(Rotation(rules), rows)
  {
    forall n: nat | n <= |Eligible(rows, rules)|
      ensures Eligible(Left(Rotation(rules), rows, Eligible(rows, rules), n), rules) == Eligible(rows, rules)[n..]
    {
      EligibleRest(rows, rules, n);
    }
  }

  /** The queue holds rows of the library, each once. */
  predicate Within<P(==)>(queue: seq<Entry<P>>, rows: seq<Entry<P>>) {
    DistinctIds(rows) && DistinctIds(queue) && forall k :: 0 <= k < |queue| ==> queue[k] in rows
  }

  lemma {:induction false} EligibleWithin<P>(rows: seq<Entry<P>>, rules: Rules<P>)
    requires DistinctIds(rows)
    ensures Within(Eligible(rows, rules), rows)
  {
    if rows != [] {
      var init, last := rows[..|rows| - 1], rows[|rows| - 1];
      EligibleWithin(init, rules);
      assert rows == init + [last];
      var e := Eligible(init, rules);
      forall k | 0 <= k < |e| ensures e[k] in rows && e[k].id != last.id {
        assert e[k] in init;
      }
    }
  }

  lemma IdsSnoc<P>(queue: seq<Entry<P>>, n: nat)
    requires n < |queue|
    ensures Ids(queue[..n + 1]) == Ids(queue[..n]) + {queue[n].id}
  {
    var a, b := queue[..n], queue[..n + 1];
    forall id ensures id in Ids(b) <==> id in Ids(a) || id == queue[n].id {
      if id in Ids(a) {
        var k :| 0 <= k < |a| && a[k].id == id;
        assert b[k].id == id;
      }
      if id == queue[n].id {
        assert b[n].id == id;
      }
      if id in Ids(b) {
        var k :| 0 <= k < |b| && b[k].id == id;
        assert k < n ==> a[k].id == id;
      }
    }
  }

  /** All deleted rows are gone, and nothing else. */
  lemma {:induction false} LeftMeans<P>(rules: Rules<P>, rows: seq<Entry<P>>, queue: seq<Entry<P>>, n: nat)
    requires n <= |queue|
    ensures Left(Rotation(rules), rows, queue, n) == Remaining(rows, Ids(queue[..n]))
  {
    if n == 0 {
      assert Ids(queue[..0]) == {};
      RemainingAll(rows, {});
    } else {
      LeftMeans(rules, rows, queue, n - 1);
      LeftStep(rules, rows, queue, n - 1, Left(Rotation(rules), rows, queue, n - 1));
    }
  }

  lemma LeftStep<P>(rules: Rules<P>, rows: seq<Entry<P>>, queue: seq<Entry<P>>, n: nat, left: seq<Entry<P>>)
    requires n < |queue| && left == Left(Rotation(rules), rows, queue, n) && left == Remaining(rows, Ids(queue[..n]))
    ensures Left(Rotation(rules), rows, queue, n + 1) == Remaining(rows, Ids(queue[..n + 1]))
  {
    RemainingOneMore(rows, queue, n);
  }

  lemma RemainingOneMore<P>(rows: seq<Entry<P>>, queue: seq<Entry<P>>, n: nat)
    requires n < |queue|
    ensures Remaining(Remaining(rows, Ids(queue[..n])), {queue[n].id}) == Remaining(rows, Ids(queue[..n + 1]))
  {
    IdsSnoc(queue, n);
    RemainingTwice(rows, Ids(queue[..n]), {queue[n].id});
  }

  // ---- The bytes of the stored files (catalogBytesQuery) ----

  function Max<P(==)>(rows: seq<Entry<P>>, path: P): nat {
    if rows == [] then 0
    else
      var m, last := Max(rows[..|rows| - 1], path), rows[|rows| - 1];
      if last.path == path && last.size > m then last.size else m
  }

  function Others<P(==)>(rows: seq<Entry<P>>, path: P): (r: seq<Entry<P>>)
    ensures |r| <= |rows| && (rows != [] && rows[|rows| - 1].path == path ==> |r| < |rows|)
  {
    if rows == [] then []
    else Others(rows[..|rows| - 1], path) + if rows[|rows| - 1].path == path then [] else [rows[|rows| - 1]]
  }

  function Share<P(==)>(rows: seq<Entry<P>>, path: P, none: P): nat {
    if path == none then 0 else Max(rows, path)
  }

  /** Each file once, with the largest size recorded for it. */
  function Catalog<P(==)>(rows: seq<Entry<P>>, none: P): nat
    decreases |rows|
  {
    if rows == [] then 0
    else var path := rows[|rows| - 1].path; Share(rows, path, none) + Catalog(Others(rows, path), none)
  }

  lemma {:induction false} MaxOfOthers<P>(rows: seq<Entry<P>>, path: P, other: P)
    requires other != path
    ensures Max(Others(rows, other), path) == Max(rows, path)
  {
    if rows != [] {
      var init, last := rows[..|rows| - 1], rows[|rows| - 1];
      MaxOfOthers(init, path, other);
      var b := Others(init, other);
      assert (b + [last])[..|b|] == b;
      assert b + [] == b;
    }
  }

  lemma OthersSnoc<P>(rows: seq<Entry<P>>, last: Entry<P>, path: P)
    ensures Others(rows + [last], path) == if last.path == path then Others(rows, path) else Others(rows, path) + [last]
  {
    assert (rows + [last])[..|rows|] == rows;
    assert Others(rows, path) + [] == Others(rows, path);
  }

  function Neither<P(==)>(rows: seq<Entry<P>>, path: P, other: P): seq<Entry<P>> {
    if rows == [] then []
    else
      var last := rows[|rows| - 1];
      Neither(rows[..|rows| - 1], path, other) + if last.path == path || last.path == other then [] else [last]
  }

  lemma {:induction false} OthersTwice<P>(rows: seq<Entry<P>>, path: P, other: P)
    ensures Others(Others(rows, path), other) == Neither(rows, path, other)
  {
    if rows != [] {
      var init, last := rows[..|rows| - 1], rows[|rows| - 1];
      OthersTwice(init, path, other);
      var once := Others(init, path);
      if last.path == path {
        assert once + [] == once;
        assert Neither(init, path, other) + [] == Neither(init, path, other);
      } else {
        OthersSnoc(once, last, other);
        assert Neither(init, path, other) + [] == Neither(init, path, other);
      }
    }
  }

  lemma {:induction false} NeitherSwaps<P>(rows: seq<Entry<P>>, path: P, other: P)
    ensures Neither(rows, path, other) == Neither(rows, other, path)
  {
    if rows != [] {
      NeitherSwaps(rows[..|rows| - 1], path, other);
    }
  }

  lemma OthersCommute<P>(rows: seq<Entry<P>>, path: P, other: P)
    ensures Others(Others(rows, path), other) == Others(Others(rows, other), path)
  {
    OthersTwice(rows, path, other);
    OthersTwice(rows, other, path);
    NeitherSwaps(rows, path, other);
  }

  /** The file of any path may be counted first. */
  lemma {:induction false} CountFirst<P>(rows: seq<Entry<P>>, path: P, none: P)
    ensures Catalog(rows, none) == Share(rows, path, none) + Catalog(Others(rows, path), none)
    decreases |rows|
  {
    if rows != [] && rows[|rows| - 1].path != path {
      var last := rows[|rows| - 1];
      CountFirst(Others(rows, last.path), path, none);
      MaxOfOthers(rows, path, last.path);
      MaxOfOthers(rows, last.path, path);
      OthersCommute(rows, path, last.path);
      assert Others(rows, path)[|Others(rows, path)| - 1] == last;
    }
  }

  lemma {:induction false} OthersIgnore<P>(rows: seq<Entry<P>>, row: Entry<P>)
    requires DistinctIds(rows) && row in rows
    ensures Others(Remaining(rows, {row.id}), row.path) == Others(rows, row.path)
  {
    var init, last := rows[..|rows| - 1], rows[|rows| - 1];
    if last == row {
      RemainingAll(init, {row.id});
      assert Remaining(rows, {row.id}) == init + [] == init;
      assert Others(init, row.path) + [] == Others(init, row.path);
    } else {
      assert rows == init + [last];
      OthersIgnore(init, row);
      var r := Remaining(init, {row.id});
      assert last.id != row.id by {
        var k :| 0 <= k < |rows| && rows[k] == row;
      }
      assert (r + [last])[..|r|] == r;
    }
  }

  lemma {:induction false} MaxBounds<P>(rows: seq<Entry<P>>, path: P)
    ensures forall k :: 0 <= k < |rows| && rows[k].path == path ==> rows[k].size <= Max(rows, path)
    ensures Uses(rows, path) ==> exists k :: 0 <= k < |rows| && rows[k].path == path && rows[k].size == Max(rows, path)
    ensures !Uses(rows, path) ==> Max(rows, path) == 0
  {
    if rows != [] {
      var init, last := rows[..|rows| - 1], rows[|rows| - 1];
      MaxBounds(init, path);
      UsesMeans(init, path);
      UsesMeans(rows, path);
      assert forall k :: 0 <= k < |init| ==> init[k] == rows[k];
      if Uses(init, path) {
        var k :| 0 <= k < |init| && init[k].path == path && init[k].size == Max(init, path);
        assert rows[k].path == path && Max(rows, path) >= rows[k].size;
      } else if Uses(rows, path) {
        assert last.path == path && rows[|rows| - 1].size == Max(rows, path);
      }
    }
  }

  /** The deletion is counted exactly: the file is gone with this row, or a remaining row records
      the same largest size. */
  predicate Exact<P(==)>(left: seq<Entry<P>>, row: Entry<P>, none: P) {
    row.path == none || !Uses(left, row.path) || Max(left, row.path) >= row.size
  }

  lemma {:induction false} MaxAfter<P>(rows: seq<Entry<P>>, row: Entry<P>)
    requires DistinctIds(rows) && row in rows
    ensures var m := Max(Remaining(rows, {row.id}), row.path);
            Max(rows, row.path) == if row.size > m then row.size else m
  {
    var init, last := rows[..|rows| - 1], rows[|rows| - 1];
    if last == row {
      RemainingAll(init, {row.id});
      assert Remaining(rows, {row.id}) == init + [] == init;
    } else {
      assert rows == init + [last];
      MaxAfter(init, row);
      var r := Remaining(init, {row.id});
      assert last.id != row.id by {
        var k :| 0 <= k < |rows| && rows[k] == row;
      }
      assert (r + [last])[..|r|] == r;
    }
  }

  /** One deletion: the bytes that go are at least those counted, and are those exactly if the
      deletion is exact. */
  lemma DeletionCounts<P>(rows: seq<Entry<P>>, row: Entry<P>, none: P)
    requires DistinctIds(rows) && row in rows
    ensures var left := Remaining(rows, {row.id});
            && Catalog(rows, none) - Catalog(left, none) >= Freed(left, row, none)
            && (Catalog(rows, none) - Catalog(left, none) == Freed(left, row, none) <==> Exact(left, row, none))
  {
    var left := Remaining(rows, {row.id});
    CountFirst(rows, row.path, none);
    CountFirst(left, row.path, none);
    OthersIgnore(rows, row);
    MaxAfter(rows, row);
    MaxBounds(left, row.path);
  }

  // ---- The running total and the bytes of the stored files ----

  lemma OneMore<P>(rules: Rules<P>, rows: seq<Entry<P>>, queue: seq<Entry<P>>, n: nat)
    requires Within(queue, rows) && n < |queue|
    ensures var db := Rotation(rules);
            DropAt(db, rows, queue, Bytes(rules.none), Exactness(rules.none), n)
  {
    LeftMeans(rules, rows, queue, n);
    RemainingDistinct(rows, Ids(queue[..n]));
    RemainingRows(rows, Ids(queue[..n]), queue[n]);
    DeletionCounts(Left(Rotation(rules), rows, queue, n), queue[n], rules.none);
  }

  predicate AllExact<P(==)>(rules: Rules<P>, rows: seq<Entry<P>>, queue: seq<Entry<P>>, n: nat)
    requires n <= |queue|
  {
    forall k :: 0 <= k < n ==> Exact(Left(Rotation(rules), rows, queue, k + 1), queue[k], rules.none)
  }

  /** Over any deletions the running total never falls below the bytes of the stored files, and
      it follows them exactly as long as every deletion is exact. */
  lemma TotalNeverBelow<P>(rules: Rules<P>, rows: seq<Entry<P>>, queue: seq<Entry<P>>, n: nat)
    requires Within(queue, rows) && n <= |queue|
    ensures var drop := Catalog(rows, rules.none) - Catalog(Left(Rotation(rules), rows, queue, n), rules.none);
            var spent := Spent(Costs(Rotation(rules), rows, queue, |queue|), n);
            drop >= spent && (drop == spent <==> AllExact(rules, rows, queue, n))
  {
    forall k: nat | k < n ensures DropAt(Rotation(rules), rows, queue, Bytes(rules.none), Exactness(rules.none), k) {
      OneMore(rules, rows, queue, k);
    }
    TotalFollows(Rotation(rules), rows, queue, Bytes(rules.none), Exactness(rules.none), n);
    ExactlyMeans(Rotation(rules), rows, queue, Exactness(rules.none), n);
    assert AllExact(rules, rows, queue, n) <==> forall k: nat :: k < n ==>
             Exactness(rules.none)(Left(Rotation(rules), rows, queue, k + 1), queue[k]);
  }

  function Bytes<P(==)>(none: P): seq<Entry<P>> -> int {
    rows => Catalog(rows, none)
  }

  function Exactness<P(==)>(none: P): (seq<Entry<P>>, Entry<P>) -> bool {
    (rows: seq<Entry<P>>, row: Entry<P>) => Exact(rows, row, none)
  }

  /** Rows that share a file record the same size. */
  predicate SameSizes<P(==)>(rows: seq<Entry<P>>) {
    forall i, j :: 0 <= i < |rows| && 0 <= j < |rows| && rows[i].path == rows[j].path ==> rows[i].size == rows[j].size
  }

  /** Consistent sizes make every deletion exact. */
  lemma SameSizesAreExact<P>(rules: Rules<P>, rows: seq<Entry<P>>, queue: seq<Entry<P>>, k: nat)
    requires Within(queue, rows) && SameSizes(rows) && k < |queue|
    ensures Exact(Left(Rotation(rules), rows, queue, k + 1), queue[k], rules.none)
  {
    var left := Left(Rotation(rules), rows, queue, k + 1);
    LeftMeans(rules, rows, queue, k + 1);
    forall m | 0 <= m < |left| ensures left[m] in rows {
      RemainingRows(rows, Ids(queue[..k + 1]), left[m]);
    }
    MaxBounds(left, queue[k].path);
  }

  /** A sweep deletes exactly the shortest oldest-first prefix of the unprotected rows that brings
      the total to the cap, cut off only by the limit or the end of these rows; every other row
      stays. */
  lemma SweepDeletes<P>(rows: seq<Entry<P>>, rules: Rules<P>, total: int, cap: int, limit: nat)
    ensures var p, queue := Swept(Rotation(rules), rows, total, cap, limit), Eligible(rows, rules);
            var n := |p.deleted|;
            && n <= limit && n <= |queue| && p.deleted == queue[..n] && p.rows == Remaining(rows, Ids(p.deleted))
            && (p.total <= cap || n == limit || n == |queue|)
            && (forall m :: 0 <= m < n ==> total - Spent(Costs(Rotation(rules), rows, queue, |queue|), m) > cap)
  {
    var queue := Eligible(rows, rules);
    LeftMeans(rules, rows, queue, Count(Costs(Rotation(rules), rows, queue, |queue|), total, cap, limit, 0));
  }

  /** The bytes after a sweep that starts with those of the stored files: the library is not larger
      than the total says, and exactly that large if rows sharing a file record the same size. */
  lemma SweepCountsBytes<P>(rows: seq<Entry<P>>, rules: Rules<P>, cap: int, limit: nat)
    requires DistinctIds(rows)
    ensures var p := Swept(Rotation(rules), rows, Catalog(rows, rules.none), cap, limit);
            Catalog(p.rows, rules.none) <= p.total && (SameSizes(rows) ==> Catalog(p.rows, rules.none) == p.total)
  {
    var queue := Eligible(rows, rules);
    var n := Count(Costs(Rotation(rules), rows, queue, |queue|), Catalog(rows, rules.none), cap, limit, 0);
    EligibleWithin(rows, rules);
    TotalNeverBelow(rules, rows, queue, n);
    if SameSizes(rows) {
      SameSizesAllExact(rules, rows, queue, n);
    }
  }

  lemma SameSizesAllExact<P>(rules: Rules<P>, rows: seq<Entry<P>>, queue: seq<Entry<P>>, n: nat)
    requires Within(queue, rows) && SameSizes(rows) && n <= |queue|
    ensures AllExact(rules, rows, queue, n)
  {
    forall k | 0 <= k < n ensures Exact(Left(Rotation(rules), rows, queue, k + 1), queue[k], rules.none) {
      SameSizesAreExact(rules, rows, queue, k);
    }
  }

  /** A sweep that ends over the cap reached its limit or left no unprotected row. */
  lemma SweepEnds<P>(rows: seq<Entry<P>>, rules: Rules<P>, total: int, cap: int, limit: nat)
    requires DistinctIds(rows)
    ensures var p := Swept(Rotation(rules), rows, total, cap, limit);
            p.total <= cap || |p.deleted| == limit || Eligible(p.rows, rules) == []
  {
    var queue := Eligible(rows, rules);
    EligibleRest(rows, rules, Count(Costs(Rotation(rules), rows, queue, |queue|), total, cap, limit, 0));
  }

  // ---- The media library ----

  /** Pinned and rescued rows and files still being ingested are protected. */
  predicate Unprotected(row: Row, ingesting: set<string>) {
    !row.pinned && !row.rescued && (row.path == "" || Slashed(row.path) !in ingesting)
  }

  /** A path outside the media root loses only its row. */
  function InsidePath(row: Row): set<string> {
    if MediaName(row.path).Some? then {row.path} else {}
  }

  /** The library with these files still being ingested. */
  function Library(ingesting: set<string>): Rules<string> {
    Rules((row: Row) => Unprotected(row, ingesting), "", (row: Row) => InsidePath(row))
  }

  /** A whole sweep of the library. */
  method SweepLibrary(rows: seq<Row>, outbox: set<string>, ingesting: set<string>, cap: nat, batch: nat,
                      maxDeletes: nat)
      returns (left: seq<Row>, queued: set<string>, total: int, deleted: seq<Row>)
    requires DistinctIds(rows) && batch > 0
    ensures Progress(left, total, deleted) ==
              Swept(Rotation(Library(ingesting)), rows, Catalog(rows, ""), cap, maxDeletes)
    ensures Catalog(left, "") <= total &&
            (total <= cap || |deleted| == maxDeletes || Eligible(left, Library(ingesting)) == [])
    ensures queued == outbox + QueuedBy(Rotation(Library(ingesting)), deleted)
  {
    if Catalog(rows, "") <= cap {
      LibrarySweepStops(rows, ingesting, cap, maxDeletes);
      return rows, outbox, Catalog(rows, ""), [];
    }
    LibraryIsSteady(rows, Library(ingesting));
    SweepCountsBytes(rows, Library(ingesting), cap, maxDeletes);
    SweepEnds(rows, Library(ingesting), Catalog(rows, ""), cap, maxDeletes);
    var rotator := new Rotator(Rotation(Library(ingesting)), rows, outbox);
    total, deleted := rotator.Sweep(Catalog(rows, ""), cap, batch, maxDeletes);
    left, queued := rotator.rows, rotator.outbox;
  }

  lemma LibrarySweepStops(rows: seq<Row>, ingesting: set<string>, cap: nat, maxDeletes: nat)
    requires Catalog(rows, "") <= cap
    ensures Swept(Rotation(Library(ingesting)), rows, Catalog(rows, ""), cap, maxDeletes) ==
              Progress(rows, Catalog(rows, ""), [])
  {
    var queue := Eligible(rows, Library(ingesting));
    SweptIs(Rotation(Library(ingesting)), rows, Catalog(rows, ""), cap, maxDeletes, queue,
            Costs(Rotation(Library(ingesting)), rows, queue, |queue|), 0);
  }

  /** A sweep is a rotation event of the file store: it removes the deleted rows and queues the
      paths of exactly these. */
  lemma SweepIsRotation(s: State, ingesting: set<string>, total: int, cap: int, limit: nat, key: Aliases)
    requires DistinctIds(s.rows)
    ensures var p := Swept(Rotation(Library(ingesting)), s.rows, total, cap, limit);
            Step(s, Rotate(Ids(p.deleted)),
                 s.(rows := p.rows, outbox := s.outbox + QueuedBy(Rotation(Library(ingesting)), p.deleted)), key)
  {
    EligibleWithin(s.rows, Library(ingesting));
    var queue := Eligible(s.rows, Library(ingesting));
    var n := Count(Costs(Rotation(Library(ingesting)), s.rows, queue, |queue|), total, cap, limit, 0);
    LeftMeans(Library(ingesting), s.rows, queue, n);
    PathsOfDeleted(s.rows, ingesting, queue[..n]);
  }

  lemma PathsOfDeleted(rows: seq<Row>, ingesting: set<string>, deleted: seq<Row>)
    requires DistinctIds(rows) && forall k :: 0 <= k < |deleted| ==> deleted[k] in rows
    ensures QueuedBy(Rotation(Library(ingesting)), deleted) == PathsOf(rows, Ids(deleted), true)
  {
    forall path
      ensures path in QueuedBy(Rotation(Library(ingesting)), deleted) <==> path in PathsOf(rows, Ids(deleted), true) {
      QueuedMeans(Rotation(Library(ingesting)), deleted, path);
      if path in QueuedBy(Rotation(Library(ingesting)), deleted) {
        var j :| 0 <= j < |deleted| && path in Rotation(Library(ingesting)).queued(deleted[j]);
        QueuedPathOfRow(rows, deleted, j, path);
      }
      if path in PathsOf(rows, Ids(deleted), true) {
        var j := RowOfQueuedPath(rows, deleted, path);
        assert path in Rotation(Library(ingesting)).queued(deleted[j]);
      }
    }
  }

  lemma QueuedPathOfRow(rows: seq<Row>, deleted: seq<Row>, j: nat, path: string)
    requires j < |deleted| && deleted[j] in rows && path in InsidePath(deleted[j])
    ensures path in PathsOf(rows, Ids(deleted), true)
  {
    var n :| 0 <= n < |rows| && rows[n] == deleted[j];
    assert rows[n].id in Ids(deleted);
  }

  lemma RowOfQueuedPath(rows: seq<Row>, deleted: seq<Row>, path: string) returns (j: nat)
    requires DistinctIds(rows) && (forall k :: 0 <= k < |deleted| ==> deleted[k] in rows) &&
             path in PathsOf(rows, Ids(deleted), true)
    ensures j < |deleted| && path in InsidePath(deleted[j])
  {
    var n :| 0 <= n < |rows| && rows[n].id in Ids(deleted) && rows[n].path != "" && MediaName(rows[n].path).Some? &&
    rows[n].path == path;
    j :| 0 <= j < |deleted| && deleted[j].id == rows[n].id;
    var m :| 0 <= m < |rows| && rows[m] == deleted[j];
    assert m == n;
  }
}
