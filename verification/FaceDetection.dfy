/** The detection phase of a face scan (core-service/internal/app/faces_scan.go, `detectPhase`):
    unscanned files go to the sidecar in requests; failed files are isolated, retried and skipped. */
module FaceDetection {

  const MAX_ATTEMPTS := 3
  const MAX_SKIPPED := 100

  datatype Kind = Missing | Excluded | Readable

  /** A request succeeds for all its files or fails as a whole. `fatal` and `timedOut` come with an
      unavailable sidecar only. */
  datatype Answer = Answered | Failed(fatal: bool, timedOut: bool)

  /** A video can also be one that the sidecar cannot open; then it is not retried in this run. */
  datatype VideoAnswer = Replied(answer: Answer) | Unreadable

  /** One request that was answered, and the files it carried. */
  datatype Request = Request(ids: seq<nat>, failed: bool)

  /** How a phase ends: nothing left to do, context cancelled, or stopped with an error. */
  datatype End = Finished | Cancelled | Stopped

  /** Everything a run learns from outside: files on disk, answers, readiness of the sidecar,
      cancellation and failing commits, each per question. */
  datatype World = World(kind: (nat, nat) -> Kind, answer: nat -> Answer, video: nat -> VideoAnswer, ready: nat -> bool,
                         cancelled: nat -> bool, commits: nat -> bool)

  predicate Distinct(s: seq<nat>) {
    forall i, j :: 0 <= i < j < |s| ==> s[i] != s[j]
  }

  function Without(s: seq<nat>, gone: set<nat>): seq<nat> {
    if s == [] then []
    else if s[0] in gone then Without(s[1..], gone)
    else [s[0]] + Without(s[1..], gone)
  }

  lemma {:induction false} WithoutMeans(s: seq<nat>, gone: set<nat>)
    ensures forall id :: id in Without(s, gone) <==> id in s && id !in gone
    ensures Distinct(s) ==> Distinct(Without(s, gone))
    ensures |Without(s, gone)| <= |s|
  {
    if s != [] {
      WithoutMeans(s[1..], gone);
      assert s == [s[0]] + s[1..];
    }
  }

  // ---- The measure that falls ----

  type Weights = nat -> nat

  function Sum(s: seq<nat>, w: Weights): nat {
    if s == [] then 0 else w(s[0]) + Sum(s[1..], w)
  }

  lemma {:induction false} SumBound(s: seq<nat>, w: Weights, n: nat)
    requires forall id :: id in s ==> w(id) <= n
    ensures Sum(s, w) <= n * |s|
  {
    if s != [] {
      SumBound(s[1..], w, n);
    }
  }

  /** Files leave or lose weight, and no file gains any ... */
  lemma {:induction false} SumFalls(s: seq<nat>, gone: set<nat>, w: Weights, v: Weights)
    requires forall id :: id in s && id !in gone ==> v(id) <= w(id)
    ensures Sum(Without(s, gone), v) <= Sum(s, w)
  {
    if s != [] {
      SumFalls(s[1..], gone, w, v);
      assert s[0] in s;
      assert s[0] !in gone ==> Without(s, gone)[1..] == Without(s[1..], gone);
    }
  }

  /** ... so the sum falls if one does. */
  lemma {:induction false} SumShrinks(s: seq<nat>, gone: set<nat>, w: Weights, v: Weights, id: nat)
    requires forall other :: other in s && other !in gone ==> v(other) <= w(other)
    requires id in s && w(id) > 0 && (id in gone || v(id) < w(id))
    ensures Sum(Without(s, gone), v) < Sum(s, w)
  {
    assert s[0] !in gone ==> Without(s, gone)[1..] == Without(s[1..], gone);
    assert s[0] in s;
    if id == s[0] {
      SumFalls(s[1..], gone, w, v);
    } else {
      SumShrinks(s[1..], gone, w, v, id);
    }
  }

  /** Failed attempts per file, and the files given up in this run. */
  datatype Tally = Tally(attempts: map<nat, nat>, skipped: set<nat>)

  /** Attempts a file has left in this run. */
  function Weight(t: Tally, id: nat): nat {
    if id in t.skipped then 0
    else if id in t.attempts then (if t.attempts[id] < MAX_ATTEMPTS then MAX_ATTEMPTS - t.attempts[id] else 0)
    else MAX_ATTEMPTS
  }

  /** A failed request is noted for one of its files; `last`: it timed out and carried only this
      file. */
  function Noted(t: Tally, id: nat, last: bool): Tally {
    var n := (if id in t.attempts then t.attempts[id] else 0) + 1;
    if last || n >= MAX_ATTEMPTS then Tally(t.attempts - {id}, t.skipped + {id})
    else Tally(t.attempts[id := n], t.skipped)
  }

  function AllNoted(t: Tally, ids: seq<nat>, last: bool): Tally {
    if ids == [] then t else Noted(AllNoted(t, ids[..|ids| - 1], last), ids[|ids| - 1], last)
  }

  // ---- What a run may have done to a file ----

  predicate FailedAlone(log: seq<Request>, id: nat) {
    exists k :: 0 <= k < |log| && log[k].failed && log[k].ids == [id]
  }

  predicate FailedIn(log: seq<Request>, id: nat, n: nat)
    requires n <= |log|
  {
    exists k :: 0 <= k < n && log[k].failed && id in log[k].ids
  }

  predicate AnsweredIn(log: seq<Request>, id: nat) {
    exists k :: 0 <= k < |log| && !log[k].failed && id in log[k].ids
  }

  /** A file that had failed before was sent alone. */
  predicate Isolated(log: seq<Request>) {
    forall k, id :: 0 <= k < |log| && id in log[k].ids && |log[k].ids| > 1 ==> !FailedIn(log, id, k)
  }

  lemma LogGrows(log: seq<Request>, r: Request)
    requires Isolated(log) && forall id :: id in r.ids && |r.ids| > 1 ==> !FailedIn(log, id, |log|)
    ensures Isolated(log + [r])
    ensures forall id: nat :: FailedAlone(log + [r], id) <==> FailedAlone(log, id) || (r.failed && r.ids == [id])
    ensures forall id :: FailedIn(log + [r], id, |log| + 1) <==> FailedIn(log, id, |log|) || (r.failed && id in r.ids)
    ensures forall id :: AnsweredIn(log + [r], id) <==> AnsweredIn(log, id) || (!r.failed && id in r.ids)
  {
    var after := log + [r];
    assert after[|log|] == r;
    assert forall k :: 0 <= k < |log| ==> after[k] == log[k];
    forall id ensures FailedIn(after, id, |log| + 1) <==> FailedIn(log, id, |log|) || (r.failed && id in r.ids) {
      if r.failed && id in r.ids {
        assert after[|log|].failed && id in after[|log|].ids;
      }
      if FailedIn(log, id, |log|) {
        var k :| 0 <= k < |log| && log[k].failed && id in log[k].ids;
        assert after[k].failed && id in after[k].ids;
      }
    }
    forall id: nat ensures FailedAlone(after, id) <==> FailedAlone(log, id) || (r.failed && r.ids == [id]) {
      if r.failed && r.ids == [id] {
        assert after[|log|].failed && after[|log|].ids == [id];
      }
      if FailedAlone(log, id) {
        var k :| 0 <= k < |log| && log[k].failed && log[k].ids == [id];
        assert after[k].failed && after[k].ids == [id];
      }
    }
    forall id ensures AnsweredIn(after, id) <==> AnsweredIn(log, id) || (!r.failed && id in r.ids) {
      if !r.failed && id in r.ids {
        assert !after[|log|].failed && id in after[|log|].ids;
      }
      if AnsweredIn(log, id) {
        var k :| 0 <= k < |log| && !log[k].failed && id in log[k].ids;
        assert !after[k].failed && id in after[k].ids;
      }
    }
    forall k, id | 0 <= k < |after| && id in after[k].ids && |after[k].ids| > 1 ensures !FailedIn(after, id, k) {
      FailedBefore(log, r, id, k);
    }
  }

  lemma FailedBefore(log: seq<Request>, r: Request, id: nat, k: nat)
    requires k <= |log|
    ensures FailedIn(log + [r], id, k) <==> FailedIn(log, id, k)
  {
    assert forall m :: 0 <= m < k ==> (log + [r])[m] == log[m];
  }

  /** The books of a run: attempts and skipped files say what the requests said, but for files
      whose failure is `due` to be noted. */
  ghost predicate Books(log: seq<Request>, t: Tally, due: set<nat>) {
    && Isolated(log)
    && (forall id :: id in t.attempts ==>
          0 < t.attempts[id] < MAX_ATTEMPTS && id !in t.skipped && FailedIn(log, id, |log|))
    && (forall id :: id in t.attempts && t.attempts[id] > 1 ==> FailedAlone(log, id))
    && (forall id :: id in t.skipped ==> FailedAlone(log, id))
    && (forall id: nat :: FailedIn(log, id, |log|) ==>
          id in t.attempts || id in t.skipped || AnsweredIn(log, id) || id in due)
  }

  function Members(s: seq<nat>): set<nat> {
    set k | 0 <= k < |s| :: s[k]
  }

  /** The books of this file did not change. */
  predicate Same(t: Tally, u: Tally, id: nat) {
    && (id in u.attempts <==> id in t.attempts) && (id in t.attempts ==> u.attempts[id] == t.attempts[id])
    && (id in u.skipped <==> id in t.skipped)
  }

  lemma NotedTally(t: Tally, id: nat, last: bool)
    requires id !in t.skipped && (id in t.attempts ==> t.attempts[id] < MAX_ATTEMPTS)
    ensures Weight(Noted(t, id, last), id) < Weight(t, id)
    ensures forall other: nat :: other != id ==> Same(t, Noted(t, id, last), other)
  {
  }

  /** The failure of a request over one file, or over a file that had not failed before. */
  lemma NotedBooks(log: seq<Request>, t: Tally, due: set<nat>, id: nat, alone: bool, last: bool)
    requires Books(log, t, due) && FailedIn(log, id, |log|) && id !in t.skipped
    requires (alone ==> FailedAlone(log, id)) && (last ==> alone) && (id in t.attempts ==> alone)
    ensures Books(log, Noted(t, id, last), due - {id})
  {
  }

  lemma {:induction false} AllNotedTally(t: Tally, ids: seq<nat>, last: bool)
    requires Distinct(ids) && forall k :: 0 <= k < |ids| ==>
               ids[k] !in t.skipped && (ids[k] in t.attempts ==> t.attempts[ids[k]] < MAX_ATTEMPTS)
    ensures forall k :: 0 <= k < |ids| ==> Weight(AllNoted(t, ids, last), ids[k]) < Weight(t, ids[k])
    ensures forall id: nat :: id !in ids ==> Same(t, AllNoted(t, ids, last), id)
  {
    if ids != [] {
      var init, id := ids[..|ids| - 1], ids[|ids| - 1];
      AllNotedTally(t, init, last);
      var u := AllNoted(t, init, last);
      assert id !in init && Same(t, u, id);
      NotedTally(u, id, last);
      assert ids == init + [id];
      forall k | 0 <= k < |ids| ensures Weight(AllNoted(t, ids, last), ids[k]) < Weight(t, ids[k]) {
        if k < |init| {
          assert init[k] == ids[k] && ids[k] != id;
          assert Same(u, Noted(u, id, last), ids[k]);
        }
      }
      forall other: nat | other !in ids ensures Same(t, AllNoted(t, ids, last), other) {
        assert other !in init && Same(t, u, other) && Same(u, Noted(u, id, last), other);
      }
    }
  }

  /** A property of tallies that every single note keeps is kept by all notes together. */
  lemma {:induction false} AllNotedKeep(books: (Tally, set<nat>) -> bool, t: Tally, due: set<nat>, ids: seq<nat>,
                                        last: bool)
    requires books(t, due) && Distinct(ids)
    requires forall k :: 0 <= k < |ids| ==>
               ids[k] !in t.skipped && (ids[k] in t.attempts ==> t.attempts[ids[k]] < MAX_ATTEMPTS)
    requires forall u: Tally, d: set<nat>, k :: 0 <= k < |ids| && books(u, d) && Same(t, u, ids[k]) ==>
               books(Noted(u, ids[k], last), d - {ids[k]})
    ensures books(AllNoted(t, ids, last), due - Members(ids))
  {
    if ids == [] {
      assert due - Members(ids) == due;
    } else {
      var init, id := ids[..|ids| - 1], ids[|ids| - 1];
      assert forall k :: 0 <= k < |init| ==> init[k] == ids[k];
      AllNotedKeep(books, t, due, init, last);
      AllNotedTally(t, init, last);
      var u := AllNoted(t, init, last);
      assert id !in init && Same(t, u, ids[|ids| - 1]);
      assert books(Noted(u, ids[|ids| - 1], last), due - Members(init) - {id});
      MembersSnoc(init, id);
      assert ids == init + [id];
      assert due - Members(init) - {id} == due - Members(ids);
    }
  }

  lemma AllNotedBooks(log: seq<Request>, t: Tally, due: set<nat>, ids: seq<nat>, alone: bool, last: bool)
    requires Books(log, t, due) && Distinct(ids) && (last ==> alone)
    requires forall k :: 0 <= k < |ids| ==>
               FailedIn(log, ids[k], |log|) && ids[k] !in t.skipped && (alone ==> FailedAlone(log, ids[k])) &&
               (ids[k] in t.attempts ==> alone)
    ensures Books(log, AllNoted(t, ids, last), due - Members(ids))
  {
    ghost var books := (u: Tally, d: set<nat>) => Books(log, u, d);
    forall u: Tally, d: set<nat>, k | 0 <= k < |ids| && books(u, d) && Same(t, u, ids[k])
      ensures books(Noted(u, ids[k], last), d - {ids[k]}) {
      NotedBooks(log, u, d, ids[k], alone, last);
    }
    AllNotedKeep(books, t, due, ids, last);
  }

  /** A file that may still be sent and has no failed attempt never failed. */
  lemma NotFailedBefore(log: seq<Request>, t: Tally, due: set<nat>, ids: seq<nat>)
    requires Books(log, t, due)
    requires forall k :: 0 <= k < |ids| ==>
               ids[k] !in t.skipped && ids[k] !in due && !AnsweredIn(log, ids[k]) &&
               (|ids| > 1 ==> ids[k] !in t.attempts)
    ensures forall id :: id in ids && |ids| > 1 ==> !FailedIn(log, id, |log|)
  {
  }

  lemma BooksAfterAnswer(log: seq<Request>, t: Tally, due: set<nat>, ids: seq<nat>)
    requires Books(log, t, due) && forall id :: id in ids && |ids| > 1 ==> !FailedIn(log, id, |log|)
    ensures Books(log + [Request(ids, false)], t, due)
  {
    LogGrows(log, Request(ids, false));
  }

  lemma BooksAfterFailure(log: seq<Request>, t: Tally, due: set<nat>, ids: seq<nat>)
    requires Books(log, t, due) && forall id :: id in ids && |ids| > 1 ==> !FailedIn(log, id, |log|)
    ensures var after := log + [Request(ids, true)];
            && Books(after, t, due + Members(ids))
            && (forall k :: 0 <= k < |ids| ==> FailedIn(after, ids[k], |after|))
            && (|ids| == 1 ==> FailedAlone(after, ids[0]))
  {
    LogGrows(log, Request(ids, true));
    assert |ids| == 1 ==> ids == [ids[0]];
    forall k | 0 <= k < |ids| ensures FailedIn(log + [Request(ids, true)], ids[k], |log| + 1) {
      assert ids[k] in ids;
    }
  }

  lemma MembersSnoc(s: seq<nat>, id: nat)
    ensures Members(s + [id]) == Members(s) + {id}
  {
    var a := s + [id];
    forall other ensures other in Members(a) <==> other in Members(s) || other == id {
      if other in Members(s) {
        var k :| 0 <= k < |s| && s[k] == other;
        assert a[k] == other;
      }
      assert a[|s|] == id;
    }
  }

  function Budget(unscanned: seq<nat>, t: Tally): nat {
    Sum(unscanned, id => Weight(t, id))
  }

  // ---- Choosing the next files ----

  lemma {:induction false} WithoutJoin(a: seq<nat>, b: seq<nat>, gone: set<nat>)
    ensures Without(a + b, gone) == Without(a, gone) + Without(b, gone)
  {
    if a == [] {
      assert a + b == b;
    } else {
      assert (a + b)[1..] == a[1..] + b;
      WithoutJoin(a[1..], b, gone);
    }
  }

  lemma {:induction false} FewGone(s: seq<nat>, gone: set<nat>)
    requires Distinct(s)
    ensures |Without(s, gone)| + |gone| >= |s|
  {
    if s != [] {
      if s[0] in gone {
        FewGone(s[1..], gone - {s[0]});
        SameWithout(s[1..], gone, gone - {s[0]});
      } else {
        FewGone(s[1..], gone);
      }
    }
  }

  lemma {:induction false} SameWithout(s: seq<nat>, a: set<nat>, b: set<nat>)
    requires forall id :: id in s ==> (id in a <==> id in b)
    ensures Without(s, a) == Without(s, b)
  {
    if s != [] {
      SameWithout(s[1..], a, b);
    }
  }

  function Take(s: seq<nat>, n: nat): seq<nat> {
    if n < |s| then s[..n] else s
  }

  /** Reading `limit + |skipped|` files is enough to find the first `limit` open ones. */
  lemma EnoughRead(s: seq<nat>, skipped: set<nat>, limit: nat)
    requires Distinct(s)
    ensures Take(Without(Take(s, limit + |skipped|), skipped), limit) == Take(Without(s, skipped), limit)
  {
    var n := limit + |skipped|;
    if n < |s| {
      assert s == s[..n] + s[n..];
      WithoutJoin(s[..n], s[n..], skipped);
      FewGone(s[..n], skipped);
    }
  }

  function OfType(s: seq<nat>, isVideo: nat -> bool, videos: bool): seq<nat> {
    if s == [] then []
    else if isVideo(s[0]) == videos then [s[0]] + OfType(s[1..], isVideo, videos)
    else OfType(s[1..], isVideo, videos)
  }

  lemma {:induction false} OfTypeMeans(s: seq<nat>, isVideo: nat -> bool, videos: bool)
    ensures forall id :: id in OfType(s, isVideo, videos) <==> id in s && isVideo(id) == videos
    ensures Distinct(s) ==> Distinct(OfType(s, isVideo, videos))
  {
    if s != [] {
      OfTypeMeans(s[1..], isVideo, videos);
      assert s == [s[0]] + s[1..];
    }
  }

  lemma TakeMeans(s: seq<nat>, skipped: set<nat>, limit: nat)
    requires Distinct(s)
    ensures var out := Take(Without(s, skipped), limit);
            && Distinct(out) && |out| <= limit
            && (forall id :: id in out ==> id in s && id !in skipped)
            && (limit > 0 && out == [] ==> forall id :: id in s ==> id in skipped)
  {
    WithoutMeans(s, skipped);
    var open := Without(s, skipped);
    forall id | id in Take(open, limit) ensures id in s && id !in skipped {
      assert id in open;
    }
    if limit > 0 && Take(open, limit) == [] {
      assert open == [];
      forall id | id in s ensures id in skipped {
        assert id !in open;
      }
    }
  }

  /** A run so far: files without a stamp (by id), the tally, and a record of the requests, of the
      stamped files and of those stamped without a request. */
  datatype Run = Run(unscanned: seq<nat>, tally: Tally, log: seq<Request>, unsent: set<nat>, stamped: set<nat>)

  /** `results` were answered but not stored yet, failures of `due` were not noted. */
  ghost predicate Sound(r: Run, results: set<nat>, due: set<nat>) {
    Distinct(r.unscanned) && Books(r.log, r.tally, due) && Stamps(r, results)
  }

  ghost predicate Stamps(r: Run, results: set<nat>) {
    && (forall id :: id in r.tally.skipped ==> id in r.unscanned)
    && (forall id :: id in r.tally.attempts ==> id in r.unscanned || id in r.stamped)
    && (forall id :: id in r.stamped ==> id !in r.unscanned && (id in r.unsent || AnsweredIn(r.log, id)))
    && (forall id: nat :: AnsweredIn(r.log, id) ==> id !in r.unscanned || id in results)
    && (forall id :: id in results ==> AnsweredIn(r.log, id) && id !in r.tally.skipped)
  }

  /** No file is lost or stamped out of nowhere: a stamp without a request means that the file had
      no readable source, and stamps and requests stay on record. */
  ghost predicate Follows(before: Run, now: Run, world: World) {
    && (forall id: nat :: (id in now.unscanned || id in now.stamped) <==>
          (id in before.unscanned || id in before.stamped))
    && (forall id :: id in now.unsent && id !in before.unsent ==> NotReadable(world, id))
    && before.stamped <= now.stamped && before.log <= now.log
  }

  ghost predicate NotReadable(world: World, id: nat) {
    exists t: nat :: world.kind(t, id) != Readable
  }

  lemma FollowsOn(a: Run, b: Run, c: Run, world: World)
    requires Follows(a, b, world) && Follows(b, c, world)
    ensures Follows(a, c, world)
  {
  }

  lemma StoredFollows(r: Run, stamp: set<nat>, results: set<nat>, world: World)
    requires forall id :: id in stamp ==> id in r.unscanned && NotReadable(world, id)
    requires forall id :: id in results ==> id in r.unscanned
    ensures Follows(r, Stored(r, stamp, results), world)
  {
    WithoutMeans(r.unscanned, stamp + results);
  }

  /** These files may go into one request. */
  ghost predicate Sendable(r: Run, ids: seq<nat>, results: set<nat>, due: set<nat>) {
    && ids != [] && Distinct(ids)
    && forall k :: 0 <= k < |ids| ==>
         ids[k] in r.unscanned && ids[k] !in r.tally.skipped && ids[k] !in results && ids[k] !in due &&
         (|ids| > 1 ==> ids[k] !in r.tally.attempts)
  }

  lemma AnsweredSound(r: Run, ids: seq<nat>, results: set<nat>, due: set<nat>)
    requires Sound(r, results, due) && Sendable(r, ids, results, due)
    ensures Sound(r.(log := r.log + [Request(ids, false)]), results + Members(ids), due)
  {
    NotFailedBefore(r.log, r.tally, due, ids);
    BooksAfterAnswer(r.log, r.tally, due, ids);
    LogGrows(r.log, Request(ids, false));
    assert forall id: nat :: id in ids <==> id in Members(ids);
  }

  lemma FailedBooks(r: Run, ids: seq<nat>, results: set<nat>, due: set<nat>, timedOut: bool)
    requires Sound(r, results, due) && Sendable(r, ids, results, due)
    ensures var log := r.log + [Request(ids, true)];
            Books(log, r.tally, due + Members(ids)) && Books(log, AllNoted(r.tally, ids, |ids| == 1 && timedOut), due)
  {
    var log := r.log + [Request(ids, true)];
    NotFailedBefore(r.log, r.tally, due, ids);
    BooksAfterFailure(r.log, r.tally, due, ids);
    AllNotedBooks(log, r.tally, due + Members(ids), ids, |ids| == 1, |ids| == 1 && timedOut);
    assert due + Members(ids) - Members(ids) == due;
  }

  lemma FailedStamps(r: Run, ids: seq<nat>, results: set<nat>, t: Tally)
    requires Stamps(r, results) && forall k :: 0 <= k < |ids| ==> ids[k] in r.unscanned && ids[k] !in results
    requires forall id: nat :: id !in ids ==> Same(r.tally, t, id)
    requires forall id :: AnsweredIn(r.log + [Request(ids, true)], id) <==> AnsweredIn(r.log, id)
    ensures Stamps(r.(log := r.log + [Request(ids, true)], tally := t), results)
  {
    forall id | id in t.skipped || id in t.attempts
      ensures (id in t.skipped ==> id in r.unscanned) && (id in r.unscanned || id in r.stamped)
    {
      assert id !in ids ==> Same(r.tally, t, id);
    }
    forall id | id in results ensures id !in t.skipped {
      assert id !in ids && Same(r.tally, t, id);
    }
  }

  lemma FailedTally(r: Run, ids: seq<nat>, results: set<nat>, due: set<nat>, timedOut: bool)
    requires Sound(r, results, due) && Sendable(r, ids, results, due)
    ensures var t := AllNoted(r.tally, ids, |ids| == 1 && timedOut);
            && (forall k :: 0 <= k < |ids| ==> Weight(t, ids[k]) < Weight(r.tally, ids[k]))
            && (forall id: nat :: id !in ids ==> Same(r.tally, t, id))
  {
    AllNotedTally(r.tally, ids, |ids| == 1 && timedOut);
  }

  lemma FailedSound(r: Run, ids: seq<nat>, results: set<nat>, due: set<nat>, timedOut: bool)
    requires Sound(r, results, due) && Sendable(r, ids, results, due)
    ensures Sound(r.(log := r.log + [Request(ids, true)]), results, due + Members(ids))
    ensures Sound(r.(log := r.log + [Request(ids, true)], tally := AllNoted(r.tally, ids, |ids| == 1 && timedOut)),
                  results, due)
  {
    FailedBooks(r, ids, results, due, timedOut);
    NotFailedBefore(r.log, r.tally, due, ids);
    LogGrows(r.log, Request(ids, true));
    FailedTally(r, ids, results, due, timedOut);
    FailedStamps(r, ids, results, r.tally);
    FailedStamps(r, ids, results, AllNoted(r.tally, ids, |ids| == 1 && timedOut));
  }

  // ---- The scan as the program runs it ----

  class Scan {
    /** Files without a stamp, by id. */
    var unscanned: seq<nat>
    var attempts: map<nat, nat>
    var skipped: set<nat>
    /** Record of the run: the requests, the stamped files, and those stamped without a request. */
    ghost var log: seq<Request>
    ghost var unsent: set<nat>
    ghost var stamped: set<nat>
    const isVideo: nat -> bool
    var tick: nat

    ghost function Value(): Run
      reads this
    {
      Run(unscanned, Tally(attempts, skipped), log, unsent, stamped)
    }

    constructor (unscanned: seq<nat>, isVideo: nat -> bool)
      requires Distinct(unscanned)
      ensures Sound(Value(), {}, {}) && this.unscanned == unscanned && this.isVideo == isVideo && attempts == map[] &&
              skipped == {} && log == [] && stamped == {}
    {
      this.isVideo := isVideo;
      this.unscanned, attempts, skipped, log, unsent, stamped, tick := unscanned, map[], {}, [], {}, {}, 0;
    }

    /** `pick`: the first files of one type that are not given up. */
    method Pick(videos: bool, limit: nat) returns (out: seq<nat>)
      requires Distinct(unscanned)
      ensures out == Take(Without(OfType(unscanned, isVideo, videos), skipped), limit)
    {
      var rows := Take(OfType(unscanned, isVideo, videos), limit + |skipped|);
      OfTypeMeans(unscanned, isVideo, videos);
      EnoughRead(OfType(unscanned, isVideo, videos), skipped, limit);
      out := [];
      for k := 0 to |rows|
        invariant out == Take(Without(rows[..k], skipped), limit)
      {
        assert rows[..k + 1] == rows[..k] + [rows[k]];
        WithoutJoin(rows[..k], [rows[k]], skipped);
        assert Without([rows[k]], skipped) == if rows[k] in skipped then [] else [rows[k]];
        if rows[k] !in skipped && |out| < limit {
          out := out + [rows[k]];
        }
      }
      assert rows[..|rows|] == rows;
    }

    /** `noteFailure`: true when the file is given up for this run; `stop` ends the scan. */
    method NoteFailure(id: nat, answer: Answer, alone: bool) returns (gaveUp: bool, stop: bool)
      requires answer.Failed?
      modifies this`attempts, this`skipped
      ensures Value().tally == if answer.fatal then old(Value().tally)
              else Noted(old(Value().tally), id, alone && answer.timedOut)
      ensures stop <==> answer.fatal || (gaveUp && |skipped| >= MAX_SKIPPED)
    {
      if answer.fatal {
        return false, true;
      }
      var n := (if id in attempts then attempts[id] else 0) + 1;
      if alone && answer.timedOut {
        n := MAX_ATTEMPTS;
      }
      if n < MAX_ATTEMPTS {
        attempts := attempts[id := n];
        return false, false;
      }
      attempts := attempts - {id};
      skipped := skipped + {id};
      return true, |skipped| >= MAX_SKIPPED;
    }

    /** The failure of one request is noted for each of its files. */
    method NoteFailures(ids: seq<nat>, answer: Answer) returns (stop: bool)
      requires answer.Failed?
      modifies this`attempts, this`skipped
      ensures Value().tally == if answer.fatal then old(Value().tally)
              else AllNoted(old(Value().tally), ids, |ids| == 1 && answer.timedOut)
      ensures answer.fatal && ids != [] ==> stop
    {
      stop := false;
      for k := 0 to |ids|
        invariant Value().tally == if answer.fatal then old(Value().tally)
                  else AllNoted(old(Value().tally), ids[..k], |ids| == 1 && answer.timedOut)
        invariant answer.fatal && k > 0 ==> stop
      {
        var gaveUp, ended := NoteFailure(ids[k], answer, |ids| == 1);
        assert ids[..k + 1][..k] == ids[..k];
        if ended {
          stop := true;
        }
      }
      assert ids[..|ids|] == ids;
    }

    /** One request and its answer. */
    method Send(ids: seq<nat>, answer: Answer, ghost results: set<nat>, ghost due: set<nat>)
        returns (failed: bool, stop: bool, ghost due': set<nat>)
      requires Sound(Value(), results, due) && Sendable(Value(), ids, results, due)
      modifies this`attempts, this`skipped, this`log
      ensures failed <==> answer.Failed?
      ensures due' == if failed && answer.fatal then due + Members(ids) else due
      ensures failed && answer.fatal ==> stop
      ensures Value() == old(Value()).(log := log, tally := Value().tally) && old(log) <= log
      ensures Sound(Value(), if failed then results else results + Members(ids), due')
      ensures failed && !answer.fatal ==> forall k :: 0 <= k < |ids| ==>
                Weight(Value().tally, ids[k]) < Weight(old(Value().tally), ids[k])
      ensures forall id: nat :: !failed || id !in ids ==> Same(old(Value().tally), Value().tally, id)
    {
      failed, stop := answer.Failed?, false;
      due' := due;
      if !failed {
        AnsweredSound(Value(), ids, results, due);
        log := log + [Request(ids, false)];
        return;
      }
      FailedSound(Value(), ids, results, due, answer.timedOut);
      FailedTally(Value(), ids, results, due, answer.timedOut);
      log := log + [Request(ids, true)];
      stop := NoteFailures(ids, answer);
      if answer.fatal {
        due' := due + Members(ids);
      }
    }

    /** The files of one round in chunks of at most four. */
    static method Cut(work: seq<nat>) returns (chunks: seq<seq<nat>>)
      requires work != []
      ensures Flat(chunks) == work && forall i :: 0 <= i < |chunks| ==> chunks[i] != [] && |chunks[i]| <= |work|
    {
      chunks := [];
      var size := if (|work| + 3) / 4 < 4 then (|work| + 3) / 4 else 4;
      var start := 0;
      while start < |work|
        invariant start <= |work| && Flat(chunks) == work[..start] && size > 0
        invariant forall i :: 0 <= i < |chunks| ==> chunks[i] != [] && |chunks[i]| <= |work|
        decreases |work| - start
      {
        var end := if start + size < |work| then start + size else |work|;
        assert work[..start] + work[start..end] == work[..end];
        FlatSnoc(chunks, work[start..end]);
        chunks := chunks + [work[start..end]];
        start := end;
      }
      assert work[..|work|] == work;
    }

    /** All requests of one round: they are made at the same time, and the answers come in any order. */
    method SendWork(work: seq<nat>, world: World)
        returns (cancelled: bool, fatal: bool, outage: bool, results: set<nat>, ghost due: set<nat>)
      requires Sound(Value(), {}, {}) && Sendable(Value(), work, {}, {})
      modifies this`attempts, this`skipped, this`log, this`tick
      ensures Value() == old(Value()).(log := log, tally := Value().tally) && old(log) <= log
      ensures Sound(Value(), results, due) && results <= Members(work) && (!fatal ==> due == {})
      ensures forall id: nat :: id !in work ==> Same(old(Value().tally), Value().tally, id)
      ensures !fatal && !cancelled ==> forall k :: 0 <= k < |work| ==>
                work[k] in results || Weight(Value().tally, work[k]) < Weight(old(Value().tally), work[k])
    {
      cancelled, fatal, outage, results, due := false, false, false, {}, {};
      var chunks := Cut(work);
      var rest := Below(|chunks|);
      ghost var done: set<nat> := {};
      NothingDone(chunks, rest);
      while rest != {}
        invariant !cancelled && CameBack(chunks, rest, done)
        invariant Value() == old(Value()).(log := log, tally := Value().tally) && old(log) <= log
        invariant Sound(Value(), results, due) && results <= done && due <= done && (!fatal ==> due == {})
        invariant Handled(old(Value().tally), Value().tally, done, results, fatal)
        decreases |rest|
      {
        BackWithin(chunks, rest, done, work);
        var i :| i in rest;
        var answer := world.answer(tick);
        if world.cancelled(tick) {
          cancelled := true;
          return;
        }
        tick := tick + 1;
        ChunkSendable(old(Value()), Value(), work, chunks, rest, i, results, due, done);
        var failed, stop;
        failed, stop, results, due := AnswerChunk(chunks[i], answer, results, due, old(Value().tally), done, fatal);
        outage := outage || failed;
        fatal := fatal || stop;
        OneMoreDone(chunks, rest, done, i);
        done := done + Members(chunks[i]);
        rest := rest - {i};
      }
      BackWithin(chunks, rest, done, work);
    }

    /** One chunk's answer enters the books. */
    method AnswerChunk(chunk: seq<nat>, answer: Answer, before: set<nat>, ghost owed: set<nat>, ghost was: Tally,
                       ghost done: set<nat>, ghost fatal: bool)
        returns (failed: bool, stop: bool, results: set<nat>, ghost due: set<nat>)
      requires Sound(Value(), before, owed) && Sendable(Value(), chunk, before, owed) && (!fatal ==> owed == {})
      requires Handled(was, Value().tally, done, before, fatal) && before <= done && owed <= done && forall id ::
                 id in chunk ==> id !in done
      modifies this`attempts, this`skipped, this`log
      ensures Value() == old(Value()).(log := log, tally := Value().tally) && old(log) <= log
      ensures Sound(Value(), results, due) && results <= done + Members(chunk) && due <= done + Members(chunk) &&
              (!fatal && !stop ==> due == {})
      ensures Handled(was, Value().tally, done + Members(chunk), results, fatal || stop)
    {
      ghost var earlier := Value().tally;
      failed, stop, due := Send(chunk, answer, before, owed);
      results := if failed then before else before + Members(chunk);
      ChunkDone(chunk, done, results, was, earlier, Value().tally, failed, fatal || stop);
    }

    /** `persist` stamps the files without a request and those answered; then the answered ones
        lose their attempts. */
    method Persist(stamp: set<nat>, results: set<nat>, ghost due: set<nat>)
      requires Sound(Value(), results, due) && forall id :: id in stamp ==>
                 id !in skipped && id in unscanned && !AnsweredIn(log, id)
      modifies this`unscanned, this`unsent, this`stamped
      ensures Value() == Stored(old(Value()), stamp, results) && Sound(Value(), {}, due)
    {
      StoredSound(Value(), stamp, results, due);
      unscanned := Without(unscanned, stamp + results);
      unsent := unsent + stamp;
      stamped := stamped + (stamp + results);
    }

    method StoreRound(stamp: set<nat>, results: set<nat>, ghost due: set<nat>, ghost before: Run, ghost world: World)
      requires Sound(Value(), results, due) && results <= Members(before.unscanned) &&
               Value() == before.(log := log, tally := Value().tally) && before.log <= log
      requires forall id :: id in stamp ==>
                 id !in skipped && id in unscanned && !AnsweredIn(log, id) && NotReadable(world, id)
      modifies this`unscanned, this`unsent, this`stamped
      ensures Value() == Stored(old(Value()), stamp, results) && Sound(Value(), {}, due) &&
              Follows(before, Value(), world)
    {
      StoredFollows(Value(), stamp, results, world);
      Persist(stamp, results, due);
    }

    /** Files without a readable source are only stamped; the others may be sent. */
    method Sort(batch: seq<nat>, world: World) returns (stamp: set<nat>, valid: seq<nat>)
      requires Distinct(batch)
      ensures Distinct(valid) && (forall id :: id in batch <==> id in stamp || id in valid)
      ensures forall id :: id in stamp ==> id !in valid && NotReadable(world, id)
    {
      stamp, valid := {}, [];
      for k := 0 to |batch|
        invariant Distinct(valid) && (forall id :: id in batch[..k] <==> id in stamp || id in valid)
        invariant forall id :: id in stamp ==> id !in valid && NotReadable(world, id)
      {
        assert batch[k] !in batch[..k];
        assert batch[..k + 1] == batch[..k] + [batch[k]];
        assert world.kind(tick, batch[k]) != Readable ==> NotReadable(world, batch[k]);
        match world.kind(tick, batch[k])
        case Missing => stamp := stamp + {batch[k]};
        case Excluded => stamp := stamp + {batch[k]};
        case Readable => valid := valid + [batch[k]];
      }
      assert batch[..|batch|] == batch;
    }

    /** A file that already failed goes alone, before new work. */
    method ChooseWork(valid: seq<nat>) returns (work: seq<nat>)
      requires Distinct(valid) && forall id :: id in attempts ==> attempts[id] > 0
      ensures valid == [] <==> work == []
      ensures Distinct(work) && (forall id :: id in work ==> id in valid) &&
              (|work| > 1 ==> forall id :: id in work ==> id !in attempts)
    {
      for k := 0 to |valid|
        invariant forall m :: 0 <= m < k ==> valid[m] !in attempts
      {
        if valid[k] in attempts && attempts[valid[k]] > 0 {
          return [valid[k]];
        }
      }
      work := valid;
    }

    /** What a batch is to be stamped and what is to be sent. */
    method Plan(batch: seq<nat>, world: World) returns (stamp: set<nat>, work: seq<nat>)
      requires Sound(Value(), {}, {}) && batch != [] && Distinct(batch) && forall id :: id in batch ==>
                 id in unscanned && id !in skipped
      ensures work != [] ==> Sendable(Value(), work, {}, {})
      ensures work == [] ==> batch[0] in stamp
      ensures forall id :: id in stamp ==>
                id !in work && id in unscanned && id !in skipped && !AnsweredIn(log, id) && NotReadable(world, id)
    {
      var valid;
      stamp, valid := Sort(batch, world);
      assert batch[0] in batch;
      work := ChooseWork(valid);
      forall k | 0 <= k < |work| ensures work[k] in batch && work[k] in work {}
    }

    /** The answered files are done with; a round took attempts or files away. */
    method CloseRound(answered: set<nat>, ghost stamp: set<nat>, ghost work: seq<nat>, ghost id: nat, ghost before: Run)
      requires Sound(before, {}, {}) && id in before.unscanned && id !in before.tally.skipped &&
               (id in stamp || work != [])
      requires Sound(Value(), {}, {}) && unscanned == Without(before.unscanned, stamp + answered)
      requires forall other: nat :: other !in work ==> Same(before.tally, Value().tally, other)
      requires forall k :: 0 <= k < |work| ==> work[k] in before.unscanned && work[k] !in before.tally.skipped
      requires forall k :: 0 <= k < |work| ==>
                 work[k] in answered || Weight(Value().tally, work[k]) < Weight(before.tally, work[k])
      requires forall other :: other in answered ==> other !in unscanned && AnsweredIn(log, other)
      modifies this`attempts
      ensures Sound(Value(), {}, {}) && Budget(unscanned, Value().tally) < Budget(before.unscanned, before.tally)
    {
      RoundShrinks(before, Value(), id, work, stamp, answered);
      AnsweredForgotten(Value(), answered);
      attempts := attempts - answered;
    }

    /** One round of the photo loop over a non-empty batch: it ends the scan or leaves fewer
        attempts to spend. */
    method Round(batch: seq<nat>, world: World) returns (end: Option<End>, ghost results: set<nat>, ghost due: set<nat>)
      requires Sound(Value(), {}, {}) && batch != [] && Distinct(batch) && forall id :: id in batch ==>
                 id in unscanned && id !in skipped
      modifies this
      ensures Sound(Value(), results, due)
      ensures end != Some(Finished) && Follows(old(Value()), Value(), world)
      ensures end.None? ==>
                results == {} && due == {} && Budget(unscanned, Value().tally) < old(Budget(unscanned, Value().tally))
    {
      ghost var before := Value();
      assert batch[0] in batch;
      var stamp, work := Plan(batch, world);
      var cancelled, fatal, outage, answered := false, false, false, {};
      results, due := {}, {};
      if work != [] {
        cancelled, fatal, outage, answered, due := SendWork(work, world);
      }
      results := answered;
      if cancelled || world.cancelled(tick) {
        return Some(Cancelled), results, due;
      }
      if !world.commits(tick) {
        return Some(Stopped), results, due;
      }
      StampedStayOpen(before, Value(), work, stamp, answered);
      StoreRound(stamp, answered, due, before, world);
      results := {};
      if fatal {
        return Some(Stopped), results, due;
      }
      CloseRound(answered, stamp, work, batch[0], before);
      if outage && !world.ready(tick) && !world.cancelled(tick) {
        end := Some(Stopped);
      } else {
        tick := tick + 1;
        end := None;
      }
    }

    /** The next files of one type; none only if all that are left were given up. */
    method NextBatch(videos: bool, limit: nat) returns (batch: seq<nat>)
      requires Sound(Value(), {}, {}) && limit > 0
      ensures Distinct(batch) && forall id :: id in batch ==> id in unscanned && id !in skipped && isVideo(id) == videos
      ensures batch == [] ==> AllSkipped(Value(), isVideo, videos)
      ensures batch != [] ==> Budget(unscanned, Value().tally) > 0
    {
      OfTypeMeans(unscanned, isVideo, videos);
      TakeMeans(OfType(unscanned, isVideo, videos), skipped, limit);
      batch := Pick(videos, limit);
      if batch != [] {
        assert batch[0] in batch;
        OpenHasBudget(Value(), batch[0]);
      }
    }

    /** The photo loop of `detectPhase`: the number of rounds is bounded by the attempts of all
        unscanned files, and a loop that ends by itself leaves only files given up. */
    method DetectPhotos(batchSize: nat, world: World)
        returns (end: End, ghost rounds: nat, ghost results: set<nat>, ghost due: set<nat>)
      requires Sound(Value(), {}, {}) && batchSize > 0
      modifies this
      ensures Sound(Value(), results, due) && rounds <= MAX_ATTEMPTS * |old(unscanned)|
      ensures end == Finished ==> results == {} && due == {} && AllSkipped(Value(), isVideo, false)
      ensures Follows(old(Value()), Value(), world)
    {
      ghost var first := Value();
      rounds, results, due := 0, {}, {};
      BudgetBound(Value());
      ghost var most := MAX_ATTEMPTS * |unscanned|;
      while true
        invariant Sound(Value(), {}, {}) && rounds + Budget(unscanned, Value().tally) <= most
        invariant Follows(first, Value(), world)
        decreases Budget(unscanned, Value().tally)
      {
        if world.cancelled(tick) {
          return Cancelled, rounds, {}, {};
        }
        var batch := NextBatch(false, batchSize);
        if batch == [] {
          return Finished, rounds, {}, {};
        }
        rounds := rounds + 1;
        var ended;
        ghost var here := Value();
        ended, results, due := Round(batch, world);
        FollowsOn(first, here, Value(), world);
        if ended.Some? {
          return ended.value, rounds, results, due;
        }
      }
    }

    /** The video loop of `detectPhase`: one file at a time. */
    method DetectVideos(world: World)
        returns (end: End, ghost rounds: nat, ghost results: set<nat>, ghost due: set<nat>)
      requires Sound(Value(), {}, {})
      modifies this
      ensures Sound(Value(), results, due) && rounds <= MAX_ATTEMPTS * |old(unscanned)|
      ensures end == Finished ==> results == {} && due == {} && AllSkipped(Value(), isVideo, true)
      ensures Follows(old(Value()), Value(), world)
    {
      ghost var first := Value();
      rounds, results, due := 0, {}, {};
      BudgetBound(Value());
      ghost var most := MAX_ATTEMPTS * |unscanned|;
      while true
        invariant Sound(Value(), {}, {}) && rounds + Budget(unscanned, Value().tally) <= most
        invariant Follows(first, Value(), world)
        decreases Budget(unscanned, Value().tally)
      {
        if world.cancelled(tick) {
          return Cancelled, rounds, {}, {};
        }
        var rows := NextBatch(true, 1);
        if rows == [] {
          return Finished, rounds, {}, {};
        }
        rounds := rounds + 1;
        var ended;
        ghost var here := Value();
        ended, results, due := VideoRound(rows[0], world);
        FollowsOn(first, here, Value(), world);
        if ended.Some? {
          return ended.value, rounds, results, due;
        }
      }
    }

    /** A file without a source is only stamped. */
    method StampMissing(id: nat, ghost world: World)
      requires NotReadable(world, id)
      requires Sound(Value(), {}, {}) && id in unscanned && id !in skipped
      modifies this`unscanned, this`unsent, this`stamped
      ensures Sound(Value(), {}, {}) && Budget(unscanned, Value().tally) < old(Budget(unscanned, Value().tally))
      ensures Follows(old(Value()), Value(), world)
    {
      ghost var before := Value();
      StoredFollows(before, {id}, {}, world);
      Persist({id}, {}, {});
      RoundShrinks(before, Value(), id, [], {id}, {});
    }

    method StoreAnswered(id: nat, ghost before: Run, ghost world: World)
      requires Sound(before, {}, {}) && id in before.unscanned && id !in before.tally.skipped &&
               unscanned == before.unscanned
      requires Sound(Value(), {id}, {}) && forall other: nat :: other != id ==> Same(before.tally, Value().tally, other)
      modifies this`unscanned, this`unsent, this`stamped, this`attempts
      ensures Sound(Value(), {}, {}) && Budget(unscanned, Value().tally) < Budget(before.unscanned, before.tally)
      ensures Follows(old(Value()), Value(), world)
    {
      StoredFollows(Value(), {}, {id}, world);
      Persist({}, {id}, {});
      RoundShrinks(before, Value(), id, [id], {}, {id});
      AnsweredForgotten(Value(), {id});
      attempts := attempts - {id};
    }

    method VideoRound(id: nat, world: World) returns (end: Option<End>, ghost results: set<nat>, ghost due: set<nat>)
      requires Sound(Value(), {}, {}) && id in unscanned && id !in skipped
      modifies this
      ensures Sound(Value(), results, due)
      ensures end != Some(Finished) && Follows(old(Value()), Value(), world)
      ensures end.None? ==>
                results == {} && due == {} && Budget(unscanned, Value().tally) < old(Budget(unscanned, Value().tally))
    {
      ghost var before := Value();
      results, due := {}, {};
      if world.kind(tick, id) == Missing {
        if !world.commits(tick) {
          return Some(Stopped), {}, {};
        }
        StampMissing(id, world);
        tick := tick + 1;
        return None, {}, {};
      }
      var reply := world.video(tick);
      if world.cancelled(tick) {
        return Some(Cancelled), {}, {};
      }
      var failed, stop;
      MembersOne(id);
      failed, stop, due := Send([id], if reply.Unreadable? then Failed(false, true) else reply.answer, {}, {});
      if failed {
        if stop && reply.Replied? {
          return Some(Stopped), {}, due;
        }
        WithoutNone(unscanned);
        RoundShrinks(before, Value(), id, [id], {}, {});
        if reply.Replied? && !world.ready(tick) && !world.cancelled(tick) {
          return Some(Stopped), {}, due;
        }
        tick := tick + 1;
        return None, {}, {};
      }
      if !world.commits(tick) {
        return Some(Stopped), {id}, due;
      }
      assert {} + Members([id]) == {id};
      StoreAnswered(id, before, world);
      tick := tick + 1;
      return None, {}, {};
    }
  }

  /** Every unscanned file of this type was given up in this run. */
  predicate AllSkipped(r: Run, isVideo: nat -> bool, videos: bool) {
    forall id :: id in r.unscanned && isVideo(id) == videos ==> id in r.tally.skipped
  }

  lemma MembersOne(id: nat)
    ensures Members([id]) == {id}
  {
    assert [id][0] in Members([id]);
  }

  lemma {:induction false} WithoutNone(s: seq<nat>)
    ensures Without(s, {} + {}) == s
  {
    if s != [] {
      WithoutNone(s[1..]);
    }
  }

  lemma BudgetBound(r: Run)
    ensures Budget(r.unscanned, r.tally) <= MAX_ATTEMPTS * |r.unscanned|
  {
    SumBound(r.unscanned, id => Weight(r.tally, id), MAX_ATTEMPTS);
  }

  lemma OpenHasBudget(r: Run, id: nat)
    requires Sound(r, {}, {}) && id in r.unscanned && id !in r.tally.skipped
    ensures Budget(r.unscanned, r.tally) > 0
  {
    var weight: Weights := other => Weight(r.tally, other);
    SumShrinks(r.unscanned, {id}, weight, weight, id);
  }

  /** A round takes attempts or files away: one file at least is stamped, answered or noted. */
  lemma RoundShrinks(before: Run, now: Run, id: nat, work: seq<nat>, stamp: set<nat>, answered: set<nat>)
    requires Sound(before, {}, {}) && id in before.unscanned && id !in before.tally.skipped &&
             (id in stamp || work != [])
    requires now.unscanned == Without(before.unscanned, stamp + answered)
    requires forall other: nat :: other !in work ==> Same(before.tally, now.tally, other)
    requires forall k :: 0 <= k < |work| ==> work[k] in before.unscanned && work[k] !in before.tally.skipped
    requires forall k :: 0 <= k < |work| ==>
               work[k] in answered || Weight(now.tally, work[k]) < Weight(before.tally, work[k])
    ensures Budget(now.unscanned, now.tally) < Budget(before.unscanned, before.tally)
  {
    var w: Weights := other => Weight(before.tally, other);
    var v: Weights := other => Weight(now.tally, other);
    forall other | other in before.unscanned && other !in stamp + answered ensures v(other) <= w(other) {
      if other in work {
        var k :| 0 <= k < |work| && work[k] == other;
      } else {
        assert Same(before.tally, now.tally, other);
      }
    }
    SumShrinks(before.unscanned, stamp + answered, w, v, if id in stamp then id else work[0]);
  }

  /** Answered files may lose their attempts. */
  lemma AnsweredForgotten(r: Run, answered: set<nat>)
    requires Sound(r, {}, {}) && forall id :: id in answered ==> id !in r.unscanned && AnsweredIn(r.log, id)
    ensures var t := Tally(r.tally.attempts - answered, r.tally.skipped);
            Sound(r.(tally := t), {}, {}) && Budget(r.unscanned, t) <= Budget(r.unscanned, r.tally)
  {
    var t := Tally(r.tally.attempts - answered, r.tally.skipped);
    var w: Weights := id => Weight(r.tally, id);
    var v: Weights := id => Weight(t, id);
    WithoutNone(r.unscanned);
    SumFalls(r.unscanned, {} + {}, w, v);
  }

  datatype Option<T> = None | Some(value: T)

  function Stored(r: Run, stamp: set<nat>, results: set<nat>): Run {
    r.(unscanned := Without(r.unscanned, stamp + results), unsent := r.unsent + stamp,
       stamped := r.stamped + (stamp + results))
  }

  /** Requests leave the files to be stamped alone. */
  lemma StampedStayOpen(before: Run, now: Run, work: seq<nat>, stamp: set<nat>, answered: set<nat>)
    requires Sound(before, {}, {}) && (exists due :: Sound(now, answered, due)) && now.unscanned == before.unscanned
    requires answered <= Members(work) && (forall k :: 0 <= k < |work| ==> work[k] in before.unscanned)
    requires forall id: nat :: id !in work ==> Same(before.tally, now.tally, id)
    requires forall id :: id in stamp ==> id !in work && id in before.unscanned && id !in before.tally.skipped
    ensures forall id :: id in stamp ==> id !in now.tally.skipped && id in now.unscanned && !AnsweredIn(now.log, id)
    ensures answered <= Members(before.unscanned) && forall id :: id in answered ==> AnsweredIn(now.log, id)
    ensures forall id :: id in answered ==> id !in Without(before.unscanned, stamp + answered)
  {
    WithoutMeans(before.unscanned, stamp + answered);
    forall id | id in stamp ensures id !in now.tally.skipped && !AnsweredIn(now.log, id) {
      assert Same(before.tally, now.tally, id);
    }
  }

  lemma StoredSound(r: Run, stamp: set<nat>, results: set<nat>, due: set<nat>)
    requires Sound(r, results, due) && forall id :: id in stamp ==>
               id !in r.tally.skipped && id in r.unscanned && !AnsweredIn(r.log, id)
    ensures Sound(Stored(r, stamp, results), {}, due)
  {
    WithoutMeans(r.unscanned, stamp + results);
  }

  // ---- Chunks answered in any order ----

  function Flat(chunks: seq<seq<nat>>): seq<nat> {
    if chunks == [] then [] else Flat(chunks[..|chunks| - 1]) + chunks[|chunks| - 1]
  }

  lemma FlatSnoc(chunks: seq<seq<nat>>, chunk: seq<nat>)
    ensures Flat(chunks + [chunk]) == Flat(chunks) + chunk
  {
    assert (chunks + [chunk])[..|chunks|] == chunks;
  }

  lemma {:induction false} FlatMeans(chunks: seq<seq<nat>>, id: nat)
    ensures id in Flat(chunks) <==> exists i :: 0 <= i < |chunks| && id in chunks[i]
  {
    if chunks != [] {
      var init := chunks[..|chunks| - 1];
      FlatMeans(init, id);
      if id in Flat(init) {
        var i :| 0 <= i < |init| && id in init[i];
        assert id in chunks[i];
      }
      if i :| 0 <= i < |chunks| && id in chunks[i] {
        assert i < |init| ==> id in init[i];
      }
    }
  }

  lemma {:induction false} FlatApart(chunks: seq<seq<nat>>, i: nat, j: nat, id: nat)
    requires Distinct(Flat(chunks)) && i < j < |chunks| && id in chunks[i]
    ensures id !in chunks[j]
  {
    var init, last := chunks[..|chunks| - 1], chunks[|chunks| - 1];
    assert Distinct(Flat(init)) by {
      assert forall m :: 0 <= m < |Flat(init)| ==> Flat(init)[m] == Flat(chunks)[m];
    }
    if j < |init| {
      FlatApart(init, i, j, id);
    } else {
      FlatMeans(init, id);
      assert id in init[i];
      var m :| 0 <= m < |Flat(init)| && Flat(init)[m] == id;
      forall n | 0 <= n < |last| ensures last[n] != id {
        assert Flat(chunks)[m] != Flat(chunks)[|Flat(init)| + n];
      }
    }
  }

  lemma {:induction false} FlatPart(chunks: seq<seq<nat>>, i: nat)
    requires Distinct(Flat(chunks)) && i < |chunks|
    ensures Distinct(chunks[i])
  {
    var init, last := chunks[..|chunks| - 1], chunks[|chunks| - 1];
    assert forall m :: 0 <= m < |Flat(init)| ==> Flat(init)[m] == Flat(chunks)[m];
    assert forall n :: 0 <= n < |last| ==> last[n] == Flat(chunks)[|Flat(init)| + n];
    if i < |init| {
      FlatPart(init, i);
    }
  }

  function Below(n: nat): (r: set<nat>)
    ensures forall i: nat :: i in r <==> i < n
  {
    if n == 0 then {} else Below(n - 1) + {n - 1}
  }

  /** The files of the chunks that were answered: all but `rest`. */
  ghost predicate CameBack(chunks: seq<seq<nat>>, rest: set<nat>, done: set<nat>) {
    && (forall i :: i in rest ==> i < |chunks|)
    && forall id: nat :: id in done <==> exists i: nat :: i < |chunks| && i !in rest && id in chunks[i]
  }

  lemma NothingDone(chunks: seq<seq<nat>>, rest: set<nat>)
    requires rest == Below(|chunks|)
    ensures CameBack(chunks, rest, {})
  {
  }

  lemma OneMoreDone(chunks: seq<seq<nat>>, rest: set<nat>, done: set<nat>, i: nat)
    requires CameBack(chunks, rest, done) && i in rest
    ensures CameBack(chunks, rest - {i}, done + Members(chunks[i]))
  {
    forall id: nat
      ensures id in done + Members(chunks[i]) <==>
                exists k: nat :: k < |chunks| && k !in rest - {i} && id in chunks[k] {
      if id in chunks[i] {
        assert i !in rest - {i};
      }
      if id in done {
        var k: nat :| k < |chunks| && k !in rest && id in chunks[k];
        assert k !in rest - {i};
      }
    }
  }

  lemma BackWithin(chunks: seq<seq<nat>>, rest: set<nat>, done: set<nat>, work: seq<nat>)
    requires CameBack(chunks, rest, done) && Flat(chunks) == work
    ensures done <= Members(work) && (rest == {} ==> done == Members(work))
  {
    forall id: nat ensures (id in done ==> id in work) && (rest == {} && id in work ==> id in done) {
      FlatMeans(chunks, id);
      if rest == {} && id in work {
        var i :| 0 <= i < |chunks| && id in chunks[i];
        assert i !in rest;
      }
    }
  }

  lemma ChunkSendable(r: Run, now: Run, work: seq<nat>, chunks: seq<seq<nat>>, rest: set<nat>, i: nat,
                      results: set<nat>, due: set<nat>, done: set<nat>)
    requires Sendable(r, work, {}, {}) && now == r.(log := now.log, tally := now.tally) && Flat(chunks) == work
    requires CameBack(chunks, rest, done) && i in rest && chunks[i] != [] && |chunks[i]| <= |work|
    requires results <= done && due <= done && forall id: nat :: id !in done ==> Same(r.tally, now.tally, id)
    ensures Sendable(now, chunks[i], results, due) && forall id :: id in chunks[i] ==> id !in done
  {
    FlatPart(chunks, i);
    forall id | id in chunks[i] ensures id in work && id !in done {
      FlatMeans(chunks, id);
      if id in done {
        var k: nat :| k < |chunks| && k !in rest && id in chunks[k];
        FlatApart(chunks, if i < k then i else k, if i < k then k else i, id);
      }
    }
    forall n | 0 <= n < |chunks[i]|
      ensures chunks[i][n] in work && chunks[i][n] !in done && Same(r.tally, now.tally, chunks[i][n]) {
      assert chunks[i][n] in chunks[i];
    }
  }

  /** The books of the files that are done: answered or noted; the others did not change. */
  ghost predicate Handled(was: Tally, now: Tally, done: set<nat>, results: set<nat>, fatal: bool) {
    && (forall id: nat :: id !in done ==> Same(was, now, id))
    && (!fatal ==> forall id: nat :: id in done ==> id in results || Weight(now, id) < Weight(was, id))
  }

  lemma ChunkDone(chunk: seq<nat>, done: set<nat>, results: set<nat>, was: Tally, before: Tally, now: Tally,
                  failed: bool, fatal: bool)
    requires (forall id: nat :: id !in done ==> Same(was, before, id)) && forall id :: id in chunk ==> id !in done
    requires !fatal ==> forall id: nat :: id in done ==> id in results || Weight(before, id) < Weight(was, id)
    requires forall id: nat :: !failed || id !in chunk ==> Same(before, now, id)
    requires !failed ==> Members(chunk) <= results
    requires failed && !fatal ==> forall k :: 0 <= k < |chunk| ==> Weight(now, chunk[k]) < Weight(before, chunk[k])
    ensures Handled(was, now, done + Members(chunk), results, fatal)
  {
    forall id: nat | id !in done + Members(chunk) ensures Same(was, now, id) {
      assert id !in chunk;
      assert Same(was, before, id) && Same(before, now, id);
    }
    if !fatal {
      forall id: nat | id in done + Members(chunk) ensures id in results || Weight(now, id) < Weight(was, id) {
        if id in done {
          assert id !in chunk && Same(before, now, id);
        } else {
          var k :| 0 <= k < |chunk| && chunk[k] == id;
          assert Same(was, before, id);
        }
      }
    }
  }
}
