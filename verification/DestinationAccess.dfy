/** Paused destinations (core-service/internal/app/forward.go, `updateDestinationAccess`): one row
    per destination gathers what each account was last told about it. */
module DestinationAccess {

  datatype Verdict = Reachable | Left | Private | Restricted | Banned | Deleted | Migrated

  function Priority(v: Verdict): nat {
    match v
    case Reachable => 0
    case Left => 2
    case Private => 3
    case Restricted => 4
    case Banned => 5
    case Deleted => 6
    case Migrated => 7
  }

  datatype Option<T> = None | Some(value: T)

  /** Thousandths added to nine tenths of a delay. */
  type Jitter = n: nat | n <= 200

  /** An account was told `result` at `now` (milliseconds). */
  datatype Event = Event(account: string, result: Verdict, recheck: bool, now: int, jitter: Jitter)

  datatype Row = Row(state: Verdict, checks: nat, next: Option<int>, first: Option<int>, accounts: map<string, Verdict>)

  const HOUR := 3600000

  function Base(checks: nat): nat {
    if checks == 0 then HOUR else if checks == 1 then 6 * HOUR else 24 * HOUR
  }

  function Delay(checks: nat, jitter: Jitter): nat {
    Base(checks) * (900 + jitter) / 1000
  }

  function Name(account: string): string {
    if account == "" then "_" else account
  }

  predicate Failing(accounts: map<string, Verdict>) {
    exists a :: a in accounts && accounts[a] != Reachable
  }

  predicate Postable(accounts: map<string, Verdict>) {
    exists a :: a in accounts && accounts[a] == Reachable
  }

  /** Some account's verdict, and none is worse. */
  predicate IsWorst(accounts: map<string, Verdict>, v: Verdict) {
    v in accounts.Values && forall a :: a in accounts ==> Priority(accounts[a]) <= Priority(v)
  }

  function Worst(accounts: map<string, Verdict>): (v: Verdict)
    ensures accounts != map[] ==> IsWorst(accounts, v)
  {
    if Migrated in accounts.Values then Migrated
    else if Deleted in accounts.Values then Deleted
    else if Banned in accounts.Values then Banned
    else if Restricted in accounts.Values then Restricted
    else if Private in accounts.Values then Private
    else if Left in accounts.Values then Left
    else OnlyReachable(accounts); Reachable
  }

  lemma OnlyReachable(accounts: map<string, Verdict>)
    requires Migrated !in accounts.Values && Deleted !in accounts.Values && Banned !in accounts.Values
    requires Restricted !in accounts.Values && Private !in accounts.Values && Left !in accounts.Values
    ensures forall a :: a in accounts ==> accounts[a] == Reachable
    ensures accounts != map[] ==> Reachable in accounts.Values
  {
    forall a | a in accounts ensures accounts[a] == Reachable {
      assert accounts[a] in accounts.Values;
    }
    if accounts != map[] {
      var a :| a in accounts;
      assert accounts[a] in accounts.Values;
    }
  }

  predicate RowBlocks(row: Option<Row>) {
    row.Some? && row.value.state != Reachable
  }

  function Notes(row: Option<Row>, e: Event): map<string, Verdict> {
    (if row.Some? then row.value.accounts else map[])[Name(e.account) := e.result]
  }

  function BlockedRow(row: Option<Row>, e: Event, accounts: map<string, Verdict>, worst: Verdict): Row {
    if RowBlocks(row) then
      var r := row.value;
      var checks := if e.recheck then r.checks + 1 else r.checks;
      Row(worst, checks, if !e.recheck && r.next.Some? then r.next else Some(e.now + Delay(checks, e.jitter)),
          if r.first.Some? then r.first else Some(e.now), accounts)
    else Row(worst, 0, Some(e.now + Delay(0, e.jitter)), Some(e.now), accounts)
  }

  /** The row after one event. */
  function Updated(row: Option<Row>, e: Event): Option<Row> {
    if row.None? && e.result == Reachable then None
    else
      var accounts := Notes(row, e);
      if !Failing(accounts) then None
      else if Postable(accounts) then Some(Row(Reachable, 0, None, None, accounts))
      else Some(BlockedRow(row, e, accounts, Worst(accounts)))
  }

  // ---- The table as the program keeps it ----

  class AccessTable {
    var rows: map<string, Row>

    constructor ()
      ensures rows == map[]
    {
      rows := map[];
    }

    function At(key: string): Option<Row>
      reads this
    {
      if key in rows then Some(rows[key]) else None
    }

    /** `accessBlocked`: whether the destination's `events` so far pause it, and its re-check is due. */
    method AccessBlocked(key: string, now: int, ghost events: seq<Event>) returns (blocked: bool, due: bool)
      requires At(key) == RowAfter(events)
      ensures blocked <==> Blocked(events)
      ensures due <==> Blocked(events) && RecheckTime(events) <= now
    {
      RowVerdict(events);
      if Blocked(events) {
        BlockSchedule(events);
      }
      if key !in rows {
        return false, false;
      }
      blocked := Priority(rows[key].state) > 0;
      due := blocked && rows[key].next.Some? && rows[key].next.value <= now;
    }

    /** `updateDestinationAccess`. */
    method Update(key: string, e: Event)
      modifies this
      ensures At(key) == Updated(old(At(key)), e)
      ensures forall other :: other != key ==> At(other) == old(At(other))
    {
      if key !in rows && e.result == Reachable {
        return;
      }
      ghost var before := At(key);
      var accounts := if key in rows then rows[key].accounts else map[];
      accounts := accounts[Name(e.account) := e.result];
      var anyOk, failing, verdict := Weigh(accounts);
      if anyOk && !failing {
        rows := rows - {key};
        return;
      }
      if anyOk {
        rows := rows[key := Row(Reachable, 0, None, None, accounts)];
        return;
      }
      assert Name(e.account) in accounts;
      var wasBlocked := key in rows && Priority(rows[key].state) > 0;
      var checks: nat := 0;
      var next := e.now + Delay(0, e.jitter);
      var first := e.now;
      if wasBlocked {
        checks := rows[key].checks;
        if e.recheck {
          checks := checks + 1;
          next := e.now + Delay(checks, e.jitter);
        } else if rows[key].next.Some? {
          next := rows[key].next.value;
        } else {
          next := e.now + Delay(checks, e.jitter);
        }
        if rows[key].first.Some? {
          first := rows[key].first.value;
        }
      }
      rows := rows[key := Row(verdict, checks, Some(next), Some(first), accounts)];
    }

    /** The verdict over all accounts, whatever order they are read in. */
    static method Weigh(accounts: map<string, Verdict>) returns (anyOk: bool, failing: bool, verdict: Verdict)
      ensures anyOk <==> Postable(accounts)
      ensures failing <==> Failing(accounts)
      ensures failing ==> verdict == Worst(accounts)
    {
      anyOk, failing, verdict := false, false, Reachable;
      var rest := accounts.Keys;
      while rest != {}
        invariant rest <= accounts.Keys
        invariant anyOk <==> exists a :: a in accounts && a !in rest && accounts[a] == Reachable
        invariant failing <==> exists a :: a in accounts && a !in rest && accounts[a] != Reachable
        invariant forall a :: a in accounts && a !in rest ==> Priority(accounts[a]) <= Priority(verdict)
        invariant failing ==> verdict in accounts.Values
        invariant !failing ==> verdict == Reachable
        decreases |rest|
      {
        var id :| id in rest;
        rest := rest - {id};
        if accounts[id] == Reachable {
          anyOk := true;
        } else {
          failing := true;
          if Priority(accounts[id]) > Priority(verdict) {
            verdict := accounts[id];
          }
        }
      }
      if failing {
        assert IsWorst(accounts, verdict) && IsWorst(accounts, Worst(accounts));
        WorstIsUnique(accounts, verdict, Worst(accounts));
      }
    }
  }

  lemma WorstIsUnique(accounts: map<string, Verdict>, v: Verdict, w: Verdict)
    requires IsWorst(accounts, v) && IsWorst(accounts, w)
    ensures v == w
  {
    var a :| a in accounts && accounts[a] == v;
    var b :| b in accounts && accounts[b] == w;
    assert Priority(v) == Priority(w);
  }

  // ---- Reference: what the history of a destination says ----

  /** The last result of every account heard from position `from` on. */
  function Latest(events: seq<Event>, from: nat): map<string, Verdict> {
    if |events| <= from then map[]
    else var e := events[|events| - 1]; Latest(events[..|events| - 1], from)[Name(e.account) := e.result]
  }

  /** The current episode starts after the last moment at which no account was failing. */
  function Episode(events: seq<Event>): (n: nat)
    ensures n <= |events|
  {
    if events == [] || !Failing(Latest(events, 0)) then |events| else Episode(events[..|events| - 1])
  }

  /** Some account fails, and none was told in this episode that it can post. */
  predicate Blocked(events: seq<Event>) {
    Failing(Latest(events, 0)) && !Postable(Latest(events, Episode(events)))
  }

  /** The event that opened the current block. */
  function BlockStart(events: seq<Event>): (n: nat)
    requires Blocked(events)
    ensures n < |events|
  {
    if Blocked(events[..|events| - 1]) then BlockStart(events[..|events| - 1]) else |events| - 1
  }

  /** Re-checks after the event at `start`. */
  function Rechecks(events: seq<Event>, start: nat): nat {
    if |events| <= start + 1 then 0
    else Rechecks(events[..|events| - 1], start) + if events[|events| - 1].recheck then 1 else 0
  }

  /** The last event from `start` on that was a re-check, or `start`. */
  function LastMove(events: seq<Event>, start: nat): (n: nat)
    requires start < |events|
    ensures start <= n < |events| && (n == start || events[n].recheck)
    ensures forall m :: n < m < |events| ==> !events[m].recheck
  {
    if |events| == start + 1 || events[|events| - 1].recheck then |events| - 1
    else LastMove(events[..|events| - 1], start)
  }

  /** When a blocked destination is to be tried again: the delay runs from the last failed re-check of
      the block, or from its opening, and grows with the failed re-checks. */
  function RecheckTime(events: seq<Event>): int
    requires Blocked(events)
  {
    var start := BlockStart(events);
    var moved := events[LastMove(events, start)];
    moved.now + Delay(Rechecks(events, start), moved.jitter)
  }

  /** The row after a run of events on one destination. */
  function RowAfter(events: seq<Event>): Option<Row> {
    if events == [] then None else Updated(RowAfter(events[..|events| - 1]), events[|events| - 1])
  }

  // ---- The row says what the history says ----

  lemma {:induction false} LatestSplits(events: seq<Event>, from: nat)
    requires from <= |events|
    ensures Latest(events, 0) == Latest(events[..from], 0) + Latest(events, from)
  {
    if |events| == from {
      assert events[..from] == events;
    } else {
      LatestSplits(events[..|events| - 1], from);
      assert events[..|events| - 1][..from] == events[..from];
    }
  }

  lemma {:induction false} EpisodeIsFine(events: seq<Event>)
    ensures !Failing(Latest(events[..Episode(events)], 0))
  {
    if events == [] || !Failing(Latest(events, 0)) {
      assert events[..|events|] == events;
    } else {
      EpisodeIsFine(events[..|events| - 1]);
      assert events[..|events| - 1][..Episode(events)] == events[..Episode(events)];
    }
  }

  /** The failing accounts of the whole history are those of the current episode. */
  lemma FailuresOfEpisode(events: seq<Event>, a: string)
    ensures a in Latest(events, 0) && Latest(events, 0)[a] != Reachable <==>
            a in Latest(events, Episode(events)) && Latest(events, Episode(events))[a] != Reachable
  {
    LatestSplits(events, Episode(events));
    EpisodeIsFine(events);
  }

  /** Over every run: the row exists exactly while some account's last result is a failure, and
      holds the last results of the current episode. */
  lemma {:induction false} RowHoldsEpisode(events: seq<Event>)
    ensures RowAfter(events).Some? <==> Failing(Latest(events, 0))
    ensures RowAfter(events).Some? ==> RowAfter(events).value.accounts == Latest(events, Episode(events))
  {
    if events != [] {
      var init, e := events[..|events| - 1], events[|events| - 1];
      RowHoldsEpisode(init);
      var row, accounts := RowAfter(init), Notes(RowAfter(init), e);
      if Failing(Latest(init, 0)) {
        assert accounts == Latest(events, Episode(init));
        EpisodeIsFine(init);
        LatestSplits(events, Episode(init));
        assert events[..Episode(init)] == init[..Episode(init)];
        SameFailures(Latest(init[..Episode(init)], 0), accounts);
      } else {
        assert Latest(init, |init|) == map[];
        assert events[..|init|] == init;
        LatestSplits(events, |init|);
        SameFailures(Latest(init, 0), Latest(events, |init|));
        assert Latest(events, |init|) == map[Name(e.account) := e.result];
      }
    }
  }

  lemma SameFailures(fine: map<string, Verdict>, accounts: map<string, Verdict>)
    requires !Failing(fine)
    ensures Failing(fine + accounts) <==> Failing(accounts)
  {
    if Failing(accounts) {
      var a :| a in accounts && accounts[a] != Reachable;
      assert a in fine + accounts && (fine + accounts)[a] != Reachable;
    }
    if Failing(fine + accounts) {
      var a :| a in fine + accounts && (fine + accounts)[a] != Reachable;
      assert a in accounts;
    }
  }

  lemma NotReachableWorst(accounts: map<string, Verdict>)
    requires Failing(accounts)
    ensures Worst(accounts) != Reachable
  {
    var a :| a in accounts && accounts[a] != Reachable;
    assert Priority(accounts[a]) <= Priority(Worst(accounts));
  }

  /** Over every run: blocked exactly when some account fails and none of the episode can post,
      and then the state is the worst last result of any account ever heard. */
  lemma RowVerdict(events: seq<Event>)
    ensures RowBlocks(RowAfter(events)) <==> Blocked(events)
    ensures Blocked(events) ==>
              var state := RowAfter(events).value.state;
              && (exists a :: a in Latest(events, 0) && Latest(events, 0)[a] == state)
              && (forall a :: a in Latest(events, 0) ==> Priority(Latest(events, 0)[a]) <= Priority(state))
  {
    RowHoldsEpisode(events);
    if events != [] && Failing(Latest(events, 0)) {
      var accounts := Latest(events, Episode(events));
      FailingEpisode(events);
      NotReachableWorst(accounts);
      if Blocked(events) {
        var state := RowAfter(events).value.state;
        assert state == Worst(accounts) && IsWorst(accounts, state);
        var a :| a in accounts && accounts[a] == state;
        FailuresOfEpisode(events, a);
        LatestSplits(events, Episode(events));
        EpisodeIsFine(events);
        assert Latest(events, 0)[a] == state;
      }
    }
  }

  lemma FailingEpisode(events: seq<Event>)
    ensures Failing(Latest(events, 0)) <==> Failing(Latest(events, Episode(events)))
  {
    LatestSplits(events, Episode(events));
    EpisodeIsFine(events);
    SameFailures(Latest(events[..Episode(events)], 0), Latest(events, Episode(events)));
  }

  lemma DelayBounds(checks: nat, jitter: Jitter)
    ensures 9 * Base(checks) <= 10 * Delay(checks, jitter) <= 11 * Base(checks)
  {
  }

  /** Over every run: while blocked, `first` is when the block opened, `checks` counts the failed
      re-checks since, and the next re-check was set by the last of them or by the opening. */
  lemma {:induction false} BlockSchedule(events: seq<Event>)
    requires Blocked(events)
    ensures RowBlocks(RowAfter(events))
    ensures events[|events| - 1].result != Reachable
    ensures var row, start := RowAfter(events).value, BlockStart(events);
            && row.first == Some(events[start].now)
            && row.checks == Rechecks(events, start)
            && row.next == Some(RecheckTime(events))
  {
    var init := events[..|events| - 1];
    BlockedByFailure(events);
    RecheckMoves(events);
    if Blocked(init) {
      BlockSchedule(init);
      BlockContinues(events);
      assert events[BlockStart(init)] == init[BlockStart(init)];
    } else {
      BlockOpens(events);
    }
  }

  /** How the schedule follows the last event. */
  lemma RecheckMoves(events: seq<Event>)
    requires Blocked(events) && events != []
    ensures var init, e, n := events[..|events| - 1], events[|events| - 1], Rechecks(events, BlockStart(events));
            if Blocked(init) then
              && BlockStart(events) == BlockStart(init)
              && n == Rechecks(init, BlockStart(init)) + (if e.recheck then 1 else 0)
              && RecheckTime(events) == if e.recheck then e.now + Delay(n, e.jitter) else RecheckTime(init)
            else BlockStart(events) == |events| - 1 && n == 0 && RecheckTime(events) == e.now + Delay(0, e.jitter)
  {
    var init := events[..|events| - 1];
    if Blocked(init) {
      var start := BlockStart(init);
      assert LastMove(events, start) == if events[|events| - 1].recheck then |events| - 1 else LastMove(init, start);
      assert events[LastMove(init, start)] == init[LastMove(init, start)];
    }
  }

  lemma {:induction false} BlockContinues(events: seq<Event>)
    requires events != [] && Blocked(events) && RowBlocks(RowAfter(events[..|events| - 1]))
    requires RowAfter(events[..|events| - 1]).value.first.Some? && RowAfter(events[..|events| - 1]).value.next.Some?
    ensures RowAfter(events).Some?
    ensures var row, before, e := RowAfter(events).value, RowAfter(events[..|events| - 1]).value, events[|events| - 1];
            && row.first == before.first && row.checks == before.checks + (if e.recheck then 1 else 0)
            && row.next == if e.recheck then Some(e.now + Delay(row.checks, e.jitter)) else before.next
  {
    BlockedByFailure(events);
  }

  lemma {:induction false} BlockOpens(events: seq<Event>)
    requires events != [] && Blocked(events) && !Blocked(events[..|events| - 1])
    ensures RowAfter(events).Some?
    ensures var row, e := RowAfter(events).value, events[|events| - 1];
            row.first == Some(e.now) && row.checks == 0 && row.next == Some(e.now + Delay(0, e.jitter))
  {
    RowVerdict(events[..|events| - 1]);
    BlockedByFailure(events);
  }

  /** While blocked the last event was a failure that left a blocked row. */
  lemma {:induction false} BlockedByFailure(events: seq<Event>)
    requires Blocked(events)
    ensures events != [] && events[|events| - 1].result != Reachable
    ensures var e, before := events[|events| - 1], RowAfter(events[..|events| - 1]);
            RowAfter(events) == Some(BlockedRow(before, e, Notes(before, e), Worst(Notes(before, e)))) &&
            RowBlocks(RowAfter(events))
  {
    RowVerdict(events);
    RowHoldsEpisode(events);
    assert Name(events[|events| - 1].account) in RowAfter(events).value.accounts;
  }

  // ---- Destinations do not disturb each other ----

  datatype Keyed = Keyed(key: string, event: Event)

  function Of(all: seq<Keyed>, key: string): seq<Event> {
    if all == [] then []
    else Of(all[..|all| - 1], key) + if all[|all| - 1].key == key then [all[|all| - 1].event] else []
  }

  /** A whole run on the table: every row is the row of its own destination's events. */
  method Replay(all: seq<Keyed>) returns (table: AccessTable)
    ensures fresh(table)
    ensures forall key :: table.At(key) == RowAfter(Of(all, key))
  {
    table := new AccessTable();
    for n := 0 to |all|
      invariant fresh(table)
      invariant forall key :: table.At(key) == RowAfter(Of(all[..n], key))
    {
      assert all[..n + 1][..n] == all[..n];
      table.Update(all[n].key, all[n].event);
      forall key ensures table.At(key) == RowAfter(Of(all[..n + 1], key)) {
        assert Of(all[..n], key) + [] == Of(all[..n], key);
        if key == all[n].key {
          var events := Of(all[..n], key);
          assert (events + [all[n].event])[..|events|] == events;
        }
      }
    }
    assert all[..|all|] == all;
  }
}
