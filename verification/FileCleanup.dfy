/** Deleting library rows and their files (core-service/internal/app/file_cleanup.go): rows share
    files, a durable outbox holds the paths of deleted rows, and a drain unlinks what no row uses. */
module FileCleanup {

  datatype Option<T> = None | Some(value: T)

  // ---- Names inside the media root (mediaName) ----

  /** A cleaned relative path: its components, outermost first. */
  type Name = seq<string>

  function Slashed(s: string): string {
    seq(|s|, k requires 0 <= k < |s| => if s[k] == '\\' then '/' else s[k])
  }

  function Split(s: string): (r: seq<string>)
    ensures r != []
  {
    if s == "" then [""]
    else if s[0] == '/' then [""] + Split(s[1..])
    else var r := Split(s[1..]); [[s[0]] + r[0]] + r[1..]
  }

  function Join(n: Name): string {
    if n == [] then "" else if |n| == 1 then n[0] else n[0] + "/" + Join(n[1..])
  }

  /** Drops "." and empty components and lets ".." take one back; none is left to take at the root. */
  function Resolve(parts: seq<string>): Option<Name> {
    if parts == [] then Some([])
    else
      var last := parts[|parts| - 1];
      match Resolve(parts[..|parts| - 1])
      case None => None
      case Some(n) =>
        if last == "" || last == "." then Some(n)
        else if last != ".." then Some(n + [last])
        else if n == [] then None else Some(n[..|n| - 1])
  }

  /** The cleaned name of a stored path, unless it leaves the media root. */
  function MediaName(stored: string): Option<Name> {
    var s := Slashed(stored);
    if '\0' in s || s == "" || s[0] == '/' then None
    else match Resolve(Split(s))
      case Some(n) => if n == [] then None else Some(n)
      case None => None
  }

  predicate PlainPart(part: string) {
    part != "" && part != "." && part != ".." && '/' !in part && '\\' !in part && '\0' !in part
  }

  /** A name that cannot leave the root: at least one component and only plain ones. */
  predicate Inside(n: Name) {
    n != [] && forall k :: 0 <= k < |n| ==> PlainPart(n[k])
  }

  predicate CleanPart(part: string) {
    '/' !in part && '\\' !in part && '\0' !in part
  }

  lemma {:induction false} SplitParts(s: string)
    requires '\\' !in s && '\0' !in s
    ensures forall k :: 0 <= k < |Split(s)| ==> CleanPart(Split(s)[k])
  {
    if s != "" {
      SplitParts(s[1..]);
      assert forall c :: c in s[1..] ==> c in s;
      if s[0] != '/' {
        var r := Split(s[1..]);
        assert CleanPart(r[0]);
        assert s[0] in s;
      }
    }
  }

  lemma {:induction false} ResolveParts(parts: seq<string>)
    requires forall k :: 0 <= k < |parts| ==> CleanPart(parts[k])
    ensures Resolve(parts).Some? ==> forall k :: 0 <= k < |Resolve(parts).value| ==> PlainPart(Resolve(parts).value[k])
  {
    if parts != [] {
      ResolveParts(parts[..|parts| - 1]);
      assert CleanPart(parts[|parts| - 1]);
    }
  }

  /** Whatever is stored, an accepted name stays inside the root. */
  lemma MediaNameInside(stored: string)
    ensures MediaName(stored).Some? ==> Inside(MediaName(stored).value)
  {
    var s := Slashed(stored);
    if '\0' !in s {
      assert '\\' !in s;
      SplitParts(s);
      ResolveParts(Split(s));
    }
  }

  lemma {:induction false} SplitPlain(part: string)
    requires '/' !in part
    ensures Split(part) == [part]
  {
    if part != "" {
      assert part[0] in part;
      assert forall c :: c in part[1..] ==> c in part;
      SplitPlain(part[1..]);
      assert [part[0]] + part[1..] == part;
    }
  }

  lemma {:induction false} SplitAfter(part: string, rest: string)
    requires '/' !in part
    ensures Split(part + "/" + rest) == [part] + Split(rest)
  {
    var s := part + "/" + rest;
    if part == "" {
      assert s[0] == '/' && s[1..] == rest;
    } else {
      assert part[0] in part;
      assert forall c :: c in part[1..] ==> c in part;
      SplitAfter(part[1..], rest);
      assert s[0] == part[0] && s[1..] == part[1..] + "/" + rest;
      assert [part[0]] + part[1..] == part;
    }
  }

  lemma {:induction false} SplitJoin(n: Name)
    requires Inside(n)
    ensures Split(Join(n)) == n && Join(n) != "" && Join(n)[0] != '/' && '\\' !in Join(n) && '\0' !in Join(n)
  {
    assert PlainPart(n[0]);
    if |n| == 1 {
      SplitPlain(n[0]);
    } else {
      TailInside(n);
      SplitJoin(n[1..]);
      SplitAfter(n[0], Join(n[1..]));
      assert [n[0]] + n[1..] == n;
    }
    assert n[0][0] in n[0];
  }

  lemma TailInside(n: Name)
    requires Inside(n) && |n| > 1
    ensures Inside(n[1..])
  {
    forall k | 0 <= k < |n[1..]| ensures PlainPart(n[1..][k]) {
      assert n[1..][k] == n[k + 1];
    }
  }

  lemma {:induction false} ResolvePlain(parts: seq<string>)
    requires forall k :: 0 <= k < |parts| ==> PlainPart(parts[k])
    ensures Resolve(parts) == Some(parts)
  {
    if parts != [] {
      ResolvePlain(parts[..|parts| - 1]);
      assert PlainPart(parts[|parts| - 1]);
      assert parts[..|parts| - 1] + [parts[|parts| - 1]] == parts;
    }
  }

  /** Cleaning a cleaned path changes nothing, so one name has one written form. */
  lemma MediaNameIdempotent(stored: string)
    requires MediaName(stored).Some?
    ensures MediaName(Join(MediaName(stored).value)) == MediaName(stored)
  {
    MediaNameInside(stored);
    var n := MediaName(stored).value;
    SplitJoin(n);
    ResolvePlain(n);
    assert Slashed(Join(n)) == Join(n);
  }

  // ---- Rows, outbox and disk ----

  /** The canonical file behind a name; different names may lead to one file. */
  type Aliases = Name -> Name

  /** A row of the library, with the path of its file; `stored`: the file was on disk when the row
      was inserted. */
  datatype Entry<P> = Entry(id: nat, path: P, size: nat, pinned: bool, rescued: bool, stored: bool)

  type Row = Entry<string>

  /** `tracked` and `forgotten` only record the past: the files that ever had a row, and those whose
      queued path was dropped while the media root was missing, with no row for them since. */
  datatype State = State(rows: seq<Row>, outbox: set<string>, disk: set<Name>, tracked: set<Name>, forgotten: set<Name>)

  const EMPTY := State([], {}, {}, {}, {})

  predicate LeadsTo(path: string, key: Aliases, file: Name) {
    MediaName(path).Some? && key(MediaName(path).value) == file
  }

  /** The `keep` map. */
  predicate Referenced(rows: seq<Row>, key: Aliases, file: Name) {
    exists k :: 0 <= k < |rows| && LeadsTo(rows[k].path, key, file)
  }

  ghost predicate Queued(outbox: set<string>, key: Aliases, file: Name) {
    exists path :: path in outbox && LeadsTo(path, key, file)
  }

  function Remaining<P>(rows: seq<Entry<P>>, ids: set<nat>): seq<Entry<P>> {
    if rows == [] then []
    else Remaining(rows[..|rows| - 1], ids) + if rows[|rows| - 1].id in ids then [] else [rows[|rows| - 1]]
  }

  /** Paths of the rows with these ids; the rotator leaves out those outside the root. */
  function PathsOf(rows: seq<Row>, ids: set<nat>, onlyInside: bool): set<string> {
    set k | 0 <= k < |rows| && rows[k].id in ids && rows[k].path != "" &&
    (onlyInside ==> MediaName(rows[k].path).Some?) :: rows[k].path
  }

  function KeyOf(path: string, key: Aliases): set<Name> {
    if MediaName(path).Some? then {key(MediaName(path).value)} else {}
  }

  datatype Event =
    | Insert(row: Row)
    | Delete(ids: set<nat>)
    | Rotate(ids: set<nat>)
    | Drain(fails: set<string>)
    | DrainCut
    | NoRoot

  /** Files that a drain may unlink: queued, and used by no row. */
  ghost predicate Collectable(s: State, key: Aliases, file: Name) {
    Queued(s.outbox, key, file) && !Referenced(s.rows, key, file)
  }

  /** A drain that finds no media root clears the outbox. The root may come back with its files. */
  ghost predicate Cleared(s: State, t: State, key: Aliases) {
    t == s.(outbox := {}, forgotten := s.forgotten + set file | file in s.disk && Collectable(s, key, file))
  }

  /** One committed drain: what it unlinked, and which paths it keeps for the next one. `fails` are
      paths whose removal the system refuses. */
  ghost predicate Drained(s: State, t: State, key: Aliases, fails: set<string>) {
    && t.rows == s.rows && t.tracked == s.tracked && t.forgotten == s.forgotten && t.disk <= s.disk
    && t.outbox <= s.outbox
    && (forall file :: file in s.disk && file !in t.disk ==> Collectable(s, key, file))
    && (forall path :: path in s.outbox && path !in t.outbox ==>
          MediaName(path).Some? && (Referenced(s.rows, key, key(MediaName(path).value)) ||
                                    key(MediaName(path).value) !in t.disk))
    && (forall path :: path in t.outbox ==>
          MediaName(path).None? || (path in fails && !Referenced(s.rows, key, key(MediaName(path).value))))
  }

  /** The process died in a drain: some files are unlinked, nothing was committed. */
  ghost predicate Cut(s: State, t: State, key: Aliases) {
    && t.rows == s.rows && t.tracked == s.tracked && t.forgotten == s.forgotten && t.disk <= s.disk
    && t.outbox == s.outbox
    && (forall file :: file in s.disk && file !in t.disk ==> Collectable(s, key, file))
  }

  ghost predicate Step(s: State, e: Event, t: State, key: Aliases) {
    match e
    case Insert(row) =>
      t == State(s.rows + [row], s.outbox, if row.stored then s.disk + KeyOf(row.path, key) else s.disk,
                 s.tracked + KeyOf(row.path, key), s.forgotten - KeyOf(row.path, key))
    case Delete(ids) => t == s.(rows := Remaining(s.rows, ids), outbox := s.outbox + PathsOf(s.rows, ids, false))
    case Rotate(ids) => t == s.(rows := Remaining(s.rows, ids), outbox := s.outbox + PathsOf(s.rows, ids, true))
    case Drain(fails) => Drained(s, t, key, fails)
    case DrainCut => Cut(s, t, key)
    case NoRoot => Cleared(s, t, key)
  }

  ghost predicate Run(states: seq<State>, events: seq<Event>, key: Aliases) {
    |states| == |events| + 1 && states[0] == EMPTY && forall k :: 0 <= k < |events| ==>
      Step(states[k], events[k], states[k + 1], key)
  }

  // ---- Safe and leak-free ----

  /** Stored files are there, and every row's file is known. */
  ghost predicate RowsSound(rows: seq<Row>, disk: set<Name>, tracked: set<Name>, key: Aliases) {
    && (forall k, file :: 0 <= k < |rows| && rows[k].stored && LeadsTo(rows[k].path, key, file) ==> file in disk)
    && (forall k, file :: 0 <= k < |rows| && LeadsTo(rows[k].path, key, file) ==> file in tracked)
  }

  /** A file is known when a row leads to it or a queued path does. */
  ghost predicate Known(s: State, key: Aliases, file: Name) {
    Referenced(s.rows, key, file) || Queued(s.outbox, key, file)
  }

  /** Of the files that ever had a row, exactly the forgotten ones are on disk and not known. */
  ghost predicate Sound(s: State, key: Aliases) {
    && RowsSound(s.rows, s.disk, s.tracked, key)
    && (forall file :: file in s.tracked && file in s.disk ==> (Known(s, key, file) <==> file !in s.forgotten))
  }

  lemma {:induction false} RemainingRows<P>(rows: seq<Entry<P>>, ids: set<nat>, row: Entry<P>)
    ensures row in Remaining(rows, ids) <==> row in rows && row.id !in ids
  {
    if rows != [] {
      RemainingRows(rows[..|rows| - 1], ids, row);
      assert rows == rows[..|rows| - 1] + [rows[|rows| - 1]];
    }
  }

  lemma RemainingSound(s: State, ids: set<nat>, key: Aliases)
    requires RowsSound(s.rows, s.disk, s.tracked, key)
    ensures RowsSound(Remaining(s.rows, ids), s.disk, s.tracked, key)
  {
    var rows := Remaining(s.rows, ids);
    forall k, file | 0 <= k < |rows| && LeadsTo(rows[k].path, key, file)
      ensures file in s.tracked && (rows[k].stored ==> file in s.disk)
    {
      RemainingRows(s.rows, ids, rows[k]);
      var n :| 0 <= n < |s.rows| && s.rows[n] == rows[k];
      assert LeadsTo(s.rows[n].path, key, file);
    }
  }

  lemma DeleteSound(s: State, ids: set<nat>, onlyInside: bool, key: Aliases)
    requires Sound(s, key)
    ensures Sound(s.(rows := Remaining(s.rows, ids), outbox := s.outbox + PathsOf(s.rows, ids, onlyInside)), key)
  {
    var t := s.(rows := Remaining(s.rows, ids), outbox := s.outbox + PathsOf(s.rows, ids, onlyInside));
    RemainingSound(s, ids, key);
    forall file | file in s.tracked && file in s.disk ensures Known(t, key, file) <==> Known(s, key, file) {
      DeletedKnown(s, t, ids, onlyInside, key, file);
    }
  }

  lemma DeletedKnown(s: State, t: State, ids: set<nat>, onlyInside: bool, key: Aliases, file: Name)
    requires t == s.(rows := Remaining(s.rows, ids), outbox := s.outbox + PathsOf(s.rows, ids, onlyInside))
    ensures Known(t, key, file) <==> Known(s, key, file)
  {
    if Referenced(s.rows, key, file) {
      DeletedIsQueued(s, t, ids, onlyInside, key, file);
    } else if Queued(s.outbox, key, file) {
      StillQueued(s.outbox, t.outbox, key, file);
    } else if Known(t, key, file) {
      NothingMadeKnown(s, t, ids, onlyInside, key, file);
    }
  }

  lemma NothingMadeKnown(s: State, t: State, ids: set<nat>, onlyInside: bool, key: Aliases, file: Name)
    requires t == s.(rows := Remaining(s.rows, ids), outbox := s.outbox + PathsOf(s.rows, ids, onlyInside))
    requires Known(t, key, file)
    ensures Known(s, key, file)
  {
    if Referenced(t.rows, key, file) {
      var k :| 0 <= k < |t.rows| && LeadsTo(t.rows[k].path, key, file);
      RemainingRows(s.rows, ids, t.rows[k]);
      var n :| 0 <= n < |s.rows| && s.rows[n] == t.rows[k];
      assert LeadsTo(s.rows[n].path, key, file);
    } else {
      var path :| path in t.outbox && LeadsTo(path, key, file);
      if path !in s.outbox {
        var k :| 0 <= k < |s.rows| && s.rows[k].path == path;
        assert LeadsTo(s.rows[k].path, key, file);
      }
    }
  }

  lemma StillQueued(outbox: set<string>, more: set<string>, key: Aliases, file: Name)
    requires outbox <= more && Queued(outbox, key, file)
    ensures Queued(more, key, file)
  {
    var path :| path in outbox && LeadsTo(path, key, file);
    assert path in more;
  }

  lemma DeletedIsQueued(s: State, t: State, ids: set<nat>, onlyInside: bool, key: Aliases, file: Name)
    requires t == s.(rows := Remaining(s.rows, ids), outbox := s.outbox + PathsOf(s.rows, ids, onlyInside))
    requires Referenced(s.rows, key, file)
    ensures Referenced(t.rows, key, file) || Queued(t.outbox, key, file)
  {
    var k :| 0 <= k < |s.rows| && LeadsTo(s.rows[k].path, key, file);
    if s.rows[k].id in ids {
      assert s.rows[k].path != "";
      assert s.rows[k].path in PathsOf(s.rows, ids, onlyInside);
      assert s.rows[k].path in t.outbox && LeadsTo(s.rows[k].path, key, file);
    } else {
      RemainingRows(s.rows, ids, s.rows[k]);
      var n :| 0 <= n < |t.rows| && t.rows[n] == s.rows[k];
      assert LeadsTo(t.rows[n].path, key, file);
    }
  }

  lemma InsertSound(s: State, t: State, row: Row, key: Aliases)
    requires Sound(s, key) && Step(s, Insert(row), t, key)
    ensures Sound(t, key)
  {
    forall file | file in t.tracked && file in t.disk ensures Known(t, key, file) <==> file !in t.forgotten {
      InsertedKnown(s, t, row, key, file);
    }
    forall k, file | 0 <= k < |t.rows| && LeadsTo(t.rows[k].path, key, file)
      ensures file in t.tracked && (t.rows[k].stored ==> file in t.disk)
    {
      if k < |s.rows| {
        assert t.rows[k] == s.rows[k] && LeadsTo(s.rows[k].path, key, file);
      }
    }
  }

  lemma InsertedKnown(s: State, t: State, row: Row, key: Aliases, file: Name)
    requires Step(s, Insert(row), t, key)
    ensures Known(t, key, file) <==> Known(s, key, file) || file in KeyOf(row.path, key)
  {
    assert t.rows[|s.rows|] == row && forall k :: 0 <= k < |s.rows| ==> t.rows[k] == s.rows[k];
    if file in KeyOf(row.path, key) {
      assert LeadsTo(t.rows[|s.rows|].path, key, file);
    } else if Referenced(s.rows, key, file) {
      var k :| 0 <= k < |s.rows| && LeadsTo(s.rows[k].path, key, file);
      assert LeadsTo(t.rows[k].path, key, file);
    }
  }

  lemma DrainSound(s: State, t: State, key: Aliases)
    requires Sound(s, key) && (Cut(s, t, key) || exists fails :: Drained(s, t, key, fails))
    ensures Sound(t, key)
  {
    forall k, file | 0 <= k < |t.rows| && t.rows[k].stored && LeadsTo(t.rows[k].path, key, file)
      ensures file in t.disk {
      assert LeadsTo(s.rows[k].path, key, file);
      assert Referenced(s.rows, key, file);
    }
    forall file | file in t.tracked && file in t.disk ensures Known(t, key, file) <==> Known(s, key, file) {
      if Known(s, key, file) && !Referenced(s.rows, key, file) {
        var path :| path in s.outbox && LeadsTo(path, key, file);
        assert path in t.outbox;
      }
    }
  }

  lemma ClearedSound(s: State, t: State, key: Aliases)
    requires Sound(s, key) && Cleared(s, t, key)
    ensures Sound(t, key)
  {
    forall file | file in t.tracked && file in t.disk ensures Known(t, key, file) <==> file !in t.forgotten {
      assert Known(s, key, file) <==> file !in s.forgotten;
      assert !Queued(t.outbox, key, file);
      assert file in t.forgotten <==> file in s.forgotten || Collectable(s, key, file);
    }
  }

  lemma StepSound(s: State, e: Event, t: State, key: Aliases)
    requires Sound(s, key) && Step(s, e, t, key)
    ensures Sound(t, key)
  {
    match e
    case Insert(row) => InsertSound(s, t, row, key);
    case Delete(ids) => DeleteSound(s, ids, false, key);
    case Rotate(ids) => DeleteSound(s, ids, true, key);
    case Drain(fails) => DrainSound(s, t, key);
    case DrainCut => DrainSound(s, t, key);
    case NoRoot => ClearedSound(s, t, key);
  }

  lemma {:induction false} RunSound(states: seq<State>, events: seq<Event>, key: Aliases, n: nat)
    requires Run(states, events, key) && n < |states|
    ensures Sound(states[n], key)
  {
    if n > 0 {
      RunSound(states, events, key, n - 1);
      assert Step(states[n - 1], events[n - 1], states[n], key);
      StepSound(states[n - 1], events[n - 1], states[n], key);
    }
  }

  /** Safety: no step, committed or cut off, unlinks a file that a row still leads to ... */
  lemma ReferencedFilesStay(s: State, e: Event, t: State, key: Aliases, file: Name)
    requires Step(s, e, t, key) && file in s.disk && Referenced(s.rows, key, file)
    ensures file in t.disk
  {
  }

  /** ... so in every run a stored file is there as long as any row uses it, ... */
  lemma StoredFilesAreThere(states: seq<State>, events: seq<Event>, key: Aliases, n: nat, k: nat)
    requires Run(states, events, key) && n < |states| && k < |states[n].rows|
    requires states[n].rows[k].stored && MediaName(states[n].rows[k].path).Some?
    ensures key(MediaName(states[n].rows[k].path).value) in states[n].disk
  {
    RunSound(states, events, key, n);
    assert LeadsTo(states[n].rows[k].path, key, key(MediaName(states[n].rows[k].path).value));
  }

  /** ... and exactly these files are forgotten: in every run a file that ever had a row and is on
      disk is used by one or waits in the outbox, also when a drain died between unlinking and
      committing, unless a drain dropped its queued path while the media root was missing and it
      had no row since. */
  lemma NothingLeaks(states: seq<State>, events: seq<Event>, key: Aliases, n: nat, file: Name)
    requires Run(states, events, key) && n < |states| && file in states[n].tracked && file in states[n].disk
    ensures Known(states[n], key, file) <==> !Forgotten(states, events, key, n, file)
  {
    RunSound(states, events, key, n);
    ForgottenMeans(states, events, key, n, file);
  }

  /** The file was on disk, queued and without a row when a drain found no root, and no row was made
      for it since. */
  ghost predicate Forgotten(states: seq<State>, events: seq<Event>, key: Aliases, n: nat, file: Name)
    requires |states| == |events| + 1 && n < |states|
  {
    exists m: nat :: ForgottenAt(states, events, key, m, n, file)
  }

  ghost predicate ForgottenAt(states: seq<State>, events: seq<Event>, key: Aliases, m: nat, n: nat, file: Name)
    requires |states| == |events| + 1 && n < |states|
  {
    && m < n && Drops(states[m], events[m], key, file)
    && forall k :: m < k < n ==> !Renews(events[k], key, file)
  }

  predicate Renews(e: Event, key: Aliases, file: Name) {
    e.Insert? && file in KeyOf(e.row.path, key)
  }

  /** A drain finds no root while the file is on disk, queued and without a row. */
  ghost predicate Drops(s: State, e: Event, key: Aliases, file: Name) {
    e.NoRoot? && file in s.disk && Collectable(s, key, file)
  }

  lemma {:induction false} StepForgets(s: State, e: Event, t: State, key: Aliases, file: Name)
    requires Step(s, e, t, key)
    ensures file in t.forgotten <==> Drops(s, e, key, file) || (file in s.forgotten && !Renews(e, key, file))
  {
  }

  lemma {:induction false} ForgottenBefore(states: seq<State>, events: seq<Event>, key: Aliases, n: nat, file: Name)
    requires |states| == |events| + 1 && n < |events| && Forgotten(states, events, key, n + 1, file)
    ensures Drops(states[n], events[n], key, file) ||
            (Forgotten(states, events, key, n, file) && !Renews(events[n], key, file))
  {
    var m: nat :| ForgottenAt(states, events, key, m, n + 1, file);
    assert m == n || ForgottenAt(states, events, key, m, n, file);
  }

  lemma {:induction false} ForgottenStays(states: seq<State>, events: seq<Event>, key: Aliases, m: nat, n: nat,
                                          file: Name)
    requires |states| == |events| + 1 && n < |events|
    requires ForgottenAt(states, events, key, m, n, file) && !Renews(events[n], key, file)
    ensures ForgottenAt(states, events, key, m, n + 1, file)
  {
  }

  lemma {:induction false} ForgottenNow(states: seq<State>, events: seq<Event>, key: Aliases, n: nat, file: Name)
    requires |states| == |events| + 1 && n < |events| && Drops(states[n], events[n], key, file)
    ensures ForgottenAt(states, events, key, n, n + 1, file)
  {
  }

  lemma {:induction false} ForgottenAfter(states: seq<State>, events: seq<Event>, key: Aliases, n: nat, file: Name)
    requires |states| == |events| + 1 && n < |events|
    requires Forgotten(states, events, key, n, file) && !Renews(events[n], key, file)
    ensures Forgotten(states, events, key, n + 1, file)
  {
    var m: nat :| ForgottenAt(states, events, key, m, n, file);
    ForgottenStays(states, events, key, m, n, file);
  }

  lemma {:induction false} ForgottenMeans(states: seq<State>, events: seq<Event>, key: Aliases, n: nat, file: Name)
    requires Run(states, events, key) && n < |states|
    ensures file in states[n].forgotten <==> Forgotten(states, events, key, n, file)
  {
    if n > 0 {
      ForgottenMeans(states, events, key, n - 1, file);
      StepForgets(states[n - 1], events[n - 1], states[n], key, file);
      if Drops(states[n - 1], events[n - 1], key, file) {
        ForgottenNow(states, events, key, n - 1, file);
      } else if file in states[n].forgotten {
        ForgottenAfter(states, events, key, n - 1, file);
      } else if Forgotten(states, events, key, n, file) {
        ForgottenBefore(states, events, key, n - 1, file);
      }
    }
  }

  /** A root that is missing for a while is enough: any stored file inside it, whose row was deleted
      before, is still on disk when the root is back and nothing hinders a drain, with nothing queued. */
  lemma MissingRootLeaks(row: Row, key: Aliases)
    requires row.stored && MediaName(row.path).Some?
    ensures var file := key(MediaName(row.path).value);
            var events := [Insert(row), Delete({row.id}), NoRoot, Drain({})];
            exists states: seq<State> ::
              Run(states, events, key) && file in states[4].disk && states[4].rows == [] && states[4].outbox == {}
  {
    var file := key(MediaName(row.path).value);
    var events := [Insert(row), Delete({row.id}), NoRoot, Drain({})];
    var inserted := State([row], {}, {file}, {file}, {});
    var deleted := State([], {row.path}, {file}, {file}, {});
    var cleared := State([], {}, {file}, {file}, {file});
    var states := [EMPTY, inserted, deleted, cleared, cleared];
    assert row.path != "";
    assert Step(EMPTY, events[0], inserted, key);
    assert Remaining([row][..0], {row.id}) == [];
    assert Remaining([row], {row.id}) == [];
    assert PathsOf([row], {row.id}, false) == {row.path} by {
      assert [row][0].path in PathsOf([row], {row.id}, false);
    }
    assert Step(inserted, events[1], deleted, key);
    assert LeadsTo(row.path, key, file) && row.path in deleted.outbox;
    assert Collectable(deleted, key, file);
    assert Step(deleted, events[2], cleared, key);
    assert Step(cleared, events[3], cleared, key);
    assert Run(states, events, key);
  }

  /** A drain that nothing hinders frees every file without a row that was not forgotten, and exactly
      the paths outside the root stay queued. */
  lemma UnhinderedDrain(states: seq<State>, events: seq<Event>, key: Aliases, n: nat)
    requires Run(states, events, key) && n < |events| && events[n] == Drain({})
    ensures var t := states[n + 1];
            && (forall file :: file in t.tracked && file in t.disk ==>
                  (Referenced(t.rows, key, file) <==> !Forgotten(states, events, key, n + 1, file)))
            && (forall path :: path in t.outbox <==> path in states[n].outbox && MediaName(path).None?)
  {
    RunSound(states, events, key, n + 1);
    assert Step(states[n], events[n], states[n + 1], key);
    var t := states[n + 1];
    forall file | file in t.tracked && file in t.disk
      ensures Referenced(t.rows, key, file) <==> !Forgotten(states, events, key, n + 1, file)
    {
      ForgottenMeans(states, events, key, n + 1, file);
      assert !Queued(t.outbox, key, file);
    }
  }

  /** A path outside the root that a deletion queued never leaves the outbox while the root
      exists; the rotator does not queue such paths. */
  lemma OutsidePathsStayQueued(s: State, e: Event, t: State, key: Aliases, path: string)
    requires Step(s, e, t, key) && path in s.outbox && MediaName(path).None? && !e.NoRoot?
    ensures path in t.outbox
  {
  }

  // ---- The store as the program runs it ----

  class MediaStore {
    var rows: seq<Row>
    var outbox: set<string>
    var disk: set<Name>
    ghost var tracked: set<Name>
    ghost var forgotten: set<Name>

    ghost function Value(): State
      reads this
    {
      State(rows, outbox, disk, tracked, forgotten)
    }

    constructor ()
      ensures Value() == EMPTY
    {
      rows, outbox, disk, tracked, forgotten := [], {}, {}, {}, {};
    }

    /** `deleteByWhere`, up to the drain. */
    method DeleteByWhere(ids: set<nat>, ghost key: Aliases) returns (count: nat)
      modifies this`rows, this`outbox
      ensures Step(old(Value()), Delete(ids), Value(), key) && count == |old(rows)| - |rows|
    {
      var kept: seq<Row> := [];
      var queued: set<string> := {};
      var all := rows;
      for k := 0 to |all|
        invariant kept == Remaining(all[..k], ids) && |kept| <= k
        invariant queued == PathsOf(all[..k], ids, false)
        invariant Value() == old(Value())
      {
        assert all[..k + 1][..k] == all[..k] && all[..k + 1][k] == all[k];
        PathsStep(all, k, ids);
        if all[k].id in ids {
          if all[k].path != "" {
            queued := queued + {all[k].path};
          }
        } else {
          kept := kept + [all[k]];
        }
      }
      assert all[..|all|] == all;
      count := |all| - |kept|;
      outbox := outbox + queued;
      rows := kept;
    }

    /** `drainFileCleanup`: `missing` says that there is no media root, `fails` which removals the
        system refuses, `dies` where the process stops; then the files are unlinked but the outbox
        is as before. */
    method DrainFileCleanup(key: Aliases, missing: bool, fails: set<string>, dies: set<string>)
        returns (committed: bool)
      modifies this`outbox, this`disk, this`forgotten
      ensures Step(old(Value()), if missing then NoRoot else if committed then Drain(fails) else DrainCut, Value(), key)
    {
      ghost var s := Value();
      if missing {
        forgotten := forgotten + set file | file in disk && Collectable(s, key, file);
        outbox := {};
        return true;
      }
      var keep := Keep(rows, key);
      var left := outbox;
      var rest := outbox;
      while rest != {}
        invariant rest <= outbox && rest <= left <= outbox && disk <= s.disk && outbox == s.outbox &&
                  forgotten == s.forgotten
        invariant forall file :: file in s.disk && file !in disk ==> Collectable(s, key, file)
        invariant forall path :: path in outbox && path !in left ==> Settled(s, key, disk, path)
        invariant forall path :: path in left && path !in rest ==> Pending(s, key, fails, path)
        decreases |rest|
      {
        var path :| path in rest;
        rest := rest - {path};
        if path in dies {
          return false;
        }
        var name := MediaName(path);
        var failed := name.None?;
        if name.Some? && key(name.value) !in keep && key(name.value) in disk {
          if path in fails {
            failed := true;
          } else {
            assert LeadsTo(path, key, key(name.value));
            assert Collectable(s, key, key(name.value));
            disk := disk - {key(name.value)};
          }
        }
        if !failed {
          left := left - {path};
        }
      }
      outbox := left;
      return true;
    }

    static method Keep(rows: seq<Row>, key: Aliases) returns (keep: set<Name>)
      ensures forall file :: file in keep <==> Referenced(rows, key, file)
    {
      keep := {};
      for k := 0 to |rows|
        invariant forall file :: file in keep <==> exists n :: 0 <= n < k && LeadsTo(rows[n].path, key, file)
      {
        var name := MediaName(rows[k].path);
        if name.Some? {
          keep := keep + {key(name.value)};
        }
      }
    }
  }

  /** The path has left the outbox rightly. */
  ghost predicate Settled(s: State, key: Aliases, disk: set<Name>, path: string) {
    MediaName(path).Some? && (Referenced(s.rows, key, key(MediaName(path).value)) ||
                              key(MediaName(path).value) !in disk)
  }

  /** The path stays in the outbox rightly. */
  ghost predicate Pending(s: State, key: Aliases, fails: set<string>, path: string) {
    MediaName(path).None? || (path in fails && !Referenced(s.rows, key, key(MediaName(path).value)))
  }

  lemma PathsStep(rows: seq<Row>, k: nat, ids: set<nat>)
    requires k < |rows|
    ensures PathsOf(rows[..k + 1], ids, false) == PathsOf(rows[..k], ids, false) + if rows[k].id in ids &&
            rows[k].path != "" then {rows[k].path} else {}
  {
    var a, b := rows[..k], rows[..k + 1];
    forall path
      ensures path in PathsOf(b, ids, false) <==>
                path in PathsOf(a, ids, false) || (rows[k].id in ids && path == rows[k].path != "") {
      if path in PathsOf(a, ids, false) {
        var n :| 0 <= n < |a| && a[n].id in ids && a[n].path != "" && a[n].path == path;
        assert b[n] == a[n];
      }
      if rows[k].id in ids && path == rows[k].path != "" {
        assert b[k].path == path;
      }
      if path in PathsOf(b, ids, false) {
        var n :| 0 <= n < |b| && b[n].id in ids && b[n].path != "" && b[n].path == path;
        assert n < k ==> a[n] == b[n];
      }
    }
  }
}
