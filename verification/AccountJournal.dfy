/** Adding and removing Telegram accounts (core-service/internal/accounts/repository.go): a journal
    row is written first, then files and the config document change in steps, and a restart replays
    whatever is still journaled. The process may die between any two steps. */
module AccountJournal {

  datatype Option<T> = None | Some(value: T)

  // ---- Files ----

  /** `Node` and `Native` are the two session directories, `Legacy` is session.enc and `Marker`
      says that it was imported. */
  datatype Path = Pending(name: string) | Node(id: string) | Native(id: string) | Legacy | Marker

  /** `digest` is the SHA-256 of the content; `regular`: a regular file of acceptable size. */
  datatype File = File(content: nat, digest: nat, regular: bool)

  type Files = map<Path, File>

  predicate SafeId(id: string) {
    && id != "" && id != "." && id != ".." && |id| <= 240
    && (forall k :: 0 <= k < |id| ==> id[k] !in "/\\\0:<>\"|?*")
    && id[|id| - 1] != '.' && id[|id| - 1] != ' '
  }

  const LEGACY := "legacy"

  predicate OnlyNode(files: Files, id: string) {
    forall p :: p in files && p.Node? ==> p == Node(id)
  }

  /** The old single-account file counts beside no Node account, or once it was imported. */
  predicate LegacyVisible(files: Files) {
    Legacy in files && ((forall p :: p in files ==> !p.Node?) || Node(LEGACY) in files || Native(LEGACY) in files)
  }

  predicate Ambiguous(files: Files) {
    LegacyVisible(files) && (Node(LEGACY) in files || Native(LEGACY) in files) && Marker !in files
  }

  predicate Known(files: Files, id: string) {
    Node(id) in files || Native(id) in files || (id == LEGACY && LegacyVisible(files))
  }

  /** The files of an account that a removal journals. */
  function RemovalFiles(files: Files, id: string): seq<Path> {
    [Node(id), Native(id)] +
    if id == LEGACY && LegacyVisible(files) && Node(id) !in files then
      (if Marker in files then [Legacy, Marker] else [Legacy]) else []
  }

  predicate Belongs(p: Path, id: string) {
    p == Node(id) || p == Native(id) || (id == LEGACY && (p == Legacy || p == Marker))
  }

  // ---- Journal, config and tables ----

  datatype Op = Add(id: string, source: string, digest: nat, meta: nat) | Remove(id: string, files: seq<Path>)

  datatype Entry = Account(id: string, meta: nat) | Stray(raw: nat)

  datatype Group = Group(name: nat, pin: Option<string>)

  datatype WorkStatus = Open | Closed | Failed

  datatype Work = Work(account: string, status: WorkStatus)

  /** `todo`: the pending file that the running process still removes after a commit; it is the
      only part that does not survive the process. */
  datatype State = State(files: Files, accounts: seq<Entry>, groups: seq<Group>, work: seq<Work>, peers: set<string>,
                         journal: map<string, Op>, todo: Option<string>)

  predicate Matches(files: Files, p: Path, digest: nat) {
    p in files && files[p].regular && files[p].digest == digest
  }

  function Without(accounts: seq<Entry>, id: string): seq<Entry> {
    if accounts == [] then []
    else
      var e := accounts[|accounts| - 1];
      Without(accounts[..|accounts| - 1], id) + if e.Account? && e.id == id then [] else [e]
  }

  function Unpinned(groups: seq<Group>, id: string): seq<Group> {
    seq(|groups|, k requires 0 <= k < |groups| =>
          if groups[k].pin == Some(id) then groups[k].(pin := None) else groups[k])
  }

  function FailedWork(work: seq<Work>, id: string): seq<Work> {
    seq(|work|, k requires 0 <= k < |work| =>
          if work[k].account == id && work[k].status == Open then work[k].(status := Failed) else work[k])
  }

  /** `commitConfig`: one transaction. */
  function Committed(s: State, op: Op): State {
    var base := s.(journal := s.journal - {op.id});
    match op
    case Add(id, source, _, meta) =>
      base.(accounts := Without(s.accounts, id) + [Account(id, meta)], todo := Some(source))
    case Remove(id, _) =>
      base.(accounts := Without(s.accounts, id), groups := Unpinned(s.groups, id), work := FailedWork(s.work, id),
            peers := s.peers - {id})
  }

  // ---- Steps ----

  datatype Step =
    | Link(id: string)
    | Unlink(id: string, path: Path)
    | Commit(id: string)
    | DropSource
    | Crash
    | Record(op: Op)
    | Login(name: string, file: File)
    | SaveSession(id: string, file: File)

  /** Steps of a replay, as opposed to new work. */
  predicate Replays(step: Step) {
    step.Link? || step.Unlink? || step.Commit? || step.DropSource? || step.Crash?
  }

  predicate WellFormed(op: Op) {
    SafeId(op.id) && (op.Remove? ==> forall k :: 0 <= k < |op.files| ==> Belongs(op.files[k], op.id))
  }

  predicate UsesSource(s: State, name: string) {
    s.todo == Some(name) || exists id :: id in s.journal && s.journal[id].Add? && s.journal[id].source == name
  }

  /** What the code checks before each step. Pending files are written under fresh names, and the
      sessions of journaled accounts are not in use. */
  predicate Enabled(s: State, step: Step) {
    match step
    case Link(id) =>
      s.todo.None? && id in s.journal && s.journal[id].Add? && Native(id) !in s.files &&
      Matches(s.files, Pending(s.journal[id].source), s.journal[id].digest)
    case Unlink(id, file) => s.todo.None? && id in s.journal && s.journal[id].Remove? && file in s.journal[id].files
    case Commit(id) =>
      s.todo.None? && id in s.journal && match s.journal[id] {
        case Add(_, _, digest, _) => Matches(s.files, Native(id), digest)
        case Remove(_, files) => forall k :: 0 <= k < |files| ==> files[k] !in s.files
      }
    case DropSource => s.todo.Some?
    case Crash => true
    case Record(op) =>
      s.todo.None? && WellFormed(op) && op.id !in s.journal &&
      (op.Add? ==>
         !Known(s.files, op.id) && Matches(s.files, Pending(op.source), op.digest) && !UsesSource(s, op.source))
    case Login(name, _) => !UsesSource(s, name)
    case SaveSession(id, _) => id !in s.journal
  }

  function Next(s: State, step: Step): State
    requires Enabled(s, step)
  {
    match step
    case Link(id) => s.(files := s.files[Native(id) := s.files[Pending(s.journal[id].source)]])
    case Unlink(_, file) => s.(files := s.files - {file})
    case Commit(id) => Committed(s, s.journal[id])
    case DropSource => s.(files := s.files - {Pending(s.todo.value)}, todo := None)
    case Crash => s.(todo := None)
    case Record(op) => s.(journal := s.journal[op.id := op])
    case Login(name, file) => s.(files := s.files[Pending(name) := file])
    case SaveSession(id, file) => s.(files := s.files[Native(id) := file])
  }

  predicate Runs(s: State, steps: seq<Step>)
    decreases |steps|, 0
  {
    steps == [] || (Runs(s, steps[..|steps| - 1]) && Enabled(After(s, steps[..|steps| - 1]), steps[|steps| - 1]))
  }

  function After(s: State, steps: seq<Step>): State
    requires Runs(s, steps)
    decreases |steps|, 1
  {
    if steps == [] then s else Next(After(s, steps[..|steps| - 1]), steps[|steps| - 1])
  }

  predicate AllReplay(steps: seq<Step>) {
    forall k :: 0 <= k < |steps| ==> Replays(steps[k])
  }

  // ---- A journaled operation can always be completed ----

  ghost predicate OpReady(s: State, id: string)
    requires id in s.journal
  {
    var op := s.journal[id];
    && op.id == id && WellFormed(op)
    && (op.Add? ==>
          if Native(id) in s.files then Matches(s.files, Native(id), op.digest)
          else Matches(s.files, Pending(op.source), op.digest))
    && (op.Add? ==> s.todo != Some(op.source))
  }

  ghost predicate Ready(s: State) {
    && (forall id :: id in s.journal ==> OpReady(s, id))
    && (forall i, j ::
          i in s.journal && j in s.journal && s.journal[i].Add? && s.journal[j].Add? &&
          s.journal[i].source == s.journal[j].source ==>
            i == j)
  }

  lemma StepKeepsReady(s: State, step: Step)
    requires Ready(s) && Enabled(s, step)
    ensures Ready(Next(s, step))
  {
    var s' := Next(s, step);
    forall id | id in s'.journal ensures OpReady(s', id) {
      assert id in s.journal ==> OpReady(s, id);
      assert step.Unlink? ==> OpReady(s, step.id);
    }
  }

  lemma {:induction false} RunsKeepReady(s: State, steps: seq<Step>)
    requires Ready(s) && Runs(s, steps)
    ensures Ready(After(s, steps))
  {
    if steps != [] {
      RunsKeepReady(s, steps[..|steps| - 1]);
      StepKeepsReady(After(s, steps[..|steps| - 1]), steps[|steps| - 1]);
    }
  }

  // ---- What everything journaled will lead to ----

  function Lookup(files: Files, p: Path): Option<File> {
    if p in files then Some(files[p]) else None
  }

  predicate Removing(s: State, id: string) {
    id in s.journal && s.journal[id].Remove?
  }

  predicate Doomed(s: State, p: Path) {
    exists id :: id in s.journal && Removing(s, id) && p in s.journal[id].files
  }

  /** The file at a path once every journaled operation is done. */
  function ExpectedFile(s: State, p: Path): Option<File> {
    if Doomed(s, p) then None
    else if p.Native? && p.id in s.journal && s.journal[p.id].Add? && p !in s.files then
           Lookup(s.files, Pending(s.journal[p.id].source))
    else Lookup(s.files, p)
  }

  function EntriesOf(accounts: seq<Entry>, id: string): seq<Entry> {
    if accounts == [] then []
    else
      var e := accounts[|accounts| - 1];
      EntriesOf(accounts[..|accounts| - 1], id) + if e.Account? && e.id == id then [e] else []
  }

  function Strays(accounts: seq<Entry>): seq<Entry> {
    if accounts == [] then []
    else Strays(accounts[..|accounts| - 1]) + if accounts[|accounts| - 1].Stray? then [accounts[|accounts| - 1]] else []
  }

  function ExpectedEntries(s: State, id: string): seq<Entry> {
    if id in s.journal then (if s.journal[id].Add? then [Account(id, s.journal[id].meta)] else [])
    else EntriesOf(s.accounts, id)
  }

  function ExpectedGroup(s: State, g: Group): Group {
    if g.pin.Some? && Removing(s, g.pin.value) then g.(pin := None) else g
  }

  function ExpectedWork(s: State, w: Work): Work {
    if w.status == Open && Removing(s, w.account) then w.(status := Failed) else w
  }

  /** Both states lead to the same end: files (pending ones aside), entries of every account,
      entries that are no account, groups, work and peers. */
  ghost predicate SameOutcome(s: State, t: State) {
    && (forall p: Path :: !p.Pending? ==> ExpectedFile(s, p) == ExpectedFile(t, p))
    && (forall id: string :: ExpectedEntries(s, id) == ExpectedEntries(t, id))
    && Strays(s.accounts) == Strays(t.accounts)
    && |s.groups| == |t.groups| && (forall k :: 0 <= k < |s.groups| ==>
                                      ExpectedGroup(s, s.groups[k]) == ExpectedGroup(t, t.groups[k]))
    && |s.work| == |t.work| && (forall k :: 0 <= k < |s.work| ==>
                                  ExpectedWork(s, s.work[k]) == ExpectedWork(t, t.work[k]))
    && (forall id: string :: id in s.peers && !Removing(s, id) <==> id in t.peers && !Removing(t, id))
  }

  lemma {:induction false} WithoutEntries(accounts: seq<Entry>, id: string, other: string)
    ensures EntriesOf(Without(accounts, id), other) == if other == id then [] else EntriesOf(accounts, other)
    ensures Strays(Without(accounts, id)) == Strays(accounts)
  {
    if accounts != [] {
      var init, e := accounts[..|accounts| - 1], accounts[|accounts| - 1];
      WithoutEntries(init, id, other);
      var w := Without(init, id);
      assert (w + [e])[..|w|] == w;
      assert w + [] == w && EntriesOf(init, other) + [] == EntriesOf(init, other) && Strays(init) + [] == Strays(init);
    }
  }

  lemma AppendEntry(accounts: seq<Entry>, e: Entry, other: string)
    ensures EntriesOf(accounts + [e], other) == EntriesOf(accounts, other) + if e.Account? && e.id == other then [e]
            else []
    ensures Strays(accounts + [e]) == Strays(accounts) + if e.Stray? then [e] else []
  {
    assert (accounts + [e])[..|accounts|] == accounts;
  }

  lemma CommitKeepsEntries(s: State, id: string, other: string)
    requires Ready(s) && Enabled(s, Commit(id))
    ensures ExpectedEntries(Next(s, Commit(id)), other) == ExpectedEntries(s, other)
    ensures Strays(Next(s, Commit(id)).accounts) == Strays(s.accounts)
  {
    assert OpReady(s, id);
    WithoutEntries(s.accounts, id, other);
    if s.journal[id].Add? {
      AppendEntry(Without(s.accounts, id), Account(id, s.journal[id].meta), other);
    }
  }

  lemma CommitKeepsFile(s: State, id: string, p: Path)
    requires Ready(s) && Enabled(s, Commit(id)) && !p.Pending?
    ensures ExpectedFile(Next(s, Commit(id)), p) == ExpectedFile(s, p)
  {
    if Doomed(s, p) {
      CommitKeepsDoomed(s, id, p);
    } else {
      CommitSpares(s, id, p);
    }
  }

  lemma CommitKeepsDoomed(s: State, id: string, p: Path)
    requires Ready(s) && Enabled(s, Commit(id)) && !p.Pending? && Doomed(s, p)
    ensures ExpectedFile(Next(s, Commit(id)), p) == None
  {
    var s' := Next(s, Commit(id));
    var owner :| owner in s.journal && Removing(s, owner) && p in s.journal[owner].files;
    if owner != id {
      assert Removing(s', owner) && p in s'.journal[owner].files;
    } else {
      assert OpReady(s, id);
      assert p !in s.files;
      assert p.Native? && p.id in s.journal ==> OpReady(s, p.id);
    }
  }

  lemma CommitSpares(s: State, id: string, p: Path)
    requires Ready(s) && Enabled(s, Commit(id)) && !p.Pending? && !Doomed(s, p)
    ensures ExpectedFile(Next(s, Commit(id)), p) == ExpectedFile(s, p)
  {
    assert OpReady(s, id);
    assert forall k :: Removing(Next(s, Commit(id)), k) ==> Removing(s, k);
    assert !Doomed(Next(s, Commit(id)), p);
  }

  lemma LinkKeepsFile(s: State, id: string, p: Path)
    requires Ready(s) && Enabled(s, Link(id)) && !p.Pending?
    ensures ExpectedFile(Next(s, Link(id)), p) == ExpectedFile(s, p)
  {
    assert OpReady(s, id);
    assert Doomed(Next(s, Link(id)), p) == Doomed(s, p) by {
      assert forall k :: Removing(Next(s, Link(id)), k) <==> Removing(s, k);
    }
  }

  lemma UnlinkKeepsFile(s: State, step: Step, p: Path)
    requires Ready(s) && Enabled(s, step) && step.Unlink? && !p.Pending?
    ensures ExpectedFile(Next(s, step), p) == ExpectedFile(s, p)
  {
    assert forall k :: Removing(Next(s, step), k) <==> Removing(s, k);
    assert Doomed(Next(s, step), p) == Doomed(s, p);
    assert OpReady(s, step.id);
    assert Removing(s, step.id) && Doomed(s, step.path);
  }

  lemma DropKeepsFile(s: State, step: Step, p: Path)
    requires Ready(s) && Enabled(s, step) && (step.DropSource? || step.Crash?) && !p.Pending?
    ensures ExpectedFile(Next(s, step), p) == ExpectedFile(s, p)
  {
    assert forall k :: Removing(Next(s, step), k) <==> Removing(s, k);
    assert Doomed(Next(s, step), p) == Doomed(s, p);
    if p.Native? && p.id in s.journal {
      assert OpReady(s, p.id);
    }
  }

  /** Link, unlink, source removal and crash leave journal, config and tables alone. */
  lemma FileStepKeepsOutcome(s: State, step: Step)
    requires Ready(s) && Enabled(s, step) && Replays(step) && !step.Commit?
    ensures SameOutcome(s, Next(s, step))
  {
    var s' := Next(s, step);
    forall p: Path | !p.Pending? ensures ExpectedFile(s', p) == ExpectedFile(s, p) {
      if step.Link? {
        LinkKeepsFile(s, step.id, p);
      } else if step.Unlink? {
        UnlinkKeepsFile(s, step, p);
      } else {
        DropKeepsFile(s, step, p);
      }
    }
    SameTables(s, s');
  }

  lemma SameTables(s: State, t: State)
    requires t.journal == s.journal && t.accounts == s.accounts && t.groups == s.groups && t.work == s.work &&
             t.peers == s.peers
    requires forall p: Path :: !p.Pending? ==> ExpectedFile(t, p) == ExpectedFile(s, p)
    ensures SameOutcome(s, t)
  {
  }

  lemma CommitKeepsTables(s: State, id: string)
    requires Ready(s) && Enabled(s, Commit(id))
    ensures var t := Next(s, Commit(id));
            && |s.groups| == |t.groups| && (forall k :: 0 <= k < |s.groups| ==>
                                              ExpectedGroup(s, s.groups[k]) == ExpectedGroup(t, t.groups[k]))
            && |s.work| == |t.work| && (forall k :: 0 <= k < |s.work| ==>
                                          ExpectedWork(s, s.work[k]) == ExpectedWork(t, t.work[k]))
            && (forall other: string :: other in s.peers && !Removing(s, other) <==>
                  other in t.peers && !Removing(t, other))
  {
    assert OpReady(s, id);
  }

  lemma CommitKeepsOutcome(s: State, id: string)
    requires Ready(s) && Enabled(s, Commit(id))
    ensures SameOutcome(s, Next(s, Commit(id)))
  {
    var t := Next(s, Commit(id));
    CommitKeepsTables(s, id);
    CommitKeepsEntries(s, id, id);
    forall other: string ensures ExpectedEntries(s, other) == ExpectedEntries(t, other) {
      CommitKeepsEntries(s, id, other);
    }
    forall p: Path | !p.Pending? ensures ExpectedFile(s, p) == ExpectedFile(t, p) {
      CommitKeepsFile(s, id, p);
    }
  }

  /** No step of a replay, and no crash, changes what the journal will lead to. */
  lemma StepKeepsOutcome(s: State, step: Step)
    requires Ready(s) && Enabled(s, step) && Replays(step)
    ensures SameOutcome(s, Next(s, step))
  {
    if step.Commit? {
      CommitKeepsOutcome(s, step.id);
    } else {
      FileStepKeepsOutcome(s, step);
    }
  }

  lemma SameOutcomeChain(a: State, b: State, c: State)
    requires SameOutcome(a, b) && SameOutcome(b, c)
    ensures SameOutcome(a, c)
  {
    forall k | 0 <= k < |a.groups| ensures ExpectedGroup(a, a.groups[k]) == ExpectedGroup(c, c.groups[k]) {
      assert ExpectedGroup(a, a.groups[k]) == ExpectedGroup(b, b.groups[k]);
    }
  }

  lemma {:induction false} ReplayKeepsOutcome(s: State, steps: seq<Step>)
    requires Ready(s) && Runs(s, steps) && AllReplay(steps)
    ensures SameOutcome(s, After(s, steps))
  {
    if steps != [] {
      var init := steps[..|steps| - 1];
      ReplayKeepsOutcome(s, init);
      RunsKeepReady(s, init);
      StepKeepsOutcome(After(s, init), steps[|steps| - 1]);
      SameOutcomeChain(s, After(s, init), After(s, steps));
    }
  }

  /** Crash points do not matter: two replays of the same journal, broken off and taken up again
      anywhere, end in the same state, up to leftover pending files and the order in which the
      entries of different accounts were appended. */
  lemma ReplaysAgree(s: State, steps: seq<Step>, others: seq<Step>)
    requires Ready(s) && Runs(s, steps) && AllReplay(steps) && Runs(s, others) && AllReplay(others)
    requires After(s, steps).journal == map[] && After(s, others).journal == map[]
    ensures var a, b := After(s, steps), After(s, others);
            && (forall p: Path :: !p.Pending? ==> Lookup(a.files, p) == Lookup(b.files, p))
            && (forall id: string :: EntriesOf(a.accounts, id) == EntriesOf(b.accounts, id))
            && Strays(a.accounts) == Strays(b.accounts) && a.groups == b.groups && a.work == b.work
            && a.peers == b.peers
  {
    Settles(s, steps);
    Settles(s, others);
    var a, b := After(s, steps), After(s, others);
    assert forall k :: 0 <= k < |a.groups| ==> a.groups[k] == b.groups[k];
    assert forall k :: 0 <= k < |a.work| ==> a.work[k] == b.work[k];
    assert forall id: string :: id in a.peers <==> id in b.peers;
  }

  /** ... namely the one the journal led to. */
  lemma Settles(s: State, steps: seq<Step>)
    requires Ready(s) && Runs(s, steps) && AllReplay(steps) && After(s, steps).journal == map[]
    ensures var t := After(s, steps);
            && (forall p: Path :: !p.Pending? ==> Lookup(t.files, p) == ExpectedFile(s, p))
            && (forall id: string :: EntriesOf(t.accounts, id) == ExpectedEntries(s, id))
            && Strays(t.accounts) == Strays(s.accounts)
            && |t.groups| == |s.groups| && (forall k :: 0 <= k < |s.groups| ==>
                                              t.groups[k] == ExpectedGroup(s, s.groups[k]))
            && |t.work| == |s.work| && (forall k :: 0 <= k < |s.work| ==> t.work[k] == ExpectedWork(s, s.work[k]))
            && (forall id: string :: id in t.peers <==> id in s.peers && !Removing(s, id))
  {
    ReplayKeepsOutcome(s, steps);
    var t := After(s, steps);
    forall p: Path | !p.Pending? ensures Lookup(t.files, p) == ExpectedFile(t, p) {
      assert !Doomed(t, p);
    }
  }

  /** An addition, wherever the process dies: the session file with the journaled digest is in
      place, the config holds exactly one entry, and no other account's file changed. */
  lemma AdditionOutcome(s: State, op: Op, steps: seq<Step>)
    requires Ready(s) && s.journal == map[] && op.Add? && Enabled(s, Record(op))
    requires var r := Next(s, Record(op)); Runs(r, steps) && AllReplay(steps) && After(r, steps).journal == map[]
    ensures var t := After(Next(s, Record(op)), steps);
            && Matches(t.files, Native(op.id), op.digest) && t.files[Native(op.id)] == s.files[Pending(op.source)]
            && EntriesOf(t.accounts, op.id) == [Account(op.id, op.meta)]
            && (forall p: Path :: !p.Pending? && p != Native(op.id) ==> Lookup(t.files, p) == Lookup(s.files, p))
            && (forall id: string :: id != op.id ==> EntriesOf(t.accounts, id) == EntriesOf(s.accounts, id))
            && t.groups == s.groups && t.work == s.work && t.peers == s.peers
  {
    var r := Next(s, Record(op));
    StepKeepsReady(s, Record(op));
    Settles(r, steps);
    var t := After(r, steps);
    assert forall p: Path :: !Doomed(r, p);
    assert forall p: Path :: !p.Pending? ==> Lookup(t.files, p) == ExpectedFile(r, p);
    assert Lookup(t.files, Native(op.id)) == Some(s.files[Pending(op.source)]);
    assert forall k :: 0 <= k < |t.groups| ==> t.groups[k] == s.groups[k];
    assert forall k :: 0 <= k < |t.work| ==> t.work[k] == s.work[k];
    assert forall id: string :: id in t.peers <==> id in s.peers;
  }

  /** A removal, wherever the process dies: its files and its entry are gone, its groups are
      unpinned and its open work failed, and nothing of another account changed. */
  lemma RemovalOutcome(s: State, id: string, steps: seq<Step>)
    requires Ready(s) && s.journal == map[] && s.todo == None && SafeId(id)
    requires var r := s.(journal := map[id := Remove(id, RemovalFiles(s.files, id))]);
             Runs(r, steps) && AllReplay(steps) && After(r, steps).journal == map[]
    ensures var t := After(s.(journal := map[id := Remove(id, RemovalFiles(s.files, id))]), steps);
            && (forall p: Path :: !p.Pending? ==>
                  Lookup(t.files, p) == if p in RemovalFiles(s.files, id) then None else Lookup(s.files, p))
            && EntriesOf(t.accounts, id) == []
            && (forall other: string :: other != id ==> EntriesOf(t.accounts, other) == EntriesOf(s.accounts, other))
            && t.groups == Unpinned(s.groups, id) && t.work == FailedWork(s.work, id) && t.peers == s.peers - {id}
  {
    var op := Remove(id, RemovalFiles(s.files, id));
    assert op.id !in s.journal && WellFormed(op);
    var r := Next(s, Record(op));
    assert r == s.(journal := map[id := op]);
    StepKeepsReady(s, Record(op));
    Settles(r, steps);
    var t := After(r, steps);
    OneRemoval(r, id, op);
    RemovedTables(s, r, t, id);
  }

  lemma RemovedTables(s: State, r: State, t: State, id: string)
    requires forall other: string :: Removing(r, other) <==> other == id
    requires |t.groups| == |s.groups| && forall k :: 0 <= k < |s.groups| ==>
               t.groups[k] == ExpectedGroup(r, s.groups[k])
    requires |t.work| == |s.work| && forall k :: 0 <= k < |s.work| ==> t.work[k] == ExpectedWork(r, s.work[k])
    ensures t.groups == Unpinned(s.groups, id) && t.work == FailedWork(s.work, id)
  {
  }

  lemma OneRemoval(r: State, id: string, op: Op)
    requires r.journal == map[id := op] && op.Remove?
    ensures forall other: string :: Removing(r, other) <==> other == id
    ensures forall p: Path :: Doomed(r, p) <==> p in op.files
  {
    forall p: Path ensures Doomed(r, p) <==> p in op.files {
      assert Removing(r, id);
    }
  }

  /** A removed account stays unknown, except exactly this: a Node copy of the legacy account was
      removed as the only Node account and the old session.enc, which is not journaled then, makes
      the account visible again. */
  lemma RemovedAccountReturnsExactly(files: Files, id: string)
    requires !Ambiguous(files)
    ensures Known(files - (set p | p in RemovalFiles(files, id)), id) <==>
            id == LEGACY && Legacy in files && Node(LEGACY) in files && OnlyNode(files, LEGACY)
  {
    var left := files - (set p | p in RemovalFiles(files, id));
    assert RemovalFiles(files, id)[0] == Node(id) && RemovalFiles(files, id)[1] == Native(id);
    assert Node(id) !in left && Native(id) !in left;
    if id == LEGACY && Legacy in files {
      if Node(LEGACY) in files {
        assert RemovalFiles(files, id) == [Node(id), Native(id)];
        assert forall p :: p in left && p.Node? ==> p in files && p != Node(LEGACY);
        assert Legacy in left;
        if exists p :: p in files && p.Node? && p != Node(LEGACY) {
          var p :| p in files && p.Node? && p != Node(LEGACY);
          assert p in left;
        }
      } else if LegacyVisible(files) {
        assert RemovalFiles(files, id)[2] == Legacy;
      } else {
        assert Legacy in left;
        var p :| p in files && p.Node?;
        assert p in left;
      }
    }
  }

  // ---- Nothing is overwritten ----

  /** A file at a session path changes only by the removal of its own account or by a save of its
      own session: publishing never replaces an existing file. */
  lemma NeverOverwritten(s: State, step: Step, p: Path)
    requires Ready(s) && Enabled(s, step) && p in s.files && !p.Pending?
    ensures Lookup(Next(s, step).files, p) == Some(s.files[p]) ||
            (step.Unlink? && Belongs(p, step.id) && Removing(s, step.id)) || (step.SaveSession? && p == Native(step.id))
  {
    if step.Unlink? {
      assert OpReady(s, step.id);
    }
  }

  /** Replays never stop half-way: as long as something is journaled a step can be taken ... */
  lemma ReplayIsNeverStuck(s: State, id: string)
    requires Ready(s) && id in s.journal && s.todo == None
    ensures Enabled(s, Link(id)) || Enabled(s, Commit(id)) || exists p :: p in s.files && Enabled(s, Unlink(id, p))
  {
    assert OpReady(s, id);
    if s.journal[id].Remove? && !Enabled(s, Commit(id)) {
      var k :| 0 <= k < |s.journal[id].files| && s.journal[id].files[k] in s.files;
      assert Enabled(s, Unlink(id, s.journal[id].files[k]));
    }
  }

  // ---- The leftover of an addition ----

  predicate Leaked(s: State, steps: seq<Step>, source: string)
    requires Runs(s, steps)
  {
    steps != [] && (Leaked(s, steps[..|steps| - 1], source) ||
                    (steps[|steps| - 1].Crash? && After(s, steps[..|steps| - 1]).todo == Some(source)))
  }

  /** Where the pending file of the addition `id` stands in state t. */
  ghost predicate SourceIs(s: State, t: State, id: string, leaked: bool)
    requires id in s.journal && s.journal[id].Add?
  {
    var source := s.journal[id].source;
    && (id in t.journal ==> t.journal[id] == s.journal[id])
    && (leaked ==> id !in t.journal && t.todo != Some(source))
    && (t.todo == Some(source) ==> id !in t.journal)
    && (Pending(source) in t.files <==> id in t.journal || t.todo == Some(source) || leaked)
  }

  lemma SourceStep(s: State, t: State, id: string, leaked: bool, step: Step)
    requires id in s.journal && s.journal[id].Add? && SourceIs(s, t, id, leaked)
    requires Ready(t) && Enabled(t, step) && Replays(step)
    requires forall other :: other in t.journal && other != id && t.journal[other].Add? ==>
               t.journal[other].source != s.journal[id].source
    ensures SourceIs(s, Next(t, step), id, leaked || (step.Crash? && t.todo == Some(s.journal[id].source)))
  {
    assert id in t.journal ==> OpReady(t, id);
    if step.Commit? {
      assert OpReady(t, step.id);
    }
    if step.Unlink? {
      assert OpReady(t, step.id);
    }
  }

  /** The pending file of a finished addition stays behind exactly when the process died between
      the commit and the removal of that file; no replay ever removes it. */
  lemma {:induction false} SourceLeaksExactly(s: State, id: string, steps: seq<Step>)
    requires Ready(s) && id in s.journal && s.journal[id].Add? && Pending(s.journal[id].source) in s.files
    requires Runs(s, steps) && AllReplay(steps)
    ensures SourceIs(s, After(s, steps), id, Leaked(s, steps, s.journal[id].source))
  {
    if steps == [] {
      assert OpReady(s, id);
    } else {
      var init, last := steps[..|steps| - 1], steps[|steps| - 1];
      SourceLeaksExactly(s, id, init);
      RunsKeepReady(s, init);
      SourceNotShared(s, init, id);
      SourceStep(s, After(s, init), id, Leaked(s, init, s.journal[id].source), last);
    }
  }

  /** No other journaled addition ever uses the same pending file. */
  lemma {:induction false} SourceNotShared(s: State, steps: seq<Step>, id: string)
    requires Ready(s) && id in s.journal && s.journal[id].Add? && Runs(s, steps) && AllReplay(steps)
    ensures forall other :: other in After(s, steps).journal && other != id ==>
              other in s.journal && After(s, steps).journal[other] == s.journal[other] &&
              (s.journal[other].Add? ==> s.journal[other].source != s.journal[id].source)
  {
    if steps != [] {
      SourceNotShared(s, steps[..|steps| - 1], id);
    }
  }

  // ---- Names for new accounts ----

  function Digits(n: nat): string {
    if n < 10 then ["0123456789"[n]] else Digits(n / 10) + ["0123456789"[n % 10]]
  }

  function DigitValue(c: char): nat {
    if '0' <= c <= '9' then (c - '0') as nat else 0
  }

  function NumberOf(s: string): nat {
    if s == "" then 0 else NumberOf(s[..|s| - 1]) * 10 + DigitValue(s[|s| - 1])
  }

  lemma {:induction false} DigitsRoundTrip(n: nat)
    ensures NumberOf(Digits(n)) == n
  {
    var s := Digits(n);
    if n < 10 {
      assert NumberOf(s[..0]) == 0;
    } else {
      DigitsRoundTrip(n / 10);
      assert s[..|s| - 1] == Digits(n / 10);
    }
  }

  /** The account name itself, then numbered ones. */
  function Candidate(base: string, n: nat): string {
    if n == 0 then base else base + "_" + Digits(n)
  }

  lemma CandidatesDiffer(base: string, m: nat, n: nat)
    requires m < n
    ensures Candidate(base, m) != Candidate(base, n)
  {
    DigitsRoundTrip(m);
    DigitsRoundTrip(n);
    if m > 0 {
      assert Candidate(base, m)[|base| + 1..] == Digits(m) && Candidate(base, n)[|base| + 1..] == Digits(n);
    }
  }

  function KnownIds(files: Files): set<string> {
    (set p | p in files && p.Node? :: p.id) + (set p | p in files && p.Native? :: p.id) + {LEGACY}
  }

  function Candidates(base: string, n: nat): (r: set<string>)
  {
    if n == 0 then {} else Candidates(base, n - 1) + {Candidate(base, n - 1)}
  }

  lemma {:induction false} CandidatesCount(base: string, n: nat, m: nat)
    requires n <= m
    ensures |Candidates(base, n)| == n && Candidate(base, m) !in Candidates(base, n)
  {
    if n > 0 {
      CandidatesCount(base, n - 1, m);
      CandidatesCount(base, n - 1, n - 1);
      CandidatesDiffer(base, n - 1, m);
    }
  }

  lemma SubsetCount<T>(a: set<T>, b: set<T>)
    requires a <= b
    ensures |a| <= |b|
  {
    assert b == a + (b - a);
  }

  predicate Taken(files: Files, reserved: set<string>, id: string) {
    Known(files, id) || id in reserved
  }

  predicate AllTaken(files: Files, reserved: set<string>, base: string, n: nat) {
    forall m :: 0 <= m < n ==> Taken(files, reserved, Candidate(base, m))
  }

  /** Only so many names are taken, so the search for a free one ends. */
  lemma TakenBound(files: Files, reserved: set<string>, base: string, n: nat)
    requires AllTaken(files, reserved, base, n)
    ensures n <= |KnownIds(files) + reserved|
  {
    TakenSubset(files, reserved, base, n);
    CandidatesCount(base, n, n);
    SubsetCount(Candidates(base, n), KnownIds(files) + reserved);
  }

  lemma {:induction false} TakenSubset(files: Files, reserved: set<string>, base: string, n: nat)
    requires AllTaken(files, reserved, base, n)
    ensures Candidates(base, n) <= KnownIds(files) + reserved
  {
    if n > 0 {
      TakenSubset(files, reserved, base, n - 1);
      assert Taken(files, reserved, Candidate(base, n - 1));
    }
  }

  // ---- The repository as the program runs it ----

  /** How an operation ended: `Refused` leaves it journaled with an error, `Died` means that the
      process died at a step. */
  datatype End = Completed | Refused | Died

  /** From s the replay steps lead to t. */
  ghost predicate Replayed(s: State, steps: seq<Step>, t: State) {
    Runs(s, steps) && AllReplay(steps) && After(s, steps) == t
  }

  lemma Extend(s: State, steps: seq<Step>, t: State, step: Step)
    requires Replayed(s, steps, t) && Enabled(t, step) && Replays(step)
    ensures Replayed(s, steps + [step], Next(t, step))
  {
    assert (steps + [step])[..|steps|] == steps;
  }

  lemma {:induction false} Join(s: State, a: seq<Step>, t: State, b: seq<Step>, u: State)
    requires Replayed(s, a, t) && Replayed(t, b, u)
    ensures Replayed(s, a + b, u)
  {
    if b == [] {
      assert a + b == a;
    } else {
      var init := b[..|b| - 1];
      Join(s, a, t, init, After(t, init));
      Extend(s, a + init, After(t, init), b[|b| - 1]);
      assert a + b == (a + init) + [b[|b| - 1]];
    }
  }

  lemma ReplayedReady(s: State, steps: seq<Step>, t: State)
    requires Ready(s) && Replayed(s, steps, t)
    ensures Ready(t)
  {
    RunsKeepReady(s, steps);
  }

  predicate DiedWithin(dies: nat -> bool, from: nat, to: nat) {
    exists n: nat :: from <= n < to && dies(n)
  }

  lemma ListedNext(ids: set<string>, order: seq<string>, k: nat)
    requires Listed(ids, order, k) && k < |order|
    ensures order[k] in ids && Listed(ids - {order[k]}, order, k + 1)
  {
  }

  lemma ListedEnd(ids: set<string>, order: seq<string>)
    requires Listed(ids, order, |order|)
    ensures ids == {}
  {
  }

  /** The order holds each of these ids once from position k on. */
  predicate Listed(ids: set<string>, order: seq<string>, k: nat) {
    && (forall i :: k <= i < |order| ==> order[i] in ids)
    && (forall i, j :: k <= i < j < |order| ==> order[i] != order[j])
    && (forall id :: id in ids ==> exists i :: k <= i < |order| && order[i] == id)
  }

  class Repository {
    var files: Files
    var accounts: seq<Entry>
    var groups: seq<Group>
    var work: seq<Work>
    var peers: set<string>
    var journal: map<string, Op>
    var tick: nat

    /** What is stored, with a pending file still to be removed by the running operation. */
    ghost function Value(todo: Option<string>): State
      reads this
    {
      State(files, accounts, groups, work, peers, journal, todo)
    }

    constructor (files: Files, accounts: seq<Entry>, groups: seq<Group>, work: seq<Work>, peers: set<string>)
      ensures Value(None) == State(files, accounts, groups, work, peers, map[], None)
    {
      this.files, this.accounts, this.groups, this.work, this.peers := files, accounts, groups, work, peers;
      journal, tick := map[], 0;
    }

    /** The process may die here. */
    method Dies(dies: nat -> bool) returns (dead: bool)
      modifies this`tick
      ensures tick == old(tick) + 1 && dead == dies(old(tick))
    {
      dead := dies(tick);
      tick := tick + 1;
    }

    method CommitConfig(op: Op)
      modifies this`accounts, this`groups, this`work, this`peers, this`journal
      ensures Value(if op.Add? then Some(op.source) else None) == Committed(old(Value(None)), op)
    {
      var list: seq<Entry> := [];
      for k := 0 to |accounts|
        invariant list == Without(accounts[..k], op.id)
      {
        assert accounts[..k + 1][..k] == accounts[..k];
        if accounts[k].Stray? || accounts[k].id != op.id {
          list := list + [accounts[k]];
        }
      }
      assert accounts[..|accounts|] == accounts;
      if op.Add? {
        list := list + [Account(op.id, op.meta)];
      }
      accounts := list;
      if op.Remove? {
        groups := Unpin(groups, op.id);
        work := FailWork(work, op.id);
        peers := peers - {op.id};
      }
      journal := journal - {op.id};
    }

    static method Unpin(before: seq<Group>, id: string) returns (groups: seq<Group>)
      ensures groups == Unpinned(before, id)
    {
      groups := before;
      for k := 0 to |before|
        invariant |groups| == |before|
        invariant forall n :: 0 <= n < |before| ==> groups[n] == if n < k then Unpinned(before, id)[n] else before[n]
      {
        if groups[k].pin == Some(id) {
          groups := groups[k := groups[k].(pin := None)];
        }
      }
    }

    static method FailWork(before: seq<Work>, id: string) returns (work: seq<Work>)
      ensures work == FailedWork(before, id)
    {
      work := before;
      for k := 0 to |before|
        invariant |work| == |before|
        invariant forall n :: 0 <= n < |before| ==> work[n] == if n < k then FailedWork(before, id)[n] else before[n]
      {
        if work[k].account == id && work[k].status == Open {
          work := work[k := work[k].(status := Failed)];
        }
      }
    }

    /** `apply` of a journaled operation: it is never refused, and what it did so far, wherever it
        stopped, is a run of replay steps. */
    method Apply(op: Op, dies: nat -> bool) returns (end: End, ghost steps: seq<Step>)
      requires Ready(Value(None)) && op.id in journal && journal[op.id] == op
      modifies this
      ensures Replayed(old(Value(None)), steps, Value(None))
      ensures end == Completed || (end == Died && DiedWithin(dies, old(tick), tick))
      ensures end == Completed ==> journal == old(journal) - {op.id}
      ensures tick >= old(tick)
    {
      ghost var s := Value(None);
      assert OpReady(s, op.id);
      if !SafeId(op.id) {
        return Refused, [];
      }
      if op.Add? {
        end, steps := Publication(op, dies);
      } else {
        end, steps := Removal(op, dies);
      }
      if end == Died {
        return;
      }
      ghost var t, more := Value(None), [];
      end, more := Completion(op, dies);
      Join(s, steps, t, more, Value(None));
      steps := steps + more;
    }

    /** The transaction, then the pending file. */
    method Completion(op: Op, dies: nat -> bool) returns (end: End, ghost steps: seq<Step>)
      requires op.id in journal && journal[op.id] == op && Enabled(Value(None), Commit(op.id))
      modifies this
      ensures Replayed(old(Value(None)), steps, Value(None))
      ensures end == Completed || (end == Died && DiedWithin(dies, old(tick), tick))
      ensures end == Completed ==> journal == old(journal) - {op.id}
      ensures tick >= old(tick)
    {
      ghost var s := Value(None);
      steps := [];
      var dead := Dies(dies);
      if dead {
        return Died, steps;
      }
      Extend(s, steps, s, Commit(op.id));
      steps := steps + [Commit(op.id)];
      CommitConfig(op);
      if op.Add? {
        ghost var t := Value(Some(op.source));
        dead := Dies(dies);
        if dead {
          Extend(s, steps, t, Crash);
          return Died, steps + [Crash];
        }
        Extend(s, steps, t, DropSource);
        files := files - {Pending(op.source)};
        steps := steps + [DropSource];
      }
      end := Completed;
    }

    /** The file part of an addition: link the pending session unless the target is there. */
    method Publication(op: Op, dies: nat -> bool) returns (end: End, ghost steps: seq<Step>)
      requires Ready(Value(None)) && op.id in journal && journal[op.id] == op && op.Add?
      modifies this`files, this`tick
      ensures Replayed(old(Value(None)), steps, Value(None))
      ensures end == Completed || (end == Died && DiedWithin(dies, old(tick), tick))
      ensures end == Completed ==> Enabled(Value(None), Commit(op.id))
      ensures tick >= old(tick)
    {
      ghost var s := Value(None);
      assert OpReady(s, op.id);
      steps := [];
      var target := Native(op.id);
      if target !in files {
        if !Matches(files, Pending(op.source), op.digest) {
          return Refused, steps;
        }
        var dead := Dies(dies);
        if dead {
          return Died, steps;
        }
        Extend(s, steps, Value(None), Link(op.id));
        files := files[target := files[Pending(op.source)]];
        steps := steps + [Link(op.id)];
      }
      if !Matches(files, target, op.digest) {
        return Refused, steps;
      }
      end := Completed;
    }

    /** The file part of a removal. */
    method Removal(op: Op, dies: nat -> bool) returns (end: End, ghost steps: seq<Step>)
      requires Ready(Value(None)) && op.id in journal && journal[op.id] == op && op.Remove?
      modifies this`files, this`tick
      ensures Replayed(old(Value(None)), steps, Value(None))
      ensures end == Completed || (end == Died && DiedWithin(dies, old(tick), tick))
      ensures end == Completed ==> Enabled(Value(None), Commit(op.id))
      ensures tick >= old(tick)
    {
      ghost var s := Value(None);
      assert OpReady(s, op.id);
      steps := [];
      for k := 0 to |op.files|
        invariant Replayed(s, steps, Value(None)) && journal == s.journal
        invariant forall n :: 0 <= n < k ==> op.files[n] !in files
        invariant tick >= old(tick)
      {
        if !Belongs(op.files[k], op.id) {
          return Refused, steps;
        }
        var dead := Dies(dies);
        if dead {
          return Died, steps;
        }
        Extend(s, steps, Value(None), Unlink(op.id, op.files[k]));
        files := files - {op.files[k]};
        steps := steps + [Unlink(op.id, op.files[k])];
      }
      end := Completed;
    }

    method Replay(id: string, dies: nat -> bool) returns (end: End, ghost steps: seq<Step>)
      requires Ready(Value(None)) && id in journal
      modifies this
      ensures Replayed(old(Value(None)), steps, Value(None)) && Ready(Value(None))
      ensures end == Completed || (end == Died && DiedWithin(dies, old(tick), tick))
      ensures end == Completed ==> journal == old(journal) - {id}
      ensures tick >= old(tick)
    {
      ghost var s := Value(None);
      assert OpReady(s, id);
      end, steps := Apply(journal[id], dies);
      ReplayedReady(s, steps, Value(None));
    }

    /** `Recover`: replays the journal; unless the process dies again nothing stays journaled. */
    method Recover(order: seq<string>, dies: nat -> bool) returns (end: End, ghost steps: seq<Step>)
      requires Ready(Value(None)) && Listed(journal.Keys, order, 0)
      modifies this
      ensures Replayed(old(Value(None)), steps, Value(None))
      ensures end == Completed || (end == Died && DiedWithin(dies, old(tick), tick))
      ensures end == Completed ==> journal == map[]
      ensures Ready(Value(None))
    {
      ghost var s := Value(None);
      steps := [];
      for k := 0 to |order|
        invariant Replayed(s, steps, Value(None)) && Ready(Value(None))
        invariant Listed(journal.Keys, order, k)
        invariant tick >= old(tick)
      {
        ListedNext(journal.Keys, order, k);
        ghost var here, more := Value(None), [];
        end, more := Replay(order[k], dies);
        Join(s, steps, here, more, Value(None));
        steps := steps + more;
        if end != Completed {
          return;
        }
        assert journal.Keys == here.journal.Keys - {order[k]};
      }
      ListedEnd(journal.Keys, order);
      end := Completed;
    }

    /** The name of a new account: the first free one; a chosen label is never numbered. */
    method PickId(base: string, labelled: bool, reserved: set<string>) returns (id: Option<string>)
      ensures id.Some? ==>
                && SafeId(id.value) && !Taken(files, reserved, id.value) && (labelled ==> id.value == base)
                && exists n: nat :: id.value == Candidate(base, n) && AllTaken(files, reserved, base, n)
      ensures id.None? ==>
                Ambiguous(files) || (labelled && Taken(files, reserved, base)) || exists n: nat ::
                  !SafeId(Candidate(base, n))
    {
      if Ambiguous(files) {
        return None;
      }
      var n: nat := 0;
      while true
        invariant AllTaken(files, reserved, base, n) && (labelled ==> n == 0)
        decreases |KnownIds(files) + reserved| - n
      {
        var candidate := Candidate(base, n);
        if !SafeId(candidate) {
          return None;
        }
        if !Known(files, candidate) && candidate !in reserved {
          return Some(candidate);
        }
        if labelled {
          return None;
        }
        n := n + 1;
        TakenBound(files, reserved, base, n);
      }
    }

    /** `Publish`: before the journal row is written a failure removes the pending file, after it
        the operation is in the journal or done. */
    method Publish(base: string, labelled: bool, reserved: set<string>, source: string, digest: nat, meta: nat,
                   authorized: bool, dies: nat -> bool)
        returns (id: Option<string>, end: End, ghost steps: seq<Step>)
      requires Ready(Value(None)) && !UsesSource(Value(None), source)
      modifies this
      ensures Ready(Value(None))
      ensures id.None? ==>
                files == old(files) - {Pending(source)} && Value(None) == old(Value(None)).(files := files) &&
                end == Refused
      ensures id.Some? ==>
                var op := Add(id.value, source, digest, meta);
                && Enabled(old(Value(None)), Record(op)) && !Taken(old(files), reserved, id.value)
                && (labelled ==> id.value == base)
                && Replayed(Next(old(Value(None)), Record(op)), steps, Value(None))
                && (end == Completed ==> journal == old(journal))
                && (end == Completed || end == Died)
    {
      ghost var s := Value(None);
      steps := [];
      if authorized {
        id := PickId(base, labelled, reserved);
        if id.Some? && Matches(files, Pending(source), digest) && id.value !in journal {
          var op := Add(id.value, source, digest, meta);
          assert Enabled(s, Record(op));
          StepKeepsReady(s, Record(op));
          journal := journal[id.value := op];
          ghost var recorded := Value(None);
          end, steps := Apply(op, dies);
          ReplayedReady(recorded, steps, Value(None));
          assert end == Completed ==> journal == s.journal;
          return;
        }
      }
      files := files - {Pending(source)};
      PendingGone(s, source);
      return None, Refused, steps;
    }

    /** `Remove`: an unknown account is refused, everything else is journaled first. */
    method RemoveAccount(id: string, dies: nat -> bool) returns (end: End, ghost steps: seq<Step>)
      requires Ready(Value(None))
      modifies this
      ensures Ready(Value(None))
      ensures end == Refused <==> !SafeId(id) || Ambiguous(old(files)) || !Known(old(files), id) || id in old(journal)
      ensures end == Refused ==> Value(None) == old(Value(None))
      ensures end != Refused ==>
                var op := Remove(id, RemovalFiles(old(files), id));
                && Enabled(old(Value(None)), Record(op))
                && Replayed(Next(old(Value(None)), Record(op)), steps, Value(None))
                && (end == Completed ==> journal == old(journal))
    {
      ghost var s := Value(None);
      if !SafeId(id) || Ambiguous(files) || !Known(files, id) || id in journal {
        return Refused, [];
      }
      var names := [Node(id), Native(id)];
      if id == LEGACY && LegacyVisible(files) && Node(id) !in files {
        names := names + [Legacy];
        if Marker in files {
          names := names + [Marker];
        }
      }
      var op := Remove(id, names);
      assert names == RemovalFiles(files, id);
      assert Enabled(s, Record(op));
      StepKeepsReady(s, Record(op));
      journal := journal[id := op];
      ghost var recorded := Value(None);
      end, steps := Apply(op, dies);
      ReplayedReady(recorded, steps, Value(None));
      assert end == Completed ==> journal == s.journal;
    }
  }

  /** A pending file that no journaled addition needs may go. */
  lemma PendingGone(s: State, source: string)
    requires Ready(s) && !UsesSource(s, source)
    ensures Ready(s.(files := s.files - {Pending(source)}))
  {
    var t := s.(files := s.files - {Pending(source)});
    forall id | id in t.journal ensures OpReady(t, id) {
      assert OpReady(s, id);
    }
  }
}
