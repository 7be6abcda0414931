/** One auto-forward job (core-service/internal/app/forward.go, `forward` and `forwardToRoute`).

    Telegram, the account gate, the disk and the settings answer through an oracle: the n-th
    question of a run gets `oracle(n)`. Every request that reached Telegram for a destination is
    kept, with its outcome, in the destination's history. */
module ForwardDelivery {

  // ---- Telegram ----

  /** How the client library ends a request. A caption edit is refused in two ways that the caller
      cannot tell apart: before Telegram was asked (not connected, destination not resolved), or by
      Telegram, after which the library has `removed` the message. `Unresolved` is the error for
      an accepted forward whose caption could not be edited and whose copy could not be removed;
      its id is 0 when Telegram's answer did not name the message. */
  datatype Reply =
    | Accepted(id: nat)
    | Rejected(permanent: bool, removed: bool)
    | Flood(removed: bool)
    | NotRunning
    | Lost
    | Unresolved(id: nat)

  /** `Native` forwards the source message (and edits its caption when `edit`), `Edit` changes
      the caption of a message posted earlier, `Upload` posts the local file. */
  datatype Request = Native(edit: bool) | Edit | Upload

  datatype Exchange = Exchange(request: Request, reply: Reply)

  type History = seq<Exchange>

  /** Upper bound on the copies at one destination after an exchange. */
  function CopiesAfter(n: nat, e: Exchange): nat {
    match e.reply
    case Accepted(_) => if e.request.Edit? then n else n + 1
    case Lost => if e.request.Edit? then n else n + 1
    case NotRunning => n
    case Unresolved(_) => if e.request == Native(true) then n + 1 else n
    case Rejected(_, removed) => if e.request.Edit? && removed then 0 else n
    case Flood(removed) => if e.request.Edit? && removed then 0 else n
  }

  function Copies(h: History): nat {
    if h == [] then 0 else CopiesAfter(Copies(h[..|h| - 1]), h[|h| - 1])
  }

  /** At no moment could two copies be at the destination, and no new delivery was ever asked for
      while one could be there. */
  predicate AtMostOne(h: History) {
    h == [] || (AtMostOne(h[..|h| - 1]) && Copies(h) <= 1 && (h[|h| - 1].request.Edit? || Copies(h[..|h| - 1]) == 0))
  }

  lemma {:induction false} AtMostOneAlways(h: History, n: nat)
    requires AtMostOne(h) && n <= |h|
    ensures AtMostOne(h[..n]) && Copies(h[..n]) <= 1
    ensures n < |h| ==> h[n].request.Edit? || Copies(h[..n]) == 0
  {
    if n < |h| {
      assert h[..|h| - 1][..n] == h[..n];
      AtMostOneAlways(h[..|h| - 1], n);
      assert n < |h| - 1 ==> h[..|h| - 1][n] == h[n];
    } else {
      assert h[..n] == h;
    }
  }

  /** Refused with nothing touched. */
  predicate RefusedBefore(reply: Reply) {
    (reply.Rejected? || reply.Flood?) && !reply.removed
  }

  predicate HasAccepted(h: History) {
    exists n :: 0 <= n < |h| && h[n].reply.Accepted?
  }

  // ---- Jobs ----

  datatype Status = Pending | Processing | Forwarded | Uncertain | Failed

  datatype RowStatus = RowPending | RowProcessing | RowForwarded | RowFailed | RowInterrupted | RowUncertain
    | RowNotApplicable

  datatype Stage = Metadata | Available | ScanDirect | NativeForward | UploadStage | FallbackDownload | FallbackUpload
    | CaptionEditFailed | Complete

  /** One destination's saved settings. `indexed`: the lookup by trimmed address finds this
      record; otherwise it finds none (ForwardSnapshot.LookupNeverElsewhere). */
  datatype Settings = Settings(protect: bool, custom: bool, emptyCaption: bool, captionError: bool, indexed: bool)

  /** `confirmed`: an operator declared this destination delivered. */
  datatype Dest = Dest(settings: Settings, status: Status, directFailed: bool, messageId: nat, confirmed: bool,
                       history: History)

  /** The settings snapshot of a job. `scanDirect`: scan route direct or both. */
  datatype Config = Config(enabled: bool, scanDirect: bool, directForward: bool, deleteAfter: bool, hasMessage: bool,
                           hasSource: bool, routes: seq<Settings>) {
    /** Captions may be set on a natively forwarded message. */
    predicate DirectCaptions() {
      scanDirect || (directForward && deleteAfter)
    }
  }

  /** Everything of a job that changes while it runs, besides its destinations. */
  datatype Progress = Progress(stage: Stage, hasPath: bool, hasRecord: bool, noAutoRetry: bool, waitForEngine: bool,
                               retryBeforeSend: bool, cancelled: bool, deleted: bool, tick: nat)

  datatype Job = Job(config: Config, dests: seq<Dest>, attempts: nat, at: Progress)

  datatype Access = Free | Blocked | Due | Unreadable

  /** `Unissued`: the account limit could not be read, or no native sender exists. */
  datatype Gate = Open | Cancelled | Unissued

  datatype Answer = Answer(config: bool, live: bool, access: Access, gate: Gate, reply: Reply, local: bool,
                           download: bool, dies: bool)

  type Oracle = nat -> Answer

  /** One question was answered; the worker's context may have ended meanwhile. */
  function Asked(p: Progress, a: Answer): Progress {
    p.(tick := p.tick + 1, cancelled := p.cancelled || a.dies)
  }

  /** A question put after waiting for the account gate. */
  function Gated(p: Progress, a: Answer): Progress {
    p.(tick := p.tick + 1, cancelled := p.cancelled || a.dies || a.gate == Cancelled)
  }

  /** An update of the record that the lookup finds, if it finds one. */
  function Mark(d: Dest, marked: Dest): Dest {
    if d.settings.indexed then marked else d
  }

  function Sent(d: Dest, request: Request, reply: Reply): Dest {
    d.(history := d.history + [Exchange(request, reply)])
  }

  predicate HasUncertain(dests: seq<Dest>) {
    exists i :: 0 <= i < |dests| && dests[i].status == Uncertain
  }

  // ---- forwardToRoute ----

  predicate DirectCaption(c: Config, s: Settings, p: Progress) {
    s.custom && (c.scanDirect || p.stage == CaptionEditFailed ||
                 (!p.hasPath && c.directForward && c.deleteAfter && !s.protect))
  }

  predicate NativeApplies(c: Config, s: Settings, p: Progress) {
    (!p.hasPath || p.stage == NativeForward || p.stage == CaptionEditFailed) && (!s.custom || DirectCaption(c, s, p)) &&
    !s.protect && c.hasMessage
  }

  function KnownId(d: Dest): nat {
    if d.settings.indexed then d.messageId else 0
  }

  /** The caption is set by an edit; an empty caption on a new message is dropped instead. */
  predicate EditsCaption(c: Config, d: Dest, p: Progress) {
    DirectCaption(c, d.settings, p) && !(d.settings.emptyCaption && KnownId(d) == 0)
  }

  function NativeRequest(edits: bool, known: nat): Request {
    if edits && known > 0 then Edit else Native(edits)
  }

  /** The message id that comes back; an edit answers with the id it was given. */
  function ReportedId(request: Request, known: nat, reply: Reply): nat {
    match reply
    case Accepted(id) => if request.Edit? then known else id
    case Unresolved(id) => if request.Edit? then known else if request == Native(true) then id else 0
    case _ => 0
  }

  /** One destination being served. */
  datatype Leg = Leg(d: Dest, p: Progress)

  datatype Next = Return(ok: bool) | TryDownload | TryUpload

  /** What the native request's answer does to the record, ... */
  function NativeDest(d: Dest, id: nat, reply: Reply): Dest {
    var known := d.(messageId := if id > 0 then id else d.messageId);
    Mark(d, match reply
            case Accepted(_) => known.(directFailed := false)
            case NotRunning => known.(status := Pending, directFailed := false)
            case Lost => known.(status := Uncertain, directFailed := true)
            case _ => known.(directFailed := true))
  }

  predicate Permanent(reply: Reply) {
    reply.Rejected? && reply.permanent
  }

  /** ... and to the job. */
  function NativeProgress(p: Progress, id: nat, reply: Reply): (r: (Progress, Next))
    ensures r.0.hasPath == p.hasPath && (r.1.TryDownload? ==> !p.hasPath)
  {
    match reply
    case Accepted(_) => (p, Return(true))
    case NotRunning => (p.(waitForEngine := true), Return(false))
    case _ =>
      var noted := p.(noAutoRetry := p.noAutoRetry || Permanent(reply));
      if p.hasPath then (noted.(stage := FallbackUpload), TryUpload)
      else if id > 0 || reply.Lost? then (noted, Return(false))
      else (noted.(stage := FallbackDownload), TryDownload)
  }

  function NativeOutcome(d: Dest, p: Progress, id: nat, reply: Reply): (Leg, Next) {
    var (q, next) := NativeProgress(p, id, reply);
    (Leg(NativeDest(d, id, reply), q), next)
  }

  /** The native attempt: gate, request, record, and what follows. */
  function NativeStep(c: Config, l: Leg, a: Answer): (r: (Leg, Next))
    ensures r.0.p.hasPath == l.p.hasPath && (r.1.TryDownload? ==> !l.p.hasPath)
  {
    if DirectCaption(c, l.d.settings, l.p) && l.d.settings.captionError then (l, Return(false))
    else
      var request := NativeRequest(EditsCaption(c, l.d, l.p), KnownId(l.d));
      var p := Gated(l.p, a);
      if a.gate == Open then NativeOutcome(Sent(l.d, request, a.reply), p, ReportedId(request, KnownId(l.d), a.reply),
                                           a.reply)
      else NativeUnsent(l.d, p, a.gate)
  }

  /** No request was made: the context ended while waiting, or there is no limit or no sender. */
  function NativeUnsent(d: Dest, p: Progress, gate: Gate): (Leg, Next) {
    if gate == Cancelled then (Leg(Mark(d, d.(status := Pending, directFailed := false)),
                                   p.(retryBeforeSend := p.retryBeforeSend || d.settings.indexed)), Return(false))
    else
      var failed := Mark(d, d.(directFailed := true));
      if p.hasPath then (Leg(failed, p.(stage := FallbackUpload)), TryUpload)
      else (Leg(failed, p.(stage := FallbackDownload)), TryDownload)
  }

  /** Fetches the source media for an upload; false when that is not possible. */
  function DownloadStep(c: Config, p: Progress, a: Answer): (Progress, bool) {
    if !c.hasMessage || !c.hasSource || !a.download then (Asked(p, a).(stage := FallbackDownload), false)
    else (Asked(p, a).(hasRecord := true, hasPath := true, stage := FallbackUpload), true)
  }

  datatype Sending = NotSent | Answered(reply: Reply)

  /** Upload attempts, repeated after a flood wait up to `limit` times. */
  function SendLoop(l: Leg, attempt: nat, limit: nat, oracle: Oracle): (r: (Leg, Sending))
    ensures r.0.d.settings == l.d.settings && r.0.p.stage == l.p.stage && r.0.p.hasPath == l.p.hasPath &&
            r.0.p.deleted == l.p.deleted
    decreases limit - attempt
  {
    var a := oracle(l.p.tick);
    var p := Gated(l.p, a);
    match a.gate
    case Cancelled => (Leg(Mark(l.d, l.d.(status := Pending)), p.(retryBeforeSend := true)), NotSent)
    case Unissued => (Leg(l.d, p), NotSent)
    case Open =>
      var sent := Leg(Sent(l.d, Upload, a.reply), p);
      if a.reply.Flood? && attempt < limit then SendLoop(sent, attempt + 1, limit, oracle)
      else (sent, Answered(a.reply))
  }

  /** What the last upload answer does to the record and the job. */
  function UploadOutcome(l: Leg, deleteAfter: bool, reply: Reply): (Leg, bool) {
    match reply
    case Accepted(_) => (l.(p := l.p.(deleted := l.p.deleted || deleteAfter)), true)
    case NotRunning =>
      (Leg(Mark(l.d, l.d.(status := Pending, directFailed := false)), l.p.(waitForEngine := true)), false)
    case Lost => (if l.p.cancelled then l else l.(d := Mark(l.d, l.d.(status := Uncertain))), false)
    case Rejected(permanent, _) =>
      (if l.p.cancelled then l else l.(p := l.p.(noAutoRetry := l.p.noAutoRetry || permanent)), false)
    case Flood(_) => (l, false)
    case Unresolved(_) => (l, false)
  }

  function UploadStep(l: Leg, deleteAfter: bool, limit: nat, oracle: Oracle): (Leg, bool) {
    var a := oracle(l.p.tick);
    var ready := l.(p := Asked(l.p, a));
    if !a.local || l.d.settings.captionError then (ready, false)
    else
      var (k, sending) := SendLoop(ready, 1, limit, oracle);
      match sending
      case NotSent => (k, false)
      case Answered(reply) => UploadOutcome(k, deleteAfter, reply)
  }

  /** `forwardToRoute`: access check, native attempt, fallback download, upload. */
  function ToRoute(c: Config, l: Leg, deleteAfter: bool, limit: nat, oracle: Oracle): (Leg, bool)
    decreases !l.p.hasPath, 2
  {
    var a := oracle(l.p.tick);
    var checked := l.(p := Asked(l.p, a));
    if a.access == Unreadable || a.access == Blocked then (checked, false)
    else if !NativeApplies(c, l.d.settings, l.p) then UploadStep(checked, deleteAfter, limit, oracle)
    else AfterNative(c, NativeStep(c, checked, oracle(checked.p.tick)), deleteAfter, limit, oracle)
  }

  /** What follows a native attempt: nothing, the upload, or a fresh start with the fetched media. */
  function AfterNative(c: Config, step: (Leg, Next), deleteAfter: bool, limit: nat, oracle: Oracle): (Leg, bool)
    requires step.1.TryDownload? ==> !step.0.p.hasPath
    decreases !step.0.p.hasPath, 1
  {
    var (k, next) := step;
    match next
    case Return(ok) => (k, ok)
    case TryUpload => UploadStep(k, deleteAfter, limit, oracle)
    case TryDownload => Refetched(c, k, deleteAfter, limit, oracle)
  }

  /** The fallback download and, with the media, the fresh start. */
  function Refetched(c: Config, l: Leg, deleteAfter: bool, limit: nat, oracle: Oracle): (Leg, bool)
    requires !l.p.hasPath
    decreases !l.p.hasPath, 0
  {
    var (p, ok) := DownloadStep(c, l.p, oracle(l.p.tick));
    if ok then ToRoute(c, l.(p := p), deleteAfter, limit, oracle) else (l.(p := p), false)
  }

  // ---- forward ----

  predicate UploadOnly(c: Config, stage: Stage, s: Settings) {
    !(stage == CaptionEditFailed && s.custom) && (s.protect || (s.custom && !c.DirectCaptions()))
  }

  predicate NeedsUpload(c: Config, stage: Stage, dests: seq<Dest>) {
    exists k :: 0 <= k < |dests| && UploadOnly(c, stage, dests[k].settings)
  }

  /** A caption edit cannot be repeated safely without the message it belongs to. */
  predicate UnsafeCaptionEdit(stage: Stage, dests: seq<Dest>) {
    stage == CaptionEditFailed && exists k :: 0 <= k < |dests| && LacksMessage(dests[k])
  }

  predicate LacksMessage(d: Dest) {
    d.status != Forwarded && d.settings.custom && d.messageId == 0
  }

  function Fresh(routes: seq<Settings>): seq<Dest> {
    seq(|routes|, i requires 0 <= i < |routes| => Dest(routes[i], Pending, false, 0, false, []))
  }

  predicate Served(d: Dest) {
    d.status == Forwarded || d.status == Uncertain
  }

  /** The record of a destination whose delivery did not succeed. */
  function Unserved(d: Dest, p: Progress): Dest {
    if d.status != Uncertain && !p.waitForEngine && !p.retryBeforeSend then d.(status := Failed) else d
  }

  predicate DeletesAfter(j: Job, i: nat) {
    j.at.hasRecord && j.config.deleteAfter && i + 1 == |j.dests|
  }

  /** The destinations one after another, up to the first that fails. */
  function Deliver(j: Job, i: nat, limit: nat, oracle: Oracle): (Job, RowStatus)
    requires i <= |j.dests|
    decreases |j.dests| - i
  {
    if i == |j.dests| then (j.(at := j.at.(stage := Complete)), RowForwarded)
    else if Served(j.dests[i]) then Deliver(j, i + 1, limit, oracle)
    else
      var (k, ok) := Serve(j, i, limit, oracle);
      if ok then Deliver(k, i + 1, limit, oracle) else (k, RowFailed)
  }

  /** One destination of the job. */
  function Serve(j: Job, i: nat, limit: nat, oracle: Oracle): (r: (Job, bool))
    requires i < |j.dests|
    ensures |r.0.dests| == |j.dests|
  {
    var (l, ok) := ToRoute(j.config, Leg(j.dests[i].(status := Processing), j.at), DeletesAfter(j, i), limit, oracle);
    (j.(dests := j.dests[i := if ok then l.d.(status := Forwarded) else Unserved(l.d, l.p)], at := l.p), ok)
  }

  function FirstStage(j: Job, upload: bool): Stage {
    if j.at.stage == CaptionEditFailed then CaptionEditFailed
    else if upload || j.at.hasPath then UploadStage else NativeForward
  }

  /** From the route list to the deliveries. */
  function Prepared(j: Job, limit: nat, oracle: Oracle): (Job, RowStatus) {
    var upload := NeedsUpload(j.config, j.at.stage, j.dests);
    if UnsafeCaptionEdit(j.at.stage, j.dests) then (j, RowFailed)
    else if upload && !j.at.hasPath then
      var (p, ok) := DownloadStep(j.config, j.at, oracle(j.at.tick));
      if ok then Deliver(j.(at := p.(stage := UploadStage)), 0, limit, oracle) else (j.(at := p), RowFailed)
    else Deliver(j.(at := j.at.(stage := FirstStage(j, upload))), 0, limit, oracle)
  }

  /** The body of `forward`, before its deferred bookkeeping. */
  function Body(start: Job, limit: nat, oracle: Oracle): (Job, RowStatus) {
    var a := oracle(start.at.tick);
    var j := start.(at := Asked(start.at, a));
    if !a.config then (j, RowFailed)
    else if j.at.stage != Available && !a.live && j.at.stage != ScanDirect then (j, RowNotApplicable)
    else if !j.config.enabled || j.config.routes == [] then (j, RowNotApplicable)
    else if a.access != Free then (j, RowFailed)
    else Prepared(if |j.dests| != |j.config.routes| then j.(dests := Fresh(j.config.routes)) else j, limit, oracle)
  }

  function Less(n: nat): nat {
    if n > 0 then n - 1 else 0
  }

  /** The deferred bookkeeping: attempts and the row status that is recorded. */
  function Settle(j: Job, status: RowStatus): (Job, RowStatus) {
    var p := j.at;
    var waits := p.waitForEngine && !p.cancelled;
    var n2 := if waits then Less(j.attempts) else j.attempts;
    var n3 := if p.retryBeforeSend then Less(n2) else n2;
    var s3 := if p.cancelled then RowInterrupted else if waits || p.retryBeforeSend then RowPending else status;
    var s4 := if HasUncertain(j.dests) then RowUncertain else s3;
    (j.(attempts := n3), if s4 == RowFailed && n3 < 3 && !p.noAutoRetry then RowPending else s4)
  }

  /** One worker run of a claimed job. */
  function Run(j: Job, limit: nat, oracle: Oracle): (Job, RowStatus) {
    var (k, status) := Body(j.(attempts := j.attempts + 1), limit, oracle);
    Settle(k, status)
  }

  // ---- The parallel direct forward (directForwardNow and its outcome in ingest.go) ----

  /** How the direct forward ended: `NoRequest` before a request, the others after one. */
  datatype DirectEnd = AllSent | NoRequest | Refused | CaptionUnresolved

  /** One direct request and its record; the record is found by position here. */
  function DirectRecord(d: Dest, reply: Reply): Dest {
    var sent := Sent(d, Native(d.settings.custom),
                     reply).(messageId := ReportedId(Native(d.settings.custom), 0, reply));
    match reply
    case Accepted(_) => sent.(status := Forwarded, directFailed := false)
    case Lost => sent.(status := Uncertain, directFailed := true)
    case _ => sent.(status := Processing, directFailed := true)
  }

  datatype DirectMove = Go | Stop(end: DirectEnd)

  function DirectStep(j: Job, i: nat, a: Answer): (Job, DirectMove)
    requires i < |j.dests|
  {
    var p := Gated(j.at, a);
    if a.gate != Open then (j.(at := p), Stop(NoRequest))
    else
      var dests := j.dests[i := DirectRecord(j.dests[i], a.reply)];
      if a.reply.Accepted? then (j.(dests := dests, at := p), Go)
      else if a.reply.Unresolved? then
             (j.(dests := dests, at := p.(stage := CaptionEditFailed)), Stop(CaptionUnresolved))
      else (j.(dests := dests, at := p.(stage := FallbackDownload)), Stop(Refused))
  }

  function DirectNow(j: Job, i: nat, oracle: Oracle): (Job, DirectEnd)
    requires i <= |j.dests|
    decreases |j.dests| - i
  {
    if i == |j.dests| then (j, AllSent)
    else if j.dests[i].settings.custom && j.dests[i].settings.captionError then (j, NoRequest)
    else
      var (k, move) := DirectStep(j, i, oracle(j.at.tick));
      match move
      case Go => DirectNow(k, i + 1, oracle)
      case Stop(end) => (k, end)
  }

  /** What became of the download the direct forward ran beside. `Abandoned`: the message was
      skipped or its processing record could not be written, so nobody reads the outcome. */
  datatype Ingest = Stored | IngestFailed | Abandoned

  function DirectOutcome(k: Job, end: DirectEnd, ingest: Ingest): (Job, RowStatus) {
    match ingest
    case Abandoned => (k, RowProcessing)
    case IngestFailed =>
      if end.AllSent? then (k.(at := k.at.(stage := Complete)), RowForwarded)
      else (k, if HasUncertain(k.dests) then RowUncertain else RowFailed)
    case Stored =>
      var stored := k.(at := k.at.(hasRecord := true, hasPath := true));
      if end.AllSent? then (stored.(at := stored.at.(stage := Complete, deleted := true)), RowForwarded)
      else if HasUncertain(k.dests) then (stored, RowUncertain)
      else if end.CaptionUnresolved? then (stored, RowFailed)
      else (stored.(at := stored.at.(stage := FallbackUpload)), RowPending)
  }

  function DirectRun(j: Job, oracle: Oracle, ingest: Ingest): (Job, RowStatus) {
    var (k, end) := DirectNow(j, 0, oracle);
    DirectOutcome(k, end, ingest)
  }

  // ---- The same code as it runs: a job whose fields are updated step by step ----

  class ForwardJob {
    const config: Config
    var dests: seq<Dest>
    var attempts: nat
    var stage: Stage
    var hasPath: bool
    var hasRecord: bool
    var noAutoRetry: bool
    var waitForEngine: bool
    var retryBeforeSend: bool
    var cancelled: bool
    var deleted: bool
    var tick: nat

    ghost function At(): Progress
      reads this
    {
      Progress(stage, hasPath, hasRecord, noAutoRetry, waitForEngine, retryBeforeSend, cancelled, deleted, tick)
    }

    ghost function Value(): Job
      reads this
    {
      Job(config, dests, attempts, At())
    }

    constructor (j: Job)
      ensures Value() == j
    {
      config := j.config;
      dests := j.dests;
      attempts := j.attempts;
      stage := j.at.stage;
      hasPath := j.at.hasPath;
      hasRecord := j.at.hasRecord;
      noAutoRetry := j.at.noAutoRetry;
      waitForEngine := j.at.waitForEngine;
      retryBeforeSend := j.at.retryBeforeSend;
      cancelled := j.at.cancelled;
      deleted := j.at.deleted;
      tick := j.at.tick;
    }

    method Ask(oracle: Oracle) returns (a: Answer)
      modifies this`tick, this`cancelled
      ensures a == oracle(old(tick)) && At() == Asked(old(At()), a)
    {
      a := oracle(tick);
      tick := tick + 1;
      cancelled := cancelled || a.dies;
    }

    /** `waitForwardAccount`, then the request if the gate opened. */
    method AskGate(oracle: Oracle) returns (a: Answer)
      modifies this`tick, this`cancelled
      ensures a == oracle(old(tick)) && At() == Gated(old(At()), a)
    {
      a := Ask(oracle);
      if a.gate == Cancelled {
        cancelled := true;
      }
    }

    method DownloadForForward(oracle: Oracle) returns (ok: bool)
      modifies this`stage, this`hasPath, this`hasRecord, this`tick, this`cancelled
      ensures (At(), ok) == DownloadStep(config, old(At()), oracle(old(tick)))
    {
      stage := FallbackDownload;
      var a := Ask(oracle);
      if !config.hasMessage || !config.hasSource || !a.download {
        return false;
      }
      hasRecord, hasPath := true, true;
      stage := FallbackUpload;
      return true;
    }

    /** The upload loop; `sending` is the last answer, if a request went out. */
    method SendFile(i: nat, limit: nat, oracle: Oracle) returns (sending: Sending)
      requires i < |dests|
      modifies this
      ensures |dests| == |old(dests)| && attempts == old(attempts)
      ensures (Leg(dests[i], At()), sending) == SendLoop(Leg(old(dests[i]), old(At())), 1, limit, oracle)
      ensures dests == old(dests)[i := dests[i]]
    {
      ghost var first := Leg(dests[i], At());
      var indexed := dests[i].settings.indexed;
      var attempt := 1;
      while true
        invariant |dests| == |old(dests)| && attempts == old(attempts) && dests == old(dests)[i := dests[i]]
        invariant dests[i].settings.indexed == indexed
        invariant SendLoop(first, 1, limit, oracle) == SendLoop(Leg(dests[i], At()), attempt, limit, oracle)
        decreases limit - attempt
      {
        var a := AskGate(oracle);
        if a.gate == Cancelled {
          if indexed {
            dests := dests[i := dests[i].(status := Pending)];
          }
          retryBeforeSend := true;
          return NotSent;
        } else if a.gate == Unissued {
          return NotSent;
        }
        dests := dests[i := Sent(dests[i], Upload, a.reply)];
        if !a.reply.Flood? || attempt >= limit {
          return Answered(a.reply);
        }
        attempt := attempt + 1;
      }
    }

    method UploadFile(i: nat, deleteAfter: bool, limit: nat, oracle: Oracle) returns (ok: bool)
      requires i < |dests|
      modifies this
      ensures |dests| == |old(dests)| && attempts == old(attempts) && dests == old(dests)[i := dests[i]]
      ensures (Leg(dests[i], At()), ok) == UploadStep(Leg(old(dests[i]), old(At())), deleteAfter, limit, oracle)
    {
      var indexed := dests[i].settings.indexed;
      var ready := Ask(oracle);
      if !ready.local || dests[i].settings.captionError {
        return false;
      }
      var sending := SendFile(i, limit, oracle);
      if sending.NotSent? {
        return false;
      }
      ghost var sent := Leg(dests[i], At());
      assert UploadStep(Leg(old(dests[i]), old(At())), deleteAfter, limit, oracle) ==
               UploadOutcome(sent, deleteAfter, sending.reply);
      ok := RecordUpload(i, deleteAfter, sending.reply);
    }

    method RecordUpload(i: nat, deleteAfter: bool, reply: Reply) returns (ok: bool)
      requires i < |dests|
      modifies this
      ensures |dests| == |old(dests)| && attempts == old(attempts) && dests == old(dests)[i := dests[i]]
      ensures (Leg(dests[i], At()), ok) == UploadOutcome(Leg(old(dests[i]), old(At())), deleteAfter, reply)
    {
      var indexed := dests[i].settings.indexed;
      if reply.Accepted? {
        deleted := deleted || deleteAfter;
        return true;
      }
      if reply.NotRunning? {
        if indexed {
          dests := dests[i := dests[i].(status := Pending, directFailed := false)];
        }
        waitForEngine := true;
        return false;
      }
      if cancelled {
        return false;
      }
      if reply.Lost? {
        if indexed {
          dests := dests[i := dests[i].(status := Uncertain)];
        }
        return false;
      }
      if reply.Rejected? && reply.permanent {
        noAutoRetry := true;
      }
      return false;
    }

    /** The native attempt of `forwardToRoute`. */
    method TryNative(i: nat, directCaption: bool, oracle: Oracle) returns (next: Next)
      requires i < |dests| && directCaption == DirectCaption(config, dests[i].settings, At())
      modifies this
      ensures |dests| == |old(dests)| && attempts == old(attempts) && dests == old(dests)[i := dests[i]]
      ensures (Leg(dests[i], At()), next) == NativeStep(config, Leg(old(dests[i]), old(At())), oracle(old(tick)))
    {
      var settings := dests[i].settings;
      if directCaption && settings.captionError {
        return Return(false);
      }
      var known := if settings.indexed then dests[i].messageId else 0;
      var editCaption := directCaption && !(settings.emptyCaption && known == 0);
      var a := AskGate(oracle);
      if a.gate == Open {
        var request := if editCaption && known > 0 then Edit else Native(editCaption);
        dests := dests[i := Sent(dests[i], request, a.reply)];
        next := RecordNative(i, ReportedId(request, known, a.reply), a.reply);
        return;
      }
      next := RecordUnsent(i, a.gate);
    }

    method RecordUnsent(i: nat, gate: Gate) returns (next: Next)
      requires i < |dests|
      modifies this`dests, this`retryBeforeSend, this`stage
      ensures |dests| == |old(dests)| && dests == old(dests)[i := dests[i]]
      ensures (Leg(dests[i], At()), next) == NativeUnsent(old(dests[i]), old(At()), gate)
    {
      if dests[i].settings.indexed {
        dests := dests[i := dests[i].(directFailed := true)];
        if gate == Cancelled {
          dests := dests[i := dests[i].(status := Pending, directFailed := false)];
          retryBeforeSend := true;
        }
      }
      if gate == Cancelled {
        return Return(false);
      }
      if !hasPath {
        stage := FallbackDownload;
        return TryDownload;
      }
      stage := FallbackUpload;
      return TryUpload;
    }

    method RecordNative(i: nat, id: nat, reply: Reply) returns (next: Next)
      requires i < |dests|
      modifies this`dests, this`waitForEngine, this`noAutoRetry, this`stage
      ensures |dests| == |old(dests)| && dests == old(dests)[i := dests[i]]
      ensures (Leg(dests[i], At()), next) == NativeOutcome(old(dests[i]), old(At()), id, reply)
    {
      RecordNativeDest(i, id, reply);
      if reply.Accepted? {
        return Return(true);
      }
      if reply.NotRunning? {
        waitForEngine := true;
        return Return(false);
      }
      if reply.Rejected? && reply.permanent {
        noAutoRetry := true;
      }
      if !hasPath {
        if id > 0 || reply.Lost? {
          return Return(false);
        }
        stage := FallbackDownload;
        return TryDownload;
      }
      stage := FallbackUpload;
      return TryUpload;
    }

    method RecordNativeDest(i: nat, id: nat, reply: Reply)
      requires i < |dests|
      modifies this`dests
      ensures |dests| == |old(dests)| && dests == old(dests)[i := dests[i]]
      ensures dests[i] == NativeDest(old(dests[i]), id, reply)
    {
      var d := dests[i];
      if id > 0 {
        d := d.(messageId := id);
      }
      d := d.(directFailed := !reply.Accepted? && !reply.NotRunning?);
      if reply.Lost? {
        d := d.(status := Uncertain);
      }
      if reply.NotRunning? {
        d := d.(status := Pending);
      }
      if dests[i].settings.indexed {
        dests := dests[i := d];
      }
    }

    method ForwardToRoute(i: nat, deleteAfter: bool, limit: nat, oracle: Oracle) returns (ok: bool)
      requires i < |dests|
      modifies this
      ensures |dests| == |old(dests)| && attempts == old(attempts) && dests == old(dests)[i := dests[i]]
      ensures (Leg(dests[i], At()), ok) == ToRoute(config, Leg(old(dests[i]), old(At())), deleteAfter, limit, oracle)
      decreases !hasPath, 2
    {
      var settings := dests[i].settings;
      var checked := Ask(oracle);
      if checked.access == Unreadable || checked.access == Blocked {
        return false;
      }
      var directCaption := settings.custom &&
                           (config.scanDirect || stage == CaptionEditFailed ||
                            (!hasPath && config.directForward && config.deleteAfter && !settings.protect));
      if (!hasPath || stage == NativeForward || stage == CaptionEditFailed) && (!settings.custom || directCaption) &&
         !settings.protect && config.hasMessage {
        var next := TryNative(i, directCaption, oracle);
        ok := FollowNative(i, next, deleteAfter, limit, oracle);
        return;
      }
      ok := UploadFile(i, deleteAfter, limit, oracle);
    }

    /** What follows the native attempt. */
    method FollowNative(i: nat, next: Next, deleteAfter: bool, limit: nat, oracle: Oracle) returns (ok: bool)
      requires i < |dests| && (next.TryDownload? ==> !hasPath)
      modifies this
      ensures |dests| == |old(dests)| && attempts == old(attempts) && dests == old(dests)[i := dests[i]]
      ensures (Leg(dests[i], At()), ok) ==
                AfterNative(config, (Leg(old(dests[i]), old(At())), next), deleteAfter, limit, oracle)
      decreases !hasPath, 1
    {
      match next
      case Return(done) => ok := done;
      case TryDownload => ok := FetchAndForward(i, deleteAfter, limit, oracle);
      case TryUpload => ok := UploadFile(i, deleteAfter, limit, oracle);
    }

    method FetchAndForward(i: nat, deleteAfter: bool, limit: nat, oracle: Oracle) returns (ok: bool)
      requires i < |dests| && !hasPath
      modifies this
      ensures |dests| == |old(dests)| && attempts == old(attempts) && dests == old(dests)[i := dests[i]]
      ensures (Leg(dests[i], At()), ok) == Refetched(config, Leg(old(dests[i]), old(At())), deleteAfter, limit, oracle)
      decreases !hasPath, 0
    {
      ok := DownloadForForward(oracle);
      if ok {
        ok := ForwardToRoute(i, deleteAfter, limit, oracle);
      }
    }

    /** `forward`; the result is the row status to record. */
    method Forward(limit: nat, oracle: Oracle) returns (status: RowStatus)
      modifies this
      ensures (Value(), status) == Run(old(Value()), limit, oracle)
    {
      attempts := attempts + 1;
      ghost var start := Value();
      assert start == old(Value()).(attempts := old(attempts) + 1);
      status := ForwardBody(limit, oracle);
      ghost var k := Value();
      assert (k, status) == Body(start, limit, oracle);
      status := Finish(status);
    }

    /** The deferred part of `forward`. */
    method Finish(ended: RowStatus) returns (status: RowStatus)
      modifies this`attempts
      ensures (Value(), status) == Settle(old(Value()), ended)
    {
      status := ended;
      if cancelled {
        status := RowInterrupted;
      }
      if waitForEngine && !cancelled {
        status := RowPending;
        attempts := if attempts > 0 then attempts - 1 else 0;
      }
      if retryBeforeSend {
        if !cancelled {
          status := RowPending;
        }
        attempts := if attempts > 0 then attempts - 1 else 0;
      }
      if HasUncertain(dests) {
        status := RowUncertain;
      }
      if status == RowFailed && attempts < 3 && !noAutoRetry && !cancelled {
        status := RowPending;
      }
    }

    method ForwardBody(limit: nat, oracle: Oracle) returns (status: RowStatus)
      modifies this
      ensures (Value(), status) == Body(old(Value()), limit, oracle)
    {
      var a := Ask(oracle);
      if !a.config {
        return RowFailed;
      }
      if stage != Available && !a.live && stage != ScanDirect {
        return RowNotApplicable;
      }
      if !config.enabled || config.routes == [] {
        return RowNotApplicable;
      }
      if a.access != Free {
        return RowFailed;
      }
      if |dests| != |config.routes| {
        dests := Fresh(config.routes);
      }
      status := Prepare(limit, oracle);
    }

    method Prepare(limit: nat, oracle: Oracle) returns (status: RowStatus)
      modifies this
      ensures (Value(), status) == Prepared(old(Value()), limit, oracle)
    {
      var needsUpload := false;
      for k := 0 to |dests|
        invariant needsUpload <==> exists m :: 0 <= m < k && UploadOnly(config, stage, dests[m].settings)
      {
        var s := dests[k].settings;
        if stage == CaptionEditFailed && s.custom {
          continue;
        } else if s.protect {
          needsUpload := true;
        } else if s.custom && !config.DirectCaptions() {
          needsUpload := true;
        }
      }
      assert needsUpload == NeedsUpload(config, stage, dests);
      if stage == CaptionEditFailed {
        for k := 0 to |dests|
          invariant forall m :: 0 <= m < k ==> !LacksMessage(dests[m])
        {
          if dests[k].status != Forwarded && dests[k].settings.custom && dests[k].messageId == 0 {
            assert LacksMessage(dests[k]);
            return RowFailed;
          }
        }
      }
      if needsUpload && !hasPath {
        var downloaded := DownloadForForward(oracle);
        if !downloaded {
          return RowFailed;
        }
      }
      if stage != CaptionEditFailed {
        stage := if needsUpload || hasPath then UploadStage else NativeForward;
      }
      status := DeliverAll(limit, oracle);
    }

    method DeliverAll(limit: nat, oracle: Oracle) returns (status: RowStatus)
      modifies this
      ensures (Value(), status) == Deliver(old(Value()), 0, limit, oracle)
    {
      ghost var first := Value();
      var i := 0;
      while i < |dests|
        invariant i <= |dests|
        invariant Deliver(first, 0, limit, oracle) == Deliver(Value(), i, limit, oracle)
        decreases |dests| - i
      {
        if dests[i].status == Forwarded || dests[i].status == Uncertain {
          i := i + 1;
          continue;
        }
        ghost var served := Serve(Value(), i, limit, oracle);
        assert Deliver(Value(), i, limit, oracle) == if served.1 then Deliver(served.0, i + 1, limit, oracle)
               else (served.0, RowFailed);
        var ok := ServeOne(i, limit, oracle);
        if !ok {
          return RowFailed;
        }
        i := i + 1;
      }
      stage := Complete;
      status := RowForwarded;
    }

    method ServeOne(i: nat, limit: nat, oracle: Oracle) returns (ok: bool)
      requires i < |dests|
      modifies this
      ensures (Value(), ok) == Serve(old(Value()), i, limit, oracle)
    {
      var deleteAfter := hasRecord && config.deleteAfter && i == |dests| - 1;
      assert DeletesAfter(Value(), i) == deleteAfter;
      dests := dests[i := dests[i].(status := Processing)];
      ok := ForwardToRoute(i, deleteAfter, limit, oracle);
      if ok {
        dests := dests[i := dests[i].(status := Forwarded)];
      } else if dests[i].status != Uncertain && !waitForEngine && !retryBeforeSend {
        dests := dests[i := dests[i].(status := Failed)];
      }
      assert dests == old(dests)[i := dests[i]];
    }

    /** `directForwardNow`. */
    method DirectForwardNow(oracle: Oracle) returns (end: DirectEnd)
      modifies this
      ensures (Value(), end) == DirectNow(old(Value()), 0, oracle)
    {
      ghost var first := Value();
      var i := 0;
      while i < |dests|
        invariant i <= |dests|
        invariant DirectNow(first, 0, oracle) == DirectNow(Value(), i, oracle)
        decreases |dests| - i
      {
        if dests[i].settings.custom && dests[i].settings.captionError {
          return NoRequest;
        }
        var move := SendDirect(i, oracle);
        if move.Stop? {
          return move.end;
        }
        i := i + 1;
      }
      end := AllSent;
    }

    /** The request for one destination. */
    method SendDirect(i: nat, oracle: Oracle) returns (move: DirectMove)
      requires i < |dests|
      modifies this
      ensures (Value(), move) == DirectStep(old(Value()), i, oracle(old(tick)))
    {
      var a := AskGate(oracle);
      if a.gate != Open {
        return Stop(NoRequest);
      }
      RecordDirect(i, a.reply);
      if a.reply.Accepted? {
        return Go;
      }
      stage := if a.reply.Unresolved? then CaptionEditFailed else FallbackDownload;
      return Stop(if a.reply.Unresolved? then CaptionUnresolved else Refused);
    }

    method RecordDirect(i: nat, reply: Reply)
      requires i < |dests|
      modifies this`dests
      ensures dests == old(dests)[i := DirectRecord(old(dests[i]), reply)]
    {
      var d := dests[i].(status := Processing);
      d := Sent(d, Native(d.settings.custom), reply);
      d := d.(messageId := ReportedId(Native(d.settings.custom), 0, reply));
      if reply.Accepted? {
        d := d.(directFailed := false, status := Forwarded);
      } else {
        d := d.(directFailed := true);
        if reply.Lost? {
          d := d.(status := Uncertain);
        }
      }
      dests := dests[i := d];
    }

    /** The goroutine of `ingestTelegramWithForward` that waits for the direct outcome. */
    method RecordDirectOutcome(end: DirectEnd, ingest: Ingest) returns (status: RowStatus)
      modifies this
      ensures (Value(), status) == DirectOutcome(old(Value()), end, ingest)
    {
      if ingest.Abandoned? {
        return RowProcessing;
      }
      if ingest.IngestFailed? {
        if end != AllSent {
          status := RowFailed;
          if HasUncertain(dests) {
            status := RowUncertain;
          }
          return;
        }
        stage := Complete;
        return RowForwarded;
      }
      hasRecord, hasPath := true, true;
      if end != AllSent {
        if HasUncertain(dests) {
          return RowUncertain;
        }
        if end == CaptionUnresolved {
          return RowFailed;
        }
        stage := FallbackUpload;
        return RowPending;
      }
      stage := Complete;
      deleted := true;
      status := RowForwarded;
    }
  }
}
