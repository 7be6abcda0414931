/** When a forward job makes a second copy possible at a destination (core-service/internal/app/forward.go):
    the exact condition for every record, stage, setting and answer, for one delivery and for a whole run. */
module ForwardBound {
  import opened ForwardDelivery
  import opened ForwardAgreement

  // ---- Copies ----

  lemma SentCopies(d: Dest, request: Request, reply: Reply)
    ensures var n, sent := Copies(d.history), Sent(d, request, reply).history;
            && Copies(sent) == CopiesAfter(n, Exchange(request, reply))
            && (AtMostOne(d.history) && Copies(sent) <= 1 && (request.Edit? || n == 0) ==> AtMostOne(sent))
            && (AtMostOne(sent) ==> AtMostOne(d.history) && (request.Edit? || n == 0))
  {
    var h := d.history + [Exchange(request, reply)];
    assert h[..|h| - 1] == d.history;
  }

  /** A second copy is never undone: the bound stays broken in every longer history. */
  lemma BrokenStays(h: History, longer: History)
    requires h <= longer && AtMostOne(longer)
    ensures AtMostOne(h)
  {
    AtMostOneAlways(longer, |h|);
    assert longer[..|h|] == h;
  }

  predicate AllAtMostOne(dests: seq<Dest>) {
    forall k :: 0 <= k < |dests| ==> AtMostOne(dests[k].history)
  }

  // ---- The upload ----

  lemma {:induction false} SendLoopSafe(l: Leg, attempt: nat, limit: nat, oracle: Oracle)
    requires AtMostOne(l.d.history) && Copies(l.d.history) == 0
    ensures var (k, sending) := SendLoop(l, attempt, limit, oracle);
            && AtMostOne(k.d.history)
            && (sending.NotSent? || !(sending.reply.Accepted? || sending.reply.Lost?) ==> Copies(k.d.history) == 0)
            && (sending.Answered? ==>
                  k.d.history != [] && k.d.history[|k.d.history| - 1] == Exchange(Upload, sending.reply))
    decreases limit - attempt
  {
    var a := oracle(l.p.tick);
    if a.gate == Open {
      SentCopies(l.d, Upload, a.reply);
      if a.reply.Flood? && attempt < limit {
        SendLoopSafe(Leg(Sent(l.d, Upload, a.reply), Gated(l.p, a)), attempt + 1, limit, oracle);
      }
    }
  }

  /** The upload's request goes out. */
  predicate UploadGoesOut(l: Leg, oracle: Oracle) {
    oracle(l.p.tick).local && !l.d.settings.captionError && oracle(l.p.tick + 1).gate == Open
  }

  /** An upload breaks the bound exactly beside a copy, when its request goes out. */
  lemma UploadExactly(l: Leg, deleteAfter: bool, limit: nat, oracle: Oracle)
    requires AtMostOne(l.d.history)
    ensures AtMostOne(UploadStep(l, deleteAfter, limit, oracle).0.d.history) <==>
              !(Copies(l.d.history) > 0 && UploadGoesOut(l, oracle))
  {
    if Copies(l.d.history) > 0 {
      UploadBesideCopy(l, deleteAfter, limit, oracle);
    } else {
      var a := oracle(l.p.tick);
      var ready := l.(p := Asked(l.p, a));
      SendLoopSafe(ready, 1, limit, oracle);
      var (k, sending) := SendLoop(ready, 1, limit, oracle);
      if a.local && !l.d.settings.captionError && sending.Answered? {
        UploadRecordKeeps(k, deleteAfter, sending.reply);
      }
    }
  }

  predicate SameRecord(a: Dest, b: Dest) {
    b.history == a.history && b.messageId == a.messageId && b.settings == a.settings
  }

  lemma UploadBesideCopy(l: Leg, deleteAfter: bool, limit: nat, oracle: Oracle)
    requires AtMostOne(l.d.history) && Copies(l.d.history) > 0
    ensures var (k, ok) := UploadStep(l, deleteAfter, limit, oracle);
            && (AtMostOne(k.d.history) <==> !UploadGoesOut(l, oracle))
            && (!UploadGoesOut(l, oracle) ==>
                  !ok && SameRecord(l.d, k.d) && k.p.stage == l.p.stage && k.p.hasPath == l.p.hasPath)
  {
    var a := oracle(l.p.tick);
    var ready := l.(p := Asked(l.p, a));
    if UploadGoesOut(l, oracle) {
      UploadSendsFirst(l, deleteAfter, limit, oracle);
      var sent := Sent(l.d, Upload, oracle(l.p.tick + 1).reply);
      SentCopies(l.d, Upload, oracle(l.p.tick + 1).reply);
      var (k, ok) := UploadStep(l, deleteAfter, limit, oracle);
      if AtMostOne(k.d.history) {
        BrokenStays(sent.history, k.d.history);
      }
    } else if a.local && !l.d.settings.captionError {
      assert SendLoop(ready, 1, limit, oracle).1 == NotSent;
    }
  }

  lemma UploadSendsFirst(l: Leg, deleteAfter: bool, limit: nat, oracle: Oracle)
    requires UploadGoesOut(l, oracle)
    ensures Sent(l.d, Upload, oracle(l.p.tick + 1).reply).history
              <= UploadStep(l, deleteAfter, limit, oracle).0.d.history
  {
    var ready := l.(p := Asked(l.p, oracle(l.p.tick)));
    var (k, sending) := SendLoop(ready, 1, limit, oracle);
    SendsFirst(ready, limit, oracle);
    if sending.Answered? {
      assert UploadStep(l, deleteAfter, limit, oracle) == UploadOutcome(k, deleteAfter, sending.reply);
      UploadRecordKeeps(k, deleteAfter, sending.reply);
    }
  }

  lemma SendsFirst(l: Leg, limit: nat, oracle: Oracle)
    requires oracle(l.p.tick).gate == Open
    ensures var (k, sending) := SendLoop(l, 1, limit, oracle);
            Sent(l.d, Upload, oracle(l.p.tick).reply).history <= k.d.history
  {
    var a := oracle(l.p.tick);
    if a.reply.Flood? && 1 < limit {
      SendExtends(Leg(Sent(l.d, Upload, a.reply), Gated(l.p, a)), 2, limit, oracle);
    }
  }

  lemma UploadRecordKeeps(l: Leg, deleteAfter: bool, reply: Reply)
    ensures var (k, ok) := UploadOutcome(l, deleteAfter, reply);
            && k.d.history == l.d.history && k.d.settings == l.d.settings && k.d.messageId == l.d.messageId
            && (ok <==> reply.Accepted?)
            && k.p.stage == l.p.stage && k.p.hasPath == l.p.hasPath && k.p.cancelled == l.p.cancelled
  {
  }

  // ---- One delivery ----

  predicate Passes(a: Access) {
    a == Free || a == Due
  }

  /** From question `n` on, the fallback fetches the media and its upload request goes out. */
  predicate FallbackGoesOut(c: Config, n: nat, oracle: Oracle) {
    && c.hasSource && oracle(n).download && Passes(oracle(n + 1).access)
    && oracle(n + 2).local && oracle(n + 3).gate == Open
  }

  /** From question `n` on, the upload that follows a refused native attempt goes out: of the local
      file, or of the fetched media. */
  predicate FollowUpGoesOut(c: Config, l: Leg, n: nat, oracle: Oracle) {
    && !l.d.settings.captionError
    && (if l.p.hasPath then oracle(n).local && oracle(n + 1).gate == Open else FallbackGoesOut(c, n, oracle))
  }

  /** The answer of a native request that is followed by an upload. */
  predicate GoesOn(hasPath: bool, id: nat, reply: Reply) {
    if hasPath then !reply.Accepted? && !reply.NotRunning?
    else id == 0 && (reply.Rejected? || reply.Flood? || reply.Unresolved?)
  }

  /** A native request breaks the bound: it posts beside a copy, or a copy is there after it and
      the upload follows. */
  predicate RequestBreaks(n: nat, known: nat, request: Request, reply: Reply, hasPath: bool, followUp: bool) {
    || (n > 0 && !request.Edit?)
    || (CopiesAfter(n, Exchange(request, reply)) > 0 && GoesOn(hasPath, ReportedId(request, known, reply), reply) &&
        followUp)
  }

  function RequestOf(c: Config, l: Leg): Request {
    NativeRequest(EditsCaption(c, l.d, l.p), KnownId(l.d))
  }

  predicate AttemptBreaks(c: Config, l: Leg, a: Answer, followUp: bool) {
    var n := Copies(l.d.history);
    match a.gate
    case Cancelled => false
    case Unissued => n > 0 && followUp
    case Open => RequestBreaks(n, KnownId(l.d), RequestOf(c, l), a.reply, l.p.hasPath, followUp)
  }

  /** The answers under which a delivery that starts at `l` makes a second copy possible. */
  predicate Breaks(c: Config, l: Leg, oracle: Oracle) {
    var t := l.p.tick;
    && Passes(oracle(t).access)
    && (if NativeApplies(c, l.d.settings, l.p) then
          && !(DirectCaption(c, l.d.settings, l.p) && l.d.settings.captionError)
          && AttemptBreaks(c, l, oracle(t + 1), FollowUpGoesOut(c, l, t + 2, oracle))
        else Copies(l.d.history) > 0 && UploadGoesOut(l.(p := Asked(l.p, oracle(t))), oracle))
  }

  /** With the fetched media a delivery is an upload. */
  lemma FetchedUploads(c: Config, l: Leg, deleteAfter: bool, limit: nat, oracle: Oracle)
    requires l.p.hasPath && l.p.stage == FallbackUpload
    ensures var checked := l.(p := Asked(l.p, oracle(l.p.tick)));
            ToRoute(c, l, deleteAfter, limit, oracle)
              == if Passes(oracle(l.p.tick).access) then UploadStep(checked, deleteAfter, limit, oracle)
              else (checked, false)
  {
  }

  lemma FetchedExactly(c: Config, l: Leg, deleteAfter: bool, limit: nat, oracle: Oracle)
    requires l.p.hasPath && l.p.stage == FallbackUpload && AtMostOne(l.d.history)
    ensures var goesOut := Passes(oracle(l.p.tick).access) &&
            UploadGoesOut(l.(p := Asked(l.p, oracle(l.p.tick))), oracle);
            AtMostOne(ToRoute(c, l, deleteAfter, limit, oracle).0.d.history) <==> !(Copies(l.d.history) > 0 && goesOut)
  {
    FetchedUploads(c, l, deleteAfter, limit, oracle);
    if Passes(oracle(l.p.tick).access) {
      UploadExactly(l.(p := Asked(l.p, oracle(l.p.tick))), deleteAfter, limit, oracle);
    }
  }

  lemma RefetchedExactly(c: Config, l: Leg, deleteAfter: bool, limit: nat, oracle: Oracle)
    requires !l.p.hasPath && AtMostOne(l.d.history) && c.hasMessage
    ensures AtMostOne(Refetched(c, l, deleteAfter, limit, oracle).0.d.history) <==>
              !(Copies(l.d.history) > 0 && FollowUpGoesOut(c, l, l.p.tick, oracle))
  {
    var (p, ok) := DownloadStep(c, l.p, oracle(l.p.tick));
    if ok {
      FetchedExactly(c, l.(p := p), deleteAfter, limit, oracle);
    }
  }

  /** What follows the native attempt. */
  lemma FollowExactly(c: Config, l: Leg, next: Next, deleteAfter: bool, limit: nat, oracle: Oracle)
    requires AtMostOne(l.d.history) && c.hasMessage
    requires (next.TryDownload? ==> !l.p.hasPath) && (next.TryUpload? ==> l.p.hasPath)
    ensures AtMostOne(AfterNative(c, (l, next), deleteAfter, limit, oracle).0.d.history) <==>
              !(Copies(l.d.history) > 0 && !next.Return? && FollowUpGoesOut(c, l, l.p.tick, oracle))
  {
    match next
    case Return(_) =>
    case TryUpload => UploadExactly(l, deleteAfter, limit, oracle);
    case TryDownload => RefetchedExactly(c, l, deleteAfter, limit, oracle);
  }

  lemma FollowExtends(c: Config, l: Leg, next: Next, deleteAfter: bool, limit: nat, oracle: Oracle)
    requires next.TryDownload? ==> !l.p.hasPath
    ensures l.d.history <= AfterNative(c, (l, next), deleteAfter, limit, oracle).0.d.history
  {
    match next
    case Return(_) =>
    case TryUpload => UploadExtends(l, deleteAfter, limit, oracle);
    case TryDownload => RefetchedExtends(c, l, deleteAfter, limit, oracle);
  }

  lemma OutcomeGoesOn(d: Dest, p: Progress, id: nat, reply: Reply)
    ensures var (l, next) := NativeOutcome(d, p, id, reply);
            && (!next.Return? <==> GoesOn(p.hasPath, id, reply)) && (next.TryUpload? ==> p.hasPath)
            && l.p.hasPath == p.hasPath && l.p.tick == p.tick
  {
  }

  lemma UnsentGoesOn(d: Dest, p: Progress, gate: Gate)
    requires gate != Open
    ensures var (l, next) := NativeUnsent(d, p, gate);
            && (!next.Return? <==> gate == Unissued) && (next.TryUpload? ==> p.hasPath)
            && (next.TryDownload? ==> !p.hasPath)
            && l.p.hasPath == p.hasPath && l.p.tick == p.tick && l.d.history == d.history && l.d.settings == d.settings
  {
  }

  lemma UnsentExactly(c: Config, l: Leg, p: Progress, gate: Gate, deleteAfter: bool, limit: nat, oracle: Oracle)
    requires AtMostOne(l.d.history) && c.hasMessage && gate != Open && p.hasPath == l.p.hasPath
    ensures NativeUnsent(l.d, p, gate).1.TryDownload? ==> !NativeUnsent(l.d, p, gate).0.p.hasPath
    ensures AtMostOne(AfterNative(c, NativeUnsent(l.d, p, gate), deleteAfter, limit, oracle).0.d.history) <==>
              !(Copies(l.d.history) > 0 && gate == Unissued && FollowUpGoesOut(c, l, p.tick, oracle))
  {
    UnsentGoesOn(l.d, p, gate);
    var (k, next) := NativeUnsent(l.d, p, gate);
    FollowExactly(c, k, next, deleteAfter, limit, oracle);
  }

  lemma RequestExactly(c: Config, l: Leg, p: Progress, request: Request, reply: Reply, deleteAfter: bool, limit: nat,
                       oracle: Oracle)
    requires AtMostOne(l.d.history) && c.hasMessage && p.hasPath == l.p.hasPath
    ensures var known := KnownId(l.d);
            var step := NativeOutcome(Sent(l.d, request, reply), p, ReportedId(request, known, reply), reply);
            AtMostOne(AfterNative(c, step, deleteAfter, limit, oracle).0.d.history) <==>
              !RequestBreaks(Copies(l.d.history), known, request, reply, l.p.hasPath,
                             FollowUpGoesOut(c, l, p.tick, oracle))
  {
    var id := ReportedId(request, KnownId(l.d), reply);
    var sent := Sent(l.d, request, reply);
    SentCopies(l.d, request, reply);
    OutcomeGoesOn(sent, p, id, reply);
    OutcomeKeeps(sent, p, id, reply);
    var (k, next) := NativeOutcome(sent, p, id, reply);
    AtMostOneAlways(l.d.history, |l.d.history|);
    assert l.d.history[..|l.d.history|] == l.d.history;
    if AtMostOne(sent.history) {
      FollowExactly(c, k, next, deleteAfter, limit, oracle);
    } else {
      FollowExtends(c, k, next, deleteAfter, limit, oracle);
      if AtMostOne(AfterNative(c, (k, next), deleteAfter, limit, oracle).0.d.history) {
        BrokenStays(sent.history, AfterNative(c, (k, next), deleteAfter, limit, oracle).0.d.history);
      }
    }
  }

  lemma AttemptExactly(c: Config, l: Leg, deleteAfter: bool, limit: nat, oracle: Oracle)
    requires AtMostOne(l.d.history) && c.hasMessage &&
             !(DirectCaption(c, l.d.settings, l.p) && l.d.settings.captionError)
    ensures var a := oracle(l.p.tick);
            AtMostOne(AfterNative(c, NativeStep(c, l, a), deleteAfter, limit, oracle).0.d.history) <==>
              !AttemptBreaks(c, l, a, FollowUpGoesOut(c, l, l.p.tick + 1, oracle))
  {
    var a := oracle(l.p.tick);
    if a.gate == Open {
      NativeOpen(c, l, a);
      RequestExactly(c, l, Gated(l.p, a), RequestOf(c, l), a.reply, deleteAfter, limit, oracle);
    } else {
      UnsentExactly(c, l, Gated(l.p, a), a.gate, deleteAfter, limit, oracle);
    }
  }

  lemma NativeReached(c: Config, l: Leg, deleteAfter: bool, limit: nat, oracle: Oracle)
    requires Passes(oracle(l.p.tick).access) && NativeApplies(c, l.d.settings, l.p)
    ensures var checked := l.(p := Asked(l.p, oracle(l.p.tick)));
            ToRoute(c, l, deleteAfter, limit, oracle)
              == AfterNative(c, NativeStep(c, checked, oracle(l.p.tick + 1)), deleteAfter, limit, oracle)
  {
  }

  /** The access question changes nothing that the native request depends on. */
  lemma AskedSame(c: Config, l: Leg, asked: Answer, a: Answer, n: nat, oracle: Oracle)
    ensures var checked := l.(p := Asked(l.p, asked));
            && RequestOf(c, checked) == RequestOf(c, l)
            && DirectCaption(c, l.d.settings, checked.p) == DirectCaption(c, l.d.settings, l.p)
            && FollowUpGoesOut(c, checked, n, oracle) == FollowUpGoesOut(c, l, n, oracle)
            && (forall followUp :: AttemptBreaks(c, checked, a, followUp) == AttemptBreaks(c, l, a, followUp))
  {
  }

  /** The native attempt, from the question after the access check on. */
  lemma NativeRouteExactly(c: Config, l: Leg, checked: Leg, deleteAfter: bool, limit: nat, oracle: Oracle)
    requires AtMostOne(l.d.history) && c.hasMessage && checked == l.(p := Asked(l.p, oracle(l.p.tick)))
    ensures var step := NativeStep(c, checked, oracle(l.p.tick + 1));
            AtMostOne(AfterNative(c, step, deleteAfter, limit, oracle).0.d.history) <==>
              !(&& !(DirectCaption(c, l.d.settings, l.p) && l.d.settings.captionError)
                && AttemptBreaks(c, l, oracle(l.p.tick + 1), FollowUpGoesOut(c, l, l.p.tick + 2, oracle)))
  {
    var a := oracle(l.p.tick + 1);
    AskedSame(c, l, oracle(l.p.tick), a, l.p.tick + 2, oracle);
    if DirectCaption(c, checked.d.settings, checked.p) && checked.d.settings.captionError {
      CaptionErrorStops(c, checked, a, deleteAfter, limit, oracle);
    } else {
      AttemptExactly(c, checked, deleteAfter, limit, oracle);
      assert AttemptBreaks(c, checked, a, FollowUpGoesOut(c, checked, checked.p.tick + 1, oracle))
          == AttemptBreaks(c, l, a, FollowUpGoesOut(c, l, l.p.tick + 2, oracle));
    }
  }

  lemma CaptionErrorStops(c: Config, l: Leg, a: Answer, deleteAfter: bool, limit: nat, oracle: Oracle)
    requires DirectCaption(c, l.d.settings, l.p) && l.d.settings.captionError
    ensures AfterNative(c, NativeStep(c, l, a), deleteAfter, limit, oracle) == (l, false)
  {
  }

  /** Exactly then: for every record whose bound holds, at every stage and with every setting, a
      delivery makes a second copy possible if and only if `Breaks` says so of the answers. */
  lemma RouteBreaksExactly(c: Config, l: Leg, deleteAfter: bool, limit: nat, oracle: Oracle)
    requires AtMostOne(l.d.history)
    ensures AtMostOne(ToRoute(c, l, deleteAfter, limit, oracle).0.d.history) <==> !Breaks(c, l, oracle)
  {
    if Passes(oracle(l.p.tick).access) {
      if NativeApplies(c, l.d.settings, l.p) {
        NativeReached(c, l, deleteAfter, limit, oracle);
        NativeRouteExactly(c, l, l.(p := Asked(l.p, oracle(l.p.tick))), deleteAfter, limit, oracle);
      } else {
        UploadExactly(l.(p := Asked(l.p, oracle(l.p.tick))), deleteAfter, limit, oracle);
      }
    }
  }

  // ---- A whole run ----

  /** A delivery of the job, and where it starts. */
  function LegOf(j: Job, i: nat): Leg
    requires i < |j.dests|
  {
    Leg(j.dests[i].(status := Processing), j.at)
  }

  /** The loop over the destinations starts a bad delivery. */
  predicate Meets(j: Job, i: nat, limit: nat, oracle: Oracle, bad: Leg -> bool)
    requires i <= |j.dests|
    decreases |j.dests| - i
  {
    if i == |j.dests| then false
    else if Served(j.dests[i]) then Meets(j, i + 1, limit, oracle, bad)
    else bad(LegOf(j, i)) || (var (k, ok) := Serve(j, i, limit, oracle); ok && Meets(k, i + 1, limit, oracle, bad))
  }

  predicate PreparedMeets(j: Job, limit: nat, oracle: Oracle, bad: Leg -> bool) {
    var upload := NeedsUpload(j.config, j.at.stage, j.dests);
    if UnsafeCaptionEdit(j.at.stage, j.dests) then false
    else if upload && !j.at.hasPath then
      var (p, ok) := DownloadStep(j.config, j.at, oracle(j.at.tick));
      ok && Meets(j.(at := p.(stage := UploadStage)), 0, limit, oracle, bad)
    else Meets(j.(at := j.at.(stage := FirstStage(j, upload))), 0, limit, oracle, bad)
  }

  /** The job with one record per route. */
  function Sized(j: Job): Job {
    if |j.dests| != |j.config.routes| then j.(dests := Fresh(j.config.routes)) else j
  }

  predicate BodyMeets(start: Job, limit: nat, oracle: Oracle, bad: Leg -> bool) {
    var a := oracle(start.at.tick);
    var j := start.(at := Asked(start.at, a));
    && a.config && (j.at.stage == Available || a.live || j.at.stage == ScanDirect)
    && j.config.enabled && j.config.routes != [] && a.access == Free
    && PreparedMeets(Sized(j), limit, oracle, bad)
  }

  /** A delivery of the run makes a second copy possible. */
  predicate RunBreaks(j: Job, limit: nat, oracle: Oracle) {
    BodyMeets(j.(attempts := j.attempts + 1), limit, oracle, l => Breaks(j.config, l, oracle))
  }

  lemma ServeExactly(j: Job, i: nat, limit: nat, oracle: Oracle)
    requires i < |j.dests| && AllAtMostOne(j.dests)
    ensures var k := Serve(j, i, limit, oracle).0;
            && |k.dests| == |j.dests| && k.config == j.config
            && (AllAtMostOne(k.dests) <==> !Breaks(j.config, LegOf(j, i), oracle))
            && (AllAtMostOne(k.dests) <==> AtMostOne(k.dests[i].history))
  {
    RouteBreaksExactly(j.config, LegOf(j, i), DeletesAfter(j, i), limit, oracle);
    var k := Serve(j, i, limit, oracle).0;
    assert k.dests[i].history == ToRoute(j.config, LegOf(j, i), DeletesAfter(j, i), limit, oracle).0.d.history;
    assert forall m :: 0 <= m < |j.dests| && m != i ==> k.dests[m] == j.dests[m];
  }

  /** A destination over the bound stays over it for the rest of the run. */
  lemma BrokenRun(j: Job, i: nat, limit: nat, oracle: Oracle)
    requires i < |j.dests| && !Served(j.dests[i])
    requires !AtMostOne(Serve(j, i, limit, oracle).0.dests[i].history)
    ensures !AllAtMostOne(Deliver(j, i, limit, oracle).0.dests)
  {
    var (k, ok) := Serve(j, i, limit, oracle);
    if ok {
      DeliverStatus(k, i + 1, limit, oracle);
      var after := Deliver(k, i + 1, limit, oracle).0.dests;
      assert Grown(k.dests, after);
      if AllAtMostOne(after) {
        BrokenStays(k.dests[i].history, after[i].history);
      }
    }
  }

  lemma {:induction false} DeliverBreaksExactly(j: Job, i: nat, limit: nat, oracle: Oracle)
    requires i <= |j.dests| && AllAtMostOne(j.dests)
    ensures AllAtMostOne(Deliver(j, i, limit, oracle).0.dests) <==>
              !Meets(j, i, limit, oracle, l => Breaks(j.config, l, oracle))
    decreases |j.dests| - i
  {
    var bad := (l: Leg) => Breaks(j.config, l, oracle);
    if i == |j.dests| {
    } else if Served(j.dests[i]) {
      DeliverBreaksExactly(j, i + 1, limit, oracle);
      assert Meets(j, i, limit, oracle, bad) == Meets(j, i + 1, limit, oracle, bad);
    } else {
      var (k, ok) := Serve(j, i, limit, oracle);
      ServeExactly(j, i, limit, oracle);
      if bad(LegOf(j, i)) {
        BrokenRun(j, i, limit, oracle);
      } else if ok {
        DeliverBreaksExactly(k, i + 1, limit, oracle);
        assert Meets(j, i, limit, oracle, bad) == Meets(k, i + 1, limit, oracle, bad);
      }
    }
  }

  lemma PreparedBreaksExactly(j: Job, limit: nat, oracle: Oracle)
    requires AllAtMostOne(j.dests)
    ensures AllAtMostOne(Prepared(j, limit, oracle).0.dests) <==>
              !PreparedMeets(j, limit, oracle, l => Breaks(j.config, l, oracle))
  {
    var upload := NeedsUpload(j.config, j.at.stage, j.dests);
    var (p, ok) := DownloadStep(j.config, j.at, oracle(j.at.tick));
    DeliverBreaksExactly(j.(at := p.(stage := UploadStage)), 0, limit, oracle);
    DeliverBreaksExactly(j.(at := j.at.(stage := FirstStage(j, upload))), 0, limit, oracle);
  }

  /** Exactly then: a worker run of any job whose destinations keep the bound, whatever its stage,
      settings and records, breaks it if and only if one of its deliveries does. */
  lemma RunBreaksExactly(j: Job, limit: nat, oracle: Oracle)
    requires AllAtMostOne(j.dests)
    ensures AllAtMostOne(Run(j, limit, oracle).0.dests) <==> !RunBreaks(j, limit, oracle)
  {
    var start := j.(attempts := j.attempts + 1);
    var asked := start.(at := Asked(start.at, oracle(start.at.tick)));
    PreparedBreaksExactly(Sized(asked), limit, oracle);
  }

  // ---- Three kinds of delivery, spelled out ----

  /** Beside a copy, a delivery that does not edit it breaks the bound exactly when a request goes
      out: the native one, the upload after an unreadable account limit, or the upload alone. */
  lemma RetryBesideCopyExactly(c: Config, l: Leg, deleteAfter: bool, limit: nat, oracle: Oracle)
    requires AtMostOne(l.d.history) && Copies(l.d.history) > 0
    requires NativeApplies(c, l.d.settings, l.p) ==> !RequestOf(c, l).Edit?
    ensures var t := l.p.tick;
            var gate := oracle(t + 1).gate;
            AtMostOne(ToRoute(c, l, deleteAfter, limit, oracle).0.d.history) <==>
              !(&& Passes(oracle(t).access)
                && (if NativeApplies(c, l.d.settings, l.p) then
                      && !(DirectCaption(c, l.d.settings, l.p) && l.d.settings.captionError)
                      && (gate == Open || (gate == Unissued && FollowUpGoesOut(c, l, t + 2, oracle)))
                    else UploadGoesOut(l.(p := Asked(l.p, oracle(t))), oracle)))
  {
    RouteBreaksExactly(c, l, deleteAfter, limit, oracle);
  }

  /** A delivery that is resumed to set the caption of a captured message. */
  predicate ResumesEdit(c: Config, l: Leg) {
    && l.p.stage == CaptionEditFailed && c.hasMessage && l.d.messageId > 0
    && l.d.settings.indexed && l.d.settings.custom && !l.d.settings.protect && !l.d.settings.captionError
  }

  /** The edit was not made: the account limit could not be read, or it ended in one of the answers
      after which the caller uploads. */
  predicate EditFallsThrough(a: Answer, hasPath: bool) {
    a.gate == Unissued || (a.gate == Open &&
                           (RefusedBefore(a.reply) || (hasPath && (a.reply.Lost? || a.reply.Unresolved?))))
  }

  /** Exactly then: a delivery resumed for a caption edit posts beside the message if and only if the
      edit falls through to the upload and that goes out. With a local file a lost edit does so too,
      which was already recorded as uncertain. */
  lemma ResumedEditExactly(c: Config, l: Leg, deleteAfter: bool, limit: nat, oracle: Oracle)
    requires ResumesEdit(c, l) && AtMostOne(l.d.history) && Copies(l.d.history) > 0
    ensures var t := l.p.tick;
            AtMostOne(ToRoute(c, l, deleteAfter, limit, oracle).0.d.history) <==>
              !(&& Passes(oracle(t).access) && EditFallsThrough(oracle(t + 1), l.p.hasPath)
                && (if l.p.hasPath then oracle(t + 2).local && oracle(t + 3).gate == Open
                    else FallbackGoesOut(c, t + 2, oracle)))
  {
    AtMostOneAlways(l.d.history, |l.d.history|);
    assert l.d.history[..|l.d.history|] == l.d.history;
    RouteBreaksExactly(c, l, deleteAfter, limit, oracle);
    ResumedEditBreaks(c, l, oracle);
  }

  lemma ResumedEditBreaks(c: Config, l: Leg, oracle: Oracle)
    requires ResumesEdit(c, l) && Copies(l.d.history) == 1
    ensures var t := l.p.tick;
            Breaks(c, l, oracle) <==>
              && Passes(oracle(t).access) && EditFallsThrough(oracle(t + 1), l.p.hasPath)
              && (if l.p.hasPath then oracle(t + 2).local && oracle(t + 3).gate == Open
                  else FallbackGoesOut(c, t + 2, oracle))
  {
    assert RequestOf(c, l) == Edit;
  }
}
