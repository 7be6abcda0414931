/** At most one copy per destination (core-service/internal/app/forward.go): when a run of a forward
    job can post a second one, and what a row that goes back into the queue guarantees. */
module ForwardSafety {
  import opened ForwardDelivery
  import opened ForwardAgreement
  import opened ForwardBound

  // ---- Copies at one destination ----

  predicate LastUploaded(h: History) {
    h != [] && h[|h| - 1].request.Upload?
  }

  predicate LostUpload(h: History) {
    h != [] && h[|h| - 1] == Exchange(Upload, Lost)
  }

  /** A request that may have posted a message the record does not know of. */
  predicate MayHavePosted(e: Exchange) {
    (e.reply.Lost? && !e.request.Edit?) || (e.request == Native(true) && e.reply.Unresolved?)
  }

  predicate LeftUnmarked(h: History) {
    h != [] && MayHavePosted(h[|h| - 1])
  }

  /** A copy that no later run knows of: of a record that the lookup finds, a lost upload. */
  predicate Stranded(d: Dest) {
    if d.settings.indexed then LostUpload(d.history) else LeftUnmarked(d.history)
  }

  /** The record holds the id of the posted message, whose caption is still to be edited; the next
      native request edits it. */
  predicate Captured(c: Config, d: Dest) {
    && d.settings.indexed && d.messageId > 0 && d.settings.custom && !d.settings.protect
    && c.DirectCaptions() && c.hasMessage && !LastUploaded(d.history)
  }

  /** No destination forces an upload. */
  predicate Plain(c: Config, dests: seq<Dest>) {
    forall k :: 0 <= k < |dests| ==> !dests[k].settings.protect && (dests[k].settings.custom ==> c.DirectCaptions())
  }

  /** A destination that may still get a request has no copy, or a captured one that a job
      without a local file will edit. */
  predicate Recoverable(c: Config, d: Dest, hasPath: bool) {
    Copies(d.history) > 0 ==> Captured(c, d) && !hasPath
  }

  predicate LegSafe(c: Config, d: Dest, hasPath: bool) {
    AtMostOne(d.history) && Recoverable(c, d, hasPath)
  }

  /** Stages in which a job with a local file uploads it. */
  predicate PlainStage(p: Progress) {
    p.stage != CaptionEditFailed && (p.hasPath ==> p.stage != NativeForward)
  }

  /** A native request is possible only for a destination that takes one. */
  predicate Suits(c: Config, l: Leg) {
    !l.p.hasPath && c.hasMessage ==> !l.d.settings.protect && (l.d.settings.custom ==> c.DirectCaptions())
  }

  /** A destination after its delivery: a failure with a known outcome leaves a record that the next
      run may take up, unless the context ended and left a copy that no later run knows of. */
  predicate LegAfter(c: Config, before: Dest, l: Leg, ok: bool, hasPath: bool) {
    && AtMostOne(l.d.history) && l.d.settings == before.settings && PlainStage(l.p)
    && (hasPath ==> l.p.hasPath)
    && (!ok && l.d.status != Uncertain ==> Recoverable(c, l.d, hasPath) || (l.p.cancelled && Stranded(l.d)))
  }

  // ---- The upload ----

  lemma UploadSafe(c: Config, l: Leg, deleteAfter: bool, limit: nat, oracle: Oracle, hasPath: bool)
    requires AtMostOne(l.d.history) && Copies(l.d.history) == 0 && l.d.settings.indexed && PlainStage(l.p)
    requires hasPath ==> l.p.hasPath
    ensures var (k, ok) := UploadStep(l, deleteAfter, limit, oracle);
            LegAfter(c, l.d, k, ok, hasPath)
  {
    var a := oracle(l.p.tick);
    var ready := l.(p := Asked(l.p, a));
    if a.local && !l.d.settings.captionError {
      SendLoopSafe(ready, 1, limit, oracle);
      var (k, sending) := SendLoop(ready, 1, limit, oracle);
      if sending.Answered? {
        OutcomeSafe(c, l.d, k, deleteAfter, sending.reply, hasPath);
      }
    }
  }

  lemma OutcomeSafe(c: Config, before: Dest, l: Leg, deleteAfter: bool, reply: Reply, hasPath: bool)
    requires AtMostOne(l.d.history) && l.d.settings == before.settings && l.d.settings.indexed && PlainStage(l.p) &&
             (hasPath ==> l.p.hasPath)
    requires (!(reply.Accepted? || reply.Lost?) ==> Copies(l.d.history) == 0) &&
             (reply.Lost? ==> LostUpload(l.d.history))
    ensures var (k, ok) := UploadOutcome(l, deleteAfter, reply);
            LegAfter(c, before, k, ok, hasPath)
  {
  }

  // ---- The native attempt, and when it leaves a copy behind ----

  /** A copy is at the destination and the attempt goes past it: the account limit could not be
      read, or the edit was refused before Telegram was asked. */
  predicate Beside(c: Config, l: Leg, a: Answer) {
    && Copies(l.d.history) > 0
    && (a.gate == Unissued || (a.gate == Open && NativeRequest(EditsCaption(c, l.d, l.p), KnownId(l.d)).Edit? &&
                               RefusedBefore(a.reply)))
  }

  /** A message was posted whose caption could not be set and whose id is not known. */
  predicate Nameless(c: Config, l: Leg, a: Answer) {
    a.gate == Open && NativeRequest(EditsCaption(c, l.d, l.p), KnownId(l.d)) == Native(true) && a.reply == Unresolved(0)
  }

  predicate Leaks(c: Config, l: Leg, a: Answer) {
    Beside(c, l, a) || Nameless(c, l, a)
  }

  /** What the native attempt leaves of a safe record. */
  lemma NativeSafe(c: Config, l: Leg, a: Answer)
    requires l.d.settings.indexed && LegSafe(c, l.d, false) && PlainStage(l.p) && !l.p.hasPath && Suits(c, l) &&
             NativeApplies(c, l.d.settings, l.p)
    ensures var (k, next) := NativeStep(c, l, a);
            && AtMostOne(k.d.history) && k.d.settings == l.d.settings && PlainStage(k.p) && !k.p.hasPath
            && !next.TryUpload?
            && (next == Return(false) && k.d.status != Uncertain ==> Recoverable(c, k.d, false))
            && (next.TryDownload? && !Nameless(c, l, a) ==> Recoverable(c, k.d, false))
  {
    var request := NativeRequest(EditsCaption(c, l.d, l.p), KnownId(l.d));
    var (k, next) := NativeStep(c, l, a);
    NativeOpenOrNot(c, l, a, request);
    if k.d.history == l.d.history {
      RecordStays(c, l.d, k.d);
    } else {
      NativeSent(c, l, a, request, k.d, next);
    }
  }

  lemma RecordStays(c: Config, d: Dest, k: Dest)
    requires LegSafe(c, d, false) && k.history == d.history && k.settings == d.settings &&
             (d.messageId > 0 ==> k.messageId > 0)
    ensures AtMostOne(k.history) && Recoverable(c, k, false)
  {
  }

  lemma NativeSent(c: Config, l: Leg, a: Answer, request: Request, d: Dest, next: Next)
    requires request == NativeRequest(EditsCaption(c, l.d, l.p), KnownId(l.d)) && l.d.settings.indexed &&
             LegSafe(c, l.d, false) && !l.p.hasPath && Suits(c, l) && c.hasMessage && a.gate == Open
    requires d == NativeStep(c, l, a).0.d && next == NativeStep(c, l, a).1 &&
             d.history == Sent(l.d, request, a.reply).history && d.settings == l.d.settings
    ensures AtMostOne(d.history)
    ensures next != Return(true) && !a.reply.Lost? && !Nameless(c, l, a) ==> Recoverable(c, d, false)
    ensures (a.reply.Lost? ==> d.status == Uncertain) && (next.TryDownload? ==> !a.reply.Lost?) &&
            (next == Return(false) ==> !Nameless(c, l, a))
  {
    SentCopies(l.d, request, a.reply);
    CapturedEdits(c, l, request);
    NativeOpen(c, l, a);
    NativeLeaves(c, l, a, request);
    assert d.history[|d.history| - 1] == Exchange(request, a.reply);
  }

  lemma CapturedEdits(c: Config, l: Leg, request: Request)
    requires request == NativeRequest(EditsCaption(c, l.d, l.p), KnownId(l.d)) && LegSafe(c, l.d, false) && !l.p.hasPath
    ensures Copies(l.d.history) <= 1 && (Copies(l.d.history) > 0 ==> request == Edit)
  {
  }

  /** A message that is there after an attempt that failed or goes to the fallback is known by its
      id, unless it is nameless. */
  lemma NativeLeaves(c: Config, l: Leg, a: Answer, request: Request)
    requires request == NativeRequest(EditsCaption(c, l.d, l.p), KnownId(l.d)) && l.d.settings.indexed &&
             LegSafe(c, l.d, false) && !l.p.hasPath && Suits(c, l) && c.hasMessage && a.gate == Open
    ensures var (k, next) := NativeStep(c, l, a);
            CopiesAfter(Copies(l.d.history), Exchange(request, a.reply)) > 0 && next != Return(true) &&
            !a.reply.Lost? && !Nameless(c, l, a) && k.d.history != l.d.history ==>
              k.d.messageId > 0 && l.d.settings.custom && !l.d.settings.protect && c.DirectCaptions()
  {
    NativeOpen(c, l, a);
    CapturedEdits(c, l, request);
    var (k, next) := NativeStep(c, l, a);
    if k.d.history != l.d.history {
      var id := ReportedId(request, KnownId(l.d), a.reply);
      assert k.d == NativeDest(Sent(l.d, request, a.reply), id, a.reply);
      if request == Native(true) {
        assert l.d.settings.custom;
      }
    }
  }

  /** Where a native attempt without a local file leaves the job. */
  lemma NativeOpenOrNot(c: Config, l: Leg, a: Answer, request: Request)
    requires request == NativeRequest(EditsCaption(c, l.d, l.p), KnownId(l.d)) && !l.p.hasPath
    ensures var (k, next) := NativeStep(c, l, a);
            && k.d.settings == l.d.settings && !k.p.hasPath && !next.TryUpload?
            && (l.d.messageId > 0 ==> k.d.messageId > 0)
            && (k.d.history == l.d.history || (a.gate == Open && k.d.history == Sent(l.d, request, a.reply).history))
            && (k.p.stage == l.p.stage || k.p.stage == FallbackDownload)
            && (next.TryDownload? ==> k.p.tick == l.p.tick + 1)
  {
    if a.gate == Open {
      NativeOpen(c, l, a);
      var id := ReportedId(request, KnownId(l.d), a.reply);
      OutcomeKeeps(Sent(l.d, request, a.reply), Gated(l.p, a), id, a.reply);
      OutcomePlace(Sent(l.d, request, a.reply), Gated(l.p, a), id, a.reply);
    }
  }

  lemma OutcomePlace(d: Dest, p: Progress, id: nat, reply: Reply)
    requires !p.hasPath
    ensures var (l, next) := NativeOutcome(d, p, id, reply);
            && !l.p.hasPath && l.p.tick == p.tick && !next.TryUpload? && (d.messageId > 0 ==> l.d.messageId > 0)
            && (l.p.stage == p.stage || l.p.stage == FallbackDownload)
  {
    match reply {
      case Lost => assert Mark(d, d) == d;
      case _ =>
    }
  }

  /** Exactly then: for every safe record of a job without a local file, the native attempt
      starts the fallback upload beside an existing copy if and only if the answer leaks. */
  lemma FallbackBesideCopyExactly(c: Config, l: Leg, a: Answer)
    requires LegSafe(c, l.d, false) && PlainStage(l.p) && !l.p.hasPath && NativeApplies(c, l.d.settings, l.p)
    requires DirectCaption(c, l.d.settings, l.p) ==> !l.d.settings.captionError
    ensures var (k, next) := NativeStep(c, l, a);
            next.TryDownload? && Copies(k.d.history) > 0 <==> Leaks(c, l, a)
  {
    var request := NativeRequest(EditsCaption(c, l.d, l.p), KnownId(l.d));
    SentCopies(l.d, request, a.reply);
    if a.gate == Open {
      NativeOpen(c, l, a);
      OutcomeNext(Sent(l.d, request, a.reply), Gated(l.p, a), ReportedId(request, KnownId(l.d), a.reply), a.reply);
      OutcomeKeeps(Sent(l.d, request, a.reply), Gated(l.p, a), ReportedId(request, KnownId(l.d), a.reply), a.reply);
    }
  }

  lemma OutcomeNext(d: Dest, p: Progress, id: nat, reply: Reply)
    ensures NativeOutcome(d, p, id, reply).1.TryDownload? <==>
              !p.hasPath && id == 0 && (reply.Rejected? || reply.Flood? || reply.Unresolved?)
  {
  }

  /** A retry of a captured message never posts a second one natively: it edits. */
  lemma CapturedRetryIsEdit(c: Config, l: Leg, a: Answer)
    requires Captured(c, l.d) && !l.p.hasPath && a.gate == Open && !l.d.settings.captionError
    ensures NativeApplies(c, l.d.settings, l.p)
    ensures NativeStep(c, l, a).0.d.history == l.d.history + [Exchange(Edit, a.reply)]
  {
  }

  // ---- One destination ----

  /** The native request of this delivery is reached. */
  predicate TriesNative(c: Config, l: Leg, oracle: Oracle) {
    && Passes(oracle(l.p.tick).access) && NativeApplies(c, l.d.settings, l.p)
    && !(DirectCaption(c, l.d.settings, l.p) && l.d.settings.captionError)
  }

  /** The answers under which a delivery that starts at `l` posts beside a copy. */
  predicate Duplicates(c: Config, l: Leg, oracle: Oracle) {
    TriesNative(c, l, oracle) && Leaks(c, l, oracle(l.p.tick + 1)) && FallbackGoesOut(c, l.p.tick + 2, oracle)
  }

  /** A record that the lookup does not find fails with a copy that nothing marks, in a run that
      goes on. */
  predicate LeavesUnmarked(c: Config, l: Leg, limit: nat, oracle: Oracle) {
    var (k, ok) := ToRoute(c, l, false, limit, oracle);
    !l.d.settings.indexed && !ok && !k.p.cancelled && LeftUnmarked(k.d.history)
  }

  /** ... or leaves one that no later run knows of. */
  predicate Strays(c: Config, l: Leg, limit: nat, oracle: Oracle) {
    || Duplicates(c, l, oracle)
    || (TriesNative(c, l, oracle) && Nameless(c, l, oracle(l.p.tick + 1)))
    || LeavesUnmarked(c, l, limit, oracle)
  }

  /** For a safe record the answers that break the bound are these. */
  lemma SafeBreaks(c: Config, l: Leg, oracle: Oracle)
    requires LegSafe(c, l.d, l.p.hasPath) && PlainStage(l.p) && Suits(c, l)
    ensures Breaks(c, l, oracle) <==> Duplicates(c, l, oracle)
  {
    AtMostOneAlways(l.d.history, |l.d.history|);
    assert l.d.history[..|l.d.history|] == l.d.history;
    if NativeApplies(c, l.d.settings, l.p) {
      SafeAttempt(c, l, oracle(l.p.tick + 1), FollowUpGoesOut(c, l, l.p.tick + 2, oracle));
    }
  }

  lemma SafeAttempt(c: Config, l: Leg, a: Answer, followUp: bool)
    requires LegSafe(c, l.d, false) && !l.p.hasPath && Copies(l.d.history) <= 1
    ensures AttemptBreaks(c, l, a, followUp) <==> Leaks(c, l, a) && followUp
  {
    CapturedEdits(c, l, RequestOf(c, l));
  }

  /** Exactly then: for every safe record, whatever Telegram, the gate and the disk answer, a
      delivery makes a second copy possible if and only if a copy is leaked and the fallback upload
      goes out. */
  lemma RouteDuplicatesExactly(c: Config, l: Leg, deleteAfter: bool, limit: nat, oracle: Oracle)
    requires LegSafe(c, l.d, l.p.hasPath) && PlainStage(l.p) && Suits(c, l)
    ensures AtMostOne(ToRoute(c, l, deleteAfter, limit, oracle).0.d.history) <==> !Duplicates(c, l, oracle)
  {
    RouteBreaksExactly(c, l, deleteAfter, limit, oracle);
    SafeBreaks(c, l, oracle);
  }

  /** The fallback after a refused native attempt, without a copy ... */
  lemma RefetchedSafe(c: Config, l: Leg, deleteAfter: bool, limit: nat, oracle: Oracle)
    requires !l.p.hasPath && AtMostOne(l.d.history) && Copies(l.d.history) == 0 && l.d.settings.indexed &&
             PlainStage(l.p)
    ensures var (k, ok) := Refetched(c, l, deleteAfter, limit, oracle);
            LegAfter(c, l.d, k, ok, false)
  {
    var (p, ok) := DownloadStep(c, l.p, oracle(l.p.tick));
    if ok {
      var checked := l.(p := Asked(p, oracle(p.tick)));
      FetchedUploads(c, l.(p := p), deleteAfter, limit, oracle);
      if Passes(oracle(p.tick).access) {
        UploadSafe(c, checked, deleteAfter, limit, oracle, false);
      }
    }
  }

  /** ... and beside one. */
  lemma RefetchedBesideCopy(c: Config, l: Leg, deleteAfter: bool, limit: nat, oracle: Oracle)
    requires !l.p.hasPath && AtMostOne(l.d.history) && Copies(l.d.history) > 0 && PlainStage(l.p) && c.hasMessage
    ensures var (k, ok) := Refetched(c, l, deleteAfter, limit, oracle);
            && (AtMostOne(k.d.history) <==> !(FallbackGoesOut(c, l.p.tick, oracle) && !l.d.settings.captionError))
            && (AtMostOne(k.d.history) ==> !ok && SameRecord(l.d, k.d) && PlainStage(k.p))
  {
    var (p, ok) := DownloadStep(c, l.p, oracle(l.p.tick));
    if ok {
      FetchedBesideCopy(c, l.(p := p), deleteAfter, limit, oracle);
    }
  }

  lemma FetchedBesideCopy(c: Config, l: Leg, deleteAfter: bool, limit: nat, oracle: Oracle)
    requires l.p.hasPath && l.p.stage == FallbackUpload && AtMostOne(l.d.history) && Copies(l.d.history) > 0
    ensures var (k, ok) := ToRoute(c, l, deleteAfter, limit, oracle);
            && (AtMostOne(k.d.history) <==>
                  !(Passes(oracle(l.p.tick).access) && UploadGoesOut(l.(p := Asked(l.p, oracle(l.p.tick))), oracle)))
            && (AtMostOne(k.d.history) ==> !ok && SameRecord(l.d, k.d) && PlainStage(k.p))
  {
    FetchedUploads(c, l, deleteAfter, limit, oracle);
    if Passes(oracle(l.p.tick).access) {
      UploadBesideCopy(l.(p := Asked(l.p, oracle(l.p.tick))), deleteAfter, limit, oracle);
    }
  }

  /** One destination: from a safe record a delivery that does not stray never makes a second copy
      possible, and the record it leaves for a retry is safe again. */
  lemma RouteSafe(c: Config, l: Leg, deleteAfter: bool, limit: nat, oracle: Oracle)
    requires LegSafe(c, l.d, l.p.hasPath) && PlainStage(l.p) && Suits(c, l) && !Strays(c, l, limit, oracle)
    ensures var (k, ok) := ToRoute(c, l, deleteAfter, limit, oracle);
            LegAfter(c, l.d, k, ok, l.p.hasPath)
  {
    RouteDuplicatesExactly(c, l, deleteAfter, limit, oracle);
    if l.d.settings.indexed {
      IndexedRouteSafe(c, l, deleteAfter, limit, oracle);
    } else {
      RouteKeepsPlain(c, l, deleteAfter, limit, oracle);
      UnmarkedCopyExactly(c, l, deleteAfter, limit, oracle);
      DeletesNothingElse(c, l, deleteAfter, limit, oracle);
    }
  }

  lemma IndexedRouteSafe(c: Config, l: Leg, deleteAfter: bool, limit: nat, oracle: Oracle)
    requires l.d.settings.indexed && LegSafe(c, l.d, l.p.hasPath) && PlainStage(l.p) && Suits(c, l)
    requires !Strays(c, l, limit, oracle) && AtMostOne(ToRoute(c, l, deleteAfter, limit, oracle).0.d.history)
    ensures var (k, ok) := ToRoute(c, l, deleteAfter, limit, oracle);
            LegAfter(c, l.d, k, ok, l.p.hasPath)
  {
    var checked := l.(p := Asked(l.p, oracle(l.p.tick)));
    if !Passes(oracle(l.p.tick).access) {
    } else if NativeApplies(c, l.d.settings, l.p) {
      AttemptSafe(c, checked, deleteAfter, limit, oracle);
    } else {
      UploadSafe(c, checked, deleteAfter, limit, oracle, l.p.hasPath);
    }
  }

  // ---- Records that the lookup does not find ----

  /** Nothing but requests was added, and the last one tells how the delivery ended. */
  predicate OnlyRequests(before: Dest, after: Dest, ok: bool) {
    && after == before.(history := after.history)
    && (if after.history == before.history then !ok
        else after.history != [] && (var last := after.history[|after.history| - 1];
                                     !last.request.Edit? && (last.reply.Accepted? <==> ok)))
  }

  lemma OnlyRequestsOn(a: Dest, b: Dest, c: Dest, ok: bool)
    requires OnlyRequests(a, b, false) && OnlyRequests(b, c, ok) && a.history <= b.history <= c.history
    ensures OnlyRequests(a, c, ok)
  {
  }

  lemma {:induction false} SendOnly(l: Leg, attempt: nat, limit: nat, oracle: Oracle)
    requires !l.d.settings.indexed
    ensures var (k, sending) := SendLoop(l, attempt, limit, oracle);
            OnlyRequests(l.d, k.d, sending.Answered? && sending.reply.Accepted?)
    decreases limit - attempt
  {
    var a := oracle(l.p.tick);
    var sent := Leg(Sent(l.d, Upload, a.reply), Gated(l.p, a));
    if a.gate == Open && a.reply.Flood? && attempt < limit {
      SendOnly(sent, attempt + 1, limit, oracle);
      SendExtends(sent, attempt + 1, limit, oracle);
      OnlyRequestsOn(l.d, sent.d, SendLoop(sent, attempt + 1, limit, oracle).0.d,
                     SendLoop(l, attempt, limit, oracle).1 != NotSent &&
                     SendLoop(l, attempt, limit, oracle).1.reply.Accepted?);
    }
  }

  lemma UploadOnlyRequests(l: Leg, deleteAfter: bool, limit: nat, oracle: Oracle)
    requires !l.d.settings.indexed
    ensures var (k, ok) := UploadStep(l, deleteAfter, limit, oracle);
            OnlyRequests(l.d, k.d, ok)
  {
    SendOnly(l.(p := Asked(l.p, oracle(l.p.tick))), 1, limit, oracle);
  }

  lemma NativeOnlyRequests(c: Config, l: Leg, a: Answer)
    requires !l.d.settings.indexed
    ensures var (k, next) := NativeStep(c, l, a);
            OnlyRequests(l.d, k.d, next == Return(true))
  {
    if a.gate == Open {
      NativeOpen(c, l, a);
    }
  }

  lemma RefetchedOnlyRequests(c: Config, l: Leg, deleteAfter: bool, limit: nat, oracle: Oracle)
    requires !l.d.settings.indexed && !l.p.hasPath
    ensures var (k, ok) := Refetched(c, l, deleteAfter, limit, oracle);
            OnlyRequests(l.d, k.d, ok)
  {
    var (p, ok) := DownloadStep(c, l.p, oracle(l.p.tick));
    if ok {
      FetchedUploads(c, l.(p := p), deleteAfter, limit, oracle);
      UploadOnlyRequests(l.(p := Asked(p, oracle(p.tick))), deleteAfter, limit, oracle);
    }
  }

  lemma AttemptOnlyRequests(c: Config, l: Leg, deleteAfter: bool, limit: nat, oracle: Oracle)
    requires !l.d.settings.indexed
    ensures var (k, ok) := AfterNative(c, NativeStep(c, l, oracle(l.p.tick)), deleteAfter, limit, oracle);
            OnlyRequests(l.d, k.d, ok)
  {
    var (k, next) := NativeStep(c, l, oracle(l.p.tick));
    var (m, ok) := AfterNative(c, (k, next), deleteAfter, limit, oracle);
    NativeOnlyRequests(c, l, oracle(l.p.tick));
    NativeExtends(c, l, oracle(l.p.tick));
    FollowExtends(c, k, next, deleteAfter, limit, oracle);
    match next
    case Return(_) =>
    case TryUpload =>
      UploadOnlyRequests(k, deleteAfter, limit, oracle);
      OnlyRequestsOn(l.d, k.d, m.d, ok);
    case TryDownload =>
      RefetchedOnlyRequests(c, k, deleteAfter, limit, oracle);
      OnlyRequestsOn(l.d, k.d, m.d, ok);
  }

  lemma RouteOnlyRequests(c: Config, l: Leg, deleteAfter: bool, limit: nat, oracle: Oracle)
    requires !l.d.settings.indexed
    ensures var (k, ok) := ToRoute(c, l, deleteAfter, limit, oracle);
            OnlyRequests(l.d, k.d, ok)
  {
    var checked := l.(p := Asked(l.p, oracle(l.p.tick)));
    if Passes(oracle(l.p.tick).access) {
      if NativeApplies(c, l.d.settings, l.p) {
        NativeReached(c, l, deleteAfter, limit, oracle);
        AttemptOnlyRequests(c, checked, deleteAfter, limit, oracle);
      } else {
        UploadOnlyRequests(checked, deleteAfter, limit, oracle);
      }
    }
  }

  /** Exactly then: a delivery whose record the lookup does not find changes nothing in it, and when
      it fails within the bound a copy is left, unmarked, if and only if its last request was answered
      "lost", or was a forward with a caption edit answered "unresolved". */
  lemma UnmarkedCopyExactly(c: Config, l: Leg, deleteAfter: bool, limit: nat, oracle: Oracle)
    requires !l.d.settings.indexed && Copies(l.d.history) == 0
    ensures var (k, ok) := ToRoute(c, l, deleteAfter, limit, oracle);
            && k.d == l.d.(history := k.d.history)
            && (!ok && AtMostOne(k.d.history) ==> (Copies(k.d.history) > 0 <==> LeftUnmarked(k.d.history)))
  {
    RouteOnlyRequests(c, l, deleteAfter, limit, oracle);
    var k := ToRoute(c, l, deleteAfter, limit, oracle).0;
    if k.d.history == l.d.history {
      UnmarkedIsCopy(l.d.history);
    } else if AtMostOne(k.d.history) && !ToRoute(c, l, deleteAfter, limit, oracle).1 {
      LastRequestTells(k.d.history);
    }
  }

  lemma UnmarkedIsCopy(h: History)
    ensures LeftUnmarked(h) ==> Copies(h) > 0
  {
  }

  lemma LastRequestTells(h: History)
    requires h != [] && !h[|h| - 1].request.Edit? && !h[|h| - 1].reply.Accepted? && AtMostOne(h)
    ensures Copies(h) > 0 <==> LeftUnmarked(h)
  {
  }

  /** Whether the local file may be deleted changes nothing else. */
  predicate SameEnd(a: (Leg, bool), b: (Leg, bool)) {
    a.1 == b.1 && a.0.d == b.0.d && a.0.p.cancelled == b.0.p.cancelled
  }

  lemma UploadDeletesNothingElse(l: Leg, deleteAfter: bool, limit: nat, oracle: Oracle)
    ensures SameEnd(UploadStep(l, deleteAfter, limit, oracle), UploadStep(l, false, limit, oracle))
  {
  }

  lemma RefetchDeletesNothingElse(c: Config, l: Leg, deleteAfter: bool, limit: nat, oracle: Oracle)
    requires !l.p.hasPath
    ensures SameEnd(Refetched(c, l, deleteAfter, limit, oracle), Refetched(c, l, false, limit, oracle))
  {
    var (p, ok) := DownloadStep(c, l.p, oracle(l.p.tick));
    if ok {
      FetchedUploads(c, l.(p := p), deleteAfter, limit, oracle);
      FetchedUploads(c, l.(p := p), false, limit, oracle);
      UploadDeletesNothingElse(l.(p := Asked(p, oracle(p.tick))), deleteAfter, limit, oracle);
    }
  }

  lemma FollowDeletesNothingElse(c: Config, l: Leg, next: Next, deleteAfter: bool, limit: nat, oracle: Oracle)
    requires next.TryDownload? ==> !l.p.hasPath
    ensures SameEnd(AfterNative(c, (l, next), deleteAfter, limit, oracle),
                    AfterNative(c, (l, next), false, limit, oracle))
  {
    match next
    case Return(_) =>
    case TryUpload => UploadDeletesNothingElse(l, deleteAfter, limit, oracle);
    case TryDownload => RefetchDeletesNothingElse(c, l, deleteAfter, limit, oracle);
  }

  lemma DeletesNothingElse(c: Config, l: Leg, deleteAfter: bool, limit: nat, oracle: Oracle)
    ensures SameEnd(ToRoute(c, l, deleteAfter, limit, oracle), ToRoute(c, l, false, limit, oracle))
  {
    var checked := l.(p := Asked(l.p, oracle(l.p.tick)));
    if Passes(oracle(l.p.tick).access) {
      if NativeApplies(c, l.d.settings, l.p) {
        NativeReached(c, l, deleteAfter, limit, oracle);
        NativeReached(c, l, false, limit, oracle);
        var (k, next) := NativeStep(c, checked, oracle(l.p.tick + 1));
        FollowDeletesNothingElse(c, k, next, deleteAfter, limit, oracle);
      } else {
        UploadDeletesNothingElse(checked, deleteAfter, limit, oracle);
      }
    }
  }

  lemma AttemptSafe(c: Config, l: Leg, deleteAfter: bool, limit: nat, oracle: Oracle)
    requires l.d.settings.indexed && LegSafe(c, l.d, false) && PlainStage(l.p) && !l.p.hasPath && Suits(c, l) &&
             NativeApplies(c, l.d.settings, l.p)
    requires (DirectCaption(c, l.d.settings, l.p) && l.d.settings.captionError) || !Nameless(c, l, oracle(l.p.tick))
    ensures var (k, ok) := AfterNative(c, NativeStep(c, l, oracle(l.p.tick)), deleteAfter, limit, oracle);
            AtMostOne(k.d.history) ==> LegAfter(c, l.d, k, ok, false)
  {
    var a := oracle(l.p.tick);
    NativeSafe(c, l, a);
    NativeOpenOrNot(c, l, a, NativeRequest(EditsCaption(c, l.d, l.p), KnownId(l.d)));
    var (k, next) := NativeStep(c, l, a);
    if next.TryDownload? {
      if Copies(k.d.history) == 0 {
        RefetchedSafe(c, k, deleteAfter, limit, oracle);
      } else {
        RefetchedBesideCopy(c, k, deleteAfter, limit, oracle);
      }
    }
  }

  // ---- A whole run ----

  /** A job's destinations when it may be claimed: at most the first one not yet served holds a
      copy, which the job will edit. */
  predicate RowClean(c: Config, dests: seq<Dest>, hasPath: bool) {
    && (forall k :: 0 <= k < |dests| ==> AtMostOne(dests[k].history))
    && (forall k :: 0 <= k < |dests| && !Served(dests[k]) && Copies(dests[k].history) > 0 ==>
          Captured(c, dests[k]) && !hasPath && Plain(c, dests) && forall m :: 0 <= m < k ==> Served(dests[m]))
  }

  /** Where the loop over the destinations stands: the earlier ones are served. */
  predicate LoopClean(j: Job, i: nat)
    requires i <= |j.dests|
  {
    && RowClean(j.config, j.dests, j.at.hasPath) && PlainStage(j.at)
    && (forall k :: 0 <= k < i ==> Served(j.dests[k]))
    && (j.at.hasPath || Plain(j.config, j.dests))
  }

  lemma LegOfClean(j: Job, i: nat)
    requires i < |j.dests| && LoopClean(j, i) && !Served(j.dests[i])
    ensures LegSafe(j.config, LegOf(j, i).d, j.at.hasPath) && PlainStage(LegOf(j, i).p) && Suits(j.config, LegOf(j, i))
    ensures Copies(j.dests[i].history) > 0 ==> Captured(j.config, LegOf(j, i).d)
  {
  }

  /** A run of the job posts beside a copy, or leaves one that no later run knows of. */
  predicate RunStrays(j: Job, limit: nat, oracle: Oracle) {
    BodyMeets(j.(attempts := j.attempts + 1), limit, oracle, l => Strays(j.config, l, limit, oracle))
  }

  /** A run of the job leaves a copy behind a record that the lookup does not find. */
  predicate RunLeavesUnmarked(j: Job, limit: nat, oracle: Oracle) {
    BodyMeets(j.(attempts := j.attempts + 1), limit, oracle, l => LeavesUnmarked(j.config, l, limit, oracle))
  }

  /** The loop goes on after a success ... */
  lemma AfterSuccess(j: Job, i: nat, limit: nat, oracle: Oracle)
    requires i < |j.dests| && LoopClean(j, i) && !Served(j.dests[i])
    requires !Duplicates(j.config, LegOf(j, i), oracle) && Serve(j, i, limit, oracle).1
    ensures LoopClean(Serve(j, i, limit, oracle).0, i + 1)
    ensures forall k :: i < k < |j.dests| ==>
              Serve(j, i, limit, oracle).0.dests[k] == j.dests[k] &&
              (!Served(j.dests[k]) ==> Copies(j.dests[k].history) == 0)
  {
    LegOfClean(j, i);
    var (l, ok) := ToRoute(j.config, LegOf(j, i), DeletesAfter(j, i), limit, oracle);
    RouteDuplicatesExactly(j.config, LegOf(j, i), DeletesAfter(j, i), limit, oracle);
    RouteKeepsPlain(j.config, LegOf(j, i), DeletesAfter(j, i), limit, oracle);
    var dests := j.dests[i := l.d.(status := Forwarded)];
    forall k | 0 <= k < |dests| && !Served(dests[k]) ensures Copies(dests[k].history) == 0 {
      assert k > i && dests[k] == j.dests[k];
    }
  }

  /** What every delivery keeps. */
  lemma RouteKeepsPlain(c: Config, l: Leg, deleteAfter: bool, limit: nat, oracle: Oracle)
    requires PlainStage(l.p)
    ensures var (k, ok) := ToRoute(c, l, deleteAfter, limit, oracle);
            PlainStage(k.p) && (l.p.hasPath ==> k.p.hasPath) && k.d.settings == l.d.settings
  {
    RouteExtends(c, l, deleteAfter, limit, oracle);
    var checked := l.(p := Asked(l.p, oracle(l.p.tick)));
    if Passes(oracle(l.p.tick).access) {
      if NativeApplies(c, l.d.settings, l.p) {
        AttemptKeepsPlain(c, checked, deleteAfter, limit, oracle);
      } else {
        UploadKeepsPlain(checked, deleteAfter, limit, oracle);
      }
    }
  }

  lemma UploadKeepsPlain(l: Leg, deleteAfter: bool, limit: nat, oracle: Oracle)
    ensures var (k, ok) := UploadStep(l, deleteAfter, limit, oracle);
            k.p.stage == l.p.stage && k.p.hasPath == l.p.hasPath
  {
    var a := oracle(l.p.tick);
    var (k, sending) := SendLoop(l.(p := Asked(l.p, a)), 1, limit, oracle);
    if a.local && !l.d.settings.captionError && sending.Answered? {
      UploadRecordKeeps(k, deleteAfter, sending.reply);
    }
  }

  lemma AttemptKeepsPlain(c: Config, l: Leg, deleteAfter: bool, limit: nat, oracle: Oracle)
    requires PlainStage(l.p) && NativeApplies(c, l.d.settings, l.p)
    ensures PlainStage(AfterNative(c, NativeStep(c, l, oracle(l.p.tick)), deleteAfter, limit, oracle).0.p)
  {
    assert !l.p.hasPath;
    NativeOpenOrNot(c, l, oracle(l.p.tick), NativeRequest(EditsCaption(c, l.d, l.p), KnownId(l.d)));
    var (k, next) := NativeStep(c, l, oracle(l.p.tick));
    if next.TryDownload? {
      RefetchedKeepsPlain(c, k, deleteAfter, limit, oracle);
    }
  }

  lemma RefetchedKeepsPlain(c: Config, l: Leg, deleteAfter: bool, limit: nat, oracle: Oracle)
    requires !l.p.hasPath
    ensures PlainStage(Refetched(c, l, deleteAfter, limit, oracle).0.p)
  {
    var (p, ok) := DownloadStep(c, l.p, oracle(l.p.tick));
    if ok {
      UploadKeepsPlain(l.(p := Asked(p, oracle(p.tick))), deleteAfter, limit, oracle);
    }
  }

  /** ... and a failure leaves a clean row behind. */
  lemma AfterFailure(j: Job, i: nat, l: Leg, hasPath: bool)
    requires i < |j.dests| && LoopClean(j, i) && !Served(j.dests[i]) && (hasPath ==> j.at.hasPath)
    requires AtMostOne(l.d.history) && l.d.settings == j.dests[i].settings && Recoverable(j.config, l.d, j.at.hasPath)
    ensures RowClean(j.config, j.dests[i := Unserved(l.d, l.p)], hasPath)
  {
    var dests := j.dests[i := Unserved(l.d, l.p)];
    assert dests[i].settings == j.dests[i].settings && dests[i].history == l.d.history;
    assert Plain(j.config, j.dests) ==> Plain(j.config, dests);
    assert forall k :: 0 <= k < |dests| && k != i ==> dests[k] == j.dests[k];
  }

  lemma FailureCase(j: Job, i: nat, l: Leg, hasPath: bool)
    requires i < |j.dests| && LoopClean(j, i) && !Served(j.dests[i]) && (hasPath ==> j.at.hasPath)
    requires LegAfter(j.config, j.dests[i], l, false, j.at.hasPath)
    ensures var dests := j.dests[i := Unserved(l.d, l.p)];
            && AllAtMostOne(dests) && AllReachable(j.config, dests, l.p.cancelled)
            && (!HasUncertain(dests) && !l.p.cancelled ==> RowClean(j.config, dests, hasPath))
  {
    var dests := j.dests[i := Unserved(l.d, l.p)];
    if !HasUncertain(dests) && !l.p.cancelled {
      assert dests[i].status != Uncertain;
      AfterFailure(j, i, l, hasPath);
    }
  }

  /** Copies at unserved destinations can be edited later, except for stranded ones at the end of a
      cancelled run. */
  predicate AllReachable(c: Config, dests: seq<Dest>, cancelled: bool) {
    forall k :: 0 <= k < |dests| && !Served(dests[k]) && Copies(dests[k].history) > 0 ==>
      Captured(c, dests[k]) || (cancelled && Stranded(dests[k]))
  }

  /** What a run that does not stray leaves, with `hasPath` as the row records it. */
  predicate LeftClean(c: Config, k: Job, hasPath: bool) {
    && AllAtMostOne(k.dests) && k.at.stage != CaptionEditFailed && AllReachable(c, k.dests, k.at.cancelled)
    && (!HasUncertain(k.dests) && !k.at.cancelled ==> RowClean(c, k.dests, hasPath))
  }

  lemma {:induction false} DeliverSafe(j: Job, i: nat, limit: nat, oracle: Oracle, hasPath: bool)
    requires i <= |j.dests| && LoopClean(j, i) && (hasPath ==> j.at.hasPath)
    requires !Meets(j, i, limit, oracle, l => Strays(j.config, l, limit, oracle))
    ensures var (k, status) := Deliver(j, i, limit, oracle);
            |k.dests| == |j.dests| && k.config == j.config && LeftClean(j.config, k, hasPath) &&
            (status == RowForwarded || status == RowFailed)
    decreases |j.dests| - i
  {
    var bad := (l: Leg) => Strays(j.config, l, limit, oracle);
    if i == |j.dests| {
    } else if Served(j.dests[i]) {
      assert !Meets(j, i + 1, limit, oracle, bad);
      DeliverSafe(j, i + 1, limit, oracle, hasPath);
    } else {
      LegOfClean(j, i);
      assert !bad(LegOf(j, i));
      var (k, ok) := Serve(j, i, limit, oracle);
      var (l, _) := ToRoute(j.config, LegOf(j, i), DeletesAfter(j, i), limit, oracle);
      RouteSafe(j.config, LegOf(j, i), DeletesAfter(j, i), limit, oracle);
      if ok {
        AfterSuccess(j, i, limit, oracle);
        assert !Meets(k, i + 1, limit, oracle, bad);
        DeliverSafe(k, i + 1, limit, oracle, hasPath);
      } else {
        FailureCase(j, i, l, hasPath);
      }
    }
  }

  /** A job as a claim hands it to a worker in a run without operator action. */
  predicate ClaimedClean(j: Job) {
    && j.at.stage != CaptionEditFailed
    && (j.dests == [] || |j.dests| == |j.config.routes|)
    && RowClean(j.config, j.dests, j.at.hasPath)
  }

  /** The job as its loop over the destinations starts, if it starts. */
  lemma LoopStarts(j: Job, oracle: Oracle)
    requires j.at.stage != CaptionEditFailed && RowClean(j.config, j.dests, j.at.hasPath)
    ensures var upload := NeedsUpload(j.config, j.at.stage, j.dests);
            var (p, ok) := DownloadStep(j.config, j.at, oracle(j.at.tick));
            && !UnsafeCaptionEdit(j.at.stage, j.dests)
            && (if upload && !j.at.hasPath then (ok ==> LoopClean(j.(at := p.(stage := UploadStage)), 0)) &&
                (forall k :: 0 <= k < |j.dests| && !Served(j.dests[k]) ==> Copies(j.dests[k].history) == 0)
                else LoopClean(j.(at := j.at.(stage := FirstStage(j, upload))), 0))
  {
    var upload := NeedsUpload(j.config, j.at.stage, j.dests);
    if upload {
      assert !Plain(j.config, j.dests) by {
        var k :| 0 <= k < |j.dests| && UploadOnly(j.config, j.at.stage, j.dests[k].settings);
      }
    } else {
      forall k | 0 <= k < |j.dests| ensures !UploadOnly(j.config, j.at.stage, j.dests[k].settings) {}
      assert Plain(j.config, j.dests);
    }
  }

  lemma PreparedSafe(j: Job, limit: nat, oracle: Oracle)
    requires j.at.stage != CaptionEditFailed && RowClean(j.config, j.dests, j.at.hasPath)
    requires !PreparedMeets(j, limit, oracle, l => Strays(j.config, l, limit, oracle))
    ensures var (k, status) := Prepared(j, limit, oracle);
            |k.dests| == |j.dests| && k.config == j.config && LeftClean(j.config, k, j.at.hasPath) &&
            (status == RowForwarded || status == RowFailed)
  {
    LoopStarts(j, oracle);
    var upload := NeedsUpload(j.config, j.at.stage, j.dests);
    if upload && !j.at.hasPath {
      var (p, ok) := DownloadStep(j.config, j.at, oracle(j.at.tick));
      if ok {
        DeliverSafe(j.(at := p.(stage := UploadStage)), 0, limit, oracle, j.at.hasPath);
      }
    } else {
      DeliverSafe(j.(at := j.at.(stage := FirstStage(j, upload))), 0, limit, oracle, j.at.hasPath);
    }
  }

  /** A worker run of a clean job that does not stray never makes a second copy possible at any
      destination, and a row it puts back into the queue is clean again. */
  lemma RunSafe(j: Job, limit: nat, oracle: Oracle)
    requires ClaimedClean(j) && !RunStrays(j, limit, oracle)
    ensures var (k, status) := Run(j, limit, oracle);
            && k.config == j.config && (|k.dests| == |j.dests| || |k.dests| == |j.config.routes|)
            && AllAtMostOne(k.dests)
            && (status == RowPending ==> ClaimedClean(k.(at := k.at.(hasPath := j.at.hasPath))))
  {
    BodySafe(j.(attempts := j.attempts + 1), limit, oracle);
  }

  lemma SizedClean(j: Job)
    requires ClaimedClean(j)
    ensures RowClean(j.config, Sized(j).dests, j.at.hasPath)
  {
  }

  lemma BodySafe(j: Job, limit: nat, oracle: Oracle)
    requires ClaimedClean(j) && !BodyMeets(j, limit, oracle, l => Strays(j.config, l, limit, oracle))
    ensures var (k, status) := Body(j, limit, oracle);
            && k.config == j.config && (|k.dests| == |j.dests| || |k.dests| == |j.config.routes|)
            && LeftClean(j.config, k, j.at.hasPath)
            && (status == RowForwarded || status == RowFailed || status == RowNotApplicable)
  {
    SizedClean(j);
    var asked := j.(at := Asked(j.at, oracle(j.at.tick)));
    assert RowClean(j.config, Sized(asked).dests, j.at.hasPath);
    if !PreparedMeets(Sized(asked), limit, oracle, l => Strays(j.config, l, limit, oracle)) {
      PreparedSafe(Sized(asked), limit, oracle);
    }
  }

  // ---- Which runs do not stray ----

  /** No caption has to be set on a natively forwarded message. */
  predicate NoCaptionEdits(c: Config, dests: seq<Dest>) {
    forall k :: 0 <= k < |dests| ==> !(dests[k].settings.custom && c.DirectCaptions())
  }

  lemma PlainLegNeverStrays(c: Config, l: Leg, limit: nat, oracle: Oracle)
    requires LegSafe(c, l.d, l.p.hasPath) && PlainStage(l.p) && !(l.d.settings.custom && c.DirectCaptions())
    requires !LeavesUnmarked(c, l, limit, oracle)
    ensures !Strays(c, l, limit, oracle)
  {
  }

  lemma {:induction false} PlainDeliver(j: Job, i: nat, limit: nat, oracle: Oracle)
    requires i <= |j.dests| && LoopClean(j, i) && NoCaptionEdits(j.config, j.dests)
    requires !Meets(j, i, limit, oracle, l => LeavesUnmarked(j.config, l, limit, oracle))
    ensures !Meets(j, i, limit, oracle, l => Strays(j.config, l, limit, oracle))
    decreases |j.dests| - i
  {
    var bad := (l: Leg) => Strays(j.config, l, limit, oracle);
    var unmarked := (l: Leg) => LeavesUnmarked(j.config, l, limit, oracle);
    if i == |j.dests| {
    } else if Served(j.dests[i]) {
      assert !Meets(j, i + 1, limit, oracle, unmarked);
      PlainDeliver(j, i + 1, limit, oracle);
      assert Meets(j, i, limit, oracle, bad) == Meets(j, i + 1, limit, oracle, bad);
    } else {
      LegOfClean(j, i);
      assert !unmarked(LegOf(j, i));
      PlainLegNeverStrays(j.config, LegOf(j, i), limit, oracle);
      var (k, ok) := Serve(j, i, limit, oracle);
      if ok {
        assert !Meets(k, i + 1, limit, oracle, unmarked);
        AfterSuccess(j, i, limit, oracle);
        ServeGrows(j, i, limit, oracle);
        PlainDeliver(k, i + 1, limit, oracle);
        assert Meets(j, i, limit, oracle, bad) == Meets(k, i + 1, limit, oracle, bad);
      }
    }
  }

  lemma PlainPrepared(j: Job, limit: nat, oracle: Oracle)
    requires j.at.stage != CaptionEditFailed && RowClean(j.config, j.dests, j.at.hasPath) &&
             NoCaptionEdits(j.config, j.dests)
    requires !PreparedMeets(j, limit, oracle, l => LeavesUnmarked(j.config, l, limit, oracle))
    ensures !PreparedMeets(j, limit, oracle, l => Strays(j.config, l, limit, oracle))
  {
    LoopStarts(j, oracle);
    var upload := NeedsUpload(j.config, j.at.stage, j.dests);
    if upload && !j.at.hasPath {
      var (p, ok) := DownloadStep(j.config, j.at, oracle(j.at.tick));
      if ok {
        PlainDeliver(j.(at := p.(stage := UploadStage)), 0, limit, oracle);
      }
    } else {
      PlainDeliver(j.(at := j.at.(stage := FirstStage(j, upload))), 0, limit, oracle);
    }
  }

  /** A run that meets no such delivery, and none of the others if its loops do not, meets neither. */
  lemma BodyMeetsOther(start: Job, limit: nat, oracle: Oracle, bad: Leg -> bool, other: Leg -> bool)
    requires !BodyMeets(start, limit, oracle, bad)
    ensures var sized := Sized(start.(at := Asked(start.at, oracle(start.at.tick))));
            (PreparedMeets(sized, limit, oracle, bad) || !PreparedMeets(sized, limit, oracle, other)) ==>
              !BodyMeets(start, limit, oracle, other)
  {
  }

  /** Without caption edits no run strays, whatever Telegram, the gate and the disk answer. */
  lemma PlainRunsNeverStray(j: Job, limit: nat, oracle: Oracle)
    requires ClaimedClean(j) && NoCaptionEdits(j.config, Sized(j).dests)
    requires !RunLeavesUnmarked(j, limit, oracle)
    ensures !RunStrays(j, limit, oracle)
  {
    var start := j.(attempts := j.attempts + 1);
    var asked := start.(at := Asked(start.at, oracle(start.at.tick)));
    var unmarked := (l: Leg) => LeavesUnmarked(j.config, l, limit, oracle);
    SizedClean(asked);
    if !PreparedMeets(Sized(asked), limit, oracle, unmarked) {
      PlainPrepared(Sized(asked), limit, oracle);
    }
    BodyMeetsOther(start, limit, oracle, unmarked, l => Strays(j.config, l, limit, oracle));
  }

  /** The account limit can be read, and an edit is not refused before Telegram was asked. */
  predicate EditGoesThrough(a: Answer) {
    a.gate != Unissued && !(a.gate == Open && RefusedBefore(a.reply))
  }

  /** Unserved destinations with a copy find their edit go through. */
  predicate EditsGoThrough(dests: seq<Dest>, a: Answer) {
    forall k :: 0 <= k < |dests| && !Served(dests[k]) && Copies(dests[k].history) > 0 ==> EditGoesThrough(a)
  }

  lemma NamedLegNeverStrays(c: Config, l: Leg, limit: nat, oracle: Oracle)
    requires !LeavesUnmarked(c, l, limit, oracle)
    requires (Copies(l.d.history) > 0 ==> EditGoesThrough(oracle(l.p.tick + 1))) && forall n: nat ::
               oracle(n).reply != Unresolved(0)
    ensures !Strays(c, l, limit, oracle)
  {
    assert oracle(l.p.tick + 1).reply != Unresolved(0);
  }

  lemma {:induction false} NamedDeliver(j: Job, i: nat, limit: nat, oracle: Oracle)
    requires i <= |j.dests| && LoopClean(j, i) && EditsGoThrough(j.dests, oracle(j.at.tick + 1))
    requires forall n: nat :: oracle(n).reply != Unresolved(0)
    requires !Meets(j, i, limit, oracle, l => LeavesUnmarked(j.config, l, limit, oracle))
    ensures !Meets(j, i, limit, oracle, l => Strays(j.config, l, limit, oracle))
    decreases |j.dests| - i
  {
    var bad := (l: Leg) => Strays(j.config, l, limit, oracle);
    var unmarked := (l: Leg) => LeavesUnmarked(j.config, l, limit, oracle);
    if i == |j.dests| {
    } else if Served(j.dests[i]) {
      assert !Meets(j, i + 1, limit, oracle, unmarked);
      NamedDeliver(j, i + 1, limit, oracle);
      assert Meets(j, i, limit, oracle, bad) == Meets(j, i + 1, limit, oracle, bad);
    } else {
      LegOfClean(j, i);
      assert !unmarked(LegOf(j, i));
      NamedLegNeverStrays(j.config, LegOf(j, i), limit, oracle);
      var (k, ok) := Serve(j, i, limit, oracle);
      if ok {
        assert !Meets(k, i + 1, limit, oracle, unmarked);
        AfterSuccess(j, i, limit, oracle);
        NamedDeliver(k, i + 1, limit, oracle);
        assert Meets(j, i, limit, oracle, bad) == Meets(k, i + 1, limit, oracle, bad);
      }
    }
  }

  lemma NamedPrepared(j: Job, limit: nat, oracle: Oracle)
    requires j.at.stage != CaptionEditFailed && RowClean(j.config, j.dests, j.at.hasPath) &&
             EditsGoThrough(j.dests, oracle(j.at.tick + 1))
    requires forall n: nat :: oracle(n).reply != Unresolved(0)
    requires !PreparedMeets(j, limit, oracle, l => LeavesUnmarked(j.config, l, limit, oracle))
    ensures !PreparedMeets(j, limit, oracle, l => Strays(j.config, l, limit, oracle))
  {
    LoopStarts(j, oracle);
    var upload := NeedsUpload(j.config, j.at.stage, j.dests);
    if upload && !j.at.hasPath {
      var (p, ok) := DownloadStep(j.config, j.at, oracle(j.at.tick));
      if ok {
        NamedDeliver(j.(at := p.(stage := UploadStage)), 0, limit, oracle);
      }
    } else {
      NamedDeliver(j.(at := j.at.(stage := FirstStage(j, upload))), 0, limit, oracle);
    }
  }

  lemma SizedEdits(j: Job, a: Answer)
    requires EditsGoThrough(j.dests, a)
    ensures EditsGoThrough(Sized(j).dests, a)
  {
  }

  /** With caption edits, a run does not stray when unresolved forwards name their message and, only
      if an unserved destination holds a copy, its edit (the third question of the run) goes through. */
  lemma NamedRunsNeverStray(j: Job, limit: nat, oracle: Oracle)
    requires ClaimedClean(j) && EditsGoThrough(j.dests, oracle(j.at.tick + 2))
    requires forall n: nat :: oracle(n).reply != Unresolved(0)
    requires !RunLeavesUnmarked(j, limit, oracle)
    ensures !RunStrays(j, limit, oracle)
  {
    var start := j.(attempts := j.attempts + 1);
    var asked := start.(at := Asked(start.at, oracle(start.at.tick)));
    var unmarked := (l: Leg) => LeavesUnmarked(j.config, l, limit, oracle);
    SizedClean(asked);
    SizedEdits(asked, oracle(j.at.tick + 2));
    if !PreparedMeets(Sized(asked), limit, oracle, unmarked) {
      NamedPrepared(Sized(asked), limit, oracle);
    }
    BodyMeetsOther(start, limit, oracle, unmarked, l => Strays(j.config, l, limit, oracle));
  }

  // ---- Records that the lookup finds ----

  predicate AllIndexed(dests: seq<Dest>) {
    forall k :: 0 <= k < |dests| ==> dests[k].settings.indexed
  }

  lemma {:induction false} IndexedDeliver(j: Job, i: nat, limit: nat, oracle: Oracle)
    requires i <= |j.dests| && AllIndexed(j.dests)
    ensures !Meets(j, i, limit, oracle, l => LeavesUnmarked(j.config, l, limit, oracle))
    decreases |j.dests| - i
  {
    var bad := (l: Leg) => LeavesUnmarked(j.config, l, limit, oracle);
    if i == |j.dests| {
    } else if Served(j.dests[i]) {
      IndexedDeliver(j, i + 1, limit, oracle);
      assert Meets(j, i, limit, oracle, bad) == Meets(j, i + 1, limit, oracle, bad);
    } else {
      assert !bad(LegOf(j, i));
      var (k, ok) := Serve(j, i, limit, oracle);
      if ok {
        ServeGrows(j, i, limit, oracle);
        IndexedDeliver(k, i + 1, limit, oracle);
        assert Meets(j, i, limit, oracle, bad) == Meets(k, i + 1, limit, oracle, bad);
      }
    }
  }

  /** A run of a job whose records the lookup finds leaves no copy unmarked. */
  lemma IndexedRunsMark(j: Job, limit: nat, oracle: Oracle)
    requires AllIndexed(Sized(j).dests)
    ensures !RunLeavesUnmarked(j, limit, oracle)
  {
    var start := j.(attempts := j.attempts + 1);
    var sized := Sized(start.(at := Asked(start.at, oracle(start.at.tick))));
    var upload := NeedsUpload(sized.config, sized.at.stage, sized.dests);
    var (p, ok) := DownloadStep(sized.config, sized.at, oracle(sized.at.tick));
    IndexedDeliver(sized.(at := p.(stage := UploadStage)), 0, limit, oracle);
    IndexedDeliver(sized.(at := sized.at.(stage := FirstStage(sized, upload))), 0, limit, oracle);
  }

  // ---- The end of the context ----

  lemma SettledReach(c: Config, j: Job, ended: RowStatus, i: nat)
    requires i < |j.dests| && !Served(j.dests[i]) ==> AllReachable(c, j.dests, j.at.cancelled)
    ensures var (k, status) := Settle(j, ended);
            i < |k.dests| && !Served(k.dests[i]) ==>
              && (Copies(k.dests[i].history) > 0 && !Captured(c, k.dests[i]) <==>
                    k.at.cancelled && Stranded(k.dests[i]))
              && (k.at.cancelled && Stranded(k.dests[i]) && !HasUncertain(k.dests) ==> status == RowInterrupted)
  {
    if i < |j.dests| && Stranded(j.dests[i]) {
      UnmarkedIsCopy(j.dests[i].history);
    }
  }

  /** Exactly then: after a run that does not stray, a destination that is neither sent nor uncertain
      holds a copy no later edit can reach if and only if the context ended and its last request was
      an upload whose answer was lost, or, when the lookup does not find the record, any request that
      may have posted. The row is then `interrupted` unless another destination is uncertain. */
  lemma InterruptedCopyExactly(j: Job, limit: nat, oracle: Oracle, i: nat)
    requires ClaimedClean(j) && !RunStrays(j, limit, oracle)
    ensures var (k, status) := Run(j, limit, oracle);
            i < |k.dests| && !Served(k.dests[i]) ==>
              && (Copies(k.dests[i].history) > 0 && !Captured(j.config, k.dests[i]) <==>
                    k.at.cancelled && Stranded(k.dests[i]))
              && (k.at.cancelled && Stranded(k.dests[i]) && !HasUncertain(k.dests) ==> status == RowInterrupted)
  {
    BodySafe(j.(attempts := j.attempts + 1), limit, oracle);
    var (k, status) := Body(j.(attempts := j.attempts + 1), limit, oracle);
    SettledReach(j.config, k, status, i);
  }

  // ---- Second copies: concrete answers ----

  /** A leaking native attempt goes to the fallback with exactly one copy at the destination. */
  lemma LeakLeavesOne(c: Config, l: Leg, a: Answer)
    requires LegSafe(c, l.d, false) && PlainStage(l.p) && !l.p.hasPath && Suits(c, l) &&
             NativeApplies(c, l.d.settings, l.p)
    requires !(DirectCaption(c, l.d.settings, l.p) && l.d.settings.captionError) && Leaks(c, l, a)
    ensures var (k, next) := NativeStep(c, l, a);
            next == TryDownload && Copies(k.d.history) == 1 && k.d.settings == l.d.settings &&
            !l.d.settings.captionError && k.p.tick == l.p.tick + 1 && !k.p.hasPath
  {
    FallbackBesideCopyExactly(c, l, a);
    AtMostOneAlways(l.d.history, |l.d.history|);
    assert l.d.history[..|l.d.history|] == l.d.history;
    SentCopies(l.d, RequestOf(c, l), a.reply);
    NativeOpenOrNot(c, l, a, NativeRequest(EditsCaption(c, l.d, l.p), KnownId(l.d)));
    assert DirectCaption(c, l.d.settings, l.p);
  }

  /** Telegram accepts the fallback upload: two copies, and the destination counts as sent. */
  lemma SecondCopy(c: Config, l: Leg, deleteAfter: bool, limit: nat, oracle: Oracle)
    requires LegSafe(c, l.d, false) && PlainStage(l.p) && !l.p.hasPath && Suits(c, l) && Duplicates(c, l, oracle)
    requires oracle(l.p.tick + 5).reply.Accepted?
    ensures var (k, ok) := ToRoute(c, l, deleteAfter, limit, oracle);
            ok && Copies(k.d.history) == 2
  {
    var checked := l.(p := Asked(l.p, oracle(l.p.tick)));
    var a := oracle(checked.p.tick);
    LeakLeavesOne(c, checked, a);
    var (k, next) := NativeStep(c, checked, a);
    assert ToRoute(c, l, deleteAfter, limit, oracle) == Refetched(c, k, deleteAfter, limit, oracle);
    SecondFallback(c, k, deleteAfter, limit, oracle);
  }

  lemma SecondFallback(c: Config, l: Leg, deleteAfter: bool, limit: nat, oracle: Oracle)
    requires !l.p.hasPath && Copies(l.d.history) == 1 && !l.d.settings.captionError && c.hasMessage
    requires FallbackGoesOut(c, l.p.tick, oracle) && oracle(l.p.tick + 3).reply.Accepted?
    ensures var (k, ok) := Refetched(c, l, deleteAfter, limit, oracle);
            ok && Copies(k.d.history) == 2
  {
    var (p, fetched) := DownloadStep(c, l.p, oracle(l.p.tick));
    SecondUpload(c, l.(p := p), deleteAfter, limit, oracle);
  }

  lemma SecondUpload(c: Config, l: Leg, deleteAfter: bool, limit: nat, oracle: Oracle)
    requires l.p.hasPath && l.p.stage == FallbackUpload && Copies(l.d.history) == 1 && Passes(oracle(l.p.tick).access)
    requires UploadGoesOut(l.(p := Asked(l.p, oracle(l.p.tick))), oracle) && oracle(l.p.tick + 2).reply.Accepted?
    ensures var (k, ok) := ToRoute(c, l, deleteAfter, limit, oracle);
            ok && Copies(k.d.history) == 2
  {
    var ready := l.(p := Asked(Asked(l.p, oracle(l.p.tick)), oracle(l.p.tick + 1)));
    var a := oracle(l.p.tick + 2);
    SentCopies(l.d, Upload, a.reply);
    assert SendLoop(ready, 1, limit, oracle) == (Leg(Sent(l.d, Upload, a.reply), Gated(ready.p, a)), Answered(a.reply));
  }

  const EDITED := Settings(false, true, false, false, true)
  const EDIT_CONFIG := Config(true, true, false, false, true, true, [EDITED])

  const FRESH := Progress(NativeForward, false, false, false, false, false, false, false, 0)

  const UNSENT := Dest(EDITED, Pending, false, 0, false, [])

  /** A message posted at the first attempt whose caption is unresolved. */
  const POSTED := Dest(EDITED, Pending, true, 7, false, [Exchange(Native(true), Unresolved(7))])

  lemma PostedOnce()
    ensures LegSafe(EDIT_CONFIG, POSTED, false) && Copies(POSTED.history) == 1 && LegSafe(EDIT_CONFIG, UNSENT, false)
  {
    assert POSTED.history[..0] == [];
    assert Copies([]) == 0 && AtMostOne([]);
  }

  /** Everything works except for the gate and the reply of the first request. */
  function FirstRequest(gate: Gate, reply: Reply): Oracle {
    n => Answer(true, true, Free, if n == 1 then gate else Open, if n == 1 then reply else Accepted(8), true, true,
                false)
  }

  /** One unreadable account limit on the retry of a captured message is enough for two copies, ... */
  lemma UnreadableGateDuplicates(reply: Reply)
    ensures var (k, ok) := ToRoute(EDIT_CONFIG, Leg(POSTED, FRESH), false, 3, FirstRequest(Unissued, reply));
            ok && Copies(k.d.history) == 2
  {
    PostedOnce();
    SecondCopy(EDIT_CONFIG, Leg(POSTED, FRESH), false, 3, FirstRequest(Unissued, reply));
  }

  /** ... so is an edit that the client refuses before it asks Telegram, as when the destination
      cannot be resolved, ... */
  lemma EarlyRefusalDuplicates(permanent: bool)
    ensures var (k, ok) := ToRoute(EDIT_CONFIG, Leg(POSTED, FRESH), false, 3,
                                   FirstRequest(Open, Rejected(permanent, false)));
            ok && Copies(k.d.history) == 2
  {
    PostedOnce();
    SecondCopy(EDIT_CONFIG, Leg(POSTED, FRESH), false, 3, FirstRequest(Open, Rejected(permanent, false)));
  }

  /** ... and, at the first attempt already, a forward whose answer does not name the message. */
  lemma NamelessForwardDuplicates()
    ensures var (k, ok) := ToRoute(EDIT_CONFIG, Leg(UNSENT, FRESH), false, 3, FirstRequest(Open, Unresolved(0)));
            ok && Copies(k.d.history) == 2
  {
    PostedOnce();
    SecondCopy(EDIT_CONFIG, Leg(UNSENT, FRESH), false, 3, FirstRequest(Open, Unresolved(0)));
  }

  /** The edit's answer is lost; the upload that follows is accepted. */
  function LostEdit(n: nat): Answer {
    Answer(true, true, Free, Open, if n == 1 then Lost else Accepted(8), true, true, false)
  }

  /** A job resumed for a caption edit with its local file: the lost edit marks the destination
      uncertain, the same call uploads all the same, and the caller records "forwarded". */
  lemma CaptionEditFallsThrough(l: Leg)
    requires l.d.settings == EDITED && l.d.messageId > 0 && l.p.stage == CaptionEditFailed && l.p.hasPath &&
             l.p.tick == 0
    requires Copies(l.d.history) == 1
    ensures NativeStep(EDIT_CONFIG, l.(p := Asked(l.p, LostEdit(0))), LostEdit(1)).0.d.status == Uncertain
    ensures var (k, ok) := ToRoute(EDIT_CONFIG, l, false, 3, LostEdit);
            ok && Copies(k.d.history) == 2
  {
    var checked := l.(p := Asked(l.p, LostEdit(0)));
    LostEditLeaves(checked);
    var (k, next) := NativeStep(EDIT_CONFIG, checked, LostEdit(1));
    assert ToRoute(EDIT_CONFIG, l, false, 3, LostEdit) == UploadStep(k, false, 3, LostEdit);
    LateUpload(k);
  }

  lemma LostEditLeaves(l: Leg)
    requires l.d.settings == EDITED && l.d.messageId > 0 && l.p.stage == CaptionEditFailed && l.p.hasPath &&
             Copies(l.d.history) == 1
    ensures var (k, next) := NativeStep(EDIT_CONFIG, l, LostEdit(1));
            next == TryUpload && k.d.status == Uncertain && Copies(k.d.history) == 1 && k.d.settings == EDITED &&
            k.p.tick == l.p.tick + 1
  {
    SentCopies(l.d, Edit, Lost);
  }

  lemma LateUpload(l: Leg)
    requires Copies(l.d.history) == 1 && l.d.settings == EDITED && l.p.tick == 2
    ensures var (k, ok) := UploadStep(l, false, 3, LostEdit);
            ok && Copies(k.d.history) == 2
  {
    SentCopies(l.d, Upload, Accepted(8));
    var ready := l.(p := Asked(l.p, LostEdit(2)));
    assert SendLoop(ready, 1, 3, LostEdit) ==
             (Leg(Sent(l.d, Upload, Accepted(8)), Gated(ready.p, LostEdit(3))), Answered(Accepted(8)));
  }

  // ---- The parallel direct path ----

  /** Destinations at the reservation: nothing was sent yet. */
  predicate Untouched(dests: seq<Dest>, from: nat) {
    forall k :: from <= k < |dests| ==> dests[k].status == Pending && dests[k].history == []
  }

  lemma DirectRecordFacts(d: Dest, reply: Reply)
    requires d.status == Pending && d.history == []
    ensures var r := DirectRecord(d, reply);
            && r.settings == d.settings && AtMostOne(r.history) && (r.status == Forwarded <==> reply.Accepted?)
            && (r.status == Uncertain <==> reply.Lost?)
            && (reply.Accepted? ==> HasAccepted(r.history))
            && (reply.Rejected? || reply.Flood? || reply.NotRunning? ==> Copies(r.history) == 0)
  {
    SentCopies(d, Native(d.settings.custom), reply);
    AcceptedNow(d, Native(d.settings.custom), reply);
    assert DirectRecord(d, reply).history == Sent(d, Native(d.settings.custom), reply).history;
  }

  /** The destinations before `i` were sent, the others are untouched. */
  predicate DirectLoop(dests: seq<Dest>, i: nat)
    requires i <= |dests|
  {
    && Untouched(dests, i)
    && forall k :: 0 <= k < i ==>
         dests[k].status == Forwarded && HasAccepted(dests[k].history) && AtMostOne(dests[k].history)
  }

  /** What the direct loop leaves behind. */
  predicate DirectLeft(k: Job, end: DirectEnd) {
    && AllAtMostOne(k.dests) && AllVouched(k.dests)
    && (end.AllSent? ==> AllForwarded(k.dests) && !HasUncertain(k.dests))
    && (!HasUncertain(k.dests) && !end.CaptionUnresolved? ==> RowClean(k.config, k.dests, true))
    && (k.at.stage == CaptionEditFailed <==> end.CaptionUnresolved?)
  }

  /** The destinations when the request for destination i was not accepted. */
  predicate StoppedAt(dests: seq<Dest>, i: nat, d: Dest, reply: Reply) {
    && i < |dests| && DirectLoop(dests[i := d], i) && dests[i] == DirectRecord(d, reply)
    && !reply.Accepted? && d.status == Pending && d.history == []
  }

  lemma StoppedOthers(dests: seq<Dest>, i: nat, d: Dest, reply: Reply, k: nat)
    requires StoppedAt(dests, i, d, reply) && k < |dests| && k != i
    ensures AtMostOne(dests[k].history) && Vouched(dests[k])
    ensures Served(dests[k]) || Copies(dests[k].history) == 0
  {
    assert dests[i := d][k] == dests[k];
  }

  lemma StoppedRecord(dests: seq<Dest>, i: nat, d: Dest, reply: Reply)
    requires StoppedAt(dests, i, d, reply)
    ensures AtMostOne(dests[i].history) && Vouched(dests[i])
    ensures reply.Unresolved? || dests[i].status == Uncertain || Copies(dests[i].history) == 0
  {
    DirectRecordFacts(d, reply);
  }

  lemma StoppedAtMostOne(dests: seq<Dest>, i: nat, d: Dest, reply: Reply)
    requires StoppedAt(dests, i, d, reply)
    ensures AllAtMostOne(dests) && AllVouched(dests)
  {
    forall k | 0 <= k < |dests| ensures AtMostOne(dests[k].history) && Vouched(dests[k]) {
      if k == i {
        StoppedRecord(dests, i, d, reply);
      } else {
        StoppedOthers(dests, i, d, reply, k);
      }
    }
  }

  lemma StoppedClean(c: Config, dests: seq<Dest>, i: nat, d: Dest, reply: Reply)
    requires StoppedAt(dests, i, d, reply) && !HasUncertain(dests) && !reply.Unresolved?
    ensures RowClean(c, dests, true)
  {
    StoppedAtMostOne(dests, i, d, reply);
    forall k | 0 <= k < |dests| && !Served(dests[k]) ensures Copies(dests[k].history) == 0 {
      if k == i {
        StoppedRecord(dests, i, d, reply);
        assert dests[k].status != Uncertain;
      } else {
        StoppedOthers(dests, i, d, reply, k);
      }
    }
  }

  lemma DirectStops(k: Job, i: nat, d: Dest, reply: Reply)
    requires StoppedAt(k.dests, i, d, reply)
    requires k.at.stage == if reply.Unresolved? then CaptionEditFailed else FallbackDownload
    ensures DirectLeft(k, if reply.Unresolved? then CaptionUnresolved else Refused)
  {
    StoppedAtMostOne(k.dests, i, d, reply);
    if !HasUncertain(k.dests) && !reply.Unresolved? {
      StoppedClean(k.config, k.dests, i, d, reply);
    }
  }

  lemma {:induction false} DirectSafe(j: Job, i: nat, oracle: Oracle)
    requires i <= |j.dests| && DirectLoop(j.dests, i) && j.at.stage != CaptionEditFailed
    ensures var (k, end) := DirectNow(j, i, oracle);
            |k.dests| == |j.dests| && k.config == j.config && k.at.deleted == j.at.deleted && DirectLeft(k, end)
    decreases |j.dests| - i
  {
    if i < |j.dests| && !(j.dests[i].settings.custom && j.dests[i].settings.captionError) {
      var (k, move) := DirectStep(j, i, oracle(j.at.tick));
      DirectStepSafe(j, i, oracle(j.at.tick));
      if move.Go? {
        DirectSafe(k, i + 1, oracle);
      }
    } else if i < |j.dests| {
      DirectIdle(j, i);
    }
  }

  lemma DirectStepSafe(j: Job, i: nat, a: Answer)
    requires i < |j.dests| && DirectLoop(j.dests, i) && j.at.stage != CaptionEditFailed
    ensures var (k, move) := DirectStep(j, i, a);
            && |k.dests| == |j.dests| && k.config == j.config && k.at.deleted == j.at.deleted
            && (if move.Go? then DirectLoop(k.dests, i + 1) && k.at.stage != CaptionEditFailed
                else DirectLeft(k, move.end))
  {
    if a.gate != Open {
      DirectIdle(DirectStep(j, i, a).0, i);
    } else if a.reply.Accepted? {
      DirectGoesOn(j.dests, i, a.reply);
    } else {
      DirectStepStops(j, i, a);
    }
  }

  lemma DirectStepStops(j: Job, i: nat, a: Answer)
    requires i < |j.dests| && DirectLoop(j.dests, i) && a.gate == Open && !a.reply.Accepted?
    ensures var (k, move) := DirectStep(j, i, a);
            |k.dests| == |j.dests| && k.config == j.config && k.at.deleted == j.at.deleted && move.Stop? &&
            DirectLeft(k, move.end)
  {
    DirectRefused(j.dests, i, a.reply);
    DirectStops(DirectStep(j, i, a).0, i, j.dests[i], a.reply);
  }

  lemma DirectRefused(dests: seq<Dest>, i: nat, reply: Reply)
    requires i < |dests| && DirectLoop(dests, i) && !reply.Accepted?
    ensures StoppedAt(dests[i := DirectRecord(dests[i], reply)], i, dests[i], reply)
  {
    assert dests[i := DirectRecord(dests[i], reply)][i := dests[i]] == dests;
  }

  lemma DirectGoesOn(dests: seq<Dest>, i: nat, reply: Reply)
    requires reply.Accepted? && i < |dests| && DirectLoop(dests, i)
    ensures DirectLoop(dests[i := DirectRecord(dests[i], reply)], i + 1)
  {
    DirectRecordFacts(dests[i], reply);
  }

  lemma DirectIdle(k: Job, i: nat)
    requires i < |k.dests| && DirectLoop(k.dests, i) && k.at.stage != CaptionEditFailed
    ensures DirectLeft(k, NoRequest)
  {
  }

  /** The reservation's outcome: at most one copy, agreement, and deletion only when every
      destination accepted. A row it hands to the workers is clean and has its local file. */
  lemma DirectRunSafe(j: Job, oracle: Oracle, ingest: Ingest)
    requires Untouched(j.dests, 0) && j.at.stage != CaptionEditFailed && !j.at.deleted
    ensures var (k, status) := DirectRun(j, oracle, ingest);
            && |k.dests| == |j.dests| && k.config == j.config && AllAtMostOne(k.dests) && AllVouched(k.dests)
            && (status == RowFailed || status == RowPending ==> !HasUncertain(k.dests))
            && (status == RowForwarded || k.at.deleted ==> AllForwarded(k.dests))
            && (status == RowPending ==>
                  k.at.stage != CaptionEditFailed && k.at.hasPath && RowClean(k.config, k.dests, true))
  {
    DirectSafe(j, 0, oracle);
  }
}
