/** What holds after one run of a forward job whatever is answered: the row agrees with its
    destinations, no request is forgotten, the local file is deleted only when everything was sent. */
module ForwardAgreement {
  import opened ForwardDelivery

  // ---- Row and destinations, deletion ----

  /** "Forwarded" is backed by an accepted request or by an operator. */
  predicate Vouched(d: Dest) {
    d.status == Forwarded ==> HasAccepted(d.history) || d.confirmed
  }

  predicate AllVouched(dests: seq<Dest>) {
    forall k :: 0 <= k < |dests| ==> Vouched(dests[k])
  }

  predicate AllForwarded(dests: seq<Dest>) {
    forall k :: 0 <= k < |dests| ==> dests[k].status == Forwarded
  }

  /** A step on one destination keeps its past and calls it sent only with an accepted request. */
  predicate Extends(before: Leg, after: Leg) {
    && after.d.settings == before.d.settings && after.d.confirmed == before.d.confirmed
    && before.d.history <= after.d.history
    && (before.d.status != Forwarded ==> after.d.status != Forwarded)
  }

  lemma ExtendsOn(a: Leg, b: Leg, c: Leg)
    requires Extends(a, b) && Extends(b, c)
    ensures Extends(a, c)
  {
  }

  lemma AcceptedNow(d: Dest, request: Request, reply: Reply)
    ensures reply.Accepted? ==> HasAccepted(Sent(d, request, reply).history)
  {
    var h := Sent(d, request, reply).history;
    assert h[|h| - 1].reply == reply;
  }

  lemma {:induction false} SendExtends(l: Leg, attempt: nat, limit: nat, oracle: Oracle)
    ensures var (k, sending) := SendLoop(l, attempt, limit, oracle);
            Extends(l, k) && (sending.Answered? && sending.reply.Accepted? ==> HasAccepted(k.d.history))
    decreases limit - attempt
  {
    var a := oracle(l.p.tick);
    if a.gate == Open {
      AcceptedNow(l.d, Upload, a.reply);
      if a.reply.Flood? && attempt < limit {
        SendExtends(Leg(Sent(l.d, Upload, a.reply), Gated(l.p, a)), attempt + 1, limit, oracle);
      }
    }
  }

  lemma UploadExtends(l: Leg, deleteAfter: bool, limit: nat, oracle: Oracle)
    ensures var (k, ok) := UploadStep(l, deleteAfter, limit, oracle);
            Extends(l, k) && (ok ==> HasAccepted(k.d.history)) && (k.p.deleted ==> l.p.deleted || (deleteAfter && ok))
  {
    SendExtends(l.(p := Asked(l.p, oracle(l.p.tick))), 1, limit, oracle);
  }

  lemma OutcomeKeeps(d: Dest, p: Progress, id: nat, reply: Reply)
    ensures var (l, next) := NativeOutcome(d, p, id, reply);
            && l.d.history == d.history && l.d.settings == d.settings && l.d.confirmed == d.confirmed
            && l.p.deleted == p.deleted
            && (d.status != Forwarded ==> l.d.status != Forwarded)
            && (next == Return(true) <==> reply.Accepted?)
  {
    match reply {
      case Lost => assert Mark(d, d).settings == d.settings;
      case _ =>
    }
  }

  lemma NativeOpen(c: Config, l: Leg, a: Answer)
    requires a.gate == Open
    ensures var request := NativeRequest(EditsCaption(c, l.d, l.p), KnownId(l.d));
            NativeStep(c, l, a) == if DirectCaption(c, l.d.settings, l.p) && l.d.settings.captionError then
              (l, Return(false))
                                   else NativeOutcome(Sent(l.d, request, a.reply), Gated(l.p, a),
                                                      ReportedId(request, KnownId(l.d), a.reply), a.reply)
  {
  }

  lemma NativeExtends(c: Config, l: Leg, a: Answer)
    ensures var (k, next) := NativeStep(c, l, a);
            Extends(l, k) && (next == Return(true) ==> HasAccepted(k.d.history)) && k.p.deleted == l.p.deleted
  {
    var request := NativeRequest(EditsCaption(c, l.d, l.p), KnownId(l.d));
    if a.gate == Open {
      NativeOpen(c, l, a);
      var sent := Sent(l.d, request, a.reply);
      AcceptedNow(l.d, request, a.reply);
      OutcomeKeeps(sent, Gated(l.p, a), ReportedId(request, KnownId(l.d), a.reply), a.reply);
      assert l.d.history <= sent.history;
    }
  }

  lemma {:induction false} RouteExtends(c: Config, l: Leg, deleteAfter: bool, limit: nat, oracle: Oracle)
    ensures var (k, ok) := ToRoute(c, l, deleteAfter, limit, oracle);
            Extends(l, k) && (ok ==> HasAccepted(k.d.history)) && (k.p.deleted ==> l.p.deleted || (deleteAfter && ok))
    decreases !l.p.hasPath, 2
  {
    var checked := l.(p := Asked(l.p, oracle(l.p.tick)));
    if NativeApplies(c, l.d.settings, l.p) {
      AfterNativeExtends(c, checked, deleteAfter, limit, oracle);
    } else {
      UploadExtends(checked, deleteAfter, limit, oracle);
    }
  }

  lemma {:induction false} AfterNativeExtends(c: Config, l: Leg, deleteAfter: bool, limit: nat, oracle: Oracle)
    ensures var (k, ok) := AfterNative(c, NativeStep(c, l, oracle(l.p.tick)), deleteAfter, limit, oracle);
            Extends(l, k) && (ok ==> HasAccepted(k.d.history)) && (k.p.deleted ==> l.p.deleted || (deleteAfter && ok))
    decreases !l.p.hasPath, 1
  {
    var (k, next) := NativeStep(c, l, oracle(l.p.tick));
    NativeExtends(c, l, oracle(l.p.tick));
    if next.TryUpload? {
      UploadExtends(k, deleteAfter, limit, oracle);
      ExtendsOn(l, k, UploadStep(k, deleteAfter, limit, oracle).0);
    } else if next.TryDownload? {
      RefetchedExtends(c, k, deleteAfter, limit, oracle);
      ExtendsOn(l, k, Refetched(c, k, deleteAfter, limit, oracle).0);
    }
  }

  lemma {:induction false} RefetchedExtends(c: Config, l: Leg, deleteAfter: bool, limit: nat, oracle: Oracle)
    requires !l.p.hasPath
    ensures var (k, ok) := Refetched(c, l, deleteAfter, limit, oracle);
            Extends(l, k) && (ok ==> HasAccepted(k.d.history)) && (k.p.deleted ==> l.p.deleted || (deleteAfter && ok))
    decreases !l.p.hasPath, 0
  {
    var (p, ok) := DownloadStep(c, l.p, oracle(l.p.tick));
    if ok {
      RouteExtends(c, l.(p := p), deleteAfter, limit, oracle);
    }
  }

  lemma {:induction false} DeliverAgrees(j: Job, i: nat, limit: nat, oracle: Oracle)
    requires i <= |j.dests| && AllVouched(j.dests) && !HasUncertain(j.dests) && !j.at.deleted
    requires forall k :: 0 <= k < i ==> j.dests[k].status == Forwarded
    ensures var (k, status) := Deliver(j, i, limit, oracle);
            AllVouched(k.dests) && (status == RowForwarded || k.at.deleted ==> AllForwarded(k.dests))
    decreases |j.dests| - i
  {
    if i == |j.dests| {
    } else if Served(j.dests[i]) {
      DeliverAgrees(j, i + 1, limit, oracle);
    } else {
      var start := Leg(j.dests[i].(status := Processing), j.at);
      var (l, ok) := ToRoute(j.config, start, DeletesAfter(j, i), limit, oracle);
      RouteExtends(j.config, start, DeletesAfter(j, i), limit, oracle);
      if ok {
        var next := j.(dests := j.dests[i := l.d.(status := Forwarded)], at := l.p);
        if l.p.deleted {
          assert i + 1 == |j.dests|;
        } else {
          DeliverAgrees(next, i + 1, limit, oracle);
        }
      }
    }
  }

  /** A worker run of a job without uncertain destinations: the recorded status agrees with the
      destinations, every "forwarded" is backed, and the local file is deleted only when every
      destination of the job was sent. */
  lemma RunAgrees(j: Job, limit: nat, oracle: Oracle)
    requires AllVouched(j.dests) && !HasUncertain(j.dests) && !j.at.deleted
    ensures var (k, status) := Run(j, limit, oracle);
            && AllVouched(k.dests)
            && (status == RowUncertain <==> HasUncertain(k.dests))
            && (status == RowForwarded ==> AllForwarded(k.dests))
            && (k.at.deleted ==> AllForwarded(k.dests))
  {
    BodyAgrees(j.(attempts := j.attempts + 1), limit, oracle);
  }

  lemma BodyAgrees(j: Job, limit: nat, oracle: Oracle)
    requires AllVouched(j.dests) && !HasUncertain(j.dests) && !j.at.deleted
    ensures var (k, status) := Body(j, limit, oracle);
            && AllVouched(k.dests) && status != RowUncertain
            && (status == RowForwarded || k.at.deleted ==> AllForwarded(k.dests))
  {
    var asked := j.(at := Asked(j.at, oracle(j.at.tick)));
    var sized := if |j.dests| != |j.config.routes| then asked.(dests := Fresh(j.config.routes)) else asked;
    var upload := NeedsUpload(sized.config, sized.at.stage, sized.dests);
    var (p, ok) := DownloadStep(sized.config, sized.at, oracle(sized.at.tick));
    DeliverAgrees(sized.(at := p.(stage := UploadStage)), 0, limit, oracle);
    DeliverAgrees(sized.(at := sized.at.(stage := FirstStage(sized, upload))), 0, limit, oracle);
    PreparedStatus(sized, limit, oracle);
  }

  /** The later destinations are the same ones and hold at least the requests of the earlier. */
  predicate Grown(before: seq<Dest>, after: seq<Dest>) {
    |after| == |before| && forall k :: 0 <= k < |before| ==>
      after[k].settings == before[k].settings && before[k].history <= after[k].history
  }

  lemma GrownOn(a: seq<Dest>, b: seq<Dest>, c: seq<Dest>)
    requires Grown(a, b) && Grown(b, c)
    ensures Grown(a, c)
  {
  }

  lemma {:induction false} DeliverStatus(j: Job, i: nat, limit: nat, oracle: Oracle)
    requires i <= |j.dests|
    ensures var (k, status) := Deliver(j, i, limit, oracle);
            (status == RowForwarded || status == RowFailed) && Grown(j.dests, k.dests) && k.config == j.config &&
            k.attempts == j.attempts
    decreases |j.dests| - i
  {
    if i == |j.dests| {
    } else if Served(j.dests[i]) {
      DeliverStatus(j, i + 1, limit, oracle);
    } else {
      ServeGrows(j, i, limit, oracle);
      var (k, ok) := Serve(j, i, limit, oracle);
      if ok {
        DeliverStatus(k, i + 1, limit, oracle);
        assert Grown(k.dests, Deliver(k, i + 1, limit, oracle).0.dests);
      }
    }
  }

  lemma ServeGrows(j: Job, i: nat, limit: nat, oracle: Oracle)
    requires i < |j.dests|
    ensures var (k, ok) := Serve(j, i, limit, oracle);
            Grown(j.dests, k.dests) && k.config == j.config && k.attempts == j.attempts
  {
    RouteExtends(j.config, Leg(j.dests[i].(status := Processing), j.at), DeletesAfter(j, i), limit, oracle);
  }

  lemma PreparedStatus(j: Job, limit: nat, oracle: Oracle)
    ensures var (k, status) := Prepared(j, limit, oracle);
            (status == RowForwarded || status == RowFailed) && Grown(j.dests, k.dests) && k.config == j.config &&
            k.attempts == j.attempts
  {
    var upload := NeedsUpload(j.config, j.at.stage, j.dests);
    var (p, ok) := DownloadStep(j.config, j.at, oracle(j.at.tick));
    DeliverStatus(j.(at := p.(stage := UploadStage)), 0, limit, oracle);
    DeliverStatus(j.(at := j.at.(stage := FirstStage(j, upload))), 0, limit, oracle);
  }

  /** A run only adds requests: it never forgets one that was made. */
  lemma RunGrows(j: Job, limit: nat, oracle: Oracle)
    requires |j.dests| == |j.config.routes|
    ensures Grown(j.dests, Run(j, limit, oracle).0.dests) && Run(j, limit, oracle).0.config == j.config
  {
    var start := j.(attempts := j.attempts + 1);
    PreparedStatus(start.(at := Asked(start.at, oracle(start.at.tick))), limit, oracle);
  }

  /** Attempts that count: a run adds at most one, and a row with two counted attempts that goes
      back into the queue still has at most two. */
  lemma RunCountsAttempts(j: Job, limit: nat, oracle: Oracle)
    ensures var (k, status) := Run(j, limit, oracle);
            k.attempts <= j.attempts + 1 && status != RowProcessing &&
            (status == RowPending && j.attempts <= 2 ==> k.attempts <= 2)
  {
    var start := j.(attempts := j.attempts + 1);
    var asked := start.(at := Asked(start.at, oracle(start.at.tick)));
    PreparedStatus(if |asked.dests| != |asked.config.routes| then asked.(dests := Fresh(asked.config.routes))
                   else asked, limit, oracle);
  }

  // ---- The parallel direct path ----

  /** The destinations before `i` were sent, the others are untouched. */
  predicate DirectProgress(dests: seq<Dest>, i: nat)
    requires i <= |dests|
  {
    && (forall k :: 0 <= k < i ==> dests[k].status == Forwarded && HasAccepted(dests[k].history))
    && (forall k :: i <= k < |dests| ==> dests[k].status == Pending)
  }

  lemma DirectStepAgrees(j: Job, i: nat, a: Answer)
    requires i < |j.dests| && DirectProgress(j.dests, i)
    ensures var (k, move) := DirectStep(j, i, a);
            && Grown(j.dests, k.dests) && k.config == j.config && k.at.deleted == j.at.deleted
            && (if move.Go? then DirectProgress(k.dests, i + 1) else AllVouched(k.dests) && !move.end.AllSent?)
  {
    AcceptedNow(j.dests[i], Native(j.dests[i].settings.custom), a.reply);
    assert DirectRecord(j.dests[i], a.reply).history ==
             Sent(j.dests[i], Native(j.dests[i].settings.custom), a.reply).history;
  }

  lemma {:induction false} DirectAgrees(j: Job, i: nat, oracle: Oracle)
    requires i <= |j.dests| && DirectProgress(j.dests, i)
    ensures var (k, end) := DirectNow(j, i, oracle);
            && Grown(j.dests, k.dests) && k.config == j.config && k.at.deleted == j.at.deleted && AllVouched(k.dests)
            && (end.AllSent? ==> AllForwarded(k.dests))
    decreases |j.dests| - i
  {
    if i < |j.dests| && !(j.dests[i].settings.custom && j.dests[i].settings.captionError) {
      var (k, move) := DirectStep(j, i, oracle(j.at.tick));
      DirectStepAgrees(j, i, oracle(j.at.tick));
      if move.Go? {
        DirectAgrees(k, i + 1, oracle);
        GrownOn(j.dests, k.dests, DirectNow(k, i + 1, oracle).0.dests);
      }
    }
  }

  lemma DirectRunAgrees(j: Job, oracle: Oracle, ingest: Ingest)
    requires !j.at.deleted && forall k :: 0 <= k < |j.dests| ==> j.dests[k].status == Pending
    ensures var (k, status) := DirectRun(j, oracle, ingest);
            && Grown(j.dests, k.dests) && k.config == j.config && AllVouched(k.dests)
            && (status == RowFailed || status == RowPending ==> !HasUncertain(k.dests))
            && (status == RowForwarded || k.at.deleted ==> AllForwarded(k.dests))
            && status != RowInterrupted
  {
    DirectAgrees(j, 0, oracle);
  }
}
