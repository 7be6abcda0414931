/** Compressed responses (core-service/internal/app/http_compression.go): a writer that buffers the
    start of a response, decides once whether to encode it, and shares a bounded pool of encoders. */
module Compression {

  datatype Option<T> = None | Some(value: T)

  const BUFFER := 1024
  const SLOTS := 8

  type Byte = b: int | 0 <= b < 256

  type Bytes = seq<Byte>

  // ---- Headers ----

  /** Who set Content-Encoding: this writer, to the name of its encoder, or the handler. */
  datatype Coding = Ours | Handlers

  /** The type of the content, as far as it matters here. */
  datatype Media = Textual | Binary

  datatype Tag = NoTag | Strong | Weak

  /** The headers this code looks at: Content-Type, Content-Length, Content-Encoding, ETag, whether
      Vary names Accept-Encoding, and whether Content-Range or no-transform forbid encoding. */
  datatype Head = Head(media: Option<Media>, length: Option<int>, encoding: Option<Coding>, tag: Tag, varies: bool,
                       verbatim: bool)

  predicate Compressible(h: Head, status: nat) {
    status >= 200 && status != 204 && status != 206 && status != 304 && h.encoding.None? && !h.verbatim &&
    h.media == Some(Textual)
  }

  /** The headers of an encoded response. */
  function Encoded(h: Head): Head {
    h.(length := None, encoding := Some(Ours), tag := if h.tag == Strong then Weak else h.tag)
  }

  /** What a handler may set: it does not speak for this writer. */
  type HandlerHead = h: Head | h.encoding != Some(Ours) witness Head(None, None, None, NoTag, false, false)

  // ---- The response as the client gets it ----

  /** What went out: status and headers once, bytes written directly, bytes given to the encoder,
      and how many of those a client can decode (after a flush or the end of the stream). */
  datatype Wire = Wire(head: Option<(nat, Head)>, plain: Bytes, fed: Bytes, decodable: nat)

  datatype Err = Fine | Busy | Broken

  /** `live` is the header map of the handler, `headers` the copy taken with the status; `encoder`:
      one is held. */
  datatype Writer = Writer(live: Head, status: nat, headers: Head, buffer: Bytes, started: bool, hijacked: bool,
                           encoder: bool, err: Err, wire: Wire)

  /** How the environment answers one operation: the request context, the bytes taken by the two
      writes an operation may make, flush, close, hijack, and the detected content type. */
  datatype Env = Env(context: bool, first: nat, second: nat, firstOk: bool, secondOk: bool, flushed: bool, synced: bool,
                     closed: bool, media: Media)

  function Fresh(live: HandlerHead): Writer {
    Writer(live, 0, live, [], false, false, false, Fine, Wire(None, [], [], 0))
  }

  function WithStatus(w: Writer, status: nat): Writer {
    if w.status != 0 || w.hijacked || (100 <= status < 200 && status != 101) then w
    else w.(status := status, headers := w.live)
  }

  function Taken(b: Bytes, n: nat): Bytes {
    if n < |b| then b[..n] else b
  }

  predicate Complete(b: Bytes, n: nat, ok: bool) {
    ok && n >= |b|
  }

  /** `writeOutput`. */
  function Output(w: Writer, b: Bytes, n: nat, ok: bool): Writer {
    var wire := if w.encoder then w.wire.(fed := w.wire.fed + Taken(b, n))
                else w.wire.(plain := w.wire.plain + Taken(b, n));
    w.(wire := wire, err := if Complete(b, n, ok) then w.err else Broken)
  }

  /** `acquire`: a slot of the pool, or an error. */
  function Acquired(slots: nat, context: bool): Err {
    if !context then Broken else if slots < SLOTS then Fine else Busy
  }

  /** The headers go out, then what was buffered. */
  function Begun(w: Writer, compress: bool, env: Env): Writer {
    var h := if compress then Encoded(w.headers) else w.headers;
    var head := if Compressible(h, w.status) || compress then h.(varies := true) else h;
    var sent := w.(headers := head, live := head, encoder := compress, started := true,
                   wire := w.wire.(head := Some((w.status, head))));
    if w.buffer == [] then sent
    else Output(sent, w.buffer, env.first, env.firstOk).(buffer := [],
                                                         err := if Complete(w.buffer, env.first, env.firstOk) then Fine
                                                         else Broken)
  }

  /** `start`, with the slots of the pool that are in use. */
  function Opened(w: Writer, slots: nat, compress: bool, env: Env): (Writer, nat) {
    if w.started then (w, slots)
    else
      var s := if w.status == 0 then WithStatus(w, 200) else w;
      if !compress then (Begun(s, false, env), slots)
      else match Acquired(slots, env.context)
        case Fine => (Begun(s.(err := Fine), true, env), slots + 1)
        case e => (s.(err := e), slots)
  }

  datatype Result = Result(w: Writer, slots: nat, ok: bool)

  /** A write once it is decided whether to encode. */
  function Sent(w: Writer, slots: nat, compress: bool, b: Bytes, env: Env): Result {
    var (s, n) := Opened(w, slots, compress, env);
    if s.err != Fine then Result(s, n, false)
    else Result(Output(s, b, env.second, env.secondOk), n, Complete(b, env.second, env.secondOk))
  }

  function Typed(w: Writer, b: Bytes, media: Media): Writer {
    if w.headers.media.None? && b != [] then w.(headers := w.headers.(media := Some(media))) else w
  }

  function Write(w: Writer, slots: nat, b: Bytes, env: Env): Result {
    if w.err != Fine || w.hijacked then Result(w, slots, false)
    else
      var s := if w.status == 0 then WithStatus(w, 200) else w;
      if s.started then Result(Output(s, b, env.second, env.secondOk), slots, Complete(b, env.second, env.secondOk))
      else
        var t := Typed(s, b, env.media);
        if !Compressible(t.headers, t.status) then Sent(t, slots, false, b, env)
        else if t.headers.length.Some? && t.headers.length.value < BUFFER then Sent(t, slots, false, b, env)
        else if |t.buffer| + |b| < BUFFER then Result(t.(buffer := t.buffer + b), slots, true)
        else Sent(t, slots, true, b, env)
  }

  /** `FlushError`. */
  function Flush(w: Writer, slots: nat, env: Env): Result {
    var (s, n) := Opened(w, slots, false, env);
    if !w.started && s.err != Fine then Result(s, n, false)
    else if s.encoder && !env.flushed then Result(s.(err := Broken), n, false)
    else
      var t := if s.encoder then s.(wire := s.wire.(decodable := |s.wire.fed|)) else s;
      Result(t.(err := if env.synced then Fine else Broken), n, env.synced)
  }

  function Finish(w: Writer, slots: nat, env: Env): Result {
    if w.hijacked then Result(w, slots, true)
    else if w.err != Fine then Result(w, slots, false)
    else
      var (s, n) := Opened(w, slots, false, env);
      if s.err != Fine then Result(s, n, false)
      else if !s.encoder then Result(s, n, true)
      else if env.closed then Result(s.(wire := s.wire.(decodable := |s.wire.fed|)), n, true)
      else Result(s.(err := Broken), n, false)
  }

  function Release(w: Writer, slots: nat): (Writer, nat) {
    if w.encoder then (w.(encoder := false), if slots > 0 then slots - 1 else 0) else (w, slots)
  }

  function Hijack(w: Writer, ok: bool): Writer {
    if w.started || w.buffer != [] || !ok then w else w.(hijacked := true)
  }

  // ---- What a handler may do ----

  datatype Op = SetHeaders(head: HandlerHead) | PutStatus(status: nat) | Put(bytes: Bytes) | Push

  function Apply(w: Writer, slots: nat, op: Op, env: Env): Result {
    match op
    case SetHeaders(head) => Result(w.(live := head), slots, true)
    case PutStatus(status) => Result(WithStatus(w, status), slots, true)
    case Put(bytes) => Write(w, slots, bytes, env)
    case Push => Flush(w, slots, env)
  }

  datatype Call = Call(op: Op, env: Env)

  /** A run of operations without an error so far. */
  function Handled(w: Writer, slots: nat, calls: seq<Call>): Result {
    if calls == [] then Result(w, slots, true)
    else
      var r := Handled(w, slots, calls[..|calls| - 1]);
      if !r.ok then r else Apply(r.w, r.slots, calls[|calls| - 1].op, calls[|calls| - 1].env)
  }

  function Written(calls: seq<Call>): Bytes {
    if calls == [] then []
    else Written(calls[..|calls| - 1]) + if calls[|calls| - 1].op.Put? then calls[|calls| - 1].op.bytes else []
  }

  /** Our Content-Encoding went out. */
  predicate SaysEncoded(w: Writer) {
    w.wire.head.Some? && w.wire.head.value.1.encoding == Some(Ours)
  }

  /** The bytes that a client decodes. */
  function Decoded(w: Writer): Bytes {
    if SaysEncoded(w) then (if w.wire.decodable <= |w.wire.fed| then w.wire.fed[..w.wire.decodable] else w.wire.fed)
    else w.wire.plain
  }

  // ---- Every error-free run ----

  /** Before the start everything written is in the buffer; after it everything went one way, and
      Content-Encoding says which. */
  predicate Sound(w: Writer, written: Bytes) {
    && w.err == Fine && !w.hijacked && |w.buffer| < BUFFER && w.wire.decodable <= |w.wire.fed|
    && (if !w.started then
          w.wire == Wire(None, [], [], 0) && w.buffer == written && !w.encoder && w.headers.encoding != Some(Ours) &&
          w.live.encoding != Some(Ours)
        else
          w.buffer == [] && w.status != 0 && w.wire.head.Some? && OneWay(w, written))
  }

  predicate OneWay(w: Writer, written: Bytes) {
    if w.encoder then SaysEncoded(w) && w.wire.fed == written && w.wire.plain == []
    else !SaysEncoded(w) && w.wire.plain == written && w.wire.fed == []
  }

  lemma {:induction false} BegunSound(w: Writer, written: Bytes, compress: bool, env: Env)
    requires Sound(w, written) && !w.started && w.status != 0
    requires Begun(w, compress, env).err == Fine
    ensures Sound(Begun(w, compress, env), written) && Begun(w, compress, env).started &&
            Begun(w, compress, env).encoder == compress
  {
    assert [] + w.buffer == w.buffer;
  }

  lemma {:induction false} StartSound(w: Writer, slots: nat, written: Bytes, compress: bool, env: Env)
    requires Sound(w, written) && Opened(w, slots, compress, env).0.err == Fine
    ensures Sound(Opened(w, slots, compress, env).0, written) && Opened(w, slots, compress, env).0.started
    ensures !w.started ==> Opened(w, slots, compress, env).0.encoder == compress
  {
    if !w.started {
      var s := if w.status == 0 then WithStatus(w, 200) else w;
      assert Sound(s, written) && s.status != 0;
      if compress && Acquired(slots, env.context) == Fine {
        assert s.(err := Fine) == s;
      }
      BegunSound(s, written, compress, env);
    }
  }

  lemma {:induction false} OutputSound(w: Writer, written: Bytes, b: Bytes, n: nat, ok: bool)
    requires Sound(w, written) && w.started && Complete(b, n, ok)
    ensures Sound(Output(w, b, n, ok), written + b)
  {
    assert Taken(b, n) == b;
  }

  lemma {:induction false} SentSound(w: Writer, slots: nat, written: Bytes, compress: bool, b: Bytes, env: Env)
    requires Sound(w, written) && Sent(w, slots, compress, b, env).ok
    ensures Sound(Sent(w, slots, compress, b, env).w, written + b)
  {
    StartSound(w, slots, written, compress, env);
    OutputSound(Opened(w, slots, compress, env).0, written, b, env.second, env.secondOk);
  }

  lemma {:induction false} WriteSound(w: Writer, slots: nat, written: Bytes, b: Bytes, env: Env)
    requires Sound(w, written) && Write(w, slots, b, env).ok
    ensures Sound(Write(w, slots, b, env).w, written + b)
  {
    var s := if w.status == 0 then WithStatus(w, 200) else w;
    assert Sound(s, written);
    if s.started {
      OutputSound(s, written, b, env.second, env.secondOk);
    } else {
      var t := Typed(s, b, env.media);
      assert Sound(t, written);
      if !Compressible(t.headers, t.status) || (t.headers.length.Some? && t.headers.length.value < BUFFER) {
        SentSound(t, slots, written, false, b, env);
      } else if |t.buffer| + |b| >= BUFFER {
        SentSound(t, slots, written, true, b, env);
      }
    }
  }

  /** A flush keeps everything, and then the client can decode everything written so far. */
  lemma {:induction false} FlushSound(w: Writer, slots: nat, written: Bytes, env: Env)
    requires Sound(w, written) && Flush(w, slots, env).ok
    ensures Sound(Flush(w, slots, env).w, written) && Decoded(Flush(w, slots, env).w) == written
  {
    if w.started {
      assert Opened(w, slots, false, env).0 == w;
    }
    StartSound(w, slots, written, false, env);
  }

  lemma {:induction false} ApplySound(w: Writer, slots: nat, written: Bytes, op: Op, env: Env)
    requires Sound(w, written) && Apply(w, slots, op, env).ok
    ensures Sound(Apply(w, slots, op, env).w, written + if op.Put? then op.bytes else [])
  {
    assert written + [] == written;
    match op
    case SetHeaders(_) =>
    case PutStatus(_) =>
    case Put(bytes) => WriteSound(w, slots, written, bytes, env);
    case Push => FlushSound(w, slots, written, env);
  }

  /** Over every error-free sequence of header, status, write and flush operations: the buffer stays
      below its 1024 bytes, and the bytes all wait in it or all went one way. */
  lemma {:induction false} HandledSound(live: HandlerHead, slots: nat, calls: seq<Call>)
    requires Handled(Fresh(live), slots, calls).ok
    ensures Sound(Handled(Fresh(live), slots, calls).w, Written(calls))
  {
    if calls != [] {
      var init, last := calls[..|calls| - 1], calls[|calls| - 1];
      HandledSound(live, slots, init);
      var r := Handled(Fresh(live), slots, init);
      ApplySound(r.w, r.slots, Written(init), last.op, last.env);
    }
  }

  /** ... and when such a response is finished without an error, the client decodes exactly the
      concatenation of the writes; Content-Encoding is this writer's if and only if all bytes went
      through an encoder, and otherwise none did. */
  lemma {:induction false} FinishedDelivers(live: HandlerHead, slots: nat, calls: seq<Call>, env: Env)
    requires Handled(Fresh(live), slots, calls).ok
    requires var r := Handled(Fresh(live), slots, calls); Finish(r.w, r.slots, env).ok
    ensures var r := Handled(Fresh(live), slots, calls);
            var w := Finish(r.w, r.slots, env).w;
            && Decoded(w) == Written(calls) && w.wire.head.Some?
            && (if SaysEncoded(w) then w.wire.fed == Written(calls) && w.wire.plain == []
                else w.wire.plain == Written(calls) && w.wire.fed == [])
            && (SaysEncoded(w) <==> w.encoder)
  {
    var r := Handled(Fresh(live), slots, calls);
    HandledSound(live, slots, calls);
    StartSound(r.w, r.slots, Written(calls), false, env);
  }

  // ---- Runs with errors ----

  /** A run in which the handler goes on after an error. */
  function Ran(w: Writer, slots: nat, calls: seq<Call>): Result {
    if calls == [] then Result(w, slots, true)
    else
      var r := Ran(w, slots, calls[..|calls| - 1]);
      Apply(r.w, r.slots, calls[|calls| - 1].op, calls[|calls| - 1].env)
  }

  function BytesOf(op: Op): Bytes {
    if op.Put? then op.bytes else []
  }

  /** The bytes that went out or still wait in the buffer. */
  function Out(w: Writer): Bytes {
    (if w.encoder then w.wire.fed else w.wire.plain) + w.buffer
  }

  /** Everything that went out went one way, the way that Content-Encoding says. */
  predicate Unmixed(w: Writer) {
    && !w.hijacked && |w.buffer| < BUFFER && w.wire.decodable <= |w.wire.fed|
    && (if !w.started then
          w.wire == Wire(None, [], [], 0) && !w.encoder && w.headers.encoding != Some(Ours) &&
          w.live.encoding != Some(Ours)
        else
          w.buffer == [] && w.status != 0 && w.wire.head.Some? && (SaysEncoded(w) <==> w.encoder)
          && (if w.encoder then w.wire.plain == [] else w.wire.fed == []))
  }

  /** Of `before` and `b` a front part each is left, all of it when the call succeeded. */
  predicate KeepsFront(before: Bytes, b: Bytes, after: Bytes, ok: bool) {
    || after == before + b
    || (!ok && exists n, m ::
          0 <= n <= |before| && 0 <= m <= |b| && n + m < |before| + |b| && after == before[..n] + b[..m])
  }

  lemma {:induction false} FrontOf(before: Bytes, b: Bytes, n: nat, m: nat, after: Bytes)
    requires n <= |before| && m <= |b| && after == before[..n] + b[..m]
    ensures KeepsFront(before, b, after, false)
  {
    if n + m == |before| + |b| {
      assert before[..n] == before && b[..m] == b;
    }
  }

  lemma {:induction false} OutputKeeps(w: Writer, b: Bytes, n: nat, ok: bool)
    requires Unmixed(w) && w.started
    ensures Unmixed(Output(w, b, n, ok)) && Output(w, b, n, ok).started
    ensures KeepsFront(Out(w), b, Out(Output(w, b, n, ok)), Complete(b, n, ok))
  {
    var m := if n < |b| then n else |b|;
    var o := if w.encoder then w.wire.fed else w.wire.plain;
    assert Taken(b, n) == b[..m] && Out(w) == o && Out(w)[..|o|] == o;
    assert Out(Output(w, b, n, ok)) == Out(w)[..|o|] + b[..m];
    if m < |b| {
      FrontOf(Out(w), b, |o|, m, Out(Output(w, b, n, ok)));
    } else {
      assert b[..m] == b;
    }
  }

  lemma {:induction false} BegunKeeps(w: Writer, compress: bool, env: Env)
    requires Unmixed(w) && !w.started && w.status != 0
    ensures var s := Begun(w, compress, env);
            && Unmixed(s) && s.started && KeepsFront(Out(w), [], Out(s), s.err == Fine)
  {
    var m := if env.first < |w.buffer| then env.first else |w.buffer|;
    var s := Begun(w, compress, env);
    assert Out(w) == w.buffer && Out(w) + [] == Out(w);
    assert [] + Taken(w.buffer, env.first) == w.buffer[..m] + [][..0];
    if w.buffer != [] && m < |w.buffer| {
      FrontOf(Out(w), [], m, 0, Out(s));
    }
  }

  lemma {:induction false} OpenedKeeps(w: Writer, slots: nat, compress: bool, env: Env)
    requires Unmixed(w)
    ensures var s := Opened(w, slots, compress, env).0;
            && Unmixed(s) && (s.err == Fine ==> s.started) && KeepsFront(Out(w), [], Out(s), s.err == Fine)
  {
    assert Out(w) + [] == Out(w);
    if !w.started {
      var s := if w.status == 0 then WithStatus(w, 200) else w;
      BegunKeeps(s, false, env);
      BegunKeeps(s.(err := Fine), true, env);
    }
  }

  lemma {:induction false} FrontDrops(before: Bytes, b: Bytes, after: Bytes)
    requires KeepsFront(before, [], after, false)
    ensures KeepsFront(before, b, after, false)
  {
    if after == before + [] {
      assert after == before[..|before|] + b[..0];
      FrontOf(before, b, |before|, 0, after);
    } else {
      var n, m :| 0 <= n <= |before| && 0 <= m <= 0 && n + m < |before| && after == before[..n] + [][..m];
      assert after == before[..n] + b[..0];
      FrontOf(before, b, n, 0, after);
    }
  }

  lemma {:induction false} SentKeeps(w: Writer, slots: nat, compress: bool, b: Bytes, env: Env)
    requires Unmixed(w)
    ensures var r := Sent(w, slots, compress, b, env);
            Unmixed(r.w) && KeepsFront(Out(w), b, Out(r.w), r.ok) && (r.ok <==> r.w.err == Fine)
  {
    OpenedKeeps(w, slots, compress, env);
    var s := Opened(w, slots, compress, env).0;
    if s.err == Fine {
      assert Out(s) == Out(w) + [] == Out(w);
      OutputKeeps(s, b, env.second, env.secondOk);
    } else {
      FrontDrops(Out(w), b, Out(s));
    }
  }

  /** The first writes: into the buffer, or out with what it holds. */
  lemma {:induction false} EarlyWriteKeeps(w: Writer, slots: nat, b: Bytes, env: Env)
    requires Unmixed(w) && w.err == Fine && !w.started && w.status != 0
    ensures var r := Write(w, slots, b, env);
            Unmixed(r.w) && KeepsFront(Out(w), b, Out(r.w), r.ok) && (r.ok <==> r.w.err == Fine)
  {
    var t := Typed(w, b, env.media);
    assert Unmixed(t) && Out(t) == Out(w);
    if !Compressible(t.headers, t.status) || (t.headers.length.Some? && t.headers.length.value < BUFFER) {
      SentKeeps(t, slots, false, b, env);
    } else if |t.buffer| + |b| >= BUFFER {
      SentKeeps(t, slots, true, b, env);
    } else {
      BufferKeeps(t, b);
    }
  }

  lemma {:induction false} BufferKeeps(w: Writer, b: Bytes)
    requires Unmixed(w) && !w.started && |w.buffer| + |b| < BUFFER
    ensures Unmixed(w.(buffer := w.buffer + b)) && Out(w.(buffer := w.buffer + b)) == Out(w) + b
  {
  }

  lemma {:induction false} WriteKeeps(w: Writer, slots: nat, b: Bytes, env: Env)
    requires Unmixed(w)
    ensures var r := Write(w, slots, b, env);
            && Unmixed(r.w) && KeepsFront(Out(w), b, Out(r.w), r.ok) && (r.ok <==> r.w.err == Fine)
            && (r.ok ==> w.err == Fine)
  {
    if w.err != Fine {
      assert Out(w) + [] == Out(w);
      FrontDrops(Out(w), b, Out(w));
    } else if w.started {
      OutputKeeps(w, b, env.second, env.secondOk);
    } else {
      var s := if w.status == 0 then WithStatus(w, 200) else w;
      EarlyWriteKeeps(s, slots, b, env);
      assert Write(w, slots, b, env) == Write(s, slots, b, env) && Out(s) == Out(w);
    }
  }

  /** What one operation keeps, and how the error that is noted follows from it. */
  lemma {:induction false} ApplyKeeps(w: Writer, slots: nat, op: Op, env: Env)
    requires Unmixed(w)
    ensures var r := Apply(w, slots, op, env);
            && Unmixed(r.w) && KeepsFront(Out(w), BytesOf(op), Out(r.w), r.ok)
            && (op.Put? || op.Push? ==> (r.ok <==> r.w.err == Fine)) && (op.Put? && r.ok ==> w.err == Fine)
            && (!op.Put? && !op.Push? ==> r.ok && r.w.err == w.err)
  {
    assert Out(w) + [] == Out(w);
    match op
    case Put(bytes) => WriteKeeps(w, slots, bytes, env);
    case Push =>
      OpenedKeeps(w, slots, false, env);
      var r := Flush(w, slots, env);
      assert Out(r.w) == Out(Opened(w, slots, false, env).0);
    case _ =>
  }

  /** Over every run, with errors at any call: what is out or waits is no longer than what was
      written, equal to it if as long, and never mixed between the two ways. */
  lemma {:induction false} RanKeeps(live: HandlerHead, slots: nat, calls: seq<Call>)
    ensures var w := Ran(Fresh(live), slots, calls).w;
            && Unmixed(w) && |Out(w)| <= |Written(calls)|
            && (|Out(w)| == |Written(calls)| ==> Out(w) == Written(calls))
            && (Handled(Fresh(live), slots, calls).ok ==>
                  Handled(Fresh(live), slots, calls) == Ran(Fresh(live), slots, calls))
  {
    if calls != [] {
      var init, last := calls[..|calls| - 1], calls[|calls| - 1];
      RanKeeps(live, slots, init);
      var r := Ran(Fresh(live), slots, init);
      ApplyKeeps(r.w, r.slots, last.op, last.env);
    }
  }

  /** Call k of the run fails ... */
  predicate FailsAt(live: HandlerHead, slots: nat, calls: seq<Call>, k: nat) {
    k < |calls| && !Ran(Fresh(live), slots, calls[..k + 1]).ok
  }

  /** ... or is a flush that succeeds. */
  predicate FlushesAt(live: HandlerHead, slots: nat, calls: seq<Call>, k: nat) {
    k < |calls| && calls[k].op.Push? && Ran(Fresh(live), slots, calls[..k + 1]).ok
  }

  /** No error is noted after the run. */
  predicate EndsFine(live: HandlerHead, slots: nat, calls: seq<Call>) {
    Ran(Fresh(live), slots, calls).w.err == Fine
  }

  lemma {:induction false} LastCall(live: HandlerHead, slots: nat, calls: seq<Call>, n: nat)
    requires n + 1 == |calls| && EndsFine(live, slots, calls)
    ensures !FailsAt(live, slots, calls, n)
    ensures if calls[n].op.Push? then FlushesAt(live, slots, calls, n) else EndsFine(live, slots, calls[..n])
  {
    var r := Ran(Fresh(live), slots, calls[..n]);
    assert calls[..n + 1] == calls;
    RanKeeps(live, slots, calls[..n]);
    ApplyKeeps(r.w, r.slots, calls[n].op, calls[n].env);
  }

  /** The calls of a shorter run end as before. */
  lemma {:induction false} EarlierCalls(live: HandlerHead, slots: nat, calls: seq<Call>, n: nat, k: nat)
    requires k < n <= |calls|
    ensures FailsAt(live, slots, calls[..n], k) == FailsAt(live, slots, calls, k)
    ensures FlushesAt(live, slots, calls[..n], k) == FlushesAt(live, slots, calls, k)
  {
    assert calls[..n][..k + 1] == calls[..k + 1];
  }

  /** A failure is forgotten only by a later flush that succeeds. */
  lemma {:induction false} ErrorStands(live: HandlerHead, slots: nat, calls: seq<Call>, k: nat)
    requires FailsAt(live, slots, calls, k) && EndsFine(live, slots, calls)
    ensures exists m: nat :: k < m < |calls| && FlushesAt(live, slots, calls, m)
  {
    var n := |calls| - 1;
    LastCall(live, slots, calls, n);
    assert k < n;
    if !calls[n].op.Push? {
      EarlierCalls(live, slots, calls, n, k);
      ErrorStands(live, slots, calls[..n], k);
      var m: nat :| k < m < n && FlushesAt(live, slots, calls[..n], m);
      EarlierCalls(live, slots, calls, n, m);
    }
  }

  /** A run in which no call fails is an error-free one. */
  lemma {:induction false} SomeCallFails(live: HandlerHead, slots: nat, calls: seq<Call>)
    requires !Handled(Fresh(live), slots, calls).ok
    ensures exists k: nat :: FailsAt(live, slots, calls, k)
  {
    var n := |calls| - 1;
    if Handled(Fresh(live), slots, calls[..n]).ok {
      RanKeeps(live, slots, calls[..n]);
      assert calls[..n + 1] == calls;
      assert FailsAt(live, slots, calls, n);
    } else {
      SomeCallFails(live, slots, calls[..n]);
      var k: nat :| FailsAt(live, slots, calls[..n], k);
      EarlierCalls(live, slots, calls, n, k);
    }
  }

  lemma {:induction false} FinishKeeps(w: Writer, slots: nat, env: Env)
    requires Unmixed(w) && Finish(w, slots, env).ok
    ensures Decoded(Finish(w, slots, env).w) == Out(w) && w.err == Fine
  {
    OpenedKeeps(w, slots, false, env);
    assert Out(w) + [] == Out(w);
  }

  /** For every run, with errors: a finish that reports success delivers what was taken, which is all
      that was written if and only if it is as long. If it is not, some call failed and a later flush,
      which succeeded, hid the failure. */
  lemma FinishedTruncates(live: HandlerHead, slots: nat, calls: seq<Call>, env: Env)
    requires var r := Ran(Fresh(live), slots, calls); Finish(r.w, r.slots, env).ok
    ensures var r := Ran(Fresh(live), slots, calls);
            var body := Decoded(Finish(r.w, r.slots, env).w);
            && |body| <= |Written(calls)| && (body == Written(calls) <==> |body| == |Written(calls)|)
            && (body != Written(calls) ==>
                  exists k: nat, m: nat ::
                    k < m < |calls| && FailsAt(live, slots, calls, k) && FlushesAt(live, slots, calls, m))
  {
    var r := Ran(Fresh(live), slots, calls);
    RanKeeps(live, slots, calls);
    FinishKeeps(r.w, r.slots, env);
    if Decoded(Finish(r.w, r.slots, env).w) != Written(calls) {
      if Handled(Fresh(live), slots, calls).ok {
        FinishedDelivers(live, slots, calls, env);
      } else {
        SomeCallFails(live, slots, calls);
        var k: nat :| FailsAt(live, slots, calls, k);
        ErrorStands(live, slots, calls, k);
      }
    }
  }

  /** Only a flush can hide it, and any does: a write of which the first n bytes were taken fails, the
      flush after it succeeds, and so does the finish of the truncated response. */
  lemma FlushHidesLoss(live: HandlerHead, slots: nat, b: Bytes, cut: Env, env: Env)
    requires live.media == Some(Binary) && cut.second < |b| && env.synced
    ensures var calls := [Call(Put(b), cut), Call(Push, env)];
            var r := Ran(Fresh(live), slots, calls);
            && FailsAt(live, slots, calls, 0) && FlushesAt(live, slots, calls, 1)
            && Finish(r.w, r.slots, env).ok && Decoded(Finish(r.w, r.slots, env).w) == b[..cut.second]
  {
    var first := [Call(Put(b), cut)];
    var calls := first + [Call(Push, env)];
    assert calls == [Call(Put(b), cut), Call(Push, env)] && calls[..1] == first && calls[..2] == calls &&
           first[..0] == [];
    var started := Begun(WithStatus(Fresh(live), 200), false, cut);
    var w := Output(started, b, cut.second, cut.secondOk);
    assert Ran(Fresh(live), slots, first) == Result(w, slots, false);
    assert Ran(Fresh(live), slots, calls) == Flush(w, slots, env);
    assert w.wire.plain == b[..cut.second];
  }

  // ---- When a response is encoded ----

  predicate OnlyWrites(calls: seq<Call>) {
    forall k :: 0 <= k < |calls| ==> calls[k].op.Put?
  }

  /** A response that may be encoded and does not announce a short content. */
  predicate Worthwhile(h: Head) {
    Compressible(h, 200) && !(h.length.Some? && h.length.value < BUFFER)
  }

  /** Without flushes a response of a known type is encoded exactly if it is worthwhile and 1024
      bytes or more were written, however they were split. */
  lemma {:induction false} EncodedBySize(live: HandlerHead, slots: nat, calls: seq<Call>)
    requires Handled(Fresh(live), slots, calls).ok && OnlyWrites(calls) && live.media.Some?
    ensures var w := Handled(Fresh(live), slots, calls).w;
            && (w.encoder <==> Worthwhile(live) && |Written(calls)| >= BUFFER)
            && (!w.started ==>
                  (calls == [] || (w.headers == live && w.status == 200 && Worthwhile(live))) &&
                  (calls == [] ==> w == Fresh(live)))
            && (w.started ==> w.encoder || !Worthwhile(live))
  {
    if calls != [] {
      var init, last := calls[..|calls| - 1], calls[|calls| - 1];
      EncodedBySize(live, slots, init);
      HandledSound(live, slots, init);
      var r := Handled(Fresh(live), slots, init);
      WriteDecides(live, r.w, r.slots, Written(init), last.op.bytes, last.env);
    }
  }

  lemma {:induction false} WriteDecides(live: HandlerHead, w: Writer, slots: nat, written: Bytes, b: Bytes, env: Env)
    requires Sound(w, written) && Write(w, slots, b, env).ok && live.media.Some?
    requires w.started ==> w.encoder || !Worthwhile(live)
    requires !w.started ==> w == Fresh(live) || (w.headers == live && w.status == 200 && Worthwhile(live))
    requires w.encoder <==> Worthwhile(live) && |written| >= BUFFER
    ensures var t := Write(w, slots, b, env).w;
            && (t.encoder <==> Worthwhile(live) && |written + b| >= BUFFER)
            && (t.started ==> t.encoder || !Worthwhile(live))
            && (!t.started ==> t.headers == live && t.status == 200 && Worthwhile(live))
  {
    if !w.started {
      var s := if w.status == 0 then WithStatus(w, 200) else w;
      assert s.headers == live && s.status == 200 && Typed(s, b, env.media) == s && Sound(s, written);
      if !Worthwhile(live) {
        StartSound(s, slots, written, false, env);
      } else if |s.buffer| + |b| >= BUFFER {
        StartSound(s, slots, written, true, env);
      }
    }
  }

  // ---- The pool ----

  /** Encoders held by these writers. */
  function Holders(writers: seq<Writer>): nat {
    if writers == [] then 0 else Holders(writers[..|writers| - 1]) + Held(writers[|writers| - 1])
  }

  function Held(w: Writer): nat {
    if w.encoder then 1 else 0
  }

  datatype Move = Open(live: HandlerHead) | Use(i: nat, op: Op, env: Env) | End(i: nat, env: Env) | GiveBack(i: nat)
    | TakeOver(i: nat, ok: bool)

  datatype Server = Server(slots: nat, writers: seq<Writer>)

  function Moved(s: Server, m: Move): Server {
    match m
    case Open(live) => s.(writers := s.writers + [Fresh(live)])
    case Use(i, op, env) =>
      if i < |s.writers| then var r := Apply(s.writers[i], s.slots, op, env);
      Server(r.slots, s.writers[i := r.w]) else s
    case End(i, env) =>
      if i < |s.writers| then var r := Finish(s.writers[i], s.slots, env); Server(r.slots, s.writers[i := r.w]) else s
    case GiveBack(i) =>
      if i < |s.writers| then var (w, n) := Release(s.writers[i], s.slots); Server(n, s.writers[i := w]) else s
    case TakeOver(i, ok) => if i < |s.writers| then s.(writers := s.writers[i := Hijack(s.writers[i], ok)]) else s
  }

  function After(moves: seq<Move>): Server {
    if moves == [] then Server(0, []) else Moved(After(moves[..|moves| - 1]), moves[|moves| - 1])
  }

  /** A writer that has not started holds no encoder. */
  predicate Orderly(w: Writer) {
    w.encoder ==> w.started
  }

  lemma {:induction false} StartSlots(w: Writer, slots: nat, compress: bool, env: Env)
    requires Orderly(w) && slots <= SLOTS
    ensures var (s, n) := Opened(w, slots, compress, env);
            n <= SLOTS && n + Held(w) == slots + Held(s) && Orderly(s)
  {
  }

  lemma {:induction false} SentSlots(w: Writer, slots: nat, compress: bool, b: Bytes, env: Env)
    requires Orderly(w) && slots <= SLOTS
    ensures var r := Sent(w, slots, compress, b, env);
            r.slots <= SLOTS && r.slots + Held(w) == slots + Held(r.w) && Orderly(r.w)
  {
    StartSlots(w, slots, compress, env);
  }

  lemma {:induction false} WriteSlots(w: Writer, slots: nat, b: Bytes, env: Env)
    requires Orderly(w) && slots <= SLOTS
    ensures var r := Write(w, slots, b, env); r.slots <= SLOTS && r.slots + Held(w) == slots + Held(r.w) && Orderly(r.w)
  {
    var t := Typed(if w.status == 0 then WithStatus(w, 200) else w, b, env.media);
    SentSlots(t, slots, false, b, env);
    SentSlots(t, slots, true, b, env);
  }

  lemma {:induction false} ApplySlots(w: Writer, slots: nat, op: Op, env: Env)
    requires Orderly(w) && slots <= SLOTS
    ensures var r := Apply(w, slots, op, env);
            r.slots <= SLOTS && r.slots + Held(w) == slots + Held(r.w) && Orderly(r.w)
  {
    match op
    case Put(bytes) => WriteSlots(w, slots, bytes, env);
    case Push => StartSlots(w, slots, false, env);
    case _ =>
  }

  lemma {:induction false} FinishSlots(w: Writer, slots: nat, env: Env)
    requires Orderly(w) && slots <= SLOTS
    ensures var r := Finish(w, slots, env); r.slots <= SLOTS && r.slots + Held(w) == slots + Held(r.w) && Orderly(r.w)
  {
    StartSlots(w, slots, false, env);
  }

  lemma {:induction false} HoldersUpdate(writers: seq<Writer>, i: nat, w: Writer)
    requires i < |writers|
    ensures Holders(writers[i := w]) + Held(writers[i]) == Holders(writers) + Held(w)
    ensures Holders(writers) >= Held(writers[i])
  {
    var n := |writers| - 1;
    if i < n {
      HoldersUpdate(writers[..n], i, w);
      assert writers[i := w][..n] == writers[..n][i := w];
    } else {
      assert writers[i := w][..n] == writers[..n];
    }
  }

  predicate Balanced(s: Server) {
    s.slots == Holders(s.writers) && s.slots <= SLOTS && forall i :: 0 <= i < |s.writers| ==> Orderly(s.writers[i])
  }

  /** Writer i changes and the pool accounts for it. */
  lemma {:induction false} StaysBalanced(s: Server, i: nat, w: Writer, slots: nat)
    requires Balanced(s) && i < |s.writers| && Orderly(w) && slots <= SLOTS &&
             slots + Held(s.writers[i]) == s.slots + Held(w)
    ensures Balanced(Server(slots, s.writers[i := w]))
  {
    HoldersUpdate(s.writers, i, w);
  }

  lemma {:induction false} MoveIsBalanced(s: Server, m: Move)
    requires Balanced(s)
    ensures Balanced(Moved(s, m))
  {
    match m
    case Open(live) => assert (s.writers + [Fresh(live)])[..|s.writers|] == s.writers;
    case Use(i, op, env) =>
      if i < |s.writers| {
        ApplySlots(s.writers[i], s.slots, op, env);
        var r := Apply(s.writers[i], s.slots, op, env);
        StaysBalanced(s, i, r.w, r.slots);
      }
    case End(i, env) =>
      if i < |s.writers| {
        FinishSlots(s.writers[i], s.slots, env);
        var r := Finish(s.writers[i], s.slots, env);
        StaysBalanced(s, i, r.w, r.slots);
      }
    case GiveBack(i) =>
      if i < |s.writers| {
        HoldersUpdate(s.writers, i, s.writers[i]);
        var (w, slots) := Release(s.writers[i], s.slots);
        StaysBalanced(s, i, w, slots);
      }
    case TakeOver(i, ok) =>
      if i < |s.writers| {
        StaysBalanced(s, i, Hijack(s.writers[i], ok), s.slots);
      }
  }

  /** Over every run of any number of responses, with errors, panics and takeovers: the slots in use
      are exactly the encoders held, and never more than eight. */
  lemma {:induction false} SlotsAreEncoders(moves: seq<Move>)
    ensures Balanced(After(moves))
  {
    if moves != [] {
      SlotsAreEncoders(moves[..|moves| - 1]);
      MoveIsBalanced(After(moves[..|moves| - 1]), moves[|moves| - 1]);
    }
  }

  // ---- The writer as the program runs it ----

  class Pool {
    var slots: nat

    constructor ()
      ensures slots == 0
    {
      slots := 0;
    }

    method Acquire(context: bool) returns (err: Err)
      modifies this
      ensures err == Acquired(old(slots), context) && slots == old(slots) + if err == Fine then 1 else 0
    {
      if !context {
        return Broken;
      }
      if slots < SLOTS {
        slots := slots + 1;
        return Fine;
      }
      return Busy;
    }

    method Release()
      modifies this
      ensures slots == if old(slots) > 0 then old(slots) - 1 else 0
    {
      if slots > 0 {
        slots := slots - 1;
      }
    }
  }

  class CompressedResponse {
    const pool: Pool
    const buffer: array<Byte>
    var used: nat
    var live: Head
    var status: nat
    var headers: Head
    var started: bool
    var hijacked: bool
    var encoder: bool
    var err: Err
    var wire: Wire

    ghost predicate Valid()
      reads this
    {
      buffer.Length == BUFFER && used <= BUFFER
    }

    ghost function Value(): Writer
      requires Valid()
      reads this, buffer
    {
      Writer(live, status, headers, buffer[..used], started, hijacked, encoder, err, wire)
    }

    constructor (pool: Pool, live: HandlerHead)
      ensures Valid() && Value() == Fresh(live) && this.pool == pool && fresh(buffer)
    {
      this.pool := pool;
      buffer := new Byte[BUFFER];
      used, status, started, hijacked, encoder := 0, 0, false, false, false;
      this.live, headers, err := live, live, Fine;
      wire := Wire(None, [], [], 0);
    }

    /** The handler changes its header map. */
    method SetHeaderMap(head: HandlerHead)
      requires Valid()
      modifies this`live
      ensures Valid() && Value() == old(Value()).(live := head)
    {
      live := head;
    }

    method WriteHeader(code: nat)
      requires Valid()
      modifies this`status, this`headers
      ensures Valid() && Value() == WithStatus(old(Value()), code)
    {
      if status != 0 || hijacked {
        return;
      }
      if code >= 100 && code < 200 && code != 101 {
        return;
      }
      status := code;
      headers := live;
    }

    /** `writeOutput`: n bytes are taken, and `ok` tells whether without an error. */
    method WriteOutput(b: Bytes, n: nat, ok: bool) returns (done: bool)
      requires Valid()
      modifies this`wire, this`err
      ensures Valid() && Value() == Output(old(Value()), b, n, ok) && done == Complete(b, n, ok)
    {
      if encoder {
        wire := wire.(fed := wire.fed + Taken(b, n));
      } else {
        wire := wire.(plain := wire.plain + Taken(b, n));
      }
      done := ok && n >= |b|;
      if !done {
        err := Broken;
      }
    }

    /** The headers that go out. */
    static method Announce(before: Head, status: nat, compress: bool) returns (h: Head)
      ensures var e := if compress then Encoded(before) else before;
              h == if Compressible(e, status) || compress then e.(varies := true) else e
    {
      h := before;
      if compress {
        h := h.(length := None, encoding := Some(Ours));
        if h.tag == Strong {
          h := h.(tag := Weak);
        }
      }
      if Compressible(h, status) || compress {
        h := h.(varies := true);
      }
    }

    method Begin(compress: bool, env: Env)
      requires Valid() && !started
      modifies this
      ensures Valid() && Value() == Begun(old(Value()), compress, env)
    {
      encoder := compress;
      var h := Announce(headers, status, compress);
      headers, live := h, h;
      wire := wire.(head := Some((status, h)));
      started := true;
      if used > 0 {
        var done := WriteOutput(buffer[..used], env.first, env.firstOk);
        err := if done then Fine else Broken;
        used := 0;
      }
    }

    /** `start`. */
    method Start(compress: bool, env: Env) returns (ok: bool)
      requires Valid()
      modifies this, pool
      ensures Valid() && (Value(), pool.slots) == Opened(old(Value()), old(pool.slots), compress, env)
      ensures ok == (err == Fine)
    {
      if started {
        return err == Fine;
      }
      if status == 0 {
        WriteHeader(200);
      }
      if compress {
        err := pool.Acquire(env.context);
        if err != Fine {
          return false;
        }
      }
      Begin(compress, env);
      ok := err == Fine;
    }

    method SendNow(compress: bool, b: Bytes, env: Env) returns (ok: bool)
      requires Valid()
      modifies this, pool
      ensures Valid() && Result(Value(), pool.slots, ok) == Sent(old(Value()), old(pool.slots), compress, b, env)
    {
      ok := Start(compress, env);
      if ok {
        ok := WriteOutput(b, env.second, env.secondOk);
      }
    }

    method Put(b: Bytes, env: Env) returns (ok: bool)
      requires Valid()
      modifies this, buffer, pool
      ensures Valid() && Result(Value(), pool.slots, ok) == Write(old(Value()), old(pool.slots), b, env)
    {
      if err != Fine || hijacked {
        return false;
      }
      if status == 0 {
        WriteHeader(200);
      }
      if started {
        ok := WriteOutput(b, env.second, env.secondOk);
        return;
      }
      if headers.media.None? && |b| > 0 {
        headers := headers.(media := Some(env.media));
      }
      if !Compressible(headers, status) {
        ok := SendNow(false, b, env);
        return;
      }
      if headers.length.Some? && headers.length.value < BUFFER {
        ok := SendNow(false, b, env);
        return;
      }
      if used + |b| < buffer.Length {
        Keep(b);
        return true;
      }
      ok := SendNow(true, b, env);
    }

    /** `copy` into the rest of the buffer. */
    method Keep(b: Bytes)
      requires Valid() && used + |b| < BUFFER
      modifies this`used, buffer
      ensures Valid() && used == old(used) + |b| && buffer[..used] == old(buffer[..used]) + b
    {
      for k := 0 to |b|
        invariant Valid() && used == old(used) && buffer[..used] == old(buffer[..used])
        invariant buffer[used..used + k] == b[..k]
      {
        buffer[used + k] := b[k];
      }
      used := used + |b|;
    }

    method FlushError(env: Env) returns (ok: bool)
      requires Valid()
      modifies this, pool
      ensures Valid() && Result(Value(), pool.slots, ok) == Flush(old(Value()), old(pool.slots), env)
    {
      if !started {
        var begun := Start(false, env);
        if !begun {
          return false;
        }
      }
      if encoder {
        if !env.flushed {
          err := Broken;
          return false;
        }
        wire := wire.(decodable := |wire.fed|);
      }
      err := if env.synced then Fine else Broken;
      ok := env.synced;
    }

    method FinishResponse(env: Env) returns (ok: bool)
      requires Valid()
      modifies this, pool
      ensures Valid() && Result(Value(), pool.slots, ok) == Finish(old(Value()), old(pool.slots), env)
    {
      if hijacked {
        return true;
      }
      if err != Fine {
        return false;
      }
      var begun := Start(false, env);
      if !begun {
        return false;
      }
      if encoder {
        if env.closed {
          wire := wire.(decodable := |wire.fed|);
        } else {
          err := Broken;
        }
      }
      ok := err == Fine;
    }

    method ReleaseEncoder()
      requires Valid()
      modifies this, pool
      ensures Valid() && (Value(), pool.slots) == Release(old(Value()), old(pool.slots))
    {
      if encoder {
        pool.Release();
        encoder := false;
      }
    }

    method TakeOver(ok: bool) returns (taken: bool)
      requires Valid()
      modifies this`hijacked
      ensures Valid() && Value() == Hijack(old(Value()), ok)
      ensures taken ==> !started && used == 0 && hijacked
    {
      if started || used > 0 || !ok {
        return false;
      }
      hijacked := true;
      return true;
    }
  }
}
