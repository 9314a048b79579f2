/**
 * The watchdog round tripper of the `backend` package: every HTTP request
 * gets a timer that is kicked whenever its request or response body makes
 * progress, and a cancellable context that closing the response body
 * cancels. The timer, the watcher goroutine and the clock are not part of
 * this model: kicking the timer and cancelling the context through a body
 * wrapper's close callback are recorded as events in a per-request trace,
 * together with the calls the wrappers make into the streams they wrap, so
 * that order and counts can be stated. The watcher's own `cancel()` when
 * the timer fires is not an event of the trace.
 */
module Watchdog {
  import opened Wrappers

  /** The `n, err` pair an `io.Reader` returns. */
  datatype ReadReply = ReadReply(n: int, err: Option<Error>)

  /** A stream the watchdog wraps (an `io.ReadCloser` it does not own the
      code of). What it answers is a parameter: the k-th `Read` (counting
      from 0) with a buffer of length `len` returns `replies(k, len)`, and
      the k-th `Close` returns `closeReplies(k)`. */
  class ReadCloser {
    const replies: (nat, nat) -> ReadReply
    const closeReplies: nat -> Option<Error>
    var readCount: nat
    var closeCount: nat

    constructor (replies: (nat, nat) -> ReadReply, closeReplies: nat -> Option<Error>)
      ensures this.replies == replies && this.closeReplies == closeReplies
      ensures readCount == 0 && closeCount == 0
    {
      this.replies := replies;
      this.closeReplies := closeReplies;
      readCount, closeCount := 0, 0;
    }

    /** The `io.Reader` rule: `0 <= n <= len(p)`. */
    ghost predicate RespectsBuffer()
    {
      forall k: nat, len: nat :: 0 <= replies(k, len).n <= len
    }

    method Read(len: nat) returns (n: int, err: Option<Error>)
      modifies this`readCount
      ensures readCount == old(readCount) + 1
      ensures ReadReply(n, err) == replies(old(readCount), len)
    {
      var reply := replies(readCount, len);
      n, err := reply.n, reply.err;
      readCount := readCount + 1;
    }

    method Close() returns (err: Option<Error>)
      modifies this`closeCount
      ensures closeCount == old(closeCount) + 1
      ensures err == closeReplies(old(closeCount))
    {
      err := closeReplies(closeCount);
      closeCount := closeCount + 1;
    }
  }

  /** What a request's body wrappers do: kick its timer, cancel its context
      through a close callback, and call into the streams they wrap. */
  datatype Event =
    | Kicked                                      // timer.Reset(timeout)
    | Cancelled                                   // cancel() called through a wrapper's close callback
    | StreamRead(stream: ReadCloser, len: nat)    // rc.Read with a buffer of length len
    | StreamClosed(stream: ReadCloser)            // rc.Close()

  /** The timer and the cancellable context that `RoundTrip` creates for
      one request, reduced to the trace of what its body wrappers do to
      them. */
  class Watch {
    ghost var trace: seq<Event>

    constructor ()
      ensures trace == []
    {
      trace := [];
    }

    /** The `kick` closure: re-arms the timer. */
    method Kick()
      modifies this
      ensures trace == old(trace) + [Kicked]
    {
      trace := trace + [Kicked];
    }

    /** The `cancel` function of the derived context, as a close callback
        calls it. */
    method Cancel()
      modifies this
      ensures trace == old(trace) + [Cancelled]
    {
      trace := trace + [Cancelled];
    }
  }

  predicate IsKick(e: Event) { e.Kicked? }
  predicate IsCancel(e: Event) { e.Cancelled? }
  predicate IsRead(e: Event) { e.StreamRead? }
  predicate IsClose(e: Event) { e.StreamClosed? }

  /** The number of events in `t` that satisfy `p`. */
  function Count(t: seq<Event>, p: Event -> bool): (k: nat)
    ensures k <= |t|
  {
    if t == [] then 0 else (if p(t[0]) then 1 else 0) + Count(t[1..], p)
  }

  lemma {:induction false} CountAppend(a: seq<Event>, b: seq<Event>, p: Event -> bool)
    ensures Count(a + b, p) == Count(a, p) + Count(b, p)
  {
    if a == [] {
      assert a + b == b;
    } else {
      assert (a + b)[1..] == a[1..] + b;
      CountAppend(a[1..], b, p);
    }
  }

  lemma CountSingle(e: Event, p: Event -> bool)
    ensures Count([e], p) == if p(e) then 1 else 0
  {
    assert [e][1..] == [];
  }

  /** Every call into a wrapped stream's `Read` is immediately preceded and
      immediately followed by a kick of the timer. */
  ghost predicate ReadsGuarded(t: seq<Event>)
  {
    forall i :: 0 <= i < |t| && t[i].StreamRead? ==>
      0 < i < |t| - 1 && t[i - 1].Kicked? && t[i + 1].Kicked?
  }

  /** No wrapped stream was ever handed a buffer longer than `chunkSize`. */
  ghost predicate ReadsWithin(t: seq<Event>, chunkSize: int)
  {
    forall i :: 0 <= i < |t| && t[i].StreamRead? ==> t[i].len <= chunkSize
  }

  /** The length of the buffer the wrapper hands to the wrapped stream:
      the caller's buffer, cut to `chunkSize` when it is longer. */
  function Chunk(bufLen: nat, chunkSize: int): (len: nat)
    requires 0 <= chunkSize
    ensures len <= bufLen && len <= chunkSize
    ensures len == bufLen || len == chunkSize
  {
    if bufLen > chunkSize then chunkSize else bufLen
  }

  /** The events of one `Read` through a wrapper add two kicks and one
      underlying read, keep every underlying read bracketed by kicks and
      keep every buffer within the chunk size. */
  lemma ReadStep(t: seq<Event>, s: ReadCloser, len: nat, chunkSize: int)
    requires len <= chunkSize
    ensures var t' := t + [Kicked, StreamRead(s, len), Kicked];
      && (ReadsGuarded(t) && ReadsWithin(t, chunkSize) ==> ReadsGuarded(t') && ReadsWithin(t', chunkSize))
      && Count(t', IsKick) == Count(t, IsKick) + 2
      && Count(t', IsRead) == Count(t, IsRead) + 1
      && Count(t', IsCancel) == Count(t, IsCancel)
      && Count(t', IsClose) == Count(t, IsClose)
  {
    var step := [Kicked, StreamRead(s, len), Kicked];
    var t' := t + step;
    forall i | 0 <= i < |t'| && t'[i].StreamRead? && ReadsGuarded(t)
      ensures 0 < i < |t'| - 1 && t'[i - 1].Kicked? && t'[i + 1].Kicked?
    {
      if i < |t| {
        assert t'[i] == t[i];
      } else {
        assert i == |t| + 1;
      }
    }
    forall p: Event -> bool
      ensures Count(t', p) == Count(t, p) + Count([Kicked], p) + Count([StreamRead(s, len)], p) + Count([Kicked], p)
    {
      assert step == [Kicked] + [StreamRead(s, len)] + [Kicked];
      CountAppend(t, step, p);
      CountAppend([Kicked] + [StreamRead(s, len)], [Kicked], p);
      CountAppend([Kicked], [StreamRead(s, len)], p);
    }
    CountSingle(Kicked, IsKick);
    CountSingle(StreamRead(s, len), IsKick);
    CountSingle(Kicked, IsRead);
    CountSingle(StreamRead(s, len), IsRead);
    CountSingle(Kicked, IsCancel);
    CountSingle(StreamRead(s, len), IsCancel);
    CountSingle(Kicked, IsClose);
    CountSingle(StreamRead(s, len), IsClose);
  }

  /** The events of one `Close` through a wrapper: a cancel exactly when
      the wrapper has a close callback, then one underlying close; no kick,
      and the guarantees about reads are kept. */
  lemma CloseStep(t: seq<Event>, s: ReadCloser, cancels: bool, chunkSize: int)
    ensures var t' := t + (if cancels then [Cancelled] else []) + [StreamClosed(s)];
      && (ReadsGuarded(t) && ReadsWithin(t, chunkSize) ==> ReadsGuarded(t') && ReadsWithin(t', chunkSize))
      && Count(t', IsKick) == Count(t, IsKick)
      && Count(t', IsRead) == Count(t, IsRead)
      && Count(t', IsCancel) == Count(t, IsCancel) + (if cancels then 1 else 0)
      && Count(t', IsClose) == Count(t, IsClose) + 1
  {
    var step := (if cancels then [Cancelled] else []) + [StreamClosed(s)];
    var t' := t + step;
    assert t' == t + (if cancels then [Cancelled] else []) + [StreamClosed(s)];
    forall i | 0 <= i < |t'| && t'[i].StreamRead? && ReadsGuarded(t)
      ensures 0 < i < |t'| - 1 && t'[i - 1].Kicked? && t'[i + 1].Kicked?
    {
      assert i < |t| && t'[i] == t[i];
    }
    CountAppend(t, step, IsKick);
    CountAppend(t, step, IsRead);
    CountAppend(t, step, IsCancel);
    CountAppend(t, step, IsClose);
  }

  /** `watchdogReadCloser`: a body wrapper bound to one request's timer. */
  class WatchdogReadCloser {
    const rc: ReadCloser
    const chunkSize: int
    /** Whose timer `kick` re-arms. */
    const watch: Watch
    /** The `close` callback: the request's `cancel` (true) or nil (false). */
    const cancelsOnClose: bool

    /** `newWatchdogReadCloser`. */
    constructor (rc: ReadCloser, chunkSize: int, watch: Watch, cancelsOnClose: bool)
      ensures this.rc == rc && this.chunkSize == chunkSize
      ensures this.watch == watch && this.cancelsOnClose == cancelsOnClose
    {
      this.rc := rc;
      this.chunkSize := chunkSize;
      this.watch := watch;
      this.cancelsOnClose := cancelsOnClose;
    }

    /** Reads into a caller's buffer of length `bufLen`: kicks, reads at
        most `chunkSize` bytes from the wrapped stream, kicks again and
        returns what the wrapped stream returned. A negative chunk size
        makes the reslice `p[:chunkSize]` panic. */
    method Read(bufLen: nat) returns (n: int, err: Option<Error>)
      requires 0 <= chunkSize
      modifies watch, rc
      ensures watch.trace == old(watch.trace) + [Kicked, StreamRead(rc, Chunk(bufLen, chunkSize)), Kicked]
      ensures rc.readCount == old(rc.readCount) + 1 && rc.closeCount == old(rc.closeCount)
      ensures ReadReply(n, err) == rc.replies(old(rc.readCount), Chunk(bufLen, chunkSize))
      ensures rc.RespectsBuffer() ==> 0 <= n <= bufLen && n <= chunkSize
      ensures ReadsGuarded(old(watch.trace)) && ReadsWithin(old(watch.trace), chunkSize) ==>
        ReadsGuarded(watch.trace) && ReadsWithin(watch.trace, chunkSize)
      ensures Count(watch.trace, IsCancel) == Count(old(watch.trace), IsCancel)
    {
      ghost var before := watch.trace;
      watch.Kick();
      var len := bufLen;
      if len > chunkSize {
        len := chunkSize;
      }
      n, err := rc.Read(len);
      watch.trace := watch.trace + [StreamRead(rc, len)];
      watch.Kick();
      ReadStep(before, rc, len, chunkSize);
    }

    /** Runs the close callback, if any, then always closes the wrapped
        stream and returns its error. */
    method Close() returns (err: Option<Error>)
      modifies watch, rc
      ensures watch.trace == old(watch.trace) + (if cancelsOnClose then [Cancelled] else []) + [StreamClosed(rc)]
      ensures rc.closeCount == old(rc.closeCount) + 1 && rc.readCount == old(rc.readCount)
      ensures err == rc.closeReplies(old(rc.closeCount))
      ensures ReadsGuarded(old(watch.trace)) && ReadsWithin(old(watch.trace), chunkSize) ==>
        ReadsGuarded(watch.trace) && ReadsWithin(watch.trace, chunkSize)
      ensures Count(watch.trace, IsCancel) == Count(old(watch.trace), IsCancel) + (if cancelsOnClose then 1 else 0)
    {
      ghost var before := watch.trace;
      if cancelsOnClose {
        watch.Cancel();
      }
      err := rc.Close();
      watch.trace := watch.trace + [StreamClosed(rc)];
      CloseStep(before, rc, cancelsOnClose, chunkSize);
    }
  }

  /** The parts of an `http.Request` other than its context and body. */
  datatype Header = Header(verb: string, url: string)

  /** An `http.Request` whose body, when present, is a `B`. */
  datatype Request<B> = Request(header: Header, body: Option<B>)

  /** An `http.Response` whose body is a `B` (never nil from a transport). */
  datatype Response<B> = Response(status: int, body: B)

  /** What the wrapped transport does with a request body while it sends
      the request: one read with a buffer of length `bufLen`, or a close. */
  datatype BodyOp = ReadBody(bufLen: nat) | CloseBody

  /** A body script may read only when the chunk size is one the wrapper
      can reslice to. */
  predicate ReadsAllowed(ops: seq<BodyOp>, chunkSize: int)
  {
    0 <= chunkSize || forall i :: 0 <= i < |ops| ==> ops[i].CloseBody?
  }

  /** The events that one body operation through a wrapper appends. */
  function OpEvents(op: BodyOp, s: ReadCloser, chunkSize: int, cancels: bool): seq<Event>
    requires op.ReadBody? ==> 0 <= chunkSize
  {
    match op
    case ReadBody(bufLen) => [Kicked, StreamRead(s, Chunk(bufLen, chunkSize)), Kicked]
    case CloseBody => (if cancels then [Cancelled] else []) + [StreamClosed(s)]
  }

  /** The events that running the body script `ops` through a wrapper of
      `s` appends, in order. */
  function BodyEvents(ops: seq<BodyOp>, s: ReadCloser, chunkSize: int, cancels: bool): seq<Event>
    requires ReadsAllowed(ops, chunkSize)
    decreases |ops|
  {
    if ops == [] then []
    else
      var init := ops[..|ops| - 1];
      assert forall i :: 0 <= i < |init| ==> init[i] == ops[i];
      BodyEvents(init, s, chunkSize, cancels) + OpEvents(ops[|ops| - 1], s, chunkSize, cancels)
  }

  /** Whatever reads and closes a caller makes through a wrapper, every
      underlying read stays bracketed by kicks and within the chunk size,
      and a wrapper without a close callback never cancels. */
  lemma {:induction false} BodyEventsKeep(t: seq<Event>, ops: seq<BodyOp>, s: ReadCloser, chunkSize: int, cancels: bool)
    requires ReadsAllowed(ops, chunkSize)
    ensures var t' := t + BodyEvents(ops, s, chunkSize, cancels);
      && (ReadsGuarded(t) && ReadsWithin(t, chunkSize) ==> ReadsGuarded(t') && ReadsWithin(t', chunkSize))
      && (!cancels ==> Count(t', IsCancel) == Count(t, IsCancel))
    decreases |ops|
  {
    if ops == [] {
      assert t + BodyEvents(ops, s, chunkSize, cancels) == t;
    } else {
      var init := ops[..|ops| - 1];
      BodyEventsLast(ops, s, chunkSize, cancels);
      BodyEventsKeep(t, init, s, chunkSize, cancels);
      var mid := t + BodyEvents(init, s, chunkSize, cancels);
      var last := ops[|ops| - 1];
      assert t + BodyEvents(ops, s, chunkSize, cancels) == mid + OpEvents(last, s, chunkSize, cancels);
      match last
      case ReadBody(bufLen) =>
        ReadStep(mid, s, Chunk(bufLen, chunkSize), chunkSize);
      case CloseBody =>
        CloseStep(mid, s, cancels, chunkSize);
        assert mid + OpEvents(last, s, chunkSize, cancels) == mid + (if cancels then [Cancelled] else []) + [StreamClosed(s)];
    }
  }

  /** A non-empty body script is its prefix followed by its last
      operation. */
  lemma BodyEventsLast(ops: seq<BodyOp>, s: ReadCloser, chunkSize: int, cancels: bool)
    requires ReadsAllowed(ops, chunkSize) && ops != []
    ensures var init, last := ops[..|ops| - 1], ops[|ops| - 1];
      && ReadsAllowed(init, chunkSize) && (last.ReadBody? ==> 0 <= chunkSize)
      && BodyEvents(ops, s, chunkSize, cancels) == BodyEvents(init, s, chunkSize, cancels) + OpEvents(last, s, chunkSize, cancels)
      && ReadOps(ops) == ReadOps(init) + (if last.ReadBody? then 1 else 0)
      && CloseOps(ops) == CloseOps(init) + (if last.CloseBody? then 1 else 0)
  {
    var init := ops[..|ops| - 1];
    assert forall i :: 0 <= i < |init| ==> init[i] == ops[i];
  }

  /** One operation of a body script, made through the wrapper `b`. */
  method RunOp(b: WatchdogReadCloser, op: BodyOp)
    requires op.ReadBody? ==> 0 <= b.chunkSize
    modifies b.watch, b.rc
    ensures b.watch.trace == old(b.watch.trace) + OpEvents(op, b.rc, b.chunkSize, b.cancelsOnClose)
    ensures b.rc.readCount == old(b.rc.readCount) + (if op.ReadBody? then 1 else 0)
    ensures b.rc.closeCount == old(b.rc.closeCount) + (if op.CloseBody? then 1 else 0)
  {
    match op {
      case ReadBody(bufLen) =>
        var n, err := b.Read(bufLen);
      case CloseBody =>
        var err := b.Close();
    }
  }

  /** The number of reads in the body script `ops`. */
  function ReadOps(ops: seq<BodyOp>): (k: nat)
    ensures k <= |ops|
    decreases |ops|
  {
    if ops == [] then 0 else ReadOps(ops[..|ops| - 1]) + (if ops[|ops| - 1].ReadBody? then 1 else 0)
  }

  /** The number of closes in the body script `ops`. */
  function CloseOps(ops: seq<BodyOp>): (k: nat)
    ensures k <= |ops|
    decreases |ops|
  {
    if ops == [] then 0 else CloseOps(ops[..|ops| - 1]) + (if ops[|ops| - 1].CloseBody? then 1 else 0)
  }

  /** Every read of a body script reaches the wrapped stream as one
      underlying read, and every close as one underlying close. */
  lemma {:induction false} BodyEventsCounts(ops: seq<BodyOp>, s: ReadCloser, chunkSize: int, cancels: bool)
    requires ReadsAllowed(ops, chunkSize)
    ensures Count(BodyEvents(ops, s, chunkSize, cancels), IsRead) == ReadOps(ops)
    ensures Count(BodyEvents(ops, s, chunkSize, cancels), IsClose) == CloseOps(ops)
    decreases |ops|
  {
    if ops != [] {
      var init, last := ops[..|ops| - 1], ops[|ops| - 1];
      BodyEventsLast(ops, s, chunkSize, cancels);
      BodyEventsCounts(init, s, chunkSize, cancels);
      var before := BodyEvents(init, s, chunkSize, cancels);
      match last
      case ReadBody(bufLen) =>
        ReadStep(before, s, Chunk(bufLen, chunkSize), chunkSize);
      case CloseBody =>
        CloseStep(before, s, cancels, chunkSize);
        assert before + OpEvents(last, s, chunkSize, cancels) == before + (if cancels then [Cancelled] else []) + [StreamClosed(s)];
    }
  }

  /** A body script `ops`, made operation by operation through the wrapper
      `b`. */
  method RunScript(b: WatchdogReadCloser, ops: seq<BodyOp>)
    requires ReadsAllowed(ops, b.chunkSize)
    modifies b.watch, b.rc
    ensures b.watch.trace == old(b.watch.trace) + BodyEvents(ops, b.rc, b.chunkSize, b.cancelsOnClose)
    ensures b.rc.readCount == old(b.rc.readCount) + ReadOps(ops)
    ensures b.rc.closeCount == old(b.rc.closeCount) + CloseOps(ops)
    decreases |ops|
  {
    if ops != [] {
      var init, last := ops[..|ops| - 1], ops[|ops| - 1];
      BodyEventsLast(ops, b.rc, b.chunkSize, b.cancelsOnClose);
      RunScript(b, init);
      RunOp(b, last);
    }
  }

  /** The objects a transport may change while sending `req`: its body
      wrapper's timer and the stream that wrapper reads from. */
  function BodyFrame(req: Request<WatchdogReadCloser>): set<object>
  {
    if req.body.Some? then {req.body.value.watch, req.body.value.rc} else {}
  }

  /** The wrapped `http.RoundTripper`. What it does is a parameter: on its
      k-th round trip (counting from 0) it runs the script `uploads(k)` on
      the request body, if there is one, and yields `replies(k)`. It records
      the requests it was given. */
  class Transport {
    const replies: nat -> Result<Response<ReadCloser>>
    const uploads: nat -> seq<BodyOp>
    var sent: seq<Request<WatchdogReadCloser>>

    constructor (replies: nat -> Result<Response<ReadCloser>>, uploads: nat -> seq<BodyOp>)
      ensures this.replies == replies && this.uploads == uploads && sent == []
    {
      this.replies := replies;
      this.uploads := uploads;
      sent := [];
    }

    method RoundTrip(req: Request<WatchdogReadCloser>) returns (r: Result<Response<ReadCloser>>)
      requires req.body.Some? ==> ReadsAllowed(uploads(|sent|), req.body.value.chunkSize)
      modifies this, BodyFrame(req)
      ensures sent == old(sent) + [req]
      ensures r == replies(|old(sent)|)
      ensures req.body.Some? ==>
        var b := req.body.value;
        var ops := uploads(|old(sent)|);
        && b.watch.trace == old(b.watch.trace) + BodyEvents(ops, b.rc, b.chunkSize, b.cancelsOnClose)
        && b.rc.readCount == old(b.rc.readCount) + ReadOps(ops)
        && b.rc.closeCount == old(b.rc.closeCount) + CloseOps(ops)
    {
      var ops := uploads(|sent|);
      r := replies(|sent|);
      sent := sent + [req];
      if req.body.Some? {
        RunScript(req.body.value, ops);
      }
    }
  }

  /** `watchdogRoundtriper`; the timeout only drives the timer and is not
      part of this model. */
  class WatchdogRoundtripper {
    const rt: Transport
    const chunkSize: int

    /** `newWatchdogRoundtriper`. */
    constructor (rt: Transport, chunkSize: int)
      ensures this.rt == rt && this.chunkSize == chunkSize
    {
      this.rt := rt;
      this.chunkSize := chunkSize;
    }

    /** Passes `req` on with its body (if any) wrapped to kick the request's
        timer; returns the transport's error unchanged, or its response
        with the body wrapped to kick the same timer and to cancel the
        request's context on close. `watch` is that request's timer and
        context. While the transport sends the request it may read and
        close the request body; what that leaves in the trace is the
        transport's script run through a wrapper that never cancels. */
    method RoundTrip(req: Request<ReadCloser>) returns (resp: Result<Response<WatchdogReadCloser>>, ghost watch: Watch)
      requires req.body.Some? ==> ReadsAllowed(rt.uploads(|rt.sent|), chunkSize)
      modifies rt, if req.body.Some? then {req.body.value} else {}
      ensures fresh(watch)
      ensures req.body.None? ==> watch.trace == []
      ensures req.body.Some? ==> watch.trace == BodyEvents(rt.uploads(|old(rt.sent)|), req.body.value, chunkSize, false)
      ensures Count(watch.trace, IsCancel) == 0 && ReadsGuarded(watch.trace) && ReadsWithin(watch.trace, chunkSize)
      ensures req.body.Some? ==>
        && req.body.value.readCount == old(req.body.value.readCount) + Count(watch.trace, IsRead)
        && req.body.value.closeCount == old(req.body.value.closeCount) + Count(watch.trace, IsClose)
      ensures |rt.sent| == |old(rt.sent)| + 1 && rt.sent[..|old(rt.sent)|] == old(rt.sent)
      ensures var fwd := rt.sent[|old(rt.sent)|];
        && fwd.header == req.header
        && fwd.body.Some? == req.body.Some?
        && (fwd.body.Some? ==>
              && fresh(fwd.body.value)
              && fwd.body.value.rc == req.body.value
              && fwd.body.value.chunkSize == chunkSize
              && fwd.body.value.watch == watch
              && !fwd.body.value.cancelsOnClose)
      ensures var reply := rt.replies(|old(rt.sent)|);
        && (reply.Failure? ==> resp == Failure(reply.error))
        && (reply.Success? ==>
              && resp.Success?
              && resp.value.status == reply.value.status
              && fresh(resp.value.body)
              && resp.value.body.rc == reply.value.body
              && resp.value.body.chunkSize == chunkSize
              && resp.value.body.watch == watch
              && resp.value.body.cancelsOnClose)
    {
      var w := new Watch();
      watch := w;
      var body: Option<WatchdogReadCloser> := None;
      if req.body.Some? {
        var wrapped := new WatchdogReadCloser(req.body.value, chunkSize, w, false);
        body := Some(wrapped);
      }
      ghost var ops := rt.uploads(|rt.sent|);
      var r := rt.RoundTrip(Request(req.header, body));
      if req.body.Some? {
        BodyEventsKeep([], ops, req.body.value, chunkSize, false);
        BodyEventsCounts(ops, req.body.value, chunkSize, false);
        assert [] + BodyEvents(ops, req.body.value, chunkSize, false) == w.trace;
      }
      if r.Failure? {
        resp := Failure(r.error);
        return;
      }
      var wrapped := new WatchdogReadCloser(r.value.body, chunkSize, w, true);
      resp := Success(Response(r.value.status, wrapped));
    }
  }

  /** A caller that reads a response body once and closes it: whatever the
      transport did with the request body, the read is bracketed by kicks,
      and the only cancel made through a close callback is the response
      wrapper's, after the read and before the wrapped stream's close. */
  method ReadOnceThenClose(w: WatchdogRoundtripper, req: Request<ReadCloser>, bufLen: nat)
    requires 0 <= w.chunkSize
    requires w.rt.replies(|w.rt.sent|).Success?
    modifies w.rt, w.rt.replies(|w.rt.sent|).value.body
    modifies if req.body.Some? then {req.body.value} else {}
  {
    ghost var s := w.rt.replies(|w.rt.sent|).value.body;
    var resp, watch := w.RoundTrip(req);
    ghost var sent := watch.trace;
    var body := resp.value.body;
    var n, err := body.Read(bufLen);
    var closeErr := body.Close();
    ghost var afterRead := sent + [Kicked, StreamRead(s, Chunk(bufLen, w.chunkSize)), Kicked];
    assert watch.trace == afterRead + [Cancelled] + [StreamClosed(s)];
    ReadStep(sent, s, Chunk(bufLen, w.chunkSize), w.chunkSize);
    CloseStep(afterRead, s, true, w.chunkSize);
    assert ReadsGuarded(watch.trace) && ReadsWithin(watch.trace, w.chunkSize);
    assert Count(watch.trace, IsKick) == Count(sent, IsKick) + 2 && Count(watch.trace, IsCancel) == 1;
    assert watch.trace[|watch.trace| - 2] == Cancelled;
  }
}
