/** The two-way byte-shifting relay of the example proxy: each direction receives into
    its buffer, transforms it in place, sends all of it, and receives again.

    Each direction reads from one kernel end and writes to another, through the calls of
    `Kernel`; completions, synchronous or not, are separate steps. */
module Relay {
  import opened Kernel

  const BUF_SIZE := 4096
  const SHIFT := 69

  /** `buf[i] += 69` or `buf[i] -= 69` on uint8_t. */
  function Shifted(rev: bool, b: byte): byte {
    ((if rev then b as int - SHIFT else b as int + SHIFT) % 256) as byte
  }

  function ShiftedAll(rev: bool, s: seq<byte>): (t: seq<byte>)
    ensures |t| == |s| && forall i :: 0 <= i < |s| ==> t[i] == Shifted(rev, s[i])
  {
    seq(|s|, i requires 0 <= i < |s| => Shifted(rev, s[i]))
  }

  /** One direction. `buf` is the transformed chunk being sent and `done` how much of it
      is out; `received` is history, and the bytes sent are `to.stream`. */
  datatype Way = Way(
    receiving: bool,
    sending: bool,
    buf: seq<byte>,
    done: nat,
    stopped: bool,
    shut: bool,       // shutdown(SHUT_WR) was called on the outgoing socket
    dropped: bool,    // a failed sendAll was taken for a complete one
    received: seq<byte>,
    from: End,
    to: End)

  datatype Handler = Handler(w12: Way, w21: Way, rev: bool, connected: bool, dead: bool)
  {
    function At(d: bool): Way {
      if d then w21 else w12
    }

    function Put(d: bool, w: Way): Handler {
      if d then this.(w21 := w) else this.(w12 := w)
    }
  }

  datatype Step =
    | Connected(r: int)
    | TryRecv(d: bool)
    | TrySend(d: bool)
    | HupRecv(d: bool)
    | HupSend(d: bool)
    | Happens(d: bool, out: bool, event: Event)

  function Idle(w: Way): Way {
    w.(receiving := false, sending := false)
  }

  /** stop(): both sockets leave epoll, and with them every pending operation. */
  function StopAll(h: Handler): (g: Handler)
    ensures g.rev == h.rev
  {
    h.(dead := true, w12 := Idle(h.w12), w21 := Idle(h.w21))
  }

  /** A received chunk is transformed, and its sendAll started. */
  function Took(rev: bool, w: Way, chunk: seq<byte>): Way {
    w.(receiving := false, sending := true, buf := ShiftedAll(rev, chunk), done := 0, received := w.received + chunk)
  }

  /** End of stream or an error on the receiving side shuts the sending side down. */
  function Ended(w: Way): Way {
    w.(receiving := false, shut := true, stopped := true)
  }

  /** A sendAll reported progress and the next receive is started. `left` says whether
      part of the buffer was not sent. */
  function Resumed(w: Way, left: bool): Way {
    w.(sending := false, receiving := true, dropped := w.dropped || left)
  }

  /** read1cb and read2cb. */
  function ReadCb(h: Handler, d: bool, r: int, chunk: seq<byte>): (g: Handler)
    ensures g.rev == h.rev
  {
    if r <= 0 then
      var h1 := h.Put(d, Ended(h.At(d)));
      if h.At(!d).stopped then StopAll(h1) else h1
    else
      h.Put(d, Took(h.rev, h.At(d), chunk))
  }

  /** write1cb and write2cb. */
  function WriteCb(h: Handler, d: bool, r: int, left: bool): (g: Handler)
    ensures g.rev == h.rev
  {
    if r <= 0 then StopAll(h) else h.Put(d, Resumed(h.At(d), left))
  }

  function RecvRequest(): Request {
    Request([], BUF_SIZE)
  }

  function SendRequest(w: Way): Request {
    Rest(Request(w.buf, |w.buf|), w.done)
  }

  /** The receive that is pending makes its call. */
  function RecvNext(h: Handler, d: bool): (g: Handler)
    ensures g.rev == h.rev
  {
    var w := h.At(d);
    var a := Attempt(false, w.from, RecvRequest());
    var h1 := h.Put(d, w.(from := a.k));
    if a.again then h1 else ReadCb(h1, d, a.r, a.chunk)
  }

  /** The sendAll that is pending makes a call. */
  function SendNext(h: Handler, d: bool): (g: Handler)
    ensures g.rev == h.rev
  {
    SendCalled(h, d, Attempt(true, h.At(d).to, SendRequest(h.At(d))))
  }

  function SendCalled(h: Handler, d: bool, a: Outcome): (g: Handler)
    ensures g.rev == h.rev
  {
    SendDone(h.Put(d, Counted(h.At(d), a)), d, a, h.At(d).done)
  }

  /** The call that came back with `a` is counted. */
  function Counted(w: Way, a: Outcome): Way {
    w.(to := a.k, done := w.done + |a.chunk|)
  }

  /** What follows from a call of sendAll that found `before` bytes out already; a refused
      call after a partial transfer reports the part. */
  function SendDone(h: Handler, d: bool, a: Outcome, before: nat): (g: Handler)
    ensures g.rev == h.rev
  {
    var w := h.At(d);
    if a.again then
      h
    else if a.chunk == [] then
      WriteCb(h, d, if before == 0 then a.r else before, before < |w.buf|)
    else if w.done >= |w.buf| then
      WriteCb(h, d, w.done, false)
    else
      h
  }

  /** handleHup on the pending send: the part, if any, and then -1. */
  function SendHup(h: Handler, d: bool): (g: Handler)
    ensures g.rev == h.rev
  {
    var w := h.At(d);
    if w.done > 0 then WriteCb(WriteCb(h, d, w.done, w.done < |w.buf|), d, -1, false) else WriteCb(h, d, -1, false)
  }

  function Next(h: Handler, step: Step): (g: Handler)
    ensures g.rev == h.rev
  {
    if h.dead then
      h
    else
      match step
      case Connected(r) =>
        if h.connected then h
        else if r < 0 then StopAll(h)
        else h.(connected := true, w12 := h.w12.(receiving := true), w21 := h.w21.(receiving := true))
      case TryRecv(d) => if h.At(d).receiving then RecvNext(h, d) else h
      case TrySend(d) => if h.At(d).sending then SendNext(h, d) else h
      case HupRecv(d) => if h.At(d).receiving then ReadCb(h, d, 0, []) else h
      case HupSend(d) => if h.At(d).sending && h.At(d).to.stop == Fail then SendHup(h, d) else h
      case Happens(d, out, e) =>
        var w := h.At(d);
        if out then h.Put(d, w.(to := Raise(true, w.to, e))) else h.Put(d, w.(from := Raise(false, w.from, e)))
  }

  function Run(h: Handler, steps: seq<Step>): (g: Handler)
    ensures g.rev == h.rev
    decreases |steps|
  {
    if steps == [] then h else Run(Next(h, steps[0]), steps[1..])
  }

  /** What is received and transformed but not out yet. */
  function Unsent(w: Way): seq<byte> {
    if w.sending && w.done <= |w.buf| then w.buf[w.done..] else []
  }

  function Owners(dead: bool, w: Way): nat {
    (if w.receiving then 1 else 0) + (if w.sending then 1 else 0)
    + (if !dead && w.stopped then 1 else 0) + (if dead then 1 else 0)
  }

  /** One direction keeps its promise: what was sent, followed by what is unsent in the
      buffer, is the transformation of what was received; once a broken stream made it
      give up on part of a chunk, what was sent is a prefix of that for good. */
  predicate Faithful(rev: bool, dead: bool, w: Way) {
    && w.received == Moved(false, w.from)
    && (w.sending ==> w.done < |w.buf|)
    && (if w.dropped || dead then w.to.stream <= ShiftedAll(rev, w.received)
        else w.to.stream + Unsent(w) == ShiftedAll(rev, w.received))
    && (w.dropped ==> w.to.stop != Open)
    && (w.shut && !w.dropped ==> w.to.stream == ShiftedAll(rev, w.received))
    && (w.shut <==> w.stopped)
  }

  /** Exactly one of these holds of a connected direction: the receive owns the buffer,
      the send owns it, the direction stopped, the handler stopped. */
  predicate Owned(connected: bool, dead: bool, w: Way) {
    Owners(dead, w) == if connected || dead then 1 else 0
  }

  predicate Inv(h: Handler) {
    && Faithful(h.rev, h.dead, h.w12) && Faithful(h.rev, h.dead, h.w21)
    && Owned(h.connected, h.dead, h.w12) && Owned(h.connected, h.dead, h.w21)
    && (h.w12.stopped && h.w21.stopped ==> h.dead)
  }

  lemma ShiftedConcat(rev: bool, x: seq<byte>, y: seq<byte>)
    ensures ShiftedAll(rev, x + y) == ShiftedAll(rev, x) + ShiftedAll(rev, y)
  {
  }

  /** Whatever is unsent, what was sent is a prefix. */
  lemma SentIsPrefix(rev: bool, dead: bool, w: Way)
    requires Faithful(rev, dead, w)
    ensures w.to.stream <= ShiftedAll(rev, w.received)
  {
  }

  lemma StoppedInv(h: Handler)
    requires Faithful(h.rev, h.dead, h.w12) && Faithful(h.rev, h.dead, h.w21)
    ensures Inv(StopAll(h))
  {
    SentIsPrefix(h.rev, h.dead, h.w12);
    SentIsPrefix(h.rev, h.dead, h.w21);
  }

  /** The kernel end of the receiving side moved on. */
  lemma TookFaithful(rev: bool, w: Way, k: End, chunk: seq<byte>)
    requires Faithful(rev, false, w) && w.receiving && Owned(true, false, w) && chunk != []
    requires Moved(false, k) == Moved(false, w.from) + chunk
    ensures var w1 := Took(rev, w.(from := k), chunk);
      Faithful(rev, false, w1) && Owned(true, false, w1)
  {
    var w1 := Took(rev, w.(from := k), chunk);
    ShiftedConcat(rev, w.received, chunk);
    assert w.to.stream + [] == w.to.stream;
    assert w1.buf[0..] == w1.buf;
  }

  lemma EndedFaithful(rev: bool, w: Way, k: End)
    requires Faithful(rev, false, w) && w.receiving && Owned(true, false, w)
    requires Moved(false, k) == Moved(false, w.from)
    ensures var w1 := Ended(w.(from := k));
      Faithful(rev, false, w1) && Owned(true, false, w1)
  {
    assert w.to.stream + [] == w.to.stream;
  }

  /** A stopped stream moves nothing and stays stopped. */
  lemma StoppedStays(k: End, req: Request)
    requires k.stop != Open
    ensures var a := Attempt(true, k, req); a.chunk == [] && a.k.stop != Open
  {
    TickEvolves(true, k);
  }

  /** A direction between a call of its sendAll and what follows from it. */
  predicate Sending(rev: bool, w: Way) {
    && w.received == Moved(false, w.from)
    && w.sending && w.done <= |w.buf| && !w.shut && Owned(true, false, w)
    && (if w.dropped then w.to.stream <= ShiftedAll(rev, w.received) && w.to.stop != Open
        else w.to.stream + w.buf[w.done..] == ShiftedAll(rev, w.received))
  }

  lemma SentSending(rev: bool, w: Way, a: Outcome)
    requires Faithful(rev, false, w) && w.sending && Owned(true, false, w)
    requires Honest(true, w.to, SendRequest(w), a)
    requires w.to.stop != Open ==> a.chunk == [] && a.k.stop != Open
    ensures Sending(rev, w.(to := a.k, done := w.done + |a.chunk|))
  {
    assert a.k.stream == w.to.stream + a.chunk;
    SentSlice(w.to.stream, w.buf, w.done, a.chunk);
    assert w.to.stream + [] == w.to.stream;
  }

  lemma SentSlice(sent: seq<byte>, buf: seq<byte>, done: nat, chunk: seq<byte>)
    requires done <= |buf| && chunk <= buf[done..]
    ensures sent + chunk + buf[done + |chunk|..] == sent + buf[done..]
  {
    assert buf[done..] == chunk + buf[done + |chunk|..];
  }

  lemma StillSending(rev: bool, w: Way)
    requires Sending(rev, w) && w.done < |w.buf|
    ensures Faithful(rev, false, w)
  {
  }

  lemma ResumedFaithful(rev: bool, w: Way, left: bool)
    requires Sending(rev, w)
    requires if left then w.to.stop != Open else w.done == |w.buf|
    ensures Faithful(rev, false, Resumed(w, left)) && Owned(true, false, Resumed(w, left))
  {
    assert w.done == |w.buf| ==> w.to.stream + w.buf[w.done..] == w.to.stream;
    assert w.to.stream + [] == w.to.stream;
  }

  /** The rest of a sending direction is forgotten with the handler. */
  lemma SendingStopped(rev: bool, w: Way)
    requires Sending(rev, w)
    ensures Faithful(rev, true, Idle(w)) && Owned(true, true, Idle(w))
  {
  }

  lemma SendNextInv(h: Handler, d: bool)
    requires Inv(h) && !h.dead && h.At(d).sending
    ensures Inv(SendNext(h, d))
  {
    var w := h.At(d);
    AttemptHonest(true, w.to, SendRequest(w));
    if w.to.stop != Open {
      StoppedStays(w.to, SendRequest(w));
    }
    SendCalledInv(h, d, Attempt(true, w.to, SendRequest(w)), SendNext(h, d));
  }

  lemma SendCalledInv(h: Handler, d: bool, a: Outcome, g: Handler)
    requires Inv(h) && !h.dead && h.At(d).sending
    requires Honest(true, h.At(d).to, SendRequest(h.At(d)), a)
    requires h.At(d).to.stop != Open ==> a.chunk == [] && a.k.stop != Open
    requires g == SendCalled(h, d, a)
    ensures Inv(g)
  {
    var w := h.At(d);
    SentSending(h.rev, w, a);
    SendDoneInv(h, d, w.(to := a.k, done := w.done + |a.chunk|), a, g);
  }

  lemma SendDoneInv(h: Handler, d: bool, w: Way, a: Outcome, g: Handler)
    requires Inv(h) && !h.dead && Sending(h.rev, w) && h.At(d).sending
    requires w.done == h.At(d).done + |a.chunk| && w.buf == h.At(d).buf
    requires a.chunk == [] ==> a.r <= 0 && (!a.again ==> w.to.stop != Open)
    requires a.again ==> a.chunk == []
    requires g == SendDone(h.Put(d, w), d, a, h.At(d).done)
    ensures Inv(g)
  {
    var before := h.At(d).done;
    if a.again || (a.chunk != [] && w.done < |w.buf|) {
      if w.done < |w.buf| {
        StillSending(h.rev, w);
      }
    } else if a.chunk == [] && before == 0 {
      SendStopInv(h, d, w);
    } else {
      ResumedFaithful(h.rev, w, a.chunk == []);
    }
  }

  lemma SendStopInv(h: Handler, d: bool, w: Way)
    requires Inv(h) && !h.dead && Sending(h.rev, w)
    ensures Inv(StopAll(h.Put(d, w)))
  {
    SendingStopped(h.rev, w);
    SentIsPrefix(h.rev, false, h.At(!d));
  }

  lemma SendHupInv(h: Handler, d: bool)
    requires Inv(h) && !h.dead && h.At(d).sending && h.At(d).to.stop == Fail
    ensures Inv(SendHup(h, d))
  {
    var w := h.At(d);
    assert Sending(h.rev, w);
    if w.done > 0 {
      ResumedFaithful(h.rev, w, w.done < |w.buf|);
      StoppedInv(h.Put(d, Resumed(w, w.done < |w.buf|)));
    } else {
      StoppedInv(h);
    }
  }

  lemma ReadCbInv(h: Handler, d: bool, k: End, r: int, chunk: seq<byte>)
    requires Inv(h) && !h.dead && h.At(d).receiving
    requires Moved(false, k) == Moved(false, h.At(d).from) + chunk
    requires r > 0 <==> chunk != []
    ensures Inv(ReadCb(h.Put(d, h.At(d).(from := k)), d, r, chunk))
  {
    var w := h.At(d);
    if r > 0 {
      TookFaithful(h.rev, w, k, chunk);
    } else {
      assert Moved(false, k) == Moved(false, w.from);
      EndedFaithful(h.rev, w, k);
      StoppedInv(h.Put(d, Ended(w.(from := k))));
    }
  }

  lemma RecvNextInv(h: Handler, d: bool)
    requires Inv(h) && !h.dead && h.At(d).receiving
    ensures Inv(RecvNext(h, d))
  {
    var w := h.At(d);
    var a := Attempt(false, w.from, RecvRequest());
    AttemptHonest(false, w.from, RecvRequest());
    assert Moved(false, w.from) + [] == Moved(false, w.from);
    if !a.again {
      ReadCbInv(h, d, a.k, a.r, a.chunk);
    }
  }

  lemma HappensInv(h: Handler, d: bool, out: bool, e: Event)
    requires Inv(h)
    ensures Inv(h.Put(d, if out then h.At(d).(to := Raise(true, h.At(d).to,
        e)) else h.At(d).(from := Raise(false, h.At(d).from, e))))
  {
    RaiseEvolves(true, h.At(d).to, e);
    RaiseEvolves(false, h.At(d).from, e);
  }

  lemma ConnectedInv(h: Handler, r: int, g: Handler)
    requires Inv(h) && !h.dead && g == Next(h, Connected(r))
    ensures Inv(g)
  {
    if !h.connected && r < 0 {
      StoppedInv(h);
    }
  }

  lemma TryRecvInv(h: Handler, d: bool, g: Handler)
    requires Inv(h) && !h.dead && g == Next(h, TryRecv(d))
    ensures Inv(g)
  {
    if h.At(d).receiving {
      RecvNextInv(h, d);
    }
  }

  lemma TrySendInv(h: Handler, d: bool, g: Handler)
    requires Inv(h) && !h.dead && g == Next(h, TrySend(d))
    ensures Inv(g)
  {
    if h.At(d).sending {
      SendNextInv(h, d);
    }
  }

  lemma HupRecvInv(h: Handler, d: bool, g: Handler)
    requires Inv(h) && !h.dead && g == Next(h, HupRecv(d))
    ensures Inv(g)
  {
    if h.At(d).receiving {
      assert Moved(false, h.At(d).from) + [] == Moved(false, h.At(d).from);
      ReadCbInv(h, d, h.At(d).from, 0, []);
    }
  }

  lemma HupSendInv(h: Handler, d: bool, g: Handler)
    requires Inv(h) && !h.dead && g == Next(h, HupSend(d))
    ensures Inv(g)
  {
    if h.At(d).sending && h.At(d).to.stop == Fail {
      SendHupInv(h, d);
    }
  }

  lemma NextInv(h: Handler, step: Step)
    requires Inv(h)
    ensures Inv(Next(h, step))
  {
    if !h.dead {
      StepInv(h, step, Next(h, step));
    }
  }

  lemma StepInv(h: Handler, step: Step, g: Handler)
    requires Inv(h) && !h.dead && g == Next(h, step)
    ensures Inv(g)
  {
    match step
    case Connected(r) => ConnectedInv(h, r, g);
    case TryRecv(d) => TryRecvInv(h, d, g);
    case TrySend(d) => TrySendInv(h, d, g);
    case HupRecv(d) => HupRecvInv(h, d, g);
    case HupSend(d) => HupSendInv(h, d, g);
    case Happens(d, out, e) => HappensInv(h, d, out, e);
  }

  lemma {:induction false} RunInv(h: Handler, steps: seq<Step>)
    requires Inv(h)
    ensures Inv(Run(h, steps))
    decreases |steps|
  {
    if steps != [] {
      NextInv(h, steps[0]);
      RunInv(Next(h, steps[0]), steps[1..]);
    }
  }

  /** A handler before its connection is made. */
  predicate Fresh(w: Way) {
    && !w.receiving && !w.sending && !w.stopped && !w.shut && !w.dropped
    && w.received == [] == Moved(false, w.from) && w.to.stream == []
  }

  predicate Initial(h: Handler) {
    Fresh(h.w12) && Fresh(h.w21) && !h.connected && !h.dead
  }

  /** What the transformation makes of each byte: it adds 69, or subtracts it, modulo 256. */
  lemma InNumbers(rev: bool, s: seq<byte>, k: nat)
    requires k < |s|
    ensures ShiftedAll(rev, s)[k] as int == (s[k] as int + if rev then 187 else 69) % 256
  {
    var b := s[k] as int;
    assert (b - 69 + 256) % 256 == (b - 69) % 256;
  }

  /** End to end: at every moment, what one socket was sent is a prefix of the
      transformation of what the other one delivered, byte by byte; and while the handler
      runs and the outgoing stream has not stopped, the rest is exactly the unsent part of
      the buffer. */
  lemma EndToEnd(h: Handler, steps: seq<Step>, d: bool)
    requires Initial(h)
    ensures var g := Run(h, steps);
      var w := g.At(d);
      && w.to.stream <= ShiftedAll(g.rev, Moved(false, w.from))
      && (!g.dead && w.to.stop == Open ==> w.to.stream + Unsent(w) == ShiftedAll(g.rev, Moved(false, w.from)))
    ensures var w := Run(h, steps).At(d);
      forall k :: 0 <= k < |w.to.stream| ==>
        k < |w.from.stream|
        && w.to.stream[k] as int == (w.from.stream[k] as int + if h.rev then 187 else 69) % 256
  {
    PrefixAndRest(h, steps, d);
    SentInNumbers(h.rev, Run(h, steps).At(d));
  }

  lemma PrefixAndRest(h: Handler, steps: seq<Step>, d: bool)
    requires Initial(h)
    ensures var g := Run(h, steps);
      var w := g.At(d);
      && w.to.stream <= ShiftedAll(g.rev, Moved(false, w.from))
      && (!g.dead && w.to.stop == Open ==> w.to.stream + Unsent(w) == ShiftedAll(g.rev, Moved(false, w.from)))
  {
    assert ShiftedAll(h.rev, []) == [];
    RunInv(h, steps);
    SentIsPrefix(Run(h, steps).rev, Run(h, steps).dead, Run(h, steps).At(d));
  }

  lemma SentInNumbers(rev: bool, w: Way)
    requires w.to.stream <= ShiftedAll(rev, Moved(false, w.from))
    ensures forall k :: 0 <= k < |w.to.stream| ==>
              k < |w.from.stream|
              && w.to.stream[k] as int == (w.from.stream[k] as int + if rev then 187 else 69) % 256
  {
    var moved := Moved(false, w.from);
    forall k | 0 <= k < |w.to.stream|
      ensures k < |w.from.stream| &&
              w.to.stream[k] as int == (w.from.stream[k] as int + if rev then 187 else 69) % 256
    {
      InNumbers(rev, moved, k);
      assert moved[k] == w.from.stream[k];
    }
  }

  /** Part of what was received will never be sent, and the relay goes on receiving. */
  predicate Loses(w: Way) {
    w.receiving && !w.sending && |w.to.stream| < |w.received|
  }

  /** The relay takes a sendAll that failed half way for a complete one, exactly when part
      of the buffer is out and the stream has stopped by the time of the next call. */
  lemma DropExactly(h: Handler, d: bool)
    requires Inv(h) && !h.dead && h.At(d).sending
    ensures var w := SendNext(h, d).At(d);
      && (w.dropped <==> h.At(d).dropped || (h.At(d).done > 0 && Tick(true, h.At(d).to).stop != Open))
      && (w.dropped && !h.At(d).dropped ==> Loses(w))
  {
    var w := h.At(d);
    AttemptHonest(true, w.to, SendRequest(w));
    DropCalled(h, d, Attempt(true, w.to, SendRequest(w)), SendNext(h, d));
  }

  lemma DropCalled(h: Handler, d: bool, a: Outcome, g: Handler)
    requires Inv(h) && !h.dead && h.At(d).sending
    requires Honest(true, h.At(d).to, SendRequest(h.At(d)), a) && g == SendCalled(h, d, a)
    ensures var w := g.At(d);
      && (w.dropped <==> h.At(d).dropped || (h.At(d).done > 0 && a.chunk == [] && !a.again))
      && (w.dropped && !h.At(d).dropped ==> Loses(w))
  {
    var w := h.At(d);
    assert !w.dropped ==> |w.to.stream| + |w.buf[w.done..]| == |w.received|;
  }

  /** handleHup does the same: the count of the part makes the relay go on, and only the -1
      that follows stops it. */
  lemma HupDropExactly(h: Handler, d: bool)
    requires Inv(h) && !h.dead && h.At(d).sending && h.At(d).to.stop == Fail
    ensures SendHup(h, d).At(d).dropped <==> h.At(d).dropped || h.At(d).done > 0
    ensures SendHup(h, d).dead
  {
  }

  const EMPTY_END: End := End([], 0, 0, Open, false, false, false, [], 0)

  const IDLE_WAY := Way(false, false, [], 0, false, false, false, [], EMPTY_END, EMPTY_END)

  /** Two bytes arrive, one goes out, and the outgoing stream breaks. */
  const LOSING := [
    Connected(0),
    Happens(false, false, Arrive([1, 2])),
    Happens(false, true, Free(1)),
    TryRecv(false),
    TrySend(false),
    Happens(false, true, Break),
    TrySend(false)]

  const NEW_HANDLER := Handler(IDLE_WAY, IDLE_WAY, false, false, false)

  /** After that run the second byte is lost, and the relay receives as if nothing were. */
  lemma DropReached()
    ensures Initial(NEW_HANDLER)
    ensures var g := Run(NEW_HANDLER, LOSING); !g.dead && Loses(g.w12)
  {
    assert ShiftedAll(false, []) == [];
    var h1 := Next(NEW_HANDLER, LOSING[0]);
    NextInv(NEW_HANDLER, LOSING[0]);
    RunOne(NEW_HANDLER, LOSING);
    LosesWhenConnected(h1);
  }

  lemma LosesWhenConnected(h: Handler)
    requires Inv(h) && !h.dead && !h.rev && h.w12.receiving && !h.w12.dropped
    requires h.w12.from == EMPTY_END && h.w12.to == EMPTY_END
    ensures var g := Run(h, LOSING[1..]); !g.dead && Loses(g.w12)
  {
    var h2 := Next(h, LOSING[1]);
    var h3 := Next(h2, LOSING[2]);
    NextInv(h, LOSING[1]);
    NextInv(h2, LOSING[2]);
    RunOne(h, LOSING[1..]);
    RunOne(h2, LOSING[2..]);
    LosesFrom(h3);
  }

  lemma LosesFrom(h: Handler)
    requires Inv(h) && !h.dead && !h.rev && h.w12.receiving && !h.w12.dropped
    requires h.w12.from == EMPTY_END.(stream := [1, 2]) && h.w12.to == EMPTY_END.(space := 1)
    ensures var g := Run(h, LOSING[3..]); !g.dead && Loses(g.w12)
  {
    var h4 := Next(h, TryRecv(false));
    TakesTwo(h, h4);
    NextInv(h, TryRecv(false));
    RunOne(h, LOSING[3..]);
    LosesSending(h4);
  }

  lemma LosesSending(h: Handler)
    requires Inv(h) && !h.dead && h.w12.sending && !h.w12.dropped && h.w12.to == EMPTY_END.(space := 1)
    requires h.w12.done == 0 && |h.w12.buf| == 2
    ensures var g := Run(h, LOSING[4..]); !g.dead && Loses(g.w12)
  {
    var h5 := Next(h, TrySend(false));
    SendsOne(h, h5);
    NextInv(h, TrySend(false));
    RunOne(h, LOSING[4..]);
    BreakLoses(h5);
  }

  lemma BreakLoses(h: Handler)
    requires Inv(h) && !h.dead && h.w12.sending && !h.w12.dropped && h.w12.done > 0 && h.w12.to.env == []
    ensures var g := Run(h, LOSING[5..]); !g.dead && Loses(g.w12)
  {
    var h6 := Next(h, Happens(false, true, Break));
    NextInv(h, Happens(false, true, Break));
    SendRefused(h6, Next(h6, TrySend(false)));
    assert LOSING[5..] == [Happens(false, true, Break), TrySend(false)];
    RunOne(h, LOSING[5..]);
    RunOne(h6, LOSING[6..]);
    assert LOSING[7..] == [];
  }

  lemma RunOne(h: Handler, steps: seq<Step>)
    requires steps != []
    ensures Run(h, steps) == Run(Next(h, steps[0]), steps[1..])
  {
  }

  lemma TakesTwo(h: Handler, g: Handler)
    requires !h.dead && !h.rev && h.w12.receiving && !h.w12.dropped
    requires h.w12.from == EMPTY_END.(stream := [1, 2]) && h.w12.to == EMPTY_END.(space := 1)
    requires g == Next(h, TryRecv(false))
    ensures !g.dead && !g.rev && g.w12.sending && !g.w12.dropped && g.w12.to == h.w12.to
    ensures g.w12.done == 0 && |g.w12.buf| == 2
  {
    var a := Attempt(false, h.w12.from, RecvRequest());
    assert a.chunk == [1, 2] && !a.again;
  }

  lemma SendsOne(h: Handler, g: Handler)
    requires !h.dead && h.w12.sending && !h.w12.dropped && h.w12.to == EMPTY_END.(space := 1)
    requires h.w12.done == 0 && |h.w12.buf| == 2
    requires g == Next(h, TrySend(false))
    ensures !g.dead && g.w12.sending && !g.w12.dropped && g.w12.done == 1 && g.w12.to.env == []
  {
    var a := Attempt(true, h.w12.to, SendRequest(h.w12));
    assert |a.chunk| == 1 && !a.again;
  }

  lemma SendRefused(h: Handler, g: Handler)
    requires Inv(h) && !h.dead && h.w12.sending && !h.w12.dropped && h.w12.done > 0
    requires h.w12.to.stop != Open && h.w12.to.env == [] && g == Next(h, TrySend(false))
    ensures !g.dead && Loses(g.w12)
  {
    DropExactly(h, false);
  }

  /** The buffer of a connected direction has exactly one owner, and the outgoing socket
      is shut down only when everything received is out (or its stream broke). */
  lemma OwnershipAndShutdown(h: Handler, steps: seq<Step>, d: bool)
    requires Initial(h)
    ensures var g := Run(h, steps);
      var w := g.At(d);
      && (g.connected || g.dead ==> Owners(g.dead, w) == 1)
      && (w.shut ==> !w.sending && (w.to.stream == ShiftedAll(g.rev, w.received) || w.to.stop != Open))
  {
    assert ShiftedAll(h.rev, []) == [];
    RunInv(h, steps);
  }

  /** In every run, a direction that came to its end has shut the outgoing socket down, and
      when both have, the handler has stopped. */
  lemma ClosesDown(h: Handler, steps: seq<Step>)
    requires Initial(h)
    ensures var g := Run(h, steps);
      && (g.w12.stopped ==> g.w12.shut)
      && (g.w21.stopped ==> g.w21.shut)
      && (g.w12.stopped && g.w21.stopped ==> g.dead)
  {
    assert ShiftedAll(h.rev, []) == [];
    RunInv(h, steps);
  }

  /** No more can be received. */
  predicate AtEnd(k: End) {
    k.stop != Open && Avail(false, k) == 0
  }

  /** A pending receive ends its direction exactly when its stream has stopped with nothing
      left by the time of its call, and a hang-up does at once. */
  lemma EndOfStream(h: Handler, d: bool)
    requires !h.dead && h.At(d).receiving && !h.At(d).stopped
    ensures Next(h, TryRecv(d)).At(d).stopped <==> AtEnd(Tick(false, h.At(d).from))
    ensures Next(h, HupRecv(d)).At(d).stopped
  {
    EndSeen(h, d, Attempt(false, h.At(d).from, RecvRequest()), Next(h, TryRecv(d)));
  }

  lemma EndSeen(h: Handler, d: bool, a: Outcome, g: Handler)
    requires !h.dead && h.At(d).receiving && !h.At(d).stopped
    requires a == Attempt(false, h.At(d).from, RecvRequest()) && g == Next(h, TryRecv(d))
    ensures g.At(d).stopped <==> AtEnd(Tick(false, h.At(d).from))
  {
    AttemptHonest(false, h.At(d).from, RecvRequest());
  }

  /** Direction `w` has taken as much as there was in `k`, up to 4096 bytes, and sends it,
      each byte plus or minus 69. */
  predicate Took4096(rev: bool, before: Way, k: End, w: Way) {
    var n := Min(4096, Avail(false, k));
    && !w.receiving && w.sending && w.done == 0
    && w.received == before.received + k.stream[k.pos..k.pos + n]
    && |w.buf| == n
    && forall i :: 0 <= i < n ==> w.buf[i] as int == (k.stream[k.pos + i] as int + if rev then 187 else 69) % 256
  }

  /** What a pending receive with data available does. */
  lemma Receives(h: Handler, d: bool)
    requires !h.dead && h.At(d).receiving && Avail(false, Tick(false, h.At(d).from)) > 0
    ensures Took4096(h.rev, h.At(d), Tick(false, h.At(d).from), Next(h, TryRecv(d)).At(d))
  {
    var k := Tick(false, h.At(d).from);
    var chunk := k.stream[k.pos..k.pos + Min(4096, Avail(false, k))];
    var g := Next(h, TryRecv(d));
    Taken(h, d, k, chunk, g);
    TakenInNumbers(h.rev, h.At(d), k, chunk, g.At(d));
  }

  lemma TakenInNumbers(rev: bool, before: Way, k: End, chunk: seq<byte>, w: Way)
    requires chunk == k.stream[k.pos..k.pos + Min(4096, Avail(false, k))]
    requires !w.receiving && w.sending && w.done == 0
    requires w.received == before.received + chunk && w.buf == ShiftedAll(rev, chunk)
    ensures Took4096(rev, before, k, w)
  {
    SliceInNumbers(rev, k.stream, k.pos, Min(4096, Avail(false, k)), w.buf);
  }

  lemma SliceInNumbers(rev: bool, stream: seq<byte>, pos: nat, n: nat, buf: seq<byte>)
    requires pos + n <= |stream| && buf == ShiftedAll(rev, stream[pos..pos + n])
    ensures |buf| == n
    ensures forall i :: 0 <= i < n ==> buf[i] as int == (stream[pos + i] as int + if rev then 187 else 69) % 256
  {
    forall i | 0 <= i < n ensures buf[i] as int == (stream[pos + i] as int + if rev then 187 else 69) % 256 {
      InNumbers(rev, stream[pos..pos + n], i);
    }
  }

  lemma Taken(h: Handler, d: bool, k: End, chunk: seq<byte>, g: Handler)
    requires !h.dead && h.At(d).receiving && k == Tick(false, h.At(d).from) && Avail(false, k) > 0
    requires chunk == k.stream[k.pos..k.pos + Min(4096, Avail(false, k))] && g == Next(h, TryRecv(d))
    ensures var w := g.At(d);
      && !w.receiving && w.sending && w.done == 0
      && w.received == h.At(d).received + chunk && w.buf == ShiftedAll(h.rev, chunk)
  {
    var a := Attempt(false, h.At(d).from, RecvRequest());
    assert a.chunk == chunk && a.r > 0 && !a.again;
  }

  /** A sendAll that gets everything out makes its direction receive again; one that fails
      with nothing out stops the handler, and so does a hang-up. */
  lemma SendEnds(h: Handler, d: bool)
    requires !h.dead && h.At(d).sending && h.At(d).done < |h.At(d).buf|
    ensures var w, k := h.At(d), Tick(true, h.At(d).to);
      var g := Next(h, TrySend(d));
      && (Avail(true, k) >= |w.buf| - w.done ==> !g.dead && g.At(d).receiving && !g.At(d).sending)
      && (k.stop != Open && w.done == 0 ==> g.dead)
    ensures h.At(d).to.stop == Fail ==> Next(h, HupSend(d)).dead
  {
    AttemptHonest(true, h.At(d).to, SendRequest(h.At(d)));
  }

  /** Once connected both directions receive; a failed connect stops the handler. */
  lemma Connects(h: Handler, r: int)
    requires !h.dead && !h.connected
    ensures var g := Next(h, Connected(r));
      if r < 0 then g.dead else !g.dead && g.connected && g.w12.receiving && g.w21.receiving
  {
  }

  /** A non-`r` and an `r` proxy in series: the second one undoes the first. */
  lemma Series(a: Handler, stepsA: seq<Step>, b: Handler, stepsB: seq<Step>, d: bool)
    requires Initial(a) && Initial(b) && a.rev != b.rev
    requires Moved(false, Run(b, stepsB).At(d).from) <= Run(a, stepsA).At(d).to.stream
    ensures Run(b, stepsB).At(d).to.stream <= Moved(false, Run(a, stepsA).At(d).from)
  {
    EndToEnd(a, stepsA, d);
    EndToEnd(b, stepsB, d);
    var original := Moved(false, Run(a, stepsA).At(d).from);
    var between := Moved(false, Run(b, stepsB).At(d).from);
    ShiftedPrefix(b.rev, between, ShiftedAll(a.rev, original));
    ShiftedBack(a.rev, original);
  }

  lemma ShiftedPrefix(rev: bool, x: seq<byte>, y: seq<byte>)
    requires x <= y
    ensures ShiftedAll(rev, x) <= ShiftedAll(rev, y)
  {
  }

  lemma ShiftedBack(rev: bool, s: seq<byte>)
    ensures ShiftedAll(!rev, ShiftedAll(rev, s)) == s
  {
  }

  /** The proxy's `handler`: buffers transformed in place, flags and histories updated by
      the callbacks. */
  class Proxy {
    const buf1: array<byte>
    const buf2: array<byte>
    const rev: bool
    var w12: Way
    var w21: Way
    var connected: bool
    var dead: bool

    ghost predicate Valid()
      reads this, buf1, buf2
    {
      && buf1.Length == BUF_SIZE && buf2.Length == BUF_SIZE && buf1 != buf2
      && (w12.sending ==> w12.buf <= buf1[..])
      && (w21.sending ==> w21.buf <= buf2[..])
    }

    ghost function Snapshot(): Handler
      reads this
    {
      Handler(w12, w21, rev, connected, dead)
    }

    constructor (rev: bool, w12: Way, w21: Way)
      requires !w12.sending && !w21.sending
      ensures Valid() && fresh(buf1) && fresh(buf2) && Snapshot() == Handler(w12, w21, rev, false, false)
    {
      buf1, buf2 := new byte[BUF_SIZE](_ => 0), new byte[BUF_SIZE](_ => 0);
      this.rev, this.w12, this.w21 := rev, w12, w21;
      connected, dead := false, false;
    }

    function Buffer(d: bool): array<byte> {
      if d then buf2 else buf1
    }

    /** transform: the first `len` bytes, in place. */
    static method Transform(rev: bool, buf: array<byte>, len: nat)
      requires len <= buf.Length
      modifies buf
      ensures buf[..] == ShiftedAll(rev, old(buf[..len])) + old(buf[len..])
      ensures forall i :: 0 <= i < len ==> buf[i] as int == (old(buf[i]) as int + if rev then 187 else 69) % 256
    {
      var i := 0;
      while i < len
        invariant 0 <= i <= len
        invariant forall j :: 0 <= j < i ==> buf[j] == Shifted(rev, old(buf[j]))
        invariant forall j :: i <= j < buf.Length ==> buf[j] == old(buf[j])
      {
        buf[i] := Shifted(rev, buf[i]);
        i := i + 1;
      }
      forall j | 0 <= j < len ensures buf[j] as int == (old(buf[j]) as int + if rev then 187 else 69) % 256 {
        InNumbers(rev, old(buf[..len]), j);
      }
    }

    /** The kernel's copy of the received bytes into the buffer. */
    static method Fill(buf: array<byte>, chunk: seq<byte>)
      requires |chunk| <= buf.Length
      modifies buf
      ensures buf[..|chunk|] == chunk
    {
      var i := 0;
      while i < |chunk|
        invariant 0 <= i <= |chunk|
        invariant buf[..i] == chunk[..i]
      {
        buf[i] := chunk[i];
        i := i + 1;
      }
    }

    method StopBoth()
      requires Valid()
      modifies this
      ensures Valid() && Snapshot() == StopAll(old(Snapshot()))
    {
      dead, w12, w21 := true, Idle(w12), Idle(w21);
    }

    method Store(d: bool, w: Way)
      requires Valid() && (w.sending ==> w.buf <= Buffer(d)[..])
      modifies this
      ensures Valid() && Snapshot() == old(Snapshot()).Put(d, w)
    {
      if d {
        w21 := w;
      } else {
        w12 := w;
      }
    }

    /** read1cb and read2cb, with the chunk in the buffer. */
    method ReadCallback(d: bool, r: int, len: nat)
      requires Valid() && !(if d then w21 else w12).sending
      requires len <= BUF_SIZE && (r > 0 ==> r == len)
      modifies this, Buffer(d)
      ensures Valid() && Snapshot() == ReadCb(old(Snapshot()), d, r, old(Buffer(d)[..len]))
    {
      var w := if d then w21 else w12;
      if r <= 0 {
        Store(d, Ended(w));
        if (if d then w12 else w21).stopped {
          StopBoth();
        }
      } else {
        var chunk := Buffer(d)[..len];
        Transform(rev, Buffer(d), len);
        assert Buffer(d)[..len] == ShiftedAll(rev, chunk);
        Store(d, w.(receiving := false, sending := true, buf := Buffer(d)[..len], done := 0,
            received := w.received + chunk));
      }
    }

    /** write1cb and write2cb. */
    method WriteCallback(d: bool, r: int, left: bool)
      requires Valid()
      modifies this
      ensures Valid() && Snapshot() == WriteCb(old(Snapshot()), d, r, left)
    {
      if r <= 0 {
        StopBoth();
      } else {
        Store(d, Resumed(if d then w21 else w12, left));
      }
    }

    /** The pending receive makes its call. */
    method TryRecv(d: bool)
      requires Valid() && !dead && (if d then w21 else w12).receiving && !(if d then w21 else w12).sending
      modifies this, Buffer(d)
      ensures Valid() && Snapshot() == Next(old(Snapshot()), Step.TryRecv(d))
    {
      var w := if d then w21 else w12;
      var a := Attempt(false, w.from, RecvRequest());
      AttemptHonest(false, w.from, RecvRequest());
      Store(d, w.(from := a.k));
      if !a.again {
        Fill(Buffer(d), a.chunk);
        ReadCallback(d, a.r, |a.chunk|);
      }
    }

    /** The pending sendAll makes a call, from the buffer. */
    method TrySend(d: bool)
      requires Valid() && !dead && (if d then w21 else w12).sending
      requires (if d then w21 else w12).done < |(if d then w21 else w12).buf|
      modifies this
      ensures Valid() && Snapshot() == Next(old(Snapshot()), Step.TrySend(d))
    {
      var w := if d then w21 else w12;
      var len := |w.buf|;
      var req := Request(Buffer(d)[w.done..len], len - w.done);
      assert req == SendRequest(w);
      var a := Attempt(true, w.to, req);
      SendCall(d, a);
    }

    method SendCall(d: bool, a: Outcome)
      requires Valid()
      modifies this
      ensures Valid() && Snapshot() == SendCalled(old(Snapshot()), d, a)
    {
      var w := if d then w21 else w12;
      Store(d, Counted(w, a));
      SendOver(d, a, w.done);
    }

    method SendOver(d: bool, a: Outcome, before: nat)
      requires Valid()
      modifies this
      ensures Valid() && Snapshot() == SendDone(old(Snapshot()), d, a, before)
    {
      var w := if d then w21 else w12;
      if a.again {
      } else if a.chunk == [] {
        WriteCallback(d, if before == 0 then a.r else before, before < |w.buf|);
      } else if w.done >= |w.buf| {
        WriteCallback(d, w.done, false);
      }
    }
  }
}
