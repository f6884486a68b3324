/** What a batch does for the operation in a slot: progress, completion on hang-up, the
    number of calls a draining loop makes, and when control reaches assert(false). */
module EngineService {
  import opened Kernel
  import opened Rounds
  import opened Engine
  import opened EngineWakeups
  import opened EngineHistory
  import opened EngineRecords

  /** What the slot's operation still asks for. */
  function SlotRequest(op: OperationInfo): Request {
    if IsAll(op.job.operation) then Rest(op.job.req, |op.done|) else op.job.req
  }

  /** The call doOperation makes first for the operation in the slot. */
  function SlotAttempt(w: bool, side: Side): Outcome {
    Attempt(w, side.k, SlotRequest(side.op))
  }

  function Total(w: bool, side: Side): nat {
    |Moved(w, side.k)|
  }

  /** doOperation moves data for a pending operation whenever its first call can. */
  lemma Progress(s: State, w: bool, hup: bool)
    requires Busy(s.At(w)) && s.At(w).op.job.operation != Wait
    requires SlotAttempt(w, s.At(w)).chunk != []
    ensures Total(w, DoOperation(s, w, hup).At(w)) > Total(w, s.At(w))
  {
    var s1 := s.Put(w, Skip(s.At(w), false));
    Kinds(s.At(w).op.job.operation);
    if IsPlain(s.At(w).op.job.operation) {
      PlainProgress(s1, w, hup, PlainOperation(s1, w, hup));
    } else {
      AllProgress(s1, w, hup, AllOperation(s1, w, hup));
    }
  }

  /** A plain operation makes its call, and the rest follows from the outcome. */
  lemma PlainCalls(s: State, w: bool, hup: bool, a: Outcome, t: State)
    requires IsPlain(s.At(w).op.job.operation) && s.At(w).op.job.operation != Wait
    requires a == Attempt(w, s.At(w).k, s.At(w).op.job.req) && t == PlainOperation(s, w, hup)
    ensures t == PlainAttempted(s.Put(w, s.At(w).(k := a.k)), w, hup, a)
  {
  }

  lemma PlainProgress(s: State, w: bool, hup: bool, t: State)
    requires t == PlainOperation(s, w, hup)
    requires SkipCalm(w, s.At(w)) && IsPlain(s.At(w).op.job.operation) && s.At(w).op.job.operation != Wait
    requires SlotAttempt(w, s.At(w)).chunk != []
    ensures Total(w, t.At(w)) > Total(w, s.At(w))
  {
    var side := s.At(w);
    var a := SlotAttempt(w, side);
    Kinds(side.op.job.operation);
    AttemptHonest(w, side.k, side.op.job.req);
    PlainCalls(s, w, hup, a, t);
    PlainMoved(s, s.Put(w, side.(k := a.k)), w, hup, a, t);
  }

  lemma PlainMoved(s: State, s1: State, w: bool, hup: bool, a: Outcome, t: State)
    requires SkipCalm(w, s1.At(w)) && IsPlain(s1.At(w).op.job.operation) && s1.At(w).op.job.operation != Wait
    requires |a.chunk| < Want(w, s1.At(w).op.job.req) ==> Served(w, s1.At(w).k)
    requires a.chunk != [] && !a.again && Moved(w, s1.At(w).k) == Moved(w, s.At(w).k) + a.chunk
    requires t == PlainAttempted(s1, w, hup, a)
    ensures Total(w, t.At(w)) > Total(w, s.At(w))
  {
    PlainAttemptedKept(s1, w, hup, a);
  }

  lemma AllProgress(s: State, w: bool, hup: bool, t: State)
    requires t == AllOperation(s, w, hup)
    requires SkipCalm(w, s.At(w)) && IsAll(s.At(w).op.job.operation)
    requires SlotAttempt(w, s.At(w)).chunk != []
    ensures Total(w, t.At(w)) > Total(w, s.At(w))
  {
    var side := s.At(w);
    var a := SlotAttempt(w, side);
    AttemptHonest(w, side.k, SlotRequest(side.op));
    AllAttemptedKept(s.Put(w, side.(k := a.k)), w, hup, a);
  }

  lemma ReadCallMoves(k: End, req: Request)
    requires Avail(false, k) > 0 && req.len > 0
    ensures Attempt(false, k, req).chunk != []
  {
    TickEvolves(false, k);
  }

  /** A pending read with data available is served by the next batch: the edge is there
      to be collected, the batch entry says EPOLLIN, and the dispatch moves bytes. */
  lemma NextBatchServes(s: State, extra: Mask)
    requires Quiet(s) && !s.aborted && !s.noted && s.rd.k.armed
    requires Busy(s.rd) && s.rd.op.job.operation != Wait
    requires Avail(false, s.rd.k) > 0 && SlotRequest(s.rd.op).len > 0
    ensures var t := Next(Next(s, Collect(extra)), Deliver);
      Total(false, t.rd) > Total(false, s.rd)
  {
    var c := Next(s, Collect(extra));
    assert s.rd.k.edge && c.events.pollin && c.noted;
    ReadServed(c, DispatchRead(c));
    WriteKeepsRead(DispatchRead(c));
  }

  lemma ReadServed(s: State, t: State)
    requires Busy(s.rd) && s.rd.op.job.operation != Wait && s.events.pollin && t == DispatchRead(s)
    requires Avail(false, s.rd.k) > 0 && SlotRequest(s.rd.op).len > 0
    ensures Total(false, t.rd) > Total(false, s.rd)
  {
    var u := Undue(s, false);
    ReadCallMoves(u.rd.k, SlotRequest(u.rd.op));
    Progress(u, false, s.events.err || s.events.hup);
  }

  lemma WriteKeepsRead(s: State)
    ensures Total(false, DispatchWrite(s).rd) >= Total(false, s.rd)
  {
    if s.events.pollout {
      DoOperationKept(Undue(s, true), true, s.events.err);
      BothKept(Undue(s, true), DispatchWrite(s));
    } else {
      HandleHupKept(s, true);
      BothKept(s, HandleHup(s, true));
    }
  }

  /** The same of a pending write, when no callback of a pending read can interfere and the
      stream does not break before the call. */
  lemma NextBatchServesWrite(s: State, extra: Mask)
    requires Quiet(s) && !s.aborted && !s.noted && s.rd.k.armed && s.wr.k.armed
    requires Busy(s.wr) && s.wr.op.job.operation != Wait && (!Busy(s.rd) || s.script == [])
    requires Tick(true, s.wr.k).stop == Open
    requires Avail(true, s.wr.k) > 0 && SlotRequest(s.wr.op).data != []
    ensures var t := Next(Next(s, Collect(extra)), Deliver);
      Total(true, t.wr) > Total(true, s.wr)
  {
    var c := Next(s, Collect(extra));
    assert s.wr.k.edge && c.events.pollout && c.noted;
    ReadAside(c);
    var u := Undue(DispatchRead(c), true);
    assert u.wr.op == s.wr.op && u.wr.k == s.wr.k.(edge := u.wr.k.edge, due := u.wr.k.due);
    WriteCallMoves(s.wr.k, u.wr.k, SlotRequest(u.wr.op));
    Progress(u, true, c.events.err);
  }

  /** A call on an open stream with room moves bytes, whatever happens right before it. */
  lemma WriteCallMoves(k: End, k': End, req: Request)
    requires k' == k.(edge := k'.edge, due := k'.due)
    requires Tick(true, k).stop == Open && Avail(true, k) > 0 && req.data != []
    ensures Attempt(true, k', req).chunk != []
  {
    if k.env != [] {
      EdgesAside(true, k.(env := k.env[1..]), k'.(env := k.env[1..]), k.env[0]);
      OpenGrows(k.(env := k.env[1..]), k.env[0]);
    }
  }

  /** Without a pending read, or with callbacks that do nothing, the read side's half of a
      dispatch touches the read side only. */
  lemma ReadAside(s: State)
    requires (!Busy(s.rd) || s.script == []) && !s.aborted
    ensures Aside(s, false, DispatchRead(s))
  {
    var u := Undue(s, false);
    if s.events.pollin {
      OperationAside(u, false, s.events.err || s.events.hup, DispatchRead(s));
    } else if s.script == [] {
      HupAside(s, false, HandleHup(s, false));
    }
  }

  /** Only side `w` has changed. */
  predicate Aside(s: State, w: bool, t: State) {
    t == s.Put(w, t.At(w))
  }

  lemma OperationAside(s: State, w: bool, hup: bool, t: State)
    requires (!Busy(s.At(w)) || s.script == []) && t == DoOperation(s, w, hup)
    ensures Aside(s, w, t)
  {
    var s1 := s.Put(w, Skip(s.At(w), false));
    Kinds(s.At(w).op.job.operation);
    if IsPlain(s.At(w).op.job.operation) {
      PlainAside(s1, w, hup, t);
    } else if IsAll(s.At(w).op.job.operation) {
      AllAside(s1, w, hup, t);
    } else {
      assert t == AllOperation(s1, w, hup) == s1;
    }
  }

  lemma AllAside(s: State, w: bool, hup: bool, t: State)
    requires IsAll(s.At(w).op.job.operation) && s.script == [] && t == AllOperation(s, w, hup)
    ensures Aside(s, w, t)
  {
    var a := SlotAttempt(w, s.At(w));
    AllCalls(s, w, hup, a, t);
    AttemptedAside(s.Put(w, s.At(w).(k := a.k)), w, hup, a, t);
  }

  lemma AttemptedAside(s: State, w: bool, hup: bool, a: Outcome, t: State)
    requires s.script == [] && t == AllAttempted(s, w, hup, a)
    ensures Aside(s, w, t)
  {
  }

  lemma {:induction false} PlainAside(s: State, w: bool, hup: bool, t: State)
    requires s.script == [] && IsPlain(s.At(w).op.job.operation) && t == PlainOperation(s, w, hup)
    ensures Aside(s, w, t)
    decreases |s.At(w).k.env|, Avail(w, s.At(w).k), 1
  {
    var side := s.At(w);
    if side.op.job.operation != Wait {
      var a := Attempt(w, side.k, side.op.job.req);
      AttemptProgress(w, side.k, side.op.job.req);
      PlainCalls(s, w, hup, a, t);
      if a.chunk != [] && !a.again {
        DeliveredAside(s.Put(w, side.(k := a.k)), w, hup, a.chunk, t);
      }
    }
  }

  lemma {:induction false} DeliveredAside(s: State, w: bool, hup: bool, chunk: seq<byte>, t: State)
    requires s.script == [] && IsPlain(s.At(w).op.job.operation) && t == Delivered(s, w, hup, chunk)
    ensures Aside(s, w, t)
    decreases |s.At(w).k.env|, Avail(w, s.At(w).k), 2
  {
    var op := s.At(w).op;
    if op.job.repeat {
      var s1 := s.Put(w, Log(s.At(w), Called(op.job, |chunk|, chunk, false, hup)));
      assert t == AfterChunk(s1, w, hup, op.job.operation, |chunk| < Want(w, op.job.req));
      if !hup && |chunk| >= Want(w, op.job.req) {
        PlainAside(s1, w, hup, t);
      }
    }
  }

  lemma HupAside(s: State, w: bool, t: State)
    requires s.script == [] && t == HandleHup(s, w)
    ensures Aside(s, w, t)
  {
    var r := if w then -1 else 0;
    if Busy(s.At(w)) {
      HupSteps(s, w, r, t);
      SecondAside(AfterFirst(s, w, r), w, r, t);
    }
  }

  lemma SecondAside(s: State, w: bool, r: int, t: State)
    requires s.script == [] && t == HupAll(s, w, r)
    ensures Aside(s, w, t)
  {
  }

  /** The operation that was in slot `w` of `s` has ended by `t`. */
  predicate Over(s: State, t: State, w: bool) {
    EndsOf(t.At(w).log, s.At(w).op.job.id) > EndsOf(s.At(w).log, s.At(w).op.job.id)
  }

  lemma NotifyEnds(s: State, w: bool, e: Entry, id: nat)
    ensures EndsOf(Notify(s, w, e).At(w).log, id) >= EndsOf(s.At(w).log, id) + if EndedBy(e, id) then 1 else 0
  {
    AppendedEnds(s.At(w).log, e, id);
    NotifyAfter(s, w, e);
    EndsGrow(Log(s.At(w), e).log, Notify(s, w, e).At(w).log, id);
  }

  /** The operation in the slot ends with the callback `e`. */
  lemma ClearedEnds(s: State, w: bool, e: Entry)
    requires EndedBy(e, s.At(w).op.job.id)
    ensures Over(s, Notify(s.Put(w, Clear(s.At(w))), w, e), w)
  {
    NotifyEnds(s.Put(w, Clear(s.At(w))), w, e, s.At(w).op.job.id);
  }

  lemma DeliveredHupEnds(s: State, w: bool, chunk: seq<byte>, t: State)
    requires IsPlain(s.At(w).op.job.operation) && t == Delivered(s, w, true, chunk)
    ensures Over(s, t, w)
  {
    var job := s.At(w).op.job;
    if job.repeat {
      var e := Called(job, |chunk|, chunk, false, true);
      NotifyEnds(s, w, e, job.id);
      NotifyAfter(s, w, e);
      AppendedEnds(s.At(w).log, e, job.id);
      AfterChunkHupEnds(s, Notify(s, w, e), w, |chunk| < Want(w, job.req), t);
    } else {
      ClearedEnds(s, w, Called(job, |chunk|, chunk, true, true));
    }
  }

  /** After the callback of a repeating operation under hang-up: either the callback ended
      the operation, or it is still in the slot and ends now. */
  lemma AfterChunkHupEnds(s: State, s1: State, w: bool, shortRead: bool, t: State)
    requires var job := s.At(w).op.job;
      && IsPlain(job.operation)
      && EndsOf(s.At(w).log, job.id) <= EndsOf(s1.At(w).log, job.id)
      && (EndsOf(s.At(w).log, job.id) == EndsOf(s1.At(w).log, job.id) ==> s1.At(w).op.job == job)
      && t == AfterChunk(s1, w, true, job.operation, shortRead)
    ensures Over(s, t, w)
  {
    var job := s.At(w).op.job;
    AfterChunkRecorded(s1, w, true, job.operation, shortRead);
    EndsGrow(s1.At(w).log, t.At(w).log, job.id);
    if s1.At(w).op.job == job {
      ClearedEnds(s1, w, Called(job, if w then -1 else 0, [], true, true));
    }
  }

  lemma AllHupEnds(s: State, w: bool, a: Outcome)
    requires IsAll(s.At(w).op.job.operation) && !a.again
    ensures Over(s, AllAttempted(s, w, true, a), w)
  {
    var op := s.At(w).op;
    var done := op.done + a.chunk;
    ClearedEnds(s, w, Called(op.job, if op.done == [] then a.r else |op.done|, op.done, true, true));
    ClearedEnds(s, w, Called(op.job, |done|, done, true, true));
  }

  /** Hang-up completeness, with the readiness bit set: doOperation ends the operation
      that was pending, by a last callback or because a callback cancelled it, exactly
      when its first call does not come back with EAGAIN. */
  lemma HangupCompletes(s: State, w: bool)
    requires Busy(s.At(w))
    ensures Over(s, DoOperation(s, w, true), w) <==>
            s.At(w).op.job.operation == Wait || !SlotAttempt(w, s.At(w)).again
  {
    var s1 := s.Put(w, Skip(s.At(w), false));
    Kinds(s.At(w).op.job.operation);
    assert SlotAttempt(w, s1.At(w)) == SlotAttempt(w, s.At(w));
    if s.At(w).op.job.operation == Wait {
      WaitOver(s1, w, true, PlainOperation(s1, w, true));
    } else if IsPlain(s.At(w).op.job.operation) {
      var a := SlotAttempt(w, s1.At(w));
      PlainCalls(s1, w, true, a, PlainOperation(s1, w, true));
      CalledHupEnds(s1, s1.Put(w, s1.At(w).(k := a.k)), w, a, PlainOperation(s1, w, true));
    } else {
      AllHangupCompletes(s1, w, AllOperation(s1, w, true));
    }
  }

  lemma WaitOver(s: State, w: bool, hup: bool, t: State)
    requires s.At(w).op.job.operation == Wait && t == PlainOperation(s, w, hup)
    ensures Over(s, t, w)
  {
    ClearedEnds(s, w, Called(s.At(w).op.job, 0, [], true, hup));
  }

  lemma CalledHupEnds(s: State, s1: State, w: bool, a: Outcome, t: State)
    requires IsPlain(s.At(w).op.job.operation) && s1 == s.Put(w, s.At(w).(k := a.k))
    requires t == PlainAttempted(s1, w, true, a)
    ensures Over(s, t, w) <==> !a.again
  {
    PlainHupEnds(s1, w, a, t);
  }

  lemma PlainHupEnds(s: State, w: bool, a: Outcome, t: State)
    requires IsPlain(s.At(w).op.job.operation) && t == PlainAttempted(s, w, true, a)
    ensures Over(s, t, w) <==> !a.again
  {
    if a.again {
    } else if a.chunk == [] {
      ClearedEnds(s, w, Called(s.At(w).op.job, a.r, [], true, true));
    } else {
      DeliveredHupEnds(s, w, a.chunk, t);
    }
  }

  lemma AllHangupCompletes(s: State, w: bool, t: State)
    requires t == AllOperation(s, w, true)
    requires IsAll(s.At(w).op.job.operation)
    ensures Over(s, t, w) <==> !SlotAttempt(w, s.At(w)).again
  {
    var a := SlotAttempt(w, s.At(w));
    if !a.again {
      AllHupEnds(s.Put(w, s.At(w).(k := a.k)), w, a);
    }
  }

  /** Hang-up without the readiness bit: handleHup ends the pending operation exactly
      when it is not `wait`, `readvAll` or `writevAll`. */
  lemma HandleHupCompletes(s: State, w: bool)
    requires Busy(s.At(w))
    ensures Over(s, HandleHup(s, w), w) <==> s.At(w).op.job.operation !in {Wait, ReadvAll, WritevAll}
  {
    HupCompletes(s, w, HandleHup(s, w));
  }

  /** handleHup after the first range of operations: a pending single transfer was called. */
  function AfterFirst(s: State, w: bool, r: int): State {
    if Code(Read) <= Code(s.At(w).op.job.operation) <= Code(SendFileFrom) then
      Notify(s.Put(w, Clear(s.At(w))), w, Called(s.At(w).op.job, r, [], true, true))
    else
      s
  }

  lemma HupSteps(s: State, w: bool, r: int, t: State)
    requires Busy(s.At(w)) && r == (if w then -1 else 0) && t == HandleHup(s, w)
    ensures t == HupAll(AfterFirst(s, w, r), w, r)
  {
  }

  lemma HupCompletes(s: State, w: bool, t: State)
    requires Busy(s.At(w)) && t == HandleHup(s, w)
    ensures Over(s, t, w) <==> s.At(w).op.job.operation !in {Wait, ReadvAll, WritevAll}
  {
    Kinds(s.At(w).op.job.operation);
    var r := if w then -1 else 0;
    HupSteps(s, w, r, t);
    if Code(Read) <= Code(s.At(w).op.job.operation) <= Code(SendFileFrom) {
      HupPlainCompletes(s, w, r, t);
    } else {
      HupRestCompletes(s, w, r, t);
    }
  }

  lemma HupRestCompletes(s: State, w: bool, r: int, t: State)
    requires Busy(s.At(w)) && (IsPlain(s.At(w).op.job.operation) ==> s.At(w).op.job.operation == Wait)
    requires t == HupAll(s, w, r)
    ensures Over(s, t, w) <==> s.At(w).op.job.operation !in {Wait, ReadvAll, WritevAll}
  {
    Kinds(s.At(w).op.job.operation);
    if Code(ReadAll) <= Code(s.At(w).op.job.operation) <= Code(RecvAll) {
      HupAllCompletes(s, w, r, t);
    }
  }

  lemma HupPlainCompletes(s: State, w: bool, r: int, t: State)
    requires r <= 0
    requires t == HupAll(Notify(s.Put(w, Clear(s.At(w))), w, Called(s.At(w).op.job, r, [], true, true)), w, r)
    ensures Over(s, t, w)
  {
    var e := Called(s.At(w).op.job, r, [], true, true);
    var s1 := Notify(s.Put(w, Clear(s.At(w))), w, e);
    ClearedEnds(s, w, e);
    HupAllRan(s1, w, r);
    EndsGrow(s1.At(w).log, t.At(w).log, s.At(w).op.job.id);
  }

  lemma HupAllCompletes(s: State, w: bool, r: int, t: State)
    requires Code(ReadAll) <= Code(s.At(w).op.job.operation) <= Code(RecvAll) && t == HupAll(s, w, r)
    ensures Over(s, t, w)
  {
    var op := s.At(w).op;
    var e := Called(op.job, if op.done == [] then r else |op.done|, op.done, true, true);
    ClearedEnds(s, w, e);
    var s1 := Notify(s.Put(w, Clear(s.At(w))), w, e);
    NotifyEnds(s1, w, Again(op.job.id, r, s1.At(w).op.job.id), op.job.id);
  }

  // ---- Which callbacks doOperation and handleHup make, whatever callbacks do. ----

  /** The first call leaves the operation waiting: it came back with EAGAIN, or with a part
      of what a whole-buffer operation still wants. */
  predicate Waits(w: bool, op: OperationInfo, a: Outcome, hup: bool) {
    a.again || (IsAll(op.job.operation) && a.chunk != [] && |op.done + a.chunk| < Want(w, op.job.req) && !hup)
  }

  /** The bytes an operation has moved after its call. */
  function MovedBy(op: OperationInfo, a: Outcome): seq<byte> {
    if IsAll(op.job.operation) then op.done + a.chunk else a.chunk
  }

  /** The side at the moment of a one-shot operation's callback: its slot is idle, nothing
      was logged yet, and the skip flag is set exactly after a short transfer that moved
      something and saw no hang-up, by an operation of one transfer. */
  predicate AtCallback(w: bool, side: Side, at: Side, a: Outcome, hup: bool) {
    && !Busy(at) && at.k == a.k && at.log == side.log
    && (at.op.skipSync <==>
          IsPlain(side.op.job.operation) && a.chunk != [] && |a.chunk| < Want(w, side.op.job.req) && !hup)
  }

  /** All that is left to do from `s` to `t` is the callback `e`. */
  ghost predicate EndsInCallback(w: bool, s: State, a: Outcome, hup: bool, e: Entry, t: State) {
    exists at :: AtCallback(w, s.At(w), at, a, hup) && t == Notify(s.Put(w, at), w, e)
  }

  /** The operation stays in its slot, and nobody was called. */
  predicate StaysQuietly(w: bool, s: State, t: State) {
    t.At(w).log == s.At(w).log && t.At(w).op.job == s.At(w).op.job && t.script == s.script
  }

  /** What doOperation makes of a one-shot operation whose call comes back with `a`: while
      it stays in its slot nobody is called; otherwise the last thing done is its one
      callback, with the number of bytes it moved or else with what the call returned. */
  ghost predicate OneShot(w: bool, s: State, a: Outcome, hup: bool, t: State) {
    var op := s.At(w).op;
    var moved := MovedBy(op, a);
    if Waits(w, op, a, hup) then
      StaysQuietly(w, s, t)
    else
      EndsInCallback(w, s, a, hup, Called(op.job, if moved == [] then a.r else |moved|, moved, true, hup), t)
  }

  lemma OneCallback(s: State, w: bool, hup: bool)
    requires Busy(s.At(w)) && !s.At(w).op.job.repeat && s.At(w).op.job.operation != Wait
    ensures OneShot(w, s, SlotAttempt(w, s.At(w)), hup, DoOperation(s, w, hup))
  {
    var side := Skip(s.At(w), false);
    var s1 := s.Put(w, side);
    var a := SlotAttempt(w, s.At(w));
    Kinds(s.At(w).op.job.operation);
    AttemptHonest(w, s.At(w).k, SlotRequest(s.At(w).op));
    PutPut(s, w, side, side.(k := a.k));
    if IsPlain(s.At(w).op.job.operation) {
      PlainCalls(s1, w, hup, a, DoOperation(s, w, hup));
      PlainOneCallback(s, w, hup, side.(k := a.k), a, DoOperation(s, w, hup));
    } else {
      AllCalls(s1, w, hup, a, DoOperation(s, w, hup));
      AllOneCallback(s, w, hup, side.(k := a.k), a, DoOperation(s, w, hup));
    }
  }

  /** A whole-buffer operation makes its call, and the rest follows from the outcome. */
  lemma AllCalls(s: State, w: bool, hup: bool, a: Outcome, t: State)
    requires IsAll(s.At(w).op.job.operation) && a == SlotAttempt(w, s.At(w)) && t == AllOperation(s, w, hup)
    ensures t == AllAttempted(s.Put(w, s.At(w).(k := a.k)), w, hup, a)
  {
  }

  lemma PlainOneCallback(s: State, w: bool, hup: bool, side: Side, a: Outcome, t: State)
    requires IsPlain(s.At(w).op.job.operation) && !s.At(w).op.job.repeat
    requires side == Skip(s.At(w), false).(k := a.k) && Honest(w, s.At(w).k, s.At(w).op.job.req, a)
    requires t == PlainAttempted(s.Put(w, side), w, hup, a)
    ensures OneShot(w, s, a, hup, t)
  {
    Kinds(s.At(w).op.job.operation);
    PutPut(s, w, side, Clear(side));
    PutPut(s, w, side, Skip(Clear(side), true));
    if !a.again {
      var short := a.chunk != [] && |a.chunk| < Want(w, side.op.job.req);
      var at := if short && !hup then Skip(Clear(side), true) else Clear(side);
      PlainAtCallback(w, hup, s.Put(w, side), at, a, t);
      AnsweredOnce(w, s, at, a, hup, t);
    }
  }

  lemma AnsweredOnce(w: bool, s: State, at: Side, a: Outcome, hup: bool, t: State)
    requires !Waits(w, s.At(w).op, a, hup) && AtCallback(w, s.At(w), at, a, hup)
    requires var op := s.At(w).op;
      var moved := MovedBy(op, a);
      t == Notify(s.Put(w, at), w, Called(op.job, if moved == [] then a.r else |moved|, moved, true, hup))
    ensures OneShot(w, s, a, hup, t)
  {
  }

  lemma PlainAtCallback(w: bool, hup: bool, s: State, at: Side, a: Outcome, t: State)
    requires !s.At(w).op.job.repeat && t == PlainAttempted(s, w, hup, a)
    requires at == if a.chunk != [] && |a.chunk| < Want(w, s.At(w).op.job.req) && !hup
                   then Skip(Clear(s.At(w)), true) else Clear(s.At(w))
    ensures var job := s.At(w).op.job;
      t == if a.again then s
           else Notify(s.Put(w, at), w, Called(job, if a.chunk == [] then a.r else |a.chunk|, a.chunk, true, hup))
  {
  }

  lemma AllOneCallback(s: State, w: bool, hup: bool, side: Side, a: Outcome, t: State)
    requires IsAll(s.At(w).op.job.operation) && side == Skip(s.At(w), false).(k := a.k)
    requires t == AllAttempted(s.Put(w, side), w, hup, a)
    ensures OneShot(w, s, a, hup, t)
  {
    assert a.chunk == [] ==> s.At(w).op.done + a.chunk == s.At(w).op.done;
    PutPut(s, w, side, Clear(side));
    assert AtCallback(w, s.At(w), Clear(side), a, hup);
  }

  /** How many second callbacks were made. */
  function Agains(log: seq<Entry>): nat {
    if log == [] then 0 else Agains(log[..|log| - 1]) + if log[|log| - 1].Again? then 1 else 0
  }

  lemma {:induction false} SameAgains(x: seq<Entry>, y: seq<Entry>)
    requires x <= y && forall i :: |x| <= i < |y| ==> !y[i].Again?
    ensures Agains(y) == Agains(x)
    decreases |y|
  {
    if |x| < |y| {
      SameAgains(x, y[..|y| - 1]);
    } else {
      assert x == y;
    }
  }

  lemma NotifyAgains(s: State, w: bool, e: Entry)
    ensures s.At(w).log + [e] <= Notify(s, w, e).At(w).log
    ensures Agains(Notify(s, w, e).At(w).log) == Agains(s.At(w).log) + if e.Again? then 1 else 0
  {
    NotifyAfter(s, w, e);
    SameAgains(s.At(w).log + [e], Notify(s, w, e).At(w).log);
    assert (s.At(w).log + [e])[..|s.At(w).log|] == s.At(w).log;
  }

  /** What a hang-up's first callback says: the count if something was moved, and the end
      otherwise. */
  function HupEntry(op: OperationInfo, r: int): Entry {
    if IsAll(op.job.operation) && op.done != [] then Called(op.job, |op.done|, op.done, true, true)
    else Called(op.job, r, [], true, true)
  }

  /** Second callbacks between two moments pass `r`, and run the callback of the operation
      they are meant for, or of one that was started since the first of the two. */
  predicate SecondsGo(x: seq<Entry>, y: seq<Entry>, r: int) {
    && x <= y
    && forall i :: |x| <= i < |y| && y[i].Again? ==>
         y[i].r == r && (y[i].to == y[i].of || (|x| <= y[i].to < i && y[y[i].to].Started?))
  }

  /** Nobody is called for `wait`, `readvAll` and `writevAll`. Otherwise the pending
      operation is called first, and a second callback follows exactly for a readAll,
      writeAll, sendAll or recvAll that has moved something: the pending one, or one that
      the callback of a single transfer left in the slot. It runs that operation's callback,
      unless the first one started another operation: then it may run that one's. */
  predicate HupAnswered(w: bool, s: State, r: int, t: State) {
    var op, before, after := s.At(w).op, s.At(w).log, t.At(w).log;
    if op.job.operation in {Wait, ReadvAll, WritevAll} then
      t == s
    else
      && before + [HupEntry(op, r)] <= after
      && SecondsGo(before, after, r)
      && Agains(before) <= Agains(after) <= Agains(before) + 1
      && (IsAll(op.job.operation) ==> (Agains(after) > Agains(before) <==> op.done != []))
  }

  /** Which callbacks handleHup makes, whatever they do. */
  lemma HangupCallbacks(s: State, w: bool)
    requires Busy(s.At(w))
    ensures HupAnswered(w, s, if w then -1 else 0, HandleHup(s, w))
  {
    var r := if w then -1 else 0;
    HupSteps(s, w, r, HandleHup(s, w));
    HangupCallbacksFrom(s, w, r, HandleHup(s, w));
  }

  /** After the first range's callback, if any, the second range decides. */
  lemma HangupCallbacksFrom(s: State, w: bool, r: int, t: State)
    requires Busy(s.At(w)) && t == HupAll(AfterFirst(s, w, r), w, r)
    ensures HupAnswered(w, s, r, t)
  {
    Kinds(s.At(w).op.job.operation);
    if IsPlain(s.At(w).op.job.operation) && s.At(w).op.job.operation != Wait {
      HupPlainAnswered(s, AfterFirst(s, w, r), w, r, t);
    } else {
      HupRestAnswered(s, w, r, t);
    }
  }

  lemma HupRestAnswered(s: State, w: bool, r: int, t: State)
    requires Busy(s.At(w)) && (IsPlain(s.At(w).op.job.operation) ==> s.At(w).op.job.operation == Wait)
    requires t == HupAll(s, w, r)
    ensures HupAnswered(w, s, r, t)
  {
    HupAllAgains(s, w, r, t);
    AllAnswered(s, w, r, t);
  }

  lemma AllAnswered(s: State, w: bool, r: int, t: State)
    requires Busy(s.At(w)) && (IsPlain(s.At(w).op.job.operation) ==> s.At(w).op.job.operation == Wait)
    requires var op, before, after := s.At(w).op, s.At(w).log, t.At(w).log;
      if Code(ReadAll) <= Code(op.job.operation) <= Code(RecvAll) then
        && before + [HupEntry(op, r)] <= after && SecondsGo(before, after, r)
        && Agains(after) == Agains(before) + if op.done != [] then 1 else 0
      else
        t == s
    ensures HupAnswered(w, s, r, t)
  {
    Kinds(s.At(w).op.job.operation);
  }

  lemma HupPlainAnswered(s: State, s1: State, w: bool, r: int, t: State)
    requires IsPlain(s.At(w).op.job.operation) && s.At(w).op.job.operation != Wait && t == HupAll(s1, w, r)
    requires s1 == Notify(s.Put(w, Clear(s.At(w))), w, Called(s.At(w).op.job, r, [], true, true))
    ensures HupAnswered(w, s, r, t)
  {
    Kinds(s.At(w).op.job.operation);
    NotifyAgains(s.Put(w, Clear(s.At(w))), w, HupEntry(s.At(w).op, r));
    HupAllBounds(s1, w, r, t);
    FirstGoes(s, w, HupEntry(s.At(w).op, r), s1);
    SecondsGoLater(s.At(w).log, HupEntry(s.At(w).op, r), s1.At(w).log, t.At(w).log, r);
    PlainAnswered(s, s1.At(w).log, w, r, t);
  }

  lemma SecondsGoLater(x: seq<Entry>, e: Entry, y: seq<Entry>, z: seq<Entry>, r: int)
    requires x + [e] <= y && !e.Again? && (forall i :: |x| < i < |y| ==> !y[i].Again?) && SecondsGo(y, z, r)
    ensures SecondsGo(x, z, r)
  {
    assert y[|x|] == e;
    assert forall i :: 0 <= i < |y| ==> z[i] == y[i];
  }

  /** From the callback of a single transfer to the end of handleHup. */
  lemma PlainAnswered(s: State, mid: seq<Entry>, w: bool, r: int, t: State)
    requires IsPlain(s.At(w).op.job.operation) && s.At(w).op.job.operation != Wait
    requires s.At(w).log + [HupEntry(s.At(w).op, r)] <= mid && Agains(mid) == Agains(s.At(w).log)
    requires SecondsGo(s.At(w).log, t.At(w).log, r)
    requires mid <= t.At(w).log && Agains(mid) <= Agains(t.At(w).log) <= Agains(mid) + 1
    ensures HupAnswered(w, s, r, t)
  {
    Kinds(s.At(w).op.job.operation);
    Longer(s.At(w).log + [HupEntry(s.At(w).op, r)], mid, t.At(w).log);
  }

  lemma HupAllBounds(s: State, w: bool, r: int, t: State)
    requires t == HupAll(s, w, r)
    ensures SecondsGo(s.At(w).log, t.At(w).log, r)
    ensures Agains(s.At(w).log) <= Agains(t.At(w).log) <= Agains(s.At(w).log) + 1
  {
    HupAllAgains(s, w, r, t);
  }

  lemma Longer(x: seq<Entry>, y: seq<Entry>, z: seq<Entry>)
    requires x <= y <= z
    ensures x <= z
  {
  }

  lemma HupAllAgains(s: State, w: bool, r: int, t: State)
    requires t == HupAll(s, w, r)
    ensures var side := s.At(w);
      var op := side.op;
      if Code(ReadAll) <= Code(op.job.operation) <= Code(RecvAll) then
        && side.log + [HupEntry(op, r)] <= t.At(w).log && SecondsGo(side.log, t.At(w).log, r)
        && Agains(t.At(w).log) == Agains(side.log) + if op.done != [] then 1 else 0
      else
        t == s
  {
    Kinds(s.At(w).op.job.operation);
    var op := s.At(w).op;
    if Code(ReadAll) <= Code(op.job.operation) <= Code(RecvAll) {
      var s1 := Notify(s.Put(w, Clear(s.At(w))), w, HupEntry(op, r));
      HupAllCalls(s, w, r, s1, t);
      HupFirst(s, w, r, s1);
      HupGoes(s, w, r, s1, t);
    }
  }

  lemma HupGoes(s: State, w: bool, r: int, s1: State, t: State)
    requires s1 == Notify(s.Put(w, Clear(s.At(w))), w, HupEntry(s.At(w).op, r))
    requires t == if s.At(w).op.done == [] then s1
                  else Notify(s1, w, Again(s.At(w).op.job.id, r, s1.At(w).op.job.id))
    ensures SecondsGo(s.At(w).log, t.At(w).log, r)
  {
    var e, g := HupEntry(s.At(w).op, r), Again(s.At(w).op.job.id, r, s1.At(w).op.job.id);
    FirstGoes(s, w, e, s1);
    if s.At(w).op.done != [] {
      NotifyAfter(s1, w, g);
      SecondGoes(s.At(w).log, s1.At(w).log, g, t.At(w).log);
    }
  }

  /** After the first callback no second one was made, and the slot's callback is known. */
  lemma FirstGoes(s: State, w: bool, e: Entry, t: State)
    requires e.Called? && t == Notify(s.Put(w, Clear(s.At(w))), w, e)
    ensures s.At(w).log + [e] <= t.At(w).log
    ensures forall i :: |s.At(w).log| <= i < |t.At(w).log| ==> !t.At(w).log[i].Again?
    ensures var id := t.At(w).op.job.id;
      id == s.At(w).op.job.id || (|s.At(w).log| < id < |t.At(w).log| && t.At(w).log[id].Started?)
  {
    NotifyAfter(s.Put(w, Clear(s.At(w))), w, e);
    assert t.At(w).log[|s.At(w).log|] == e;
  }

  lemma SecondGoes(x: seq<Entry>, y: seq<Entry>, g: Entry, z: seq<Entry>)
    requires x <= y && (forall i :: |x| <= i < |y| ==> !y[i].Again?)
    requires g.Again? && (g.to == g.of || (|x| <= g.to < |y| && y[g.to].Started?))
    requires y + [g] <= z && forall i :: |y| < i < |z| ==> !z[i].Again?
    ensures SecondsGo(x, z, g.r)
  {
    assert z[|y|] == g && forall i :: 0 <= i < |y| ==> z[i] == y[i];
  }

  lemma HupAllCalls(s: State, w: bool, r: int, s1: State, t: State)
    requires Code(ReadAll) <= Code(s.At(w).op.job.operation) <= Code(RecvAll) && t == HupAll(s, w, r)
    requires s1 == Notify(s.Put(w, Clear(s.At(w))), w, HupEntry(s.At(w).op, r))
    ensures t == if s.At(w).op.done == [] then s1
                 else Notify(s1, w, Again(s.At(w).op.job.id, r, s1.At(w).op.job.id))
  {
  }

  lemma HupFirst(s: State, w: bool, r: int, s1: State)
    requires s1 == Notify(s.Put(w, Clear(s.At(w))), w, HupEntry(s.At(w).op, r))
    ensures s.At(w).log + [HupEntry(s.At(w).op, r)] <= s1.At(w).log
    ensures Agains(s1.At(w).log) == Agains(s.At(w).log)
    ensures var t := Notify(s1, w, Again(s.At(w).op.job.id, r, s1.At(w).op.job.id));
      s1.At(w).log <= t.At(w).log && Agains(t.At(w).log) == Agains(s1.At(w).log) + 1
  {
    NotifyAgains(s.Put(w, Clear(s.At(w))), w, HupEntry(s.At(w).op, r));
    NotifyAgains(s1, w, Again(s.At(w).op.job.id, r, s1.At(w).op.job.id));
  }

  // ---- How many calls a draining loop makes. ----

  predicate Still(s: State, w: bool) {
    s.script == [] && s.At(w).k.env == [] && s.At(w).k.stop == Open
  }

  predicate PlainRepeat(op: OperationInfo) {
    op.job.repeat && IsPlain(op.job.operation) && op.job.operation != Wait
  }

  /** The repeat loop of doOperation, left alone, drains what is available in
      avail / len + 1 calls: it stops on the first short transfer. */
  lemma DispatchDrains(s: State, w: bool)
    requires Still(s, w) && PlainRepeat(s.At(w).op) && Want(w, s.At(w).op.job.req) > 0
    ensures var t := PlainOperation(s, w, false);
      && t.At(w).op == s.At(w).op
      && Avail(w, t.At(w).k) == 0
      && t.At(w).k.attempts == s.At(w).k.attempts + Avail(w, s.At(w).k) / Want(w, s.At(w).op.job.req) + 1
  {
    DispatchRounds(s, w, PlainOperation(s, w, false));
    FullsIs(Avail(w, s.At(w).k), Want(w, s.At(w).op.job.req));
  }

  lemma {:induction false} DispatchRounds(s: State, w: bool, t: State)
    requires Still(s, w) && PlainRepeat(s.At(w).op) && Want(w, s.At(w).op.job.req) > 0
    requires t == PlainOperation(s, w, false)
    ensures t.At(w).op == s.At(w).op && Avail(w, t.At(w).k) == 0
    ensures t.At(w).k.attempts == s.At(w).k.attempts + Fulls(Avail(w, s.At(w).k), Want(w, s.At(w).op.job.req)) + 1
    decreases Avail(w, s.At(w).k), 0
  {
    var side := s.At(w);
    var a := Attempt(w, side.k, side.op.job.req);
    PlainCalls(s, w, false, a, t);
    AttemptHonest(w, side.k, side.op.job.req);
    AttemptProgress(w, side.k, side.op.job.req);
    assert a.k.attempts == side.k.attempts + 1 && a.k.stop == Open;
    if a.chunk != [] {
      DeliveredRounds(s.Put(w, side.(k := a.k)), w, a.chunk, Avail(w, side.k), t);
    }
  }

  /** After a transfer out of `n` available bytes. */
  lemma {:induction false} DeliveredRounds(s: State, w: bool, chunk: seq<byte>, n: nat, t: State)
    requires Still(s, w) && PlainRepeat(s.At(w).op) && Want(w, s.At(w).op.job.req) > 0
    requires |chunk| == Min(n, Want(w, s.At(w).op.job.req)) > 0 && Avail(w, s.At(w).k) == n - |chunk|
    requires t == Delivered(s, w, false, chunk)
    ensures t.At(w).op == s.At(w).op && Avail(w, t.At(w).k) == 0
    ensures t.At(w).k.attempts == s.At(w).k.attempts + Fulls(n, Want(w, s.At(w).op.job.req))
    decreases Avail(w, s.At(w).k), 1
  {
    DeliveredQuietly(s, w, chunk, t);
    if |chunk| == Want(w, s.At(w).op.job.req) {
      var e := Called(s.At(w).op.job, |chunk|, chunk, false, false);
      DispatchRounds(s.Put(w, Log(s.At(w), e)), w, t);
    }
  }

  /** A repeating operation whose callback does nothing goes on, or waits for epoll. */
  lemma DeliveredQuietly(s: State, w: bool, chunk: seq<byte>, t: State)
    requires s.script == [] && s.At(w).op.job.repeat && t == Delivered(s, w, false, chunk)
    ensures var op := s.At(w).op;
      var s1 := s.Put(w, Log(s.At(w), Called(op.job, |chunk|, chunk, false, false)));
      t == if |chunk| < Want(w, op.job.req) then s1 else PlainOperation(s1, w, false)
  {
    var op := s.At(w).op;
    var s1 := Notify(s, w, Called(op.job, |chunk|, chunk, false, false));
    assert t == AfterChunk(s1, w, false, op.job.operation, |chunk| < Want(w, op.job.req));
  }

  /** The synchronous repeat loop does not stop on a short transfer, so it needs one call
      more when len does not divide what is available. */
  lemma SynchronousDrains(s: State, w: bool, job: Job)
    requires Still(s, w) && Want(w, job.req) > 0
    ensures var e := TryRepeat(s, w, job);
      && e.again
      && Avail(w, e.s.At(w).k) == 0
      && e.s.At(w).k.attempts ==
           s.At(w).k.attempts + (Avail(w, s.At(w).k) + Want(w, job.req) - 1) / Want(w, job.req) + 1
  {
    SynchronousRounds(s, w, job, TryRepeat(s, w, job));
    PiecesIs(Avail(w, s.At(w).k), Want(w, job.req));
  }

  lemma {:induction false} SynchronousRounds(s: State, w: bool, job: Job, e: SyncEnd)
    requires Still(s, w) && Want(w, job.req) > 0 && e == TryRepeat(s, w, job)
    ensures e.again && Avail(w, e.s.At(w).k) == 0
    ensures e.s.At(w).k.attempts == s.At(w).k.attempts + Pieces(Avail(w, s.At(w).k), Want(w, job.req)) + 1
    decreases Avail(w, s.At(w).k), 0
  {
    var side := s.At(w);
    var a := Attempt(w, side.k, job.req);
    RepeatCalls(s, w, job, a, e);
    AttemptHonest(w, side.k, job.req);
    AttemptProgress(w, side.k, job.req);
    assert a.k.attempts == side.k.attempts + 1 && a.k.stop == Open;
    if a.chunk != [] {
      var s1 := s.Put(w, Crossed(side.(k := a.k), !a.again));
      SynchronousRest(Notify(s1, w, Called(job, a.r, a.chunk, false, false)), w, job, |a.chunk|, Avail(w, side.k), e);
    }
  }

  /** The rest of the loop after a transfer of `d` out of `n` available bytes. */
  lemma {:induction false} SynchronousRest(s: State, w: bool, job: Job, d: nat, n: nat, e: SyncEnd)
    requires Still(s, w) && Want(w, job.req) > 0
    requires d == Min(n, Want(w, job.req)) > 0 && Avail(w, s.At(w).k) == n - d
    requires e == TryRepeat(s, w, job)
    ensures e.again && Avail(w, e.s.At(w).k) == 0
    ensures e.s.At(w).k.attempts == s.At(w).k.attempts + Pieces(n, Want(w, job.req))
    decreases Avail(w, s.At(w).k), 1
  {
    SynchronousRounds(s, w, job, e);
  }

  lemma RepeatCalls(s: State, w: bool, job: Job, a: Outcome, e: SyncEnd)
    requires a == Attempt(w, s.At(w).k, job.req) && e == TryRepeat(s, w, job)
    ensures var s1 := s.Put(w, Crossed(s.At(w).(k := a.k), !a.again));
      e == if a.chunk == [] then SyncEnd(s1, a.r, a.again)
           else TryRepeat(Notify(s1, w, Called(job, a.r, a.chunk, false, false)), w, job)
  {
    AttemptProgress(w, s.At(w).k, job.req);
  }
}
