/** Where the engine's promises stop: the exact conditions under which control reaches
    assert(false), a hang-up's 0 is true, and a `wait` is answered. */
module EngineLimits {
  import opened Kernel
  import opened Engine
  import opened EngineWakeups
  import opened EngineHistory
  import opened EngineRecords
  import opened EngineService

  /** Control reaches assert(false) only from a repeating plain operation, and only when
      a callback leaves a different plain operation in its slot. */
  lemma AbortNeedsSwitch(s: State, w: bool, hup: bool)
    requires !s.aborted && DoOperation(s, w, hup).aborted
    ensures var op, op' := s.At(w).op, DoOperation(s, w, hup).At(w).op;
      IsPlain(op.job.operation) && op.job.repeat && IsPlain(op'.job.operation) && op'.job.operation != op.job.operation
  {
    Kinds(s.At(w).op.job.operation);
    PlainAbort(s.Put(w, Skip(s.At(w), false)), w, hup);
  }

  /** The end state of an aborting run, seen from the slot it started with. */
  predicate Switched(op: OperationInfo, t: State, w: bool) {
    op.job.repeat && IsPlain(t.At(w).op.job.operation) && t.At(w).op.job.operation != op.job.operation
  }

  lemma {:induction false} PlainAbort(s: State, w: bool, hup: bool)
    requires !s.aborted && IsPlain(s.At(w).op.job.operation)
    ensures PlainOperation(s, w, hup).aborted ==> Switched(s.At(w).op, PlainOperation(s, w, hup), w)
    decreases |s.script|, 1, |s.At(w).k.env|, Avail(w, s.At(w).k), 4
  {
    var side := s.At(w);
    if side.op.job.operation != Wait {
      AttemptProgress(w, side.k, side.op.job.req);
      var a := Attempt(w, side.k, side.op.job.req);
      if a.chunk != [] {
        DeliveredAbort(s.Put(w, side.(k := a.k)), w, hup, a.chunk);
      }
      assert PlainAttempted(s.Put(w, side.(k := a.k)), w, hup, a).aborted ==> a.chunk != [];
    }
  }

  lemma {:induction false} DeliveredAbort(s: State, w: bool, hup: bool, chunk: seq<byte>)
    requires !s.aborted && IsPlain(s.At(w).op.job.operation)
    ensures Delivered(s, w, hup, chunk).aborted ==> Switched(s.At(w).op, Delivered(s, w, hup, chunk), w)
    decreases |s.script|, 1, |s.At(w).k.env|, Avail(w, s.At(w).k), 6
  {
    var op := s.At(w).op;
    if op.job.repeat {
      var s1 := Notify(s, w, Called(op.job, |chunk|, chunk, false, hup));
      AfterChunkAbort(s1, w, hup, op.job.operation, |chunk| < Want(w, op.job.req));
    }
  }

  lemma {:induction false} AfterChunkAbort(s: State, w: bool, hup: bool, opType: Operations, shortRead: bool)
    requires !s.aborted && IsPlain(opType)
    ensures var t := AfterChunk(s, w, hup, opType, shortRead);
      t.aborted ==> IsPlain(t.At(w).op.job.operation) && t.At(w).op.job.operation != opType
    decreases |s.script|, 1, |s.At(w).k.env|, Avail(w, s.At(w).k), 5
  {
    if s.At(w).op.job.operation == opType {
      if !hup && !shortRead {
        PlainAbort(s, w, hup);
      }
    } else {
      var s0 := if shortRead && !hup then s.Put(w, Skip(s.At(w), true)) else s;
      AllAbort(s0, w, hup);
    }
  }

  lemma AllAbort(s: State, w: bool, hup: bool)
    requires !s.aborted
    ensures var t := AllOperation(s, w, hup);
      t.aborted ==> IsPlain(s.At(w).op.job.operation) && t.At(w).op.job.operation == s.At(w).op.job.operation
  {
  }

  /** With callbacks that do nothing more, a plain operation never aborts. */
  lemma {:induction false} QuietlyDone(s: State, w: bool, hup: bool)
    requires s.script == [] && !s.aborted && IsPlain(s.At(w).op.job.operation)
    ensures !PlainOperation(s, w, hup).aborted
    decreases |s.At(w).k.env|, Avail(w, s.At(w).k), 1
  {
    var side := s.At(w);
    if side.op.job.operation != Wait {
      AttemptProgress(w, side.k, side.op.job.req);
      var a := Attempt(w, side.k, side.op.job.req);
      if a.chunk != [] {
        QuietlyDelivered(s.Put(w, side.(k := a.k)), w, hup, a.chunk);
      }
      assert PlainAttempted(s.Put(w, side.(k := a.k)), w, hup, a).aborted ==> a.chunk != [];
    }
  }

  lemma {:induction false} QuietlyDelivered(s: State, w: bool, hup: bool, chunk: seq<byte>)
    requires s.script == [] && !s.aborted && IsPlain(s.At(w).op.job.operation)
    ensures !Delivered(s, w, hup, chunk).aborted
    decreases |s.At(w).k.env|, Avail(w, s.At(w).k), 2
  {
    var op := s.At(w).op;
    if op.job.repeat {
      var s1 := Notify(s, w, Called(op.job, |chunk|, chunk, false, hup));
      QuietlyDone(s1, w, hup);
      assert !AfterChunk(s1, w, hup, op.job.operation, |chunk| < Want(w, op.job.req)).aborted;
    }
  }

  /** The callback of a repeating operation of kind `opType` left a plain operation of
      another kind in the slot. */
  predicate Replaced(side: Side, opType: Operations) {
    IsPlain(side.op.job.operation) && side.op.job.operation != opType
  }

  /** After such a callback control reaches assert(false), whatever later callbacks do; and
      it is reached only then, unless a later callback does the same. */
  lemma AbortExactly(s: State, w: bool, hup: bool, opType: Operations, shortRead: bool)
    requires !s.aborted && IsPlain(opType)
    ensures Replaced(s.At(w), opType) ==> AfterChunk(s, w, hup, opType, shortRead).aborted
    ensures s.script == [] ==> (AfterChunk(s, w, hup, opType, shortRead).aborted <==> Replaced(s.At(w), opType))
  {
    var t := AfterChunk(s, w, hup, opType, shortRead);
    if s.At(w).op.job.operation == opType {
      if s.script == [] {
        QuietlyDone(s, w, hup);
      }
    } else {
      AllAborts(if shortRead && !hup then s.Put(w, Skip(s.At(w), true)) else s, w, hup, t);
    }
  }

  lemma AllAborts(s: State, w: bool, hup: bool, t: State)
    requires !s.aborted && t == AllOperation(s, w, hup)
    ensures t.aborted <==> IsPlain(s.At(w).op.job.operation)
  {
    Kinds(s.At(w).op.job.operation);
  }

  // ---- When the 0 of a hang-up is true. ----

  /** Under hang-up a repeating read is told 0 after one chunk. If its callback does nothing
      more, that is true exactly when the queue held no more than one buffer at the call. */
  lemma HangupZeroTrue(s: State)
    requires s.script == []
    requires IsPlain(s.rd.op.job.operation) && s.rd.op.job.operation != Wait && s.rd.op.job.repeat
    requires Avail(false, Tick(false, s.rd.k)) > 0 && s.rd.op.job.req.len > 0
    ensures var t := PlainOperation(s, false, true).rd;
      && !Busy(t) && |t.log| == |s.rd.log| + 2
      && t.log[|t.log| - 1] == Called(s.rd.op.job, 0, [], true, true)
      && (Avail(false, t.k) == 0 <==> Avail(false, Tick(false, s.rd.k)) <= s.rd.op.job.req.len)
  {
    var side := s.rd;
    var a := Attempt(false, side.k, side.op.job.req);
    SyscallHonest(false, Tick(false, side.k), side.op.job.req);
    assert Avail(false, a.k) + |a.chunk| == Avail(false, Tick(false, side.k)) && a.chunk != [];
    var s1 := s.Put(false, side.(k := a.k));
    PlainCalls(s, false, true, a, PlainOperation(s, false, true));
    HangupZero(s1, a.chunk, PlainOperation(s, false, true));
  }

  lemma HangupZero(s: State, chunk: seq<byte>, t: State)
    requires s.script == [] && IsPlain(s.rd.op.job.operation) && s.rd.op.job.repeat
    requires t == Delivered(s, false, true, chunk)
    ensures var job := s.rd.op.job;
      t == s.Put(false, Log(Clear(Log(s.rd, Called(job, |chunk|, chunk, false, true))),
          Called(job, 0, [], true, true)))
  {
    var job := s.rd.op.job;
    var s1 := Notify(s, false, Called(job, |chunk|, chunk, false, true));
    assert t == AfterChunk(s1, false, true, job.operation, |chunk| < Want(false, job.req));
  }

  /** Whatever its callbacks do and whatever happens meanwhile: if the stream has stopped and
      the call took all that was left, the 0 is true. */
  lemma HangupZeroHolds(s: State)
    requires IsPlain(s.rd.op.job.operation) && s.rd.op.job.operation != Wait
    requires var a := Attempt(false, s.rd.k, s.rd.op.job.req);
      a.chunk != [] && a.k.stop != Open && Avail(false, a.k) == 0
    ensures Avail(false, PlainOperation(s, false, true).rd.k) == 0
  {
    AttemptHonest(false, s.rd.k, s.rd.op.job.req);
    StoppedAtCall(s, Attempt(false, s.rd.k, s.rd.op.job.req), PlainOperation(s, false, true));
  }

  lemma StoppedAtCall(s: State, a: Outcome, t: State)
    requires IsPlain(s.rd.op.job.operation) && s.rd.op.job.operation != Wait && t == PlainOperation(s, false, true)
    requires a == Attempt(false, s.rd.k, s.rd.op.job.req) && a.chunk != [] && !a.again
    requires a.k.stop != Open && Avail(false, a.k) == 0
    ensures Avail(false, t.rd.k) == 0
  {
    PlainCalls(s, false, true, a, t);
    StoppedStays(s.Put(false, s.rd.(k := a.k)), a, t);
  }

  lemma StoppedStays(s: State, a: Outcome, t: State)
    requires IsPlain(s.rd.op.job.operation) && s.rd.k.stop != Open && Avail(false, s.rd.k) == 0
    requires a.chunk != [] && !a.again && t == PlainAttempted(s, false, true, a)
    ensures Avail(false, t.rd.k) == 0
  {
    var chunk := a.chunk;
    var job := s.rd.op.job;
    var e := Called(job, |chunk|, chunk, false, true);
    if job.repeat {
      var s1 := Notify(s, false, e);
      NotifyAfter(s, false, e);
      AfterChunkRecorded(s1, false, true, job.operation, |chunk| < Want(false, job.req));
    } else {
      NotifyAfter(s.Put(false, Clear(s.rd)), false, e.(final := true));
    }
  }

  /** `waitReadable` is answered by the batch that follows exactly when that batch carries
      EPOLLIN; data that is already there does not count. */
  lemma WaitAnswered(s: State, extra: Mask)
    requires Quiet(s) && !s.aborted && !s.noted && s.rd.k.armed && !Busy(s.rd)
    ensures var t := Next(Next(s, Do(WaitOn(false))), Collect(extra));
      && Busy(t.rd) && t.rd.op.job.operation == Wait
      && (Over(t, DispatchRead(t), false) <==> extra.pollin || Ready(false, s.rd.k))
  {
    var u := Next(s, Do(WaitOn(false)));
    assert u.rd.op.job.operation == Wait && u.rd.k == s.rd.k && !u.aborted && !u.noted;
    WaitDispatched(Next(u, Collect(extra)));
  }

  lemma WaitDispatched(t: State)
    requires t.rd.op.job.operation == Wait
    ensures Over(t, DispatchRead(t), false) <==> t.events.pollin
  {
    if t.events.pollin {
      WaitEnds(Undue(t, false), t.events.err || t.events.hup);
    }
  }

  lemma WaitEnds(s: State, hup: bool)
    requires s.rd.op.job.operation == Wait
    ensures Over(s, DoOperation(s, false, hup), false)
  {
    var s1 := s.Put(false, Skip(s.rd, false));
    WaitOver(s1, false, hup, PlainOperation(s1, false, hup));
  }
}
