/** Every function of the engine only records: the step lemmas of `EngineHistory`
    carried through callbacks, command lists and batches, up to whole runs. */
module EngineRecords {
  import opened Kernel
  import opened Engine
  import opened EngineHistory

  lemma PutRecorded(s: State, w: bool, side: Side)
    requires SideRecorded(w, s.At(w), side)
    ensures Recorded(s, s.Put(w, side))
  {
  }

  lemma {:induction false} NotifyRecorded(s: State, w: bool, side: Side, e: Entry)
    requires SideRecorded(w, s.At(w), Log(side, e))
    ensures Recorded(s, Notify(s.Put(w, side), w, e))
    decreases |s.script|, 0, 0, 0, 0
  {
    var s1 := s.Put(w, Log(side, e));
    PutRecorded(s, w, Log(side, e));
    if s1.script != [] {
      RunCommandsRecorded(s1.(script := s1.script[1..]), s1.script[0]);
      RecordedTrans(s, s1.(script := s1.script[1..]), Notify(s.Put(w, side), w, e));
    }
  }

  lemma {:induction false} RunCommandsRecorded(s: State, commands: seq<Command>)
    ensures Recorded(s, RunCommands(s, commands))
    decreases |s.script|, 3, |commands|, 0, 0
  {
    if commands != [] {
      ExecRecorded(s, commands[0]);
      RunCommandsRecorded(Exec(s, commands[0]), commands[1..]);
      RecordedTrans(s, Exec(s, commands[0]), RunCommands(s, commands));
    }
  }

  lemma {:induction false} DoOperationRecorded(s: State, w: bool, hup: bool)
    ensures Recorded(s, DoOperation(s, w, hup))
    decreases |s.script|, 1, |s.At(w).k.env|, Avail(w, s.At(w).k), 7
  {
    var s1 := s.Put(w, Skip(s.At(w), false));
    QuietStep(w, s.At(w), Skip(s.At(w), false));
    PutRecorded(s, w, Skip(s.At(w), false));
    if IsPlain(s.At(w).op.job.operation) {
      PlainOperationRecorded(s1, w, hup);
    } else {
      AllOperationRecorded(s1, w, hup);
    }
    RecordedTrans(s, s1, DoOperation(s, w, hup));
  }

  /** A call for a nonempty `rest` came back with `r`, 0 or -1, and not for EAGAIN. */
  predicate Refused(w: bool, k: End, rest: Request, r: int) {
    r == Verdict(k, Want(w, rest)) && (Want(w, rest) > 0 ==> k.stop != Open && Avail(w, k) == 0)
  }

  /** 0 or -1 from a call is a truthful last callback. */
  lemma RefusedTruthful(w: bool, k: End, log: seq<Entry>, job: Job, r: int, bytes: seq<byte>, hup: bool)
    requires Refused(w, k, Rest(job.req, |bytes|), r)
    requires |bytes| <= Want(w, job.req) && (w ==> bytes <= job.req.data)
    requires LogBytes(log) == Moved(w, k)
    requires log != [] && log[|log| - 1] == Called(job, if bytes == [] then r else |bytes|, bytes, true, hup)
    ensures LastTruthful(w, k, log)
  {
  }

  lemma EmptyTruthful(w: bool, k: End, log: seq<Entry>, job: Job, r: int, hup: bool)
    requires Refused(w, k, job.req, r)
    requires LogBytes(log) == Moved(w, k)
    requires log != [] && log[|log| - 1] == Called(job, r, [], true, hup)
    ensures LastTruthful(w, k, log)
  {
  }

  /** The operation in the slot ends because its call was refused. */
  lemma RefusedStep(w: bool, side: Side, k: End, r: int, hup: bool)
    requires Busy(side) && Flows(side.k, k) && Moved(w, k) == Moved(w, side.k)
    requires Refused(w, k, Rest(side.op.job.req, |side.op.done|), r)
    ensures var op := side.op;
      SideRecorded(w, side, Log(Clear(side.(k := k)),
        Called(op.job, if op.done == [] then r else |op.done|, op.done, true, hup)))
  {
    var op := side.op;
    var e := Called(op.job, if op.done == [] then r else |op.done|, op.done, true, hup);
    var b := Log(Clear(side.(k := k)), e);
    if SlotFits(w, side) && LogBytes(b.log) == Moved(w, k) {
      RefusedTruthful(w, k, b.log, op.job, r, op.done, hup);
    }
    Regroup(op.done, [], []);
    Regroup(Moved(w, side.k), [], []);
    FinishStep(w, side, b, [], e);
  }

  /** The plain operation in the slot ends without having moved anything. */
  lemma EmptyStep(w: bool, side: Side, k: End, r: int, hup: bool)
    requires IsPlain(side.op.job.operation) && Flows(side.k, k) && Moved(w, k) == Moved(w, side.k)
    requires r <= 0 && (hup || side.op.job.operation == Wait || Refused(w, k, side.op.job.req, r))
    ensures SideRecorded(w, side, Log(Clear(side.(k := k)), Called(side.op.job, r, [], true, hup)))
  {
    var op := side.op;
    var e := Called(op.job, r, [], true, hup);
    var b := Log(Clear(side.(k := k)), e);
    if !hup && op.job.operation != Wait && LogBytes(b.log) == Moved(w, k) {
      EmptyTruthful(w, k, b.log, op.job, r, hup);
    }
    Regroup(op.done, [], []);
    Regroup(Moved(w, side.k), [], []);
    FinishStep(w, side, b, [], e);
  }

  /** The operation in the slot ends with `chunk` moved last. */
  lemma FullStep(w: bool, side: Side, b: Side, chunk: seq<byte>, e: Entry)
    requires Busy(side) && chunk != [] && e.Called?
    requires Flows(side.k, b.k) && Moved(w, b.k) == Moved(w, side.k) + chunk
    requires |chunk| <= Want(w, Rest(side.op.job.req, |side.op.done|))
    requires w ==> chunk <= Rest(side.op.job.req, |side.op.done|).data
    requires IsPlain(side.op.job.operation) || e.hup || |side.op.done + chunk| >= Want(w, side.op.job.req)
    requires e == Called(side.op.job, |side.op.done + chunk|, side.op.done + chunk, true, e.hup)
    requires b == Log(side.(k := b.k, op := b.op), e) && !Busy(b) && b.op.job.id == side.op.job.id
    ensures SideRecorded(w, side, b)
  {
    if SlotFits(w, side) {
      DoneGrows(w, side, chunk);
    }
    FinishStep(w, side, b, chunk, e);
  }

  lemma DoneGrows(w: bool, side: Side, chunk: seq<byte>)
    requires |chunk| <= Want(w, Rest(side.op.job.req, |side.op.done|))
    requires w ==> chunk <= Rest(side.op.job.req, |side.op.done|).data
    ensures Busy(side) && SlotFits(w, side) ==>
              |side.op.done + chunk| <= Want(w, side.op.job.req) && (w ==> side.op.done + chunk <= side.op.job.req.data)
  {
  }

  lemma {:induction false} PlainOperationRecorded(s: State, w: bool, hup: bool)
    requires IsPlain(s.At(w).op.job.operation)
    ensures Recorded(s, PlainOperation(s, w, hup))
    decreases |s.script|, 1, |s.At(w).k.env|, Avail(w, s.At(w).k), 4
  {
    var side := s.At(w);
    var op := side.op;
    if op.job.operation == Wait {
      EmptyStep(w, side, side.k, 0, hup);
      NotifyRecorded(s, w, Clear(side), Called(op.job, 0, [], true, hup));
    } else {
      var a := Attempt(w, side.k, op.job.req);
      AttemptHonest(w, side.k, op.job.req);
      AttemptProgress(w, side.k, op.job.req);
      PlainAttemptedRecorded(s, w, hup, a);
    }
  }

  lemma {:induction false} PlainAttemptedRecorded(s: State, w: bool, hup: bool, a: Outcome)
    requires IsPlain(s.At(w).op.job.operation) && Honest(w, s.At(w).k, s.At(w).op.job.req, a)
    ensures Recorded(s, PlainAttempted(s.Put(w, s.At(w).(k := a.k)), w, hup, a))
    decreases |s.script|, 1, |a.k.env|, Avail(w, a.k), if a.chunk == [] then 3 else 8
  {
    var side := s.At(w);
    var op := side.op;
    var side0 := side.(k := a.k);
    if a.again {
      QuietStep(w, side, side0);
      PutRecorded(s, w, side0);
    } else if a.chunk == [] {
      EmptyStep(w, side, a.k, a.r, hup);
      NotifyRecorded(s, w, Clear(side0), Called(op.job, a.r, [], true, hup));
      PutPut(s, w, side0, Clear(side0));
    } else {
      DeliveredRecorded(s, w, hup, a);
    }
  }

  lemma {:induction false} DeliveredRecorded(s: State, w: bool, hup: bool, a: Outcome)
    requires IsPlain(s.At(w).op.job.operation)
    requires Honest(w, s.At(w).k, s.At(w).op.job.req, a) && a.chunk != []
    ensures Recorded(s, Delivered(s.Put(w, s.At(w).(k := a.k)), w, hup, a.chunk))
    decreases |s.script|, 1, |a.k.env|, Avail(w, a.k), 6
  {
    var side := s.At(w);
    var op := side.op;
    var side0 := side.(k := a.k);
    var shortRead := |a.chunk| < Want(w, op.job.req);
    if op.job.repeat {
      var e := Called(op.job, |a.chunk|, a.chunk, false, hup);
      ChunkStep(w, side, Log(side0, e), e);
      NotifyRecorded(s, w, side0, e);
      var s1 := Notify(s.Put(w, side0), w, e);
      AfterChunkRecorded(s1, w, hup, op.job.operation, shortRead);
      RecordedTrans(s, s1, AfterChunk(s1, w, hup, op.job.operation, shortRead));
    } else {
      var side1 := if shortRead && !hup then Skip(Clear(side0), true) else Clear(side0);
      var e := Called(op.job, |a.chunk|, a.chunk, true, hup);
      LastChunkStep(w, side, a, side1, e);
      NotifyRecorded(s, w, side1, e);
      PutPut(s, w, side0, side1);
    }
  }

  lemma LastChunkStep(w: bool, side: Side, a: Outcome, side1: Side, e: Entry)
    requires IsPlain(side.op.job.operation) && Honest(w, side.k, side.op.job.req, a) && a.chunk != []
    requires e.Called? && e == Called(side.op.job, |a.chunk|, a.chunk, true, e.hup)
    requires side1 == side.(k := a.k, op := side1.op) && !Busy(side1) && side1.op.job.id == side.op.job.id
    ensures SideRecorded(w, side, Log(side1, e))
  {
    if SlotFits(w, side) {
      Regroup(side.op.done, a.chunk, []);
      assert side.op.done + a.chunk == a.chunk;
    }
    FinishStep(w, side, Log(side1, e), a.chunk, e);
  }

  lemma {:induction false} AfterChunkRecorded(s: State, w: bool, hup: bool, opType: Operations, shortRead: bool)
    requires IsPlain(opType)
    ensures Recorded(s, AfterChunk(s, w, hup, opType, shortRead))
    decreases |s.script|, 1, |s.At(w).k.env|, Avail(w, s.At(w).k), 5
  {
    var side := s.At(w);
    if side.op.job.operation == opType {
      if hup {
        var e := Called(side.op.job, if w then -1 else 0, [], true, true);
        EmptyStep(w, side, side.k, e.r, true);
        NotifyRecorded(s, w, Clear(side), e);
      } else if shortRead {
      } else {
        PlainOperationRecorded(s, w, hup);
      }
    } else if shortRead && !hup {
      QuietStep(w, side, Skip(side, true));
      PutRecorded(s, w, Skip(side, true));
      AllOperationRecorded(s.Put(w, Skip(side, true)), w, hup);
      RecordedTrans(s, s.Put(w, Skip(side, true)), AfterChunk(s, w, hup, opType, shortRead));
    } else {
      AllOperationRecorded(s, w, hup);
    }
  }

  lemma {:induction false} AllOperationRecorded(s: State, w: bool, hup: bool)
    ensures Recorded(s, AllOperation(s, w, hup))
    decreases |s.script|, 1, |s.At(w).k.env|, Avail(w, s.At(w).k), 3
  {
    var side := s.At(w);
    var op := side.op;
    if IsAll(op.job.operation) {
      var a := Attempt(w, side.k, Rest(op.job.req, |op.done|));
      AttemptHonest(w, side.k, Rest(op.job.req, |op.done|));
      AllAttemptedRecorded(s, w, hup, a);
    }
  }

  lemma {:induction false} AllAttemptedRecorded(s: State, w: bool, hup: bool, a: Outcome)
    requires IsAll(s.At(w).op.job.operation)
    requires Honest(w, s.At(w).k, Rest(s.At(w).op.job.req, |s.At(w).op.done|), a)
    ensures Recorded(s, AllAttempted(s.Put(w, s.At(w).(k := a.k)), w, hup, a))
    decreases |s.script|, 0, 0, 0, 2
  {
    var op := s.At(w).op;
    var side0 := s.At(w).(k := a.k);
    var done := op.done + a.chunk;
    if a.again {
      QuietStep(w, s.At(w), side0);
      PutRecorded(s, w, side0);
    } else if a.chunk == [] {
      RefusedRecorded(s, w, hup, a);
    } else if |done| >= Want(w, op.job.req) || hup {
      FullRecorded(s, w, hup, a);
    } else {
      GrownRecorded(s, w, a);
    }
  }

  /** A whole-buffer operation whose call was refused ends. */
  lemma {:induction false} RefusedRecorded(s: State, w: bool, hup: bool, a: Outcome)
    requires IsAll(s.At(w).op.job.operation) && !a.again && a.chunk == []
    requires Honest(w, s.At(w).k, Rest(s.At(w).op.job.req, |s.At(w).op.done|), a)
    ensures var op, side := s.At(w).op, s.At(w).(k := a.k);
      var r := if op.done == [] then a.r else |op.done|;
      Recorded(s, Notify(s.Put(w, side).Put(w, Clear(side)), w, Called(op.job, r, op.done, true, hup)))
    decreases |s.script|, 0, 0, 0, 1
  {
    var op, side := s.At(w).op, s.At(w).(k := a.k);
    var r := if op.done == [] then a.r else |op.done|;
    PutPut(s, w, side, Clear(side));
    RefusedStep(w, s.At(w), a.k, a.r, hup);
    NotifyRecorded(s, w, Clear(side), Called(op.job, r, op.done, true, hup));
  }

  /** One that is done, or hung up, ends. */
  lemma {:induction false} FullRecorded(s: State, w: bool, hup: bool, a: Outcome)
    requires IsAll(s.At(w).op.job.operation) && a.chunk != []
    requires Honest(w, s.At(w).k, Rest(s.At(w).op.job.req, |s.At(w).op.done|), a)
    requires |s.At(w).op.done + a.chunk| >= Want(w, s.At(w).op.job.req) || hup
    ensures var side, done := s.At(w).(k := a.k), s.At(w).op.done + a.chunk;
      Recorded(s, Notify(s.Put(w, side).Put(w, Clear(side)), w, Called(side.op.job, |done|, done, true, hup)))
    decreases |s.script|, 0, 0, 0, 1
  {
    var side, done := s.At(w).(k := a.k), s.At(w).op.done + a.chunk;
    var e := Called(side.op.job, |done|, done, true, hup);
    PutPut(s, w, side, Clear(side));
    FullStep(w, s.At(w), Log(Clear(side), e), a.chunk, e);
    NotifyRecorded(s, w, Clear(side), e);
  }

  /** One that still wants more goes on waiting. */
  lemma GrownRecorded(s: State, w: bool, a: Outcome)
    requires IsAll(s.At(w).op.job.operation)
    requires Honest(w, s.At(w).k, Rest(s.At(w).op.job.req, |s.At(w).op.done|), a)
    ensures var side := s.At(w).(k := a.k);
      Recorded(s, s.Put(w, side).Put(w, side.(op := side.op.(done := side.op.done + a.chunk))))
  {
    var side := s.At(w).(k := a.k);
    var side1 := side.(op := side.op.(done := side.op.done + a.chunk));
    DoneGrows(w, s.At(w), a.chunk);
    GrowStep(w, s.At(w), side1, a.chunk);
    PutRecorded(s, w, side1);
    PutPut(s, w, side, side1);
  }

  lemma {:induction false} TryRepeatRecorded(s: State, w: bool, job: Job)
    requires InLoop(s.At(w), job)
    ensures var e := TryRepeat(s, w, job);
      && Recorded(s, e.s)
      && (!e.again ==> Refused(w, e.s.At(w).k, job.req, e.r) && InTurn(e.s.At(w)))
    decreases |s.script|, 1, |s.At(w).k.env|, Avail(w, s.At(w).k), 3
  {
    AttemptProgress(w, s.At(w).k, job.req);
    AttemptHonest(w, s.At(w).k, job.req);
    var side := s.At(w);
    var a := Attempt(w, side.k, job.req);
    var side1 := Crossed(side.(k := a.k), !a.again);
    if a.chunk == [] {
      QuietStep(w, side, side1);
      PutRecorded(s, w, side1);
    } else {
      RepeatChunkRecorded(s, w, job, a, side1);
      var s2 := Notify(s.Put(w, side1), w, Called(job, a.r, a.chunk, false, false));
      TryRepeatRecorded(s2, w, job);
      RecordedTrans(s, s2, TryRepeat(s, w, job).s);
    }
  }

  /** A chunk of the synchronous loop; the loop goes on. */
  lemma {:induction false} RepeatChunkRecorded(s: State, w: bool, job: Job, a: Outcome, side1: Side)
    requires InLoop(s.At(w), job) && Honest(w, s.At(w).k, job.req, a) && a.chunk != []
    requires side1 == Crossed(s.At(w).(k := a.k), true)
    ensures var t := Notify(s.Put(w, side1), w, Called(job, a.r, a.chunk, false, false));
      Recorded(s, t) && InLoop(t.At(w), job)
    decreases |s.script|, 0, 0, 0, 1
  {
    var e := Called(job, a.r, a.chunk, false, false);
    ChunkStep(w, s.At(w), Log(side1, e), e);
    NotifyRecorded(s, w, side1, e);
  }

  /** `job` repeats in a synchronous loop. */
  predicate InLoop(side: Side, job: Job) {
    job.id in side.loops && IsStart(side.log, job) && job.repeat && IsPlain(job.operation)
  }

  /** A callback made now is in its turn, or the side is marked. */
  predicate InTurn(side: Side) {
    side.clash || Pending(side) == []
  }

  lemma {:induction false} ConcludeRecorded(s: State, w: bool, side: Side, job: Job, done: seq<byte>, r: int,
      again: bool)
    requires again ==> SideRecorded(w, s.At(w), Park(side, job, done))
    requires !again ==> SideRecorded(w, s.At(w), Log(side, Called(job, r, done, true, false)))
    ensures Recorded(s, Conclude(s.Put(w, side), w, job, done, r, again))
    decreases |s.script|, 0, 0, 0, 1
  {
    if again {
      PutRecorded(s, w, Park(side, job, done));
      PutPut(s, w, side, Park(side, job, done));
    } else {
      NotifyRecorded(s, w, side, Called(job, r, done, true, false));
    }
  }

  /** Parking without an attempt. */
  lemma ParkedRecorded(s: State, w: bool, job: Job)
    requires !Busy(s.At(w)) && job.operation != NoOp && job.id == |s.At(w).log|
    ensures Recorded(s, s.Put(w, Park(Log(s.At(w), Started(job)), job, [])))
  {
    var a := s.At(w);
    assert Log(a, Started(job)).(k := a.k) == Log(a, Started(job));
    ParkStep(w, a, a.k, job, []);
    PutRecorded(s, w, Park(Log(a, Started(job)), job, []));
  }

  lemma {:induction false} StartPlainRecorded(s: State, w: bool, o: Operations, req: Request, repeat: bool)
    requires IsPlain(o)
    ensures Recorded(s, StartPlain(s, w, o, req, repeat))
    decreases |s.script|, 2, 0, 0, 0
  {
    var side := s.At(w);
    var job := Begin(side, o, req, repeat);
    if !Busy(side) {
      if side.op.skipSync {
        ParkedRecorded(s, w, job);
      } else if repeat {
        StartRepeatRecorded(s, w, job);
      } else {
        AttemptHonest(w, side.k, req);
        StartOnceRecorded(s, w, job, Attempt(w, side.k, req));
      }
    }
  }

  lemma {:induction false} StartOnceRecorded(s: State, w: bool, job: Job, a: Outcome)
    requires IsPlain(job.operation) && !Busy(s.At(w)) && job.id == |s.At(w).log|
    requires Honest(w, s.At(w).k, job.req, a)
    ensures Recorded(s, Conclude(s.Put(w, Log(s.At(w), Started(job)).(k := a.k)), w, job, a.chunk, a.r, a.again))
    decreases |s.script|, 0, 0, 0, 2
  {
    if a.again {
      ParkStep(w, s.At(w), a.k, job, []);
    } else {
      OneAttemptStep(w, s.At(w), job, a);
    }
    ConcludeRecorded(s, w, Log(s.At(w), Started(job)).(k := a.k), job, a.chunk, a.r, a.again);
  }

  lemma OneAttemptStep(w: bool, side: Side, job: Job, a: Outcome)
    requires IsPlain(job.operation) && !Busy(side) && job.id == |side.log|
    requires Honest(w, side.k, job.req, a) && !a.again
    ensures SideRecorded(w, side, Log(Log(side, Started(job)).(k := a.k), Called(job, a.r, a.chunk, true, false)))
  {
    var e := Called(job, a.r, a.chunk, true, false);
    var b := Log(Log(side, Started(job)).(k := a.k), e);
    Regroup(Moved(w, side.k), [], []);
    if a.chunk == [] && LogBytes(b.log) == Moved(w, a.k) {
      EmptyTruthful(w, a.k, b.log, job, a.r, false);
    }
    ImmediateStep(w, side, b, e);
  }

  lemma {:induction false} StartRepeatRecorded(s: State, w: bool, job: Job)
    requires IsPlain(job.operation) && job.repeat && job.id == |s.At(w).log|
    ensures Recorded(s, Repeating(s.Put(w, EnterLoop(s.At(w), job)), w, job, s.At(w).loops))
    decreases |s.script|, 1, |s.At(w).k.env|, Avail(w, s.At(w).k), 5
  {
    var t := s.Put(w, EnterLoop(s.At(w), job));
    EnterLoopStep(w, s.At(w), job);
    PutRecorded(s, w, EnterLoop(s.At(w), job));
    TryRepeatRecorded(t, w, job);
    var e := TryRepeat(t, w, job);
    RecordedTrans(s, t, e.s);
    LeaveLoopRecorded(s, e.s, w, job, e.r, e.again);
  }

  lemma {:induction false} LeaveLoopRecorded(s: State, t: State, w: bool, job: Job, r: int, again: bool)
    requires Recorded(s, t) && Looped(w, s.At(w), t.At(w), job) && IsPlain(job.operation)
    requires !again ==> Refused(w, t.At(w).k, job.req, r) && InTurn(t.At(w))
    ensures Recorded(s, Conclude(t.Put(w, LeaveLoop(t.At(w), s.At(w).loops)), w, job, [], r, again))
    decreases |t.script|, 0, 0, 0, 2
  {
    var a, b := s.At(w), t.At(w);
    var u, side := t.Put(w, a), LeaveLoop(b, a.loops);
    assert u.Put(w, side) == t.Put(w, side);
    if again {
      LoopParkStep(w, a, b, job);
    } else {
      LoopLastStep(w, a, b, job, r);
    }
    ConcludeRecorded(u, w, side, job, [], r, again);
    assert Recorded(s, u);
    RecordedTrans(s, u, Conclude(t.Put(w, side), w, job, [], r, again));
  }

  lemma LoopLastStep(w: bool, a: Side, b: Side, job: Job, r: int)
    requires Looped(w, a, b, job) && Refused(w, b.k, job.req, r) && InTurn(b)
    ensures SideRecorded(w, a, Log(LeaveLoop(b, a.loops), Called(job, r, [], true, false)))
  {
    var e := Called(job, r, [], true, false);
    Appended(b.log, e);
    if LogBytes(b.log + [e]) == Moved(w, b.k) {
      EmptyTruthful(w, b.k, b.log + [e], job, r, false);
    }
    LoopEndStep(w, a, b, e);
  }

  /** What File_tryOperation2 did: it moved exactly `done`, and stopped on EAGAIN, on a
      full buffer, or because the stream stopped. */
  predicate TriedHonestly(w: bool, k: End, req: Request, done: seq<byte>, t: Tried) {
    && Flows(k, t.k)
    && done <= t.done
    && Moved(w, t.k) == Moved(w, k) + t.done[|done|..]
    && |t.done| <= Want(w, req)
    && (w ==> t.done <= req.data)
    && (!t.again ==> t.r == if t.done == [] && Want(w, req) > 0 && t.k.stop == Fail then -1 else |t.done|)
    && (|t.done| < Want(w, req) ==> t.again || (t.k.stop != Open && Avail(w, t.k) == 0))
    && (t.again ==> |t.done| < Want(w, req))
  }

  lemma {:induction false} TryAllMoves(w: bool, k: End, req: Request, done: seq<byte>)
    requires |done| <= Want(w, req) && (w ==> done <= req.data)
    ensures TriedHonestly(w, k, req, done, TryAll(w, k, req, done))
    decreases |k.env|, Avail(w, k)
  {
    if |done| < Want(w, req) {
      var rest := Rest(req, |done|);
      var a := Attempt(w, k, rest);
      AttemptHonest(w, k, rest);
      AttemptProgress(w, k, rest);
      if a.chunk != [] {
        TryAllMoves(w, a.k, req, done + a.chunk);
        TriedLater(w, k, a.k, req, done, a.chunk, TryAll(w, k, req, done));
      }
    }
  }

  lemma TriedLater(w: bool, k: End, k1: End, req: Request, done: seq<byte>, chunk: seq<byte>, t: Tried)
    requires Flows(k, k1) && Moved(w, k1) == Moved(w, k) + chunk
    requires TriedHonestly(w, k1, req, done + chunk, t)
    ensures TriedHonestly(w, k, req, done, t)
  {
    assert t.done[|done|..] == chunk + t.done[|done + chunk|..];
    assert Moved(w, k) + chunk + t.done[|done + chunk|..] == Moved(w, k) + t.done[|done|..];
  }

  lemma {:induction false} StartWholeRecorded(s: State, w: bool, o: Operations, req: Request)
    requires IsAll(o)
    ensures Recorded(s, StartWhole(s, w, o, req))
    decreases |s.script|, 2, 0, 0, 0
  {
    var side := s.At(w);
    var job := Begin(side, o, req, false);
    if !Busy(side) {
      if side.op.skipSync {
        ParkedRecorded(s, w, job);
      } else {
        TryAllMoves(w, side.k, req, []);
        TriedRecorded(s, w, side.clash, job, TryAll(w, side.k, req, []));
      }
    }
  }

  lemma {:induction false} TriedRecorded(s: State, w: bool, clash: bool, job: Job, t: Tried)
    requires IsAll(job.operation) && job.id == |s.At(w).log| && TriedHonestly(w, s.At(w).k, job.req, [], t)
    requires clash == Crossed(s.At(w), true).clash
    requires t.again ==> !Busy(s.At(w))
    ensures Recorded(s, Conclude(s.Put(w, Log(s.At(w).(clash := clash), Started(job)).(k := t.k)), w, job, t.done,
        t.r, t.again))
    decreases |s.script|, 0, 0, 0, 2
  {
    assert t.done[0..] == t.done;
    if t.again {
      Kinds(job.operation);
      ParkStep(w, s.At(w), t.k, job, t.done);
    } else {
      TriedStep(w, s.At(w), clash, job, t);
    }
    ConcludeRecorded(s, w, Log(s.At(w).(clash := clash), Started(job)).(k := t.k), job, t.done, t.r, t.again);
  }

  /** The attempt over a whole buffer ends with its callback. */
  lemma TriedStep(w: bool, a: Side, clash: bool, job: Job, t: Tried)
    requires IsAll(job.operation) && job.id == |a.log| && TriedHonestly(w, a.k, job.req, [], t) && !t.again
    requires clash == Crossed(a, true).clash
    ensures var e := Called(job, t.r, t.done, true, false);
      SideRecorded(w, a, Log(Log(a.(clash := clash), Started(job)).(k := t.k), e))
  {
    var e := Called(job, t.r, t.done, true, false);
    assert t.done[0..] == t.done;
    TriedTruthful(w, a.log + [Started(job)], job, t);
    ImmediateStep(w, a, Log(Log(a.(clash := clash), Started(job)).(k := t.k), e), e);
  }

  lemma TriedTruthful(w: bool, log: seq<Entry>, job: Job, t: Tried)
    requires IsAll(job.operation) && !t.again && |t.done| <= Want(w, job.req) && (w ==> t.done <= job.req.data)
    requires t.r == if t.done == [] && Want(w, job.req) > 0 && t.k.stop == Fail then -1 else |t.done|
    requires |t.done| < Want(w, job.req) ==> t.k.stop != Open && Avail(w, t.k) == 0
    ensures var log1 := log + [Called(job, t.r, t.done, true, false)];
      LogBytes(log1) == Moved(w, t.k) ==> LastTruthful(w, t.k, log1)
  {
  }

  lemma {:induction false} StartWholeMsgRecorded(s: State, w: bool, o: Operations, req: Request)
    requires IsAll(o)
    ensures Recorded(s, StartWholeMsg(s, w, o, req))
    decreases |s.script|, 2, 0, 0, 0
  {
    var side := s.At(w);
    var t := TryAll(w, side.k, req, []);
    TryAllMoves(w, side.k, req, []);
    if t.again && Busy(side) {
      var side1 := side.(k := t.k, clash := side.clash || t.done != []);
      assert t.done[0..] == t.done && Moved(w, side.k) + [] == Moved(w, side.k);
      DropStep(w, side, side1);
      PutRecorded(s, w, side1);
    } else {
      TriedRecorded(s, w, Crossed(side, true).clash, Begin(side, o, req, false), t);
    }
  }

  lemma {:induction false} StartWholeVecRecorded(s: State, w: bool, o: Operations, req: Request)
    requires IsAll(o)
    ensures Recorded(s, StartWholeVec(s, w, o, req))
    decreases |s.script|, 2, 0, 0, 0
  {
    var a := s.At(w);
    var job := Begin(a, o, req, false);
    var side := Park(Log(a, Started(job)), job, []);
    if Busy(a) {
      TakeOverStep(w, a, job);
      PutRecorded(s, w, side);
    } else {
      ParkedRecorded(s, w, job);
    }
    if !side.op.skipSync {
      DoOperationRecorded(s.Put(w, side), w, false);
      RecordedTrans(s, s.Put(w, side), StartWholeVec(s, w, o, req));
    }
  }

  lemma {:induction false} ExecRecorded(s: State, c: Command)
    ensures Recorded(s, Exec(s, c))
    decreases |s.script|, 2, 1, 0, 0
  {
    match c
    case Start(w, shape, req, repeat) => StartPlainRecorded(s, w, Opcode(w, shape), req, repeat);
    case StartAll(w, shape, req) =>
      match shape {
        case Rw => StartWholeRecorded(s, w, OpcodeAll(w, shape), req);
        case Msg => StartWholeMsgRecorded(s, w, OpcodeAll(w, shape), req);
        case Vec => StartWholeVecRecorded(s, w, OpcodeAll(w, shape), req);
      }
    case _ => RestRecorded(s, c);
  }

  lemma RestRecorded(s: State, c: Command)
    requires !c.Start? && !c.StartAll?
    ensures Recorded(s, Exec(s, c))
  {
    match c
    case WaitOn(w) =>
      if !Busy(s.At(w)) {
        ParkedRecorded(s, w, Begin(s.At(w), Wait, Request([], 0), false));
      }
    case Cancel(w) =>
      CancelStep(w, s.At(w));
      PutRecorded(s, w, CancelOp(s.At(w)));
    case Add => ArmedRecorded(s, Exec(s, c));
    case Remove => ArmedRecorded(s, Exec(s, c));
    case Happens(w, event) =>
      RaiseEvolves(w, s.At(w).k, event);
      QuietStep(w, s.At(w), s.At(w).(k := Raise(w, s.At(w).k, event)));
      PutRecorded(s, w, s.At(w).(k := Raise(w, s.At(w).k, event)));
  }

  lemma ArmedRecorded(s: State, t: State)
    requires t == Exec(s, Add) || t == Exec(s, Remove)
    ensures Recorded(s, t)
  {
    QuietStep(false, s.rd, t.rd);
    QuietStep(true, s.wr, t.wr);
  }

  lemma HandleHupRan(s: State, w: bool)
    ensures Ran(s, HandleHup(s, w))
  {
    var op := s.At(w).op;
    var r := if w then -1 else 0;
    if Code(Read) <= Code(op.job.operation) <= Code(SendFileFrom) {
      var e := Called(op.job, r, [], true, true);
      HupPlainRan(s, w, e, r, Notify(s.Put(w, Clear(s.At(w))), w, e));
    } else if op.job.operation != NoOp {
      HupAllRan(s, w, r);
    }
  }

  lemma HupPlainRan(s: State, w: bool, e: Entry, r: int, t: State)
    requires IsPlain(s.At(w).op.job.operation) && r <= 0 && e == Called(s.At(w).op.job, r, [], true, true)
    requires t == Notify(s.Put(w, Clear(s.At(w))), w, e)
    ensures Ran(s, HupAll(t, w, r))
  {
    EmptyStep(w, s.At(w), s.At(w).k, r, true);
    NotifyRecorded(s, w, Clear(s.At(w)), e);
    HupAllRan(t, w, r);
    RanTrans(s, t, HupAll(t, w, r));
  }

  lemma HupAllRan(s: State, w: bool, r: int)
    requires r <= 0
    ensures Ran(s, HupAll(s, w, r))
  {
    var op := s.At(w).op;
    if Code(ReadAll) <= Code(op.job.operation) <= Code(RecvAll) {
      var e := Called(op.job, if op.done == [] then r else |op.done|, op.done, true, true);
      HupCallRan(s, w, e, r, Notify(s.Put(w, Clear(s.At(w))), w, e));
    }
  }

  /** The first callback of handleHup for readAll to recvAll, and the second one. */
  lemma HupCallRan(s: State, w: bool, e: Entry, r: int, t: State)
    requires Code(ReadAll) <= Code(s.At(w).op.job.operation) <= Code(RecvAll) && r <= 0
    requires var op := s.At(w).op;
      e == Called(op.job, if op.done == [] then r else |op.done|, op.done, true, true)
    requires t == Notify(s.Put(w, Clear(s.At(w))), w, e)
    ensures Recorded(s, t)
    ensures s.At(w).op.done != [] ==>
              Ran(s, Notify(t, w, Again(s.At(w).op.job.id, r, t.At(w).op.job.id)))
  {
    HupFirstRecorded(s, w, e, r, t);
    if s.At(w).op.done != [] {
      CutShortBy(s.At(w).op, e);
      AgainRan(s, t, w, e, r);
    }
  }

  lemma CutShortBy(op: OperationInfo, e: Entry)
    requires Code(ReadAll) <= Code(op.job.operation) <= Code(RecvAll) && op.done != []
    requires e == Called(op.job, |op.done|, op.done, true, true)
    ensures op.job.operation != NoOp && HupPart(e, op.job.id)
  {
  }

  lemma HupFirstRecorded(s: State, w: bool, e: Entry, r: int, t: State)
    requires IsAll(s.At(w).op.job.operation) && r <= 0
    requires var op := s.At(w).op;
      e == Called(op.job, if op.done == [] then r else |op.done|, op.done, true, true)
    requires t == Notify(s.Put(w, Clear(s.At(w))), w, e)
    ensures Recorded(s, t) && SideRecorded(w, Log(Clear(s.At(w)), e), t.At(w))
  {
    HupAllStep(w, s.At(w), r);
    NotifyRecorded(s, w, Clear(s.At(w)), e);
    NotifyAfter(s.Put(w, Clear(s.At(w))), w, e);
  }

  /** What follows the entry of a callback in the log. */
  lemma NotifyAfter(s: State, w: bool, e: Entry)
    ensures SideRecorded(w, Log(s.At(w), e), Notify(s, w, e).At(w))
  {
    var s1 := s.Put(w, Log(s.At(w), e));
    if s1.script != [] {
      RunCommandsRecorded(s1.(script := s1.script[1..]), s1.script[0]);
    }
  }

  lemma AgainRan(s: State, t: State, w: bool, e: Entry, r: int)
    requires Recorded(s, t) && Busy(s.At(w)) && HupPart(e, s.At(w).op.job.id)
    requires SideRecorded(w, Log(Clear(s.At(w)), e), t.At(w))
    ensures Ran(s, Notify(t, w, Again(s.At(w).op.job.id, r, t.At(w).op.job.id)))
  {
    var g := Again(s.At(w).op.job.id, r, t.At(w).op.job.id);
    AgainStep(w, s.At(w), t.At(w), e, r);
    var t1 := t.Put(w, Log(t.At(w), g));
    assert Ran(s, t1);
    if t1.script != [] {
      RunCommandsRecorded(t1.(script := t1.script[1..]), t1.script[0]);
      RanTrans(s, t1.(script := t1.script[1..]), Notify(t, w, g));
    }
  }

  lemma HupAllStep(w: bool, side: Side, r: int)
    requires IsAll(side.op.job.operation) && r <= 0
    ensures var op := side.op;
      SideRecorded(w, side, Log(Clear(side), Called(op.job, if op.done == [] then r else |op.done|, op.done, true,
          true)))
  {
    var op := side.op;
    var e := Called(op.job, if op.done == [] then r else |op.done|, op.done, true, true);
    Regroup(op.done, [], []);
    Regroup(Moved(w, side.k), [], []);
    FinishStep(w, side, Log(Clear(side), e), [], e);
  }

  lemma DispatchRan(s: State)
    ensures Ran(s, Dispatch(s))
  {
    var s1 := DispatchRead(s);
    DispatchReadRan(s);
    if !s1.aborted {
      DispatchWriteRan(s1);
      RanTrans(s, s1, DispatchWrite(s1));
    }
  }

  lemma HandedRecorded(s: State, w: bool, hup: bool)
    ensures Recorded(s, DoOperation(Undue(s, w), w, hup))
  {
    var s0 := Undue(s, w);
    QuietStep(w, s.At(w), s0.At(w));
    PutRecorded(s, w, s0.At(w));
    DoOperationRecorded(s0, w, hup);
    RecordedTrans(s, s0, DoOperation(s0, w, hup));
  }

  lemma DispatchReadRan(s: State)
    ensures Ran(s, DispatchRead(s))
  {
    HandleHupRan(s, false);
    HandedRecorded(s, false, s.events.err || s.events.hup);
  }

  lemma DispatchWriteRan(s: State)
    ensures Ran(s, DispatchWrite(s))
  {
    HandleHupRan(s, true);
    HandedRecorded(s, true, s.events.err);
  }

  lemma NextRan(s: State, step: Step)
    ensures Ran(s, Next(s, step))
  {
    match step
    case Do(c) => ExecRecorded(s, c);
    case Collect(extra) => CollectRan(s, CollectEdges(s, extra), extra);
    case Deliver =>
      DispatchRan(s);
      EntryGone(s, Dispatch(s));
  }

  lemma CollectRan(s: State, t: State, extra: Mask)
    requires t == CollectEdges(s, extra)
    ensures Ran(s, t)
  {
    QuietStep(false, s.rd, t.rd);
    QuietStep(true, s.wr, t.wr);
  }

  /** Clearing the batch entry records nothing. */
  lemma EntryGone(s: State, t: State)
    requires Ran(s, t)
    ensures Ran(s, t.(noted := false, events := NO_EVENTS))
  {
  }

  lemma {:induction false} RunRan(s: State, steps: seq<Step>)
    ensures Ran(s, Run(s, steps))
    decreases |steps|
  {
    if steps != [] {
      NextRan(s, steps[0]);
      RunRan(Next(s, steps[0]), steps[1..]);
      RanTrans(s, Next(s, steps[0]), Run(s, steps));
    }
  }
}
