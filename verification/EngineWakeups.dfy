/** No lost wakeup: an operation waits in a slot, or a synchronous attempt is skipped,
    only while the kernel side is exhausted or an edge for it is on its way. */
module EngineWakeups {
  import opened Kernel
  import opened Engine

  predicate SkipCalm(w: bool, side: Side) {
    side.op.skipSync ==> Served(w, side.k)
  }

  /** The wakeup invariant of one side. `wait` parks without an attempt, so it is not
      covered. */
  predicate Calm(w: bool, side: Side) {
    && SkipCalm(w, side)
    && (Busy(side) && side.op.job.operation != Wait ==> Served(w, side.k))
  }

  predicate SideKept(w: bool, a: Side, b: Side) {
    && (Served(w, a.k) ==> Served(w, b.k))
    && (SkipCalm(w, a) ==> SkipCalm(w, b))
    && (Calm(w, a) ==> Calm(w, b))
    && (b.k.due ==> a.k.due)
    && a.k.pos <= b.k.pos
    && |a.k.stream| <= |b.k.stream|
  }

  /** What every call into the engine keeps, on both sides. */
  predicate Kept(s: State, t: State) {
    && (forall w: bool :: SideKept(w, s.At(w), t.At(w)))
    && ((t.events == s.events && t.noted == s.noted) || (t.events == NO_EVENTS && !t.rd.k.due && !t.wr.k.due))
  }

  lemma BothKept(s: State, t: State)
    requires Kept(s, t)
    ensures SideKept(false, s.rd, t.rd) && SideKept(true, s.wr, t.wr)
  {
    assert SideKept(false, s.At(false), t.At(false)) && SideKept(true, s.At(true), t.At(true));
  }

  lemma KeptTrans(s: State, t: State, u: State)
    requires Kept(s, t) && Kept(t, u)
    ensures Kept(s, u)
  {
    BothKept(t, u);
  }

  lemma PutKept(s: State, w: bool, side: Side)
    requires SideKept(w, s.At(w), side)
    ensures Kept(s, s.Put(w, side))
  {
  }

  /** In addition, side `w` is calm afterwards unless the run ended in assert(false). */
  predicate Settled(s: State, t: State, w: bool) {
    Kept(s, t) && (t.aborted || Calm(w, t.At(w)))
  }

  lemma SettledAfter(s: State, t: State, u: State, w: bool)
    requires Kept(s, t) && Settled(t, u, w)
    ensures Settled(s, u, w)
  {
    KeptTrans(s, t, u);
  }

  lemma {:induction false} NotifyKept(s: State, w: bool, e: Entry)
    ensures Kept(s, Notify(s, w, e))
    decreases |s.script|, 0, 0, 0, 0
  {
    var s1 := s.Put(w, Log(s.At(w), e));
    if s1.script != [] {
      RunCommandsKept(s1.(script := s1.script[1..]), s1.script[0]);
    }
  }

  lemma {:induction false} RunCommandsKept(s: State, commands: seq<Command>)
    ensures Kept(s, RunCommands(s, commands))
    decreases |s.script|, 3, |commands|, 0, 0
  {
    if commands != [] {
      ExecKept(s, commands[0]);
      RunCommandsKept(Exec(s, commands[0]), commands[1..]);
      KeptTrans(s, Exec(s, commands[0]), RunCommands(s, commands));
    }
  }

  /** doOperation settles its side, whatever state it found it in: afterwards nothing
      waits there with data available and no edge coming. */
  lemma {:induction false} DoOperationKept(s: State, w: bool, hup: bool)
    ensures Settled(s, DoOperation(s, w, hup), w)
    ensures !IsPlain(s.At(w).op.job.operation) ==> Calm(w, DoOperation(s, w, hup).At(w))
    decreases |s.script|, 1, |s.At(w).k.env|, Avail(w, s.At(w).k), 7
  {
    var s1 := s.Put(w, Skip(s.At(w), false));
    PutKept(s, w, Skip(s.At(w), false));
    if IsPlain(s.At(w).op.job.operation) {
      PlainOperationKept(s1, w, hup);
    } else {
      AllOperationKept(s1, w, hup);
    }
    SettledAfter(s, s1, DoOperation(s, w, hup), w);
  }

  lemma {:induction false} PlainOperationKept(s: State, w: bool, hup: bool)
    requires SkipCalm(w, s.At(w)) && IsPlain(s.At(w).op.job.operation)
    ensures Settled(s, PlainOperation(s, w, hup), w)
    decreases |s.script|, 1, |s.At(w).k.env|, Avail(w, s.At(w).k), 4
  {
    var side := s.At(w);
    var op := side.op;
    if op.job.operation == Wait {
      ClearedKept(s, w, Called(op.job, 0, [], true, hup));
    } else {
      var a := Attempt(w, side.k, op.job.req);
      AttemptHonest(w, side.k, op.job.req);
      AttemptProgress(w, side.k, op.job.req);
      var s1 := s.Put(w, side.(k := a.k));
      PutKept(s, w, side.(k := a.k));
      PlainAttemptedKept(s1, w, hup, a);
      SettledAfter(s, s1, PlainOperation(s, w, hup), w);
    }
  }

  lemma {:induction false} PlainAttemptedKept(s: State, w: bool, hup: bool, a: Outcome)
    requires SkipCalm(w, s.At(w)) && IsPlain(s.At(w).op.job.operation) && s.At(w).op.job.operation != Wait
    requires a.again || |a.chunk| < Want(w, s.At(w).op.job.req) ==> Served(w, s.At(w).k)
    ensures Settled(s, PlainAttempted(s, w, hup, a), w)
    decreases |s.script|, 1, |s.At(w).k.env|, Avail(w, s.At(w).k), if a.chunk == [] then 3 else 8
  {
    var op := s.At(w).op;
    if a.again {
    } else if a.chunk == [] {
      ClearedKept(s, w, Called(op.job, a.r, [], true, hup));
    } else {
      DeliveredKept(s, w, hup, a.chunk);
    }
  }

  /** Emptying the slot and calling back leaves a calm side, given the skip flag is. */
  lemma {:induction false} ClearedKept(s: State, w: bool, e: Entry)
    requires SkipCalm(w, s.At(w))
    ensures var t := Notify(s.Put(w, Clear(s.At(w))), w, e);
      Kept(s, t) && Calm(w, t.At(w))
    decreases |s.script|, 0, 0, 0, 1
  {
    var s1 := s.Put(w, Clear(s.At(w)));
    PutKept(s, w, Clear(s.At(w)));
    NotifyKept(s1, w, e);
    KeptTrans(s, s1, Notify(s1, w, e));
    assert Calm(w, s1.At(w));
  }

  lemma {:induction false} DeliveredKept(s: State, w: bool, hup: bool, chunk: seq<byte>)
    requires SkipCalm(w, s.At(w)) && IsPlain(s.At(w).op.job.operation) && s.At(w).op.job.operation != Wait
    requires |chunk| < Want(w, s.At(w).op.job.req) ==> Served(w, s.At(w).k)
    ensures Settled(s, Delivered(s, w, hup, chunk), w)
    decreases |s.script|, 1, |s.At(w).k.env|, Avail(w, s.At(w).k), 6
  {
    var op := s.At(w).op;
    var shortRead := |chunk| < Want(w, op.job.req);
    if op.job.repeat {
      var e := Called(op.job, |chunk|, chunk, false, hup);
      var s1 := Notify(s, w, e);
      NotifyKept(s, w, e);
      AfterChunkKept(s1, w, hup, op.job.operation, shortRead);
      SettledAfter(s, s1, AfterChunk(s1, w, hup, op.job.operation, shortRead), w);
    } else {
      LastChunkKept(s, w, shortRead && !hup, Called(op.job, |chunk|, chunk, true, hup));
    }
  }

  /** The only transfer of a one-shot operation; a short one sets the skip flag. */
  lemma {:induction false} LastChunkKept(s: State, w: bool, skip: bool, e: Entry)
    requires SkipCalm(w, s.At(w)) && (skip ==> Served(w, s.At(w).k))
    ensures var side := if skip then Skip(Clear(s.At(w)), true) else Clear(s.At(w));
      Settled(s, Notify(s.Put(w, side), w, e), w)
    decreases |s.script|, 0, 0, 0, 2
  {
    if skip {
      var side0 := Skip(s.At(w), true);
      PutKept(s, w, side0);
      PutPut(s, w, side0, Clear(side0));
      ClearedKept(s.Put(w, side0), w, e);
      KeptTrans(s, s.Put(w, side0), Notify(s.Put(w, Clear(side0)), w, e));
    } else {
      ClearedKept(s, w, e);
    }
  }

  lemma {:induction false} AfterChunkKept(s: State, w: bool, hup: bool, opType: Operations, shortRead: bool)
    requires SkipCalm(w, s.At(w)) && IsPlain(opType)
    requires shortRead ==> Served(w, s.At(w).k)
    ensures Settled(s, AfterChunk(s, w, hup, opType, shortRead), w)
    decreases |s.script|, 1, |s.At(w).k.env|, Avail(w, s.At(w).k), 5
  {
    var side := s.At(w);
    if side.op.job.operation == opType {
      if hup {
        ClearedKept(s, w, Called(side.op.job, if w then -1 else 0, [], true, true));
      } else if shortRead {
      } else {
        PlainOperationKept(s, w, hup);
      }
    } else if shortRead && !hup {
      SkippingKept(s, w, hup);
    } else {
      AllOperationKept(s, w, hup);
    }
  }

  /** The whole-buffer part, after a short transfer. */
  lemma {:induction false} SkippingKept(s: State, w: bool, hup: bool)
    requires Served(w, s.At(w).k)
    ensures Settled(s, AllOperation(s.Put(w, Skip(s.At(w), true)), w, hup), w)
    decreases |s.script|, 1, |s.At(w).k.env|, Avail(w, s.At(w).k), 4
  {
    var s1 := s.Put(w, Skip(s.At(w), true));
    PutKept(s, w, Skip(s.At(w), true));
    AllOperationKept(s1, w, hup);
    SettledAfter(s, s1, AllOperation(s1, w, hup), w);
  }

  lemma {:induction false} AllOperationKept(s: State, w: bool, hup: bool)
    requires SkipCalm(w, s.At(w))
    ensures Settled(s, AllOperation(s, w, hup), w)
    ensures !IsPlain(s.At(w).op.job.operation) ==> Calm(w, AllOperation(s, w, hup).At(w))
    decreases |s.script|, 1, |s.At(w).k.env|, Avail(w, s.At(w).k), 3
  {
    var op := s.At(w).op;
    if IsAll(op.job.operation) {
      var a := Attempt(w, s.At(w).k, Rest(op.job.req, |op.done|));
      AttemptHonest(w, s.At(w).k, Rest(op.job.req, |op.done|));
      AllCalledKept(s, w, hup, a);
    } else {
      NotAllKept(s, w, hup, AllOperation(s, w, hup));
    }
  }

  /** Nothing is there for the whole-buffer part: it does nothing, or aborts. */
  lemma NotAllKept(s: State, w: bool, hup: bool, t: State)
    requires SkipCalm(w, s.At(w)) && !IsAll(s.At(w).op.job.operation) && t == AllOperation(s, w, hup)
    ensures Settled(s, t, w) && (!IsPlain(s.At(w).op.job.operation) ==> Calm(w, t.At(w)))
  {
    Kinds(s.At(w).op.job.operation);
  }

  lemma {:induction false} AllCalledKept(s: State, w: bool, hup: bool, a: Outcome)
    requires SkipCalm(w, s.At(w)) && IsAll(s.At(w).op.job.operation)
    requires Honest(w, s.At(w).k, Rest(s.At(w).op.job.req, |s.At(w).op.done|), a)
    ensures var t := AllAttempted(s.Put(w, s.At(w).(k := a.k)), w, hup, a);
      Settled(s, t, w) && Calm(w, t.At(w))
    decreases |s.script|, 0, 0, 0, 3
  {
    var side := s.At(w).(k := a.k);
    PutKept(s, w, side);
    AllAttemptedKept(s.Put(w, side), w, hup, a);
    SettledAfter(s, s.Put(w, side), AllAttempted(s.Put(w, side), w, hup, a), w);
  }

  lemma {:induction false} AllAttemptedKept(s: State, w: bool, hup: bool, a: Outcome)
    requires SkipCalm(w, s.At(w)) && IsAll(s.At(w).op.job.operation)
    requires a.again ==> Served(w, s.At(w).k)
    requires |a.chunk| < Want(w, Rest(s.At(w).op.job.req, |s.At(w).op.done|)) ==> Served(w, s.At(w).k)
    ensures Settled(s, AllAttempted(s, w, hup, a), w)
    ensures Calm(w, AllAttempted(s, w, hup, a).At(w))
    decreases |s.script|, 0, 0, 0, 2
  {
    var side := s.At(w);
    var op := side.op;
    var done := op.done + a.chunk;
    if a.again {
    } else if a.chunk == [] {
      ClearedKept(s, w, Called(op.job, if op.done == [] then a.r else |op.done|, op.done, true, hup));
    } else if |done| >= Want(w, op.job.req) || hup {
      ClearedKept(s, w, Called(op.job, |done|, done, true, hup));
    } else {
      PutKept(s, w, side.(op := op.(done := done)));
    }
  }

  lemma {:induction false} TryRepeatKept(s: State, w: bool, job: Job)
    ensures var e := TryRepeat(s, w, job);
      Kept(s, e.s) && (e.again ==> Served(w, e.s.At(w).k))
    decreases |s.script|, 1, |s.At(w).k.env|, Avail(w, s.At(w).k), 3
  {
    AttemptProgress(w, s.At(w).k, job.req);
    AttemptHonest(w, s.At(w).k, job.req);
    var a := Attempt(w, s.At(w).k, job.req);
    var side1 := Crossed(s.At(w).(k := a.k), !a.again);
    var s1 := s.Put(w, side1);
    PutKept(s, w, side1);
    if a.chunk != [] {
      var e := Called(job, a.r, a.chunk, false, false);
      var s2 := Notify(s1, w, e);
      NotifyKept(s1, w, e);
      KeptTrans(s, s1, s2);
      TryRepeatKept(s2, w, job);
      KeptTrans(s, s2, TryRepeat(s, w, job).s);
    }
  }

  /** Parking is calm when the kernel side is served, and so is parking on the strength
      of a truthful skip flag. */
  lemma ParkKept(s: State, w: bool, side: Side, job: Job, done: seq<byte>)
    requires SideKept(w, s.At(w), side)
    requires Served(w, side.k) || side.op.skipSync || job.operation == Wait
    ensures Kept(s, s.Put(w, Park(side, job, done)))
  {
    PutKept(s, w, Park(side, job, done));
  }

  lemma {:induction false} ConcludeKept(s: State, t: State, w: bool, job: Job, done: seq<byte>, r: int, again: bool)
    requires Kept(s, t) && (again ==> Served(w, t.At(w).k))
    ensures Kept(s, Conclude(t, w, job, done, r, again))
    decreases |t.script|, 0, 0, 0, 1
  {
    if again {
      ParkKept(t, w, t.At(w), job, done);
    } else {
      NotifyKept(t, w, Called(job, r, done, true, false));
    }
    KeptTrans(s, t, Conclude(t, w, job, done, r, again));
  }

  lemma {:induction false} StartPlainKept(s: State, w: bool, o: Operations, req: Request, repeat: bool)
    ensures Kept(s, StartPlain(s, w, o, req, repeat))
    decreases |s.script|, 2, 0, 0, 0
  {
    var side := s.At(w);
    var job := Begin(side, o, req, repeat);
    if !Busy(side) {
      if side.op.skipSync {
        ParkKept(s, w, Log(side, Started(job)), job, []);
      } else if repeat {
        StartRepeatKept(s, w, job);
      } else {
        AttemptHonest(w, side.k, req);
        StartOnceKept(s, w, job, Attempt(w, side.k, req));
      }
    }
  }

  lemma {:induction false} StartOnceKept(s: State, w: bool, job: Job, a: Outcome)
    requires Honest(w, s.At(w).k, job.req, a)
    ensures Kept(s, Conclude(s.Put(w, Log(s.At(w), Started(job)).(k := a.k)), w, job, a.chunk, a.r, a.again))
    decreases |s.script|, 0, 0, 0, 3
  {
    AttemptedKept(s, w, Log(s.At(w), Started(job)).(k := a.k), job, a.chunk, a.r, a.again);
  }

  lemma {:induction false} StartRepeatKept(s: State, w: bool, job: Job)
    ensures Kept(s, Repeating(s.Put(w, EnterLoop(s.At(w), job)), w, job, s.At(w).loops))
    decreases |s.script|, 1, |s.At(w).k.env|, Avail(w, s.At(w).k), 4
  {
    var s0 := s.Put(w, EnterLoop(s.At(w), job));
    PutKept(s, w, EnterLoop(s.At(w), job));
    TryRepeatKept(s0, w, job);
    var e := TryRepeat(s0, w, job);
    KeptTrans(s, s0, e.s);
    LeftLoopKept(s, e.s, w, job, s.At(w).loops, e.r, e.again);
  }

  lemma {:induction false} LeftLoopKept(s: State, t: State, w: bool, job: Job, outer: set<nat>, r: int, again: bool)
    requires Kept(s, t) && (again ==> Served(w, t.At(w).k))
    ensures Kept(s, Conclude(t.Put(w, LeaveLoop(t.At(w), outer)), w, job, [], r, again))
    decreases |t.script|, 0, 0, 0, 2
  {
    var t1 := t.Put(w, LeaveLoop(t.At(w), outer));
    PutKept(t, w, LeaveLoop(t.At(w), outer));
    KeptTrans(s, t, t1);
    ConcludeKept(s, t1, w, job, [], r, again);
  }

  lemma {:induction false} AttemptedKept(s: State, w: bool, side: Side, job: Job, done: seq<byte>, r: int,
      again: bool)
    requires SideKept(w, s.At(w), side) && (again ==> Served(w, side.k))
    ensures Kept(s, Conclude(s.Put(w, side), w, job, done, r, again))
    decreases |s.script|, 0, 0, 0, 2
  {
    PutKept(s, w, side);
    ConcludeKept(s, s.Put(w, side), w, job, done, r, again);
  }

  lemma {:induction false} TryAllHonest(w: bool, k: End, req: Request, done: seq<byte>)
    ensures var t := TryAll(w, k, req, done);
      Evolves(w, k, t.k) && (t.again ==> Avail(w, t.k) == 0)
    decreases |k.env|, Avail(w, k)
  {
    if |done| < Want(w, req) {
      var a := Attempt(w, k, Rest(req, |done|));
      AttemptHonest(w, k, Rest(req, |done|));
      AttemptProgress(w, k, Rest(req, |done|));
      if a.chunk != [] {
        TryAllHonest(w, a.k, req, done + a.chunk);
        EvolvesTrans(w, k, a.k, TryAll(w, k, req, done).k);
      }
    }
  }

  lemma {:induction false} StartWholeKept(s: State, w: bool, o: Operations, req: Request)
    ensures Kept(s, StartWhole(s, w, o, req))
    decreases |s.script|, 2, 0, 0, 0
  {
    var side := s.At(w);
    var job := Begin(side, o, req, false);
    if !Busy(side) {
      if side.op.skipSync {
        ParkKept(s, w, Log(side, Started(job)), job, []);
      } else {
        var t := TryAll(w, side.k, req, []);
        TryAllHonest(w, side.k, req, []);
        AttemptedKept(s, w, Log(side, Started(job)).(k := t.k), job, t.done, t.r, t.again);
      }
    }
  }

  lemma {:induction false} StartWholeMsgKept(s: State, w: bool, o: Operations, req: Request)
    ensures Kept(s, StartWholeMsg(s, w, o, req))
    decreases |s.script|, 2, 0, 0, 0
  {
    var side := s.At(w);
    var job := Begin(side, o, req, false);
    var t := TryAll(w, side.k, req, []);
    TryAllHonest(w, side.k, req, []);
    if t.again && Busy(side) {
      PutKept(s, w, side.(k := t.k, clash := side.clash || t.done != []));
    } else {
      AttemptedKept(s, w, Log(Crossed(side, true), Started(job)).(k := t.k), job, t.done, t.r, t.again);
    }
  }

  lemma {:induction false} StartWholeVecKept(s: State, w: bool, o: Operations, req: Request)
    requires IsAll(o)
    ensures Kept(s, StartWholeVec(s, w, o, req))
    decreases |s.script|, 2, 0, 0, 0
  {
    var job := Begin(s.At(w), o, req, false);
    var entered := Log(s.At(w), Started(job));
    var side := Park(entered, job, []);
    if side.op.skipSync {
      ParkKept(s, w, entered, job, []);
    } else {
      TakenKept(s, s.Put(w, side), w);
    }
  }

  /** The slot is taken over, whatever it held, and doOperation settles the side. */
  lemma {:induction false} TakenKept(s: State, t: State, w: bool)
    requires t == s.Put(w, t.At(w)) && t.At(w).k == s.At(w).k && !IsPlain(t.At(w).op.job.operation)
    requires t.At(w).op.skipSync == s.At(w).op.skipSync
    ensures Kept(s, DoOperation(t, w, false))
    decreases |t.script|, 1, |t.At(w).k.env|, Avail(w, t.At(w).k), 8
  {
    var u := DoOperation(t, w, false);
    DoOperationKept(t, w, false);
    BothKept(t, u);
    forall d: bool ensures SideKept(d, s.At(d), u.At(d)) {
      assert SideKept(d, t.At(d), u.At(d));
    }
  }

  lemma ArmedKept(s: State, t: State)
    requires t == Exec(s, Add) || t == Exec(s, Remove)
    ensures Kept(s, t)
  {
    ArmEvolves(false, s.rd.k);
    ArmEvolves(true, s.wr.k);
    forall w: bool ensures SideKept(w, s.At(w), t.At(w)) {
    }
  }

  lemma {:induction false} ExecKept(s: State, c: Command)
    ensures Kept(s, Exec(s, c))
    decreases |s.script|, 2, 1, 0, 0
  {
    match c
    case Start(w, shape, req, repeat) => StartPlainKept(s, w, Opcode(w, shape), req, repeat);
    case StartAll(w, shape, req) =>
      match shape {
        case Rw => StartWholeKept(s, w, OpcodeAll(w, shape), req);
        case Msg => StartWholeMsgKept(s, w, OpcodeAll(w, shape), req);
        case Vec => StartWholeVecKept(s, w, OpcodeAll(w, shape), req);
      }
    case WaitOn(w) =>
      if !Busy(s.At(w)) {
        var job := Begin(s.At(w), Wait, Request([], 0), false);
        ParkKept(s, w, Log(s.At(w), Started(job)), job, []);
      }
    case Cancel(w) => PutKept(s, w, CancelOp(s.At(w)));
    case Add => ArmedKept(s, Exec(s, c));
    case Remove => ArmedKept(s, Exec(s, c));
    case Happens(w, event) =>
      RaiseEvolves(w, s.At(w).k, event);
      PutKept(s, w, s.At(w).(k := Raise(w, s.At(w).k, event)));
  }

  lemma ClearNotifyKept(s: State, w: bool, e: Entry)
    ensures Kept(s, Notify(s.Put(w, Clear(s.At(w))), w, e))
  {
    var s1 := s.Put(w, Clear(s.At(w)));
    PutKept(s, w, Clear(s.At(w)));
    NotifyKept(s1, w, e);
    KeptTrans(s, s1, Notify(s1, w, e));
  }

  lemma HandleHupKept(s: State, w: bool)
    ensures Kept(s, HandleHup(s, w))
  {
    var op := s.At(w).op;
    var r := if w then -1 else 0;
    if op.job.operation == NoOp {
    } else if Code(Read) <= Code(op.job.operation) <= Code(SendFileFrom) {
      var e := Called(op.job, r, [], true, true);
      ClearNotifyKept(s, w, e);
      HupAllKept(Notify(s.Put(w, Clear(s.At(w))), w, e), w, r);
      KeptTrans(s, Notify(s.Put(w, Clear(s.At(w))), w, e), HandleHup(s, w));
    } else {
      HupAllKept(s, w, r);
    }
  }

  lemma HupAllKept(s: State, w: bool, r: int)
    ensures Kept(s, HupAll(s, w, r))
  {
    var op := s.At(w).op;
    if Code(ReadAll) <= Code(op.job.operation) <= Code(RecvAll) {
      if op.done != [] {
        var e := Called(op.job, |op.done|, op.done, true, true);
        var s1 := Notify(s.Put(w, Clear(s.At(w))), w, e);
        ClearNotifyKept(s, w, e);
        NotifyKept(s1, w, Again(op.job.id, r, s1.At(w).op.job.id));
        KeptTrans(s, s1, HupAll(s, w, r));
      } else {
        ClearNotifyKept(s, w, Called(op.job, r, [], true, true));
      }
    }
  }

  /** Between two steps of the main loop: both sides are calm, and a collected edge is
      still in the batch entry of the descriptor. */
  predicate Quiet(s: State) {
    && Calm(false, s.rd)
    && Calm(true, s.wr)
    && (s.rd.k.due ==> s.noted && s.events.pollin)
    && (s.wr.k.due ==> s.noted && s.events.pollout)
  }

  predicate BothCalm(s: State) {
    Calm(false, s.rd) && Calm(true, s.wr) && !s.rd.k.due && !s.wr.k.due
  }

  /** The read side was handed over; the write side's edge may still be due. */
  predicate HalfWay(s: State) {
    && Calm(false, s.rd)
    && Calm(true, s.wr)
    && !s.rd.k.due
    && (s.wr.k.due ==> s.events.pollout)
  }

  lemma DispatchReadCalm(s: State)
    requires Quiet(s) && s.noted
    ensures DispatchRead(s).aborted || HalfWay(DispatchRead(s))
  {
    if s.events.pollin {
      DoOperationKept(Undue(s, false), false, s.events.err || s.events.hup);
      BothKept(Undue(s, false), DispatchRead(s));
    } else {
      HandleHupKept(s, false);
      BothKept(s, HandleHup(s, false));
    }
  }

  lemma DispatchWriteCalm(s: State)
    requires HalfWay(s)
    ensures DispatchWrite(s).aborted || BothCalm(DispatchWrite(s))
  {
    if s.events.pollout {
      DoOperationKept(Undue(s, true), true, s.events.err);
      BothKept(Undue(s, true), DispatchWrite(s));
    } else {
      HandleHupKept(s, true);
      BothKept(s, HandleHup(s, true));
    }
  }

  lemma NextQuiet(s: State, step: Step)
    requires Quiet(s)
    ensures Next(s, step).aborted || Quiet(Next(s, step))
  {
    if !s.aborted {
      match step
      case Do(c) =>
        ExecKept(s, c);
        BothKept(s, Exec(s, c));
      case Collect(extra) =>
      case Deliver =>
        if s.noted {
          DispatchReadCalm(s);
          if !DispatchRead(s).aborted {
            DispatchWriteCalm(DispatchRead(s));
          }
        }
    }
  }

  /** Main result: no lost wakeup, whatever arrives, is started, cancelled, removed or
      dispatched, in whatever order. */
  lemma {:induction false} RunQuiet(s: State, steps: seq<Step>)
    requires Quiet(s)
    ensures Run(s, steps).aborted || Quiet(Run(s, steps))
    decreases |steps|
  {
    if steps != [] {
      NextQuiet(s, steps[0]);
      if Next(s, steps[0]).aborted {
        RunAborted(Next(s, steps[0]), steps[1..]);
      } else {
        RunQuiet(Next(s, steps[0]), steps[1..]);
      }
    }
  }

  lemma {:induction false} RunAborted(s: State, steps: seq<Step>)
    requires s.aborted
    ensures Run(s, steps) == s
    decreases |steps|
  {
    if steps != [] {
      RunAborted(s, steps[1..]);
    }
  }
}
