/** What a program can rely on from the commands it uses, without looking at marks or
    entries of the history: on a side where the dangerous combinations are never started,
    by the program or by a callback, no byte is reported out of turn, no operation is
    overwritten, and no callback goes astray. */
module EngineDiscipline {
  import opened Kernel
  import opened Engine
  import opened EngineHistory
  import opened EngineTheorems

  /** Ways to use a side. Under the first four, callbacks start what the program itself may
      start: one-shot single transfers and `wait` always, and of the rest `NoLoops` leaves
      out repeating transfers, `recvAll` and `sendAll`, `SinglesOnly` all whole-buffer
      operations, `NoTakeOver` repeating transfers, `readvAll` and `writevAll`, and
      `Anything` nothing. Under the last two callbacks start nothing on the side, and the
      program itself anything, with `readvAll` and `writevAll` only on an idle slot; under
      `StepsInTurn` `recvAll` and `sendAll` as well. */
  datatype Use = Anything | NoLoops | SinglesOnly | NoTakeOver | StepsOnly | StepsInTurn

  /** Callbacks start nothing. */
  predicate Alone(use: Use) {
    use.StepsOnly? || use.StepsInTurn?
  }

  datatype Uses = Uses(rd: Use, wr: Use)
  {
    function At(w: bool): Use {
      if w then wr else rd
    }
  }

  predicate MayRepeat(use: Use) {
    use.Anything? || use.SinglesOnly?
  }

  predicate MayFill(use: Use, shape: Shape) {
    match use
    case Anything => true
    case NoLoops => shape != Msg
    case SinglesOnly => false
    case NoTakeOver => shape != Vec
    case _ => false
  }

  predicate Allowed(uses: Uses, c: Command) {
    match c
    case Start(w, _, _, repeat) => !Alone(uses.At(w)) && (repeat ==> MayRepeat(uses.At(w)))
    case StartAll(w, shape, _) => MayFill(uses.At(w), shape)
    case WaitOn(w) => !Alone(uses.At(w))
    case _ => true
  }

  predicate AllAllowed(uses: Uses, commands: seq<Command>) {
    forall i :: 0 <= i < |commands| ==> Allowed(uses, commands[i])
  }

  /** All callbacks that are still to come start nothing else. */
  predicate Disciplined(uses: Uses, s: State) {
    forall i :: 0 <= i < |s.script| ==> AllAllowed(uses, s.script[i])
  }

  /** The slot holds no whole-buffer operation, and no bytes. */
  predicate Single(side: Side) {
    Busy(side) ==> side.op.done == [] && !IsAll(side.op.job.operation)
  }

  /** The slot's callback is still the same operation's, a slot that was idle still is,
      nothing was overwritten and no callback went astray. */
  predicate Undisturbed(a: Side, b: Side) {
    && b.op.job.id == a.op.job.id
    && (Busy(b) ==> Busy(a))
    && NoneOver(a.log, b.log)
    && NoneStray(a.log, b.log)
  }

  /** How such a program leaves side `b` where it found `a`. */
  predicate SideTame(use: Use, a: Side, b: Side) {
    match use
    case Anything => true
    case NoLoops => b.clash == a.clash
    case SinglesOnly => Single(a) ==> Single(b) && b.clash == a.clash
    case NoTakeOver => NoneOver(a.log, b.log)
    case StepsOnly => Undisturbed(a, b)
    case StepsInTurn => Undisturbed(a, b) && b.clash == a.clash
  }

  predicate Tame(uses: Uses, s: State, t: State) {
    Disciplined(uses, t) && forall w: bool :: SideTame(uses.At(w), s.At(w), t.At(w))
  }

  lemma SideTameTrans(use: Use, a: Side, b: Side, c: Side)
    requires SideTame(use, a, b) && SideTame(use, b, c)
    ensures SideTame(use, a, c)
  {
    if use.NoTakeOver? || Alone(use) {
      NoneOverTrans(a.log, b.log, c.log);
    }
    if Alone(use) {
      NoneStrayTrans(a.log, b.log, c.log);
    }
  }

  lemma TameTrans(uses: Uses, s: State, t: State, u: State)
    requires Tame(uses, s, t) && Tame(uses, t, u)
    ensures Tame(uses, s, u)
  {
    forall w: bool ensures SideTame(uses.At(w), s.At(w), u.At(w)) {
      SideTameTrans(uses.At(w), s.At(w), t.At(w), u.At(w));
    }
  }

  lemma PutTame(uses: Uses, s: State, w: bool, side: Side)
    requires Disciplined(uses, s) && SideTame(uses.At(w), s.At(w), side)
    ensures Tame(uses, s, s.Put(w, side))
  {
  }

  lemma {:induction false} NotifyTame(uses: Uses, s: State, w: bool, side: Side, e: Entry)
    requires Disciplined(uses, s) && SideTame(uses.At(w), s.At(w), Log(side, e))
    ensures Tame(uses, s, Notify(s.Put(w, side), w, e))
    decreases |s.script|, 0, 0, 0, 0
  {
    var s1 := s.Put(w, Log(side, e));
    PutTame(uses, s, w, Log(side, e));
    if s1.script != [] {
      var s2 := s1.(script := s1.script[1..]);
      RunCommandsTame(uses, s2, s1.script[0]);
      TameTrans(uses, s, s2, RunCommands(s2, s1.script[0]));
    }
  }

  lemma {:induction false} RunCommandsTame(uses: Uses, s: State, commands: seq<Command>)
    requires Disciplined(uses, s) && AllAllowed(uses, commands)
    ensures Tame(uses, s, RunCommands(s, commands))
    decreases |s.script|, 3, |commands|, 0, 0
  {
    if commands != [] {
      ExecTame(uses, s, commands[0]);
      RunCommandsTame(uses, Exec(s, commands[0]), commands[1..]);
      TameTrans(uses, s, Exec(s, commands[0]), RunCommands(s, commands));
    }
  }

  /** An entry that is neither an overwrite nor a stray callback, nor about a slot that holds
      bytes. */
  lemma LogTame(use: Use, a: Side, b: Side, e: Entry)
    requires b.log == a.log + [e] && !e.Overwritten? && b.clash == a.clash
    requires Single(a) ==> Single(b)
    requires b.op.job.id == a.op.job.id && (Busy(b) ==> Busy(a))
    requires Alone(use) && e.Again? ==> e.to == e.of
    ensures SideTame(use, a, b)
  {
    NoneOverOne(a.log, e);
    if Alone(use) {
      NoneStrayOne(a.log, e);
    }
  }

  lemma {:induction false} DoOperationTame(uses: Uses, s: State, w: bool, hup: bool)
    requires Disciplined(uses, s)
    ensures Tame(uses, s, DoOperation(s, w, hup))
    decreases |s.script|, 1, |s.At(w).k.env|, Avail(w, s.At(w).k), 7
  {
    var s1 := s.Put(w, Skip(s.At(w), false));
    PutTame(uses, s, w, Skip(s.At(w), false));
    if IsPlain(s.At(w).op.job.operation) {
      PlainOperationTame(uses, s1, w, hup);
    } else {
      AllOperationTame(uses, s1, w, hup);
    }
    TameTrans(uses, s, s1, DoOperation(s, w, hup));
  }

  /** The slot is emptied and its operation called back. */
  lemma {:induction false} ClearedTame(uses: Uses, s: State, w: bool, side: Side, e: Entry)
    requires Disciplined(uses, s) && !Busy(side) && !e.Overwritten? && !e.Again?
    requires side.log == s.At(w).log && side.clash == s.At(w).clash && side.op.job.id == s.At(w).op.job.id
    ensures Tame(uses, s, Notify(s.Put(w, side), w, e))
    decreases |s.script|, 0, 0, 0, 1
  {
    LogTame(uses.At(w), s.At(w), Log(side, e), e);
    NotifyTame(uses, s, w, side, e);
  }

  lemma {:induction false} PlainOperationTame(uses: Uses, s: State, w: bool, hup: bool)
    requires Disciplined(uses, s)
    ensures Tame(uses, s, PlainOperation(s, w, hup))
    decreases |s.script|, 1, |s.At(w).k.env|, Avail(w, s.At(w).k), 4
  {
    var side := s.At(w);
    if side.op.job.operation == Wait {
      ClearedTame(uses, s, w, Clear(side), Called(side.op.job, 0, [], true, hup));
    } else {
      AttemptProgress(w, side.k, side.op.job.req);
      var a := Attempt(w, side.k, side.op.job.req);
      PutTame(uses, s, w, side.(k := a.k));
      PlainAttemptedTame(uses, s.Put(w, side.(k := a.k)), w, hup, a);
      TameTrans(uses, s, s.Put(w, side.(k := a.k)), PlainOperation(s, w, hup));
    }
  }

  lemma {:induction false} PlainAttemptedTame(uses: Uses, s: State, w: bool, hup: bool, a: Outcome)
    requires Disciplined(uses, s)
    ensures Tame(uses, s, PlainAttempted(s, w, hup, a))
    decreases |s.script|, 1, |s.At(w).k.env|, Avail(w, s.At(w).k), if a.chunk == [] then 3 else 8
  {
    var side := s.At(w);
    if a.again {
    } else if a.chunk == [] {
      ClearedTame(uses, s, w, Clear(side), Called(side.op.job, a.r, [], true, hup));
    } else {
      DeliveredTame(uses, s, w, hup, a.chunk);
    }
  }

  lemma {:induction false} DeliveredTame(uses: Uses, s: State, w: bool, hup: bool, chunk: seq<byte>)
    requires Disciplined(uses, s)
    ensures Tame(uses, s, Delivered(s, w, hup, chunk))
    decreases |s.script|, 1, |s.At(w).k.env|, Avail(w, s.At(w).k), 6
  {
    var side := s.At(w);
    var op := side.op;
    var shortRead := |chunk| < Want(w, op.job.req);
    if op.job.repeat {
      var e := Called(op.job, |chunk|, chunk, false, hup);
      LogTame(uses.At(w), side, Log(side, e), e);
      NotifyTame(uses, s, w, side, e);
      AfterChunkTame(uses, Notify(s, w, e), w, hup, op.job.operation, shortRead);
      TameTrans(uses, s, Notify(s, w, e), Delivered(s, w, hup, chunk));
    } else {
      var side1 := if shortRead && !hup then Skip(Clear(side), true) else Clear(side);
      ClearedTame(uses, s, w, side1, Called(op.job, |chunk|, chunk, true, hup));
    }
  }

  lemma {:induction false} AfterChunkTame(uses: Uses, s: State, w: bool, hup: bool, opType: Operations,
      shortRead: bool)
    requires Disciplined(uses, s)
    ensures Tame(uses, s, AfterChunk(s, w, hup, opType, shortRead))
    decreases |s.script|, 1, |s.At(w).k.env|, Avail(w, s.At(w).k), 5
  {
    var side := s.At(w);
    if side.op.job.operation == opType {
      if hup {
        ClearedTame(uses, s, w, Clear(side), Called(side.op.job, if w then -1 else 0, [], true, true));
      } else if !shortRead {
        PlainOperationTame(uses, s, w, hup);
      }
    } else if shortRead && !hup {
      SkippingTame(uses, s, w, hup);
    } else {
      AllOperationTame(uses, s, w, hup);
    }
  }

  /** The whole-buffer part, after a short transfer. */
  lemma {:induction false} SkippingTame(uses: Uses, s: State, w: bool, hup: bool)
    requires Disciplined(uses, s)
    ensures Tame(uses, s, AllOperation(s.Put(w, Skip(s.At(w), true)), w, hup))
    decreases |s.script|, 1, |s.At(w).k.env|, Avail(w, s.At(w).k), 4
  {
    var s1 := s.Put(w, Skip(s.At(w), true));
    PutTame(uses, s, w, Skip(s.At(w), true));
    AllOperationTame(uses, s1, w, hup);
    TameTrans(uses, s, s1, AllOperation(s1, w, hup));
  }

  lemma {:induction false} AllOperationTame(uses: Uses, s: State, w: bool, hup: bool)
    requires Disciplined(uses, s)
    ensures Tame(uses, s, AllOperation(s, w, hup))
    decreases |s.script|, 1, |s.At(w).k.env|, Avail(w, s.At(w).k), 3
  {
    var side := s.At(w);
    if IsAll(side.op.job.operation) {
      var a := Attempt(w, side.k, Rest(side.op.job.req, |side.op.done|));
      PutTame(uses, s, w, side.(k := a.k));
      AllAttemptedTame(uses, s.Put(w, side.(k := a.k)), w, hup, a);
      TameTrans(uses, s, s.Put(w, side.(k := a.k)), AllOperation(s, w, hup));
    }
  }

  lemma {:induction false} AllAttemptedTame(uses: Uses, s: State, w: bool, hup: bool, a: Outcome)
    requires Disciplined(uses, s) && IsAll(s.At(w).op.job.operation)
    ensures Tame(uses, s, AllAttempted(s, w, hup, a))
    decreases |s.script|, 0, 0, 0, 2
  {
    var side := s.At(w);
    var op := side.op;
    var done := op.done + a.chunk;
    if a.again {
    } else if a.chunk == [] {
      var r := if op.done == [] then a.r else |op.done|;
      ClearedTame(uses, s, w, Clear(side), Called(op.job, r, op.done, true, hup));
    } else if |done| >= Want(w, op.job.req) || hup {
      ClearedTame(uses, s, w, Clear(side), Called(op.job, |done|, done, true, hup));
    } else {
      PutTame(uses, s, w, side.(op := op.(done := done)));
    }
  }

  lemma {:induction false} ConcludeTame(uses: Uses, s: State, w: bool, side: Side, job: Job,
      done: seq<byte>, r: int, again: bool)
    requires Disciplined(uses, s)
    requires again ==> SideTame(uses.At(w), s.At(w), Park(side, job, done))
    requires !again ==> SideTame(uses.At(w), s.At(w), Log(side, Called(job, r, done, true, false)))
    ensures Tame(uses, s, Conclude(s.Put(w, side), w, job, done, r, again))
    decreases |s.script|, 0, 0, 0, 1
  {
    if again {
      PutTame(uses, s, w, Park(side, job, done));
      PutPut(s, w, side, Park(side, job, done));
    } else {
      NotifyTame(uses, s, w, side, Called(job, r, done, true, false));
    }
  }

  /** A synchronous repeat loop. */
  lemma {:induction false} TryRepeatTame(uses: Uses, s: State, w: bool, job: Job)
    requires Disciplined(uses, s) && MayLoop(uses.At(w), s.At(w))
    ensures Tame(uses, s, TryRepeat(s, w, job).s)
    decreases |s.script|, 1, |s.At(w).k.env|, Avail(w, s.At(w).k), 3
  {
    AttemptProgress(w, s.At(w).k, job.req);
    var a := Attempt(w, s.At(w).k, job.req);
    var side := Crossed(s.At(w).(k := a.k), !a.again);
    var e := Called(job, a.r, a.chunk, false, false);
    CrossedTame(uses.At(w), s.At(w), side, e);
    if a.chunk == [] {
      PutTame(uses, s, w, side);
    } else {
      var s1 := Notify(s.Put(w, side), w, e);
      NotifyTame(uses, s, w, side, e);
      assert SideTame(uses.At(w), s.At(w), s1.At(w));
      TryRepeatTame(uses, s1, w, job);
      TameTrans(uses, s, s1, TryRepeat(s, w, job).s);
    }
  }

  /** A synchronous repeat loop may run: it is allowed anyway, or it finds the slot idle. */
  predicate MayLoop(use: Use, side: Side) {
    MayRepeat(use) || (Alone(use) && !Busy(side))
  }

  /** A call of the loop, and what it reports. */
  lemma CrossedTame(use: Use, a: Side, b: Side, e: Entry)
    requires MayLoop(use, a) && e.Called? && b == a.(k := b.k, clash := b.clash)
    requires Pending(a) == [] ==> b.clash == a.clash
    ensures SideTame(use, a, b) && SideTame(use, a, Log(b, e))
  {
    if Alone(use) {
      LogTame(use, a, Log(b, e), e);
      NoneOverOne(a.log, e);
      NoneStrayOne(a.log, e);
    }
  }

  lemma {:induction false} StartRepeatTame(uses: Uses, s: State, w: bool, job: Job)
    requires Disciplined(uses, s) && MayRepeat(uses.At(w)) && IsPlain(job.operation)
    ensures Tame(uses, s, Repeating(s.Put(w, EnterLoop(s.At(w), job)), w, job, s.At(w).loops))
    decreases |s.script|, 1, |s.At(w).k.env|, Avail(w, s.At(w).k), 5
  {
    var s0 := s.Put(w, EnterLoop(s.At(w), job));
    PutTame(uses, s, w, EnterLoop(s.At(w), job));
    TryRepeatTame(uses, s0, w, job);
    var e := TryRepeat(s0, w, job);
    TameTrans(uses, s, s0, e.s);
    LeaveLoopTame(uses, s, e.s, w, job, s.At(w).loops, e.r, e.again);
  }

  lemma {:induction false} LeaveLoopTame(uses: Uses, s: State, t: State, w: bool, job: Job,
      outer: set<nat>, r: int, again: bool)
    requires Tame(uses, s, t) && MayRepeat(uses.At(w)) && IsPlain(job.operation)
    ensures Tame(uses, s, Conclude(t.Put(w, LeaveLoop(t.At(w), outer)), w, job, [], r, again))
    decreases |t.script|, 0, 0, 0, 2
  {
    ConcludeTame(uses, t, w, LeaveLoop(t.At(w), outer), job, [], r, again);
    TameTrans(uses, s, t, Conclude(t.Put(w, LeaveLoop(t.At(w), outer)), w, job, [], r, again));
  }

  /** A start that moved `done` at once, on an idle slot or completing. */
  lemma StartedTame(use: Use, a: Side, b: Side, job: Job)
    requires b.log == a.log + [Started(job)] && b.clash == a.clash && b.op == a.op
    requires Single(a) ==> Single(b)
    ensures SideTame(use, a, b)
  {
    LogTame(use, a, b, Started(job));
  }

  /** A single transfer or a `wait` is parked without an attempt. */
  lemma ParkedTame(uses: Uses, s: State, w: bool, job: Job)
    requires Disciplined(uses, s) && !Busy(s.At(w)) && IsPlain(job.operation) && !Alone(uses.At(w))
    ensures Tame(uses, s, s.Put(w, Park(Log(s.At(w), Started(job)), job, [])))
  {
    Kinds(job.operation);
    PutTame(uses, s, w, Park(Log(s.At(w), Started(job)), job, []));
  }

  lemma {:induction false} StartPlainTame(uses: Uses, s: State, w: bool, o: Operations, req: Request,
      repeat: bool)
    requires Disciplined(uses, s) && !Alone(uses.At(w)) && (repeat ==> MayRepeat(uses.At(w))) && IsPlain(o)
    ensures Tame(uses, s, StartPlain(s, w, o, req, repeat))
    decreases |s.script|, 2, 0, 0, 0
  {
    var side := s.At(w);
    var job := Begin(side, o, req, repeat);
    if !Busy(side) {
      if side.op.skipSync {
        ParkedTame(uses, s, w, job);
      } else if repeat {
        StartRepeatTame(uses, s, w, job);
      } else {
        PlainTriedTame(uses, s, w, job, Attempt(w, side.k, req));
      }
    }
  }

  lemma {:induction false} PlainTriedTame(uses: Uses, s: State, w: bool, job: Job, a: Outcome)
    requires Disciplined(uses, s) && !Alone(uses.At(w)) && !Busy(s.At(w)) && IsPlain(job.operation)
    requires a == Attempt(w, s.At(w).k, job.req)
    ensures Tame(uses, s, Conclude(s.Put(w, Log(s.At(w), Started(job)).(k := a.k)), w, job, a.chunk, a.r, a.again))
    decreases |s.script|, 0, 0, 0, 3
  {
    Kinds(job.operation);
    AttemptHonest(w, s.At(w).k, job.req);
    TriedTame(uses, s, w, Log(s.At(w), Started(job)).(k := a.k), job, a.chunk, a.r, a.again);
  }

  /** The end of a synchronous attempt on an idle slot, of a start without a loop. */
  lemma {:induction false} TriedTame(uses: Uses, s: State, w: bool, side: Side, job: Job, done: seq<byte>,
      r: int, again: bool)
    requires Disciplined(uses, s) && !Busy(s.At(w)) && !Alone(uses.At(w))
    requires side.log == s.At(w).log + [Started(job)] && side.op == s.At(w).op && side.clash == s.At(w).clash
    requires again && uses.At(w).SinglesOnly? ==> done == [] && !IsAll(job.operation)
    ensures Tame(uses, s, Conclude(s.Put(w, side), w, job, done, r, again))
    decreases |s.script|, 0, 0, 0, 2
  {
    var m := s.At(w).(log := side.log);
    var e := Called(job, r, done, true, false);
    StartedTame(uses.At(w), s.At(w), m, job);
    LogTame(uses.At(w), m, Log(side, e), e);
    SideTameTrans(uses.At(w), s.At(w), m, Log(side, e));
    ConcludeTame(uses, s, w, side, job, done, r, again);
  }

  lemma {:induction false} StartWholeTame(uses: Uses, s: State, w: bool, o: Operations, req: Request)
    requires Disciplined(uses, s) && MayFill(uses.At(w), Rw)
    ensures Tame(uses, s, StartWhole(s, w, o, req))
    decreases |s.script|, 2, 0, 0, 0
  {
    var side := s.At(w);
    var job := Begin(side, o, req, false);
    if !Busy(side) {
      if side.op.skipSync {
        PutTame(uses, s, w, Park(Log(side, Started(job)), job, []));
      } else {
        var t := TryAll(w, side.k, req, []);
        TriedTame(uses, s, w, Log(side, Started(job)).(k := t.k), job, t.done, t.r, t.again);
      }
    }
  }

  /** `recvAll` or `sendAll`: on the other side, where it may be used at all, or on an idle
      slot. */
  lemma {:induction false} StartWholeMsgTame(uses: Uses, s: State, w: bool, o: Operations, req: Request)
    requires Disciplined(uses, s) && (MayFill(uses.At(w), Msg) || (uses.At(w).NoLoops? && !Busy(s.At(w))))
    ensures Tame(uses, s, StartWholeMsg(s, w, o, req))
    decreases |s.script|, 2, 0, 0, 0
  {
    var side := s.At(w);
    var job := Begin(side, o, req, false);
    var t := TryAll(w, side.k, req, []);
    if !Busy(side) {
      assert Crossed(side, true) == side;
      TriedTame(uses, s, w, Log(side, Started(job)).(k := t.k), job, t.done, t.r, t.again);
    } else if t.again {
      PutTame(uses, s, w, side.(k := t.k, clash := side.clash || t.done != []));
    } else {
      var side1 := Log(Crossed(side, true), Started(job)).(k := t.k);
      ConcludeTame(uses, s, w, side1, job, t.done, t.r, false);
    }
  }

  lemma {:induction false} StartWholeVecTame(uses: Uses, s: State, w: bool, o: Operations, req: Request)
    requires Disciplined(uses, s) && MayFill(uses.At(w), Vec) && IsAll(o)
    ensures Tame(uses, s, StartWholeVec(s, w, o, req))
    decreases |s.script|, 2, 0, 0, 0
  {
    var job := Begin(s.At(w), o, req, false);
    var side := Park(Log(s.At(w), Started(job)), job, []);
    PutTame(uses, s, w, side);
    if !side.op.skipSync {
      DoOperationTame(uses, s.Put(w, side), w, false);
      TameTrans(uses, s, s.Put(w, side), StartWholeVec(s, w, o, req));
    }
  }

  lemma {:induction false} ExecTame(uses: Uses, s: State, c: Command)
    requires Disciplined(uses, s) && Allowed(uses, c)
    ensures Tame(uses, s, Exec(s, c))
    decreases |s.script|, 2, 1, 0, 0
  {
    match c
    case Start(w, shape, req, repeat) => StartPlainTame(uses, s, w, Opcode(w, shape), req, repeat);
    case StartAll(w, shape, req) =>
      match shape {
        case Rw => StartWholeTame(uses, s, w, OpcodeAll(w, shape), req);
        case Msg => StartWholeMsgTame(uses, s, w, OpcodeAll(w, shape), req);
        case Vec => StartWholeVecTame(uses, s, w, OpcodeAll(w, shape), req);
      }
    case _ => RestTame(uses, s, c);
  }

  lemma RestTame(uses: Uses, s: State, c: Command)
    requires Disciplined(uses, s) && !c.Start? && !c.StartAll? && Allowed(uses, c)
    ensures Tame(uses, s, Exec(s, c))
  {
    match c
    case WaitOn(w) =>
      if !Busy(s.At(w)) {
        ParkedTame(uses, s, w, Begin(s.At(w), Wait, Request([], 0), false));
      }
    case Cancel(w) => PutTame(uses, s, w, CancelOp(s.At(w)));
    case _ => QuietTame(uses, s, Exec(s, c));
  }

  /** Only kernel ends and the batch entry change. */
  lemma QuietTame(uses: Uses, s: State, t: State)
    requires Disciplined(uses, s) && t.script == s.script
    requires t.rd == s.rd.(k := t.rd.k) && t.wr == s.wr.(k := t.wr.k)
    ensures Tame(uses, s, t)
  {
  }

  lemma HandleHupTame(uses: Uses, s: State, w: bool)
    requires Disciplined(uses, s)
    ensures Tame(uses, s, HandleHup(s, w))
  {
    var op := s.At(w).op;
    var r := if w then -1 else 0;
    if Code(Read) <= Code(op.job.operation) <= Code(SendFileFrom) {
      var e := Called(op.job, r, [], true, true);
      var s1 := Notify(s.Put(w, Clear(s.At(w))), w, e);
      ClearedTame(uses, s, w, Clear(s.At(w)), e);
      HupAllTame(uses, s1, w, r);
      TameTrans(uses, s, s1, HandleHup(s, w));
    } else {
      HupAllTame(uses, s, w, r);
    }
  }

  lemma HupAllTame(uses: Uses, s: State, w: bool, r: int)
    requires Disciplined(uses, s)
    ensures Tame(uses, s, HupAll(s, w, r))
  {
    var op := s.At(w).op;
    if Code(ReadAll) <= Code(op.job.operation) <= Code(RecvAll) {
      if op.done != [] {
        HupCountTame(uses, s, w, r, Notify(s.Put(w, Clear(s.At(w))), w,
                     Called(op.job, |op.done|, op.done, true, true)));
      } else {
        ClearedTame(uses, s, w, Clear(s.At(w)), Called(op.job, r, [], true, true));
      }
    }
  }

  lemma HupCountTame(uses: Uses, s: State, w: bool, r: int, t: State)
    requires Disciplined(uses, s)
    requires var op := s.At(w).op;
      t == Notify(s.Put(w, Clear(s.At(w))), w, Called(op.job, |op.done|, op.done, true, true))
    ensures Tame(uses, s, Notify(t, w, Again(s.At(w).op.job.id, r, t.At(w).op.job.id)))
  {
    var op := s.At(w).op;
    var e := Called(op.job, |op.done|, op.done, true, true);
    LogTame(uses.At(w), s.At(w), Log(Clear(s.At(w)), e), e);
    NotifyTame(uses, s, w, Clear(s.At(w)), e);
    AgainTame(uses, s, t, w, op.job.id, r);
  }

  lemma AgainTame(uses: Uses, s: State, t: State, w: bool, id: nat, r: int)
    requires Tame(uses, s, t) && (Alone(uses.At(w)) ==> t.At(w).op.job.id == id)
    ensures Tame(uses, s, Notify(t, w, Again(id, r, t.At(w).op.job.id)))
  {
    var e := Again(id, r, t.At(w).op.job.id);
    LogTame(uses.At(w), t.At(w), Log(t.At(w), e), e);
    NotifyTame(uses, t, w, t.At(w), e);
    TameTrans(uses, s, t, Notify(t, w, e));
  }

  lemma HandedTame(uses: Uses, s: State, w: bool, hup: bool)
    requires Disciplined(uses, s)
    ensures Tame(uses, s, DoOperation(Undue(s, w), w, hup))
  {
    PutTame(uses, s, w, Undue(s, w).At(w));
    DoOperationTame(uses, Undue(s, w), w, hup);
    TameTrans(uses, s, Undue(s, w), DoOperation(Undue(s, w), w, hup));
  }

  lemma DispatchTame(uses: Uses, s: State)
    requires Disciplined(uses, s)
    ensures Tame(uses, s, Dispatch(s))
  {
    var s1 := DispatchRead(s);
    ReadTame(uses, s);
    if !s1.aborted {
      WriteTame(uses, s1);
      TameTrans(uses, s, s1, DispatchWrite(s1));
    }
  }

  lemma ReadTame(uses: Uses, s: State)
    requires Disciplined(uses, s)
    ensures Tame(uses, s, DispatchRead(s))
  {
    HandedTame(uses, s, false, s.events.err || s.events.hup);
    HandleHupTame(uses, s, false);
  }

  lemma WriteTame(uses: Uses, s: State)
    requires Disciplined(uses, s)
    ensures Tame(uses, s, DispatchWrite(s))
  {
    HandedTame(uses, s, true, s.events.err);
    HandleHupTame(uses, s, true);
  }

  // ---- Steps of the program itself. ----

  /** A step of the program itself, taken in `s`. Under `NoLoops` it may also issue
      `recvAll` or `sendAll` on an idle slot. */
  predicate StepAllowed(uses: Uses, s: State, step: Step) {
    step.Do? ==> Allowed(uses, step.c) || InTurn(uses, s, step.c) || OwnStart(uses, s, step.c)
  }

  predicate InTurn(uses: Uses, s: State, c: Command) {
    c.StartAll? && c.shape == Msg && uses.At(c.w).NoLoops? && !Busy(s.At(c.w))
  }

  predicate OwnStart(uses: Uses, s: State, c: Command) {
    && (c.Start? || c.StartAll? || c.WaitOn?) && Alone(uses.At(c.w))
    && (c.StartAll? && Busy(s.At(c.w)) ==> MayFillBusy(uses.At(c.w), c.shape))
  }

  predicate MayFillBusy(use: Use, shape: Shape) {
    shape == Rw || (shape == Msg && use.StepsOnly?)
  }

  /** How a step leaves a side: as callbacks do, except that it may have started something. */
  predicate SideStepTame(use: Use, a: Side, b: Side) {
    if Alone(use) then
      && NoneOver(a.log, b.log) && NoneStray(a.log, b.log)
      && (use.StepsInTurn? ==> b.clash == a.clash)
    else
      SideTame(use, a, b)
  }

  predicate StepTame(uses: Uses, s: State, t: State) {
    Disciplined(uses, t) && forall w: bool :: SideStepTame(uses.At(w), s.At(w), t.At(w))
  }

  lemma StepTameTrans(uses: Uses, s: State, t: State, u: State)
    requires StepTame(uses, s, t) && StepTame(uses, t, u)
    ensures StepTame(uses, s, u)
  {
    forall w: bool ensures SideStepTame(uses.At(w), s.At(w), u.At(w)) {
      SideStepTameTrans(uses.At(w), s.At(w), t.At(w), u.At(w));
    }
  }

  lemma SideStepTameTrans(use: Use, a: Side, b: Side, c: Side)
    requires SideStepTame(use, a, b) && SideStepTame(use, b, c)
    ensures SideStepTame(use, a, c)
  {
    if Alone(use) {
      NoneOverTrans(a.log, b.log, c.log);
      NoneStrayTrans(a.log, b.log, c.log);
    } else {
      SideTameTrans(use, a, b, c);
    }
  }

  lemma TameIsStep(uses: Uses, s: State, t: State)
    requires Tame(uses, s, t)
    ensures StepTame(uses, s, t)
  {
    forall w: bool ensures SideStepTame(uses.At(w), s.At(w), t.At(w)) {
      assert SideTame(uses.At(w), s.At(w), t.At(w));
    }
  }

  lemma PutStep(uses: Uses, s: State, w: bool, side: Side)
    requires Disciplined(uses, s) && SideStepTame(uses.At(w), s.At(w), side)
    ensures StepTame(uses, s, s.Put(w, side))
  {
  }

  /** The log has an entry more that is neither an overwrite nor a second callback. */
  lemma LogStep(use: Use, a: Side, b: Side, e: Entry)
    requires Alone(use) && b.log == a.log + [e] && !e.Overwritten? && !e.Again?
    requires use.StepsInTurn? ==> b.clash == a.clash
    ensures SideStepTame(use, a, b)
  {
    NoneOverOne(a.log, e);
    NoneStrayOne(a.log, e);
  }

  /** An operation is parked on an idle slot. */
  lemma ParkStep(uses: Uses, s: State, w: bool, job: Job)
    requires Disciplined(uses, s) && Alone(uses.At(w)) && !Busy(s.At(w))
    ensures StepTame(uses, s, s.Put(w, Park(Log(s.At(w), Started(job)), job, [])))
  {
    LogStep(uses.At(w), s.At(w), Park(Log(s.At(w), Started(job)), job, []), Started(job));
    PutStep(uses, s, w, Park(Log(s.At(w), Started(job)), job, []));
  }

  /** The end of a synchronous attempt that is parked only on an idle slot. */
  lemma ConcludeStep(uses: Uses, s: State, w: bool, job: Job, done: seq<byte>, r: int, again: bool)
    requires Disciplined(uses, s) && Alone(uses.At(w)) && (again ==> !Busy(s.At(w)))
    ensures StepTame(uses, s, Conclude(s, w, job, done, r, again))
  {
    if again {
      PutStep(uses, s, w, Park(s.At(w), job, done));
    } else {
      var e := Called(job, r, done, true, false);
      LogTame(uses.At(w), s.At(w), Log(s.At(w), e), e);
      NotifyTame(uses, s, w, s.At(w), e);
      TameIsStep(uses, s, Conclude(s, w, job, done, r, again));
    }
  }

  /** The same after the operation was started on the slot of `s`. */
  lemma AttemptedStep(uses: Uses, s: State, w: bool, side: Side, job: Job, done: seq<byte>, r: int, again: bool)
    requires Disciplined(uses, s) && Alone(uses.At(w)) && (again ==> !Busy(side))
    requires side.log == s.At(w).log + [Started(job)] && (uses.At(w).StepsInTurn? ==> side.clash == s.At(w).clash)
    ensures StepTame(uses, s, Conclude(s.Put(w, side), w, job, done, r, again))
  {
    LogStep(uses.At(w), s.At(w), side, Started(job));
    PutStep(uses, s, w, side);
    ConcludeStep(uses, s.Put(w, side), w, job, done, r, again);
    StepTameTrans(uses, s, s.Put(w, side), Conclude(s.Put(w, side), w, job, done, r, again));
  }

  /** The synchronous repeat loop finds the slot idle all along. */
  lemma RepeatStep(uses: Uses, s: State, w: bool, job: Job, outer: set<nat>)
    requires Disciplined(uses, s) && Alone(uses.At(w)) && !Busy(s.At(w))
    ensures StepTame(uses, s, Repeating(s, w, job, outer))
  {
    TryRepeatTame(uses, s, w, job);
    var e := TryRepeat(s, w, job);
    LoopLeft(uses, s, e.s, w, outer);
    var t := e.s.Put(w, LeaveLoop(e.s.At(w), outer));
    ConcludeStep(uses, t, w, job, [], e.r, e.again);
    StepTameTrans(uses, s, t, Repeating(s, w, job, outer));
  }

  lemma LoopLeft(uses: Uses, s: State, t: State, w: bool, outer: set<nat>)
    requires Tame(uses, s, t) && Alone(uses.At(w)) && !Busy(s.At(w))
    ensures var u := t.Put(w, LeaveLoop(t.At(w), outer)); StepTame(uses, s, u) && !Busy(u.At(w))
  {
    var u := t.Put(w, LeaveLoop(t.At(w), outer));
    assert SideTame(uses.At(w), s.At(w), t.At(w));
    TameIsStep(uses, s, t);
    forall d: bool ensures SideStepTame(uses.At(d), s.At(d), u.At(d)) {
      assert SideStepTame(uses.At(d), s.At(d), t.At(d));
    }
  }

  lemma OwnPlain(uses: Uses, s: State, w: bool, job: Job)
    requires Disciplined(uses, s) && Alone(uses.At(w)) && job == Begin(s.At(w), job.operation, job.req, job.repeat)
    ensures StepTame(uses, s, StartPlain(s, w, job.operation, job.req, job.repeat))
  {
    var side := s.At(w);
    if Busy(side) {
      PutStep(uses, s, w, side);
    } else if side.op.skipSync {
      ParkStep(uses, s, w, job);
    } else if job.repeat {
      var s0 := s.Put(w, EnterLoop(side, job));
      LogStep(uses.At(w), side, EnterLoop(side, job), Started(job));
      PutStep(uses, s, w, EnterLoop(side, job));
      RepeatStep(uses, s0, w, job, side.loops);
      StepTameTrans(uses, s, s0, Repeating(s0, w, job, side.loops));
    } else {
      var a := Attempt(w, side.k, job.req);
      AttemptedStep(uses, s, w, Log(side, Started(job)).(k := a.k), job, a.chunk, a.r, a.again);
    }
  }

  lemma OwnWhole(uses: Uses, s: State, w: bool, job: Job)
    requires Disciplined(uses, s) && Alone(uses.At(w)) && job == Begin(s.At(w), job.operation, job.req, false)
    ensures StepTame(uses, s, StartWhole(s, w, job.operation, job.req))
  {
    var side := s.At(w);
    if Busy(side) {
      PutStep(uses, s, w, side);
    } else if side.op.skipSync {
      ParkStep(uses, s, w, job);
    } else {
      var t := TryAll(w, side.k, job.req, []);
      AttemptedStep(uses, s, w, Log(side, Started(job)).(k := t.k), job, t.done, t.r, t.again);
    }
  }

  lemma OwnMsg(uses: Uses, s: State, w: bool, job: Job)
    requires Disciplined(uses, s) && Alone(uses.At(w)) && job == Begin(s.At(w), job.operation, job.req, false)
    requires uses.At(w).StepsInTurn? ==> !Busy(s.At(w))
    ensures StepTame(uses, s, StartWholeMsg(s, w, job.operation, job.req))
  {
    var side := s.At(w);
    var t := TryAll(w, side.k, job.req, []);
    if t.again && Busy(side) {
      PutStep(uses, s, w, side.(k := t.k, clash := side.clash || t.done != []));
    } else {
      AttemptedStep(uses, s, w, Log(Crossed(side, true), Started(job)).(k := t.k), job, t.done, t.r, t.again);
    }
  }

  lemma OwnVec(uses: Uses, s: State, w: bool, job: Job)
    requires Disciplined(uses, s) && Alone(uses.At(w)) && job == Begin(s.At(w), job.operation, job.req, false)
    requires IsAll(job.operation) && !Busy(s.At(w))
    ensures StepTame(uses, s, StartWholeVec(s, w, job.operation, job.req))
  {
    var s0 := s.Put(w, Park(Log(s.At(w), Started(job)), job, []));
    ParkStep(uses, s, w, job);
    if !s.At(w).op.skipSync {
      DoOperationTame(uses, s0, w, false);
      TameIsStep(uses, s0, DoOperation(s0, w, false));
      StepTameTrans(uses, s, s0, DoOperation(s0, w, false));
    }
  }

  lemma OwnStartTame(uses: Uses, s: State, c: Command)
    requires Disciplined(uses, s) && OwnStart(uses, s, c)
    ensures StepTame(uses, s, Exec(s, c))
  {
    match c
    case Start(w, shape, req, repeat) => OwnPlain(uses, s, w, Begin(s.At(w), Opcode(w, shape), req, repeat));
    case StartAll(w, shape, req) =>
      var job := Begin(s.At(w), OpcodeAll(w, shape), req, false);
      WholeKind(w, shape);
      match shape {
        case Rw => OwnWhole(uses, s, w, job);
        case Msg => OwnMsg(uses, s, w, job);
        case Vec => OwnVec(uses, s, w, job);
      }
    case WaitOn(w) =>
      if Busy(s.At(w)) {
        PutStep(uses, s, w, s.At(w));
      } else {
        ParkStep(uses, s, w, Begin(s.At(w), Wait, Request([], 0), false));
      }
  }

  predicate AllStepsAllowed(uses: Uses, s: State, steps: seq<Step>)
    decreases |steps|
  {
    steps == [] ||
    (StepAllowed(uses, s, steps[0]) && AllStepsAllowed(uses, Next(s, steps[0]), steps[1..]))
  }

  lemma DoTame(uses: Uses, s: State, c: Command)
    requires Disciplined(uses, s) && (Allowed(uses, c) || InTurn(uses, s, c))
    ensures Tame(uses, s, Exec(s, c))
  {
    if Allowed(uses, c) {
      ExecTame(uses, s, c);
    } else {
      StartWholeMsgTame(uses, s, c.w, OpcodeAll(c.w, Msg), c.req);
    }
  }

  lemma NextTame(uses: Uses, s: State, step: Step)
    requires Disciplined(uses, s) && StepAllowed(uses, s, step)
    ensures StepTame(uses, s, Next(s, step))
  {
    if s.aborted {
      TameIsStep(uses, s, s);
    } else {
      match step
      case Do(c) =>
        if OwnStart(uses, s, c) {
          OwnStartTame(uses, s, c);
        } else {
          DoTame(uses, s, c);
          TameIsStep(uses, s, Exec(s, c));
        }
      case Collect(extra) => TameIsStep(uses, s, Next(s, step));
      case Deliver =>
        DispatchTame(uses, s);
        TameIsStep(uses, s, Next(s, step));
    }
  }

  lemma {:induction false} RunTame(uses: Uses, s: State, steps: seq<Step>)
    requires Disciplined(uses, s) && AllStepsAllowed(uses, s, steps)
    ensures StepTame(uses, s, Run(s, steps))
    decreases |steps|
  {
    if steps == [] {
      TameIsStep(uses, s, s);
    } else {
      NextTame(uses, s, steps[0]);
      RunTame(uses, Next(s, steps[0]), steps[1..]);
      StepTameTrans(uses, s, Next(s, steps[0]), Run(s, steps));
    }
  }

  /** A run of a new `File` by a program that keeps to `uses`. */
  predicate Keeps(uses: Uses, s: State, steps: seq<Step>) {
    Initial(s) && Disciplined(uses, s) && AllStepsAllowed(uses, s, steps)
  }

  lemma TameAt(uses: Uses, s: State, steps: seq<Step>, w: bool)
    requires Keeps(uses, s, steps)
    ensures SideStepTame(uses.At(w), s.At(w), Run(s, steps).At(w))
  {
    RunTame(uses, s, steps);
  }

  /** Conservation for programs a reader can check: no repeating transfer is started on the
      side, and `recvAll` and `sendAll` only by the program itself on an idle slot; or single
      transfers only; or anything, by the program itself in turn. What happens on the other
      side does not matter. */
  lemma DisciplinedConservation(s: State, steps: seq<Step>, uses: Uses, w: bool)
    requires Keeps(uses, s, steps) && uses.At(w) in {NoLoops, SinglesOnly, StepsInTurn}
    ensures var side := Run(s, steps).At(w);
      LogBytes(side.log) + Pending(side) + (if w then [] else side.k.stream[side.k.pos..]) == side.k.stream
  {
    TameAt(uses, s, steps, w);
    Conservation(s, steps, w);
  }

  /** For such programs a whole-buffer operation that completes outside hang-up handling
      always reports exactly what a blocking loop would have moved at its place. */
  lemma DisciplinedExact(s: State, steps: seq<Step>, uses: Uses, w: bool, i: nat)
    requires Keeps(uses, s, steps) && uses.At(w) in {NoLoops, SinglesOnly, StepsInTurn}
    requires WholeBufferCall(Run(s, steps).At(w), i)
    ensures var side := Run(s, steps).At(w); Exact(w, side.k, |LogBytes(side.log[..i])|, side.log[i])
  {
    TameAt(uses, s, steps, w);
    WholeBufferExact(s, steps, w, i);
  }

  /** No operation is overwritten on a side on which no repeating transfer and no `readvAll`
      or `writevAll` is ever started, or nothing by callbacks. */
  lemma NeverOverwritten(s: State, steps: seq<Step>, uses: Uses, w: bool, i: nat)
    requires Keeps(uses, s, steps) && uses.At(w) in {NoTakeOver, StepsOnly, StepsInTurn}
    requires i < |Run(s, steps).At(w).log|
    ensures !Run(s, steps).At(w).log[i].Overwritten?
  {
    TameAt(uses, s, steps, w);
  }

  function CancelsOf(log: seq<Entry>, id: nat): nat {
    if log == [] then 0
    else
      var e := log[|log| - 1];
      CancelsOf(log[..|log| - 1], id) + if e.Cancelled? && e.id == id then 1 else 0
  }

  lemma {:induction false} DropsAreCancels(log: seq<Entry>, id: nat)
    requires NoneOver([], log)
    ensures DropsOf(log, id) == CancelsOf(log, id)
    decreases |log|
  {
    if log != [] {
      DropsAreCancels(log[..|log| - 1], id);
    }
  }

  lemma {:induction false} NoStrays(log: seq<Entry>, id: nat)
    requires NoneStray([], log)
    ensures StraysOf(log, id) == 0
    decreases |log|
  {
    if log != [] {
      NoStrays(log[..|log| - 1], id);
    }
  }

  /** Completion accounting for such programs: a one-shot operation is called back exactly
      once, unless it was cancelled or is still in its slot; its own second callback after a
      hang-up's count comes on top, and one that was meant for another operation only if
      callbacks start operations on the side. */
  lemma StartedCompletesOrCancelled(s: State, steps: seq<Step>, uses: Uses, w: bool, id: nat)
    requires Keeps(uses, s, steps) && uses.At(w) in {NoTakeOver, StepsOnly, StepsInTurn}
    requires var log := Run(s, steps).At(w).log; id < |log| && log[id].Started? && !log[id].job.repeat
    ensures var side := Run(s, steps).At(w);
      && CallsOf(side.log, id) + CancelsOf(side.log, id) ==
           (if Busy(side) && side.op.job.id == id then 0 else 1) + SecondsOf(side.log, id) + StraysOf(side.log, id)
      && SecondsOf(side.log, id) <= (if CutShort(side.log, id) then 1 else 0)
      && StraysOf(side.log, id) <= if Alone(uses.At(w)) then 0 else 1
  {
    TameAt(uses, s, steps, w);
    DropsAreCancels(Run(s, steps).At(w).log, id);
    OneShotOnce(s, steps, w, id);
    if Alone(uses.At(w)) {
      NoStrays(Run(s, steps).At(w).log, id);
    }
  }
}
