/** When an operation vanishes that nobody cancelled: a slot is taken over by `readvAll` or
    `writevAll`, or by a synchronous repeat loop that ends in EAGAIN. And when a callback goes
    astray: the second one of handleHup, if the first one put another operation in the slot. */
module EngineLosses {
  import opened Kernel
  import opened Engine
  import opened EngineHistory
  import opened EngineRecords
  import opened EngineService
  import opened EngineGuards

  /** `readvAll` and `writevAll` overwrite the operation in the slot exactly when there is
      one, whatever callbacks do, and before anything else is recorded. */
  lemma VecOverwrites(s: State, w: bool, o: Operations, req: Request)
    requires IsAll(o)
    ensures var side, log := s.At(w), StartWholeVec(s, w, o, req).At(w).log;
      && side.log + [Started(Begin(side, o, req, false))] <= log
      && (Busy(side) <==>
            |side.log| + 1 < |log| && log[|side.log| + 1] == Overwritten(side.op.job.id, side.op.done))
  {
    var job := Begin(s.At(w), o, req, false);
    var parked := Park(Log(s.At(w), Started(job)), job, []);
    var t := StartWholeVec(s, w, o, req);
    if !parked.op.skipSync {
      ServedLog(s.Put(w, parked), w, t);
    }
    TakenOver(s.At(w), job, parked, t.At(w).log);
  }

  lemma TakenOver(side: Side, job: Job, parked: Side, log: seq<Entry>)
    requires parked == Park(Log(side, Started(job)), job, []) && parked.log <= log
    requires |parked.log| < |log| ==> log[|parked.log|].Called?
    ensures side.log + [Started(job)] <= log
    ensures Busy(side) <==>
            |side.log| + 1 < |log| && log[|side.log| + 1] == Overwritten(side.op.job.id, side.op.done)
  {
    assert parked.log[|side.log|] == log[|side.log|];
  }

  /** What doOperation records first for a whole-buffer operation is its last callback. */
  lemma ServedLog(s: State, w: bool, t: State)
    requires IsAll(s.At(w).op.job.operation) && t == DoOperation(s, w, false)
    ensures s.At(w).log <= t.At(w).log
    ensures |s.At(w).log| < |t.At(w).log| ==> t.At(w).log[|s.At(w).log|].Called?
  {
    Kinds(s.At(w).op.job.operation);
    var side := Skip(s.At(w), false);
    var a := SlotAttempt(w, side);
    AllCalls(s.Put(w, side), w, false, a, t);
    PutPut(s, w, side, side.(k := a.k));
    AttemptedLog(s.Put(w, side.(k := a.k)), w, a, t);
  }

  lemma AttemptedLog(s: State, w: bool, a: Outcome, t: State)
    requires t == AllAttempted(s, w, false, a)
    ensures s.At(w).log <= t.At(w).log
    ensures |s.At(w).log| < |t.At(w).log| ==> t.At(w).log[|s.At(w).log|].Called?
  {
    var op := s.At(w).op;
    var done := op.done + a.chunk;
    if a.again {
    } else if a.chunk == [] {
      CalledFirst(s, w, Called(op.job, if op.done == [] then a.r else |op.done|, op.done, true, false));
    } else if |done| >= Want(w, op.job.req) {
      CalledFirst(s, w, Called(op.job, |done|, done, true, false));
    }
  }

  lemma CalledFirst(s: State, w: bool, e: Entry)
    requires e.Called?
    ensures var log := Notify(s.Put(w, Clear(s.At(w))), w, e).At(w).log;
      s.At(w).log + [e] <= log && log[|s.At(w).log|].Called?
  {
    NotifyAfter(s.Put(w, Clear(s.At(w))), w, e);
  }

  // ---- Parking from a callback of a synchronous repeat loop. ----

  /** Commands that start an operation on side `w`. */
  predicate Starts(w: bool, c: Command) {
    (c.Start? || c.StartAll? || c.WaitOn?) && c.w == w
  }

  /** An idle slot may be left holding the operation that `c` starts: a `wait`, anything that
      wants a byte, or whatever makes no synchronous attempt. */
  predicate MayPark(side: Side, w: bool, c: Command)
    requires Starts(w, c)
  {
    match c
    case Start(_, _, req, _) => Want(w, req) > 0 || side.op.skipSync
    case StartAll(_, shape, req) => Want(w, req) > 0 || (side.op.skipSync && shape != Msg)
    case WaitOn(_) => true
    case _ => false
  }

  /** What a callback of the loop of `job` that issues `c` leads to: the loop makes its
      remaining calls and ends. */
  function LoopedOut(s: State, w: bool, c: Command, job: Job, outer: set<nat>): State {
    LoopEnd(Exec(s, c), w, job, outer)
  }

  function LoopEnd(s: State, w: bool, job: Job, outer: set<nat>): State {
    var e := TryRepeat(s, w, job);
    Conclude(e.s.Put(w, LeaveLoop(e.s.At(w), outer)), w, job, [], e.r, e.again)
  }

  /** An operation that a callback of a synchronous repeat loop starts on the idle slot
      survives the end of the loop, whatever the kernel holds and does, exactly when the
      loop's own request is empty or the operation can only complete at once. */
  lemma ParkGuard(s: State, w: bool, c: Command, job: Job, outer: set<nat>)
    requires s.script == [] && !Busy(s.At(w)) && Starts(w, c)
    ensures Want(w, job.req) == 0 || !MayPark(s.At(w), w, c) <==>
            forall k: End :: Alike(w, s.At(w).k, k) ==>
              NoneOver(s.At(w).log, LoopedOut(With(s, w, k), w, c, job, outer).At(w).log)
  {
    if Want(w, job.req) == 0 || !MayPark(s.At(w), w, c) {
      forall k: End | Alike(w, s.At(w).k, k)
        ensures NoneOver(s.At(w).log, LoopedOut(With(s, w, k), w, c, job, outer).At(w).log)
      {
        Survives(With(s, w, k), w, c, job, outer);
      }
    } else {
      var k := Exhausted(w, s.At(w).k);
      Vanishes(With(s, w, k), w, c, job, outer);
      assert Alike(w, s.At(w).k, k);
    }
  }

  lemma Survives(s: State, w: bool, c: Command, job: Job, outer: set<nat>)
    requires s.script == [] && !Busy(s.At(w)) && Starts(w, c)
    requires Want(w, job.req) == 0 || !MayPark(s.At(w), w, c)
    ensures NoneOver(s.At(w).log, LoopedOut(s, w, c, job, outer).At(w).log)
  {
    var t := Exec(s, c);
    IdleStart(s, w, c, t);
    LoopEndsIdle(t, w, job, outer);
    NoneOverTrans(s.At(w).log, t.At(w).log, LoopEnd(t, w, job, outer).At(w).log);
  }

  lemma Vanishes(s: State, w: bool, c: Command, job: Job, outer: set<nat>)
    requires s.script == [] && !Busy(s.At(w)) && Starts(w, c) && Empty(w, s.At(w).k, [])
    requires Want(w, job.req) > 0 && MayPark(s.At(w), w, c)
    ensures !NoneOver(s.At(w).log, LoopedOut(s, w, c, job, outer).At(w).log)
  {
    var t := Exec(s, c);
    StartParks(s, w, c, t);
    LoopOverwrites(t, w, job, outer, LoopEnd(t, w, job, outer));
    var log := LoopEnd(t, w, job, outer).At(w).log;
    assert log[|t.At(w).log|].Overwritten?;
  }

  /** The same bytes moved, and nothing more can be. */
  function Exhausted(w: bool, k: End): (k': End)
    ensures Moved(w, k') == Moved(w, k) && Empty(w, k', [])
  {
    if w then k.(space := 0, env := [], stop := Open) else k.(stream := Moved(false, k), env := [], stop := Open)
  }

  /** Starting on an idle slot overwrites nothing, and what cannot be parked leaves it idle. */
  lemma IdleStart(s: State, w: bool, c: Command, t: State)
    requires s.script == [] && !Busy(s.At(w)) && Starts(w, c) && t == Exec(s, c)
    ensures t.script == [] && NoneOver(s.At(w).log, t.At(w).log)
    ensures !MayPark(s.At(w), w, c) ==> !Busy(t.At(w))
  {
    match c {
      case WaitOn(_) =>
      case Start(_, shape, req, repeat) => PlainIdleStart(s, w, Begin(s.At(w), Opcode(w, shape), req, repeat), t);
      case StartAll(_, shape, req) =>
        var job := Begin(s.At(w), OpcodeAll(w, shape), req, false);
        match shape {
          case Rw => WholeIdleStart(s, w, job, t);
          case Msg => MsgIdleStart(s, w, job, t);
          case Vec => VecIdleStart(s, w, job, t);
        }
    }
  }

  /** The end of a synchronous attempt of an operation just started on an idle slot. */
  lemma ConcludedIdle(s: State, w: bool, side: Side, job: Job, done: seq<byte>, r: int, again: bool)
    requires s.script == [] && !Busy(side) && NoneOver(s.At(w).log, side.log)
    ensures var t := Conclude(s.Put(w, side), w, job, done, r, again);
      && t.script == [] && NoneOver(s.At(w).log, t.At(w).log)
      && (!again ==> !Busy(t.At(w)))
  {
  }

  lemma PlainIdleStart(s: State, w: bool, job: Job, t: State)
    requires s.script == [] && !Busy(s.At(w)) && job.id == |s.At(w).log|
    requires t == StartPlain(s, w, job.operation, job.req, job.repeat)
    ensures t.script == [] && NoneOver(s.At(w).log, t.At(w).log)
    ensures Want(w, job.req) == 0 && !s.At(w).op.skipSync ==> !Busy(t.At(w))
  {
    var side := s.At(w);
    if side.op.skipSync {
    } else if job.repeat {
      var s0 := s.Put(w, EnterLoop(side, job));
      NestedIdleStart(s0, w, job, side.loops, TryRepeat(s0, w, job), t);
      NoneOverTrans(side.log, s0.At(w).log, t.At(w).log);
    } else {
      var a := Attempt(w, side.k, job.req);
      AttemptHonest(w, side.k, job.req);
      ConcludedIdle(s, w, Log(side, Started(job)).(k := a.k), job, a.chunk, a.r, a.again);
    }
  }

  lemma NestedIdleStart(s: State, w: bool, job: Job, outer: set<nat>, e: SyncEnd, t: State)
    requires s.script == [] && !Busy(s.At(w)) && e == TryRepeat(s, w, job)
    requires t == Conclude(e.s.Put(w, LeaveLoop(e.s.At(w), outer)), w, job, [], e.r, e.again)
    ensures t.script == [] && NoneOver(s.At(w).log, t.At(w).log)
    ensures Want(w, job.req) == 0 ==> !Busy(t.At(w))
  {
    LoopTells(s, w, job, e);
    NestedEnd(e.s, w, job, outer, e.r, e.again);
    NoneOverTrans(s.At(w).log, e.s.At(w).log, t.At(w).log);
  }

  lemma NestedEnd(s: State, w: bool, job: Job, outer: set<nat>, r: int, again: bool)
    requires s.script == [] && !Busy(s.At(w))
    ensures var t := Conclude(s.Put(w, LeaveLoop(s.At(w), outer)), w, job, [], r, again);
      t.script == [] && NoneOver(s.At(w).log, t.At(w).log) && (!again ==> !Busy(t.At(w)))
  {
    ConcludedIdle(s, w, LeaveLoop(s.At(w), outer), job, [], r, again);
  }

  /** The loop itself only reports, and with an empty request it ends at once. */
  lemma {:induction false} LoopTells(s: State, w: bool, job: Job, e: SyncEnd)
    requires s.script == [] && e == TryRepeat(s, w, job)
    ensures e.s.script == [] && e.s.At(w).op == s.At(w).op && NoneOver(s.At(w).log, e.s.At(w).log)
    ensures Want(w, job.req) == 0 ==> !e.again
    decreases |s.At(w).k.env|, Avail(w, s.At(w).k)
  {
    var a := Attempt(w, s.At(w).k, job.req);
    AttemptHonest(w, s.At(w).k, job.req);
    AttemptProgress(w, s.At(w).k, job.req);
    RepeatCalls(s, w, job, a, e);
    if a.chunk != [] {
      var side := Crossed(s.At(w).(k := a.k), !a.again);
      var s1 := s.Put(w, Log(side, Called(job, a.r, a.chunk, false, false)));
      NoneOverOne(s.At(w).log, Called(job, a.r, a.chunk, false, false));
      LoopTells(s1, w, job, e);
      NoneOverTrans(s.At(w).log, s1.At(w).log, e.s.At(w).log);
    }
  }

  lemma WholeIdleStart(s: State, w: bool, job: Job, t: State)
    requires s.script == [] && !Busy(s.At(w)) && job == Begin(s.At(w), job.operation, job.req, false)
    requires t == StartWhole(s, w, job.operation, job.req)
    ensures t.script == [] && NoneOver(s.At(w).log, t.At(w).log)
    ensures Want(w, job.req) == 0 && !s.At(w).op.skipSync ==> !Busy(t.At(w))
  {
    var side := s.At(w);
    if !side.op.skipSync {
      var u := TryAll(w, side.k, job.req, []);
      ConcludedIdle(s, w, Log(side, Started(job)).(k := u.k), job, u.done, u.r, u.again);
    }
  }

  lemma MsgIdleStart(s: State, w: bool, job: Job, t: State)
    requires s.script == [] && !Busy(s.At(w)) && job == Begin(s.At(w), job.operation, job.req, false)
    requires t == StartWholeMsg(s, w, job.operation, job.req)
    ensures t.script == [] && NoneOver(s.At(w).log, t.At(w).log)
    ensures Want(w, job.req) == 0 ==> !Busy(t.At(w))
  {
    var u := TryAll(w, s.At(w).k, job.req, []);
    ConcludedIdle(s, w, Log(Crossed(s.At(w), true), Started(job)).(k := u.k), job, u.done, u.r, u.again);
  }

  lemma VecIdleStart(s: State, w: bool, job: Job, t: State)
    requires s.script == [] && !Busy(s.At(w)) && job == Begin(s.At(w), job.operation, job.req, false)
    requires IsAll(job.operation) && t == StartWholeVec(s, w, job.operation, job.req)
    ensures t.script == [] && NoneOver(s.At(w).log, t.At(w).log)
    ensures Want(w, job.req) == 0 && !s.At(w).op.skipSync ==> !Busy(t.At(w))
  {
    var side := Park(Log(s.At(w), Started(job)), job, []);
    if !side.op.skipSync {
      var a := Attempt(w, side.k, job.req);
      AttemptHonest(w, side.k, job.req);
      VecAttempts(s.Put(w, side), w, a, t);
      AttemptedIdle(s.Put(w, side.(k := a.k)), w, a, t);
      NoneOverTrans(s.At(w).log, side.log, t.At(w).log);
    }
  }

  lemma AttemptedIdle(s: State, w: bool, a: Outcome, t: State)
    requires s.script == [] && t == AllAttempted(s, w, false, a)
    ensures t.script == [] && NoneOver(s.At(w).log, t.At(w).log)
    ensures a.chunk == [] && !a.again ==> !Busy(t.At(w))
  {
    var op := s.At(w).op;
    var done := op.done + a.chunk;
    NoneOverOne(s.At(w).log, Called(op.job, if op.done == [] then a.r else |op.done|, op.done, true, false));
    NoneOverOne(s.At(w).log, Called(op.job, |done|, done, true, false));
  }

  /** The loop goes on and ends; nothing is overwritten if it finds the slot idle, or if it
      ends with a callback. */
  lemma LoopEndsIdle(s: State, w: bool, job: Job, outer: set<nat>)
    requires s.script == [] && (Want(w, job.req) == 0 || !Busy(s.At(w)))
    ensures NoneOver(s.At(w).log, LoopEnd(s, w, job, outer).At(w).log)
  {
    var e := TryRepeat(s, w, job);
    LoopTells(s, w, job, e);
    NoneOverTrans(s.At(w).log, e.s.At(w).log, LoopEnd(s, w, job, outer).At(w).log);
  }

  /** The slot is taken by the next operation, and there is still nothing to move. */
  predicate Parks(w: bool, s: State, t: State) {
    && t.script == s.script && Busy(t.At(w)) && t.At(w).op.job.id == |s.At(w).log|
    && Empty(w, t.At(w).k, []) && s.At(w).log <= t.At(w).log
  }

  /** With nothing to move, whatever may be parked is. */
  lemma StartParks(s: State, w: bool, c: Command, t: State)
    requires s.script == [] && !Busy(s.At(w)) && Starts(w, c) && MayPark(s.At(w), w, c)
    requires Empty(w, s.At(w).k, []) && t == Exec(s, c)
    ensures Parks(w, s, t)
  {
    match c {
      case WaitOn(_) =>
      case Start(_, shape, req, repeat) => PlainStartParks(s, w, Begin(s.At(w), Opcode(w, shape), req, repeat), t);
      case StartAll(_, shape, req) => AllStartParks(s, w, shape, req, t);
    }
  }

  lemma AllStartParks(s: State, w: bool, shape: Shape, req: Request, t: State)
    requires !Busy(s.At(w)) && (Want(w, req) > 0 || (s.At(w).op.skipSync && shape != Msg))
    requires Empty(w, s.At(w).k, []) && t == Exec(s, StartAll(w, shape, req))
    ensures Parks(w, s, t)
  {
    var job := Begin(s.At(w), OpcodeAll(w, shape), req, false);
    WholeKind(w, shape);
    match shape {
      case Rw => WholeStartParks(s, w, job, t);
      case Msg => MsgStartParks(s, w, job, t);
      case Vec => VecStartParks(s, w, job, t);
    }
  }

  lemma PlainStartParks(s: State, w: bool, job: Job, t: State)
    requires !Busy(s.At(w)) && job == Begin(s.At(w), job.operation, job.req, job.repeat) && IsPlain(job.operation)
    requires Empty(w, s.At(w).k, []) && (Want(w, job.req) > 0 || s.At(w).op.skipSync)
    requires t == StartPlain(s, w, job.operation, job.req, job.repeat)
    ensures Parks(w, s, t)
  {
    var side := s.At(w);
    if !side.op.skipSync {
      var a := Attempt(w, side.k, job.req);
      NoByte(w, side.k, job.req, []);
      if job.repeat {
        var s0 := s.Put(w, EnterLoop(side, job));
        NestedParks(s0, w, job, side.loops, t);
      } else {
        assert t == Conclude(s.Put(w, Log(side, Started(job)).(k := a.k)), w, job, a.chunk, a.r, true);
      }
    }
  }

  lemma NestedParks(s: State, w: bool, job: Job, outer: set<nat>, t: State)
    requires !Busy(s.At(w)) && IsPlain(job.operation) && Empty(w, s.At(w).k, []) && Want(w, job.req) > 0
    requires t == Repeating(s, w, job, outer)
    ensures t.script == s.script && Busy(t.At(w)) && Empty(w, t.At(w).k, []) && t.At(w).log == s.At(w).log
    ensures t.At(w).op.job == job
  {
    var a := Attempt(w, s.At(w).k, job.req);
    NoByte(w, s.At(w).k, job.req, []);
    RepeatCalls(s, w, job, a, TryRepeat(s, w, job));
    var s1 := s.Put(w, Crossed(s.At(w).(k := a.k), false));
    assert t == Conclude(s1.Put(w, LeaveLoop(s1.At(w), outer)), w, job, [], a.r, true);
  }

  lemma WholeStartParks(s: State, w: bool, job: Job, t: State)
    requires !Busy(s.At(w)) && job == Begin(s.At(w), job.operation, job.req, false) && IsAll(job.operation)
    requires Empty(w, s.At(w).k, []) && (Want(w, job.req) > 0 || s.At(w).op.skipSync)
    requires t == StartWhole(s, w, job.operation, job.req)
    ensures Parks(w, s, t)
  {
    if !s.At(w).op.skipSync {
      NothingTried(w, s.At(w).k, job.req);
    }
  }

  lemma MsgStartParks(s: State, w: bool, job: Job, t: State)
    requires !Busy(s.At(w)) && job == Begin(s.At(w), job.operation, job.req, false) && IsAll(job.operation)
    requires Empty(w, s.At(w).k, []) && Want(w, job.req) > 0
    requires t == StartWholeMsg(s, w, job.operation, job.req)
    ensures Parks(w, s, t)
  {
    NothingTried(w, s.At(w).k, job.req);
  }

  lemma NothingTried(w: bool, k: End, req: Request)
    requires Empty(w, k, []) && Want(w, req) > 0
    ensures var t := TryAll(w, k, req, []); t.again && Empty(w, t.k, [])
  {
    RestOfAll(w, req);
    NoByte(w, k, req, []);
    TryStep(w, k, req, [], Attempt(w, k, req));
  }

  lemma VecStartParks(s: State, w: bool, job: Job, t: State)
    requires !Busy(s.At(w)) && job == Begin(s.At(w), job.operation, job.req, false) && IsAll(job.operation)
    requires Empty(w, s.At(w).k, []) && (Want(w, job.req) > 0 || s.At(w).op.skipSync)
    requires t == StartWholeVec(s, w, job.operation, job.req)
    ensures Parks(w, s, t)
  {
    var side := Park(Log(s.At(w), Started(job)), job, []);
    if !side.op.skipSync {
      var a := Attempt(w, side.k, job.req);
      NoByte(w, side.k, job.req, []);
      VecAttempts(s.Put(w, side), w, a, t);
    }
  }

  /** A loop that ends in EAGAIN is parked over what is in the slot. */
  lemma LoopOverwrites(s: State, w: bool, job: Job, outer: set<nat>, t: State)
    requires s.script == [] && Busy(s.At(w)) && Empty(w, s.At(w).k, []) && Want(w, job.req) > 0
    requires t == LoopEnd(s, w, job, outer)
    ensures t.At(w).log == s.At(w).log + [Overwritten(s.At(w).op.job.id, s.At(w).op.done)]
  {
    var a := Attempt(w, s.At(w).k, job.req);
    NoByte(w, s.At(w).k, job.req, []);
    RepeatCalls(s, w, job, a, TryRepeat(s, w, job));
  }

  /** A cancel ends what is underway exactly when it is in the slot; an operation in its
      synchronous repeat loop is not. */
  lemma CancelGuard(s: State, w: bool, id: nat)
    requires Books(s.At(w)) && UnderwayOf(s.At(w), id) > 0
    ensures EndsOf(Exec(s, Cancel(w)).At(w).log, id) > 0 <==> id !in s.At(w).loops
  {
    var side := s.At(w);
    assert EndsOf(side.log, id) + UnderwayOf(side, id) == Begun(side.log, id);
    AppendedEnds(side.log, Cancelled(side.op.job.id, side.op.done), id);
  }

  // ---- The second callback of handleHup. ----

  /** handleHup is about to report a count for the operation in the slot, and then its end. */
  predicate CountFirst(side: Side) {
    && Code(ReadAll) <= Code(side.op.job.operation) <= Code(RecvAll)
    && side.op.done != [] && side.op.job.id < |side.log|
  }

  /** What `c` starts may take over the slot's callback: it may be parked, or it is a
      `readvAll` or `writevAll`, which are put into the slot first. */
  predicate MayReplace(side: Side, w: bool, c: Command)
    requires Starts(w, c)
  {
    MayPark(side, w, c) || (c.StartAll? && c.shape == Vec)
  }

  /** The second callback of handleHup runs its own operation's callback, whatever the kernel
      holds and does, exactly when what the first one starts on the side cannot take the
      slot's callback over. */
  lemma SecondGuard(s: State, w: bool, c: Command)
    requires s.script == [[c]] && Starts(w, c) && CountFirst(s.At(w))
    ensures !MayReplace(s.At(w), w, c) <==>
            forall k: End :: Alike(w, s.At(w).k, k) ==>
              NoneStray(s.At(w).log, HandleHup(With(s, w, k), w).At(w).log)
  {
    if !MayReplace(s.At(w), w, c) {
      forall k: End | Alike(w, s.At(w).k, k)
        ensures NoneStray(s.At(w).log, HandleHup(With(s, w, k), w).At(w).log)
      {
        SecondComesHome(With(s, w, k), w, c);
      }
    } else {
      var k := Exhausted(w, s.At(w).k);
      SecondStrays(With(s, w, k), w, c);
      assert Alike(w, s.At(w).k, k);
    }
  }

  lemma SecondComesHome(s: State, w: bool, c: Command)
    requires s.script == [[c]] && Starts(w, c) && CountFirst(s.At(w)) && !MayReplace(s.At(w), w, c)
    ensures NoneStray(s.At(w).log, HandleHup(s, w).At(w).log)
  {
    Counted(s, w, c, Exec(AtCount(s, w), c), HandleHup(s, w));
    OwnerStays(AtCount(s, w), w, c, Exec(AtCount(s, w), c));
  }

  lemma SecondStrays(s: State, w: bool, c: Command)
    requires s.script == [[c]] && Starts(w, c) && CountFirst(s.At(w)) && MayReplace(s.At(w), w, c)
    requires Empty(w, s.At(w).k, [])
    ensures !NoneStray(s.At(w).log, HandleHup(s, w).At(w).log)
  {
    Counted(s, w, c, Exec(AtCount(s, w), c), HandleHup(s, w));
    OwnerReplaced(AtCount(s, w), w, c, Exec(AtCount(s, w), c));
  }

  /** The count that handleHup reports. */
  function CountEntry(op: OperationInfo): Entry {
    Called(op.job, |op.done|, op.done, true, true)
  }

  /** When the first callback issues its commands. */
  function AtCount(s: State, w: bool): State {
    s.(script := []).Put(w, Log(Clear(s.At(w)), CountEntry(s.At(w).op)))
  }

  lemma Counted(s: State, w: bool, c: Command, u: State, t: State)
    requires s.script == [[c]] && CountFirst(s.At(w)) && u == Exec(AtCount(s, w), c) && t == HandleHup(s, w)
    ensures NoneStray(s.At(w).log, t.At(w).log) <==> u.At(w).op.job.id == s.At(w).op.job.id
  {
    var op, r := s.At(w).op, if w then -1 else 0;
    var e := CountEntry(op);
    CountedHup(s, w, r, c, u, t);
    ExecRecorded(AtCount(s, w), c);
    assert SideRecorded(w, AtCount(s, w).At(w), u.At(w));
    SecondLogged(s.At(w).log, u.At(w).log, e, Again(op.job.id, r, u.At(w).op.job.id), t.At(w).log);
  }

  /** After the first callback and its command the second one is made, and nothing else. */
  lemma CountedHup(s: State, w: bool, r: int, c: Command, u: State, t: State)
    requires s.script == [[c]] && CountFirst(s.At(w)) && u == Exec(AtCount(s, w), c) && t == HandleHup(s, w)
    requires r == if w then -1 else 0
    ensures t == u.Put(w, Log(u.At(w), Again(s.At(w).op.job.id, r, u.At(w).op.job.id)))
  {
    CountedRange(s, w, r, t);
    OneCommand(s, w, HupEntry(s.At(w).op, r), c, Notify(s.Put(w, Clear(s.At(w))), w, HupEntry(s.At(w).op, r)));
    CountedTwice(s, w, r, c, u, t);
  }

  lemma CountedRange(s: State, w: bool, r: int, t: State)
    requires CountFirst(s.At(w)) && t == HandleHup(s, w) && r == if w then -1 else 0
    ensures t == HupAll(s, w, r) && HupEntry(s.At(w).op, r) == CountEntry(s.At(w).op)
  {
    CountedKind(s.At(w).op.job.operation);
    HupSteps(s, w, r, t);
  }

  lemma CountedKind(o: Operations)
    requires Code(ReadAll) <= Code(o) <= Code(RecvAll)
    ensures o != NoOp && IsAll(o) && !(Code(Read) <= Code(o) <= Code(SendFileFrom))
  {
  }

  lemma CountedTwice(s: State, w: bool, r: int, c: Command, u: State, t: State)
    requires CountFirst(s.At(w)) && t == HupAll(s, w, r)
    requires u == Exec(AtCount(s, w), c) && u == Notify(s.Put(w, Clear(s.At(w))), w, HupEntry(s.At(w).op, r))
    ensures t == u.Put(w, Log(u.At(w), Again(s.At(w).op.job.id, r, u.At(w).op.job.id)))
  {
    HupAllCalls(s, w, r, u, t);
    assert u.script == [];
  }

  lemma OneCommand(s: State, w: bool, e: Entry, c: Command, t: State)
    requires s.script == [[c]] && t == Notify(s.Put(w, Clear(s.At(w))), w, e)
    ensures t == Exec(s.(script := []).Put(w, Log(Clear(s.At(w)), e)), c)
  {
    var s1 := s.(script := []).Put(w, Log(Clear(s.At(w)), e));
    assert [c][1..] == [];
    assert s.script[1..] == [] && t == RunCommands(s1, [c]) == RunCommands(Exec(s1, c), []);
  }

  lemma SecondLogged(x: seq<Entry>, y: seq<Entry>, e: Entry, g: Entry, z: seq<Entry>)
    requires x + [e] <= y && !e.Again? && (forall i :: |x| < i < |y| ==> !y[i].Again?)
    requires g.Again? && z == y + [g]
    ensures NoneStray(x, z) <==> g.to == g.of
  {
    assert y[|x|] == e && z[|y|] == g;
  }

  /** What completes at once leaves the slot as it was. */
  lemma OwnerStays(s: State, w: bool, c: Command, t: State)
    requires s.script == [] && !Busy(s.At(w)) && Starts(w, c) && !MayReplace(s.At(w), w, c) && t == Exec(s, c)
    ensures t.At(w).op == s.At(w).op
  {
    match c {
      case Start(_, shape, req, repeat) => PlainCompletes(s, w, Begin(s.At(w), Opcode(w, shape), req, repeat), t);
      case StartAll(_, shape, req) => WholeCompletes(s, w, shape, Begin(s.At(w), OpcodeAll(w, shape), req, false), t);
    }
  }

  lemma PlainCompletes(s: State, w: bool, job: Job, t: State)
    requires s.script == [] && !Busy(s.At(w)) && !s.At(w).op.skipSync && Want(w, job.req) == 0
    requires job == Begin(s.At(w), job.operation, job.req, job.repeat)
    requires t == StartPlain(s, w, job.operation, job.req, job.repeat)
    ensures t.At(w).op == s.At(w).op
  {
    var side := s.At(w);
    if job.repeat {
      LoopCompletes(s.Put(w, EnterLoop(side, job)), w, job, side.loops, t);
    } else {
      var a := Attempt(w, side.k, job.req);
      AttemptHonest(w, side.k, job.req);
      CalledStays(s, w, Log(side, Started(job)).(k := a.k), job, a.chunk, a.r, t);
    }
  }

  lemma LoopCompletes(s: State, w: bool, job: Job, outer: set<nat>, t: State)
    requires s.script == [] && Want(w, job.req) == 0 && t == Repeating(s, w, job, outer)
    ensures t.At(w).op == s.At(w).op
  {
    var e := TryRepeat(s, w, job);
    LoopTells(s, w, job, e);
    CalledStays(e.s, w, LeaveLoop(e.s.At(w), outer), job, [], e.r, t);
  }

  /** A callback that does nothing leaves the slot as it was. */
  lemma CalledStays(s: State, w: bool, side: Side, job: Job, done: seq<byte>, r: int, t: State)
    requires s.script == [] && t == Conclude(s.Put(w, side), w, job, done, r, false)
    ensures t.At(w).op == side.op
  {
  }

  lemma WholeCompletes(s: State, w: bool, shape: Shape, job: Job, t: State)
    requires s.script == [] && !Busy(s.At(w)) && shape != Vec && Want(w, job.req) == 0
    requires s.At(w).op.skipSync ==> shape == Msg
    requires job == Begin(s.At(w), OpcodeAll(w, shape), job.req, false) && t == Exec(s, StartAll(w, shape, job.req))
    ensures t.At(w).op == s.At(w).op
  {
    var side, k := s.At(w), s.At(w).k;
    assert TryAll(w, k, job.req, []) == Tried(k, [], 0, false);
    if shape == Rw {
      CalledStays(s, w, Log(side, Started(job)).(k := k), job, [], 0, t);
    } else {
      CalledStays(s, w, Log(Crossed(side, true), Started(job)).(k := k), job, [], 0, t);
    }
  }

  /** With nothing to move, whatever may take the slot's callback over does. */
  lemma OwnerReplaced(s: State, w: bool, c: Command, t: State)
    requires s.script == [] && !Busy(s.At(w)) && Starts(w, c) && MayReplace(s.At(w), w, c) && t == Exec(s, c)
    requires Empty(w, s.At(w).k, [])
    ensures t.At(w).op.job.id == |s.At(w).log|
  {
    if MayPark(s.At(w), w, c) {
      StartParks(s, w, c, t);
    } else {
      WholeKind(w, Vec);
      VecReplaces(s, w, Begin(s.At(w), OpcodeAll(w, Vec), c.req, false), t);
    }
  }

  /** Nothing is wanted: `readvAll` or `writevAll` completes at once, but in the slot. */
  lemma VecReplaces(s: State, w: bool, job: Job, t: State)
    requires s.script == [] && !Busy(s.At(w)) && !s.At(w).op.skipSync && Want(w, job.req) == 0 && IsAll(job.operation)
    requires job == Begin(s.At(w), job.operation, job.req, false) && t == StartWholeVec(s, w, job.operation, job.req)
    ensures t.At(w).op.job.id == job.id
  {
    var side := Park(Log(s.At(w), Started(job)), job, []);
    var a := Attempt(w, side.k, job.req);
    AttemptHonest(w, side.k, job.req);
    VecAttempts(s.Put(w, side), w, a, t);
  }
}
