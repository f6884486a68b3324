/** `File` itself: slots and kernel ends updated in place, loops where the code loops.
    Every method is tied to the function of `Engine` it implements. */
module File {
  import opened Kernel
  import opened Engine

  class File {
    const sides: array<Side>   // pendingOps[0] and [1], each with its kernel end
    var events: Mask
    var noted: bool
    var script: seq<seq<Command>>
    var aborted: bool

    ghost predicate Valid() {
      sides.Length == 2
    }

    ghost function Snapshot(): State
      requires Valid()
      reads this, sides
    {
      State(sides[0], sides[1], events, noted, script, aborted)
    }

    function Index(w: bool): nat {
      if w then 1 else 0
    }

    constructor (readEnd: End, writeEnd: End, script: seq<seq<Command>>)
      ensures Valid() && fresh(sides)
      ensures var idle := OperationInfo(Job(0, NoOp, Request([], 0), false), [], false);
        Snapshot() == State(Side(idle, readEnd, [], {}, false), Side(idle, writeEnd, [], {}, false), NO_EVENTS,
            false, script, false)
    {
      var idle := OperationInfo(Job(0, NoOp, Request([], 0), false), [], false);
      sides := new Side[] [Side(idle, readEnd, [], {}, false), Side(idle, writeEnd, [], {}, false)];
      events, noted, aborted := NO_EVENTS, false, false;
      this.script := script;
    }

    method Store(w: bool, side: Side)
      requires Valid()
      modifies sides
      ensures Snapshot() == old(Snapshot()).Put(w, side)
    {
      sides[Index(w)] := side;
    }

    method Notify(w: bool, e: Entry)
      requires Valid()
      modifies this, sides
      ensures Snapshot() == Engine.Notify(old(Snapshot()), w, e)
      decreases |script|, 0, 0
    {
      sides[Index(w)] := Log(sides[Index(w)], e);
      if script != [] {
        var commands := script[0];
        script := script[1..];
        RunCommands(commands);
      }
    }

    method RunCommands(commands: seq<Command>)
      requires Valid()
      modifies this, sides
      ensures Snapshot() == Engine.RunCommands(old(Snapshot()), commands)
      decreases |script|, 3, 0
    {
      ghost var end := Engine.RunCommands(Snapshot(), commands);
      var i := 0;
      while i < |commands|
        invariant 0 <= i <= |commands|
        invariant Engine.RunCommands(Snapshot(), commands[i..]) == end
        invariant |script| <= old(|script|)
      {
        assert commands[i..][1..] == commands[i + 1..];
        Exec(commands[i]);
        i := i + 1;
      }
    }

    /** The callback of an operation that leaves its slot. */
    method Finish(w: bool, side: Side, e: Entry)
      requires Valid()
      modifies this, sides
      ensures Snapshot() == Engine.Notify(old(Snapshot()).Put(w, Clear(side)), w, e)
      decreases |script|, 0, 1
    {
      Store(w, Clear(side));
      Notify(w, e);
    }

    method AllOperation(w: bool, hup: bool)
      requires Valid()
      modifies this, sides
      ensures Snapshot() == Engine.AllOperation(old(Snapshot()), w, hup)
      decreases |script|, 0, 3
    {
      var i := Index(w);
      var op := sides[i].op;
      if IsAll(op.job.operation) {
        var a := Attempt(w, sides[i].k, Rest(op.job.req, |op.done|));
        Store(w, sides[i].(k := a.k));
        AllAttempted(w, hup, a);
      } else if op.job.operation != NoOp {
        aborted := true;
      }
    }

    /** The whole-buffer part after its call. */
    method AllAttempted(w: bool, hup: bool, a: Outcome)
      requires Valid()
      modifies this, sides
      ensures Snapshot() == Engine.AllAttempted(old(Snapshot()), w, hup, a)
      decreases |script|, 0, 2
    {
      var side := sides[Index(w)];
      var op := side.op;
      var done := op.done + a.chunk;
      if a.again {
      } else if a.chunk == [] {
        Finish(w, side, Called(op.job, if op.done == [] then a.r else |op.done|, op.done, true, hup));
      } else if |done| >= Want(w, op.job.req) || hup {
        Finish(w, side, Called(op.job, |done|, done, true, hup));
      } else {
        Store(w, side.(op := op.(done := done)));
      }
    }

    method DoOperation(w: bool, hup: bool)
      requires Valid()
      modifies this, sides
      ensures Snapshot() == Engine.DoOperation(old(Snapshot()), w, hup)
      decreases |script|, 1, 1
    {
      Store(w, Skip(sides[Index(w)], false));
      if IsPlain(sides[Index(w)].op.job.operation) {
        PlainOperation(w, hup);
      } else {
        AllOperation(w, hup);
      }
    }

    /** The loop through the label repeat1. */
    method PlainOperation(w: bool, hup: bool)
      requires Valid() && IsPlain(sides[Index(w)].op.job.operation)
      modifies this, sides
      ensures Snapshot() == Engine.PlainOperation(old(Snapshot()), w, hup)
      decreases |script|, 1, 0
    {
      ghost var end := Engine.PlainOperation(Snapshot(), w, hup);
      var repeating := true;
      while repeating
        invariant repeating ==> IsPlain(sides[Index(w)].op.job.operation)
        invariant repeating ==> Engine.PlainOperation(Snapshot(), w, hup) == end
        invariant !repeating ==> Snapshot() == end
        invariant |script| <= old(|script|)
        decreases repeating, |script|, |sides[Index(w)].k.env|, Avail(w, sides[Index(w)].k)
      {
        repeating := PlainOnce(w, hup);
      }
    }

    /** One pass of that loop; says whether control goes back to the label. */
    method PlainOnce(w: bool, hup: bool) returns (repeating: bool)
      requires Valid() && IsPlain(sides[Index(w)].op.job.operation)
      modifies this, sides
      ensures Engine.PlainOperation(old(Snapshot()), w,
          hup) == if repeating then Engine.PlainOperation(Snapshot(), w, hup) else Snapshot()
      ensures |script| <= old(|script|)
      ensures repeating ==> IsPlain(sides[Index(w)].op.job.operation) && Shrunk(w, old(Snapshot()), Snapshot())
      decreases |script|, 0, 7
    {
      var side := sides[Index(w)];
      repeating := false;
      if side.op.job.operation == Wait {
        Finish(w, side, Called(side.op.job, 0, [], true, hup));
      } else {
        AttemptProgress(w, side.k, side.op.job.req);
        var a := Attempt(w, side.k, side.op.job.req);
        Store(w, side.(k := a.k));
        repeating := PlainAttempted(w, hup, a);
      }
    }

    method PlainAttempted(w: bool, hup: bool, a: Outcome) returns (repeating: bool)
      requires Valid() && IsPlain(sides[Index(w)].op.job.operation)
      modifies this, sides
      ensures Engine.PlainAttempted(old(Snapshot()), w, hup,
          a) == if repeating then Engine.PlainOperation(Snapshot(), w, hup) else Snapshot()
      ensures |script| <= old(|script|)
      ensures repeating ==> IsPlain(sides[Index(w)].op.job.operation) && a.chunk != []
      ensures repeating ==> |script| < old(|script|) || sides[Index(w)].k == old(sides[Index(w)].k)
      decreases |script|, 0, 6
    {
      var side := sides[Index(w)];
      repeating := false;
      if a.again {
      } else if a.chunk == [] {
        Finish(w, side, Called(side.op.job, a.r, [], true, hup));
      } else {
        repeating := Delivered(w, hup, a.chunk);
      }
    }

    /** Less is left to do: a callback ran its script, or the kernel end moved on. */
    ghost predicate Shrunk(w: bool, s: State, t: State) {
      || |t.script| < |s.script|
      || |t.At(w).k.env| < |s.At(w).k.env|
      || (|t.At(w).k.env| == |s.At(w).k.env| && Avail(w, t.At(w).k) < Avail(w, s.At(w).k))
    }

    method Delivered(w: bool, hup: bool, chunk: seq<byte>) returns (repeating: bool)
      requires Valid() && IsPlain(sides[Index(w)].op.job.operation)
      modifies this, sides
      ensures Engine.Delivered(old(Snapshot()), w, hup,
          chunk) == if repeating then Engine.PlainOperation(Snapshot(), w, hup) else Snapshot()
      ensures |script| <= old(|script|)
      ensures repeating ==> IsPlain(sides[Index(w)].op.job.operation)
      ensures repeating ==> |script| < old(|script|) || sides[Index(w)].k == old(sides[Index(w)].k)
      decreases |script|, 0, 5
    {
      var op := sides[Index(w)].op;
      var shortRead := |chunk| < Want(w, op.job.req);
      repeating := false;
      if op.job.repeat {
        Notify(w, Called(op.job, |chunk|, chunk, false, hup));
        repeating := AfterChunk(w, hup, op.job.operation, shortRead);
      } else {
        var side := sides[Index(w)];
        Store(w, if shortRead && !hup then Skip(Clear(side), true) else Clear(side));
        Notify(w, Called(op.job, |chunk|, chunk, true, hup));
      }
    }

    method AfterChunk(w: bool, hup: bool, opType: Operations, shortRead: bool) returns (repeating: bool)
      requires Valid() && IsPlain(opType)
      modifies this, sides
      ensures var s := old(Snapshot());
        Engine.AfterChunk(s, w, hup, opType, shortRead) == if repeating then Engine.PlainOperation(s, w,
            hup) else Snapshot()
      ensures repeating ==> Snapshot() == old(Snapshot()) && IsPlain(sides[Index(w)].op.job.operation)
      ensures |script| <= old(|script|)
      decreases |script|, 0, 4
    {
      var i := Index(w);
      var op := sides[i].op;
      ghost var end := Engine.AfterChunk(Snapshot(), w, hup, opType, shortRead);
      repeating := false;
      if op.job.operation == opType {
        if hup {
          Finish(w, sides[i], Called(op.job, if w then -1 else 0, [], true, true));
        } else if !shortRead {
          repeating := true;
        }
      } else {
        if shortRead && !hup {
          Store(w, Skip(sides[i], true));
        }
        assert end == Engine.AllOperation(Snapshot(), w, hup);
        AllOperation(w, hup);
      }
    }

    /** File_tryOperation with repeat. */
    method TryRepeat(w: bool, job: Job) returns (r: int, again: bool)
      requires Valid()
      modifies this, sides
      ensures var e := Engine.TryRepeat(old(Snapshot()), w, job);
        Snapshot() == e.s && r == e.r && again == e.again
      decreases |script|, 1, 0
    {
      ghost var end := Engine.TryRepeat(Snapshot(), w, job);
      var moving := true;
      r, again := 0, false;
      while moving
        invariant moving ==> Engine.TryRepeat(Snapshot(), w, job) == end
        invariant !moving ==> SyncEnd(Snapshot(), r, again) == end
        invariant |script| <= old(|script|)
        decreases moving, |script|, |sides[Index(w)].k.env|, Avail(w, sides[Index(w)].k)
      {
        moving, r, again := RepeatOnce(w, job);
      }
    }

    /** One round of that loop; says whether it goes on. */
    method RepeatOnce(w: bool, job: Job) returns (moving: bool, r: int, again: bool)
      requires Valid()
      modifies this, sides
      ensures Engine.TryRepeat(old(Snapshot()), w,
          job) == if moving then Engine.TryRepeat(Snapshot(), w, job) else SyncEnd(Snapshot(), r, again)
      ensures |script| <= old(|script|)
      ensures moving ==> Shrunk(w, old(Snapshot()), Snapshot())
      decreases |script|, 0, 1
    {
      var side := sides[Index(w)];
      AttemptProgress(w, side.k, job.req);
      var a := Attempt(w, side.k, job.req);
      Store(w, Crossed(side.(k := a.k), !a.again));
      r, again, moving := a.r, a.again, a.chunk != [];
      if moving {
        Notify(w, Called(job, a.r, a.chunk, false, false));
      }
    }

    /** File_tryOperation2, on the kernel end `k0`. */
    method TryAll(w: bool, k0: End, req: Request) returns (t: Tried)
      ensures t == Engine.TryAll(w, k0, req, [])
    {
      var k, done := k0, [];
      while |done| < Want(w, req)
        invariant Engine.TryAll(w, k, req, done) == Engine.TryAll(w, k0, req, [])
        decreases |k.env|, Avail(w, k)
      {
        AttemptProgress(w, k, Rest(req, |done|));
        var a := Attempt(w, k, Rest(req, |done|));
        k := a.k;
        if a.chunk == [] {
          return Tried(k, done, if done == [] then a.r else |done|, a.again);
        }
        done := done + a.chunk;
      }
      t := Tried(k, done, |done|, false);
    }

    method Conclude(w: bool, job: Job, done: seq<byte>, r: int, again: bool)
      requires Valid()
      modifies this, sides
      ensures Snapshot() == Engine.Conclude(old(Snapshot()), w, job, done, r, again)
      decreases |script|, 0, 1
    {
      if again {
        Store(w, Park(sides[Index(w)], job, done));
      } else {
        Notify(w, Called(job, r, done, true, false));
      }
    }

    /** The synchronous repeat loop, entered with `side`, and its end. */
    method Repeating(w: bool, side: Side, job: Job, outer: set<nat>)
      requires Valid()
      modifies this, sides
      ensures Snapshot() == Engine.Repeating(old(Snapshot()).Put(w, side), w, job, outer)
      decreases |script|, 1, 1
    {
      Store(w, side);
      var r, again := TryRepeat(w, job);
      Store(w, LeaveLoop(sides[Index(w)], outer));
      Conclude(w, job, [], r, again);
    }

    method StartPlain(w: bool, o: Operations, req: Request, repeat: bool)
      requires Valid()
      modifies this, sides
      ensures Snapshot() == Engine.StartPlain(old(Snapshot()), w, o, req, repeat)
      decreases |script|, 2, 0
    {
      var side := sides[Index(w)];
      var job := Begin(side, o, req, repeat);
      if Busy(side) {
      } else if side.op.skipSync {
        Store(w, Park(Log(side, Started(job)), job, []));
      } else if repeat {
        Repeating(w, EnterLoop(side, job), job, side.loops);
      } else {
        StartOnce(w, job);
      }
    }

    method StartOnce(w: bool, job: Job)
      requires Valid() && !Busy(sides[Index(w)]) && !sides[Index(w)].op.skipSync
      requires job == Begin(sides[Index(w)], job.operation, job.req, false)
      modifies this, sides
      ensures Snapshot() == Engine.StartPlain(old(Snapshot()), w, job.operation, job.req, false)
      decreases |script|, 0, 3
    {
      var side := sides[Index(w)];
      var a := Attempt(w, side.k, job.req);
      StoreAndConclude(w, Log(side, Started(job)).(k := a.k), job, a.chunk, a.r, a.again);
    }

    method StoreAndConclude(w: bool, side: Side, job: Job, done: seq<byte>, r: int, again: bool)
      requires Valid()
      modifies this, sides
      ensures Snapshot() == Engine.Conclude(old(Snapshot()).Put(w, side), w, job, done, r, again)
      decreases |script|, 0, 2
    {
      Store(w, side);
      Conclude(w, job, done, r, again);
    }

    method StartWhole(w: bool, o: Operations, req: Request)
      requires Valid()
      modifies this, sides
      ensures Snapshot() == Engine.StartWhole(old(Snapshot()), w, o, req)
      decreases |script|, 2, 0
    {
      var side := sides[Index(w)];
      var job := Begin(side, o, req, false);
      if Busy(side) {
      } else if side.op.skipSync {
        Store(w, Park(Log(side, Started(job)), job, []));
      } else {
        var t := TryAll(w, side.k, req);
        StoreAndConclude(w, Log(side, Started(job)).(k := t.k), job, t.done, t.r, t.again);
      }
    }

    method StartWholeMsg(w: bool, o: Operations, req: Request)
      requires Valid()
      modifies this, sides
      ensures Snapshot() == Engine.StartWholeMsg(old(Snapshot()), w, o, req)
      decreases |script|, 2, 0
    {
      var side := sides[Index(w)];
      var job := Begin(side, o, req, false);
      var t := TryAll(w, side.k, req);
      if t.again && Busy(side) {
        Store(w, side.(k := t.k, clash := side.clash || t.done != []));
      } else {
        StoreAndConclude(w, Log(Crossed(side, true), Started(job)).(k := t.k), job, t.done, t.r, t.again);
      }
    }

    method StartWholeVec(w: bool, o: Operations, req: Request)
      requires Valid() && IsAll(o)
      modifies this, sides
      ensures Snapshot() == Engine.StartWholeVec(old(Snapshot()), w, o, req)
      decreases |script|, 2, 0
    {
      var job := Begin(sides[Index(w)], o, req, false);
      Store(w, Park(Log(sides[Index(w)], Started(job)), job, []));
      if !sides[Index(w)].op.skipSync {
        DoOperation(w, false);
      }
    }

    method Exec(c: Command)
      requires Valid()
      modifies this, sides
      ensures Snapshot() == Engine.Exec(old(Snapshot()), c)
      decreases |script|, 2, 1
    {
      match c {
        case Start(w, shape, req, repeat) => StartPlain(w, Opcode(w, shape), req, repeat);
        case StartAll(w, shape, req) =>
          if shape == Rw {
            StartWhole(w, OpcodeAll(w, shape), req);
          } else if shape == Msg {
            StartWholeMsg(w, OpcodeAll(w, shape), req);
          } else {
            StartWholeVec(w, OpcodeAll(w, shape), req);
          }
        case WaitOn(w) =>
          var job := Begin(sides[Index(w)], Wait, Request([], 0), false);
          if !Busy(sides[Index(w)]) {
            Store(w, Park(Log(sides[Index(w)], Started(job)), job, []));
          }
        case Cancel(w) => Store(w, CancelOp(sides[Index(w)]));
        case Add =>
          sides[0] := sides[0].(k := Arm(false, sides[0].k));
          sides[1] := sides[1].(k := Arm(true, sides[1].k));
        case Remove =>
          events, noted := NO_EVENTS, false;
          sides[0] := sides[0].(k := Disarm(sides[0].k));
          sides[1] := sides[1].(k := Disarm(sides[1].k));
        case Happens(w, event) => Store(w, sides[Index(w)].(k := Raise(w, sides[Index(w)].k, event)));
      }
    }

    method HandleHup(w: bool)
      requires Valid()
      modifies this, sides
      ensures Snapshot() == Engine.HandleHup(old(Snapshot()), w)
    {
      var op := sides[Index(w)].op;
      if op.job.operation == NoOp {
        return;
      }
      var r := if w then -1 else 0;
      if Code(Read) <= Code(op.job.operation) <= Code(SendFileFrom) {
        Finish(w, sides[Index(w)], Called(op.job, r, [], true, true));
      }
      HupAll(w, r);
    }

    method HupAll(w: bool, r: int)
      requires Valid()
      modifies this, sides
      ensures Snapshot() == Engine.HupAll(old(Snapshot()), w, r)
    {
      var op := sides[Index(w)].op;
      if Code(ReadAll) <= Code(op.job.operation) <= Code(RecvAll) {
        if op.done != [] {
          Finish(w, sides[Index(w)], Called(op.job, |op.done|, op.done, true, true));
          Notify(w, Again(op.job.id, r, sides[Index(w)].op.job.id));
        } else {
          Finish(w, sides[Index(w)], Called(op.job, r, [], true, true));
        }
      }
    }

    method Dispatch()
      requires Valid()
      modifies this, sides
      ensures Snapshot() == Engine.Dispatch(old(Snapshot()))
    {
      DispatchRead();
      if !aborted {
        DispatchWrite();
      }
    }

    method DispatchRead()
      requires Valid()
      modifies this, sides
      ensures Snapshot() == Engine.DispatchRead(old(Snapshot()))
    {
      if events.pollin {
        Store(false, sides[0].(k := sides[0].k.(due := false)));
        DoOperation(false, events.err || events.hup);
      } else if events.err || events.hup {
        HandleHup(false);
      }
    }

    method DispatchWrite()
      requires Valid()
      modifies this, sides
      ensures Snapshot() == Engine.DispatchWrite(old(Snapshot()))
    {
      if events.pollout {
        Store(true, sides[1].(k := sides[1].k.(due := false)));
        DoOperation(true, events.err);
      } else if events.err {
        HandleHup(true);
      }
    }

    /** epoll_wait puts an entry for this descriptor into the batch. */
    method Collect(extra: Mask)
      requires Valid() && !aborted
      modifies this, sides
      ensures Snapshot() == Engine.Next(old(Snapshot()), Engine.Collect(extra))
    {
      if !noted && sides[0].k.armed {
        events := extra.(pollin := extra.pollin || Ready(false, sides[0].k),
                         pollout := extra.pollout || Ready(true, sides[1].k));
        noted := true;
        sides[0] := sides[0].(k := TakeEdge(sides[0].k, events.pollin));
        sides[1] := sides[1].(k := TakeEdge(sides[1].k, events.pollout));
      }
    }

    /** The batch loop reaches this descriptor's entry. */
    method Deliver()
      requires Valid() && !aborted
      modifies this, sides
      ensures Snapshot() == Engine.Next(old(Snapshot()), Engine.Deliver)
    {
      if noted {
        Dispatch();
        events, noted := NO_EVENTS, false;
      }
    }
  }
}
