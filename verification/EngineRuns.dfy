/** Runs of a new `File`, step by step, in which the engine's promises fail. */
module EngineRuns {
  import opened Kernel
  import opened Engine
  import opened EngineHistory
  import opened EngineRecords
  import opened EngineService
  import opened EngineTheorems
  import opened EngineGuards
  import opened EngineLosses
  import opened EngineLimits

  // ---- A run that reaches assert(false). ----

  /** A callback that stops reading and starts to receive instead. */
  const SWITCH := [Cancel(false), Start(false, Msg, Request([], 2), false)]

  const FRESH_END: End := End([], 0, 0, Open, false, false, false, [], 0)

  const FRESH_SIDE := Side(OperationInfo(Job(0, NoOp, Request([], 0), false), [], false), FRESH_END, [], {}, false)

  const SWITCHING := State(FRESH_SIDE, FRESH_SIDE, NO_EVENTS, false, [SWITCH], false)

  /** Register, start a repeating read, and let one byte arrive. */
  const ABORTING := [
    Do(Add),
    Do(Start(false, Rw, Request([], 2), true)),
    Do(Happens(false, Arrive([1]))),
    Collect(NO_EVENTS),
    Deliver]

  /** The run in which the callback for that byte switches from `read` to `recv`. */
  lemma AbortReached()
    ensures Initial(SWITCHING) && Run(SWITCHING, ABORTING).aborted
  {
    var s1 := Next(SWITCHING, ABORTING[0]);
    var s2 := Next(s1, ABORTING[1]);
    ReadParks(s1, 2, s2);
    RunOne(SWITCHING, ABORTING);
    RunOne(s1, ABORTING[1..]);
    ByteAborts(s2);
  }

  /** The byte arrives for the parked read and is delivered. */
  lemma ByteAborts(s: State)
    requires !s.aborted && !s.noted && s.script == [SWITCH] && s.rd.k.armed && !Ready(true, s.wr.k)
    requires s.rd.op.job.operation == Read && s.rd.op.job.req == Request([], 2) && s.rd.op.job.repeat
    requires s.rd.k.env == [] && s.rd.k.stop == Open && Avail(false, s.rd.k) == 0
    ensures Run(s, ABORTING[2..]).aborted
  {
    var s3 := Next(s, ABORTING[2]);
    assert s3.rd.k == Raise(false, s.rd.k, Arrive([1])) && s3.rd.k.edge;
    var s4 := Next(s3, ABORTING[3]);
    assert s4.events == Mask(true, false, false, false) && s4.noted;
    DeliverAborts(s4);
    RunOne(s, ABORTING[2..]);
    RunOne(s3, ABORTING[3..]);
    RunOne(s4, ABORTING[4..]);
    assert ABORTING[5..] == [];
  }

  lemma RunOne(s: State, steps: seq<Step>)
    requires steps != []
    ensures Run(s, steps) == Run(Next(s, steps[0]), steps[1..])
  {
  }

  /** A repeating operation on an idle side enters its loop. */
  lemma StartLoops(s: State, w: bool, shape: Shape, req: Request, job: Job, t: State)
    requires !s.aborted && !Busy(s.At(w)) && !s.At(w).op.skipSync && job == Begin(s.At(w), Opcode(w, shape), req, true)
    requires t == Next(s, Do(Start(w, shape, req, true)))
    ensures t == LoopEnd(s.Put(w, EnterLoop(s.At(w), job)), w, job, s.At(w).loops)
  {
    assert t == StartPlain(s, w, job.operation, req, true);
    assert t == Repeating(s.Put(w, EnterLoop(s.At(w), job)), w, job, s.At(w).loops);
  }

  /** A repeating read on an empty, idle side is parked. */
  lemma ReadParks(s: State, len: nat, t: State)
    requires !s.aborted && !Busy(s.rd) && !s.rd.op.skipSync && s.rd.loops == {} && len > 0
    requires s.rd.k.env == [] && s.rd.k.stop == Open && Avail(false, s.rd.k) == 0
    requires t == Next(s, Do(Start(false, Rw, Request([], len), true)))
    ensures t.rd.op == OperationInfo(Begin(s.rd, Read, Request([], len), true), [], false)
    ensures t == s.(rd := t.rd) && t.rd.k == s.rd.k.(attempts := s.rd.k.attempts + 1)
  {
    var job := Begin(s.rd, Read, Request([], len), true);
    var s0 := s.Put(false, EnterLoop(s.rd, job));
    var a := Attempt(false, s.rd.k, job.req);
    assert a.again && a.chunk == [];
    var e := TryRepeat(s0, false, job);
    RepeatCalls(s0, false, job, a, e);
    StartLoops(s, false, Rw, Request([], len), job, t);
    LoopParks(e.s.Put(false, LeaveLoop(e.s.rd, {})), job, e.r, t);
  }

  lemma LoopParks(s: State, job: Job, r: int, t: State)
    requires t == Conclude(s, false, job, [], r, true) && !Busy(s.rd)
    ensures t == s.(rd := s.rd.(op := OperationInfo(job, [], s.rd.op.skipSync)))
  {
  }

  /** One byte for a repeating read of two, whose callback switches to `recv`. */
  lemma DeliverAborts(s: State)
    requires !s.aborted && s.noted && s.events == Mask(true, false, false, false) && s.script == [SWITCH]
    requires s.rd.op.job.operation == Read && s.rd.op.job.req == Request([], 2) && s.rd.op.job.repeat
    requires s.rd.k.env == [] && s.rd.k.stop == Open && Avail(false, s.rd.k) == 1
    ensures Next(s, Deliver).aborted
  {
    var s0 := Undue(s, false);
    var s1 := s0.Put(false, Skip(s0.rd, false));
    var t := DoOperation(s0, false, false);
    var a := Attempt(false, s1.rd.k, Request([], 2));
    PlainCalls(s1, false, false, a, t);
    assert |a.chunk| == 1 && !a.again;
    SwitchAborts(s1.Put(false, s1.rd.(k := a.k)), a.chunk, t);
  }

  lemma SwitchAborts(s: State, chunk: seq<byte>, t: State)
    requires !s.aborted && s.script == [SWITCH] && |chunk| == 1
    requires s.rd.op.job.operation == Read && s.rd.op.job.req == Request([], 2) && s.rd.op.job.repeat
    requires s.rd.k.env == [] && s.rd.k.stop == Open && Avail(false, s.rd.k) == 0
    requires t == Delivered(s, false, false, chunk)
    ensures t.aborted
  {
    var e := Called(s.rd.op.job, 1, chunk, false, false);
    var s1 := Notify(s, false, e);
    SwitchReplaces(s.(rd := Log(s.rd, e), script := []), s1);
    AbortsThere(s1, t);
  }

  lemma AbortsThere(s: State, t: State)
    requires !s.aborted && s.rd.op.job.operation == Recv && t == AfterChunk(s, false, false, Read, true)
    ensures t.aborted
  {
    AbortExactly(s, false, false, Read, true);
  }

  lemma SwitchReplaces(s: State, t: State)
    requires s.rd.op.job.operation == Read && s.script == []
    requires s.rd.k.env == [] && s.rd.k.stop == Open && Avail(false, s.rd.k) == 0
    requires t == RunCommands(s, SWITCH)
    ensures t.rd.op.job.operation == Recv
  {
    var s1 := Exec(s, SWITCH[0]);
    assert s1.rd == CancelOp(s.rd);
    var s2 := Exec(s1, SWITCH[1]);
    RecvParks(s1, s2);
    assert SWITCH[1..] == [SWITCH[1]] && SWITCH[1..][1..] == [];
    assert t == RunCommands(s1, SWITCH[1..]) == RunCommands(s2, []);
  }

  lemma RecvParks(s: State, t: State)
    requires !Busy(s.rd) && s.script == []
    requires s.rd.k.env == [] && s.rd.k.stop == Open && Avail(false, s.rd.k) == 0
    requires t == Exec(s, SWITCH[1])
    ensures t.rd.op.job.operation == Recv
  {
    var q := Request([], 2);
    var job := Begin(s.rd, Recv, q, false);
    var a := Attempt(false, s.rd.k, q);
    assert t == StartPlain(s, false, Recv, q, false) by {
      assert SWITCH[1] == Start(false, Msg, q, false) && Opcode(false, Msg) == Recv;
    }
    assert a.again;
    if !s.rd.op.skipSync {
      assert t == Conclude(s.Put(false, Log(s.rd, Started(job)).(k := a.k)), false, job, a.chunk, a.r, true);
    }
  }

  // ---- A run that reports bytes out of turn. ----

  /** A callback that starts to fill a buffer of ten. */
  const FILLING := [StartAll(false, Rw, Request([], 10))]

  /** A third byte arrives right before the fourth call. */
  const INTERLEAVING := State(FRESH_SIDE.(k := FRESH_END.(env := [[], [], [], [Arrive([3])]])), FRESH_SIDE, NO_EVENTS,
                              false, [FILLING], false)

  const INTERLEAVED := [Do(Happens(false, Arrive([1, 2]))), Do(Start(false, Rw, Request([], 1), true))]

  /** The run in which the first callback of a repeating read of one byte issues `readAll`:
      that one takes the second byte and waits, the loop takes the third byte and reports
      it, and the pending operation is overwritten when the loop is parked. */
  lemma InterleavedReached()
    ensures Initial(INTERLEAVING)
    ensures var side := Run(INTERLEAVING, INTERLEAVED).rd;
      LogBytes(side.log) == [1, 3, 2] && Pending(side) == [] && side.k.stream == [1, 2, 3]
  {
    var s := Next(INTERLEAVING, INTERLEAVED[0]);
    assert s.rd == FRESH_SIDE.(k := FRESH_END.(stream := [1, 2], env := [[], [], [], [Arrive([3])]]));
    RunOne(INTERLEAVING, INTERLEAVED);
    Interleaves(s);
  }

  lemma Interleaves(s: State)
    requires !s.aborted && s.script == [FILLING]
    requires s.rd == FRESH_SIDE.(k := FRESH_END.(stream := [1, 2], env := [[], [], [], [Arrive([3])]]))
    ensures var side := Run(s, INTERLEAVED[1..]).rd;
      LogBytes(side.log) == [1, 3, 2] && Pending(side) == [] && side.k.stream == [1, 2, 3]
  {
    var job := Begin(s.rd, Read, Request([], 1), true);
    var t := Next(s, INTERLEAVED[1]);
    RunOne(s, INTERLEAVED[1..]);
    assert INTERLEAVED[2..] == [];
    Appended([], Started(job));
    assert s.rd.log + [Started(job)] == [] + [Started(job)];
    StartLoops(s, false, Rw, Request([], 1), job, t);
    LoopInterleaves(s.Put(false, EnterLoop(s.rd, job)), job, t);
  }

  lemma LoopInterleaves(s: State, job: Job, t: State)
    requires job.req == Request([], 1) && !Busy(s.rd) && !s.rd.op.skipSync && s.script == [FILLING]
    requires LogBytes(s.rd.log) == []
    requires s.rd.k == FRESH_END.(stream := [1, 2], env := [[], [], [], [Arrive([3])]])
    requires t == LoopEnd(s, false, job, {})
    ensures LogBytes(t.rd.log) == [1, 3, 2] && Pending(t.rd) == [] && t.rd.k.stream == [1, 2, 3]
  {
    var e := TryRepeat(s, false, job);
    FirstCallback(s, job, e);
    LoopParkedOver(e, job, t);
  }

  lemma LoopParkedOver(e: SyncEnd, job: Job, t: State)
    requires t == Conclude(e.s.Put(false, LeaveLoop(e.s.rd, {})), false, job, [], e.r, e.again)
    requires e.again && LogBytes(e.s.rd.log) == [1, 3] && Pending(e.s.rd) == [2] && e.s.rd.k.stream == [1, 2, 3]
    ensures LogBytes(t.rd.log) == [1, 3, 2] && Pending(t.rd) == [] && t.rd.k.stream == [1, 2, 3]
  {
    ParkedOver(e.s.Put(false, LeaveLoop(e.s.rd, {})), job, e.r, t);
    assert [1, 3] + [2] == [1, 3, 2];
  }

  /** The first round of the loop, and what its callback makes of the rest. */
  lemma FirstCallback(s: State, job: Job, e: SyncEnd)
    requires job.req == Request([], 1) && !Busy(s.rd) && !s.rd.op.skipSync && s.script == [FILLING]
    requires LogBytes(s.rd.log) == []
    requires s.rd.k == FRESH_END.(stream := [1, 2], env := [[], [], [], [Arrive([3])]])
    requires e == TryRepeat(s, false, job)
    ensures e.again && LogBytes(e.s.rd.log) == [1, 3] && Pending(e.s.rd) == [2]
    ensures e.s.rd.k.stream == [1, 2, 3] && e.s.script == []
  {
    var a := Attempt(false, s.rd.k, job.req);
    TakesOne(s.rd.k, a);
    FirstRound(s, job, a, FILLING, e);
    Appended(s.rd.log, Called(job, 1, [1], false, false));
    AfterFilling(AtCommands(s, job, a), job, e);
  }

  /** The callback's `readAll` is parked with the second byte, and the loop goes on. */
  lemma AfterFilling(s: State, job: Job, e: SyncEnd)
    requires job.req == Request([], 1) && s.script == [] && !Busy(s.rd) && !s.rd.op.skipSync
    requires LogBytes(s.rd.log) == [1] && s.rd.k.stream == [1, 2] && s.rd.k.pos == 1 && s.rd.k.stop == Open
    requires s.rd.k.env == [[], [], [Arrive([3])]] && e == TryRepeat(RunCommands(s, FILLING), false, job)
    ensures e.again && LogBytes(e.s.rd.log) == [1, 3] && Pending(e.s.rd) == [2]
    ensures e.s.rd.k.stream == [1, 2, 3] && e.s.script == []
  {
    var s3 := RunCommands(s, FILLING);
    FillingParks(s, s3);
    LoopCrosses(s3, false, job, 3, e);
    SecondRound(s3.rd, e.s.rd);
  }

  lemma TakesOne(k: End, a: Outcome)
    requires k.pos == 0 && k.attempts == 0 && k.stream != [] && k.stream[0] == 1 && (k.env == [] || k.env[0] == [])
    requires a == Attempt(false, k, Request([], 1))
    ensures a.chunk == [1] && !a.again && a.r == 1
    ensures a.k == k.(env := if k.env == [] then [] else k.env[1..], pos := 1, attempts := 1)
  {
    assert k.env != [] ==> Tick(false, k) == k.(env := k.env[1..]);
  }

  /** When the first callback of a loop issues its commands. */
  function AtCommands(s: State, job: Job, a: Outcome): State {
    s.(rd := Log(Crossed(s.rd.(k := a.k), true), Called(job, a.r, a.chunk, false, false)), script := [])
  }

  lemma FirstRound(s: State, job: Job, a: Outcome, commands: seq<Command>, e: SyncEnd)
    requires a == Attempt(false, s.rd.k, job.req) && a.chunk != [] && !a.again && s.script == [commands]
    requires e == TryRepeat(s, false, job)
    ensures e == TryRepeat(RunCommands(AtCommands(s, job, a), commands), false, job)
  {
    RepeatCalls(s, false, job, a, e);
    var s1 := s.Put(false, Crossed(s.rd.(k := a.k), true));
    assert Notify(s1, false, Called(job, a.r, a.chunk, false, false)) == RunCommands(AtCommands(s, job, a), commands);
  }

  lemma FillingParks(s: State, t: State)
    requires s.script == [] && !Busy(s.rd) && !s.rd.op.skipSync && LogBytes(s.rd.log) == [1]
    requires s.rd.k.stream == [1, 2] && s.rd.k.pos == 1 && s.rd.k.stop == Open
    requires s.rd.k.env == [[], [], [Arrive([3])]] && t == RunCommands(s, FILLING)
    ensures t.script == [] && Pending(t.rd) == [2] && Empty(false, t.rd.k, [[Arrive([3])]])
    ensures LogBytes(t.rd.log) == [1] && Moved(false, t.rd.k) == [1, 2]
  {
    var u := Exec(s, FILLING[0]);
    assert FILLING[1..] == [] && t == RunCommands(u, []);
    assert Moved(false, s.rd.k) == [1] && [1] + [2] == [1, 2];
    assert Before(Rw) + [[Arrive([3])]] == s.rd.k.env;
    assert s.rd.k == OneByte(false, s.rd.k, 2, Before(Rw) + [[Arrive([3])]]);
    WholeParks(s, false, Rw, 2, Request([], 10), [[Arrive([3])]], s.rd.k);
    assert With(s, false, s.rd.k) == s;
  }

  /** The bytes before and after the second round. */
  lemma SecondRound(a: Side, b: Side)
    requires LogBytes(a.log) == [1] && Moved(false, a.k) == [1, 2]
    requires LogBytes(b.log) == LogBytes(a.log) + [3] && Moved(false, b.k) == Moved(false, a.k) + [3]
    requires Avail(false, b.k) == 0
    ensures LogBytes(b.log) == [1, 3] && b.k.stream == [1, 2, 3]
  {
    AllTaken(b.k);
    assert [1] + [3] == [1, 3] && [1, 2] + [3] == [1, 2, 3];
  }

  lemma AllTaken(k: End)
    requires Avail(false, k) == 0
    ensures Moved(false, k) == k.stream
  {
  }

  lemma ParkedOver(s: State, job: Job, r: int, t: State)
    requires t == Conclude(s, false, job, [], r, true) && Busy(s.rd)
    ensures LogBytes(t.rd.log) == LogBytes(s.rd.log) + Pending(s.rd) && Pending(t.rd) == [] && t.rd.k == s.rd.k
  {
    Appended(s.rd.log, Overwritten(s.rd.op.job.id, s.rd.op.done));
  }

  // ---- A run that loses an operation. ----

  const WAITING := [WaitOn(false)]

  const OVERWRITING := State(FRESH_SIDE, FRESH_SIDE, NO_EVENTS, false, [WAITING], false)

  const READING := [Do(Happens(false, Arrive([1]))), Do(Start(false, Rw, Request([], 1), true))]

  const READER := Job(0, Read, Request([], 1), true)

  /** The run in which the callback of a repeating read waits for more: the `wait` is parked,
      and then the loop is parked over it. Nobody will ever answer it. */
  lemma OverwrittenReached()
    ensures Initial(OVERWRITING)
    ensures var side := Run(OVERWRITING, READING).rd;
      && side.op.job == READER
      && side.log == [Started(READER), Called(READER, 1, [1], false, false),
                      Started(Job(2, Wait, Request([], 0), false)), Overwritten(2, [])]
  {
    var s := Next(OVERWRITING, READING[0]);
    RunOne(OVERWRITING, READING);
    RunOne(s, READING[1..]);
    assert READING[2..] == [];
    assert s.rd == FRESH_SIDE.(k := FRESH_END.(stream := [1]));
    var t := Next(s, READING[1]);
    var s0 := s.Put(false, EnterLoop(s.rd, READER));
    StartLoops(s, false, Rw, Request([], 1), READER, t);
    assert s0.rd.log == [Started(READER)];
    WaitVanishes(s0, t);
  }

  lemma WaitVanishes(s: State, t: State)
    requires s.script == [WAITING] && !Busy(s.rd) && !s.rd.op.skipSync && s.rd.log == [Started(READER)]
    requires s.rd.k == FRESH_END.(stream := [1]) && t == LoopEnd(s, false, READER, {})
    ensures t.rd.op.job == READER
    ensures t.rd.log == [Started(READER), Called(READER, 1, [1], false, false),
                         Started(Job(2, Wait, Request([], 0), false)), Overwritten(2, [])]
  {
    var a := Attempt(false, s.rd.k, READER.req);
    TakesOne(s.rd.k, a);
    var e := TryRepeat(s, false, READER);
    var s2 := AtCommands(s, READER, a);
    var s3 := RunCommands(s2, WAITING);
    FirstRound(s, READER, a, WAITING, e);
    WaitParks(s2, s3);
    WaitOverwritten(s3, e, t);
  }

  /** The loop goes on with the `wait` in the slot. */
  lemma WaitOverwritten(s: State, e: SyncEnd, t: State)
    requires s.script == [] && Empty(false, s.rd.k, []) && e == TryRepeat(s, false, READER)
    requires s.rd.op == OperationInfo(Job(2, Wait, Request([], 0), false), [], false)
    requires t == Conclude(e.s.Put(false, LeaveLoop(e.s.rd, {})), false, READER, [], e.r, e.again)
    ensures t.rd.op.job == READER && t.rd.log == s.rd.log + [Overwritten(2, [])]
  {
    assert t == LoopEnd(s, false, READER, {});
    LoopOverwrites(s, false, READER, {}, t);
    LoopEndParks(s, READER, t);
  }

  lemma WaitParks(s: State, t: State)
    requires s.script == [] && !Busy(s.rd) && t == RunCommands(s, WAITING)
    ensures var job := Job(|s.rd.log|, Wait, Request([], 0), false);
      t == s.(rd := s.rd.(log := s.rd.log + [Started(job)], op := OperationInfo(job, [], s.rd.op.skipSync)))
  {
    assert WAITING[1..] == [] && t == RunCommands(Exec(s, WAITING[0]), []);
  }

  lemma LoopEndParks(s: State, job: Job, t: State)
    requires s.script == [] && Empty(false, s.rd.k, []) && Want(false, job.req) > 0
    requires t == LoopEnd(s, false, job, {})
    ensures t.rd.op.job == job
  {
    NoByte(false, s.rd.k, job.req, []);
    RepeatCalls(s, false, job, Attempt(false, s.rd.k, job.req), TryRepeat(s, false, job));
  }

  // ---- A run that ignores a cancel. ----

  const CANCELS := [Cancel(false)]

  const CANCELLING := State(FRESH_SIDE, FRESH_SIDE, NO_EVENTS, false, [CANCELS], false)

  /** The run in which the callback of a repeating read cancels it: the operation is not in
      the slot while its synchronous loop runs, so it goes on, and is parked. */
  lemma CancelIgnoredReached()
    ensures Initial(CANCELLING)
    ensures var side := Run(CANCELLING, READING).rd;
      side.op.job == READER && side.log == [Started(READER), Called(READER, 1, [1], false, false)]
  {
    var s := Next(CANCELLING, READING[0]);
    RunOne(CANCELLING, READING);
    RunOne(s, READING[1..]);
    assert READING[2..] == [];
    assert s.rd == FRESH_SIDE.(k := FRESH_END.(stream := [1]));
    var s0 := s.Put(false, EnterLoop(s.rd, READER));
    StartLoops(s, false, Rw, Request([], 1), READER, Next(s, READING[1]));
    assert s0.rd.log == [Started(READER)];
    CancelMisses(s0, Next(s, READING[1]));
  }

  lemma CancelMisses(s: State, t: State)
    requires s.script == [CANCELS] && !Busy(s.rd) && !s.rd.op.skipSync && s.rd.log == [Started(READER)]
    requires s.rd.k == FRESH_END.(stream := [1]) && t == LoopEnd(s, false, READER, {})
    ensures t.rd.op.job == READER && t.rd.log == [Started(READER), Called(READER, 1, [1], false, false)]
  {
    var a := Attempt(false, s.rd.k, READER.req);
    TakesOne(s.rd.k, a);
    var s2 := AtCommands(s, READER, a);
    FirstRound(s, READER, a, CANCELS, TryRepeat(s, false, READER));
    NoEffect(s2);
    NothingLeft(s2, t);
  }

  lemma NoEffect(s: State)
    requires !Busy(s.rd)
    ensures RunCommands(s, CANCELS) == s
  {
    assert CANCELS[1..] == [] && RunCommands(s, CANCELS) == RunCommands(s, []);
  }

  lemma NothingLeft(s: State, t: State)
    requires s.script == [] && !Busy(s.rd) && Empty(false, s.rd.k, []) && t == LoopEnd(s, false, READER, {})
    ensures t.rd.op.job == READER && t.rd.log == s.rd.log
  {
    NoByte(false, s.rd.k, READER.req, []);
    RepeatCalls(s, false, READER, Attempt(false, s.rd.k, READER.req), TryRepeat(s, false, READER));
  }

  // ---- A run in which a hang-up's 0 is false. ----

  const QUIET := State(FRESH_SIDE, FRESH_SIDE, NO_EVENTS, false, [], false)

  /** A repeating read of one byte waits, two bytes arrive, and the peer hangs up. */
  const HANGING := [
    Do(Add),
    Do(Start(false, Rw, Request([], 1), true)),
    Do(Happens(false, Arrive([1, 2]))),
    Do(Happens(false, HangUp)),
    Collect(Mask(false, false, false, true)),
    Deliver]

  /** The read is told 0 with the second byte still in the queue. */
  lemma FalseZeroReached()
    ensures Initial(QUIET)
    ensures var side := Run(QUIET, HANGING).rd;
      && side.log != [] && side.log[|side.log| - 1] == Called(READER, 0, [], true, true)
      && Avail(false, side.k) > 0
  {
    var s1 := Next(QUIET, HANGING[0]);
    var s2 := Next(s1, HANGING[1]);
    Added(s1);
    ReadParks(s1, 1, s2);
    RunOne(QUIET, HANGING);
    RunOne(s1, HANGING[1..]);
    HungUp(s2);
  }

  lemma Added(s: State)
    requires s == Next(QUIET, Do(Add))
    ensures var side := FRESH_SIDE.(k := FRESH_END.(armed := true)); s == QUIET.(rd := side, wr := side)
  {
  }

  /** Two bytes and the hang-up come for the parked read. */
  lemma HungUp(s: State)
    requires !s.aborted && !s.noted && s.script == [] && s.rd.k.armed && !Ready(true, s.wr.k)
    requires s.rd.op == OperationInfo(READER, [], false)
    requires s.rd.k.env == [] && s.rd.k.stop == Open && Avail(false, s.rd.k) == 0
    ensures var side := Run(s, HANGING[2..]).rd;
      && side.log != [] && side.log[|side.log| - 1] == Called(READER, 0, [], true, true)
      && Avail(false, side.k) > 0
  {
    var s3 := Next(s, HANGING[2]);
    assert s3.rd.k == Raise(false, s.rd.k, Arrive([1, 2]));
    var s4 := Next(s3, HANGING[3]);
    RunOne(s, HANGING[2..]);
    RunOne(s3, HANGING[3..]);
    Collected(s4);
  }

  lemma Collected(s: State)
    requires !s.aborted && !s.noted && s.script == [] && s.rd.k.armed && s.rd.k.edge && !Ready(true, s.wr.k)
    requires s.rd.op == OperationInfo(READER, [], false) && s.rd.k.env == [] && Avail(false, s.rd.k) == 2
    ensures var side := Run(s, HANGING[4..]).rd;
      && side.log != [] && side.log[|side.log| - 1] == Called(READER, 0, [], true, true)
      && Avail(false, side.k) > 0
  {
    var s5 := Next(s, HANGING[4]);
    assert s5.events == Mask(true, false, false, true) && s5.noted;
    RunOne(s, HANGING[4..]);
    RunOne(s5, HANGING[5..]);
    assert HANGING[6..] == [];
    LastByteLeft(s5);
  }

  lemma LastByteLeft(s: State)
    requires !s.aborted && s.noted && s.script == [] && s.events == Mask(true, false, false, true)
    requires s.rd.op == OperationInfo(READER, [], false) && s.rd.k.env == [] && Avail(false, s.rd.k) == 2
    ensures var side := Next(s, Deliver).rd;
      && side.log != [] && side.log[|side.log| - 1] == Called(READER, 0, [], true, true)
      && Avail(false, side.k) > 0
  {
    var s0 := Undue(s, false);
    var t := PlainOperation(s0, false, true);
    assert s0.Put(false, Skip(s0.rd, false)) == s0;
    assert DispatchRead(s) == t;
    OneByteTold(s0, t);
    assert DispatchWrite(t) == t;
  }

  lemma OneByteTold(s: State, t: State)
    requires s.script == [] && s.rd.op == OperationInfo(READER, [], false) && s.rd.k.env == []
    requires Avail(false, s.rd.k) == 2 && t == PlainOperation(s, false, true)
    ensures t == s.(rd := t.rd) && Avail(false, t.rd.k) == 1
    ensures t.rd.log != [] && t.rd.log[|t.rd.log| - 1] == Called(READER, 0, [], true, true)
  {
    var a := Attempt(false, s.rd.k, READER.req);
    assert |a.chunk| == 1 && !a.again && Avail(false, a.k) == 1;
    PlainCalls(s, false, true, a, t);
    HangupZero(s.Put(false, s.rd.(k := a.k)), a.chunk, t);
  }

  // ---- A run in which `recvAll` drops a byte. ----

  /** What is queued before three calls does not change. */
  const TAKING := State(FRESH_SIDE.(k := FRESH_END.(env := [[], [], []])), FRESH_SIDE, NO_EVENTS, false, [], false)

  /** A read waits, a byte arrives, and `recvAll` is started beside it. */
  const TAKEN := [
    Do(Start(false, Rw, Request([], 5), false)),
    Do(Happens(false, Arrive([1]))),
    Do(StartAll(false, Msg, Request([], 2)))]

  /** The byte is taken from the stream, and neither reported nor held. */
  lemma DroppedReached()
    ensures Initial(TAKING)
    ensures var side := Run(TAKING, TAKEN).rd;
      LogBytes(side.log) == [] && Pending(side) == [] && Moved(false, side.k) == [1]
  {
    var s := Next(TAKING, TAKEN[0]);
    OneShotParks(TAKING, s);
    RunOne(TAKING, TAKEN);
    assert LogBytes([Started(s.rd.op.job)]) == LogBytes([Started(s.rd.op.job)][..0]) == [];
    ByteDropped(s);
  }

  lemma ByteDropped(s: State)
    requires !s.aborted && s.script == [] && Busy(s.rd) && s.rd.op.done == [] && LogBytes(s.rd.log) == []
    requires s.rd.k == FRESH_END.(env := [[], []], attempts := 1)
    ensures var side := Run(s, TAKEN[1..]).rd;
      LogBytes(side.log) == [] && Pending(side) == [] && Moved(false, side.k) == [1]
  {
    var s2 := Next(s, TAKEN[1]);
    assert s2.rd.k == s.rd.k.(stream := [1]);
    RecvAllDrops(s2, Next(s2, TAKEN[2]));
    RunOne(s, TAKEN[1..]);
    RunOne(s2, TAKEN[2..]);
    assert TAKEN[3..] == [];
  }

  lemma OneShotParks(s: State, t: State)
    requires s == TAKING && t == Next(s, TAKEN[0])
    ensures var job := Job(0, Read, Request([], 5), false);
      t == s.(rd := s.rd.(op := OperationInfo(job, [], false), log := [Started(job)],
                          k := FRESH_END.(env := [[], []], attempts := 1)))
  {
    var job := Begin(s.rd, Read, Request([], 5), false);
    var a := Attempt(false, s.rd.k, job.req);
    assert Tick(false, s.rd.k) == s.rd.k.(env := [[], []]);
    assert t == StartPlain(s, false, Read, job.req, false);
    assert t == Conclude(s.Put(false, Log(s.rd, Started(job)).(k := a.k)), false, job, [], a.r, true);
  }

  lemma RecvAllDrops(s: State, t: State)
    requires !s.aborted && s.script == [] && Busy(s.rd) && s.rd.op.done == [] && LogBytes(s.rd.log) == []
    requires s.rd.k.stream == [1] && s.rd.k.pos == 0 && s.rd.k.env == [[], []] && s.rd.k.stop == Open
    requires t == Next(s, TAKEN[2])
    ensures LogBytes(t.rd.log) == [] && Pending(t.rd) == [] && Moved(false, t.rd.k) == [1]
  {
    var q := Request([], 2);
    var u := TryAll(false, s.rd.k, q, []);
    TwoQuiet([]);
    assert s.rd.k == OneByte(false, s.rd.k, 1, [[], []]);
    OneByteTried(false, s.rd.k, 1, q, [], u);
    MsgOver(s, false, q, u, t.rd);
  }

  // ---- A run in which a callback goes astray. ----

  /** A byte arrives for a `readAll` of two, and then a hang-up without EPOLLIN. */
  const STRAYING := [
    Do(Add),
    Do(Happens(false, Arrive([1]))),
    Do(StartAll(false, Rw, Request([], 2))),
    Collect(Mask(false, false, false, true)),
    Deliver,
    Collect(Mask(true, false, false, false)),
    Deliver]

  const FILLER := Job(0, ReadAll, Request([], 2), false)

  const WAITER := Job(2, Wait, Request([], 0), false)

  /** The callback of the `readAll`, told that one byte came, waits for more; the 0 that
      handleHup reports next runs the callback of that wait, which is still pending and is
      called again by the next batch. The `readAll` never gets it. */
  lemma StrayReached()
    ensures Initial(OVERWRITING)
    ensures var log := Run(OVERWRITING, STRAYING).rd.log;
      && log == [Started(FILLER), Called(FILLER, 1, [1], true, true), Started(WAITER), Again(0, 0, 2),
                 Called(WAITER, 0, [], true, false)]
      && CallsOf(log, 0) == 1 && CallsOf(log, 2) == 2
  {
    var s1 := Next(OVERWRITING, STRAYING[0]);
    var s2 := Next(s1, STRAYING[1]);
    RunOne(OVERWRITING, STRAYING);
    RunOne(s1, STRAYING[1..]);
    assert s2.rd == FRESH_SIDE.(k := FRESH_END.(stream := [1], armed := true, edge := true));
    FillerParked(s2);
    StrayCalls();
  }

  lemma StrayCalls()
    ensures var log := [Started(FILLER), Called(FILLER, 1, [1], true, true), Started(WAITER), Again(0, 0, 2),
                        Called(WAITER, 0, [], true, false)];
      CallsOf(log, 0) == 1 && CallsOf(log, 2) == 2
  {
    var e0, e1, e2, e3, e4 :=
      Started(FILLER), Called(FILLER, 1, [1], true, true), Started(WAITER), Again(0, 0, 2),
      Called(WAITER, 0, [], true, false);
    FiveCalls(e0, e1, e2, e3, e4, 0);
    FiveCalls(e0, e1, e2, e3, e4, 2);
  }

  function Once(e: Entry, id: nat): nat {
    if Runs(e, id) then 1 else 0
  }

  lemma FiveCalls(e0: Entry, e1: Entry, e2: Entry, e3: Entry, e4: Entry, id: nat)
    ensures CallsOf([e0, e1, e2, e3, e4], id) ==
            Once(e0, id) + Once(e1, id) + Once(e2, id) + Once(e3, id) + Once(e4, id)
  {
    var x2 := [e0] + [e1];
    AppendedCalls([], e0, id);
    AppendedCalls([e0], e1, id);
    AppendedCalls(x2, e2, id);
    AppendedCalls(x2 + [e2], e3, id);
    AppendedCalls(x2 + [e2] + [e3], e4, id);
    Spelled(e0, e1, e2, e3, e4);
  }

  lemma Spelled(e0: Entry, e1: Entry, e2: Entry, e3: Entry, e4: Entry)
    ensures [] + [e0] == [e0] && [e0] + [e1] + [e2] + [e3] + [e4] == [e0, e1, e2, e3, e4]
  {
  }

  lemma AppendedCalls(log: seq<Entry>, e: Entry, id: nat)
    ensures CallsOf(log + [e], id) == CallsOf(log, id) + Once(e, id)
  {
    assert (log + [e])[..|log|] == log;
  }

  lemma FillerParked(s: State)
    requires !s.aborted && !s.noted && s.script == [WAITING] && !Ready(true, s.wr.k)
    requires s.rd == FRESH_SIDE.(k := FRESH_END.(stream := [1], armed := true, edge := true))
    ensures Run(s, STRAYING[2..]).rd.log ==
            [Started(FILLER), Called(FILLER, 1, [1], true, true), Started(WAITER), Again(0, 0, 2),
             Called(WAITER, 0, [], true, false)]
  {
    var t := Next(s, STRAYING[2]);
    HalfFilled(s, t);
    RunOne(s, STRAYING[2..]);
    CutShortNow(t);
  }

  /** The `readAll` takes the byte and waits for another one. */
  lemma HalfFilled(s: State, t: State)
    requires !s.aborted && s.rd == FRESH_SIDE.(k := FRESH_END.(stream := [1], armed := true, edge := true))
    requires t == Next(s, STRAYING[2])
    ensures t == s.(rd := s.rd.(op := OperationInfo(FILLER, [1], false), log := [Started(FILLER)],
                                k := s.rd.k.(pos := 1, attempts := 2)))
  {
    var u := TryAll(false, s.rd.k, FILLER.req, []);
    HalfTried(s.rd.k, u);
    WholeTriedParks(s, false, u, FILLER, t);
  }

  lemma HalfTried(k: End, u: Tried)
    requires k == FRESH_END.(stream := [1], armed := true, edge := true) && u == TryAll(false, k, FILLER.req, [])
    ensures u == Tried(k.(pos := 1, attempts := 2), [1], 1, true)
  {
    var a := Attempt(false, k, Rest(FILLER.req, 0));
    TryStep(false, k, FILLER.req, [], a);
    assert a.chunk == [1] && a.k == k.(pos := 1, attempts := 1) && [] + a.chunk == [1];
    TryStep(false, a.k, FILLER.req, [1], Attempt(false, a.k, Rest(FILLER.req, 1)));
  }

  /** The hang-up is handed over with the `readAll` in the slot. */
  lemma CutShortNow(s: State)
    requires !s.aborted && !s.noted && s.script == [WAITING] && s.rd.k.armed && !Ready(true, s.wr.k)
    requires s.rd.op == OperationInfo(FILLER, [1], false) && s.rd.log == [Started(FILLER)]
    requires Avail(false, s.rd.k) == 0 && s.rd.k.stop == Open
    ensures Run(s, STRAYING[3..]).rd.log ==
            [Started(FILLER), Called(FILLER, 1, [1], true, true), Started(WAITER), Again(0, 0, 2),
             Called(WAITER, 0, [], true, false)]
  {
    var c := Next(s, STRAYING[3]);
    assert c.events == Mask(false, false, false, true) && c.noted;
    RunOne(s, STRAYING[3..]);
    HupComes(c);
  }

  lemma HupComes(s: State)
    requires !s.aborted && s.noted && s.script == [WAITING] && s.rd.k.armed && !Ready(true, s.wr.k)
    requires s.rd.op == OperationInfo(FILLER, [1], false) && s.rd.log == [Started(FILLER)]
    requires s.events == Mask(false, false, false, true)
    ensures Run(s, STRAYING[4..]).rd.log ==
            [Started(FILLER), Called(FILLER, 1, [1], true, true), Started(WAITER), Again(0, 0, 2),
             Called(WAITER, 0, [], true, false)]
  {
    RunOne(s, STRAYING[4..]);
    WaiterCalled(s, HandleHup(s, false));
    HupDelivered(s, HandleHup(s, false));
    CalledAgain(Next(s, Deliver));
  }

  /** A batch entry that says only that the peer hung up. */
  lemma HupDelivered(s: State, t: State)
    requires !s.aborted && s.noted && s.events == Mask(false, false, false, true)
    requires t == HandleHup(s, false) && t.events == s.events
    ensures Next(s, Deliver) == t.(noted := false, events := NO_EVENTS)
  {
    assert DispatchRead(s) == t && !t.aborted && DispatchWrite(t) == t;
  }

  lemma WaiterCalled(s: State, t: State)
    requires s.script == [WAITING] && t == HandleHup(s, false)
    requires s.rd.op == OperationInfo(FILLER, [1], false) && s.rd.log == [Started(FILLER)]
    ensures t == s.(script := [], rd := s.rd.(op := OperationInfo(WAITER, [], false),
              log := [Started(FILLER), Called(FILLER, 1, [1], true, true), Started(WAITER), Again(0, 0, 2)]))
  {
    var u := Exec(AtCount(s, false), WaitOn(false));
    CountedHup(s, false, 0, WaitOn(false), u, t);
  }

  /** The next batch answers the wait. */
  lemma CalledAgain(s: State)
    requires !s.aborted && !s.noted && s.script == [] && s.rd.k.armed && !Ready(true, s.wr.k)
    requires s.rd.op == OperationInfo(WAITER, [], false)
    ensures Run(s, STRAYING[5..]).rd.log == s.rd.log + [Called(WAITER, 0, [], true, false)]
  {
    var c := Next(s, STRAYING[5]);
    assert c.events == Mask(true, false, false, false) && c.noted;
    RunOne(s, STRAYING[5..]);
    RunOne(c, STRAYING[6..]);
    assert STRAYING[7..] == [];
    WaiterAnswered(c);
  }

  lemma WaiterAnswered(s: State)
    requires !s.aborted && s.noted && s.script == [] && s.events == Mask(true, false, false, false)
    requires s.rd.op == OperationInfo(WAITER, [], false)
    ensures Next(s, Deliver).rd.log == s.rd.log + [Called(WAITER, 0, [], true, false)]
  {
    var t := PlainOperation(Undue(s, false), false, false);
    assert DispatchRead(s) == t && DispatchWrite(t) == t;
  }

  // ---- Runs in which a `wait` is not answered. ----

  /** A byte arrives and its edge is handed over before anybody waits. */
  const TOO_LATE := [
    Do(Add),
    Do(Happens(false, Arrive([1]))),
    Collect(NO_EVENTS),
    Deliver,
    Do(WaitOn(false))]

  /** The wait is parked beside a byte whose edge is gone. */
  lemma WaitIgnoredReached()
    ensures Initial(QUIET)
    ensures var side := Run(QUIET, TOO_LATE).rd;
      && side.op.job.operation == Wait && Avail(false, side.k) == 1
      && !side.k.edge && !side.k.due
  {
    var s1 := Next(QUIET, TOO_LATE[0]);
    var s2 := Next(s1, TOO_LATE[1]);
    Added(s1);
    RunOne(QUIET, TOO_LATE);
    RunOne(s1, TOO_LATE[1..]);
    EdgeGone(s2);
  }

  /** The edge is collected, and handed over with nobody waiting. */
  lemma EdgeGone(s: State)
    requires !s.aborted && !s.noted && !Busy(s.rd) && !s.rd.op.skipSync && !Ready(true, s.wr.k)
    requires s.rd.k == FRESH_END.(stream := [1], armed := true, edge := true)
    ensures var side := Run(s, TOO_LATE[2..]).rd;
      && side.op.job.operation == Wait && Avail(false, side.k) == 1
      && !side.k.edge && !side.k.due
  {
    var c := Next(s, TOO_LATE[2]);
    assert c.events == Mask(true, false, false, false) && c.noted;
    EdgeSpent(c, Next(c, Deliver));
    RunOne(s, TOO_LATE[2..]);
    RunOne(c, TOO_LATE[3..]);
    RunOne(Next(c, Deliver), TOO_LATE[4..]);
    assert TOO_LATE[5..] == [];
  }

  lemma EdgeSpent(s: State, t: State)
    requires !s.aborted && s.noted && s.events == Mask(true, false, false, false) && t == Next(s, Deliver)
    requires !Busy(s.rd) && !s.rd.op.skipSync
    ensures t == s.(rd := s.rd.(k := s.rd.k.(due := false)), noted := false, events := NO_EVENTS)
  {
    var u := Undue(s, false);
    assert u.Put(false, Skip(u.rd, false)) == u;
    assert AllOperation(u, false, false) == u;
    assert DispatchRead(s) == u && DispatchWrite(u) == u;
  }

  /** A hang-up comes without EPOLLIN while a wait is pending. */
  const HANGUP_ALONE := [
    Do(Add),
    Do(WaitOn(false)),
    Collect(Mask(false, false, false, true)),
    Deliver]

  /** Nobody is called, and the wait goes on. */
  lemma HangupIgnoredReached()
    ensures Initial(QUIET)
    ensures var side := Run(QUIET, HANGUP_ALONE).rd;
      side.op.job.operation == Wait && side.log == [Started(side.op.job)]
  {
    var s1 := Next(QUIET, HANGUP_ALONE[0]);
    var s2 := Next(s1, HANGUP_ALONE[1]);
    var s3 := Next(s2, HANGUP_ALONE[2]);
    RunOne(QUIET, HANGUP_ALONE);
    RunOne(s1, HANGUP_ALONE[1..]);
    RunOne(s2, HANGUP_ALONE[2..]);
    RunOne(s3, HANGUP_ALONE[3..]);
    assert HANGUP_ALONE[4..] == [];
    assert s3.events == Mask(false, false, false, true) && s3.noted;
    WaitStays(s3);
    HupDelivered(s3, s3);
  }

  lemma WaitStays(s: State)
    requires s.rd.op.job.operation == Wait
    ensures HandleHup(s, false) == s
  {
    Kinds(s.rd.op.job.operation);
  }

  /** A `readvAll` waits on an empty stream, and a hang-up comes without EPOLLIN. */
  const VECTOR_HANGUP := [
    Do(Add),
    Do(StartAll(false, Vec, Request([], 10))),
    Collect(Mask(false, false, false, true)),
    Deliver]

  /** Nobody is called, and the `readvAll` goes on. */
  lemma VectorOutlivesHangup()
    ensures Initial(QUIET)
    ensures var side := Run(QUIET, VECTOR_HANGUP).rd;
      && side.op.job == Job(0, ReadvAll, Request([], 10), false)
      && side.log == [Started(side.op.job)]
  {
    var s1 := Next(QUIET, VECTOR_HANGUP[0]);
    var s2 := Next(s1, VECTOR_HANGUP[1]);
    Added(s1);
    VectorParks(s1, s2);
    RunOne(QUIET, VECTOR_HANGUP);
    RunOne(s1, VECTOR_HANGUP[1..]);
    VectorWaits(s2);
  }

  const VECTOR := Job(0, ReadvAll, Request([], 10), false)

  lemma VectorParks(s: State, t: State)
    requires !s.aborted && s.script == [] && t == Next(s, VECTOR_HANGUP[1])
    requires s.rd == FRESH_SIDE.(k := FRESH_END.(armed := true))
    ensures t == s.(rd := t.rd) && t.rd.op == OperationInfo(VECTOR, [], false)
    ensures t.rd.log == [Started(VECTOR)] && t.rd.k.armed && Empty(false, t.rd.k, [])
  {
    var side := Park(Log(s.rd, Started(VECTOR)), VECTOR, []);
    var a := Attempt(false, side.k, VECTOR.req);
    assert VECTOR == Begin(s.rd, ReadvAll, Request([], 10), false);
    NoByte(false, side.k, VECTOR.req, []);
    assert t == StartWholeVec(s, false, ReadvAll, VECTOR.req);
    VecAttempts(s.Put(false, side), false, a, t);
  }

  lemma VectorWaits(s: State)
    requires !s.aborted && !s.noted && s.rd.op == OperationInfo(VECTOR, [], false) && s.rd.log == [Started(VECTOR)]
    requires s.rd.k.armed && Empty(false, s.rd.k, []) && !Ready(true, s.wr.k)
    ensures var side := Run(s, VECTOR_HANGUP[2..]).rd;
      side.op.job == VECTOR && side.log == [Started(VECTOR)]
  {
    var c := Next(s, VECTOR_HANGUP[2]);
    assert c.events == Mask(false, false, false, true) && c.noted;
    RunOne(s, VECTOR_HANGUP[2..]);
    RunOne(c, VECTOR_HANGUP[3..]);
    assert VECTOR_HANGUP[4..] == [];
    VectorStays(c);
    HupDelivered(c, c);
  }

  lemma VectorStays(s: State)
    requires s.rd.op.job.operation == ReadvAll
    ensures HandleHup(s, false) == s
  {
    Kinds(s.rd.op.job.operation);
  }

  // ---- A run in which an error reaches a pending write. ----

  /** A write waits for room, and its batch entry says EPOLLERR without EPOLLOUT. */
  const BROKEN_PIPE := [
    Do(Add),
    Do(Start(true, Rw, Request([7], 1), false)),
    Collect(Mask(false, false, true, false)),
    Deliver]

  const WRITER := Job(0, Write, Request([7], 1), false)

  /** The write is told -1. */
  lemma ErrorReachesWrite()
    ensures Initial(QUIET)
    ensures Run(QUIET, BROKEN_PIPE).wr.log == [Started(WRITER), Called(WRITER, -1, [], true, true)]
  {
    var s1 := Next(QUIET, BROKEN_PIPE[0]);
    var s2 := Next(s1, BROKEN_PIPE[1]);
    Added(s1);
    WriterParks(s1, s2);
    RunOne(QUIET, BROKEN_PIPE);
    RunOne(s1, BROKEN_PIPE[1..]);
    ErrorComes(s2);
  }

  lemma WriterParks(s: State, t: State)
    requires !s.aborted && t == Next(s, BROKEN_PIPE[1])
    requires s.wr == FRESH_SIDE.(k := FRESH_END.(armed := true))
    ensures t == s.(wr := t.wr) && t.wr.op == OperationInfo(WRITER, [], false)
    ensures t.wr.log == [Started(WRITER)] && Empty(true, t.wr.k, [])
  {
    var a := Attempt(true, s.wr.k, WRITER.req);
    NoByte(true, s.wr.k, WRITER.req, []);
    assert t == StartPlain(s, true, Write, WRITER.req, false);
    assert t == Conclude(s.Put(true, Log(s.wr, Started(WRITER)).(k := a.k)), true, WRITER, [], a.r, true);
  }

  lemma ErrorComes(s: State)
    requires !s.aborted && !s.noted && s.script == [] && s.rd == FRESH_SIDE.(k := FRESH_END.(armed := true))
    requires s.wr.op == OperationInfo(WRITER, [], false) && s.wr.log == [Started(WRITER)] && Empty(true, s.wr.k, [])
    ensures Run(s, BROKEN_PIPE[2..]).wr.log == [Started(WRITER), Called(WRITER, -1, [], true, true)]
  {
    var c := Next(s, BROKEN_PIPE[2]);
    assert c.events == Mask(false, false, true, false) && c.noted;
    RunOne(s, BROKEN_PIPE[2..]);
    RunOne(c, BROKEN_PIPE[3..]);
    assert BROKEN_PIPE[4..] == [];
    WriterTold(c);
  }

  lemma WriterTold(s: State)
    requires !s.aborted && s.noted && s.script == [] && s.events == Mask(false, false, true, false) && !Busy(s.rd)
    requires s.wr.op == OperationInfo(WRITER, [], false) && s.wr.log == [Started(WRITER)]
    ensures Next(s, Deliver).wr.log == [Started(WRITER), Called(WRITER, -1, [], true, true)]
  {
    IdleReadSkipped(s);
    WriterHangsUp(s, HandleHup(s, true));
  }

  lemma IdleReadSkipped(s: State)
    requires !Busy(s.rd)
    ensures HandleHup(s, false) == s
  {
  }

  lemma WriterHangsUp(s: State, t: State)
    requires s.script == [] && s.wr.op == OperationInfo(WRITER, [], false) && t == HandleHup(s, true)
    ensures t == s.Put(true, Log(Clear(s.wr), Called(WRITER, -1, [], true, true)))
  {
    HupSteps(s, true, -1, t);
  }
}
