/** The asynchronous operation engine of `File`: two operation slots (read and write
    side), synchronous first attempts, and a dispatcher driven by epoll masks.

    This module is the specification, on values: every function maps a state of one
    `File` and its kernel ends to the next one. What user callbacks do is a script: the
    n-th callback of the run issues the n-th command list. What other parties do to the
    descriptor is `Kernel.End.env`, consumed one list of events before each call.

    `log`, `loops` and `clash` are history: what was reported to the user, which operations
    are in a synchronous repeat loop, and whether bytes were reported out of turn. */
module Engine {
  import opened Kernel

  datatype Operations =
    | NoOp
    | Read | Write | Send | Recv | Readv | Writev | SendFileFrom | Wait
    | ReadAll | WriteAll | SendAll | RecvAll | ReadvAll | WritevAll

  /** The numeric value of an operation; ranges of it are compared by the code. */
  function Code(o: Operations): nat {
    match o
    case NoOp => 0
    case Read => 1
    case Write => 2
    case Send => 3
    case Recv => 4
    case Readv => 5
    case Writev => 6
    case SendFileFrom => 7
    case Wait => 8
    case ReadAll => 9
    case WriteAll => 10
    case SendAll => 11
    case RecvAll => 12
    case ReadvAll => 13
    case WritevAll => 14
  }

  predicate IsPlain(o: Operations) {
    Code(Read) <= Code(o) <= Code(Wait)
  }

  predicate IsAll(o: Operations) {
    Code(ReadAll) <= Code(o) <= Code(WritevAll)
  }

  lemma Kinds(o: Operations)
    ensures o == NoOp || IsPlain(o) || IsAll(o)
    ensures !(IsPlain(o) && IsAll(o))
  {
  }

  /** One operation as it was started. `id` tells it from all others on its side: it is
      the place of its `Started` entry in the log. */
  datatype Job = Job(id: nat, operation: Operations, req: Request, repeat: bool)

  /** One slot. `done` is the part of the buffer that is already filled (or sent), so
      `lenDone` is `|done|`. */
  datatype OperationInfo = OperationInfo(job: Job, done: seq<byte>, skipSync: bool)

  /** What happened on a side, in order. `Called` is one callback: the operation it
      belongs to, the number passed, the bytes it accounts for, whether the operation is
      over, and whether a hang-up was being handled. `Again` is the second callback of
      `handleHup`: it is meant for operation `of`, but it is made through the slot, where the
      first callback may have put the callback of another operation, `to`. */
  datatype Entry =
    | Started(job: Job)
    | Called(job: Job, r: int, bytes: seq<byte>, final: bool, hup: bool)
    | Again(of: nat, r: int, to: nat)
    | Cancelled(id: nat, bytes: seq<byte>)
    | Overwritten(id: nat, bytes: seq<byte>)

  datatype Side = Side(op: OperationInfo, k: End, log: seq<Entry>, loops: set<nat>, clash: bool)

  /** An epoll event mask; `EPOLLIN`, `EPOLLOUT`, `EPOLLERR` and `EPOLLHUP`. */
  datatype Mask = Mask(pollin: bool, pollout: bool, err: bool, hup: bool)

  const NO_EVENTS := Mask(false, false, false, false)

  /** The three families of starters on each side. */
  datatype Shape = Rw | Msg | Vec

  datatype Command =
    | Start(w: bool, shape: Shape, req: Request, repeat: bool)
    | StartAll(w: bool, shape: Shape, req: Request)
    | WaitOn(w: bool)
    | Cancel(w: bool)
    | Add
    | Remove
    | Happens(w: bool, event: Event)

  function Opcode(w: bool, shape: Shape): Operations {
    match shape
    case Rw => if w then Write else Read
    case Msg => if w then Send else Recv
    case Vec => if w then Writev else Readv
  }

  function OpcodeAll(w: bool, shape: Shape): Operations {
    match shape
    case Rw => if w then WriteAll else ReadAll
    case Msg => if w then SendAll else RecvAll
    case Vec => if w then WritevAll else ReadvAll
  }

  lemma WholeKind(w: bool, shape: Shape)
    ensures IsAll(OpcodeAll(w, shape)) && !IsPlain(OpcodeAll(w, shape))
  {
  }

  datatype State = State(
    rd: Side,
    wr: Side,
    events: Mask,                 // this descriptor's entry in the current batch
    noted: bool,                  // the batch still holds an undispatched entry for it
    script: seq<seq<Command>>,    // what the callbacks of this run will do
    aborted: bool)                // control reached assert(false)
  {
    function At(w: bool): Side {
      if w then wr else rd
    }

    function Put(w: bool, side: Side): State {
      if w then this.(wr := side) else this.(rd := side)
    }
  }

  lemma PutPut(s: State, w: bool, a: Side, b: Side)
    ensures s.Put(w, a).Put(w, b) == s.Put(w, b) && s.Put(w, a).At(w) == a
  {
  }

  function Log(side: Side, e: Entry): Side {
    side.(log := side.log + [e])
  }

  predicate Busy(side: Side) {
    side.op.job.operation != NoOp
  }

  function Clear(side: Side): Side {
    side.(op := side.op.(job := side.op.job.(operation := NoOp)))
  }

  function Skip(side: Side, on: bool): Side {
    side.(op := side.op.(skipSync := on))
  }

  /** The bytes the operation in the slot holds and the log does not yet account for. */
  function Pending(side: Side): seq<byte> {
    if Busy(side) then side.op.done else []
  }

  /** Another operation calls back (`on`): out of turn if the slot holds bytes that came
      before. */
  function Crossed(side: Side, on: bool): Side {
    side.(clash := side.clash || (on && Pending(side) != []))
  }

  /** The next operation to start on a side. */
  function Begin(side: Side, o: Operations, req: Request, repeat: bool): Job {
    Job(|side.log|, o, req, repeat)
  }

  /** What every call leaves behind: no more script than it found, and the synchronous
      repeat loops it found. */
  predicate Within(s: State, t: State) {
    && |t.script| <= |s.script|
    && t.rd.loops == s.rd.loops
    && t.wr.loops == s.wr.loops
  }

  /** op.cb(...): the callback runs after the entry is recorded. */
  function Notify(s: State, w: bool, e: Entry): (t: State)
    ensures Within(s, t)
    ensures s.script != [] ==> |t.script| < |s.script|
    ensures s.script == [] ==> t == s.Put(w, Log(s.At(w), e))
    ensures t.aborted == s.aborted
    decreases |s.script|, 0, 0, 0, 0
  {
    var s1 := s.Put(w, Log(s.At(w), e));
    if s1.script == [] then s1 else RunCommands(s1.(script := s1.script[1..]), s1.script[0])
  }

  function RunCommands(s: State, commands: seq<Command>): (t: State)
    ensures Within(s, t)
    ensures t.aborted == s.aborted
    decreases |s.script|, 3, |commands|, 0, 0
  {
    if commands == [] then s else RunCommands(Exec(s, commands[0]), commands[1..])
  }

  /** File::doOperation. */
  function DoOperation(s: State, w: bool, hup: bool): (t: State)
    ensures Within(s, t)
    ensures !IsPlain(s.At(w).op.job.operation) ==> t.aborted == s.aborted
    decreases |s.script|, 1, |s.At(w).k.env|, Avail(w, s.At(w).k), 7
  {
    var s1 := s.Put(w, Skip(s.At(w), false));
    if IsPlain(s.At(w).op.job.operation) then PlainOperation(s1, w, hup) else AllOperation(s1, w, hup)
  }

  /** The first half of doOperation, from the label repeat1. */
  function PlainOperation(s: State, w: bool, hup: bool): (t: State)
    ensures Within(s, t)
    decreases |s.script|, 1, |s.At(w).k.env|, Avail(w, s.At(w).k), 4
  {
    var side := s.At(w);
    var op := side.op;
    if op.job.operation == Wait then
      Notify(s.Put(w, Clear(side)), w, Called(op.job, 0, [], true, hup))
    else
      AttemptProgress(w, side.k, op.job.req);
      var a := Attempt(w, side.k, op.job.req);
      PlainAttempted(s.Put(w, side.(k := a.k)), w, hup, a)
  }

  /** doOperation on a plain operation, after its attempt. */
  function PlainAttempted(s: State, w: bool, hup: bool, a: Outcome): (t: State)
    ensures Within(s, t)
    decreases |s.script|, 1, |s.At(w).k.env|, Avail(w, s.At(w).k), if a.chunk == [] then 3 else 8
  {
    var side := s.At(w);
    if a.again then
      s
    else if a.chunk == [] then
      Notify(s.Put(w, Clear(side)), w, Called(side.op.job, a.r, [], true, hup))
    else
      Delivered(s, w, hup, a.chunk)
  }

  /** doOperation after some data was moved by a plain operation. */
  function Delivered(s: State, w: bool, hup: bool, chunk: seq<byte>): (t: State)
    ensures Within(s, t)
    decreases |s.script|, 1, |s.At(w).k.env|, Avail(w, s.At(w).k), 6
  {
    var side := s.At(w);
    var op := side.op;
    var shortRead := |chunk| < Want(w, op.job.req);
    if op.job.repeat then
      var s1 := Notify(s, w, Called(op.job, |chunk|, chunk, false, hup));
      AfterChunk(s1, w, hup, op.job.operation, shortRead)
    else
      var side1 := if shortRead && !hup then Skip(Clear(side), true) else Clear(side);
      Notify(s.Put(w, side1), w, Called(op.job, |chunk|, chunk, true, hup))
  }

  /** doOperation after the callback of a repeating operation of kind `opType`. */
  function AfterChunk(s: State, w: bool, hup: bool, opType: Operations, shortRead: bool): (t: State)
    ensures Within(s, t)
    decreases |s.script|, 1, |s.At(w).k.env|, Avail(w, s.At(w).k), 5
  {
    var side := s.At(w);
    if side.op.job.operation == opType then
      if hup then
        Notify(s.Put(w, Clear(side)), w,
               Called(side.op.job, if w then -1 else 0, [], true, true))
      else if shortRead then
        s
      else
        PlainOperation(s, w, hup)
    else if shortRead && !hup then
      AllOperation(s.Put(w, Skip(side, true)), w, hup)
    else
      AllOperation(s, w, hup)
  }

  /** The second half of doOperation: the operations that fill or send a whole buffer. */
  function AllOperation(s: State, w: bool, hup: bool): (t: State)
    ensures Within(s, t)
    ensures !IsPlain(s.At(w).op.job.operation) ==> t.aborted == s.aborted
    decreases |s.script|, 1, |s.At(w).k.env|, Avail(w, s.At(w).k), 3
  {
    var side := s.At(w);
    var op := side.op;
    if IsAll(op.job.operation) then
      var a := Attempt(w, side.k, Rest(op.job.req, |op.done|));
      AllAttempted(s.Put(w, side.(k := a.k)), w, hup, a)
    else if op.job.operation == NoOp then
      s
    else
      s.(aborted := true)
  }

  /** doOperation on a whole-buffer operation, after its attempt. */
  function AllAttempted(s: State, w: bool, hup: bool, a: Outcome): (t: State)
    ensures Within(s, t)
    ensures t.aborted == s.aborted
    decreases |s.script|, 0, 0, 0, 1
  {
    var side := s.At(w);
    var op := side.op;
    var done := op.done + a.chunk;
    if a.again then
      s
    else if a.chunk == [] then
      Notify(s.Put(w, Clear(side)), w,
             Called(op.job, if op.done == [] then a.r else |op.done|, op.done, true, hup))
    else if |done| >= Want(w, op.job.req) || hup then
      Notify(s.Put(w, Clear(side)), w, Called(op.job, |done|, done, true, hup))
    else
      s.Put(w, side.(op := op.(done := done)))
  }

  /** addRWOp: the operation goes into the slot, whatever the slot holds. */
  function Park(side: Side, job: Job, done: seq<byte>): Side {
    var side1 := if Busy(side) then Log(side, Overwritten(side.op.job.id, side.op.done)) else side;
    side1.(op := OperationInfo(job, done, side.op.skipSync))
  }

  datatype SyncEnd = SyncEnd(s: State, r: int, again: bool)

  /** File_tryOperation with repeat: every attempt that moves bytes is reported. */
  function TryRepeat(s: State, w: bool, job: Job): (e: SyncEnd)
    ensures Within(s, e.s)
    ensures e.s.aborted == s.aborted
    decreases |s.script|, 1, |s.At(w).k.env|, Avail(w, s.At(w).k), 3
  {
    AttemptProgress(w, s.At(w).k, job.req);
    var a := Attempt(w, s.At(w).k, job.req);
    var side1 := Crossed(s.At(w).(k := a.k), !a.again);
    if a.chunk == [] then
      SyncEnd(s.Put(w, side1), a.r, a.again)
    else
      TryRepeat(Notify(s.Put(w, side1), w, Called(job, a.r, a.chunk, false, false)), w, job)
  }

  /** The end of a synchronous attempt that moved `done`: the operation is parked on
      EAGAIN, otherwise its callback gets `r`. */
  function Conclude(s: State, w: bool, job: Job, done: seq<byte>, r: int, again: bool): (t: State)
    ensures Within(s, t)
    ensures t.aborted == s.aborted
    decreases |s.script|, 0, 0, 0, 1
  {
    if again then
      s.Put(w, Park(s.At(w), job, done))
    else
      Notify(s, w, Called(job, r, done, true, false))
  }

  /** The synchronous repeat loop of `job`, started inside the loops `outer`, and its end. */
  function Repeating(s: State, w: bool, job: Job, outer: set<nat>): (t: State)
    ensures |t.script| <= |s.script| && t.aborted == s.aborted
    ensures t.At(w).loops == outer && t.At(!w).loops == s.At(!w).loops
    decreases |s.script|, 1, |s.At(w).k.env|, Avail(w, s.At(w).k), 4
  {
    var e := TryRepeat(s, w, job);
    Conclude(e.s.Put(w, LeaveLoop(e.s.At(w), outer)), w, job, [], e.r, e.again)
  }

  function EnterLoop(side: Side, job: Job): Side {
    Log(side, Started(job)).(loops := side.loops + {job.id})
  }

  function LeaveLoop(side: Side, outer: set<nat>): Side {
    side.(loops := outer)
  }

  /** read, write, recv, send, readv and writev. */
  function StartPlain(s: State, w: bool, o: Operations, req: Request, repeat: bool): (t: State)
    ensures Within(s, t)
    ensures t.aborted == s.aborted
    decreases |s.script|, 2, 0, 0, 0
  {
    var side := s.At(w);
    var job := Begin(side, o, req, repeat);
    if Busy(side) then
      s
    else if side.op.skipSync then
      s.Put(w, Park(Log(side, Started(job)), job, []))
    else if repeat then
      Repeating(s.Put(w, EnterLoop(side, job)), w, job, side.loops)
    else
      var a := Attempt(w, side.k, req);
      Conclude(s.Put(w, Log(side, Started(job)).(k := a.k)), w, job, a.chunk, a.r, a.again)
  }

  datatype Tried = Tried(k: End, done: seq<byte>, r: int, again: bool)

  /** File_tryOperation2: attempts until the buffer is done, an error, end of stream or
      EAGAIN. `r` is what the callback gets unless `again`. */
  function TryAll(w: bool, k: End, req: Request, done: seq<byte>): Tried
    decreases |k.env|, Avail(w, k)
  {
    if |done| >= Want(w, req) then
      Tried(k, done, |done|, false)
    else
      AttemptProgress(w, k, Rest(req, |done|));
      var a := Attempt(w, k, Rest(req, |done|));
      if a.chunk == [] then
        Tried(a.k, done, if done == [] then a.r else |done|, a.again)
      else
        TryAll(w, a.k, req, done + a.chunk)
  }

  /** readAll and writeAll. */
  function StartWhole(s: State, w: bool, o: Operations, req: Request): (t: State)
    ensures Within(s, t)
    ensures t.aborted == s.aborted
    decreases |s.script|, 2, 0, 0, 0
  {
    var side := s.At(w);
    var job := Begin(side, o, req, false);
    if Busy(side) then
      s
    else if side.op.skipSync then
      s.Put(w, Park(Log(side, Started(job)), job, []))
    else
      var t := TryAll(w, side.k, req, []);
      Conclude(s.Put(w, Log(side, Started(job)).(k := t.k)), w, job, t.done, t.r, t.again)
  }

  /** recvAll and sendAll: the attempt comes first, and the slot is looked at only when
      something is left to do. Then what the attempt moved is dropped if the slot is taken. */
  function StartWholeMsg(s: State, w: bool, o: Operations, req: Request): (t: State)
    ensures Within(s, t)
    ensures t.aborted == s.aborted
    decreases |s.script|, 2, 0, 0, 0
  {
    var side := s.At(w);
    var job := Begin(side, o, req, false);
    var t := TryAll(w, side.k, req, []);
    if t.again && Busy(side) then
      s.Put(w, side.(k := t.k, clash := side.clash || t.done != []))
    else
      Conclude(s.Put(w, Log(Crossed(side, true), Started(job)).(k := t.k)), w, job, t.done, t.r, t.again)
  }

  /** readvAll and writevAll: the slot is taken over unconditionally, and doOperation
      makes the synchronous attempt. */
  function StartWholeVec(s: State, w: bool, o: Operations, req: Request): (t: State)
    requires IsAll(o)
    ensures Within(s, t)
    ensures t.aborted == s.aborted
    decreases |s.script|, 2, 0, 0, 0
  {
    var job := Begin(s.At(w), o, req, false);
    var side := Park(Log(s.At(w), Started(job)), job, []);
    if side.op.skipSync then s.Put(w, side) else DoOperation(s.Put(w, side), w, false)
  }

  /** waitReadable and waitWritable: parked without any attempt. */
  function StartWait(s: State, w: bool): State {
    var job := Begin(s.At(w), Wait, Request([], 0), false);
    if Busy(s.At(w)) then s else s.Put(w, Park(Log(s.At(w), Started(job)), job, []))
  }

  /** cancelRead and cancelWrite. */
  function CancelOp(side: Side): Side {
    if Busy(side) then Clear(Log(side, Cancelled(side.op.job.id, side.op.done))) else side
  }

  function Exec(s: State, c: Command): (t: State)
    ensures Within(s, t)
    ensures t.aborted == s.aborted
    decreases |s.script|, 2, 1, 0, 0
  {
    match c
    case Start(w, shape, req, repeat) => StartPlain(s, w, Opcode(w, shape), req, repeat)
    case StartAll(w, shape, req) =>
      (match shape
       case Rw => StartWhole(s, w, OpcodeAll(w, shape), req)
       case Msg => StartWholeMsg(s, w, OpcodeAll(w, shape), req)
       case Vec => StartWholeVec(s, w, OpcodeAll(w, shape), req))
    case WaitOn(w) => StartWait(s, w)
    case Cancel(w) => s.Put(w, CancelOp(s.At(w)))
    case Add => s.(rd := s.rd.(k := Arm(false, s.rd.k)), wr := s.wr.(k := Arm(true, s.wr.k)))
    case Remove =>
      s.(rd := s.rd.(k := Disarm(s.rd.k)), wr := s.wr.(k := Disarm(s.wr.k)), events := NO_EVENTS, noted := false)
    case Happens(w, event) => s.Put(w, s.At(w).(k := Raise(w, s.At(w).k, event)))
  }

  /** File::handleHup. The second range is tested after the first range's callback. */
  function HandleHup(s: State, w: bool): (t: State)
    ensures Within(s, t)
  {
    var side := s.At(w);
    var op := side.op;
    var r := if w then -1 else 0;
    if op.job.operation == NoOp then
      s
    else if Code(Read) <= Code(op.job.operation) <= Code(SendFileFrom) then
      HupAll(Notify(s.Put(w, Clear(side)), w, Called(op.job, r, [], true, true)), w, r)
    else
      HupAll(s, w, r)
  }

  /** The second half of handleHup, for readAll to recvAll. An idle slot keeps the callback
      of the operation that was there last, so the slot's job says whose it is. */
  function HupAll(s: State, w: bool, r: int): (t: State)
    ensures Within(s, t)
  {
    var side := s.At(w);
    var op := side.op;
    if Code(ReadAll) <= Code(op.job.operation) <= Code(RecvAll) then
      if op.done != [] then
        var s1 := Notify(s.Put(w, Clear(side)), w, Called(op.job, |op.done|, op.done, true, true));
        Notify(s1, w, Again(op.job.id, r, s1.At(w).op.job.id))
      else
        Notify(s.Put(w, Clear(side)), w, Called(op.job, r, [], true, true))
    else
      s
  }

  /** The batch entry's bit for side `w` is being handed over. */
  function Undue(s: State, w: bool): State {
    s.Put(w, s.At(w).(k := s.At(w).k.(due := false)))
  }

  function DispatchRead(s: State): (t: State)
    ensures Within(s, t)
  {
    if s.events.pollin then
      DoOperation(Undue(s, false), false, s.events.err || s.events.hup)
    else if s.events.err || s.events.hup then
      HandleHup(s, false)
    else
      s
  }

  function DispatchWrite(s: State): (t: State)
    ensures Within(s, t)
  {
    if s.events.pollout then
      DoOperation(Undue(s, true), true, s.events.err)
    else if s.events.err then
      HandleHup(s, true)
    else
      s
  }

  /** File::dispatch. The mask is read again for the write side, after the read side's
      callbacks may have cleared it. */
  function Dispatch(s: State): (t: State)
    ensures Within(s, t)
  {
    var s1 := DispatchRead(s);
    if s1.aborted then s1 else DispatchWrite(s1)
  }

  /** Everything that can happen to one `File`, seen from the main loop. `Collect` is
      epoll_wait putting an entry for it into the batch; the mask may say more than the
      collected edges, but never less than what is ready. */
  datatype Step =
    | Do(c: Command)
    | Collect(extra: Mask)
    | Deliver

  predicate Ready(w: bool, k: End) {
    k.edge && (Avail(w, k) > 0 || k.stop != Open)
  }

  function TakeEdge(k: End, due: bool): End {
    k.(edge := false, due := due)
  }

  function CollectEdges(s: State, extra: Mask): State {
    var mask := extra.(pollin := extra.pollin || Ready(false, s.rd.k),
                       pollout := extra.pollout || Ready(true, s.wr.k));
    s.(rd := s.rd.(k := TakeEdge(s.rd.k, mask.pollin)),
       wr := s.wr.(k := TakeEdge(s.wr.k, mask.pollout)),
       events := mask,
       noted := true)
  }

  function Next(s: State, step: Step): (t: State)
    ensures Within(s, t)
  {
    if s.aborted then
      s
    else
      match step
      case Do(c) => Exec(s, c)
      case Collect(extra) => if s.noted || !s.rd.k.armed then s else CollectEdges(s, extra)
      case Deliver => if s.noted then Dispatch(s).(noted := false, events := NO_EVENTS) else s
  }

  function Run(s: State, steps: seq<Step>): (t: State)
    ensures Within(s, t)
    decreases |steps|
  {
    if steps == [] then s else Run(Next(s, steps[0]), steps[1..])
  }
}
