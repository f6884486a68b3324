/** What each user command begins: which operation a starting command starts, and what
    adding and removing the descriptor does. */
module EngineStarts {
  import opened Kernel
  import opened Engine
  import opened EngineHistory
  import opened EngineRecords
  import opened EngineService

  /** The log goes on from `x` with the start of `job`. */
  predicate StartsWith(x: seq<Entry>, job: Job, y: seq<Entry>) {
    x + [Started(job)] <= y
  }

  /** Command `c` is the starter of operations of kind `o`, on side `w`. */
  predicate StarterOf(o: Operations, w: bool, req: Request, repeat: bool, c: Command) {
    match o
    case Read => !w && c == Start(false, Rw, req, repeat)
    case Recv => !w && c == Start(false, Msg, req, repeat)
    case Readv => !w && c == Start(false, Vec, req, repeat)
    case Write => w && c == Start(true, Rw, req, repeat)
    case Send => w && c == Start(true, Msg, req, repeat)
    case Writev => w && c == Start(true, Vec, req, repeat)
    case ReadAll => !w && !repeat && c == StartAll(false, Rw, req)
    case RecvAll => !w && !repeat && c == StartAll(false, Msg, req)
    case ReadvAll => !w && !repeat && c == StartAll(false, Vec, req)
    case WriteAll => w && !repeat && c == StartAll(true, Rw, req)
    case SendAll => w && !repeat && c == StartAll(true, Msg, req)
    case WritevAll => w && !repeat && c == StartAll(true, Vec, req)
    case Wait => !repeat && req == Request([], 0) && c == WaitOn(w)
    case NoOp => false
    case SendFileFrom => false
  }

  /** The slot accepts it: it is idle, or it is taken over, or it is not looked at. */
  predicate Accepts(s: State, w: bool, c: Command) {
    || !Busy(s.At(w))
    || (c.StartAll? && c.shape == Vec)
    || (c.StartAll? && c.shape == Msg && !TryAll(w, s.At(w).k, c.req, []).again)
  }

  /** Each starter starts an operation of its own kind, with the request and the repeat flag
      it was given: that is what the log says next. */
  lemma StartersStart(s: State, w: bool, o: Operations, req: Request, repeat: bool, c: Command)
    requires StarterOf(o, w, req, repeat, c) && Accepts(s, w, c)
    ensures s.At(w).log + [Started(Job(|s.At(w).log|, o, req, repeat))] <= Exec(s, c).At(w).log
  {
    var job := Job(|s.At(w).log|, o, req, repeat);
    match c {
      case Start(_, _, _, _) => PlainBegins(s, w, job, Exec(s, c));
      case StartAll(_, shape, _) => WholeBegins(s, w, shape, job, Exec(s, c));
      case WaitOn(_) =>
    }
  }

  lemma PlainBegins(s: State, w: bool, job: Job, t: State)
    requires !Busy(s.At(w)) && job == Begin(s.At(w), job.operation, job.req, job.repeat)
    requires t == StartPlain(s, w, job.operation, job.req, job.repeat)
    ensures StartsWith(s.At(w).log, job, t.At(w).log)
  {
    var side := s.At(w);
    if side.op.skipSync {
    } else if job.repeat {
      var s0 := s.Put(w, EnterLoop(side, job));
      RepeatingGrows(s0, w, job, side.loops, t);
    } else {
      var a := Attempt(w, side.k, job.req);
      ConcludeGrows(s.Put(w, Log(side, Started(job)).(k := a.k)), w, job, a.chunk, a.r, a.again);
    }
  }

  lemma RepeatingGrows(s: State, w: bool, job: Job, outer: set<nat>, t: State)
    requires t == Repeating(s, w, job, outer)
    ensures s.At(w).log <= t.At(w).log
  {
    var e := TryRepeat(s, w, job);
    TryRepeatGrows(s, w, job, e);
    ConcludeGrows(e.s.Put(w, LeaveLoop(e.s.At(w), outer)), w, job, [], e.r, e.again);
  }

  lemma {:induction false} TryRepeatGrows(s: State, w: bool, job: Job, e: SyncEnd)
    requires e == TryRepeat(s, w, job)
    ensures s.At(w).log <= e.s.At(w).log
    decreases |s.script|, |s.At(w).k.env|, Avail(w, s.At(w).k)
  {
    var a := Attempt(w, s.At(w).k, job.req);
    AttemptProgress(w, s.At(w).k, job.req);
    RepeatCalls(s, w, job, a, e);
    if a.chunk != [] {
      var c := Called(job, a.r, a.chunk, false, false);
      var s1 := s.Put(w, Crossed(s.At(w).(k := a.k), !a.again));
      CallGrows(s1, w, c);
      TryRepeatGrows(Notify(s1, w, c), w, job, e);
    }
  }

  lemma CallGrows(s: State, w: bool, e: Entry)
    ensures var t := Notify(s, w, e);
      s.At(w).log <= t.At(w).log && (s.script == [] ==> t.At(w).k == s.At(w).k) && |t.script| <= |s.script|
    ensures s.script != [] ==> |Notify(s, w, e).script| < |s.script|
  {
    NotifyAfter(s, w, e);
  }

  lemma ConcludeGrows(s: State, w: bool, job: Job, done: seq<byte>, r: int, again: bool)
    ensures s.At(w).log <= Conclude(s, w, job, done, r, again).At(w).log
  {
    if !again {
      NotifyAfter(s, w, Called(job, r, done, true, false));
    }
  }

  lemma WholeBegins(s: State, w: bool, shape: Shape, job: Job, t: State)
    requires job == Begin(s.At(w), OpcodeAll(w, shape), job.req, false)
    requires t == Exec(s, StartAll(w, shape, job.req)) && Accepts(s, w, StartAll(w, shape, job.req))
    ensures StartsWith(s.At(w).log, job, t.At(w).log)
  {
    WholeKind(w, shape);
    match shape {
      case Rw => BufferBegins(s, w, job, t);
      case Msg => MsgBegins(s, w, job, TryAll(w, s.At(w).k, job.req, []), t);
      case Vec => VecBegins(s, w, job, t);
    }
  }

  lemma MsgBegins(s: State, w: bool, job: Job, u: Tried, t: State)
    requires job == Begin(s.At(w), job.operation, job.req, false) && u == TryAll(w, s.At(w).k, job.req, [])
    requires t == StartWholeMsg(s, w, job.operation, job.req) && (u.again ==> !Busy(s.At(w)))
    ensures StartsWith(s.At(w).log, job, t.At(w).log)
  {
    ConcludeGrows(s.Put(w, Log(Crossed(s.At(w), true), Started(job)).(k := u.k)), w, job, u.done, u.r, u.again);
  }

  lemma VecBegins(s: State, w: bool, job: Job, t: State)
    requires job == Begin(s.At(w), job.operation, job.req, false) && IsAll(job.operation)
    requires t == StartWholeVec(s, w, job.operation, job.req)
    ensures StartsWith(s.At(w).log, job, t.At(w).log)
  {
    var s0 := s.Put(w, Park(Log(s.At(w), Started(job)), job, []));
    if !s0.At(w).op.skipSync {
      DoOperationRecorded(s0, w, false);
      assert SideRecorded(w, s0.At(w), t.At(w));
    }
  }

  lemma BufferBegins(s: State, w: bool, job: Job, t: State)
    requires !Busy(s.At(w)) && job == Begin(s.At(w), job.operation, job.req, false)
    requires t == StartWhole(s, w, job.operation, job.req)
    ensures StartsWith(s.At(w).log, job, t.At(w).log)
  {
    var side := s.At(w);
    if !side.op.skipSync {
      var u := TryAll(w, side.k, job.req, []);
      ConcludeGrows(s.Put(w, Log(side, Started(job)).(k := u.k)), w, job, u.done, u.r, u.again);
    }
  }

  /** On a busy slot the starters of single transfers, `readAll`, `writeAll` and the waits
      are refused, and nothing changes. */
  lemma BusyRefuses(s: State, w: bool, shape: Shape, req: Request, repeat: bool)
    requires Busy(s.At(w))
    ensures Exec(s, Start(w, shape, req, repeat)) == Exec(s, StartAll(w, Rw, req)) == Exec(s, WaitOn(w)) == s
  {
  }

  // ---- Registering and unregistering. ----

  /** Adding the descriptor registers both sides. Whatever is ready at that moment raises an
      edge, and nothing else changes. */
  lemma AddRegisters(s: State, w: bool)
    requires !s.At(w).k.armed
    ensures var t := Exec(s, Add);
      && t.At(w).k.armed
      && (t.At(w).k.edge <==> Avail(w, s.At(w).k) > 0 || s.At(w).k.stop != Open)
      && t.At(w) == s.At(w).(k := s.At(w).k.(armed := true, edge := t.At(w).k.edge))
      && t == s.(rd := t.rd, wr := t.wr)
  {
  }

  /** Removing it makes every edge and the batch entry disappear: until it is added again no
      batch collects anything for it, and what was collected is not delivered. */
  lemma RemoveForgets(s: State, extra: Mask)
    ensures var t := Exec(s, Remove);
      && !t.rd.k.armed && !t.wr.k.armed && !t.rd.k.edge && !t.wr.k.edge && !t.rd.k.due && !t.wr.k.due
      && t.events == NO_EVENTS
      && t.rd.op == s.rd.op && t.wr.op == s.wr.op && t.rd.log == s.rd.log && t.wr.log == s.wr.log
      && Next(t, Collect(extra)) == t && Next(t, Deliver) == t
  {
  }
}
