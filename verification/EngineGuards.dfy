/** Which commands put bytes out of turn, and when: the exact conditions, on the slot and
    the loop a command finds, under which starting an operation keeps every byte accounted
    for, whatever the kernel holds and does and whatever the bytes are. */
module EngineGuards {
  import opened Kernel
  import opened Engine
  import opened EngineHistory
  import opened EngineRecords

  /** Another kernel end from which the same bytes were moved: what is queued, how much room
      there is and what will happen may all differ. */
  predicate Alike(w: bool, k: End, k': End) {
    Moved(w, k') == Moved(w, k)
  }

  function With(s: State, w: bool, k: End): State {
    s.Put(w, s.At(w).(k := k))
  }

  /** `recvAll` and `sendAll` find a slot in which they do no harm. */
  predicate MsgSafe(w: bool, side: Side, n: nat) {
    !Busy(side) || n == 0 || (n == 1 && side.op.done == [])
  }

  /** `recvAll` and `sendAll` look at the slot only after they have moved bytes. They keep
      every byte accounted for exactly when the slot is idle, or there is nothing to move,
      or one byte to move and none held back in the slot. */
  lemma MsgGuard(s: State, w: bool, req: Request)
    requires s.script == [] && Accounted(w, s.At(w))
    ensures MsgSafe(w, s.At(w), Want(w, req)) <==>
            forall k: End, q: Request :: Alike(w, s.At(w).k, k) && Want(w, q) == Want(w, req) ==>
              Accounted(w, Exec(With(s, w, k), StartAll(w, Msg, q)).At(w))
  {
    if MsgSafe(w, s.At(w), Want(w, req)) {
      forall k: End, q: Request | Alike(w, s.At(w).k, k) && Want(w, q) == Want(w, req)
        ensures Accounted(w, Exec(With(s, w, k), StartAll(w, Msg, q)).At(w))
      {
        MsgKeeps(With(s, w, k), w, q);
      }
    } else {
      var x: byte := if s.At(w).op.done != [] && s.At(w).op.done[0] == 0 then 1 else 0;
      var k := OneByte(w, s.At(w).k, x, [[], []]);
      var q := Fill(Want(w, req), x);
      MsgLoses(s, w, x, k, q);
      assert Alike(w, s.At(w).k, k) && Want(w, q) == Want(w, req);
    }
  }

  /** The same bytes moved, one more can be, and `env` will happen. */
  function OneByte(w: bool, k: End, x: byte, env: seq<seq<Event>>): (k': End)
    ensures Moved(w, k') == Moved(w, k)
  {
    if w then k.(space := 1, env := env, stop := Open)
    else k.(stream := Moved(false, k) + [x], env := env, stop := Open)
  }

  function Fill(n: nat, x: byte): Request {
    Request(seq(n, _ => x), n)
  }

  /** Nothing can be moved right now, and `env` will happen. */
  predicate Empty(w: bool, k: End, env: seq<seq<Event>>) {
    Avail(w, k) == 0 && k.stop == Open && k.env == env
  }

  /** A request that writes `x` first, if it writes. */
  predicate Leads(w: bool, q: Request, x: byte) {
    Want(w, q) > 0 && (w ==> q.data[0] == x)
  }

  lemma FirstByte(w: bool, k: End, x: byte, q: Request, env: seq<seq<Event>>)
    requires Leads(w, q, x) && env != [] && env[0] == []
    ensures var a := Attempt(w, OneByte(w, k, x, env), q);
      a.chunk == [x] && a.r == 1 && !a.again && Empty(w, a.k, env[1..]) && Moved(w, a.k) == Moved(w, k) + [x]
  {
    var k0 := OneByte(w, k, x, env);
    assert Tick(w, k0) == k0.(env := env[1..]);
    AttemptHonest(w, k0, q);
  }

  lemma NoByte(w: bool, k: End, req: Request, env: seq<seq<Event>>)
    requires Empty(w, k, env) && Want(w, req) > 0 && (env == [] || env[0] == [])
    ensures var a := Attempt(w, k, req);
      a.chunk == [] && a.again && Moved(w, a.k) == Moved(w, k) && Empty(w, a.k, if env == [] then [] else env[1..])
  {
    assert env != [] ==> Tick(w, k) == k.(env := env[1..]);
  }

  lemma RestOfAll(w: bool, req: Request)
    ensures Rest(req, 0) == req
  {
  }

  /** One round of the loop over a whole buffer. */
  lemma TryStep(w: bool, k: End, req: Request, done: seq<byte>, a: Outcome)
    requires |done| < Want(w, req) && a == Attempt(w, k, Rest(req, |done|))
    ensures TryAll(w, k, req, done) ==
            if a.chunk == [] then Tried(a.k, done, if done == [] then a.r else |done|, a.again)
            else TryAll(w, a.k, req, done + a.chunk)
  {
    AttemptProgress(w, k, Rest(req, |done|));
  }

  /** With one byte there, a request for more stops after it; a request for one is done. */
  lemma OneByteTried(w: bool, k: End, x: byte, q: Request, rest: seq<seq<Event>>, t: Tried)
    requires Leads(w, q, x) && t == TryAll(w, OneByte(w, k, x, [[]] + ([[]] + rest)), q, [])
    ensures t.done == [x] && t.r == 1 && Moved(w, t.k) == Moved(w, k) + [x]
    ensures t.again <==> Want(w, q) > 1
    ensures Want(w, q) > 1 ==> Empty(w, t.k, rest)
  {
    var env := [[]] + ([[]] + rest);
    FirstByte(w, k, x, q, env);
    assert env[1..] == [[]] + rest;
    RestOfAll(w, q);
    FirstTried(w, OneByte(w, k, x, env), x, q, rest, Attempt(w, OneByte(w, k, x, env), q), t);
  }

  lemma FirstTried(w: bool, k: End, x: byte, q: Request, rest: seq<seq<Event>>, a: Outcome, t: Tried)
    requires Want(w, q) > 0 && a == Attempt(w, k, Rest(q, 0)) && a.chunk == [x] && Empty(w, a.k, [[]] + rest)
    requires t == TryAll(w, k, q, [])
    ensures t.done == [x] && t.r == 1 && Moved(w, t.k) == Moved(w, a.k)
    ensures t.again <==> Want(w, q) > 1
    ensures Want(w, q) > 1 ==> Empty(w, t.k, rest)
  {
    TryStep(w, k, q, [], a);
    assert [] + a.chunk == [x];
    SecondTried(w, a.k, x, q, rest, t);
  }

  lemma SecondTried(w: bool, k: End, x: byte, q: Request, rest: seq<seq<Event>>, t: Tried)
    requires Want(w, q) > 0 && Empty(w, k, [[]] + rest) && t == TryAll(w, k, q, [x])
    ensures t.done == [x] && t.r == 1 && Moved(w, t.k) == Moved(w, k)
    ensures t.again <==> Want(w, q) > 1
    ensures Want(w, q) > 1 ==> Empty(w, t.k, rest)
  {
    if Want(w, q) > 1 {
      NoByte(w, k, Rest(q, 1), [[]] + rest);
      TryStep(w, k, q, [x], Attempt(w, k, Rest(q, 1)));
    }
  }

  /** `recvAll` and `sendAll` after an attempt that finds the slot taken and work left, or
      completes. */
  lemma MsgOver(s: State, w: bool, req: Request, t: Tried, u: Side)
    requires s.script == [] && t == TryAll(w, s.At(w).k, req, []) && (t.again ==> Busy(s.At(w)))
    requires u == StartWholeMsg(s, w, OpcodeAll(w, Msg), req).At(w)
    ensures u.op == s.At(w).op && u.k == t.k
    ensures LogBytes(u.log) == LogBytes(s.At(w).log) + if t.again then [] else t.done
  {
    var side := s.At(w);
    if t.again {
      assert LogBytes(side.log) + [] == LogBytes(side.log);
    } else {
      var job := Begin(side, OpcodeAll(w, Msg), req, false);
      Appended(side.log, Started(job));
      Appended(side.log + [Started(job)], Called(job, t.r, t.done, true, false));
      Regroup(LogBytes(side.log), [], t.done);
    }
  }

  lemma MsgLoses(s: State, w: bool, x: byte, k: End, q: Request)
    requires s.script == [] && Accounted(w, s.At(w)) && Busy(s.At(w)) && Leads(w, q, x)
    requires Want(w, q) == 1 ==> s.At(w).op.done != [] && s.At(w).op.done[0] != x
    requires k == OneByte(w, s.At(w).k, x, [[], []])
    ensures !Accounted(w, Exec(With(s, w, k), StartAll(w, Msg, q)).At(w))
  {
    var side := s.At(w);
    var t := TryAll(w, k, q, []);
    TwoQuiet([]);
    OneByteTried(w, side.k, x, q, [], t);
    var u := Exec(With(s, w, k), StartAll(w, Msg, q)).At(w);
    MsgOver(With(s, w, k), w, q, t, u);
    ByteLost(w, side, x, t.again, u);
  }

  /** One byte more was moved: it is dropped, or reported before what the slot holds. */
  lemma ByteLost(w: bool, a: Side, x: byte, dropped: bool, b: Side)
    requires Accounted(w, a) && Busy(a) && b.op == a.op && Moved(w, b.k) == Moved(w, a.k) + [x]
    requires LogBytes(b.log) == LogBytes(a.log) + if dropped then [] else [x]
    requires !dropped ==> a.op.done != [] && a.op.done[0] != x
    ensures !Accounted(w, b)
  {
    if dropped {
      assert |LogBytes(b.log) + b.op.done| < |Moved(w, b.k)|;
    } else {
      OutOfTurn(LogBytes(a.log), [x], a.op.done);
    }
  }

  lemma OutOfTurn(log: seq<byte>, x: seq<byte>, held: seq<byte>)
    requires x != [] && held != [] && x[0] != held[0]
    ensures log + x + held != log + held + x
  {
    assert (log + x + held)[|log|] == x[0];
    assert (log + held + x)[|log|] == held[0];
  }

  /** A callback that reports what was just moved, or parking it, keeps the account. */
  lemma ConcludeKeeps(s: State, w: bool, job: Job, done: seq<byte>, r: int, again: bool)
    requires s.script == [] && Pending(s.At(w)) == [] && (again ==> !Busy(s.At(w)) && job.operation != NoOp)
    requires LogBytes(s.At(w).log) + done == Moved(w, s.At(w).k)
    ensures var t := Conclude(s, w, job, done, r, again);
      && t.script == [] && Accounted(w, t.At(w))
      && Pending(t.At(w)) == if again then done else []
  {
    Appended(s.At(w).log, Called(job, r, done, true, false));
    Regroup(LogBytes(s.At(w).log), done, []);
    assert LogBytes(s.At(w).log) + done + [] == LogBytes(s.At(w).log) + done;
  }

  lemma MsgKeeps(s: State, w: bool, req: Request)
    requires s.script == [] && Accounted(w, s.At(w)) && MsgSafe(w, s.At(w), Want(w, req))
    ensures Accounted(w, Exec(s, StartAll(w, Msg, req)).At(w))
  {
    var side := s.At(w);
    var t := TryAll(w, side.k, req, []);
    var u := Exec(s, StartAll(w, Msg, req)).At(w);
    WholeKind(w, Msg);
    TryAllMoves(w, side.k, req, []);
    assert t.done[0..] == t.done;
    if Busy(side) {
      MsgOver(s, w, req, t, u);
      BytesPassed(w, side, t.done, u);
    } else {
      MsgIdleKeeps(s, w, Begin(side, OpcodeAll(w, Msg), req, false), t, u);
    }
  }

  lemma MsgIdleKeeps(s: State, w: bool, job: Job, t: Tried, u: Side)
    requires s.script == [] && Accounted(w, s.At(w)) && !Busy(s.At(w)) && IsAll(job.operation)
    requires job == Begin(s.At(w), job.operation, job.req, false) && t == TryAll(w, s.At(w).k, job.req, [])
    requires Moved(w, t.k) == Moved(w, s.At(w).k) + t.done && u == StartWholeMsg(s, w, job.operation, job.req).At(w)
    ensures Accounted(w, u)
  {
    Kinds(job.operation);
    assert Crossed(s.At(w), true) == s.At(w);
    StartedKeeps(s, w, job, t.k, t.done, t.r, t.again);
  }

  /** More was moved and reported past the slot, but the slot holds nothing, or nothing was. */
  lemma BytesPassed(w: bool, a: Side, chunk: seq<byte>, b: Side)
    requires Accounted(w, a) && Busy(a) && b.op == a.op && Moved(w, b.k) == Moved(w, a.k) + chunk
    requires LogBytes(b.log) == LogBytes(a.log) + chunk && (chunk == [] || a.op.done == [])
    ensures Accounted(w, b)
  {
    EitherEmpty(chunk, a.op.done);
    Reported(LogBytes(a.log), a.op.done, Moved(w, a.k), chunk, a.op.done, chunk);
  }

  lemma EitherEmpty(x: seq<byte>, y: seq<byte>)
    ensures x == [] || y == [] ==> x + y == y + x
  {
  }

  /** Starting an operation that moved `done` at once. */
  lemma StartedKeeps(s: State, w: bool, job: Job, k: End, done: seq<byte>, r: int, again: bool)
    requires s.script == [] && Accounted(w, s.At(w)) && Pending(s.At(w)) == []
    requires again ==> !Busy(s.At(w)) && job.operation != NoOp
    requires Moved(w, k) == Moved(w, s.At(w).k) + done
    ensures var t := Conclude(s.Put(w, Log(s.At(w), Started(job)).(k := k)), w, job, done, r, again);
      && t.script == [] && Accounted(w, t.At(w))
      && Pending(t.At(w)) == if again then done else []
  {
    Appended(s.At(w).log, Started(job));
    assert LogBytes(s.At(w).log) + [] == LogBytes(s.At(w).log);
    ConcludeKeeps(s.Put(w, Log(s.At(w), Started(job)).(k := k)), w, job, done, r, again);
  }

  // ---- Starting from a callback of a synchronous repeat loop. ----

  /** What the side has come to when a callback of the loop of `job` has issued `c` and the
      loop has made its remaining calls. How the loop then ends is `EngineLosses.LoopedOut`. */
  function LoopedOn(s: State, w: bool, c: Command, job: Job): Side {
    TryRepeat(Exec(s, c), w, job).s.At(w)
  }

  /** The loop's own request is empty, or the new operation cannot be parked with bytes that
      it already moved: it wants one byte at most, or makes no synchronous attempt. */
  predicate LoopSafe(w: bool, side: Side, shape: Shape, n: nat, job: Job) {
    Want(w, job.req) == 0 || n <= 1 || (side.op.skipSync && shape != Msg)
  }

  /** A whole-buffer operation started by a callback of a synchronous repeat loop keeps
      every byte accounted for exactly under that condition. */
  lemma LoopGuard(s: State, w: bool, shape: Shape, req: Request, job: Job)
    requires s.script == [] && Accounted(w, s.At(w)) && !Busy(s.At(w))
    ensures LoopSafe(w, s.At(w), shape, Want(w, req), job) <==>
            forall k: End, q: Request :: Alike(w, s.At(w).k, k) && Want(w, q) == Want(w, req) ==>
              Accounted(w, LoopedOn(With(s, w, k), w, StartAll(w, shape, q), job))
  {
    if LoopSafe(w, s.At(w), shape, Want(w, req), job) {
      forall k: End, q: Request | Alike(w, s.At(w).k, k) && Want(w, q) == Want(w, req)
        ensures Accounted(w, LoopedOn(With(s, w, k), w, StartAll(w, shape, q), job))
      {
        WholeKeeps(With(s, w, k), w, shape, q);
        LoopKeeps(Exec(With(s, w, k), StartAll(w, shape, q)), w, job);
      }
    } else {
      var y: byte := if w then job.req.data[0] else 1;
      var x: byte := if y == 0 then 1 else 0;
      var k := OneByte(w, s.At(w).k, x, Before(shape) + [[More(w, y)]]);
      var q := Fill(Want(w, req), x);
      WholeParks(s, w, shape, x, q, [[More(w, y)]], k);
      var u := Exec(With(s, w, k), StartAll(w, shape, q));
      LoopCrosses(u, w, job, y, TryRepeat(u, w, job));
      var v := LoopedOn(With(s, w, k), w, StartAll(w, shape, q), job);
      OutOfTurn(LogBytes(s.At(w).log), [y], [x]);
      assert Moved(w, v.k) == LogBytes(s.At(w).log) + [x] + [y];
      assert Alike(w, s.At(w).k, k) && Want(w, q) == Want(w, req);
    }
  }

  /** One more byte can be moved. */
  function More(w: bool, y: byte): Event {
    if w then Free(1) else Arrive([y])
  }

  /** Nothing happens before the calls a whole-buffer operation makes until EAGAIN. */
  function Before(shape: Shape): seq<seq<Event>> {
    if shape == Vec then [[]] else [[], []]
  }

  lemma TwoQuiet(rest: seq<seq<Event>>)
    ensures [[], []] + rest == [[]] + ([[]] + rest)
    ensures rest == [] ==> [[], []] == [[]] + ([[]] + rest)
  {
  }

  lemma {:induction false} LoopKeeps(s: State, w: bool, job: Job)
    requires s.script == [] && Accounted(w, s.At(w)) && (Pending(s.At(w)) == [] || Want(w, job.req) == 0)
    ensures var e := TryRepeat(s, w, job);
      e.s.script == [] && Accounted(w, e.s.At(w)) && e.s.At(w).op == s.At(w).op
    decreases |s.At(w).k.env|, Avail(w, s.At(w).k)
  {
    AttemptProgress(w, s.At(w).k, job.req);
    AttemptHonest(w, s.At(w).k, job.req);
    var side := s.At(w);
    var a := Attempt(w, side.k, job.req);
    if a.chunk == [] {
      Unit(Moved(w, side.k));
    } else {
      var e := Called(job, a.r, a.chunk, false, false);
      var side1 := Crossed(side.(k := a.k), !a.again);
      Unit(a.chunk);
      AccountedAfter(w, side, Log(side1, e), a.chunk, e);
      LoopKeeps(Notify(s.Put(w, side1), w, e), w, job);
    }
  }

  lemma WholeKeeps(s: State, w: bool, shape: Shape, req: Request)
    requires s.script == [] && Accounted(w, s.At(w)) && !Busy(s.At(w))
    ensures var t := Exec(s, StartAll(w, shape, req));
      && t.script == [] && Accounted(w, t.At(w))
      && (Want(w, req) <= 1 || (s.At(w).op.skipSync && shape != Msg) ==> Pending(t.At(w)) == [])
  {
    var side := s.At(w);
    var job := Begin(side, OpcodeAll(w, shape), req, false);
    if side.op.skipSync && shape != Msg {
      ParkedKeeps(s, w, job);
    } else if shape == Vec {
      VecKeeps(s, w, job, Exec(s, StartAll(w, shape, req)));
    } else {
      TriedKeeps(s, w, shape, job, TryAll(w, side.k, req, []), Exec(s, StartAll(w, shape, req)));
    }
  }

  lemma TriedKeeps(s: State, w: bool, shape: Shape, job: Job, t: Tried, u: State)
    requires s.script == [] && Accounted(w, s.At(w)) && !Busy(s.At(w)) && shape != Vec
    requires s.At(w).op.skipSync ==> shape == Msg
    requires job == Begin(s.At(w), OpcodeAll(w, shape), job.req, false)
    requires t == TryAll(w, s.At(w).k, job.req, []) && u == Exec(s, StartAll(w, shape, job.req))
    ensures u.script == [] && Accounted(w, u.At(w)) && (Want(w, job.req) <= 1 ==> Pending(u.At(w)) == [])
  {
    TryAllMoves(w, s.At(w).k, job.req, []);
    assert t.done[0..] == t.done;
    Kinds(job.operation);
    assert Crossed(s.At(w), true) == s.At(w);
    StartedKeeps(s, w, job, t.k, t.done, t.r, t.again);
  }

  /** Parking without an attempt. */
  lemma ParkedKeeps(s: State, w: bool, job: Job)
    requires Accounted(w, s.At(w)) && !Busy(s.At(w))
    ensures Accounted(w, Park(Log(s.At(w), Started(job)), job, []))
    ensures Pending(Park(Log(s.At(w), Started(job)), job, [])) == []
  {
    Appended(s.At(w).log, Started(job));
    assert LogBytes(s.At(w).log) + [] == LogBytes(s.At(w).log);
  }

  lemma VecKeeps(s: State, w: bool, job: Job, t: State)
    requires s.script == [] && Accounted(w, s.At(w)) && !Busy(s.At(w)) && !s.At(w).op.skipSync
    requires IsAll(job.operation) && !job.repeat && t == StartWholeVec(s, w, job.operation, job.req)
    requires job.id == |s.At(w).log|
    ensures t.script == [] && Accounted(w, t.At(w)) && (Want(w, job.req) <= 1 ==> Pending(t.At(w)) == [])
  {
    var side := Park(Log(s.At(w), Started(job)), job, []);
    ParkedKeeps(s, w, job);
    VecServes(s.Put(w, side), w, t);
  }

  lemma VecServes(s: State, w: bool, t: State)
    requires s.script == [] && Accounted(w, s.At(w)) && !s.At(w).op.skipSync
    requires IsAll(s.At(w).op.job.operation) && s.At(w).op.done == [] && t == DoOperation(s, w, false)
    ensures t.script == [] && Accounted(w, t.At(w))
    ensures Want(w, s.At(w).op.job.req) <= 1 ==> Pending(t.At(w)) == []
  {
    var a := Attempt(w, s.At(w).k, s.At(w).op.job.req);
    AttemptHonest(w, s.At(w).k, s.At(w).op.job.req);
    VecAttempts(s, w, a, t);
    Regroup(LogBytes(s.At(w).log), [], []);
    VecAttempted(s.Put(w, s.At(w).(k := a.k)), w, a, Moved(w, s.At(w).k), t);
  }

  /** readvAll and writevAll: their synchronous attempt is one call of doOperation. */
  lemma VecAttempts(s: State, w: bool, a: Outcome, t: State)
    requires IsAll(s.At(w).op.job.operation) && s.At(w).op.done == [] && !s.At(w).op.skipSync
    requires a == Attempt(w, s.At(w).k, s.At(w).op.job.req) && t == DoOperation(s, w, false)
    ensures t == AllAttempted(s.Put(w, s.At(w).(k := a.k)), w, false, a)
  {
    Kinds(s.At(w).op.job.operation);
    RestOfAll(w, s.At(w).op.job.req);
    assert Skip(s.At(w), false) == s.At(w) && s.Put(w, s.At(w)) == s;
  }

  lemma VecAttempted(s: State, w: bool, a: Outcome, was: seq<byte>, t: State)
    requires s.script == [] && IsAll(s.At(w).op.job.operation) && s.At(w).op.done == []
    requires LogBytes(s.At(w).log) == was && Moved(w, s.At(w).k) == was + a.chunk && (a.again ==> a.chunk == [])
    requires t == AllAttempted(s, w, false, a)
    ensures t.script == [] && Accounted(w, t.At(w))
    ensures Want(w, s.At(w).op.job.req) <= 1 ==> Pending(t.At(w)) == []
  {
    Unit(was);
    if a.chunk == [] {
      VecEmptyKeeps(s, w, a, t);
    } else if |a.chunk| >= Want(w, s.At(w).op.job.req) {
      VecDoneKeeps(s, w, a, t);
    } else {
      VecHolds(s, w, a, t);
    }
  }

  lemma VecEmptyKeeps(s: State, w: bool, a: Outcome, t: State)
    requires s.script == [] && s.At(w).op.done == [] && a.chunk == [] && t == AllAttempted(s, w, false, a)
    requires LogBytes(s.At(w).log) == Moved(w, s.At(w).k)
    ensures t.script == [] && Accounted(w, t.At(w)) && Pending(t.At(w)) == []
  {
    VecEmpty(s, w, a, t);
    Unit(LogBytes(s.At(w).log));
    CallKeeps(w, s.At(w), Called(s.At(w).op.job, a.r, [], true, false));
  }

  lemma VecDoneKeeps(s: State, w: bool, a: Outcome, t: State)
    requires s.script == [] && s.At(w).op.done == [] && !a.again && t == AllAttempted(s, w, false, a)
    requires a.chunk != [] && |a.chunk| >= Want(w, s.At(w).op.job.req)
    requires LogBytes(s.At(w).log) + a.chunk == Moved(w, s.At(w).k)
    ensures t.script == [] && Accounted(w, t.At(w)) && Pending(t.At(w)) == []
  {
    VecDone(s, w, a, t);
    CallKeeps(w, s.At(w), Called(s.At(w).op.job, |a.chunk|, a.chunk, true, false));
  }

  /** The slot's operation ends by reporting all that it moved. */
  lemma CallKeeps(w: bool, side: Side, e: Entry)
    requires e.Called? && LogBytes(side.log) + e.bytes == Moved(w, side.k)
    ensures Accounted(w, Log(Clear(side), e))
    ensures e.bytes == [] && side.op.done == [] ==> Accounted(w, side)
  {
    Appended(side.log, e);
    assert Moved(w, side.k) + [] == Moved(w, side.k);
  }

  lemma VecEmpty(s: State, w: bool, a: Outcome, t: State)
    requires s.script == [] && s.At(w).op.done == [] && a.chunk == [] && t == AllAttempted(s, w, false, a)
    ensures t == if a.again then s
                 else s.Put(w, Log(Clear(s.At(w)), Called(s.At(w).op.job, a.r, [], true, false)))
  {
    PutPut(s, w, Clear(s.At(w)), Log(Clear(s.At(w)), Called(s.At(w).op.job, a.r, [], true, false)));
  }

  lemma VecDone(s: State, w: bool, a: Outcome, t: State)
    requires s.script == [] && s.At(w).op.done == [] && !a.again && t == AllAttempted(s, w, false, a)
    requires a.chunk != [] && |a.chunk| >= Want(w, s.At(w).op.job.req)
    ensures t == s.Put(w, Log(Clear(s.At(w)), Called(s.At(w).op.job, |a.chunk|, a.chunk, true, false)))
  {
    assert [] + a.chunk == a.chunk;
    PutPut(s, w, Clear(s.At(w)), Log(Clear(s.At(w)), Called(s.At(w).op.job, |a.chunk|, a.chunk, true, false)));
  }

  lemma VecHolds(s: State, w: bool, a: Outcome, t: State)
    requires s.At(w).op.done == [] && !a.again && t == AllAttempted(s, w, false, a)
    requires a.chunk != [] && |a.chunk| < Want(w, s.At(w).op.job.req)
    ensures t == s.Put(w, s.At(w).(op := s.At(w).op.(done := a.chunk)))
  {
    assert [] + a.chunk == a.chunk;
  }

  /** With one byte there, a whole-buffer operation that wants more and makes a synchronous
      attempt is parked holding that byte. */
  lemma WholeParks(s: State, w: bool, shape: Shape, x: byte, q: Request, rest: seq<seq<Event>>, k: End)
    requires s.script == [] && Accounted(w, s.At(w)) && !Busy(s.At(w)) && Leads(w, q, x) && Want(w, q) > 1
    requires s.At(w).op.skipSync ==> shape == Msg
    requires k == OneByte(w, s.At(w).k, x, Before(shape) + rest)
    ensures var t := Exec(With(s, w, k), StartAll(w, shape, q));
      && t.script == [] && Pending(t.At(w)) == [x] && Empty(w, t.At(w).k, rest)
      && LogBytes(t.At(w).log) == LogBytes(s.At(w).log) == Moved(w, s.At(w).k)
      && Moved(w, t.At(w).k) == Moved(w, s.At(w).k) + [x]
  {
    var s0 := With(s, w, k);
    var job := Begin(s0.At(w), OpcodeAll(w, shape), q, false);
    StartedWholeParks(s0, w, s.At(w).k, shape, x, rest, job, Exec(s0, StartAll(w, shape, q)));
    StartAside(w, s.At(w), job);
  }

  /** Starting an operation on an idle slot accounts for nothing. */
  lemma StartAside(w: bool, side: Side, job: Job)
    requires Accounted(w, side) && !Busy(side)
    ensures LogBytes(side.log + [Started(job)]) == LogBytes(side.log) == Moved(w, side.k)
  {
    Appended(side.log, Started(job));
    Unit(LogBytes(side.log));
  }

  lemma StartedWholeParks(s: State, w: bool, k: End, shape: Shape, x: byte, rest: seq<seq<Event>>, job: Job, u: State)
    requires !Busy(s.At(w)) && (s.At(w).op.skipSync ==> shape == Msg)
    requires Leads(w, job.req, x) && Want(w, job.req) > 1
    requires s.At(w).k == OneByte(w, k, x, Before(shape) + rest)
    requires job == Begin(s.At(w), OpcodeAll(w, shape), job.req, false)
    requires u == Exec(s, StartAll(w, shape, job.req))
    ensures u.script == s.script && Pending(u.At(w)) == [x] && Empty(w, u.At(w).k, rest)
    ensures u.At(w).log == s.At(w).log + [Started(job)] && Moved(w, u.At(w).k) == Moved(w, k) + [x]
  {
    WholeKind(w, shape);
    if shape == Vec {
      VecParks(s, w, k, x, rest, job, u);
    } else {
      TwoQuiet(rest);
      TriedWholeParks(s, w, k, shape, x, rest, job, u);
    }
  }

  lemma TriedWholeParks(s: State, w: bool, k: End, shape: Shape, x: byte, rest: seq<seq<Event>>, job: Job, u: State)
    requires !Busy(s.At(w)) && shape != Vec && (s.At(w).op.skipSync ==> shape == Msg)
    requires Leads(w, job.req, x) && Want(w, job.req) > 1
    requires s.At(w).k == OneByte(w, k, x, [[]] + ([[]] + rest))
    requires job == Begin(s.At(w), OpcodeAll(w, shape), job.req, false)
    requires u == Exec(s, StartAll(w, shape, job.req))
    ensures u.script == s.script && Pending(u.At(w)) == [x] && Empty(w, u.At(w).k, rest)
    ensures u.At(w).log == s.At(w).log + [Started(job)] && Moved(w, u.At(w).k) == Moved(w, k) + [x]
  {
    var t := TryAll(w, s.At(w).k, job.req, []);
    OneByteTried(w, k, x, job.req, rest, t);
    if shape == Rw {
      WholeTriedParks(s, w, t, job, u);
    } else {
      MsgTriedParks(s, w, t, job, u);
    }
  }

  lemma WholeTriedParks(s: State, w: bool, t: Tried, job: Job, u: State)
    requires !Busy(s.At(w)) && !s.At(w).op.skipSync
    requires t == TryAll(w, s.At(w).k, job.req, []) && t.again
    requires job == Begin(s.At(w), job.operation, job.req, false)
    requires u == StartWhole(s, w, job.operation, job.req)
    ensures u == s.Put(w, Park(Log(s.At(w), Started(job)).(k := t.k), job, t.done))
  {
    var side := Log(s.At(w), Started(job)).(k := t.k);
    assert u == Conclude(s.Put(w, side), w, job, t.done, t.r, true);
    PutPut(s, w, side, Park(side, job, t.done));
  }

  lemma MsgTriedParks(s: State, w: bool, t: Tried, job: Job, u: State)
    requires !Busy(s.At(w)) && t == TryAll(w, s.At(w).k, job.req, []) && t.again
    requires job == Begin(s.At(w), job.operation, job.req, false)
    requires u == StartWholeMsg(s, w, job.operation, job.req)
    ensures u == s.Put(w, Park(Log(s.At(w), Started(job)).(k := t.k), job, t.done))
  {
    assert Crossed(s.At(w), true) == s.At(w);
    var side := Log(s.At(w), Started(job)).(k := t.k);
    assert u == Conclude(s.Put(w, side), w, job, t.done, t.r, true);
    PutPut(s, w, side, Park(side, job, t.done));
  }

  lemma VecParks(s: State, w: bool, k: End, x: byte, rest: seq<seq<Event>>, job: Job, t: State)
    requires !Busy(s.At(w)) && !s.At(w).op.skipSync && Leads(w, job.req, x) && Want(w, job.req) > 1
    requires s.At(w).k == OneByte(w, k, x, [[]] + rest)
    requires job == Begin(s.At(w), OpcodeAll(w, Vec), job.req, false)
    requires t == StartWholeVec(s, w, job.operation, job.req)
    ensures t.script == s.script && Pending(t.At(w)) == [x] && Empty(w, t.At(w).k, rest)
    ensures t.At(w).log == s.At(w).log + [Started(job)] && Moved(w, t.At(w).k) == Moved(w, k) + [x]
  {
    FirstByte(w, k, x, job.req, [[]] + rest);
    assert ([[]] + rest)[1..] == rest;
    WholeKind(w, Vec);
    VecTakes(s, w, x, job, Attempt(w, s.At(w).k, job.req), t);
  }

  lemma VecTakes(s: State, w: bool, x: byte, job: Job, a: Outcome, t: State)
    requires !Busy(s.At(w)) && !s.At(w).op.skipSync && IsAll(job.operation) && Want(w, job.req) > 1
    requires job == Begin(s.At(w), job.operation, job.req, false)
    requires a == Attempt(w, s.At(w).k, job.req) && a.chunk == [x] && !a.again
    requires t == StartWholeVec(s, w, job.operation, job.req)
    ensures t.script == s.script && Pending(t.At(w)) == [x] && t.At(w).k == a.k
    ensures t.At(w).log == s.At(w).log + [Started(job)]
  {
    VecWaits(s.Put(w, Park(Log(s.At(w), Started(job)), job, [])), w, a, t);
  }

  lemma VecWaits(s: State, w: bool, a: Outcome, t: State)
    requires IsAll(s.At(w).op.job.operation) && s.At(w).op.done == [] && !s.At(w).op.skipSync
    requires a == Attempt(w, s.At(w).k, s.At(w).op.job.req) && t == DoOperation(s, w, false)
    requires !a.again && a.chunk != [] && |a.chunk| < Want(w, s.At(w).op.job.req)
    ensures t == s.Put(w, s.At(w).(k := a.k, op := s.At(w).op.(done := a.chunk)))
  {
    VecAttempts(s, w, a, t);
    VecHolds(s.Put(w, s.At(w).(k := a.k)), w, a, t);
  }

  /** The loop moves one byte more and reports it, past what the slot holds. */
  lemma LoopCrosses(s: State, w: bool, job: Job, y: byte, e: SyncEnd)
    requires s.script == [] && Empty(w, s.At(w).k, [[More(w, y)]]) && Leads(w, job.req, y)
    requires e == TryRepeat(s, w, job)
    ensures e.again && e.s.At(w).op == s.At(w).op && Empty(w, e.s.At(w).k, [])
    ensures LogBytes(e.s.At(w).log) == LogBytes(s.At(w).log) + [y]
    ensures Moved(w, e.s.At(w).k) == Moved(w, s.At(w).k) + [y]
  {
    var side := s.At(w);
    var a := Attempt(w, side.k, job.req);
    OneMore(w, side.k, job.req, y);
    var c := Called(job, a.r, a.chunk, false, false);
    var s1 := s.Put(w, Log(Crossed(side.(k := a.k), !a.again), c));
    Appended(side.log, c);
    NoByte(w, s1.At(w).k, job.req, []);
    assert e == TryRepeat(s1, w, job) by {
      AttemptProgress(w, side.k, job.req);
      PutPut(s, w, Crossed(side.(k := a.k), !a.again), s1.At(w));
    }
  }

  lemma OneMore(w: bool, k: End, req: Request, y: byte)
    requires Empty(w, k, [[More(w, y)]]) && Want(w, req) > 0 && (w ==> req.data[0] == y)
    ensures var a := Attempt(w, k, req);
      a.chunk == [y] && !a.again && Empty(w, a.k, []) && Moved(w, a.k) == Moved(w, k) + [y]
  {
    var k0 := k.(env := []);
    assert Tick(w, k) == RaiseAll(w, k0, [More(w, y)]);
    assert RaiseAll(w, k0, [More(w, y)]) == RaiseAll(w, Raise(w, k0, More(w, y)), []);
    AttemptHonest(w, k, req);
  }

  /** Starting a single transfer or a `wait` from such a callback never puts a byte out of
      turn: those are parked with nothing moved. Whether they survive the end of the loop
      is another matter: `EngineLosses.ParkGuard`. */
  lemma PlainInLoopKeeps(s: State, w: bool, c: Command, job: Job)
    requires s.script == [] && Accounted(w, s.At(w)) && !Busy(s.At(w))
    requires c == WaitOn(w) || (c.Start? && c.w == w)
    ensures Accounted(w, LoopedOn(s, w, c, job))
  {
    match c {
      case WaitOn(_) => ParkedKeeps(s, w, Begin(s.At(w), Wait, Request([], 0), false));
      case Start(_, shape, req, repeat) => PlainKeeps(s, w, Begin(s.At(w), Opcode(w, shape), req, repeat));
    }
    LoopKeeps(Exec(s, c), w, job);
  }

  lemma PlainKeeps(s: State, w: bool, job: Job)
    requires s.script == [] && Accounted(w, s.At(w)) && !Busy(s.At(w))
    requires job.id == |s.At(w).log| && IsPlain(job.operation)
    ensures var t := StartPlain(s, w, job.operation, job.req, job.repeat);
      t.script == [] && Accounted(w, t.At(w)) && Pending(t.At(w)) == []
  {
    var side := s.At(w);
    if side.op.skipSync {
      ParkedKeeps(s, w, job);
    } else if job.repeat {
      var s0 := s.Put(w, EnterLoop(side, job));
      Appended(side.log, Started(job));
      Regroup(LogBytes(side.log), [], []);
      LoopKeeps(s0, w, job);
      var e := TryRepeat(s0, w, job);
      Regroup(LogBytes(e.s.At(w).log), [], []);
      ConcludeKeeps(e.s.Put(w, LeaveLoop(e.s.At(w), side.loops)), w, job, [], e.r, e.again);
    } else {
      var a := Attempt(w, side.k, job.req);
      AttemptHonest(w, side.k, job.req);
      StartedKeeps(s, w, job, a.k, a.chunk, a.r, a.again);
    }
  }
}
