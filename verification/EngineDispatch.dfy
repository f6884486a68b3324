/** What a batch entry's mask makes of the two slots: which side is served, which is told of a
    hang-up or an error, and what number its callback gets. */
module EngineDispatch {
  import opened Kernel
  import opened Engine
  import opened EngineWakeups
  import opened EngineHistory
  import opened EngineRecords
  import opened EngineService

  /** An entry for the descriptor is in the batch, and its turn comes. */
  predicate Waiting(s: State) {
    s.noted && !s.aborted
  }

  /** The operation is one that a hang-up ends. */
  predicate Ends(o: Operations) {
    o !in {NoOp, Wait, ReadvAll, WritevAll}
  }

  /** The pending operation `op` was told `r`, or the count of what it moved, as its last
      callback. */
  predicate Told(x: seq<Entry>, op: OperationInfo, r: int, y: seq<Entry>) {
    if IsAll(op.job.operation) && op.done != [] then
      x + [Called(op.job, |op.done|, op.done, true, true)] <= y
    else
      x + [Called(op.job, r, [], true, true)] <= y
  }

  /** What a batch collects for the descriptor: at least what its edges are about, and
      whatever else the kernel says. The edges are used up, and due until they are handed
      over. */
  lemma Collects(s: State, extra: Mask)
    requires !s.aborted && !s.noted && s.rd.k.armed
    ensures var t, m := Next(s, Collect(extra)), Next(s, Collect(extra)).events;
      && t.noted && !t.rd.k.edge && !t.wr.k.edge
      && (m.pollin <==> extra.pollin || (s.rd.k.edge && (Avail(false, s.rd.k) > 0 || s.rd.k.stop != Open)))
      && (m.pollout <==> extra.pollout || (s.wr.k.edge && (Avail(true, s.wr.k) > 0 || s.wr.k.stop != Open)))
      && (m.err <==> extra.err) && (m.hup <==> extra.hup)
      && t.rd.k.due == m.pollin && t.wr.k.due == m.pollout
      && t.rd == s.rd.(k := s.rd.k.(edge := false, due := m.pollin))
      && t.wr == s.wr.(k := s.wr.k.(edge := false, due := m.pollout))
      && t.script == s.script && !t.aborted
  {
  }

  // ---- Hang-ups and errors without the readiness bit. ----

  /** EPOLLHUP or EPOLLERR without EPOLLIN: the pending read ends, and is told 0 or its
      count. */
  lemma ReadToldOfHangup(s: State)
    requires Waiting(s) && !s.events.pollin && (s.events.err || s.events.hup) && Ends(s.rd.op.job.operation)
    ensures var t := Next(s, Deliver);
      Over(s, t, false) && Told(s.rd.log, s.rd.op, 0, t.rd.log)
  {
    var m := HandleHup(s, false);
    HangupTold(s, false, m);
    assert m == DispatchRead(s);
    AfterRead(s, m);
  }

  /** What the write side does to the read side's log afterwards. */
  lemma AfterRead(s: State, m: State)
    requires Waiting(s) && m == DispatchRead(s) && !m.aborted
    ensures m.rd.log <= Next(s, Deliver).rd.log
    ensures Over(s, m, false) ==> Over(s, Next(s, Deliver), false)
  {
    DispatchWriteRan(m);
    assert SideRan(false, m.At(false), DispatchWrite(m).At(false));
    EndsGrow(m.rd.log, DispatchWrite(m).rd.log, s.rd.op.job.id);
  }

  lemma HangupTold(s: State, w: bool, t: State)
    requires Ends(s.At(w).op.job.operation) && t == HandleHup(s, w)
    ensures Over(s, t, w) && Told(s.At(w).log, s.At(w).op, if w then -1 else 0, t.At(w).log) && t.aborted == s.aborted
  {
    HandleHupCompletes(s, w);
    HangupCallbacks(s, w);
    HupNeverAborts(s, w, t);
  }

  lemma HupNeverAborts(s: State, w: bool, t: State)
    requires t == HandleHup(s, w)
    ensures t.aborted == s.aborted
  {
    if Busy(s.At(w)) {
      var r := if w then -1 else 0;
      HupSteps(s, w, r, t);
    }
  }

  /** EPOLLERR without EPOLLOUT: the write that is pending when its side's turn comes ends,
      and is told -1 or its count. The mask is looked at then, after the read side's
      callbacks. */
  lemma WriteToldOfError(s: State, m: State)
    requires Waiting(s) && m == DispatchRead(s) && !m.aborted
    requires m.events.err && !m.events.pollout && Ends(m.wr.op.job.operation)
    ensures var t := Next(s, Deliver);
      Over(m, t, true) && Told(m.wr.log, m.wr.op, -1, t.wr.log)
  {
    HangupTold(m, true, HandleHup(m, true));
  }

  /** In particular when no read is pending, or its callbacks do nothing. */
  lemma WriteToldOfErrorAside(s: State)
    requires Waiting(s) && (!Busy(s.rd) || s.script == [])
    requires s.events.err && !s.events.pollout && Ends(s.wr.op.job.operation)
    ensures var t := Next(s, Deliver);
      Over(s, t, true) && Told(s.wr.log, s.wr.op, -1, t.wr.log)
  {
    ReadAside(s);
    WriteToldOfError(s, DispatchRead(s));
  }

  /** Nobody on the write side is called for EPOLLHUP alone, nor on either side for nothing. */
  lemma NothingToTell(s: State, m: State)
    requires Waiting(s) && m == DispatchRead(s) && !m.aborted
    ensures !m.events.err && !m.events.pollout ==> Next(s, Deliver).wr == m.wr
    ensures !s.events.err && !s.events.hup && !s.events.pollin ==> m == s
  {
  }

  // ---- What is handed to doOperation with the readiness bit. ----

  /** With EPOLLIN, doOperation is told of the end by EPOLLERR and by EPOLLHUP. */
  lemma ReadServedWith(s: State)
    requires s.events.pollin && Busy(s.rd) && !s.rd.op.job.repeat && s.rd.op.job.operation != Wait
    ensures OneShot(false, Undue(s, false), SlotAttempt(false, Undue(s, false).rd), s.events.err || s.events.hup,
                    DispatchRead(s))
  {
    OneCallback(Undue(s, false), false, s.events.err || s.events.hup);
  }

  /** With EPOLLOUT, it is told by EPOLLERR only. */
  lemma WriteServedWith(s: State)
    requires s.events.pollout && Busy(s.wr) && !s.wr.op.job.repeat && s.wr.op.job.operation != Wait
    ensures OneShot(true, Undue(s, true), SlotAttempt(true, Undue(s, true).wr), s.events.err, DispatchWrite(s))
  {
    OneCallback(Undue(s, true), true, s.events.err);
  }

  /** A repeating operation after a batch entry with its readiness bit, its callbacks doing
      nothing: told of the end, it is over after one transfer, with 0 or -1; otherwise it has
      taken everything and stays. */
  predicate RepeatServed(w: bool, ended: bool, s: State, t: State) {
    var job := s.At(w).op.job;
    if ended then
      && !Busy(t.At(w)) && |t.At(w).log| == |s.At(w).log| + 2
      && t.At(w).log[|s.At(w).log| + 1] == Called(job, if w then -1 else 0, [], true, true)
    else
      t.At(w).op.job == job && Busy(t.At(w)) && Avail(w, t.At(w).k) == 0
  }

  /** The end is EPOLLERR or EPOLLHUP for a read. */
  lemma ReadEndFlag(s: State)
    requires Waiting(s) && s.events.pollin && Still(s, false) && PlainRepeat(s.rd.op)
    requires Avail(false, s.rd.k) > 0 && Want(false, s.rd.op.job.req) > 0
    ensures RepeatServed(false, s.events.err || s.events.hup, s, Next(s, Deliver))
  {
    var m := DispatchRead(s);
    ReadAside(s);
    RepeatHanded(s, false, s.events.err || s.events.hup, m);
    assert m.script == [] && !m.aborted;
    WriteAside(m);
  }

  /** It is EPOLLERR alone for a write. */
  lemma WriteEndFlag(s: State)
    requires Waiting(s) && s.events.pollout && Still(s, true) && PlainRepeat(s.wr.op)
    requires Avail(true, s.wr.k) > 0 && Want(true, s.wr.op.job.req) > 0
    ensures RepeatServed(true, s.events.err, s, Next(s, Deliver))
  {
    var m := DispatchRead(s);
    ReadAside(s);
    assert m.wr == s.wr && m.script == [] && m.events == s.events;
    RepeatHanded(m, true, m.events.err, DispatchWrite(m));
  }

  lemma WriteAside(s: State)
    requires s.script == []
    ensures Aside(s, true, DispatchWrite(s))
  {
    if s.events.pollout {
      OperationAside(Undue(s, true), true, s.events.err, DispatchWrite(s));
    } else {
      HupAside(s, true, HandleHup(s, true));
    }
  }

  lemma RepeatHanded(s: State, w: bool, hup: bool, t: State)
    requires Still(s, w) && PlainRepeat(s.At(w).op) && t == DoOperation(Undue(s, w), w, hup)
    requires Avail(w, s.At(w).k) > 0 && Want(w, s.At(w).op.job.req) > 0
    ensures RepeatServed(w, hup, s, t)
  {
    var s1 := Undue(s, w).Put(w, Skip(Undue(s, w).At(w), false));
    Kinds(s.At(w).op.job.operation);
    if hup {
      RepeatCutShort(s1, w, t);
    } else {
      DispatchRounds(s1, w, t);
    }
  }

  lemma RepeatCutShort(s: State, w: bool, t: State)
    requires Still(s, w) && PlainRepeat(s.At(w).op) && t == PlainOperation(s, w, true)
    requires Avail(w, s.At(w).k) > 0 && Want(w, s.At(w).op.job.req) > 0
    ensures RepeatServed(w, true, s, t)
  {
    var a := Attempt(w, s.At(w).k, s.At(w).op.job.req);
    AttemptHonest(w, s.At(w).k, s.At(w).op.job.req);
    PlainCalls(s, w, true, a, t);
    AttemptedRepeat(s.Put(w, s.At(w).(k := a.k)), w, a, t);
  }

  lemma AttemptedRepeat(s: State, w: bool, a: Outcome, t: State)
    requires s.script == [] && s.At(w).op.job.repeat && t == PlainAttempted(s, w, true, a) && a.chunk != [] && !a.again
    ensures RepeatServed(w, true, s, t)
  {
    RepeatHangsUp(s, w, a.chunk, t);
  }

  /** Under a hang-up a repeating operation is called for what came, and then ended. */
  lemma RepeatHangsUp(s: State, w: bool, chunk: seq<byte>, t: State)
    requires s.script == [] && s.At(w).op.job.repeat && t == Delivered(s, w, true, chunk)
    ensures var job := s.At(w).op.job;
      t == s.Put(w, Log(Clear(Log(s.At(w), Called(job, |chunk|, chunk, false, true))),
          Called(job, if w then -1 else 0, [], true, true)))
  {
    var job := s.At(w).op.job;
    var e := Called(job, |chunk|, chunk, false, true);
    var s1 := s.Put(w, Log(s.At(w), e));
    assert t == AfterChunk(s1, w, true, job.operation, |chunk| < Want(w, job.req));
    PutPut(s, w, s1.At(w), Clear(s1.At(w)));
  }

  // ---- After a repeating operation's callback took it out of its slot. ----

  /** Cancelled by its own callback, the operation is over, and the slot's next synchronous
      attempt is skipped exactly if the transfer was short and saw no hang-up. */
  lemma CancelledSkips(s: State, w: bool, hup: bool)
    requires PlainRepeat(s.At(w).op) && s.script == [[Cancel(w)]] && SlotAttempt(w, s.At(w)).chunk != []
    ensures var op, a, t := s.At(w).op, SlotAttempt(w, s.At(w)), DoOperation(s, w, hup);
      && !Busy(t.At(w)) && t.At(w).k == a.k && !(t.aborted && !s.aborted)
      && t.At(w).log == s.At(w).log + [Called(op.job, |a.chunk|, a.chunk, false, hup), Cancelled(op.job.id, op.done)]
      && (t.At(w).op.skipSync <==> |a.chunk| < Want(w, op.job.req) && !hup)
  {
    var op := s.At(w).op;
    var s1 := s.Put(w, Skip(s.At(w), false));
    var a := SlotAttempt(w, s.At(w));
    Kinds(op.job.operation);
    AttemptHonest(w, s.At(w).k, op.job.req);
    PlainCalls(s1, w, hup, a, DoOperation(s, w, hup));
    CancelledAfter(s1.Put(w, s1.At(w).(k := a.k)), w, hup, a.chunk, DoOperation(s, w, hup));
  }

  lemma CancelledAfter(s: State, w: bool, hup: bool, chunk: seq<byte>, t: State)
    requires PlainRepeat(s.At(w).op) && s.script == [[Cancel(w)]] && !s.At(w).op.skipSync
    requires t == Delivered(s, w, hup, chunk)
    ensures var op := s.At(w).op;
      && !Busy(t.At(w)) && t.At(w).k == s.At(w).k && t.aborted == s.aborted
      && t.At(w).log == s.At(w).log + [Called(op.job, |chunk|, chunk, false, hup), Cancelled(op.job.id, op.done)]
      && (t.At(w).op.skipSync <==> |chunk| < Want(w, op.job.req) && !hup)
  {
    var op := s.At(w).op;
    var e, c := Called(op.job, |chunk|, chunk, false, hup), Cancelled(op.job.id, op.done);
    var s1 := Notify(s, w, e);
    CancelCalled(s, w, e, s1);
    assert s.At(w).log + [e] + [c] == s.At(w).log + [e, c];
    AfterIdle(s1, w, hup, op.job.operation, |chunk| < Want(w, op.job.req), t);
  }

  lemma CancelCalled(s: State, w: bool, e: Entry, t: State)
    requires Busy(s.At(w)) && s.script == [[Cancel(w)]] && t == Notify(s, w, e)
    ensures var op := s.At(w).op;
      t == s.(script := []).Put(w, Clear(Log(Log(s.At(w), e), Cancelled(op.job.id, op.done))))
  {
    var s0 := s.(script := []).Put(w, Log(s.At(w), e));
    assert s.script[1..] == [] && t == RunCommands(s0, [Cancel(w)]);
    CancelRuns(s0, w, t);
  }

  lemma AfterIdle(s: State, w: bool, hup: bool, opType: Operations, shortRead: bool, t: State)
    requires !Busy(s.At(w)) && IsPlain(opType) && t == AfterChunk(s, w, hup, opType, shortRead)
    ensures t == if shortRead && !hup then s.Put(w, Skip(s.At(w), true)) else s
  {
    Kinds(opType);
    IdleRest(if shortRead && !hup then s.Put(w, Skip(s.At(w), true)) else s, w, hup);
  }

  lemma IdleRest(s: State, w: bool, hup: bool)
    requires !Busy(s.At(w))
    ensures AllOperation(s, w, hup) == s
  {
  }

  lemma CancelRuns(s: State, w: bool, t: State)
    requires Busy(s.At(w)) && t == RunCommands(s, [Cancel(w)])
    ensures t == s.Put(w, Clear(Log(s.At(w), Cancelled(s.At(w).op.job.id, s.At(w).op.done))))
  {
    assert [Cancel(w)][1..] == [] && t == RunCommands(Exec(s, Cancel(w)), []);
  }

  /** One call of a whole-buffer operation that came back with `a`: it stays with what it has
      moved, or it is told that. */
  predicate WholeServed(w: bool, side: Side, a: Outcome, hup: bool, side': Side) {
    var op := side.op;
    if Waits(w, op, a, hup) then
      side' == side.(k := a.k, op := op.(done := op.done + a.chunk))
    else
      var moved := op.done + a.chunk;
      side.log + [Called(op.job, if moved == [] then a.r else |moved|, moved, true, hup)] <= side'.log
  }

  /** If the callback left a whole-buffer operation in the slot, doOperation goes on with
      that one, and skips the next synchronous attempt after a short transfer without
      hang-up. */
  lemma RefilledServed(s: State, w: bool, hup: bool, opType: Operations, shortRead: bool)
    requires IsPlain(opType) && IsAll(s.At(w).op.job.operation)
    ensures var side, t := s.At(w), AfterChunk(s, w, hup, opType, shortRead);
      && WholeServed(w, Skip(side, side.op.skipSync || (shortRead && !hup)), SlotAttempt(w, side), hup, t.At(w))
      && t.aborted == s.aborted
  {
    var skip := s.At(w).op.skipSync || (shortRead && !hup);
    RefilledGoesOn(s, w, hup, opType, shortRead, AfterChunk(s, w, hup, opType, shortRead));
    RefilledFrom(s, w, hup, skip, SlotAttempt(w, s.At(w)), AfterChunk(s, w, hup, opType, shortRead));
  }

  lemma RefilledFrom(s: State, w: bool, hup: bool, skip: bool, a: Outcome, t: State)
    requires IsAll(s.At(w).op.job.operation) && a == SlotAttempt(w, s.At(w))
    requires t == AllOperation(s.Put(w, Skip(s.At(w), skip)), w, hup)
    ensures WholeServed(w, Skip(s.At(w), skip), a, hup, t.At(w)) && t.aborted == s.aborted
  {
    AttemptHonest(w, s.At(w).k, SlotRequest(s.At(w).op));
    WholeGoesOn(s.Put(w, Skip(s.At(w), skip)), w, hup, a, t);
  }

  lemma WholeGoesOn(s: State, w: bool, hup: bool, a: Outcome, t: State)
    requires IsAll(s.At(w).op.job.operation) && a == SlotAttempt(w, s.At(w)) && (a.again ==> a.chunk == [])
    requires t == AllOperation(s, w, hup)
    ensures WholeServed(w, s.At(w), a, hup, t.At(w)) && t.aborted == s.aborted
  {
    AllCalls(s, w, hup, a, t);
    AttemptTold(s.Put(w, s.At(w).(k := a.k)), w, hup, a, t);
  }

  lemma RefilledGoesOn(s: State, w: bool, hup: bool, opType: Operations, shortRead: bool, t: State)
    requires IsPlain(opType) && IsAll(s.At(w).op.job.operation) && t == AfterChunk(s, w, hup, opType, shortRead)
    ensures t == AllOperation(s.Put(w, Skip(s.At(w), s.At(w).op.skipSync || (shortRead && !hup))), w, hup)
  {
    Kinds(opType);
    assert s.Put(w, Skip(s.At(w), s.At(w).op.skipSync)) == s;
  }

  lemma AttemptTold(s: State, w: bool, hup: bool, a: Outcome, t: State)
    requires IsAll(s.At(w).op.job.operation) && t == AllAttempted(s, w, hup, a) && (a.again ==> a.chunk == [])
    ensures WholeServed(w, s.At(w), a.(k := s.At(w).k), hup, t.At(w)) && t.aborted == s.aborted
  {
    var op := s.At(w).op;
    var moved := op.done + a.chunk;
    assert a.chunk == [] ==> moved == op.done;
    NotifyAfter(s.Put(w, Clear(s.At(w))), w, Called(op.job, if moved == [] then a.r else |moved|, moved, true, hup));
  }
}
