/** The relay's `recv` is the engine's: same call, same bytes, same number for the callback,
    from the synchronous attempt through the pending operation to a hang-up; and so the
    engine's wakeups are the relay's. */
module RelayReceives {
  import opened Kernel
  import opened Engine
  import opened EngineWakeups
  import opened EngineHistory
  import opened EngineRecords
  import opened EngineTheorems
  import opened EngineService
  import Relay

  /** The read slot of the engine holds what direction `w` of the relay is waiting for. */
  predicate Awaits(side: Side, w: Relay.Way) {
    && side.op.job.operation == Recv && !side.op.job.repeat && side.op.job.req == Relay.RecvRequest()
    && side.k == w.from
  }

  /** The call of a pending receive: the engine goes on waiting exactly when the relay does;
      otherwise both call back with the same number and the same bytes. */
  lemma PendingRecv(s: State, hup: bool, h: Relay.Handler, d: bool)
    requires Awaits(s.rd, h.At(d))
    ensures var a := Attempt(false, h.At(d).from, Relay.RecvRequest());
      EngineReceives(s, h.At(d), a, hup, DoOperation(s, false, hup)) && RelayTakes(h, d, a, Relay.RecvNext(h, d))
  {
    EngineCall(s, hup, h.At(d), Attempt(false, h.At(d).from, Relay.RecvRequest()));
  }

  lemma EngineCall(s: State, hup: bool, w: Relay.Way, a: Outcome)
    requires Awaits(s.rd, w) && a == Attempt(false, w.from, Relay.RecvRequest())
    ensures EngineReceives(s, w, a, hup, DoOperation(s, false, hup))
  {
    AttemptHonest(false, w.from, Relay.RecvRequest());
    Kinds(s.rd.op.job.operation);
    OneCallback(s, false, hup);
    if a.again {
      RecvWaits(s, a, hup, DoOperation(s, false, hup));
    }
  }

  /** What a call that comes back with `a` makes of the engine. */
  ghost predicate EngineReceives(s: State, w: Relay.Way, a: Outcome, hup: bool, t: State) {
    if a.again then
      Awaits(t.rd, w.(from := a.k)) && StaysQuietly(false, s, t)
    else
      EndsInCallback(false, s, a, hup, Called(s.rd.op.job, a.r, a.chunk, true, hup), t)
  }

  /** What it makes of the relay. */
  predicate RelayTakes(h: Relay.Handler, d: bool, a: Outcome, g: Relay.Handler) {
    var h1 := h.Put(d, h.At(d).(from := a.k));
    g == if a.again then h1 else Relay.ReadCb(h1, d, a.r, a.chunk)
  }

  lemma RecvWaits(s: State, a: Outcome, hup: bool, t: State)
    requires IsPlain(s.rd.op.job.operation) && s.rd.op.job.operation != Wait && t == DoOperation(s, false, hup)
    requires a == SlotAttempt(false, s.rd) && a.again
    ensures t.rd.op.job == s.rd.op.job && t.rd.k == a.k
  {
    Kinds(s.rd.op.job.operation);
    PlainCalls(s.Put(false, Skip(s.rd, false)), false, hup, a, t);
  }

  /** `recv` on an idle slot: parked, or called back at once, as the relay's step says. */
  lemma StartsReceiving(s: State, h: Relay.Handler, d: bool)
    requires !Busy(s.rd) && s.rd.k == h.At(d).from
    ensures var w, t := h.At(d), StartPlain(s, false, Recv, Relay.RecvRequest(), false);
      var job := Begin(s.rd, Recv, Relay.RecvRequest(), false);
      var a := Attempt(false, w.from, Relay.RecvRequest());
      if s.rd.op.skipSync then
        Awaits(t.rd, w) && t.rd.log == s.rd.log + [Started(job)]
      else
        && RelayTakes(h, d, a, Relay.RecvNext(h, d))
        && if a.again then
             Awaits(t.rd, w.(from := a.k)) && t.rd.log == s.rd.log + [Started(job)]
           else
             t == Notify(s.Put(false, Log(s.rd, Started(job)).(k := a.k)), false,
                         Called(job, a.r, a.chunk, true, false))
  {
    AttemptHonest(false, s.rd.k, Relay.RecvRequest());
  }

  /** A hang-up without EPOLLIN: on both sides the callback gets 0. */
  lemma RecvHangsUp(s: State, h: Relay.Handler, d: bool)
    requires Awaits(s.rd, h.At(d)) && !h.dead && h.At(d).receiving
    ensures s.rd.log + [Called(s.rd.op.job, 0, [], true, true)] <= HandleHup(s, false).rd.log
    ensures Relay.Next(h, Relay.HupRecv(d)) == Relay.ReadCb(h, d, 0, [])
  {
    Kinds(s.rd.op.job.operation);
    HangupCallbacks(s, false);
  }

  /** A receiving direction with data available has an edge coming, in every run. */
  lemma ReceiveWakes(s: State, steps: seq<Step>, w: Relay.Way)
    requires Initial(s) && Awaits(Run(s, steps).rd, w)
    requires !Run(s, steps).aborted && w.from.armed && Avail(false, w.from) > 0
    ensures var t := Run(s, steps);
      w.from.edge || (w.from.due && t.noted && t.events.pollin)
  {
    NoLostWakeup(s, steps, false);
  }

  /** And the next batch serves it: the engine moves bytes, and the relay's step receives. */
  lemma ReceiveServed(s: State, steps: seq<Step>, extra: Mask, h: Relay.Handler, d: bool)
    requires Initial(s) && Awaits(Run(s, steps).rd, h.At(d))
    requires !Run(s, steps).aborted && !Run(s, steps).noted && h.At(d).from.armed && Avail(false, h.At(d).from) > 0
    ensures var t := Run(s, steps);
      Total(false, Next(Next(t, Collect(extra)), Deliver).rd) > Total(false, t.rd)
    ensures |Relay.RecvNext(h, d).At(d).received| > |h.At(d).received| && Relay.RecvNext(h, d).At(d).sending
  {
    var t := Run(s, steps);
    RunQuiet(s, steps);
    NextBatchServes(t, extra);
    ReadCallMoves(t.rd.k, Relay.RecvRequest());
    AttemptHonest(false, t.rd.k, Relay.RecvRequest());
  }
}
