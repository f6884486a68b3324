/** The relay's `sendAll` is the engine's: same calls, same bytes, same number for the
    callback, from the synchronous attempt through the pending operation to a hang-up. */
module RelaySends {
  import opened Kernel
  import opened Engine
  import opened EngineHistory
  import opened EngineRecords
  import opened EngineTheorems
  import opened EngineService
  import D = EngineDiscipline
  import Relay

  function Buffer(w: Relay.Way): Request {
    Request(w.buf, |w.buf|)
  }

  /** The write slot of the engine holds what direction `w` of the relay is sending. */
  predicate Holds(side: Side, w: Relay.Way) {
    && side.op.job.operation == SendAll && !side.op.job.repeat && side.op.job.req == Buffer(w)
    && w.done <= |w.buf| && side.op.done == w.buf[..w.done] && side.k == w.to
  }

  /** After a call: that much more of the buffer is out. */
  function Sent(w: Relay.Way, a: Outcome): Relay.Way {
    w.(to := a.k, done := w.done + |a.chunk|)
  }

  /** The call leaves part of the buffer to wait for, or to try again. */
  predicate Remains(w: Relay.Way, a: Outcome) {
    a.again || (a.chunk != [] && w.done + |a.chunk| < |w.buf|)
  }

  /** The number a direction's callback gets when a call ends its sendAll. */
  function Number(w: Relay.Way, a: Outcome): int {
    if w.done + |a.chunk| == 0 then a.r else w.done + |a.chunk|
  }

  /** A call for a pending `sendAll`: the engine goes on waiting exactly when the relay does,
      with the same bytes out; otherwise both end it with the same number. */
  lemma PendingSend(s: State, h: Relay.Handler, d: bool)
    requires Holds(s.wr, h.At(d)) && h.At(d).done < |h.At(d).buf|
    ensures var w := h.At(d);
      var a := Attempt(true, w.to, Relay.SendRequest(w));
      EngineSends(s, w, a, DoOperation(s, true, false)) && RelayDoes(h, d, a, Relay.SendNext(h, d))
  {
    var w := h.At(d);
    var a := Attempt(true, w.to, Relay.SendRequest(w));
    AttemptHonest(true, w.to, Relay.SendRequest(w));
    RelayCall(h, d, a);
    EngineCall(s, w, a);
  }

  /** What a call that comes back with `a` makes of the engine: the rest is held, or the
      operation ends with its number. */
  ghost predicate EngineSends(s: State, w: Relay.Way, a: Outcome, t: State) {
    if Remains(w, a) then
      Holds(t.wr, Sent(w, a)) && StaysQuietly(true, s, t)
    else
      w.done + |a.chunk| <= |w.buf| &&
      EndsInCallback(true, s, a, false, Called(s.wr.op.job, Number(w, a), w.buf[..w.done + |a.chunk|], true, false), t)
  }

  /** What it makes of the relay: the rest is kept, or the callback gets its number. */
  predicate RelayDoes(h: Relay.Handler, d: bool, a: Outcome, g: Relay.Handler) {
    var w := h.At(d);
    var h1 := h.Put(d, Sent(w, a));
    g == if Remains(w, a) then h1 else Relay.WriteCb(h1, d, Number(w, a), w.done + |a.chunk| < |w.buf|)
  }

  lemma EngineCall(s: State, w: Relay.Way, a: Outcome)
    requires Holds(s.wr, w) && w.done < |w.buf| && a == Attempt(true, w.to, Relay.SendRequest(w))
    requires Honest(true, w.to, Relay.SendRequest(w), a)
    ensures EngineSends(s, w, a, DoOperation(s, true, false))
  {
    SameAnswer(s.wr, w, a);
    assert a == SlotAttempt(true, s.wr) && (a.again ==> a.chunk == []);
    OneCallback(s, true, false);
    if Remains(w, a) {
      StillHeld(s, a, DoOperation(s, true, false));
      KeepsHolding(s, w, a, DoOperation(s, true, false));
    }
  }

  lemma KeepsHolding(s: State, w: Relay.Way, a: Outcome, t: State)
    requires w.done + |a.chunk| <= |w.buf|
    requires Holds(s.wr, w) && MovedBy(s.wr.op, a) == w.buf[..w.done + |a.chunk|]
    requires t.wr.op.job == s.wr.op.job && t.wr.op.done == s.wr.op.done + a.chunk && t.wr.k == a.k
    ensures Holds(t.wr, Sent(w, a))
  {
  }

  /** The engine sees the same request, the same bytes and the same end as the relay. */
  lemma SameAnswer(side: Side, w: Relay.Way, a: Outcome)
    requires Holds(side, w) && w.done < |w.buf| && Honest(true, w.to, Relay.SendRequest(w), a)
    ensures SlotRequest(side.op) == Relay.SendRequest(w) && w.done + |a.chunk| <= |w.buf|
    ensures var moved := MovedBy(side.op, a);
      moved == w.buf[..w.done + |a.chunk|] && Number(w, a) == if moved == [] then a.r else |moved|
    ensures (Waits(true, side.op, a, false) <==> Remains(w, a)) && IsAll(side.op.job.operation)
  {
    SentPrefix(w.buf, w.done, a.chunk);
  }

  lemma SentPrefix(buf: seq<byte>, n: nat, chunk: seq<byte>)
    requires n <= |buf| && chunk <= buf[n..]
    ensures n + |chunk| <= |buf| && buf[..n] + chunk == buf[..n + |chunk|]
  {
  }

  /** The relay's half of a call. */
  lemma RelayCall(h: Relay.Handler, d: bool, a: Outcome)
    requires a == Attempt(true, h.At(d).to, Relay.SendRequest(h.At(d)))
    requires h.At(d).done < |h.At(d).buf| && (a.again ==> a.chunk == [])
    ensures RelayDoes(h, d, a, Relay.SendNext(h, d))
  {
    RelayCalled(h, d, a);
  }

  lemma RelayCalled(h: Relay.Handler, d: bool, a: Outcome)
    requires h.At(d).done < |h.At(d).buf| && (a.again ==> a.chunk == [])
    ensures RelayDoes(h, d, a, Relay.SendCalled(h, d, a))
  {
    var h1 := h.Put(d, Sent(h.At(d), a));
    assert h1.At(d) == Sent(h.At(d), a);
    assert Relay.SendCalled(h, d, a) == Relay.SendDone(h1, d, a, h.At(d).done);
  }

  /** What the slot holds while the operation waits. */
  lemma StillHeld(s: State, a: Outcome, t: State)
    requires IsAll(s.wr.op.job.operation) && a == SlotAttempt(true, s.wr) && t == DoOperation(s, true, false)
    requires Waits(true, s.wr.op, a, false) && (a.again ==> a.chunk == [])
    ensures t.wr.op.job == s.wr.op.job && t.wr.op.done == s.wr.op.done + a.chunk && t.wr.k == a.k
  {
    Kinds(s.wr.op.job.operation);
    var s1 := s.Put(true, Skip(s.wr, false));
    AllCalls(s1, true, false, a, t);
    assert s.wr.op.done + [] == s.wr.op.done;
  }

  // ---- The synchronous attempt. ----

  /** The relay's calls until one of them does not leave more to try at once. */
  function SendLoop(h: Relay.Handler, d: bool): (g: Relay.Handler)
    decreases |h.At(d).to.env|, Avail(true, h.At(d).to)
  {
    var w := h.At(d);
    var a := Attempt(true, w.to, Relay.SendRequest(w));
    AttemptProgress(true, w.to, Relay.SendRequest(w));
    if a.chunk != [] && w.done + |a.chunk| < |w.buf| then SendLoop(h.Put(d, Sent(w, a)), d) else Relay.SendNext(h, d)
  }

  function Sends(n: nat, d: bool): seq<Relay.Step> {
    if n == 0 then [] else [Relay.TrySend(d)] + Sends(n - 1, d)
  }

  /** They are steps of the relay. */
  lemma {:induction false} SendLoopSteps(h: Relay.Handler, d: bool) returns (n: nat)
    requires !h.dead && h.At(d).sending && h.At(d).done < |h.At(d).buf|
    ensures SendLoop(h, d) == Relay.Run(h, Sends(n, d))
    decreases |h.At(d).to.env|, Avail(true, h.At(d).to)
  {
    var w := h.At(d);
    var a := Attempt(true, w.to, Relay.SendRequest(w));
    AttemptHonest(true, w.to, Relay.SendRequest(w));
    AttemptProgress(true, w.to, Relay.SendRequest(w));
    if a.chunk != [] && w.done + |a.chunk| < |w.buf| {
      RelayCall(h, d, a);
      var m := SendLoopSteps(h.Put(d, Sent(w, a)), d);
      n := m + 1;
    } else {
      n := 1;
      assert Sends(1, d) == [Relay.TrySend(d)] && Sends(0, d) == [];
    }
    assert Sends(n, d)[0] == Relay.TrySend(d) && Sends(n, d)[1..] == Sends(n - 1, d);
  }

  /** What the relay is left with when the engine's loop over the buffer ended as `t`. */
  function Settled(h: Relay.Handler, d: bool, t: Tried): Relay.Handler {
    var w := h.At(d);
    var h1 := h.Put(d, w.(to := t.k, done := |t.done|));
    if t.again then h1 else Relay.WriteCb(h1, d, t.r, |t.done| < |w.buf|)
  }

  /** The engine's loop over the buffer, from where `w` is, ends as `t`. */
  predicate Tries(w: Relay.Way, t: Tried) {
    w.done < |w.buf| && t == TryAll(true, w.to, Buffer(w), w.buf[..w.done])
  }

  /** What those calls come to is what the engine's loop over the buffer comes to. */
  lemma {:induction false} SendLoopTries(h: Relay.Handler, d: bool, t: Tried)
    requires Tries(h.At(d), t)
    ensures SendLoop(h, d) == Settled(h, d, t)
    decreases |h.At(d).to.env|, Avail(true, h.At(d).to)
  {
    var w := h.At(d);
    var a := Attempt(true, w.to, Relay.SendRequest(w));
    TryOnce(w, a, t);
    SendLoopRound(h, d, a);
    if a.chunk != [] && w.done + |a.chunk| < |w.buf| {
      var h1 := h.Put(d, Sent(w, a));
      assert h1.At(d) == Sent(w, a);
      SendLoopTries(h1, d, t);
      SettledLater(h, d, a, t);
    } else {
      LastRound(h, d, a, t);
    }
  }

  lemma LastRound(h: Relay.Handler, d: bool, a: Outcome, t: Tried)
    requires a == Attempt(true, h.At(d).to, Relay.SendRequest(h.At(d)))
    requires var w := h.At(d); w.done < |w.buf| && w.done + |a.chunk| <= |w.buf| && (a.again ==> a.chunk == [])
    requires var w := h.At(d); a.chunk != [] ==> w.done + |a.chunk| == |w.buf|
    requires var w := h.At(d); t == Tried(a.k, w.buf[..w.done + |a.chunk|], Number(w, a), a.again)
    ensures Relay.SendNext(h, d) == Settled(h, d, t)
  {
    RelayCall(h, d, a);
    LastCall(h, d, a, t, Relay.SendNext(h, d));
  }

  lemma SendLoopRound(h: Relay.Handler, d: bool, a: Outcome)
    requires a == Attempt(true, h.At(d).to, Relay.SendRequest(h.At(d)))
    ensures var w := h.At(d);
      SendLoop(h, d) ==
        if a.chunk != [] && w.done + |a.chunk| < |w.buf| then SendLoop(h.Put(d, Sent(w, a)), d)
        else Relay.SendNext(h, d)
  {
  }

  lemma SettledLater(h: Relay.Handler, d: bool, a: Outcome, t: Tried)
    ensures Settled(h.Put(d, Sent(h.At(d), a)), d, t) == Settled(h, d, t)
  {
  }

  /** The call that ends the loop. */
  lemma LastCall(h: Relay.Handler, d: bool, a: Outcome, t: Tried, g: Relay.Handler)
    requires var w := h.At(d); w.done + |a.chunk| <= |w.buf| && (a.again ==> a.chunk == [])
    requires var w := h.At(d); a.chunk != [] ==> w.done + |a.chunk| == |w.buf|
    requires var w := h.At(d); t == Tried(a.k, w.buf[..w.done + |a.chunk|], Number(w, a), a.again)
    requires RelayDoes(h, d, a, g)
    ensures g == Settled(h, d, t)
  {
    var w := h.At(d);
    assert |t.done| == w.done + |a.chunk| && Sent(w, a) == w.(to := t.k, done := |t.done|);
  }

  /** One round of the engine's loop, on the relay's buffer. */
  lemma TryOnce(w: Relay.Way, a: Outcome, t: Tried)
    requires Tries(w, t) && a == Attempt(true, w.to, Relay.SendRequest(w))
    ensures w.done + |a.chunk| <= |w.buf| && (a.again ==> a.chunk == [])
    ensures if a.chunk == [] || w.done + |a.chunk| == |w.buf| then
              t == Tried(a.k, w.buf[..w.done + |a.chunk|], Number(w, a), a.again)
            else
              Tries(Sent(w, a), t)
    ensures a.chunk != [] ==>
              |a.k.env| < |w.to.env| || (|a.k.env| == |w.to.env| && Avail(true, a.k) < Avail(true, w.to))
  {
    AttemptHonest(true, w.to, Relay.SendRequest(w));
    AttemptProgress(true, w.to, Relay.SendRequest(w));
    SentPrefix(w.buf, w.done, a.chunk);
    assert Relay.SendRequest(w) == Rest(Buffer(w), |w.buf[..w.done]|);
    assert w.buf[..|w.buf|] == w.buf;
    var w1 := Sent(w, a);
    assert w1.buf[..w1.done] == w.buf[..w.done] + a.chunk;
    assert a.chunk != [] ==> t == TryAll(true, w1.to, Buffer(w1), w1.buf[..w1.done]);
  }

  /** `sendAll` on an idle slot: after the synchronous attempt the engine holds the rest and
      the relay waits, or both report the same number for the same bytes. */
  lemma StartsSending(s: State, h: Relay.Handler, d: bool)
    requires !Busy(s.wr) && h.At(d).done == 0 && |h.At(d).buf| > 0 && s.wr.k == h.At(d).to
    ensures var w, t := h.At(d), TryAll(true, s.wr.k, Buffer(h.At(d)), []);
      var u := StartWholeMsg(s, true, SendAll, Buffer(w));
      var job := Begin(s.wr, SendAll, Buffer(w), false);
      var side := Log(s.wr, Started(job)).(k := t.k);
      && SendLoop(h, d) == Settled(h, d, t)
      && t.done <= w.buf
      && if t.again then
           Holds(u.wr, w.(to := t.k, done := |t.done|)) && u.script == s.script && u.wr.log == side.log
         else
           u == Notify(s.Put(true, side), true, Called(job, t.r, t.done, true, false))
  {
    var w := h.At(d);
    assert w.buf[..0] == [];
    var t := TryAll(true, s.wr.k, Buffer(w), []);
    SendLoopTries(h, d, t);
    TryAllMoves(true, s.wr.k, Buffer(w), []);
    EngineStarts(s, w, t, StartWholeMsg(s, true, SendAll, Buffer(w)));
  }

  lemma EngineStarts(s: State, w: Relay.Way, t: Tried, u: State)
    requires !Busy(s.wr) && t == TryAll(true, s.wr.k, Buffer(w), []) && t.done <= w.buf
    requires u == StartWholeMsg(s, true, SendAll, Buffer(w))
    ensures var job := Begin(s.wr, SendAll, Buffer(w), false);
      var side := Log(s.wr, Started(job)).(k := t.k);
      if t.again then
        Holds(u.wr, w.(to := t.k, done := |t.done|)) && u.script == s.script && u.wr.log == side.log
      else
        u == Notify(s.Put(true, side), true, Called(job, t.r, t.done, true, false))
  {
    assert Crossed(s.wr, true) == s.wr;
  }

  /** A hang-up without EPOLLOUT: on both sides the count of what is out, if any, and then
      -1; the relay makes of it what its callback makes of those two numbers. */
  lemma HangsUp(s: State, h: Relay.Handler, d: bool)
    requires Holds(s.wr, h.At(d))
    ensures var w := h.At(d);
      && s.wr.log + [Called(s.wr.op.job, if w.done > 0 then w.done else -1, w.buf[..w.done], true, true)]
           <= HandleHup(s, true).wr.log
      && (Agains(HandleHup(s, true).wr.log) > Agains(s.wr.log) <==> w.done > 0)
      && Relay.SendHup(h, d) ==
           if w.done > 0 then Relay.WriteCb(Relay.WriteCb(h, d, w.done, w.done < |w.buf|), d, -1, false)
           else Relay.WriteCb(h, d, -1, false)
  {
    HangupCallbacks(s, true);
    CountThenEnd(s, h.At(d), HandleHup(s, true));
  }

  /** The second one runs the sendAll's own callback if callbacks start nothing on its side. */
  lemma HangsUpTwice(s: State)
    requires D.Disciplined(D.Uses(D.Anything, D.StepsOnly), s)
    ensures NoneStray(s.wr.log, HandleHup(s, true).wr.log)
  {
    var uses := D.Uses(D.Anything, D.StepsOnly);
    D.HandleHupTame(uses, s, true);
    assert D.SideTame(uses.At(true), s.At(true), HandleHup(s, true).At(true));
  }

  /** A sending direction with room has an edge coming, in every run. */
  lemma SendWakes(s: State, steps: seq<Step>, w: Relay.Way)
    requires Initial(s) && Holds(Run(s, steps).wr, w)
    requires !Run(s, steps).aborted && w.to.armed && Avail(true, w.to) > 0
    ensures var t := Run(s, steps);
      w.to.edge || (w.to.due && t.noted && t.events.pollout)
  {
    NoLostWakeup(s, steps, true);
  }

  lemma CountThenEnd(s: State, w: Relay.Way, t: State)
    requires Holds(s.wr, w) && HupAnswered(true, s, -1, t)
    ensures s.wr.log + [Called(s.wr.op.job, if w.done > 0 then w.done else -1, w.buf[..w.done], true, true)]
              <= t.wr.log
    ensures Agains(t.wr.log) > Agains(s.wr.log) <==> w.done > 0
  {
    assert w.done == 0 ==> w.buf[..w.done] == [];
  }
}
