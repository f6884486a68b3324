/** The engine's promises, for every run: any commands, any callbacks, any kernel events,
    any batches, in any order. */
module EngineTheorems {
  import opened Kernel
  import opened Engine
  import opened EngineWakeups
  import opened EngineHistory
  import opened EngineRecords

  predicate FreshSide(w: bool, side: Side) {
    && !Busy(side) && !side.op.skipSync
    && Moved(w, side.k) == [] && !side.k.armed && !side.k.edge && !side.k.due
    && side.log == [] && side.loops == {} && !side.clash
  }

  /** A newly constructed `File`, not in any epoll set. */
  predicate Initial(s: State) {
    FreshSide(false, s.rd) && FreshSide(true, s.wr) && !s.noted && s.events == NO_EVENTS && !s.aborted
  }

  /** If an operation other than `wait` sits in a slot of a registered descriptor, or the
      synchronous attempt is being skipped there, then data can be moved only if an
      edge is still to be delivered. */
  lemma NoLostWakeup(s: State, steps: seq<Step>, w: bool)
    requires Initial(s)
    ensures var t := Run(s, steps);
      var side := t.At(w);
      && !t.aborted
      && side.k.armed
      && ((Busy(side) && side.op.job.operation != Wait) || side.op.skipSync)
      && Avail(w, side.k) > 0
      ==> side.k.edge || (side.k.due && t.noted && if w then t.events.pollout else t.events.pollin)
  {
    RunQuiet(s, steps);
  }

  /** Conservation and order: what the callbacks reported, followed by what the
      operation in the slot holds, followed by what the kernel still queues, is the
      stream. On the write side there is no queue, so the first two make up everything
      the kernel accepted. The side must not be marked: `EngineGuards` says which commands,
      in which slot and loop, can do that. */
  lemma Conservation(s: State, steps: seq<Step>, w: bool)
    requires Initial(s)
    ensures var side := Run(s, steps).At(w);
      !side.clash ==>
        LogBytes(side.log) + Pending(side) + (if w then [] else side.k.stream[side.k.pos..]) == side.k.stream
  {
    RunRan(s, steps);
    FreshBooks(w, s.At(w));
    assert SideRan(w, s.At(w), Run(s, steps).At(w));
    AccountedStream(w, Run(s, steps).At(w));
  }

  lemma AccountedStream(w: bool, side: Side)
    requires Sound(w, side)
    ensures !side.clash ==>
              LogBytes(side.log) + Pending(side) + (if w then [] else side.k.stream[side.k.pos..]) == side.k.stream
  {
  }

  lemma FreshBooks(w: bool, side: Side)
    requires FreshSide(w, side)
    ensures Books(side) && Sound(w, side)
  {
  }

  /** Accounting, operation by operation: what was started has ended exactly once or is in
      the slot, never both, and nothing else has ended or is in the slot. */
  lemma Accounting(s: State, steps: seq<Step>, w: bool, id: nat)
    requires Initial(s)
    ensures var side := Run(s, steps).At(w);
      EndsOf(side.log, id) + (if Busy(side) && side.op.job.id == id then 1 else 0) == Begun(side.log, id)
  {
    RunRan(s, steps);
    FreshBooks(w, s.At(w));
    var side := Run(s, steps).At(w);
    assert SideRan(w, s.At(w), side);
    assert EndsOf(side.log, id) + UnderwayOf(side, id) == Begun(side.log, id);
  }

  /** What an entry of the log says of the operation it is about. */
  ghost predicate InOrder(log: seq<Entry>, i: nat)
    requires i < |log|
  {
    match log[i]
    case Started(job) => job.id == i
    case Called(job, _, _, final, _) => IsStart(log[..i], job) && NotEnded(log[..i], job.id) && (final || job.repeat)
    case Cancelled(id, _) => Begun(log[..i], id) == 1 && NotEnded(log[..i], id)
    case Overwritten(id, _) => Begun(log[..i], id) == 1 && NotEnded(log[..i], id)
    case Again(of, _, to) => NotAgain(log[..i], of) && exists c: nat :: SecondFits(log[..i], of, to, c)
  }

  predicate NotEnded(log: seq<Entry>, id: nat) {
    forall i :: 0 <= i < |log| ==> !EndedBy(log[i], id)
  }

  lemma {:induction false} NeverEnded(log: seq<Entry>, id: nat)
    ensures EndsOf(log, id) == 0 <==> NotEnded(log, id)
    decreases |log|
  {
    if log != [] {
      NeverEnded(log[..|log| - 1], id);
      assert forall i :: 0 <= i < |log| - 1 ==> log[..|log| - 1][i] == log[i];
      assert NotEnded(log, id) ==> !EndedBy(log[|log| - 1], id);
    }
  }

  lemma {:induction false} FitsAt(log: seq<Entry>, i: nat)
    requires LogFits(log) && i < |log|
    ensures LastFits(log[..i + 1])
    decreases |log|
  {
    if i == |log| - 1 {
      assert log[..i + 1] == log;
    } else {
      FitsAt(log[..|log| - 1], i);
      assert log[..|log| - 1][..i + 1] == log[..i + 1];
    }
  }

  /** Every callback, at whatever point of whatever run, is for an operation that was
      started as reported and has not ended; only a repeating operation gets one that is
      not its last; and the second callback of handleHup comes at most once for a readAll,
      writeAll, sendAll or recvAll that a hang-up ended with some bytes moved, before the
      next one comes for another operation, and runs the callback of that operation or of one
      that was started in between. */
  lemma CallbacksInOrder(s: State, steps: seq<Step>, w: bool, i: nat)
    requires Initial(s) && i < |Run(s, steps).At(w).log|
    ensures InOrder(Run(s, steps).At(w).log, i)
  {
    RunRan(s, steps);
    FreshBooks(w, s.At(w));
    var log := Run(s, steps).At(w).log;
    assert SideRan(w, s.At(w), Run(s, steps).At(w));
    FitsAt(log, i);
    assert log[..i + 1][..i] == log[..i] && log[..i + 1][i] == log[i];
    match log[i] {
      case Called(job, _, _, _, _) => NeverEnded(log[..i], job.id);
      case Cancelled(id, _) => NeverEnded(log[..i], id);
      case Overwritten(id, _) => NeverEnded(log[..i], id);
      case _ =>
    }
  }

  /** How often the callback of operation `id` ran. */
  function CallsOf(log: seq<Entry>, id: nat): nat {
    if log == [] then 0 else CallsOf(log[..|log| - 1], id) + if Runs(log[|log| - 1], id) then 1 else 0
  }

  predicate Runs(e: Entry, id: nat) {
    match e
    case Called(job, _, _, _, _) => job.id == id
    case Again(_, _, to) => to == id
    case _ => false
  }

  function DropsOf(log: seq<Entry>, id: nat): nat {
    if log == [] then 0
    else
      var e := log[|log| - 1];
      DropsOf(log[..|log| - 1], id) + if (e.Cancelled? || e.Overwritten?) && e.id == id then 1 else 0
  }

  /** How often the callback of operation `id` ran for the end that handleHup reports after
      its count. */
  function SecondsOf(log: seq<Entry>, id: nat): nat {
    if log == [] then 0
    else
      var e := log[|log| - 1];
      SecondsOf(log[..|log| - 1], id) + if e.Again? && e.of == id && e.to == id then 1 else 0
  }

  /** How often it ran for an end that handleHup meant for another operation. */
  function StraysOf(log: seq<Entry>, id: nat): nat {
    if log == [] then 0
    else
      var e := log[|log| - 1];
      StraysOf(log[..|log| - 1], id) + if e.Again? && e.of != id && e.to == id then 1 else 0
  }

  lemma {:induction false} OneShotEnds(log: seq<Entry>, id: nat)
    requires LogFits(log) && (id < |log| ==> log[id].Started? && !log[id].job.repeat)
    ensures CallsOf(log, id) + DropsOf(log, id) == EndsOf(log, id) + SecondsOf(log, id) + StraysOf(log, id)
    decreases |log|
  {
    if log != [] {
      var before := log[..|log| - 1];
      OneShotEnds(before, id);
    }
  }

  lemma {:induction false} NoSeconds(log: seq<Entry>, id: nat)
    requires NotAgain(log, id)
    ensures SecondsOf(log, id) == 0
    decreases |log|
  {
    if log != [] {
      assert log[|log| - 1].Again? ==> log[|log| - 1].of != id;
      assert forall i :: 0 <= i < |log| - 1 ==> log[..|log| - 1][i] == log[i];
      NoSeconds(log[..|log| - 1], id);
    }
  }

  lemma {:induction false} OneSecond(log: seq<Entry>, id: nat)
    requires LogFits(log)
    ensures SecondsOf(log, id) <= if CutShort(log, id) then 1 else 0
    decreases |log|
  {
    if log != [] {
      var before, e := log[..|log| - 1], log[|log| - 1];
      OneSecond(before, id);
      if e.Again? && e.of == id {
        NoSeconds(before, id);
        var c: nat :| SecondFits(before, e.of, e.to, c);
        assert HupPart(log[c], id);
      } else if CutShort(before, id) {
        var i :| 0 <= i < |before| && HupPart(before[i], id);
        assert HupPart(log[i], id);
      }
    }
  }

  /** A second callback goes astray only to an operation that was started before it. */
  lemma {:induction false} StraysLater(log: seq<Entry>, id: nat)
    requires LogFits(log) && forall i :: id <= i < |log| ==> !log[i].Again?
    ensures StraysOf(log, id) == 0
    decreases |log|
  {
    if log != [] {
      StraysLater(log[..|log| - 1], id);
    }
  }

  lemma {:induction false} OneStray(log: seq<Entry>, id: nat)
    requires LogFits(log)
    ensures StraysOf(log, id) <= 1
    decreases |log|
  {
    if log != [] {
      var before, e := log[..|log| - 1], log[|log| - 1];
      OneStray(before, id);
      if e.Again? && e.of != id && e.to == id {
        var c: nat :| SecondFits(before, e.of, e.to, c);
        StraysLater(before, id);
      }
    }
  }

  /** How often the callback of a one-shot operation runs: exactly once, unless it was
      cancelled or overwritten, or is still in its slot; then never. A hang-up may add two
      callbacks to that: the operation's own second one, after its count, and one that was
      meant for an operation whose first callback started it. */
  lemma OneShotOnce(s: State, steps: seq<Step>, w: bool, id: nat)
    requires Initial(s)
    requires var log := Run(s, steps).At(w).log; id < |log| && log[id].Started? && !log[id].job.repeat
    ensures var side := Run(s, steps).At(w);
      && CallsOf(side.log, id) + DropsOf(side.log, id) ==
           (if Busy(side) && side.op.job.id == id then 0 else 1) + SecondsOf(side.log, id) + StraysOf(side.log, id)
      && SecondsOf(side.log, id) <= (if CutShort(side.log, id) then 1 else 0)
      && StraysOf(side.log, id) <= 1
  {
    Accounting(s, steps, w, id);
    RunRan(s, steps);
    FreshBooks(w, s.At(w));
    assert SideRan(w, s.At(w), Run(s, steps).At(w));
    var log := Run(s, steps).At(w).log;
    OneShotEnds(log, id);
    OneSecond(log, id);
    OneStray(log, id);
  }

  /** What a blocking call would move: as much as is wanted, or the whole rest. */
  function Blocking(stream: seq<byte>, from: nat, len: nat): seq<byte>
    requires from <= |stream|
  {
    stream[from..from + Min(len, |stream| - from)]
  }

  lemma {:induction false} TruthfulAt(w: bool, k: End, log: seq<Entry>, i: nat)
    requires Truthful(w, k, log) && i < |log|
    ensures LastTruthful(w, k, log[..i + 1])
    ensures LogBytes(log[..i]) + EntryBytes(log[i]) <= LogBytes(log)
    decreases |log|
  {
    var init := log[..|log| - 1];
    if i == |log| - 1 {
      assert log[..i + 1] == log;
    } else {
      TruthfulAt(w, k, init, i);
      assert init[..i + 1] == log[..i + 1] && init[..i] == log[..i];
    }
    assert log[..i + 1][..i] == log[..i];
  }

  /** The callback `c`, at place `from` of the stream, reports what a blocking loop would
      have moved there: what it wants, or all the rest of a stream that stopped. With 0
      bytes the number says how it stopped. */
  predicate Exact(w: bool, k: End, from: nat, c: Entry)
    requires c.Called?
  {
    && from + |c.bytes| <= |k.stream|
    && c.bytes == Blocking(k.stream, from, Want(w, c.job.req))
    && (w ==> c.bytes <= c.job.req.data)
    && (|c.bytes| < Want(w, c.job.req) ==> k.stop != Open && from + |c.bytes| == |k.stream|)
    && c.r == if c.bytes == [] then Verdict(k, Want(w, c.job.req)) else |c.bytes|
  }

  predicate WholeBufferCall(side: Side, i: nat) {
    && i < |side.log| && side.log[i].Called?
    && side.log[i].final && !side.log[i].hup && IsAll(side.log[i].job.operation)
  }

  /** Schedule independence: however arrivals are chunked, and wherever the switch from
      the synchronous loop to the pending operation falls, a whole-buffer operation that
      completes outside hang-up handling moved exactly what a blocking loop would have
      moved at its place in the stream, and reports its length. */
  lemma WholeBufferExact(s: State, steps: seq<Step>, w: bool, i: nat)
    requires Initial(s)
    requires !Run(s, steps).At(w).clash && WholeBufferCall(Run(s, steps).At(w), i)
    ensures var side := Run(s, steps).At(w);
      Exact(w, side.k, |LogBytes(side.log[..i])|, side.log[i])
  {
    RunRan(s, steps);
    assert SideRan(w, s.At(w), Run(s, steps).At(w));
    ExactAt(w, Run(s, steps).At(w), i);
  }

  lemma ExactAt(w: bool, side: Side, i: nat)
    requires InStep(w, side) && WholeBufferCall(side, i)
    ensures Exact(w, side.k, |LogBytes(side.log[..i])|, side.log[i])
  {
    var c := side.log[i];
    var from := |LogBytes(side.log[..i])|;
    TruthfulAt(w, side.k, side.log, i);
    PlacedAt(w, side, i);
    assert side.log[..i + 1][i] == c;
    assert |c.bytes| < Want(w, c.job.req) ==> from + |c.bytes| == |side.k.stream|;
  }

  /** Where the bytes of the i-th entry lie in the stream. */
  lemma PlacedAt(w: bool, side: Side, i: nat)
    requires InStep(w, side) && i < |side.log|
    requires LogBytes(side.log[..i]) + EntryBytes(side.log[i]) <= LogBytes(side.log)
    ensures var from := |LogBytes(side.log[..i])|;
      var bytes := EntryBytes(side.log[i]);
      from + |bytes| <= |side.k.stream| && side.k.stream[from..from + |bytes|] == bytes
    ensures LogBytes(side.log[..i + 1]) == LogBytes(side.log[..i]) + EntryBytes(side.log[i])
  {
    assert side.log[..i + 1][..i] == side.log[..i];
    Inside(LogBytes(side.log[..i]), EntryBytes(side.log[i]), LogBytes(side.log), Pending(side), side.k.stream);
  }

  lemma Inside(x: seq<byte>, y: seq<byte>, log: seq<byte>, pending: seq<byte>, stream: seq<byte>)
    requires x + y <= log && log + pending <= stream
    ensures |x| + |y| <= |stream| && stream[|x|..|x| + |y|] == y
  {
    assert log <= log + pending;
    assert stream[..|x| + |y|] == x + y;
    assert stream[|x|..|x| + |y|] == (x + y)[|x|..];
  }

  /** Two whole-buffer operations at the same place of the same supply. For a read that is the
      same stream with the same end; for a write it is the same buffer, and either both
      streams are open or they broke or ended alike after as many bytes. */
  predicate SameSupply(w: bool, a: Side, i: nat, b: Side, j: nat)
    requires WholeBufferCall(a, i) && WholeBufferCall(b, j)
  {
    && |LogBytes(a.log[..i])| == |LogBytes(b.log[..j])|
    && Want(w, a.log[i].job.req) == Want(w, b.log[j].job.req)
    && a.k.stop == b.k.stop
    && if w then
         && a.log[i].job.req.data == b.log[j].job.req.data
         && (a.k.stop == Open || |a.k.stream| == |b.k.stream|)
       else
         a.k.stream == b.k.stream
  }

  /** Two runs over the same supply, however scheduled: the same whole-buffer operation at
      the same place gives the same bytes and the same number. */
  lemma ScheduleIndependence(w: bool, s1: State, steps1: seq<Step>, i: nat, s2: State, steps2: seq<Step>, j: nat)
    requires Initial(s1) && Initial(s2)
    requires var a, b := Run(s1, steps1).At(w), Run(s2, steps2).At(w);
      && !a.clash && WholeBufferCall(a, i)
      && !b.clash && WholeBufferCall(b, j)
      && SameSupply(w, a, i, b, j)
    ensures var c, d := Run(s1, steps1).At(w).log[i], Run(s2, steps2).At(w).log[j];
      c.bytes == d.bytes && c.r == d.r
  {
    WholeBufferExact(s1, steps1, w, i);
    WholeBufferExact(s2, steps2, w, j);
    SuppliedAlike(w, Run(s1, steps1).At(w), i, Run(s2, steps2).At(w), j);
  }

  lemma SuppliedAlike(w: bool, a: Side, i: nat, b: Side, j: nat)
    requires WholeBufferCall(a, i) && WholeBufferCall(b, j) && SameSupply(w, a, i, b, j)
    requires Exact(w, a.k, |LogBytes(a.log[..i])|, a.log[i])
    requires Exact(w, b.k, |LogBytes(b.log[..j])|, b.log[j])
    ensures a.log[i].bytes == b.log[j].bytes && a.log[i].r == b.log[j].r
  {
    if w {
      var c, d := a.log[i], b.log[j];
      assert |c.bytes| == |d.bytes|;
      assert c.bytes == c.job.req.data[..|c.bytes|] && d.bytes == d.job.req.data[..|d.bytes|];
    }
  }

  /** On a stream that is still open a whole-buffer operation that completed moved its whole
      buffer, whatever another run did. */
  lemma OpenCompletes(s: State, steps: seq<Step>, w: bool, i: nat)
    requires Initial(s)
    requires var side := Run(s, steps).At(w);
      !side.clash && WholeBufferCall(side, i) && side.k.stop == Open
    ensures var c := Run(s, steps).At(w).log[i];
      |c.bytes| == Want(w, c.job.req) && (w ==> c.bytes == c.job.req.data) && c.r == |c.bytes|
  {
    WholeBufferExact(s, steps, w, i);
    assert w ==> Run(s, steps).At(w).log[i].bytes <= Run(s, steps).At(w).log[i].job.req.data;
  }
}
