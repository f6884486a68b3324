/** What the callbacks are told is the stream, and what they are called for are the
    operations that were started: the step lemmas behind conservation, truthful results
    and accounting. */
module EngineHistory {
  import opened Kernel
  import opened Engine

  function EntryBytes(e: Entry): seq<byte> {
    match e
    case Called(_, _, bytes, _, _) => bytes
    case Cancelled(_, bytes) => bytes
    case Overwritten(_, bytes) => bytes
    case Started(_) => []
    case Again(_, _, _) => []
  }

  /** All bytes the log accounts for, in order. */
  function LogBytes(log: seq<Entry>): seq<byte> {
    if log == [] then [] else LogBytes(log[..|log| - 1]) + EntryBytes(log[|log| - 1])
  }

  /** Operation `id` ends with its last callback, by being cancelled, or by being
      overwritten in its slot. */
  predicate EndedBy(e: Entry, id: nat) {
    match e
    case Called(job, _, _, final, _) => final && job.id == id
    case Cancelled(of, _) => of == id
    case Overwritten(of, _) => of == id
    case _ => false
  }

  /** How often operation `id` ended. */
  function EndsOf(log: seq<Entry>, id: nat): nat {
    if log == [] then 0 else EndsOf(log[..|log| - 1], id) + if EndedBy(log[|log| - 1], id) then 1 else 0
  }

  predicate IsStart(log: seq<Entry>, job: Job) {
    job.id < |log| && log[job.id] == Started(job)
  }

  function Begun(log: seq<Entry>, id: nat): nat {
    if id < |log| && log[id].Started? then 1 else 0
  }

  /** Whether operation `id` is in the slot, or in a synchronous repeat loop. */
  function UnderwayOf(side: Side, id: nat): nat {
    (if Busy(side) && side.op.job.id == id then 1 else 0) + if id in side.loops then 1 else 0
  }

  /** The callback with which a hang-up ends a readAll, writeAll, sendAll or recvAll that
      has moved something. */
  predicate HupPart(e: Entry, id: nat) {
    && e.Called? && e.final && e.hup && e.bytes != [] && e.job.id == id
    && Code(ReadAll) <= Code(e.job.operation) <= Code(RecvAll)
  }

  predicate CutShort(log: seq<Entry>, id: nat) {
    exists i :: 0 <= i < |log| && HupPart(log[i], id)
  }

  /** The second callback of handleHup for operation `of` fits: a hang-up cut `of` short at
      `c`, no other second callback came since, and it goes to `of` itself or to an operation
      that was started since. */
  predicate SecondFits(log: seq<Entry>, of: nat, to: nat, c: nat) {
    && c < |log| && HupPart(log[c], of)
    && (forall i :: c <= i < |log| ==> !log[i].Again?)
    && (to == of || (c < to < |log| && log[to].Started?))
  }

  predicate NotAgain(log: seq<Entry>, id: nat) {
    forall i :: 0 <= i < |log| && log[i].Again? ==> log[i].of != id
  }

  /** The last entry fits what came before: a callback, cancel or overwrite is for an
      operation that was started and has not ended, a callback that is not the last one is
      for a repeating operation, and a second callback follows a hang-up's count, once for
      each operation that was cut short. */
  ghost predicate LastFits(log: seq<Entry>)
    requires log != []
  {
    var before := log[..|log| - 1];
    match log[|log| - 1]
    case Started(job) => job.id == |before|
    case Called(job, _, _, final, _) => IsStart(before, job) && EndsOf(before, job.id) == 0 && (final || job.repeat)
    case Cancelled(id, _) => Begun(before, id) == 1 && EndsOf(before, id) == 0
    case Overwritten(id, _) => Begun(before, id) == 1 && EndsOf(before, id) == 0
    case Again(of, _, to) => NotAgain(before, of) && exists c: nat :: SecondFits(before, of, to, c)
  }

  ghost predicate LogFits(log: seq<Entry>)
    decreases |log|
  {
    log == [] || (LogFits(log[..|log| - 1]) && LastFits(log))
  }

  /** The books of a side: every started operation ended once or is underway, never both,
      and nothing else ended or is underway. */
  ghost predicate Books(side: Side) {
    && LogFits(side.log)
    && (Busy(side) ==> IsStart(side.log, side.op.job))
    && forall id: nat :: EndsOf(side.log, id) + UnderwayOf(side, id) == Begun(side.log, id)
  }

  /** The stream stopped, and every byte of it is accounted for. */
  predicate Drained(k: End, log: seq<Entry>) {
    k.stop != Open && |LogBytes(log)| == |k.stream|
  }

  /** The last callback of `log` is truthful: it reports a part of the buffer, the number
      passed is the number of bytes, and outside hang-up handling a whole-buffer
      operation comes back short, and anything comes back with 0 or -1, only when the
      stream stopped and nothing is left of it; then -1 means it broke. */
  predicate LastTruthful(w: bool, k: End, log: seq<Entry>)
    requires log != []
  {
    match log[|log| - 1]
    case Called(job, r, bytes, final, hup) =>
      && |bytes| <= Want(w, job.req)
      && (w ==> bytes <= job.req.data)
      && (if bytes == [] then r <= 0 else r == |bytes|)
      && (!hup && job.operation != Wait ==>
            && (|bytes| < Want(w, job.req) && ((IsAll(job.operation) && final) || bytes == []) ==> Drained(k, log))
            && (bytes == [] ==> r == Verdict(k, Want(w, job.req))))
    case _ => true
  }

  /** What a call for `n` bytes returns once nothing more will come. */
  function Verdict(k: End, n: nat): int {
    if n > 0 && k.stop == Fail then -1 else 0
  }

  predicate Truthful(w: bool, k: End, log: seq<Entry>)
    decreases |log|
  {
    log == [] || (Truthful(w, k, log[..|log| - 1]) && LastTruthful(w, k, log))
  }

  predicate SlotFits(w: bool, side: Side) {
    Busy(side) ==> DoneFits(w, side.op.job, side.op.done)
  }

  predicate DoneFits(w: bool, job: Job, done: seq<byte>) {
    && |done| <= Want(w, job.req)
    && (w ==> done <= job.req.data)
    && (IsPlain(job.operation) ==> done == [])
  }

  predicate Accounted(w: bool, side: Side) {
    LogBytes(side.log) + Pending(side) == Moved(w, side.k)
  }

  /** Everything moved through the side is accounted for, in order. */
  predicate InStep(w: bool, side: Side) {
    Accounted(w, side) && Truthful(w, side.k, side.log)
  }

  predicate Sound(w: bool, side: Side) {
    SlotFits(w, side) && (side.clash || InStep(w, side))
  }

  /** How a side may evolve: history only grows, an operation leaves its slot only by
      ending, and soundness is kept. */
  predicate SideTold(w: bool, a: Side, b: Side) {
    && a.log <= b.log
    && Flows(a.k, b.k)
    && (a.clash ==> b.clash)
    && (Busy(a) && EndsOf(a.log, a.op.job.id) == EndsOf(b.log, a.op.job.id) ==> b.op.job == a.op.job)
    && (Sound(w, a) ==> Sound(w, b))
  }

  /** The callback in the slot still belongs to the same operation, or to one that was
      started since. */
  predicate Inherits(a: Side, b: Side) {
    b.op.job.id == a.op.job.id || (|a.log| <= b.op.job.id < |b.log| && b.log[b.op.job.id].Started?)
  }

  /** In addition the books stay right. */
  ghost predicate SideRan(w: bool, a: Side, b: Side) {
    SideTold(w, a, b) && Inherits(a, b) && (Books(a) ==> Books(b))
  }

  predicate NoneAgain(a: Side, b: Side)
    requires a.log <= b.log
  {
    forall i :: |a.log| <= i < |b.log| ==> !b.log[i].Again?
  }

  /** The same without second callbacks: only handleHup makes those. */
  ghost predicate SideRecorded(w: bool, a: Side, b: Side) {
    SideRan(w, a, b) && NoneAgain(a, b)
  }

  /** No operation was overwritten between two moments. */
  predicate NoneOver(x: seq<Entry>, y: seq<Entry>) {
    x <= y && forall i :: |x| <= i < |y| ==> !y[i].Overwritten?
  }

  lemma NoneOverOne(x: seq<Entry>, e: Entry)
    requires !e.Overwritten?
    ensures NoneOver(x, x) && NoneOver(x, x + [e])
  {
  }

  lemma NoneOverTrans(x: seq<Entry>, y: seq<Entry>, z: seq<Entry>)
    requires NoneOver(x, y) && NoneOver(y, z)
    ensures NoneOver(x, z)
  {
    forall i | |x| <= i < |z| ensures !z[i].Overwritten? {
      if i < |y| {
        assert z[i] == y[i];
      }
    }
  }

  /** Every second callback of handleHup between two moments went to its own operation. */
  predicate NoneStray(x: seq<Entry>, y: seq<Entry>) {
    x <= y && forall i :: |x| <= i < |y| ==> y[i].Again? ==> y[i].to == y[i].of
  }

  lemma NoneStrayOne(x: seq<Entry>, e: Entry)
    requires e.Again? ==> e.to == e.of
    ensures NoneStray(x, x) && NoneStray(x, x + [e])
  {
  }

  lemma NoneStrayTrans(x: seq<Entry>, y: seq<Entry>, z: seq<Entry>)
    requires NoneStray(x, y) && NoneStray(y, z)
    ensures NoneStray(x, z)
  {
    forall i | |x| <= i < |z| && z[i].Again? ensures z[i].to == z[i].of {
      if i < |y| {
        assert z[i] == y[i];
      }
    }
  }

  ghost predicate Recorded(s: State, t: State) {
    forall w: bool :: SideRecorded(w, s.At(w), t.At(w))
  }

  ghost predicate Ran(s: State, t: State) {
    forall w: bool :: SideRan(w, s.At(w), t.At(w))
  }

  lemma {:induction false} EndsGrow(x: seq<Entry>, y: seq<Entry>, id: nat)
    requires x <= y
    ensures EndsOf(x, id) <= EndsOf(y, id)
    decreases |y|
  {
    if |x| < |y| {
      EndsGrow(x, y[..|y| - 1], id);
    } else {
      assert x == y;
    }
  }

  lemma SideToldTrans(w: bool, a: Side, b: Side, c: Side)
    requires SideTold(w, a, b) && SideTold(w, b, c)
    ensures SideTold(w, a, c)
  {
    EndsGrow(a.log, b.log, a.op.job.id);
    EndsGrow(b.log, c.log, a.op.job.id);
  }

  lemma SideRanTrans(w: bool, a: Side, b: Side, c: Side)
    requires SideRan(w, a, b) && SideRan(w, b, c)
    ensures SideRan(w, a, c)
  {
    SideToldTrans(w, a, b, c);
  }

  lemma SideRecordedTrans(w: bool, a: Side, b: Side, c: Side)
    requires SideRecorded(w, a, b) && SideRecorded(w, b, c)
    ensures SideRecorded(w, a, c)
  {
    SideRanTrans(w, a, b, c);
    NoneAgainTrans(a, b, c);
  }

  lemma NoneAgainTrans(a: Side, b: Side, c: Side)
    requires a.log <= b.log <= c.log && NoneAgain(a, b) && NoneAgain(b, c)
    ensures NoneAgain(a, c)
  {
    forall i | |a.log| <= i < |c.log| ensures !c.log[i].Again? {
      if i < |b.log| {
        assert c.log[i] == b.log[i];
      }
    }
  }

  lemma RecordedTrans(s: State, t: State, u: State)
    requires Recorded(s, t) && Recorded(t, u)
    ensures Recorded(s, u)
  {
    forall w: bool ensures SideRecorded(w, s.At(w), u.At(w)) {
      SideRecordedTrans(w, s.At(w), t.At(w), u.At(w));
    }
  }

  lemma RanTrans(s: State, t: State, u: State)
    requires Ran(s, t) && Ran(t, u)
    ensures Ran(s, u)
  {
    forall w: bool ensures SideRan(w, s.At(w), u.At(w)) {
      SideRanTrans(w, s.At(w), t.At(w), u.At(w));
    }
  }

  lemma Appended(log: seq<Entry>, e: Entry)
    ensures LogBytes(log + [e]) == LogBytes(log) + EntryBytes(e)
    ensures forall w, k :: Truthful(w, k, log + [e]) <==> Truthful(w, k, log) && LastTruthful(w, k, log + [e])
  {
    assert (log + [e])[..|log|] == log;
  }

  lemma AppendedEnds(log: seq<Entry>, e: Entry, id: nat)
    ensures EndsOf(log + [e], id) == EndsOf(log, id) + if EndedBy(e, id) then 1 else 0
  {
    assert (log + [e])[..|log|] == log;
  }

  /** What was truthful stays truthful while the stream flows on. */
  lemma {:induction false} TruthfulLater(w: bool, k: End, k': End, log: seq<Entry>)
    requires Flows(k, k') && Truthful(w, k, log)
    ensures Truthful(w, k', log)
    decreases |log|
  {
    if log != [] {
      TruthfulLater(w, k, k', log[..|log| - 1]);
    }
  }

  // ---- What an entry does to the books. ----

  /** One operation may begin with the entry, or end with it, and the others stay where
      they are. */
  ghost predicate Transfers(a: Side, b: Side, e: Entry) {
    forall id: nat ::
      UnderwayOf(b, id) + (if EndedBy(e, id) then 1 else 0) ==
      UnderwayOf(a, id) + (if e.Started? && id == |a.log| then 1 else 0)
  }

  lemma BooksAppend(a: Side, b: Side, e: Entry)
    requires Books(a) && b.log == a.log + [e] && LastFits(b.log)
    requires Busy(b) ==> IsStart(b.log, b.op.job)
    requires Transfers(a, b, e)
    ensures Books(b)
  {
    assert b.log[..|b.log| - 1] == a.log;
    forall id: nat ensures EndsOf(b.log, id) + UnderwayOf(b, id) == Begun(b.log, id) {
      AppendedEnds(a.log, e, id);
      assert EndsOf(a.log, id) + UnderwayOf(a, id) == Begun(a.log, id);
    }
  }

  /** Only what is underway can still be called. */
  lemma CallFits(a: Side, e: Entry)
    requires Books(a) && e.Called? && IsStart(a.log, e.job) && UnderwayOf(a, e.job.id) > 0
    requires e.final || e.job.repeat
    ensures LastFits(a.log + [e])
  {
    assert (a.log + [e])[..|a.log|] == a.log;
    assert EndsOf(a.log, e.job.id) + UnderwayOf(a, e.job.id) == Begun(a.log, e.job.id);
  }

  /** Starting is entering a loop that ends at once, as far as the books go. */
  lemma BeginBooks(a: Side, job: Job)
    requires job.id == |a.log|
    ensures Books(a) ==> Books(EnterLoop(a, job)) && job.id !in a.loops
    ensures IsStart(EnterLoop(a, job).log, job)
  {
    if Books(a) {
      assert EndsOf(a.log, job.id) + UnderwayOf(a, job.id) == Begun(a.log, job.id);
      BooksAppend(a, EnterLoop(a, job), Started(job));
    }
  }

  lemma CallBooks(a: Side, b: Side, e: Entry)
    requires Books(a) && e.Called? && (e.final || e.job.repeat)
    requires b.log == a.log + [e]
    requires IsStart(a.log, e.job) && UnderwayOf(a, e.job.id) > 0
    requires Busy(b) ==> b.op.job == a.op.job && Busy(a)
    requires Transfers(a, b, e)
    ensures Books(b)
  {
    CallFits(a, e);
    BooksAppend(a, b, e);
  }

  /** What was in the slot is dropped: cancelled, or overwritten by `job` of a loop. */
  lemma DropBooks(a: Side, b: Side, e: Entry)
    requires Books(a) && Busy(a) && b.log == a.log + [e]
    requires e == Cancelled(a.op.job.id, a.op.done) || e == Overwritten(a.op.job.id, a.op.done)
    requires Busy(b) ==> IsStart(a.log, b.op.job)
    requires Transfers(a, b, e)
    ensures Books(b)
  {
    assert (a.log + [e])[..|a.log|] == a.log;
    assert EndsOf(a.log, a.op.job.id) + UnderwayOf(a, a.op.job.id) == Begun(a.log, a.op.job.id);
    BooksAppend(a, b, e);
  }

  // ---- What an entry does to the account of bytes. ----

  /** `log` and `held` made up `moved`; then `chunk` was moved, `told` reported, `kept` held. */
  lemma Reported(log: seq<byte>, held: seq<byte>, moved: seq<byte>, told: seq<byte>, kept: seq<byte>,
      chunk: seq<byte>)
    requires log + held == moved && told + kept == held + chunk
    ensures log + told + kept == moved + chunk
  {
    assert log + told + kept == log + (told + kept);
    assert log + (held + chunk) == log + held + chunk;
  }

  lemma AccountedAfter(w: bool, a: Side, b: Side, chunk: seq<byte>, e: Entry)
    requires Accounted(w, a) && b.log == a.log + [e] && Moved(w, b.k) == Moved(w, a.k) + chunk
    requires EntryBytes(e) + Pending(b) == Pending(a) + chunk
    ensures Accounted(w, b)
  {
    Appended(a.log, e);
    Reported(LogBytes(a.log), Pending(a), Moved(w, a.k), EntryBytes(e), Pending(b), chunk);
  }

  lemma TruthfulAfter(w: bool, a: Side, b: Side, e: Entry)
    requires Truthful(w, a.k, a.log) && b.log == a.log + [e] && Flows(a.k, b.k) && LastTruthful(w, b.k, b.log)
    ensures Truthful(w, b.k, b.log)
  {
    TruthfulLater(w, a.k, b.k, a.log);
    assert b.log[..|b.log| - 1] == a.log;
  }

  /** Soundness after the entry `e`, before which `chunk` was moved. */
  lemma SoundAfter(w: bool, a: Side, b: Side, chunk: seq<byte>, e: Entry)
    requires Sound(w, a) && b.log == a.log + [e]
    requires Flows(a.k, b.k) && Moved(w, b.k) == Moved(w, a.k) + chunk
    requires SlotFits(w, b) && (a.clash ==> b.clash)
    requires !b.clash ==> EntryBytes(e) + Pending(b) == Pending(a) + chunk
    requires !b.clash && Accounted(w, b) ==> LastTruthful(w, b.k, b.log)
    ensures Sound(w, b)
  {
    if !b.clash {
      AccountedAfter(w, a, b, chunk, e);
      TruthfulAfter(w, a, b, e);
    }
  }

  /** An entry without bytes, and nothing moved. */
  lemma SoundBeside(w: bool, a: Side, b: Side, e: Entry)
    requires Sound(w, a) && b.log == a.log + [e] && b.k == a.k
    requires SlotFits(w, b) && (a.clash ==> b.clash)
    requires !b.clash ==> EntryBytes(e) + Pending(b) == Pending(a)
    requires !b.clash && Accounted(w, b) ==> LastTruthful(w, b.k, b.log)
    ensures Sound(w, b)
  {
    Unit(Moved(w, a.k));
    Unit(Pending(a));
    SoundAfter(w, a, b, [], e);
  }

  lemma Unit(x: seq<byte>)
    ensures x + [] == x && [] + x == x
  {
  }

  // ---- What single steps record, on one side. ----

  /** The kernel end, the skip flag and the mark change; no byte moves. */
  lemma QuietStep(w: bool, a: Side, b: Side)
    requires Flows(a.k, b.k) && Moved(w, b.k) == Moved(w, a.k)
    requires b == a.(k := b.k, op := a.op.(skipSync := b.op.skipSync), clash := b.clash)
    requires a.clash ==> b.clash
    ensures SideRecorded(w, a, b)
  {
    if Sound(w, a) && !a.clash {
      TruthfulLater(w, a.k, b.k, a.log);
    }
    SameBooks(a, b);
  }

  lemma SameBooks(a: Side, b: Side)
    requires b.log == a.log && b.loops == a.loops && b.op.job == a.op.job
    ensures Books(a) ==> Books(b)
  {
    assert forall id :: UnderwayOf(b, id) == UnderwayOf(a, id);
  }

  /** Bytes were moved and dropped: the side is marked. */
  lemma DropStep(w: bool, a: Side, b: Side)
    requires Flows(a.k, b.k) && (b.clash || Moved(w, b.k) == Moved(w, a.k))
    requires b == a.(k := b.k, clash := b.clash) && (a.clash ==> b.clash)
    ensures SideRecorded(w, a, b)
  {
    if Moved(w, b.k) == Moved(w, a.k) {
      QuietStep(w, a, b);
    } else {
      SameBooks(a, b);
    }
  }

  /** A callback that ends the operation in the slot, after `chunk` was moved for it. */
  lemma FinishStep(w: bool, a: Side, b: Side, chunk: seq<byte>, e: Entry)
    requires Busy(a) && e.Called? && e.final && e.job == a.op.job
    requires Flows(a.k, b.k) && Moved(w, b.k) == Moved(w, a.k) + chunk
    requires b == Log(a.(k := b.k, op := b.op), e) && !Busy(b) && b.op.job.id == a.op.job.id
    requires Sound(w, a) ==> e.bytes == a.op.done + chunk
    requires Sound(w, a) && !a.clash && LogBytes(b.log) == Moved(w, b.k) ==> LastTruthful(w, b.k, b.log)
    ensures SideRecorded(w, a, b)
  {
    AppendedEnds(a.log, e, e.job.id);
    if Sound(w, a) {
      Unit(e.bytes);
      Unit(LogBytes(b.log));
      SoundAfter(w, a, b, chunk, e);
    }
    if Books(a) {
      CallBooks(a, b, e);
    }
  }

  lemma Regroup(x: seq<byte>, y: seq<byte>, z: seq<byte>)
    ensures x + (y + z) == x + y + z && x + [] == x && x + (y + z) + [] == x + y + z
  {
  }

  /** A callback that reports `chunk` and leaves the operation going, in the slot or in a
      synchronous loop. */
  lemma ChunkStep(w: bool, a: Side, b: Side, e: Entry)
    requires e.Called? && !e.final && e.job.repeat
    requires (Busy(a) && e.job == a.op.job) || (e.job.id in a.loops && IsStart(a.log, e.job))
    requires Flows(a.k, b.k) && Moved(w, b.k) == Moved(w, a.k) + e.bytes
    requires b == Log(a.(k := b.k, clash := b.clash), e) && (a.clash ==> b.clash)
    requires Sound(w, a) && !b.clash ==> Pending(a) == []
    requires LastTruthful(w, b.k, b.log)
    ensures SideRecorded(w, a, b)
  {
    if Sound(w, a) {
      Unit(e.bytes);
      SoundAfter(w, a, b, e.bytes, e);
    }
    if Books(a) {
      CallBooks(a, b, e);
    }
  }

  /** A whole-buffer operation moved `chunk` and goes on waiting. */
  lemma GrowStep(w: bool, a: Side, b: Side, chunk: seq<byte>)
    requires Busy(a) && IsAll(a.op.job.operation)
    requires Flows(a.k, b.k) && Moved(w, b.k) == Moved(w, a.k) + chunk
    requires b == a.(k := b.k, op := a.op.(done := a.op.done + chunk))
    requires SlotFits(w, a) ==> SlotFits(w, b)
    ensures SideRecorded(w, a, b)
  {
    if Sound(w, a) && !a.clash {
      TruthfulLater(w, a.k, b.k, a.log);
      Unit(LogBytes(a.log));
      Reported(LogBytes(a.log), a.op.done, Moved(w, a.k), [], a.op.done + chunk, chunk);
      Unit(a.op.done + chunk);
    }
    SameBooks(a, b);
  }

  /** An operation that starts and ends in one synchronous attempt. */
  lemma ImmediateStep(w: bool, a: Side, b: Side, e: Entry)
    requires e.Called? && e.final && e.job.id == |a.log|
    requires Flows(a.k, b.k) && Moved(w, b.k) == Moved(w, a.k) + e.bytes
    requires b == Log(Log(a.(clash := b.clash), Started(e.job)).(k := b.k), e)
    requires a.clash ==> b.clash
    requires !b.clash ==> Pending(a) == []
    requires Sound(w, a) && !b.clash && LogBytes(b.log) == Moved(w, b.k) ==> LastTruthful(w, b.k, b.log)
    ensures SideRecorded(w, a, b)
  {
    if Sound(w, a) {
      var m := Log(a.(clash := b.clash), Started(e.job));
      StartedSound(w, a, m, e.job);
      Unit(e.bytes);
      Unit(LogBytes(b.log));
      SoundAfter(w, m, b, e.bytes, e);
    }
    ImmediateBooks(a, b, e);
  }

  lemma StartedSound(w: bool, a: Side, b: Side, job: Job)
    requires Sound(w, a) && (a.clash ==> b.clash)
    requires b.log == a.log + [Started(job)] && b.op == a.op && b.k == a.k
    ensures Sound(w, b)
  {
    Unit(Pending(a));
    SoundBeside(w, a, b, Started(job));
  }

  lemma ImmediateBooks(a: Side, b: Side, e: Entry)
    requires e.Called? && e.final && e.job.id == |a.log|
    requires b.log == a.log + [Started(e.job)] + [e] && b.op == a.op && b.loops == a.loops
    ensures Books(a) ==> Books(b)
    ensures Busy(a) && EndsOf(a.log, a.op.job.id) == EndsOf(b.log, a.op.job.id) ==> b.op.job == a.op.job
  {
    BeginBooks(a, e.job);
    if Books(a) {
      CallBooks(EnterLoop(a, e.job), b, e);
    }
  }

  /** An operation that starts and is parked after a synchronous attempt moved `done`. */
  lemma ParkStep(w: bool, a: Side, k: End, job: Job, done: seq<byte>)
    requires !Busy(a) && job.id == |a.log|
    requires Flows(a.k, k) && Moved(w, k) == Moved(w, a.k) + done
    requires DoneFits(w, job, done) && job.operation != NoOp
    ensures SideRecorded(w, a, Park(Log(a, Started(job)).(k := k), job, done))
  {
    var b := Park(Log(a, Started(job)).(k := k), job, done);
    if Sound(w, a) {
      Unit(done);
      SoundAfter(w, a, b, done, Started(job));
    }
    ParkBooks(a, b, job);
  }

  lemma ParkBooks(a: Side, b: Side, job: Job)
    requires !Busy(a) && job.id == |a.log|
    requires b.log == a.log + [Started(job)] && b.op.job == job && b.loops == a.loops && Busy(b)
    ensures Books(a) ==> Books(b)
  {
    BeginBooks(a, job);
    assert forall id :: Books(a) ==> UnderwayOf(b, id) == UnderwayOf(EnterLoop(a, job), id);
  }

  /** An operation that is started on a busy side and takes the slot over. */
  lemma TakeOverStep(w: bool, a: Side, job: Job)
    requires Busy(a) && job.id == |a.log| && job.operation != NoOp
    ensures SideRecorded(w, a, Park(Log(a, Started(job)), job, []))
  {
    var m, b := Log(a, Started(job)), Park(Log(a, Started(job)), job, []);
    if Sound(w, a) {
      StartedSound(w, a, m, job);
      Unit(a.op.done);
      SoundBeside(w, m, b, Overwritten(a.op.job.id, a.op.done));
    }
    TakeOverBooks(a, b, job);
  }

  lemma TakeOverBooks(a: Side, b: Side, job: Job)
    requires Busy(a) && job.id == |a.log| && job.operation != NoOp && b == Park(Log(a, Started(job)), job, [])
    ensures EndsOf(b.log, a.op.job.id) == EndsOf(a.log, a.op.job.id) + 1
    ensures Books(a) ==> Books(b)
  {
    var e := Overwritten(a.op.job.id, a.op.done);
    AppendedEnds(a.log, Started(job), a.op.job.id);
    AppendedEnds(a.log + [Started(job)], e, a.op.job.id);
    BeginBooks(a, job);
    if Books(a) {
      DropBooks(EnterLoop(a, job), b, e);
    }
  }

  lemma EnterLoopStep(w: bool, a: Side, job: Job)
    requires job.id == |a.log|
    ensures SideRecorded(w, a, EnterLoop(a, job))
  {
    AppendedEnds(a.log, Started(job), a.op.job.id);
    if Sound(w, a) {
      StartedSound(w, a, EnterLoop(a, job), job);
    }
    BeginBooks(a, job);
  }

  /** `job` is in the innermost synchronous repeat loop, inside the loops `outer`. */
  predicate Innermost(side: Side, job: Job, outer: set<nat>) {
    side.loops == outer + {job.id} && job.id !in outer && IsStart(side.log, job)
  }

  /** The synchronous repeat loop of `job`, entered from `a`, has come to `b`. */
  ghost predicate Looped(w: bool, a: Side, b: Side, job: Job) {
    && SideRecorded(w, a, b)
    && job.id == |a.log| && b.loops == a.loops + {job.id} && IsStart(b.log, job)
  }

  /** It ends in EAGAIN and the operation is parked. */
  lemma LoopParkStep(w: bool, a: Side, b: Side, job: Job)
    requires Looped(w, a, b, job) && job.operation != NoOp
    ensures SideRecorded(w, a, Park(LeaveLoop(b, a.loops), job, []))
  {
    var c := Park(LeaveLoop(b, a.loops), job, []);
    LoopParkTold(w, b, c, job, a.loops);
    SideToldTrans(w, a, b, c);
    assert c.log[|a.log|] == Started(job);
    NoneAgainTrans(a, b, c);
    BeginBooks(a, job);
    if Books(a) {
      LoopParkBooks(b, c, job, a.loops);
    }
  }

  lemma LoopParkTold(w: bool, a: Side, b: Side, job: Job, outer: set<nat>)
    requires job.operation != NoOp && b == Park(LeaveLoop(a, outer), job, [])
    ensures SideTold(w, a, b) && NoneAgain(a, b)
  {
    var e := Overwritten(a.op.job.id, a.op.done);
    AppendedEnds(a.log, e, a.op.job.id);
    if Sound(w, a) {
      LoopParkSound(w, a, b, job, outer);
    }
  }

  lemma LoopParkSound(w: bool, a: Side, b: Side, job: Job, outer: set<nat>)
    requires Sound(w, a) && job.operation != NoOp && b == Park(LeaveLoop(a, outer), job, [])
    ensures Sound(w, b)
  {
    if Busy(a) {
      Unit(a.op.done);
      SoundBeside(w, a, b, Overwritten(a.op.job.id, a.op.done));
    }
  }

  lemma LoopParkBooks(a: Side, b: Side, job: Job, outer: set<nat>)
    requires Innermost(a, job, outer) && job.operation != NoOp && b == Park(LeaveLoop(a, outer), job, [])
    ensures Books(a) ==> Books(b)
  {
    if Books(a) {
      if Busy(a) {
        DropBooks(a, b, Overwritten(a.op.job.id, a.op.done));
      } else {
        assert forall id :: UnderwayOf(b, id) == UnderwayOf(a, id);
      }
    }
  }

  /** It ends with a last callback. */
  lemma LoopEndStep(w: bool, a: Side, b: Side, e: Entry)
    requires e.Called? && e.final && e.bytes == [] && Looped(w, a, b, e.job)
    requires Sound(w, b) && !b.clash ==> LastTruthful(w, b.k, b.log + [e])
    ensures SideRecorded(w, a, Log(LeaveLoop(b, a.loops), e))
  {
    var c := Log(LeaveLoop(b, a.loops), e);
    LoopEndTold(w, b, c, a.loops, e);
    SideToldTrans(w, a, b, c);
    NoneAgainTrans(a, b, c);
    BeginBooks(a, e.job);
    if Books(a) {
      LoopEndBooks(b, c, a.loops, e);
    }
  }

  lemma LoopEndTold(w: bool, a: Side, b: Side, outer: set<nat>, e: Entry)
    requires e.Called? && e.bytes == [] && b == Log(LeaveLoop(a, outer), e)
    requires Sound(w, a) && !a.clash ==> LastTruthful(w, a.k, a.log + [e])
    ensures SideTold(w, a, b)
  {
    AppendedEnds(a.log, e, a.op.job.id);
    if Sound(w, a) {
      Unit(Pending(a));
      SoundBeside(w, a, b, e);
    }
  }

  lemma LoopEndBooks(a: Side, b: Side, outer: set<nat>, e: Entry)
    requires e.Called? && e.final && Innermost(a, e.job, outer) && b == Log(LeaveLoop(a, outer), e)
    ensures Books(a) ==> Books(b)
  {
    if Books(a) {
      CallBooks(a, b, e);
    }
  }

  lemma CancelStep(w: bool, a: Side)
    ensures SideRecorded(w, a, CancelOp(a))
  {
    var e := Cancelled(a.op.job.id, a.op.done);
    AppendedEnds(a.log, e, a.op.job.id);
    if Sound(w, a) && Busy(a) {
      Unit(a.op.done);
      SoundBeside(w, a, CancelOp(a), e);
    }
    CancelBooks(a, CancelOp(a));
  }

  lemma CancelBooks(a: Side, b: Side)
    requires b == CancelOp(a)
    ensures Books(a) ==> Books(b)
  {
    if Busy(a) && Books(a) {
      DropBooks(a, b, Cancelled(a.op.job.id, a.op.done));
    }
  }

  /** What has ended cannot have been called again yet, unless a hang-up cut it short. */
  lemma {:induction false} AgainAfterEnd(log: seq<Entry>, id: nat)
    requires LogFits(log) && !NotAgain(log, id)
    ensures EndsOf(log, id) > 0
    decreases |log|
  {
    var before := log[..|log| - 1];
    if !NotAgain(before, id) {
      AgainAfterEnd(before, id);
    } else {
      assert log[|log| - 1].Again? && log[|log| - 1].of == id;
      CutShortEnds(before, id);
    }
  }

  lemma {:induction false} CutShortEnds(log: seq<Entry>, id: nat)
    requires CutShort(log, id)
    ensures EndsOf(log, id) > 0
    decreases |log|
  {
    if !HupPart(log[|log| - 1], id) {
      var i :| 0 <= i < |log| && HupPart(log[i], id);
      assert HupPart(log[..|log| - 1][i], id);
      CutShortEnds(log[..|log| - 1], id);
    }
  }

  /** What the log and the slot became after `e`, the first callback of handleHup, ended the
      operation in the slot of `a`. */
  predicate AfterCount(a: Side, e: Entry, b: Side) {
    && Busy(a) && HupPart(e, a.op.job.id)
    && a.log + [e] <= b.log && (forall i :: |a.log| < i < |b.log| ==> !b.log[i].Again?)
    && Inherits(Log(Clear(a), e), b)
  }

  /** The second callback of handleHup, through the slot as it is then. */
  lemma AgainStep(w: bool, a: Side, b: Side, e: Entry, r: int)
    requires AfterCount(a, e, b) && SideRan(w, a, b)
    ensures SideRan(w, a, Log(b, Again(a.op.job.id, r, b.op.job.id)))
  {
    var g := Again(a.op.job.id, r, b.op.job.id);
    AgainTold(w, b, Log(b, g), g);
    SideToldTrans(w, a, b, Log(b, g));
    if Books(a) {
      AgainFits(a, b, e);
      AgainBooks(b, Log(b, g), g);
    }
  }

  lemma AgainTold(w: bool, a: Side, b: Side, g: Entry)
    requires g.Again? && b == Log(a, g)
    ensures SideTold(w, a, b)
  {
    AppendedEnds(a.log, g, a.op.job.id);
    if Sound(w, a) {
      Unit(Pending(a));
      SoundBeside(w, a, b, g);
    }
  }

  lemma AgainBooks(a: Side, b: Side, g: Entry)
    requires g.Again? && b == Log(a, g)
    requires NotAgain(a.log, g.of) && exists c: nat :: SecondFits(a.log, g.of, g.to, c)
    ensures Books(a) ==> Books(b)
  {
    assert b.log[..|b.log| - 1] == a.log;
    if Books(a) {
      BooksAppend(a, b, g);
    }
  }

  lemma AgainFits(a: Side, b: Side, e: Entry)
    requires AfterCount(a, e, b) && Books(a)
    ensures NotAgain(b.log, a.op.job.id) && SecondFits(b.log, a.op.job.id, b.op.job.id, |a.log|)
  {
    var id := a.op.job.id;
    assert EndsOf(a.log, id) + UnderwayOf(a, id) == Begun(a.log, id);
    if !NotAgain(a.log, id) {
      AgainAfterEnd(a.log, id);
    }
    assert b.log[|a.log|] == e;
    forall i | 0 <= i < |b.log| && b.log[i].Again? ensures b.log[i].of != id {
      assert i < |a.log| && b.log[i] == a.log[i];
    }
  }
}
