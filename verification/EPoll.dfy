/** The batch loop of `EPoll`: `run` walks the array `epoll_wait` filled while callbacks
    add and remove descriptors, and `remove` clears their entries in that array.

    Descriptors are numbers. What the read-side and the write-side callbacks of the n-th
    dispatch do is the n-th entry of a script. */
module EPollLoop {

  type Fd = nat

  /** `data.ptr` and `events` of an entry; a cleared entry has a null pointer. */
  datatype Note = Null | Note(fd: Fd)

  datatype Command = Add(fd: Fd) | Remove(fd: Fd)

  datatype Script = Script(onRead: seq<Command>, onWrite: seq<Command>)

  /** What happened: a descriptor's read side, then its write side, was handed events. */
  datatype Handled = ReadSide(fd: Fd) | WriteSide(fd: Fd)

  /** Batch, interest set, and history. */
  datatype Loop = Loop(notes: seq<Note>, registered: set<Fd>, scripts: seq<Script>, log: seq<Handled>)

  function Cleared(notes: seq<Note>, fd: Fd): (cleared: seq<Note>)
    ensures |cleared| == |notes|
  {
    seq(|notes|, i requires 0 <= i < |notes| => if notes[i] == Note(fd) then Null else notes[i])
  }

  /** add and remove; adding twice or removing an unknown descriptor throws, after the
      batch was searched. */
  function Exec(s: Loop, c: Command): Loop {
    match c
    case Add(fd) => s.(registered := s.registered + {fd})
    case Remove(fd) => s.(registered := s.registered - {fd}, notes := Cleared(s.notes, fd))
  }

  function ExecAll(s: Loop, commands: seq<Command>): (t: Loop)
    ensures |t.notes| == |s.notes| && t.scripts == s.scripts && t.log == s.log
    decreases |commands|
  {
    if commands == [] then s else ExecAll(Exec(s, commands[0]), commands[1..])
  }

  function Head(scripts: seq<Script>): Script {
    if scripts == [] then Script([], []) else scripts[0]
  }

  function Tail(scripts: seq<Script>): seq<Script> {
    if scripts == [] then [] else scripts[1..]
  }

  /** FD::dispatch of entry `i`: the read side runs, and the write side runs only if its
      callbacks did not clear the entry through the `events` reference. */
  function DispatchAt(s: Loop, i: nat): (t: Loop)
    requires i < |s.notes| && s.notes[i].Note?
    ensures |t.notes| == |s.notes|
  {
    var fd := s.notes[i].fd;
    var script := Head(s.scripts);
    var s1 := s.(scripts := Tail(s.scripts), log := s.log + [ReadSide(fd)]);
    var s2 := ExecAll(s1, script.onRead);
    if s2.notes[i].Null? then
      s2
    else
      ExecAll(s2.(log := s2.log + [WriteSide(fd)]), script.onWrite)
  }

  /** The rest of the loop from index `i`. */
  function RunFrom(s: Loop, i: nat): (t: Loop)
    requires i <= |s.notes|
    ensures |t.notes| == |s.notes|
    decreases |s.notes| - i
  {
    if i == |s.notes| then s else RunFrom(Visit(s, i), i + 1)
  }

  function Visit(s: Loop, i: nat): (t: Loop)
    requires i < |s.notes|
    ensures |t.notes| == |s.notes|
  {
    if s.notes[i].Note? then DispatchAt(s, i) else s
  }

  /** A visit uses up one entry of the script if it dispatches, and none otherwise. */
  lemma VisitTakesScript(s: Loop, i: nat)
    requires i < |s.notes|
    ensures Visit(s, i).scripts == if s.notes[i] == Null || s.scripts == [] then s.scripts else s.scripts[1..]
  {
  }

  /** Every pointer in the batch names a registered descriptor, each at most once. */
  predicate Safe(s: Loop) {
    && (forall i :: 0 <= i < |s.notes| && s.notes[i].Note? ==> s.notes[i].fd in s.registered)
    && (forall i, j :: 0 <= i < j < |s.notes| && s.notes[i].Note? ==> s.notes[i] != s.notes[j])
  }

  /** The batch only loses entries. */
  predicate Fewer(s: Loop, t: Loop) {
    && |t.notes| == |s.notes|
    && forall i :: 0 <= i < |s.notes| ==> t.notes[i] == s.notes[i] || t.notes[i] == Null
  }

  lemma {:induction false} ExecAllSafe(s: Loop, commands: seq<Command>)
    requires Safe(s)
    ensures Safe(ExecAll(s, commands)) && Fewer(s, ExecAll(s, commands))
    decreases |commands|
  {
    if commands != [] {
      ExecAllSafe(Exec(s, commands[0]), commands[1..]);
    }
  }

  /** Whatever callbacks do, visiting an entry leaves a safe batch. */
  lemma VisitSafe(s: Loop, i: nat)
    requires Safe(s) && i < |s.notes|
    ensures Safe(Visit(s, i)) && Fewer(s, Visit(s, i))
  {
    if s.notes[i].Note? {
      var script := Head(s.scripts);
      var s1 := s.(scripts := Tail(s.scripts), log := s.log + [ReadSide(s.notes[i].fd)]);
      var s2 := ExecAll(s1, script.onRead);
      ExecAllSafe(s1, script.onRead);
      if s2.notes[i].Note? {
        ExecAllSafe(s2.(log := s2.log + [WriteSide(s.notes[i].fd)]), script.onWrite);
      }
    }
  }

  /** The state in which entry `i` is reached. */
  function Before(s: Loop, i: nat): (t: Loop)
    requires i <= |s.notes|
    ensures |t.notes| == |s.notes|
  {
    if i == 0 then s else Visit(Before(s, i - 1), i - 1)
  }

  lemma {:induction false} RunIsVisits(s: Loop, i: nat)
    requires i <= |s.notes|
    ensures RunFrom(s, 0) == RunFrom(Before(s, i), i)
  {
    if i > 0 {
      RunIsVisits(s, i - 1);
    }
  }

  lemma {:induction false} BeforeSafe(s: Loop, i: nat)
    requires Safe(s) && i <= |s.notes|
    ensures Safe(Before(s, i)) && Fewer(s, Before(s, i))
  {
    if i > 0 {
      BeforeSafe(s, i - 1);
      VisitSafe(Before(s, i - 1), i - 1);
    }
  }

  /** Descriptors whose read side was handed events, in order. */
  function Reads(log: seq<Handled>): seq<Fd> {
    if log == [] then []
    else Reads(log[..|log| - 1]) + if log[|log| - 1].ReadSide? then [log[|log| - 1].fd] else []
  }

  function Writes(log: seq<Handled>): seq<Fd> {
    if log == [] then []
    else Writes(log[..|log| - 1]) + if log[|log| - 1].WriteSide? then [log[|log| - 1].fd] else []
  }

  lemma LogOne(log: seq<Handled>, h: Handled)
    ensures Reads(log + [h]) == Reads(log) + if h.ReadSide? then [h.fd] else []
    ensures Writes(log + [h]) == Writes(log) + if h.WriteSide? then [h.fd] else []
  {
    assert (log + [h])[..|log|] == log;
  }

  /** Whether `fd` is removed by a command list. */
  predicate Removes(commands: seq<Command>, fd: Fd) {
    Command.Remove(fd) in commands
  }

  /** An entry is gone after a command list exactly when its descriptor was removed. */
  lemma {:induction false} GoneIffRemoved(s: Loop, commands: seq<Command>, i: nat)
    requires i < |s.notes| && s.notes[i].Note?
    ensures ExecAll(s, commands).notes[i] == if Removes(commands, s.notes[i].fd) then Null else s.notes[i]
    decreases |commands|
  {
    if commands != [] {
      var s1 := Exec(s, commands[0]);
      if s1.notes[i].Note? {
        GoneIffRemoved(s1, commands[1..], i);
      } else {
        StaysNull(s1, commands[1..], i);
      }
      assert commands == [commands[0]] + commands[1..];
    }
  }

  lemma {:induction false} StaysNull(s: Loop, commands: seq<Command>, i: nat)
    requires i < |s.notes| && s.notes[i] == Null
    ensures ExecAll(s, commands).notes[i] == Null
    decreases |commands|
  {
    if commands != [] {
      StaysNull(Exec(s, commands[0]), commands[1..], i);
    }
  }

  /** Removal inside the read callback suppresses the same descriptor's write side, and
      nothing else does. */
  lemma RemovalSuppressesWrite(s: Loop, i: nat)
    requires i < |s.notes| && s.notes[i].Note?
    ensures var fd := s.notes[i].fd;
      Writes(DispatchAt(s, i).log) == Writes(s.log) + if Removes(Head(s.scripts).onRead, fd) then [] else [fd]
  {
    var fd := s.notes[i].fd;
    GoneIffRemoved(s.(scripts := Tail(s.scripts), log := s.log + [ReadSide(fd)]), Head(s.scripts).onRead, i);
    LogOne(s.log, ReadSide(fd));
    LogOne(s.log + [ReadSide(fd)], WriteSide(fd));
  }

  predicate Absent(notes: seq<Note>, fd: Fd) {
    forall i :: 0 <= i < |notes| ==> notes[i] != Note(fd)
  }

  lemma {:induction false} RemovedAbsent(s: Loop, commands: seq<Command>, fd: Fd)
    requires Removes(commands, fd)
    ensures Absent(ExecAll(s, commands).notes, fd)
  {
    forall i | 0 <= i < |s.notes| ensures ExecAll(s, commands).notes[i] != Note(fd) {
      if s.notes[i].Note? {
        GoneIffRemoved(s, commands, i);
      } else {
        StaysNull(s, commands, i);
      }
    }
  }

  /** The commands that visiting entry `i` runs. */
  function Ran(s: Loop, i: nat): seq<Command>
    requires i < |s.notes| && s.notes[i].Note?
  {
    var script := Head(s.scripts);
    if Removes(script.onRead, s.notes[i].fd) then script.onRead else script.onRead + script.onWrite
  }

  lemma {:induction false} ExecAllFewer(s: Loop, commands: seq<Command>)
    ensures Fewer(s, ExecAll(s, commands))
    decreases |commands|
  {
    if commands != [] {
      ExecAllFewer(Exec(s, commands[0]), commands[1..]);
    }
  }

  lemma VisitRemoves(s: Loop, i: nat, fd: Fd)
    requires i < |s.notes| && s.notes[i].Note? && Removes(Ran(s, i), fd)
    ensures Absent(Visit(s, i).notes, fd)
  {
    var script := Head(s.scripts);
    var me := s.notes[i].fd;
    var s1 := s.(scripts := Tail(s.scripts), log := s.log + [ReadSide(me)]);
    GoneIffRemoved(s1, script.onRead, i);
    if Removes(script.onRead, fd) {
      RemovedAbsent(s1, script.onRead, fd);
      var s2 := ExecAll(s1, script.onRead);
      ExecAllFewer(s2.(log := s2.log + [WriteSide(me)]), script.onWrite);
    } else {
      var s2 := ExecAll(s1, script.onRead);
      RemovedAbsent(s2.(log := s2.log + [WriteSide(me)]), script.onWrite, fd);
    }
  }

  lemma VisitFewer(s: Loop, i: nat)
    requires i < |s.notes|
    ensures Fewer(s, Visit(s, i))
  {
    if s.notes[i].Note? {
      var script := Head(s.scripts);
      var s1 := s.(scripts := Tail(s.scripts), log := s.log + [ReadSide(s.notes[i].fd)]);
      var s2 := ExecAll(s1, script.onRead);
      ExecAllFewer(s1, script.onRead);
      ExecAllFewer(s2.(log := s2.log + [WriteSide(s.notes[i].fd)]), script.onWrite);
    }
  }

  /** A descriptor removed while entry `i` is handled is not dispatched later in the same
      batch, even if it is added again. */
  lemma {:induction false} RemovedNeverDispatched(s: Loop, i: nat, fd: Fd, j: nat)
    requires i < j <= |s.notes|
    requires Before(s, i).notes[i].Note? && Removes(Ran(Before(s, i), i), fd)
    ensures Absent(Before(s, j).notes, fd)
    decreases j
  {
    if j == i + 1 {
      VisitRemoves(Before(s, i), i, fd);
    } else {
      RemovedNeverDispatched(s, i, fd, j - 1);
      VisitFewer(Before(s, j - 1), j - 1);
    }
  }

  /** None of the commands that ran while the first `n` entries were visited removes `fd`. */
  predicate Spared(s: Loop, n: nat, fd: Fd)
    requires n <= |s.notes|
  {
    forall j :: 0 <= j < n && Before(s, j).notes[j].Note? ==> !Removes(Ran(Before(s, j), j), fd)
  }

  /** Visiting entry `i` clears another entry exactly when a command that runs removes it. */
  lemma VisitClears(s: Loop, i: nat, k: nat)
    requires i < |s.notes| && s.notes[i].Note? && k < |s.notes| && s.notes[k].Note?
    ensures Visit(s, i).notes[k] == if Removes(Ran(s, i), s.notes[k].fd) then Null else s.notes[k]
  {
    var script := Head(s.scripts);
    var s1 := s.(scripts := Tail(s.scripts), log := s.log + [ReadSide(s.notes[i].fd)]);
    var s2 := ExecAll(s1, script.onRead);
    GoneIffRemoved(s1, script.onRead, i);
    GoneIffRemoved(s1, script.onRead, k);
    if s2.notes[i].Note? {
      var s3 := s2.(log := s2.log + [WriteSide(s.notes[i].fd)]);
      if s2.notes[k].Note? {
        GoneIffRemoved(s3, script.onWrite, k);
      } else {
        StaysNull(s3, script.onWrite, k);
      }
    }
  }

  /** An entry is still there when the loop gets to it exactly when nothing that ran before
      removed its descriptor. */
  lemma {:induction false} EntrySurvives(s: Loop, n: nat, i: nat)
    requires n <= i < |s.notes| && s.notes[i].Note?
    ensures Before(s, n).notes[i] == if Spared(s, n, s.notes[i].fd) then s.notes[i] else Null
    decreases n
  {
    if n > 0 {
      EntrySurvives(s, n - 1, i);
      var b := Before(s, n - 1);
      VisitFewer(b, n - 1);
      if b.notes[n - 1].Note? && b.notes[i].Note? {
        VisitClears(b, n - 1, i);
      }
    }
  }

  lemma {:induction false} NullSurvives(s: Loop, n: nat, i: nat)
    requires n <= |s.notes| && i < |s.notes| && s.notes[i] == Null
    ensures Before(s, n).notes[i] == Null
    decreases n
  {
    if n > 0 {
      NullSurvives(s, n - 1, i);
      VisitFewer(Before(s, n - 1), n - 1);
    }
  }

  /** The descriptors among the first `n` entries that no command removed before their
      turn, in batch order. */
  function Unremoved(s: Loop, n: nat): seq<Fd>
    requires n <= |s.notes|
  {
    if n == 0 then []
    else
      var note := s.notes[n - 1];
      Unremoved(s, n - 1) + if note.Note? && Spared(s, n - 1, note.fd) then [note.fd] else []
  }

  /** Batch fairness: the entries visited so far were dispatched once each and in batch
      order, exactly those whose descriptor no command had removed. */
  lemma {:induction false} Fairness(s: Loop, n: nat)
    requires n <= |s.notes| && s.log == []
    ensures Reads(Before(s, n).log) == Unremoved(s, n)
  {
    if n > 0 {
      Fairness(s, n - 1);
      if s.notes[n - 1].Note? {
        EntrySurvives(s, n - 1, n - 1);
      } else {
        NullSurvives(s, n - 1, n - 1);
      }
      VisitReads(Before(s, n - 1), n - 1);
    }
  }

  /** A visit adds the descriptor of its entry to those that were dispatched. */
  lemma VisitReads(s: Loop, i: nat)
    requires i < |s.notes|
    ensures Reads(Visit(s, i).log) == Reads(s.log) + if s.notes[i].Note? then [s.notes[i].fd] else []
  {
    if s.notes[i].Note? {
      LogOne(s.log, ReadSide(s.notes[i].fd));
      LogOne(s.log + [ReadSide(s.notes[i].fd)], WriteSide(s.notes[i].fd));
    } else {
      assert Reads(s.log) + [] == Reads(s.log);
    }
  }

  /** The same of the whole loop; and every entry it dispatches names a descriptor that is
      registered at that moment. */
  lemma RunIsFairAndSafe(s: Loop)
    requires Safe(s) && s.log == []
    ensures Reads(RunFrom(s, 0).log) == Unremoved(s, |s.notes|)
    ensures Safe(RunFrom(s, 0))
    ensures forall i :: 0 <= i < |s.notes| && Before(s, i).notes[i].Note? ==>
              Before(s, i).notes[i] == s.notes[i] && s.notes[i].fd in Before(s, i).registered
  {
    Fairness(s, |s.notes|);
    RunIsVisits(s, |s.notes|);
    BeforeSafe(s, |s.notes|);
    forall i | 0 <= i < |s.notes| && Before(s, i).notes[i].Note?
      ensures Before(s, i).notes[i] == s.notes[i] && s.notes[i].fd in Before(s, i).registered
    {
      BeforeSafe(s, i);
    }
  }

  // ---- What commands do to the interest set. ----

  predicate Unnamed(commands: seq<Command>, fd: Fd) {
    forall i :: 0 <= i < |commands| ==> commands[i].fd != fd
  }

  /** The last command that names `fd` adds it. */
  predicate LastAdds(commands: seq<Command>, fd: Fd) {
    exists i :: 0 <= i < |commands| && commands[i] == Command.Add(fd) && Unnamed(commands[i + 1..], fd)
  }

  /** A descriptor is registered after a list of commands exactly when the last one that
      names it adds it, or none names it and it was registered before. */
  lemma {:induction false} InterestSet(s: Loop, commands: seq<Command>, fd: Fd)
    ensures fd in ExecAll(s, commands).registered <==>
            LastAdds(commands, fd) || (Unnamed(commands, fd) && fd in s.registered)
    decreases |commands|
  {
    if commands != [] {
      InterestSet(Exec(s, commands[0]), commands[1..], fd);
      NamedFirst(commands, fd);
    }
  }

  /** The first command decides only if no later one names the descriptor. */
  lemma NamedFirst(commands: seq<Command>, fd: Fd)
    requires commands != []
    ensures Unnamed(commands, fd) <==> commands[0].fd != fd && Unnamed(commands[1..], fd)
    ensures LastAdds(commands, fd) <==>
            LastAdds(commands[1..], fd) || (commands[0] == Command.Add(fd) && Unnamed(commands[1..], fd))
  {
    var rest := commands[1..];
    assert forall i :: 0 <= i < |rest| ==> rest[i] == commands[i + 1];
    assert forall i :: 0 < i < |commands| ==> commands[i] == rest[i - 1];
    if LastAdds(commands, fd) {
      var i :| 0 <= i < |commands| && commands[i] == Command.Add(fd) && Unnamed(commands[i + 1..], fd);
      if i > 0 {
        assert rest[i - 1] == Command.Add(fd) && rest[i - 1 + 1..] == commands[i + 1..];
      }
    }
    if LastAdds(rest, fd) {
      var i :| 0 <= i < |rest| && rest[i] == Command.Add(fd) && Unnamed(rest[i + 1..], fd);
      assert commands[i + 1] == Command.Add(fd) && commands[i + 1 + 1..] == rest[i + 1..];
    }
  }

  lemma {:induction false} ExecAllConcat(s: Loop, x: seq<Command>, y: seq<Command>)
    ensures ExecAll(s, x + y) == ExecAll(ExecAll(s, x), y)
    decreases |x|
  {
    if x == [] {
      assert x + y == y;
    } else {
      assert (x + y)[0] == x[0] && (x + y)[1..] == x[1..] + y;
      ExecAllConcat(Exec(s, x[0]), x[1..], y);
    }
  }

  /** Everything that ran while the first `n` entries were visited, in order. */
  function AllRan(s: Loop, n: nat): seq<Command>
    requires n <= |s.notes|
  {
    if n == 0 then []
    else AllRan(s, n - 1) + if Before(s, n - 1).notes[n - 1].Note? then Ran(Before(s, n - 1), n - 1) else []
  }

  /** Scripts and history do not matter to the interest set. */
  lemma {:induction false} SameInterest(s: Loop, t: Loop, commands: seq<Command>)
    requires s.registered == t.registered
    ensures ExecAll(s, commands).registered == ExecAll(t, commands).registered
    decreases |commands|
  {
    if commands != [] {
      SameInterest(Exec(s, commands[0]), Exec(t, commands[0]), commands[1..]);
    }
  }

  lemma VisitInterest(s: Loop, i: nat)
    requires i < |s.notes| && s.notes[i].Note?
    ensures Visit(s, i).registered == ExecAll(s, Ran(s, i)).registered
  {
    var fd := s.notes[i].fd;
    var script := Head(s.scripts);
    var s1 := s.(scripts := Tail(s.scripts), log := s.log + [ReadSide(fd)]);
    var s2 := ExecAll(s1, script.onRead);
    GoneIffRemoved(s1, script.onRead, i);
    SameInterest(s, s1, script.onRead);
    if s2.notes[i].Note? {
      ExecAllConcat(s, script.onRead, script.onWrite);
      SameInterest(ExecAll(s, script.onRead), s2.(log := s2.log + [WriteSide(fd)]), script.onWrite);
    }
  }

  lemma {:induction false} BeforeInterest(s: Loop, n: nat)
    requires n <= |s.notes|
    ensures Before(s, n).registered == ExecAll(s, AllRan(s, n)).registered
  {
    if n > 0 {
      BeforeInterest(s, n - 1);
      var b := Before(s, n - 1);
      if b.notes[n - 1].Note? {
        VisitInterest(b, n - 1);
        ExecAllConcat(s, AllRan(s, n - 1), Ran(b, n - 1));
        SameInterest(b, ExecAll(s, AllRan(s, n - 1)), Ran(b, n - 1));
      } else {
        assert AllRan(s, n) == AllRan(s, n - 1);
      }
    }
  }

  /** The interest set after a whole run of the loop, by the commands that ran. */
  lemma RunInterest(s: Loop, fd: Fd)
    ensures var ran := AllRan(s, |s.notes|);
      fd in RunFrom(s, 0).registered <==> LastAdds(ran, fd) || (Unnamed(ran, fd) && fd in s.registered)
  {
    RunIsVisits(s, |s.notes|);
    BeforeInterest(s, |s.notes|);
    InterestSet(s, AllRan(s, |s.notes|), fd);
  }

  const EVENTS_PER_CYCLE := 32

  class EPoll {
    const notes: array<Note>     // currCycleNotifications
    var count: int               // currCycleNotificationsCount
    var registered: set<Fd>      // the kernel's interest set
    var scripts: seq<Script>
    var log: seq<Handled>

    ghost predicate Valid()
      reads this
    {
      notes.Length == EVENTS_PER_CYCLE && 0 <= count <= EVENTS_PER_CYCLE
    }

    ghost function Snapshot(): Loop
      requires Valid()
      reads this, notes
    {
      Loop(notes[..count], registered, scripts, log)
    }

    constructor (scripts: seq<Script>)
      ensures Valid() && fresh(notes) && Snapshot() == Loop([], {}, scripts, [])
    {
      notes := new Note[EVENTS_PER_CYCLE](_ => Null);
      count, registered, log := 0, {}, [];
      this.scripts := scripts;
    }

    method Add(fd: Fd)
      requires Valid()
      modifies this
      ensures Valid() && count == old(count) && Snapshot() == Exec(old(Snapshot()), Command.Add(fd))
    {
      registered := registered + {fd};
    }

    method Remove(fd: Fd)
      requires Valid()
      modifies this, notes
      ensures Valid() && count == old(count) && Snapshot() == Exec(old(Snapshot()), Command.Remove(fd))
    {
      var i := 0;
      while i < count
        invariant count == old(count) && 0 <= i <= count && Valid()
        invariant forall j :: 0 <= j < i ==> notes[j] == if old(notes[j]) == Note(fd) then Null else old(notes[j])
        invariant forall j :: i <= j < count ==> notes[j] == old(notes[j])
        invariant registered == old(registered) && scripts == old(scripts) && log == old(log)
      {
        if notes[i] == Note(fd) {
          notes[i] := Null;
        }
        i := i + 1;
      }
      registered := registered - {fd};
      assert notes[..count] == Cleared(old(notes[..count]), fd);
    }

    method RunCommands(commands: seq<Command>)
      requires Valid()
      modifies this, notes
      ensures Valid() && count == old(count) && Snapshot() == ExecAll(old(Snapshot()), commands)
    {
      ghost var end := ExecAll(Snapshot(), commands);
      var i := 0;
      while i < |commands|
        invariant 0 <= i <= |commands| && Valid() && count == old(count)
        invariant ExecAll(Snapshot(), commands[i..]) == end
      {
        assert commands[i..][1..] == commands[i + 1..];
        match commands[i] {
          case Add(fd) => Add(fd);
          case Remove(fd) => Remove(fd);
        }
        i := i + 1;
      }
    }

    /** FD::dispatch with a reference to entry `i`. */
    method Dispatch(i: nat)
      requires Valid() && i < count && notes[i].Note?
      modifies this, notes
      ensures Valid() && count == old(count) && Snapshot() == DispatchAt(old(Snapshot()), i)
    {
      var fd := notes[i].fd;
      var script := Head(scripts);
      scripts, log := Tail(scripts), log + [ReadSide(fd)];
      RunCommands(script.onRead);
      if notes[i].Note? {
        log := log + [WriteSide(fd)];
        RunCommands(script.onWrite);
      }
    }

    /** One call of run: `ret` is what epoll_wait returned, `batch` what it wrote. A
        return of -1 (EINTR) is not an error. */
    method Run(ret: int, batch: seq<Note>)
      requires Valid() && count == 0
      requires ret == -1 || ret == |batch| <= EVENTS_PER_CYCLE
      modifies this, notes
      ensures Valid() && count == 0
      ensures ret == -1 ==> registered == old(registered) && scripts == old(scripts) && log == old(log)
      ensures ret >= 0 ==>
        var t := RunFrom(Loop(batch, old(registered), old(scripts), old(log)), 0);
        registered == t.registered && scripts == t.scripts && log == t.log
    {
      if ret >= 0 {
        Fill(batch);
      }
      count := ret;
      ghost var end := if ret >= 0 then RunFrom(Snapshot(), 0) else Loop([], registered, scripts, log);
      var i := 0;
      while i < count
        invariant count == ret && (ret >= 0 ==> Valid() && 0 <= i <= count && RunFrom(Snapshot(), i) == end)
        invariant ret < 0 ==> i == 0 && end == Loop([], registered, scripts, log)
      {
        if notes[i].Note? {
          Dispatch(i);
        }
        i := i + 1;
      }
      count := 0;
    }

    /** The kernel's copy of the ready events. */
    method Fill(batch: seq<Note>)
      requires Valid() && |batch| <= EVENTS_PER_CYCLE
      modifies notes
      ensures notes[..|batch|] == batch
    {
      var i := 0;
      while i < |batch|
        invariant 0 <= i <= |batch|
        invariant notes[..i] == batch[..i]
      {
        notes[i] := batch[i];
        i := i + 1;
      }
    }
  }
}
