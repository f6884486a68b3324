/** The kernel's end of one direction of a nonblocking stream descriptor, as the
    library sees it through read/write-like calls and edge-triggered epoll.

    One `End` serves either direction. On a read side `stream` is everything that ever
    arrived and `pos` how much of it calls have taken; on a write side `stream` is
    everything calls ever wrote and `space` the room that is left. `edge` is an epoll
    edge nobody has collected yet, `due` an edge that sits in a collected batch and has
    not been handed to `doOperation` yet. */
module Kernel {

  newtype byte = b: int | 0 <= b < 256

  /** What the kernel answers once nothing more can be moved: try again, end of
      stream, or a permanent error. */
  datatype Stop = Open | Eof | Fail

  /** What other parties do to the descriptor, at any moment. */
  datatype Event =
    | Arrive(bytes: seq<byte>)
    | Free(n: nat)
    | HangUp
    | Break

  /** The (buf, len) argument of a call: the bytes to write, or the room to read into. */
  datatype Request = Request(data: seq<byte>, len: nat)

  datatype RawEnd = End(
    stream: seq<byte>,
    pos: nat,
    space: nat,
    stop: Stop,
    armed: bool,          // registered with EPOLLIN | EPOLLOUT | EPOLLET
    edge: bool,
    due: bool,
    env: seq<seq<Event>>, // what will happen right before each of the next calls
    attempts: nat)        // how many calls were made

  /** A stream that stopped has no room left. */
  type End = k: RawEnd | k.pos <= |k.stream| && (k.stop != Open ==> k.space == 0)
    witness End([], 0, 0, Open, false, false, false, [], 0)

  function Min(a: nat, b: nat): nat {
    if a < b then a else b
  }

  function Want(w: bool, req: Request): nat {
    if w then |req.data| else req.len
  }

  /** The request that is left of `req` after `n` bytes were moved. */
  function Rest(req: Request, n: nat): Request {
    Request(req.data[Min(n, |req.data|)..], req.len - Min(n, req.len))
  }

  function Avail(w: bool, k: End): nat {
    if w then k.space else |k.stream| - k.pos
  }

  /** The bytes calls have moved through this side so far. */
  function Moved(w: bool, k: End): seq<byte> {
    if w then k.stream else k.stream[..k.pos]
  }

  /** One kernel event. Nothing changes after end of stream or a permanent error. */
  function Raise(w: bool, k: End, e: Event): End {
    if k.stop != Open then
      k
    else
      match e
      case Arrive(bytes) =>
        if w then k else k.(stream := k.stream + bytes, edge := k.edge || k.armed)
      case Free(n) => k.(space := k.space + n, edge := k.edge || k.armed)
      case HangUp => k.(stop := Eof, space := 0, edge := k.edge || k.armed)
      case Break => k.(stop := Fail, space := 0, edge := k.edge || k.armed)
  }

  function RaiseAll(w: bool, k: End, events: seq<Event>): End
    decreases |events|
  {
    if events == [] then k else RaiseAll(w, Raise(w, k, events[0]), events[1..])
  }

  /** Everything that happens between the previous call and the next one. */
  function Tick(w: bool, k: End): End {
    if k.env == [] then k else RaiseAll(w, k.(env := k.env[1..]), k.env[0])
  }

  /** Result of one call: the new kernel end, the bytes moved, the returned number,
      and whether a negative number meant EAGAIN. */
  datatype Outcome = Outcome(k: End, chunk: seq<byte>, r: int, again: bool)

  /** A nonblocking read(2)/write(2)/recv(2)/send(2)/readv(2)/writev(2) on a stream. */
  function Syscall(w: bool, k: End, req: Request): Outcome {
    var n := Min(Want(w, req), Avail(w, k));
    var k1 := k.(attempts := k.attempts + 1);
    if n > 0 then
      if w then
        Outcome(k1.(space := k.space - n, stream := k.stream + req.data[..n]), req.data[..n], n, false)
      else
        Outcome(k1.(pos := k.pos + n), k.stream[k.pos..k.pos + n], n, false)
    else if Want(w, req) == 0 then
      Outcome(k1, [], 0, false)
    else
      Outcome(k1, [], if k.stop == Eof then 0 else -1, k.stop == Open)
  }

  /** One call made by the library: the environment moves first. */
  function Attempt(w: bool, k: End, req: Request): Outcome {
    Syscall(w, Tick(w, k), req)
  }

  /** EPOLL_CTL_ADD: a descriptor that is ready when added reports an edge at once. */
  function Arm(w: bool, k: End): End {
    if k.armed then k else k.(armed := true, edge := Avail(w, k) > 0 || k.stop != Open)
  }

  /** EPOLL_CTL_DEL, after the batch entries of the descriptor were cleared. */
  function Disarm(k: End): End {
    k.(armed := false, edge := false, due := false)
  }

  /** A stream descriptor is served: either nothing can be moved, or an edge for it
      is on its way. Descriptors outside epoll are not watched. */
  predicate Served(w: bool, k: End) {
    !k.armed || Avail(w, k) == 0 || k.edge || k.due
  }

  /** How the data of a kernel end may change: bytes are only added, in order, and none
      once the stream has stopped. */
  predicate Flows(k: End, k': End) {
    && k.stream <= k'.stream
    && k.pos <= k'.pos
    && (k.stop != Open ==> k'.stop == k.stop && k'.stream == k.stream)
  }

  /** How a kernel end may change while the program runs outside `epoll_wait`. */
  predicate Evolves(w: bool, k: End, k': End) {
    && Flows(k, k')
    && (Served(w, k) ==> Served(w, k'))
    && (k'.due ==> k.due)
  }

  lemma EvolvesTrans(w: bool, a: End, b: End, c: End)
    requires Evolves(w, a, b) && Evolves(w, b, c)
    ensures Evolves(w, a, c)
  {
  }

  lemma RaiseEvolves(w: bool, k: End, e: Event)
    ensures Evolves(w, k, Raise(w, k, e))
    ensures Moved(w, Raise(w, k, e)) == Moved(w, k) && Raise(w, k, e).env == k.env
  {
  }

  lemma ArmEvolves(w: bool, k: End)
    ensures Evolves(w, k, Arm(w, k)) && Evolves(w, k, Disarm(k))
    ensures Moved(w, Arm(w, k)) == Moved(w, k) == Moved(w, Disarm(k))
  {
  }

  lemma {:induction false} RaiseAllEvolves(w: bool, k: End, events: seq<Event>)
    ensures Evolves(w, k, RaiseAll(w, k, events))
    ensures Moved(w, RaiseAll(w, k, events)) == Moved(w, k) && RaiseAll(w, k, events).env == k.env
    ensures RaiseAll(w, k, events).attempts == k.attempts
    decreases |events|
  {
    if events != [] {
      RaiseEvolves(w, k, events[0]);
      RaiseAllEvolves(w, Raise(w, k, events[0]), events[1..]);
      EvolvesTrans(w, k, Raise(w, k, events[0]), RaiseAll(w, k, events));
    }
  }

  lemma TickEvolves(w: bool, k: End)
    ensures Evolves(w, k, Tick(w, k)) && Moved(w, Tick(w, k)) == Moved(w, k)
    ensures if k.env == [] then Tick(w, k) == k else |Tick(w, k).env| < |k.env|
    ensures Tick(w, k).attempts == k.attempts
  {
    if k.env != [] {
      RaiseAllEvolves(w, k.(env := k.env[1..]), k.env[0]);
    }
  }

  /** While a stream stays open its room only grows. */
  lemma {:induction false} OpenGrows(k: End, events: seq<Event>)
    requires RaiseAll(true, k, events).stop == Open
    ensures k.stop == Open && RaiseAll(true, k, events).space >= k.space
    decreases |events|
  {
    if events != [] {
      OpenGrows(Raise(true, k, events[0]), events[1..]);
    }
  }

  /** What events do to a stream does not depend on edges and batches. */
  lemma {:induction false} EdgesAside(w: bool, k: End, k': End, events: seq<Event>)
    requires k' == k.(edge := k'.edge, due := k'.due)
    ensures var a, b := RaiseAll(w, k, events), RaiseAll(w, k', events);
      b == a.(edge := b.edge, due := b.due)
    decreases |events|
  {
    if events != [] {
      EdgesAside(w, Raise(w, k, events[0]), Raise(w, k', events[0]), events[1..]);
    }
  }

  /** The stream contract of one call: it moves a prefix of what it was asked to move,
      the returned number is that prefix's length, a short transfer and EAGAIN both
      mean the kernel side is exhausted, and 0 or -1 for a nonempty request means the
      stream has stopped and nothing is left. */
  predicate Honest(w: bool, k: End, req: Request, a: Outcome) {
    && Evolves(w, k, a.k)
    && Moved(w, a.k) == Moved(w, k) + a.chunk
    && |a.chunk| <= Want(w, req)
    && (w ==> a.chunk <= req.data)
    && (a.chunk != [] ==> a.r == |a.chunk|)
    && (a.chunk == [] ==> a.r <= 0)
    && (Want(w, req) == 0 ==> a.r == 0 && !a.again)
    && (|a.chunk| < Want(w, req) ==> Avail(w, a.k) == 0)
    && (a.again ==> a.r == -1 && a.chunk == [] && a.k.stop == Open && Avail(w, a.k) == 0)
    && (a.r <= 0 && !a.again && Want(w, req) > 0 ==>
          a.k.stop != Open && a.r == if a.k.stop == Fail then -1 else 0)
  }

  lemma SyscallHonest(w: bool, k: End, req: Request)
    ensures Honest(w, k, req, Syscall(w, k, req))
  {
    var a := Syscall(w, k, req);
    if !w {
      assert a.k.stream[..a.k.pos] == k.stream[..k.pos] + a.chunk;
    }
  }

  lemma AttemptHonest(w: bool, k: End, req: Request)
    ensures Honest(w, k, req, Attempt(w, k, req))
  {
    TickEvolves(w, k);
    SyscallHonest(w, Tick(w, k), req);
    EvolvesTrans(w, k, Tick(w, k), Attempt(w, k, req).k);
  }

  /** Progress of a draining loop: a call either consumes an environment event or
      takes what it moved away from what is available. */
  lemma AttemptProgress(w: bool, k: End, req: Request)
    ensures var a := Attempt(w, k, req);
      if k.env == [] then a.k.env == [] && Avail(w, a.k) + |a.chunk| == Avail(w, k)
      else |a.k.env| < |k.env|
  {
    TickEvolves(w, k);
  }
}
