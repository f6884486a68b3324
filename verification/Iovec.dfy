/** The scatter/gather cursor of `readvAll` and `writevAll`: after each partial transfer
    the iovec array is edited in place so that it names what is left. */
module Iovec {
  import opened Kernel

  datatype IoVec = IoVec(base: nat, len: nat)

  /** The memory cells an iovec list names, in transfer order. */
  function Cells(v: seq<IoVec>): seq<nat> {
    if v == [] then [] else Range(v[0]) + Cells(v[1..])
  }

  function Range(e: IoVec): seq<nat> {
    seq(e.len, i requires 0 <= i => e.base + i)
  }

  /** The cursor after `r` more bytes: completed entries are dropped (also empty ones),
      and the first one left is shortened from the front. */
  function Advanced(v: seq<IoVec>, r: nat): seq<IoVec> {
    if v == [] then
      []
    else if v[0].len <= r then
      Advanced(v[1..], r - v[0].len)
    else
      [IoVec(v[0].base + r, v[0].len - r)] + v[1..]
  }

  /** The cursor names exactly the cells not transferred yet, in order, and its first
      entry is never empty. */
  lemma {:induction false} AdvancedCells(v: seq<IoVec>, r: nat)
    requires r <= |Cells(v)|
    ensures Cells(Advanced(v, r)) == Cells(v)[r..]
    ensures Advanced(v, r) != [] ==> Advanced(v, r)[0].len > 0
    decreases |v|
  {
    if v != [] {
      assert [v[0]] + v[1..] == v;
      assert |Range(v[0])| == v[0].len;
      if v[0].len <= r {
        DroppedCells(v[0], r, v[1..]);
        AdvancedCells(v[1..], r - v[0].len);
      } else {
        ShortenedCells(v[0], r, v[1..]);
      }
    }
  }

  lemma DroppedCells(e: IoVec, r: nat, rest: seq<IoVec>)
    requires e.len <= r <= |Cells([e] + rest)|
    ensures |Cells([e] + rest)| == e.len + |Cells(rest)|
    ensures Cells([e] + rest)[r..] == Cells(rest)[r - e.len..]
  {
    assert ([e] + rest)[1..] == rest;
  }

  lemma ShortenedCells(e: IoVec, r: nat, rest: seq<IoVec>)
    requires r < e.len
    ensures Cells([IoVec(e.base + r, e.len - r)] + rest) == Cells([e] + rest)[r..]
  {
    var head := IoVec(e.base + r, e.len - r);
    assert ([head] + rest)[1..] == rest && ([e] + rest)[1..] == rest;
    assert Range(head) == Range(e)[r..];
  }

  function Sum(rs: seq<nat>): nat {
    if rs == [] then 0 else rs[0] + Sum(rs[1..])
  }

  /** The cursor after a sequence of partial transfers. */
  function AdvancedAll(v: seq<IoVec>, rs: seq<nat>): seq<IoVec>
    decreases |rs|
  {
    if rs == [] then v else AdvancedAll(Advanced(v, rs[0]), rs[1..])
  }

  /** However a transfer is cut into pieces, the cursor depends only on the total. */
  lemma {:induction false} AdvancedAllCells(v: seq<IoVec>, rs: seq<nat>)
    requires Sum(rs) <= |Cells(v)|
    ensures Cells(AdvancedAll(v, rs)) == Cells(v)[Sum(rs)..]
    decreases |rs|
  {
    if rs != [] {
      AdvancedCells(v, rs[0]);
      AdvancedAllCells(Advanced(v, rs[0]), rs[1..]);
      assert Cells(v)[rs[0]..][Sum(rs[1..])..] == Cells(v)[Sum(rs)..];
    }
  }

  /** What readv does to memory: the bytes go to the cells in order. */
  function Scatter(mem: seq<byte>, cells: seq<nat>, bytes: seq<byte>): (mem': seq<byte>)
    requires |bytes| <= |cells| && forall i :: 0 <= i < |cells| ==> cells[i] < |mem|
    ensures |mem'| == |mem|
    decreases |bytes|
  {
    if bytes == [] then mem else Scatter(mem[cells[0] := bytes[0]], cells[1..], bytes[1..])
  }

  /** What writev takes from memory. */
  function Gather(mem: seq<byte>, cells: seq<nat>): (bytes: seq<byte>)
    requires forall i :: 0 <= i < |cells| ==> cells[i] < |mem|
    ensures |bytes| == |cells|
    ensures forall i :: 0 <= i < |cells| ==> bytes[i] == mem[cells[i]]
  {
    seq(|cells|, i requires 0 <= i < |cells| => mem[cells[i]])
  }

  predicate InMemory(v: seq<IoVec>, size: nat) {
    forall i :: 0 <= i < |Cells(v)| ==> Cells(v)[i] < size
  }

  /** Two transfers through the cursor are one transfer of both. */
  lemma {:induction false} ScatterTwice(mem: seq<byte>, cells: seq<nat>, x: seq<byte>, y: seq<byte>)
    requires |x| + |y| <= |cells| && forall i :: 0 <= i < |cells| ==> cells[i] < |mem|
    ensures Scatter(Scatter(mem, cells, x), cells[|x|..], y) == Scatter(mem, cells, x + y)
    decreases |x|
  {
    if x == [] {
      assert [] + y == y && cells[0..] == cells;
    } else {
      assert (x + y)[1..] == x[1..] + y;
      assert cells[1..][|x[1..]|..] == cells[|x|..];
      ScatterTwice(mem[cells[0] := x[0]], cells[1..], x[1..], y);
    }
  }

  /** Cells outside the transferred prefix keep their contents. */
  lemma {:induction false} ScatterFrame(mem: seq<byte>, cells: seq<nat>, bytes: seq<byte>, c: nat)
    requires |bytes| <= |cells| && forall i :: 0 <= i < |cells| ==> cells[i] < |mem|
    requires c < |mem| && c !in cells[..|bytes|]
    ensures Scatter(mem, cells, bytes)[c] == mem[c]
    decreases |bytes|
  {
    if bytes != [] {
      assert cells[0] in cells[..|bytes|];
      assert forall i :: 0 <= i < |bytes| - 1 ==> cells[1..][i] == cells[..|bytes|][i + 1];
      ScatterFrame(mem[cells[0] := bytes[0]], cells[1..], bytes[1..], c);
    }
  }

  predicate Distinct(cells: seq<nat>) {
    forall i, j :: 0 <= i < j < |cells| ==> cells[i] != cells[j]
  }

  /** With regions that do not overlap, the k-th byte ends up in the k-th cell. */
  lemma {:induction false} ScatterLands(mem: seq<byte>, cells: seq<nat>, bytes: seq<byte>, k: nat)
    requires |bytes| <= |cells| && forall i :: 0 <= i < |cells| ==> cells[i] < |mem|
    requires Distinct(cells) && k < |bytes|
    ensures Scatter(mem, cells, bytes)[cells[k]] == bytes[k]
    decreases |bytes|
  {
    var mem1 := mem[cells[0] := bytes[0]];
    if k == 0 {
      ScatterFrame(mem1, cells[1..], bytes[1..], cells[0]);
    } else {
      assert Distinct(cells[1..]);
      ScatterLands(mem1, cells[1..], bytes[1..], k - 1);
    }
  }

  function Concat(chunks: seq<seq<byte>>): seq<byte> {
    if chunks == [] then [] else chunks[0] + Concat(chunks[1..])
  }

  /** Memory after a sequence of partial readv results through the cursor. */
  function Received(mem: seq<byte>, v: seq<IoVec>, chunks: seq<seq<byte>>): seq<byte>
    requires InMemory(v, |mem|) && |Concat(chunks)| <= |Cells(v)|
    decreases |chunks|
  {
    if chunks == [] then
      mem
    else
      AdvancedCells(v, |chunks[0]|);
      Received(Scatter(mem, Cells(v), chunks[0]), Advanced(v, |chunks[0]|), chunks[1..])
  }

  /** Whatever the cuts, `readvAll` fills the first n cells of the original regions with
      the n bytes received, in order. */
  lemma {:induction false} ReceivedInOrder(mem: seq<byte>, v: seq<IoVec>, chunks: seq<seq<byte>>)
    requires InMemory(v, |mem|) && |Concat(chunks)| <= |Cells(v)|
    ensures Received(mem, v, chunks) == Scatter(mem, Cells(v), Concat(chunks))
    decreases |chunks|
  {
    if chunks != [] {
      var n := |chunks[0]|;
      AdvancedCells(v, n);
      ReceivedInOrder(Scatter(mem, Cells(v), chunks[0]), Advanced(v, n), chunks[1..]);
      ScatterTwice(mem, Cells(v), chunks[0], Concat(chunks[1..]));
    }
  }

  /** The pieces a `writevAll` sends, one per partial transfer. */
  function Sent(mem: seq<byte>, v: seq<IoVec>, rs: seq<nat>): seq<byte>
    requires InMemory(v, |mem|) && Sum(rs) <= |Cells(v)|
    decreases |rs|
  {
    if rs == [] then
      []
    else
      AdvancedCells(v, rs[0]);
      Gather(mem, Cells(v)[..rs[0]]) + Sent(mem, Advanced(v, rs[0]), rs[1..])
  }

  /** Whatever the cuts, `writevAll` sends the first n bytes of the original regions. */
  lemma {:induction false} SentInOrder(mem: seq<byte>, v: seq<IoVec>, rs: seq<nat>)
    requires InMemory(v, |mem|) && Sum(rs) <= |Cells(v)|
    ensures Sent(mem, v, rs) == Gather(mem, Cells(v)[..Sum(rs)])
    decreases |rs|
  {
    if rs != [] {
      AdvancedCells(v, rs[0]);
      SentInOrder(mem, Advanced(v, rs[0]), rs[1..]);
      var rest := Cells(Advanced(v, rs[0]));
      assert Cells(v)[..Sum(rs)] == Cells(v)[..rs[0]] + rest[..Sum(rs[1..])];
    }
  }

  /** The `readWriteV` part of `OperationInfo`, with the memory the entries point into. */
  class Cursor {
    const iov: array<IoVec>
    const memory: array<byte>
    var at: nat               // how far the iov pointer has moved
    var iovcnt: nat
    var lenTotal: nat
    var lenDone: nat

    ghost predicate Valid()
      reads this, iov
    {
      && at + iovcnt == iov.Length
      && InMemory(Left(), memory.Length)
      && |Cells(Left())| + lenDone == lenTotal
    }

    /** The entries that are left. */
    ghost function Left(): seq<IoVec>
      requires at + iovcnt == iov.Length
      reads this, iov
    {
      iov[at..]
    }

    constructor (iov: array<IoVec>, memory: array<byte>)
      requires InMemory(iov[..], memory.Length)
      ensures Valid() && this.iov == iov && this.memory == memory
      ensures Left() == iov[..] && lenDone == 0 && lenTotal == |Cells(iov[..])|
    {
      this.iov, this.memory := iov, memory;
      at, iovcnt, lenDone := 0, iov.Length, 0;
      var total := BytesTotal(iov);
      lenTotal := total;
      new;
      assert iov[0..] == iov[..];
    }

    /** iovBytesTotal. */
    static method BytesTotal(iov: array<IoVec>) returns (total: nat)
      ensures total == |Cells(iov[..])|
    {
      total := 0;
      var i := 0;
      while i < iov.Length
        invariant 0 <= i <= iov.Length
        invariant total + |Cells(iov[i..])| == |Cells(iov[..])|
      {
        assert iov[i..][1..] == iov[i + 1..];
        total := total + iov[i].len;
        i := i + 1;
      }
    }

    /** The bookkeeping after readv or writev moved `n` bytes. */
    method Advance(n: nat)
      requires Valid() && n <= |Cells(Left())|
      modifies this, iov
      ensures Valid() && lenTotal == old(lenTotal) && lenDone == old(lenDone) + n
      ensures Left() == Advanced(old(Left()), n)
      ensures Cells(Left()) == old(Cells(Left()))[n..]
      ensures iovcnt > 0 ==> iov[at].len > 0
    {
      AdvancedCells(Left(), n);
      lenDone := lenDone + n;
      var r := n;
      ghost var goal := Advanced(Left(), n);
      while iovcnt > 0 && iov[at].len <= r
        invariant at + iovcnt == iov.Length && r >= 0
        invariant Advanced(Left(), r) == goal
        invariant iov[..] == old(iov[..])
        invariant lenTotal == old(lenTotal) && lenDone == old(lenDone) + n
      {
        assert Left()[1..] == iov[at + 1..];
        r := r - iov[at].len;
        at := at + 1;
        iovcnt := iovcnt - 1;
      }
      if iovcnt > 0 {
        TrimHead(r);
      }
    }

    /** The first `r` cells of the first entry are done. */
    method TrimHead(r: nat)
      requires at + iovcnt == iov.Length && iovcnt > 0 && r < iov[at].len
      modifies iov
      ensures Left() == [IoVec(old(Left()[0].base) + r, old(Left()[0].len) - r)] + old(Left()[1..])
    {
      ghost var rest := Left()[1..];
      iov[at] := IoVec(iov[at].base + r, iov[at].len - r);
      assert Left() == [iov[at]] + rest;
    }

    /** One successful readv of `chunk` on the cursor: the kernel fills the cells, then
        the cursor advances. */
    method Receive(chunk: seq<byte>)
      requires Valid() && |chunk| <= |Cells(Left())|
      modifies this, iov, memory
      ensures Valid() && lenTotal == old(lenTotal) && lenDone == old(lenDone) + |chunk|
      ensures Left() == Advanced(old(Left()), |chunk|)
      ensures memory[..] == Scatter(old(memory[..]), old(Cells(Left())), chunk)
    {
      ghost var cells := Cells(Left());
      Fill(iov[at..], chunk);
      Advance(|chunk|);
    }

    /** The kernel's copy into the cells that `v` names. */
    method Fill(v: seq<IoVec>, chunk: seq<byte>)
      requires InMemory(v, memory.Length) && |chunk| <= |Cells(v)|
      modifies memory
      ensures memory[..] == Scatter(old(memory[..]), Cells(v), chunk)
    {
      var cells := Cells(v);
      ghost var goal := Scatter(memory[..], cells, chunk);
      var i := 0;
      while i < |chunk|
        invariant 0 <= i <= |chunk|
        invariant Scatter(memory[..], cells[i..], chunk[i..]) == goal
      {
        ghost var mem := memory[..];
        assert cells[i..][1..] == cells[i + 1..] && chunk[i..][1..] == chunk[i + 1..];
        memory[cells[i]] := chunk[i];
        assert memory[..] == mem[cells[i] := chunk[i]];
        i := i + 1;
      }
    }
  }
}
