/** `basic_string_builder`: a growable buffer whose sizes are 32-bit unsigned numbers.

    `Growth` is the arithmetic of the doubling loop, `Builder` the class. Sources never
    alias the buffer, and allocation succeeds. */
module Growth {

  const LIMIT := 0x1_0000_0000      // 2^32: sizes wrap here
  const MIN_CAPACITY := 256
  const MAX_SIZE := 0x4000_0000 - 2 // max_size()

  function Pow2(k: nat): nat {
    if k == 0 then 1 else 2 * Pow2(k - 1)
  }

  lemma {:induction false} Pow2Grows(j: nat, k: nat)
    requires j <= k
    ensures 0 < Pow2(j) <= Pow2(k)
    ensures j < k ==> 2 * Pow2(j) <= Pow2(k)
  {
    if j < k {
      Pow2Grows(j, k - 1);
    } else if j > 0 {
      Pow2Grows(j - 1, j - 1);
    }
  }

  /** A capacity is 0 or 256 times a power of two, and fits 32 bits. */
  predicate IsCapacity(c: nat) {
    c == 0 || exists k: nat :: k < 24 && c == MIN_CAPACITY * Pow2(k)
  }

  /** The variable of the loop after `n` rounds of `newCapacity *= 2`. */
  function Doubled(c: nat, n: nat): nat
    requires c < LIMIT
    ensures Doubled(c, n) < LIMIT
  {
    if n == 0 then c else 2 * Doubled(c, n - 1) % LIMIT
  }

  function Start(capacity: nat): nat {
    if capacity < MIN_CAPACITY then MIN_CAPACITY else capacity
  }

  lemma {:induction false} Pow2Add(j: nat, k: nat)
    ensures Pow2(j + k) == Pow2(j) * Pow2(k)
  {
    if j > 0 {
      Pow2Add(j - 1, k);
      assert 2 * (Pow2(j - 1) * Pow2(k)) == 2 * Pow2(j - 1) * Pow2(k);
    }
  }

  lemma Top()
    ensures Pow2(23) == 0x80_0000
  {
    assert Pow2(7) == 2 * Pow2(6) && Pow2(6) == 2 * Pow2(5) && Pow2(5) == 2 * Pow2(4);
    assert Pow2(4) == 2 * Pow2(3) && Pow2(3) == 2 * Pow2(2) && Pow2(2) == 2 * Pow2(1);
    Pow2Add(8, 8);
    Pow2Add(16, 7);
  }

  lemma CapacityTop(k: nat)
    requires k < 24
    ensures 0 < MIN_CAPACITY * Pow2(k) <= 0x8000_0000
    ensures k == 23 ==> MIN_CAPACITY * Pow2(k) == 0x8000_0000
    ensures k < 23 ==> 2 * (MIN_CAPACITY * Pow2(k)) == MIN_CAPACITY * Pow2(k + 1)
  {
    Top();
    Pow2Grows(0, k);
    Pow2Grows(k, 23);
  }

  /** One round of the loop, short of its target, does not wrap around. */
  lemma DoubleStep(c: nat, target: nat, k: nat)
    requires k < 24 && c == MIN_CAPACITY * Pow2(k) && c < target <= 0x8000_0000
    ensures k < 23 && 0 < c && c * 2 % LIMIT == 2 * c == MIN_CAPACITY * Pow2(k + 1)
    ensures Grown(2 * c, target) == Grown(c, target)
  {
    CapacityTop(k);
  }

  /** Rounds without wraparound: 256 * 2^k doubles up to 2^31, and then becomes 0 for
      good. */
  lemma {:induction false} DoubledIs(k: nat, n: nat)
    requires k < 24
    ensures MIN_CAPACITY * Pow2(k) < LIMIT
    ensures Doubled(MIN_CAPACITY * Pow2(k), n) == if k + n < 24 then MIN_CAPACITY * Pow2(k + n) else 0
  {
    CapacityTop(k);
    if n > 0 {
      DoubledIs(k, n - 1);
      if k + n <= 24 {
        Doubling(k + n - 1);
      }
    }
  }

  /** One round more, wrapping around. */
  lemma Doubling(m: nat)
    requires m < 24
    ensures 2 * (MIN_CAPACITY * Pow2(m)) % LIMIT == if m < 23 then MIN_CAPACITY * Pow2(m + 1) else 0
  {
    CapacityTop(m);
    if m < 23 {
      CapacityTop(m + 1);
    }
  }

  /** Whether the loop `while(newCapacity < target) newCapacity *= 2` ever stops. */
  ghost predicate Reaches(c: nat, target: nat)
    requires c < LIMIT
  {
    exists n: nat :: Doubled(c, n) >= target
  }

  /** The growth loop terminates exactly for targets up to 2^31. */
  lemma LoopTerminates(capacity: nat, target: nat)
    requires IsCapacity(capacity) && capacity < LIMIT && target > 0
    ensures Reaches(Start(capacity), target) <==> target <= 0x8000_0000
  {
    var k := StartExponent(capacity);
    Top();
    if target <= 0x8000_0000 {
      DoubledIs(k, 23 - k);
      assert Doubled(Start(capacity), 23 - k) >= target;
    } else {
      forall n: nat ensures Doubled(Start(capacity), n) < target {
        DoubledIs(k, n);
        if k + n < 24 {
          Pow2Grows(k + n, 23);
        }
      }
    }
  }

  lemma StartExponent(capacity: nat) returns (k: nat)
    requires IsCapacity(capacity)
    ensures k < 24 && Start(capacity) == MIN_CAPACITY * Pow2(k)
  {
    if capacity == 0 {
      k := 0;
    } else {
      k :| k < 24 && capacity == MIN_CAPACITY * Pow2(k);
      Pow2Grows(0, k);
    }
  }

  /** The capacity after reserve(count), without the wraparound. */
  function Reserved(capacity: nat, count: nat): nat {
    if count + 1 <= capacity then capacity else Grown(Start(capacity), count + 1)
  }

  function Grown(c: nat, target: nat): nat
    decreases if 0 < c < target then target - c else 0
  {
    if c == 0 || c >= target then c else Grown(2 * c, target)
  }

  /** `c` doubled as often as needed, and not once more. */
  lemma {:induction false} GrownLeast(c: nat, target: nat, k: nat)
    requires c == MIN_CAPACITY * Pow2(k) && k < 24 && target <= 0x8000_0000
    ensures Grown(c, target) >= target && IsCapacity(Grown(c, target)) && 0 < Grown(c, target) <= 0x8000_0000
    ensures Grown(c, target) == c || Grown(c, target) < 2 * target
    ensures Grown(c, target) >= c && (Grown(c, target) > c ==> Grown(c, target) >= 2 * c)
    decreases if c < target then target - c else 0
  {
    Top();
    Pow2Grows(0, k);
    Pow2Grows(k, 23);
    if c < target {
      if k == 23 {
        assert false;
      }
      assert 2 * c == MIN_CAPACITY * Pow2(k + 1);
      GrownLeast(2 * c, target, k + 1);
    }
  }

  /** Growth bound: when `reserve` grows, the new capacity holds count + 1, is a capacity
      again, is at least twice a nonzero old one, and is 256 or less than twice what was
      asked for. */
  lemma ReservedBound(capacity: nat, count: nat)
    requires IsCapacity(capacity) && count + 1 <= 0x8000_0000
    ensures var c := Reserved(capacity, count);
      && IsCapacity(c) && count + 1 <= c <= 0x8000_0000 && capacity <= c
      && (c != capacity ==> c >= 2 * capacity && (c == MIN_CAPACITY || c < 2 * (count + 1)))
  {
    Top();
    var k := StartExponent(capacity);
    Pow2Grows(k, 23);
    if count + 1 > capacity {
      GrownLeast(Start(capacity), count + 1, k);
    }
  }

  lemma CapacityGrows(capacity: nat, count: nat)
    requires IsCapacity(capacity) && capacity < count + 1 <= 0x8000_0000
    ensures capacity < Grown(Start(capacity), count + 1)
  {
    ReservedBound(capacity, count);
  }

  /** Capacities after a sequence of reserve calls, and how many cells realloc copied. */
  function CapacityAfter(capacity: nat, counts: seq<nat>): nat {
    if counts == [] then capacity
    else Reserved(CapacityAfter(capacity, counts[..|counts| - 1]), counts[|counts| - 1])
  }

  function Copied(capacity: nat, counts: seq<nat>): nat {
    if counts == [] then 0
    else
      var before := CapacityAfter(capacity, counts[..|counts| - 1]);
      Copied(capacity, counts[..|counts| - 1])
      + if CapacityAfter(capacity, counts) != before then before else 0
  }

  function Largest(counts: seq<nat>): nat {
    if counts == [] then 0
    else
      var m := Largest(counts[..|counts| - 1]);
      if counts[|counts| - 1] > m then counts[|counts| - 1] else m
  }

  /** Amortised growth: over any sequence of reserve calls from an empty builder, all
      reallocs together copy no more cells than the final capacity, which is 256 or less
      than twice the largest request. */
  lemma {:induction false} Amortised(counts: seq<nat>)
    requires forall i :: 0 <= i < |counts| ==> counts[i] + 1 <= 0x8000_0000
    ensures var c := CapacityAfter(0, counts);
      && IsCapacity(c) && c <= 0x8000_0000
      && Copied(0, counts) <= c
      && (c <= MIN_CAPACITY || c < 2 * (Largest(counts) + 1))
  {
    if counts != [] {
      var init := counts[..|counts| - 1];
      Amortised(init);
      ReservedBound(CapacityAfter(0, init), counts[|counts| - 1]);
    }
  }

  /** One more call. */
  lemma Requested(counts: seq<nat>, count: nat)
    ensures CapacityAfter(0, counts + [count]) == Reserved(CapacityAfter(0, counts), count)
    ensures var before := CapacityAfter(0, counts);
      Copied(0, counts + [count]) == Copied(0, counts) + if Reserved(before, count) != before then before else 0
  {
    assert (counts + [count])[..|counts|] == counts;
  }
}

module StringBuilder {
  import opened Growth

  /** Addition of `uint32_t`. */
  function Add32(a: nat, b: nat): nat {
    (a + b) % LIMIT
  }

  class Builder<T(0)> {
    var buffer: array?<T>
    var length: nat         // bufferLength
    var capacity: nat       // bufferCapacity
    ghost var requests: seq<nat>   // the counts `reserve` was called with, for this buffer
    ghost var copied: nat          // cells that realloc copied on the way

    /** Either nothing is allocated, or there is room for the terminator. */
    ghost predicate Valid()
      reads this
    {
      && IsCapacity(capacity) && capacity <= 0x8000_0000
      && (forall i :: 0 <= i < |requests| ==> requests[i] + 1 <= 0x8000_0000)
      && capacity == CapacityAfter(0, requests) && copied == Copied(0, requests)
      && (capacity == 0 <==> buffer == null)
      && (buffer == null ==> length == 0)
      && (buffer != null ==> buffer.Length == capacity && length + 1 <= capacity)
    }

    ghost function Contents(): seq<T>
      requires Valid()
      reads this, buffer
    {
      if buffer == null then [] else buffer[..length]
    }

    constructor Empty()
      ensures Valid() && Contents() == [] && capacity == 0 && requests == []
    {
      buffer, length, capacity, requests, copied := null, 0, 0, [], 0;
    }

    /** What the appends, resizes and assignments behind a builder have cost: all reallocs
        together copied no more cells than its capacity, which is 256 or less than twice the
        largest length that was asked for. */
    lemma CostBounded()
      requires Valid()
      ensures copied <= capacity && (capacity <= MIN_CAPACITY || capacity < 2 * (Largest(requests) + 1))
    {
      Amortised(requests);
    }

    /** _init(s, count). */
    constructor From(s: seq<T>)
      requires |s| <= MAX_SIZE
      ensures Valid() && fresh(buffer) && Contents() == s
      ensures capacity == Reserved(0, |s|) && requests == [|s|]
    {
      var c := DoubleFrom(MIN_CAPACITY, |s|, 0);
      buffer, length, capacity, requests, copied := new T[c], |s|, c, [|s|], 0;
      new;
      Requested([], |s|);
      assert [] + [|s|] == [|s|];
      Copy(0, s);
    }

    /** The move constructor. */
    constructor Move(other: Builder<T>)
      requires other.Valid()
      modifies other
      ensures Valid() && Contents() == old(other.Contents()) && buffer == old(other.buffer)
      ensures requests == old(other.requests) && copied == old(other.copied)
      ensures other.Valid() && other.Contents() == [] && other.buffer == null && other.requests == []
    {
      buffer, length, capacity := other.buffer, other.length, other.capacity;
      requests, copied := other.requests, other.copied;
      new;
      other.buffer, other.length, other.capacity, other.requests, other.copied := null, 0, 0, [], 0;
    }

    /** while(c < (count + 1)) c *= 2, in 32-bit arithmetic. */
    static method DoubleFrom(start: nat, count: nat, ghost k0: nat) returns (c: nat)
      requires start == MIN_CAPACITY * Pow2(k0) && k0 < 24 && count + 1 <= 0x8000_0000
      ensures c == Grown(start, count + 1)
      ensures IsCapacity(c) && count + 1 <= c <= 0x8000_0000
    {
      c := start;
      ghost var k := k0;
      while c < Add32(count, 1)
        invariant k < 24 && c == MIN_CAPACITY * Pow2(k)
        invariant Grown(c, count + 1) == Grown(start, count + 1)
        decreases 24 - k
      {
        DoubleStep(c, count + 1, k);
        c := c * 2 % LIMIT;
        k := k + 1;
      }
      CapacityTop(k);
      assert c >= count + 1;
    }

    /** memcpy to `buffer + at`. */
    method Copy(at: nat, s: seq<T>)
      requires buffer != null && at + |s| <= buffer.Length
      modifies buffer
      ensures buffer[..] == old(buffer[..at]) + s + old(buffer[at + |s|..])
    {
      var i := 0;
      while i < |s|
        invariant 0 <= i <= |s|
        invariant buffer[..] == old(buffer[..at]) + s[..i] + old(buffer[at + i..])
      {
        buffer[at + i] := s[i];
        i := i + 1;
      }
    }

    /** memcpy after the contents, which then include what was copied. */
    method CopyNext(s: seq<T>)
      requires Valid() && length + |s| + 1 <= capacity
      modifies this`length, buffer
      ensures Valid() && Contents() == old(Contents()) + s
    {
      Copy(length, s);
      length := Add32(length, |s|);
    }

    /** reserve: afterwards count + 1 cells fit, and the contents are untouched. */
    method Reserve(count: nat)
      requires Valid() && count + 1 <= 0x8000_0000
      modifies this
      ensures Valid() && count + 1 <= capacity && capacity == Reserved(old(capacity), count)
      ensures length == old(length) && Contents() == old(Contents())
      ensures requests == old(requests) + [count]
      ensures copied == old(copied) + if capacity != old(capacity) then old(capacity) else 0
      ensures buffer == old(buffer) || fresh(buffer)
    {
      Requested(requests, count);
      requests := requests + [count];
      if Add32(count, 1) <= capacity {
        return;
      }
      ghost var k := StartExponent(capacity);
      var c := DoubleFrom(Start(capacity), count, k);
      CapacityGrows(capacity, count);
      Realloc(c);
    }

    /** realloc: a larger buffer that starts with what was in the old one. */
    method Realloc(c: nat)
      requires buffer == null ==> capacity == 0
      requires buffer != null ==> buffer.Length == capacity
      requires capacity < c
      modifies this`buffer, this`capacity, this`copied
      ensures fresh(buffer) && buffer != null && buffer.Length == c == capacity
      ensures old(buffer) != null ==> buffer[..old(capacity)] == old(buffer[..])
      ensures copied == old(copied) + old(capacity)
    {
      var grown := new T[c];
      forall i | 0 <= i < capacity {
        grown[i] := buffer[i];
      }
      buffer, capacity, copied := grown, c, copied + capacity;
    }

    method Append(s: seq<T>)
      requires Valid() && length + |s| <= MAX_SIZE
      modifies this, buffer
      ensures Valid() && Contents() == old(Contents()) + s
      ensures requests == old(requests) + [old(length) + |s|]
      ensures buffer == old(buffer) || fresh(buffer)
    {
      Reserve(Add32(length, |s|));
      CopyNext(s);
    }

    method AppendOne(c: T)
      requires Valid() && length + 1 <= MAX_SIZE
      modifies this, buffer
      ensures Valid() && Contents() == old(Contents()) + [c]
      ensures requests == old(requests) || requests == old(requests) + [old(length) + 1]
      ensures buffer == old(buffer) || fresh(buffer)
    {
      RoomForOne();
      PutNext(c);
    }

    method RoomForOne()
      requires Valid() && length + 1 <= MAX_SIZE
      modifies this
      ensures Valid() && length + 2 <= capacity && length == old(length) && Contents() == old(Contents())
      ensures requests == old(requests) || requests == old(requests) + [length + 1]
      ensures buffer == old(buffer) || fresh(buffer)
    {
      if Add32(length, 2) >= capacity {
        Reserve(Add32(length, 1));
      }
    }

    /** The cell after the contents is written and becomes part of them. */
    method PutNext(c: T)
      requires Valid() && length + 2 <= capacity
      modifies this`length, buffer
      ensures Valid() && Contents() == old(Contents()) + [c]
    {
      buffer[length] := c;
      length := Add32(length, 1);
    }

    method Clear()
      requires Valid()
      modifies this
      ensures Valid() && Contents() == [] && capacity == old(capacity) && buffer == old(buffer)
      ensures requests == old(requests)
    {
      length := 0;
    }

    /** resize: what was there stays; cells exposed by growing are unspecified. */
    method Resize(count: nat)
      requires Valid() && count <= MAX_SIZE
      modifies this
      ensures Valid() && length == count && capacity == Reserved(old(capacity), count)
      ensures count <= old(length) ==> Contents() == old(Contents())[..count]
      ensures count > old(length) ==> Contents()[..old(length)] == old(Contents())
      ensures requests == old(requests) + [count]
      ensures buffer == old(buffer) || fresh(buffer)
    {
      Reserve(count);
      length := count;
    }

    /** _assign. */
    method Assign(s: seq<T>)
      requires Valid() && |s| <= MAX_SIZE
      modifies this, buffer
      ensures Valid() && Contents() == s
      ensures requests == old(requests) + [|s|]
      ensures buffer == old(buffer) || fresh(buffer)
    {
      Resize(|s|);
      Copy(0, s);
      assert buffer[..|s|] == s;
    }

    /** c_str: the terminator is written inside the buffer, after the contents. */
    method CStr(nul: T) returns (text: seq<T>)
      requires Valid()
      modifies buffer
      ensures Valid() && Contents() == old(Contents()) && text == Contents() + [nul]
    {
      if capacity == 0 {
        return [nul];
      }
      buffer[length] := nul;
      text := buffer[..length + 1];
    }

    /** snprintf(buffer + length, space, ...) where the formatted text is `text`: writes
        what fits and a terminator, and returns the full length. */
    method Snprintf(space: nat, text: seq<T>, nul: T) returns (len: nat)
      requires buffer != null && 0 < space && length + space <= buffer.Length
      modifies buffer
      ensures len == |text|
      ensures buffer[..length] == old(buffer[..length])
      ensures |text| < space ==> buffer[..length + |text|] == old(buffer[..length]) + text
    {
      var fit := if |text| < space then text else text[..space - 1];
      Copy(length, fit + [nul]);
      len := |text|;
      assert buffer[..length + |fit|] == old(buffer[..length]) + fit;
    }

    /** append_format: a first pass into whatever room there is, and a second one after
        making room when the text did not fit. */
    method AppendFormat(text: seq<T>, nul: T) returns (len: nat)
      requires Valid() && length + |text| <= MAX_SIZE
      modifies this, buffer
      ensures Valid() && Contents() == old(Contents()) + text && len == |text|
      ensures requests == old(requests) + [old(length) + 32] ||
              requests == old(requests) + [old(length) + 32] + [old(length) + |text|]
      ensures buffer == old(buffer) || fresh(buffer)
    {
      Passes(text, nul);
      EndAppend(|text|);
      len := |text|;
    }

    /** The text and its terminator are written after the contents, which do not grow yet. */
    method Passes(text: seq<T>, nul: T)
      requires Valid() && length + |text| <= MAX_SIZE
      modifies this, buffer
      ensures Valid() && buffer != null && length == old(length) && length + |text| + 1 <= capacity
      ensures buffer[..length + |text|] == old(Contents()) + text
      ensures requests == old(requests) + [length + 32] ||
              requests == old(requests) + [length + 32] + [length + |text|]
      ensures buffer == old(buffer) || fresh(buffer)
    {
      var fits := FirstPass(text, nul);
      if !fits {
        SecondPass(text, nul);
      }
    }

    /** end_append: cells that were written after the contents become part of them. */
    method EndAppend(count: nat)
      requires Valid() && buffer != null && length + count + 1 <= capacity
      modifies this`length
      ensures Valid() && length == old(length) + count && Contents() == old(buffer[..length + count])
    {
      length := Add32(length, count);
    }

    /** begin_append(32) and the first snprintf; says whether the whole text fitted. */
    method FirstPass(text: seq<T>, nul: T) returns (fits: bool)
      requires Valid() && length <= MAX_SIZE
      modifies this, buffer
      ensures Valid() && buffer != null && length == old(length) && Contents() == old(Contents())
      ensures fits ==> length + |text| + 1 <= capacity && buffer[..length + |text|] == old(Contents()) + text
      ensures requests == old(requests) + [length + 32]
      ensures buffer == old(buffer) || fresh(buffer)
    {
      Reserve(Add32(length, 32));
      var len := Snprintf(capacity - length, text, nul);
      fits := len < capacity - length;
    }

    method SecondPass(text: seq<T>, nul: T)
      requires Valid() && buffer != null && length + |text| <= MAX_SIZE
      modifies this, buffer
      ensures Valid() && buffer != null && length == old(length) && length + |text| + 1 <= capacity
      ensures buffer[..length + |text|] == old(Contents()) + text
      ensures requests == old(requests) + [length + |text|]
      ensures buffer == old(buffer) || fresh(buffer)
    {
      Reserve(Add32(length, |text|));
      var len := Snprintf(|text| + 1, text, nul);
    }
  }
}
