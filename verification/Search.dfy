/** The search and hash loops: `memrmem` and `sdbm`. */
module Search {
  import opened Kernel

  predicate MatchAt(s: seq<byte>, t: seq<byte>, i: nat) {
    i + |t| <= |s| && s[i..i + |t|] == t
  }

  datatype Found = NotFound | At(index: nat)

  /** The offset of the last occurrence of `t` in `s`. The countdown stops after 0. */
  method Memrmem(s: seq<byte>, t: seq<byte>) returns (r: Found)
    ensures r == NotFound <==> forall j: nat :: !MatchAt(s, t, j)
    ensures r.At? ==> MatchAt(s, t, r.index) && forall j: nat :: j > r.index ==> !MatchAt(s, t, j)
  {
    if |s| >= |t| {
      var i := |s| - |t|;
      while true
        invariant 0 <= i <= |s| - |t|
        invariant forall j: nat :: j > i ==> !MatchAt(s, t, j)
        decreases i
      {
        if s[i..i + |t|] == t {
          assert MatchAt(s, t, i);
          return At(i);
        }
        if i == 0 {
          break;
        }
        i := i - 1;
      }
      assert forall j: nat :: !MatchAt(s, t, j);
    }
    r := NotFound;
  }

  const WORD := 0x1_0000_0000_0000_0000
  const BASE := 65599

  /** The polynomial the hash is: earlier bytes get higher powers of 65599. */
  function Poly(s: seq<byte>): nat {
    if s == [] then 0 else Poly(s[..|s| - 1]) * BASE + s[|s| - 1] as nat
  }

  function Power(n: nat): nat {
    if n == 0 then 1 else BASE * Power(n - 1)
  }

  /** One round: c + (hash << 6) + (hash << 16) - hash, on 64-bit unsigned numbers. */
  function Round(hash: nat, c: byte): nat {
    (c as int + hash * 64 % WORD + hash * 65536 % WORD - hash) % WORD
  }

  lemma RoundIs(hash: nat, p: nat, c: byte)
    requires hash == p % WORD
    ensures Round(hash, c) == (p * BASE + c as nat) % WORD
  {
    var a, b := hash * 64 / WORD, hash * 65536 / WORD;
    var x := c as int + hash * 64 % WORD + hash * 65536 % WORD - hash;
    assert x == hash * BASE + c as int - (a + b) * WORD;
    var q := p / WORD;
    assert p == q * WORD + hash;
    assert p * BASE + c as int == x + (a + b + q * BASE) * WORD;
    ModuloShift(x, a + b + q * BASE);
  }

  lemma ModuloShift(x: int, n: int)
    ensures (x + n * WORD) % WORD == x % WORD
    decreases if n < 0 then -n else n
  {
    if n > 0 {
      ModuloShift(x, n - 1);
      assert x + n * WORD == x + (n - 1) * WORD + WORD;
    } else if n < 0 {
      ModuloShift(x, n + 1);
      assert x + n * WORD == x + (n + 1) * WORD - WORD;
    }
  }

  /** What `sdbm` returns, an unsigned long. */
  function Hash(s: seq<byte>): nat {
    Poly(s) % WORD
  }

  method Sdbm(str: seq<byte>) returns (hash: nat)
    ensures hash == Hash(str)
  {
    hash := 0;
    var i := 0;
    while i < |str|
      invariant 0 <= i <= |str|
      invariant hash == Hash(str[..i])
    {
      assert str[..i + 1][..i] == str[..i];
      RoundIs(hash, Poly(str[..i]), str[i]);
      hash := Round(hash, str[i]);
      i := i + 1;
    }
    assert str[..i] == str;
  }

  /** The polynomial of a concatenation from those of its parts. */
  lemma {:induction false} PolyConcat(a: seq<byte>, b: seq<byte>)
    ensures Poly(a + b) == Poly(a) * Power(|b|) + Poly(b)
    decreases |b|
  {
    if b == [] {
      assert a + b == a;
    } else {
      var init := b[..|b| - 1];
      assert (a + b)[..|a + b| - 1] == a + init;
      PolyConcat(a, init);
      assert Poly(a) * Power(|init|) * BASE == Poly(a) * (BASE * Power(|init|));
    }
  }

  /** The hash of a concatenation depends on the two hashes and the second length only. */
  lemma HashConcat(a: seq<byte>, b: seq<byte>)
    ensures Hash(a + b) == (Hash(a) * Power(|b|) + Hash(b)) % WORD
  {
    PolyConcat(a, b);
    ReducedFirst(Poly(a), Power(|b|), Poly(b));
  }

  /** Reducing the factors first does not change the result. */
  lemma ReducedFirst(p: nat, n: nat, b: nat)
    ensures (p * n + b) % WORD == (p % WORD * n + b % WORD) % WORD
  {
    var q, m := p / WORD, b / WORD;
    Distribute(q, p % WORD, n);
    assert p * n + b == p % WORD * n + b % WORD + (q * n + m) * WORD by {
      assert (q * n + m) * WORD == q * n * WORD + m * WORD;
    }
    ModuloShift(p % WORD * n + b % WORD, q * n + m);
  }

  lemma Distribute(q: nat, h: nat, n: nat)
    ensures (q * WORD + h) * n == q * n * WORD + h * n
  {
    assert q * WORD * n == q * n * WORD;
  }
}
