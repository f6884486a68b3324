/** How many transfers of at most `d` it takes to drain `n`. */
module Rounds {
  import opened Kernel

  /** Full transfers of `d` out of `n`. */
  function Fulls(n: nat, d: nat): nat
    requires d > 0
  {
    if n < d then 0 else 1 + Fulls(n - d, d)
  }

  /** Transfers of at most `d` until nothing of `n` is left. */
  function Pieces(n: nat, d: nat): nat
    requires d > 0
  {
    if n == 0 then 0 else 1 + Pieces(n - Min(n, d), d)
  }

  lemma {:induction false} FullsIs(n: nat, d: nat)
    requires d > 0
    ensures Fulls(n, d) == n / d
  {
    if n >= d {
      FullsIs(n - d, d);
      QuotientStep(n, d);
    }
  }

  lemma {:induction false} PiecesIs(n: nat, d: nat)
    requires d > 0
    ensures Pieces(n, d) == (n + d - 1) / d
  {
    if n == 0 {
      QuotientUnique(d - 1, d, 0, d - 1);
    } else {
      PiecesIs(n - Min(n, d), d);
      PieceStep(n, d);
    }
  }

  /** One transfer more, whether it is a full one or the last. */
  lemma PieceStep(n: nat, d: nat)
    requires d > 0 && n > 0
    ensures (n + d - 1) / d == 1 + (n - Min(n, d) + d - 1) / d
  {
    if n > d {
      QuotientStep(n + d - 1, d);
    } else {
      QuotientUnique(d - 1, d, 0, d - 1);
      QuotientUnique(n + d - 1, d, 1, n - 1);
    }
  }

  lemma QuotientStep(n: nat, d: nat)
    requires 0 < d <= n
    ensures n / d == (n - d) / d + 1
  {
    var q := (n - d) / d;
    assert (q + 1) * d == q * d + d;
    QuotientUnique(n, d, q + 1, (n - d) % d);
  }

  lemma QuotientUnique(n: nat, d: nat, q: nat, r: nat)
    requires r < d && n == q * d + r
    ensures n / d == q
  {
    var p := n / d;
    assert n == p * d + n % d;
    if p < q {
      ProductsApart(p, q, d);
    } else if q < p {
      ProductsApart(q, p, d);
    }
  }

  lemma ProductsApart(p: nat, q: nat, d: nat)
    requires p < q
    ensures p * d + d <= q * d
  {
    if q == p + 1 {
      assert (p + 1) * d == p * d + d;
    } else {
      ProductsApart(p, q - 1, d);
      assert (q - 1 + 1) * d == (q - 1) * d + d;
    }
  }
}
