/**
  Big-endian positional numerals over digits of `w` bits: the meaning of the
  byte and symbol lists that the regrouping loops push through an accumulator.
 */
module Numerals {

  /** `n << b` */
  function Shl(n: nat, b: nat): (m: nat)
    ensures m >= n
  {
    if b == 0 then n else 2 * Shl(n, b - 1)
  }

  /** `n >> b` */
  function Shr(n: nat, b: nat): (q: nat) {
    if b == 0 then n else Shr(n / 2, b - 1)
  }

  function Pow2(b: nat): (p: nat)
    ensures p > 0
  {
    Shl(1, b)
  }

  /** `n & (2^b - 1)` */
  function Low(n: nat, b: nat): (r: nat)
    ensures r < Pow2(b)
  {
    if b == 0 then 0 else 2 * Low(n / 2, b - 1) + n % 2
  }

  /** A number is its high bits followed by its low bits. */
  lemma {:induction false} Split(n: nat, b: nat)
    ensures n == Shl(Shr(n, b), b) + Low(n, b)
  {
    if b > 0 {
      Split(n / 2, b - 1);
    }
  }

  /** And no other pair of high and low bits gives that number. */
  lemma {:induction false} Append(q: nat, r: nat, b: nat)
    requires r < Pow2(b)
    ensures Shr(Shl(q, b) + r, b) == q && Low(Shl(q, b) + r, b) == r
  {
    if b > 0 {
      Append(q, r / 2, b - 1);
      assert (Shl(q, b) + r) / 2 == Shl(q, b - 1) + r / 2;
    }
  }

  lemma {:induction false} ShlShl(n: nat, a: nat, b: nat)
    ensures Shl(Shl(n, a), b) == Shl(n, a + b)
  {
    if b > 0 {
      ShlShl(n, a, b - 1);
    }
  }

  lemma {:induction false} ShlAdd(m: nat, n: nat, b: nat)
    ensures Shl(m + n, b) == Shl(m, b) + Shl(n, b)
  {
    if b > 0 {
      ShlAdd(m, n, b - 1);
    }
  }

  lemma {:induction false} ShlBelow(n: nat, r: nat, a: nat, b: nat)
    requires n < Pow2(a) && r < Pow2(b)
    ensures Shl(n, b) + r < Pow2(a + b)
  {
    if b > 0 {
      ShlBelow(n, r / 2, a, b - 1);
    }
  }

  /** Dropping `a` bits and then `b` bits drops `a + b` bits. */
  lemma {:induction false} ShrShr(n: nat, a: nat, b: nat)
    ensures Shr(Shr(n, a), b) == Shr(n, a + b)
  {
    if a > 0 {
      ShrShr(n / 2, a - 1, b);
    }
  }

  lemma {:induction false} ShrBelow(n: nat, a: nat, b: nat)
    requires n < Pow2(a + b)
    ensures Shr(n, b) < Pow2(a)
  {
    if b > 0 {
      ShrBelow(n / 2, a, b - 1);
    }
  }

  /** The width in bits of `k` digits of `w` bits each, that is `k * w`. */
  function Width(k: nat, w: nat): (n: nat) {
    if k == 0 then 0 else Width(k - 1, w) + w
  }

  /** How many whole `w`-bit groups fit in `n` bits, that is `n / w`. */
  function Groups(n: nat, w: nat): (k: nat)
    requires w > 0
  {
    if n < w then 0 else 1 + Groups(n - w, w)
  }

  /** How many bits are left over, that is `n % w`. */
  function Left(n: nat, w: nat): (r: nat)
    requires w > 0
    ensures r < w
  {
    if n < w then n else Left(n - w, w)
  }

  lemma {:induction false} GroupsAndLeft(n: nat, w: nat)
    requires w > 0
    ensures n == Width(Groups(n, w), w) + Left(n, w)
  {
    if n >= w {
      GroupsAndLeft(n - w, w);
    }
  }

  lemma {:induction false} GroupsUnique(k: nat, r: nat, w: nat)
    requires r < w
    ensures Groups(Width(k, w) + r, w) == k && Left(Width(k, w) + r, w) == r
  {
    if k > 0 {
      GroupsUnique(k - 1, r, w);
    }
  }

  predicate InRange(ds: seq<int>, w: nat) {
    forall i :: 0 <= i < |ds| ==> 0 <= ds[i] < Pow2(w)
  }

  /** The number that a digit list denotes. */
  function Val(ds: seq<int>, w: nat): nat
    requires InRange(ds, w)
  {
    if ds == [] then 0 else Shl(Val(ds[..|ds| - 1], w), w) + ds[|ds| - 1]
  }

  /** The last `k` digits of `n`. */
  function Digits(n: nat, k: nat, w: nat): (ds: seq<int>)
    ensures |ds| == k && InRange(ds, w)
    decreases k
  {
    if k == 0 then [] else Digits(Shr(n, w), k - 1, w) + [Low(n, w)]
  }

  lemma ValAppend(ds: seq<int>, d: int, w: nat)
    requires InRange(ds, w) && 0 <= d < Pow2(w)
    ensures InRange(ds + [d], w) && Val(ds + [d], w) == Shl(Val(ds, w), w) + d
  {
    assert (ds + [d])[..|ds|] == ds;
  }

  lemma {:induction false} ValBound(ds: seq<int>, w: nat)
    requires InRange(ds, w)
    ensures Val(ds, w) < Pow2(Width(|ds|, w))
  {
    if ds != [] {
      var init := ds[..|ds| - 1];
      ValBound(init, w);
      ShlBelow(Val(init, w), ds[|ds| - 1], Width(|init|, w), w);
    }
  }

  /** Fixed-length numerals are unique: a list is the digits of its value. */
  lemma {:induction false} DigitsVal(ds: seq<int>, w: nat)
    requires InRange(ds, w)
    ensures Digits(Val(ds, w), |ds|, w) == ds
  {
    if ds != [] {
      var init, last := ds[..|ds| - 1], ds[|ds| - 1];
      Append(Val(init, w), last, w);
      DigitsVal(init, w);
    }
  }

  /** And the value of the digits is the number, when it fits. */
  lemma {:induction false} ValDigits(n: nat, k: nat, w: nat)
    requires n < Pow2(Width(k, w))
    ensures Val(Digits(n, k, w), w) == n
    decreases k
  {
    if k > 0 {
      ShrBelow(n, Width(k - 1, w), w);
      ValDigits(Shr(n, w), k - 1, w);
      Split(n, w);
      ValAppend(Digits(Shr(n, w), k - 1, w), Low(n, w), w);
    }
  }

  lemma ValInjective(ds: seq<int>, es: seq<int>, w: nat)
    requires InRange(ds, w) && InRange(es, w)
    requires |ds| == |es| && Val(ds, w) == Val(es, w)
    ensures ds == es
  {
    DigitsVal(ds, w);
    DigitsVal(es, w);
  }
}
