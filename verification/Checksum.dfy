/**
  The BIP-173 checksum of app/core/bech32_lnurl.py: `_polymod` as a machine on
  30-bit states, its linearity over GF(2), and what follows for error detection.
  A symbol list is a list of integers below 32, as in the source.
 */
module Checksum {

  type State = bv30

  /** Addition over GF(2): the source's `^`. */
  function Add(x: State, y: State): State {
    x ^ y
  }

  /** The generator coefficients. */
  function Gen(i: nat): State
    requires i < 5
  {
    if i == 0 then 0x3B6A57B2
    else if i == 1 then 0x26508E6D
    else if i == 2 then 0x1EA119FA
    else if i == 3 then 0x3D4233DD
    else 0x2A1462B3
  }

  predicate IsSymbol(v: int) {
    0 <= v < 32
  }

  predicate Symbols(vs: seq<int>) {
    forall i :: 0 <= i < |vs| ==> IsSymbol(vs[i])
  }

  function Sym(v: int): State
    requires IsSymbol(v)
  {
    v as State
  }

  function Num(x: State): (v: int)
    requires x < 32
    ensures IsSymbol(v)
  {
    x as int
  }

  /** A symbol list as states of the machine. */
  function Word(vs: seq<int>): (xs: seq<State>)
    requires Symbols(vs)
    ensures |xs| == |vs|
  {
    seq(|vs|, i requires 0 <= i < |vs| => Sym(vs[i]))
  }

  predicate Bit(b: State, i: nat)
    requires i < 5
  {
    (b >> i) & 1 == 1
  }

  /** What bit `i` of the outgoing symbol `b` feeds back. */
  function Tap(b: State, i: nat): State
    requires i < 5
  {
    if Bit(b, i) then Gen(i) else 0
  }

  /** The first `n` taps, added up. */
  function Taps(b: State, n: nat): State
    requires n <= 5
  {
    if n == 0 then 0 else Add(Taps(b, n - 1), Tap(b, n - 1))
  }

  function Shift(chk: State): State {
    (chk & 0x1FFFFFF) << 5
  }

  function Step(chk: State, v: State): State {
    Add(Add(Shift(chk), v), Taps(chk >> 25, 5))
  }

  /** The state after feeding `xs` into `chk`. */
  function Feed(chk: State, xs: seq<State>): State {
    if xs == [] then chk else Step(Feed(chk, xs[..|xs| - 1]), xs[|xs| - 1])
  }

  // ----- the algebra of Add -----

  lemma AddZero(x: State)
    ensures Add(x, 0) == x == Add(0, x)
  {
  }

  lemma AddSelf(x: State, y: State)
    ensures Add(x, y) == 0 <==> x == y
  {
    hide Add;
    AddCancels(y);
    AddZero(x);
    AddZero(y);
    AddAssoc(x, y, y);
  }

  lemma AddCancels(x: State)
    ensures Add(x, x) == 0
  {
    assert x ^ x == 0;
  }

  lemma XorLaws(x: State, y: State, z: State)
    ensures (x ^ y) ^ z == x ^ (y ^ z)
    ensures x ^ y == y ^ x
  {
  }

  lemma AddAssoc(x: State, y: State, z: State)
    ensures Add(Add(x, y), z) == Add(x, Add(y, z))
  {
    XorLaws(x, y, z);
  }

  lemma AddSwap(x: State, y: State, z: State, w: State)
    ensures Add(Add(x, y), Add(z, w)) == Add(Add(x, z), Add(y, w))
  {
    hide Add;
    AddAssoc(x, y, Add(z, w));
    AddAssoc(y, z, w);
    AddComm(y, z);
    AddAssoc(z, y, w);
    AddAssoc(x, z, Add(y, w));
  }

  lemma AddComm(x: State, y: State)
    ensures Add(x, y) == Add(y, x)
  {
    XorLaws(x, y, 0);
  }

  // ----- the loop -----

  /** `_polymod` */
  method Polymod(values: seq<int>) returns (chk: State)
    requires Symbols(values)
    ensures chk == Feed(1, Word(values))
  {
    hide Add, Bit, Gen, Sym, Shift;
    ghost var xs := Word(values);
    chk := 1;
    for k := 0 to |values|
      invariant chk == Feed(1, xs[..k])
    {
      var b := chk >> 25;
      var next := Add(Shift(chk), Sym(values[k]));
      ghost var shifted := next;
      AddZero(shifted);
      for i := 0 to 5
        invariant next == Add(shifted, Taps(b, i))
      {
        AddAssoc(shifted, Taps(b, i), Tap(b, i));
        next := Add(next, if Bit(b, i) then Gen(i) else 0);
      }
      chk := next;
      assert xs[..k + 1][..k] == xs[..k];
    }
    assert xs[..|values|] == xs;
  }

  // ----- linearity -----

  lemma BitXor(a: State, b: State, i: nat)
    requires i < 5
    ensures Bit(a ^ b, i) == (Bit(a, i) != Bit(b, i))
  {
    ShiftXor(a, b, i);
    ParityXor(a >> i, b >> i);
  }

  lemma ShiftXor(a: State, b: State, i: nat)
    requires i < 5
    ensures (a ^ b) >> i == (a >> i) ^ (b >> i)
  {
  }

  lemma ParityXor(a: State, b: State)
    ensures (a ^ b) & 1 == 1 <==> (a & 1 == 1) != (b & 1 == 1)
  {
  }

  lemma BitLinear(a: State, b: State, i: nat)
    requires i < 5
    ensures Bit(Add(a, b), i) == (Bit(a, i) != Bit(b, i))
  {
    hide Bit;
    BitXor(a, b, i);
  }

  lemma TapLinear(a: State, b: State, i: nat)
    requires i < 5
    ensures Tap(Add(a, b), i) == Add(Tap(a, i), Tap(b, i))
  {
    hide Add, Bit, Gen;
    BitLinear(a, b, i);
    AddZero(Gen(i));
    AddZero(0);
    AddSelf(Gen(i), Gen(i));
  }

  lemma {:induction false} TapsLinear(a: State, b: State, n: nat)
    requires n <= 5
    ensures Taps(Add(a, b), n) == Add(Taps(a, n), Taps(b, n))
  {
    hide Add, Tap;
    if n == 0 {
      AddZero(0);
    } else {
      TapsLinear(a, b, n - 1);
      TapLinear(a, b, n - 1);
      AddSwap(Taps(a, n - 1), Taps(b, n - 1), Tap(a, n - 1), Tap(b, n - 1));
    }
  }

  lemma ShiftLinear(a: State, b: State)
    ensures Shift(Add(a, b)) == Add(Shift(a), Shift(b))
    ensures Add(a, b) >> 25 == Add(a >> 25, b >> 25)
  {
  }

  /** One step is linear over GF(2). */
  lemma StepLinear(a: State, v: State, b: State, w: State)
    ensures Step(Add(a, b), Add(v, w)) == Add(Step(a, v), Step(b, w))
  {
    hide Add, Shift, Taps;
    ShiftLinear(a, b);
    AddSwap(Shift(a), Shift(b), v, w);
    TapsLinear(a >> 25, b >> 25, 5);
    AddSwap(Add(Shift(a), v), Add(Shift(b), w), Taps(a >> 25, 5), Taps(b >> 25, 5));
  }

  lemma TapsExpand(b: State)
    ensures Taps(b, 5) == Add(Add(Add(Add(Tap(b, 0), Tap(b, 1)), Tap(b, 2)), Tap(b, 3)), Tap(b, 4))
  {
    hide Add, Tap;
    AddZero(Tap(b, 0));
    assert Taps(b, 1) == Tap(b, 0);
    assert Taps(b, 3) == Add(Add(Tap(b, 0), Tap(b, 1)), Tap(b, 2));
  }

  /** And it forgets nothing about the state. */
  lemma StepInjective(a: State)
    requires Step(a, 0) == 0
    ensures a == 0
  {
    TapsExpand(a >> 25);
  }

  /** Symbol by symbol addition. */
  ghost function Sum(xs: seq<State>, ys: seq<State>): (zs: seq<State>)
    requires |xs| == |ys|
    ensures |zs| == |xs|
  {
    seq(|xs|, i requires 0 <= i < |xs| => Add(xs[i], ys[i]))
  }

  /** Adding inputs adds outputs. */
  lemma {:induction false} FeedLinear(a: State, xs: seq<State>, b: State, ys: seq<State>)
    requires |xs| == |ys|
    ensures Feed(Add(a, b), Sum(xs, ys)) == Add(Feed(a, xs), Feed(b, ys))
  {
    hide Add, Step;
    if xs != [] {
      var n := |xs| - 1;
      FeedLinear(a, xs[..n], b, ys[..n]);
      StepLinear(Feed(a, xs[..n]), xs[n], Feed(b, ys[..n]), ys[n]);
      assert Sum(xs, ys)[..n] == Sum(xs[..n], ys[..n]);
    }
  }

  lemma {:induction false} FeedConcat(chk: State, xs: seq<State>, ys: seq<State>)
    ensures Feed(chk, xs + ys) == Feed(Feed(chk, xs), ys)
  {
    hide Step;
    if ys == [] {
      assert xs + ys == xs;
    } else {
      var n := |ys| - 1;
      FeedConcat(chk, xs, ys[..n]);
      assert (xs + ys)[..|xs| + n] == xs + ys[..n];
    }
  }

  function Zeros(n: nat): (xs: seq<State>)
    ensures |xs| == n
  {
    seq(n, i => 0)
  }

  /** Zero symbols keep the zero state, and only the zero state leads to it. */
  lemma {:induction false} FeedZeros(chk: State, n: nat)
    ensures Feed(chk, Zeros(n)) == 0 <==> chk == 0
  {
    hide Step;
    if n > 0 {
      FeedZeros(chk, n - 1);
      assert Zeros(n)[..n - 1] == Zeros(n - 1);
      StepZero();
      if Feed(chk, Zeros(n)) == 0 {
        StepInjective(Feed(chk, Zeros(n - 1)));
      }
    }
  }

  lemma StepZero()
    ensures Step(0, 0) == 0
  {
    hide Step;
    SmallStep(0, 0);
  }

  // ----- six symbols fill the state exactly -----

  lemma SmallStep(chk: State, v: State)
    requires chk < 0x2000000
    ensures Step(chk, v) == Glue(chk, v)
  {
    TapsExpand(chk >> 25);
  }

  predicate Narrow(xs: seq<State>) {
    forall i :: 0 <= i < |xs| ==> xs[i] < 32
  }

  function High(x: State): State {
    x >> 5
  }

  function Lo(x: State): (v: State)
    ensures v < 32
  {
    x & 31
  }

  function Glue(x: State, v: State): State {
    (x << 5) ^ v
  }

  /** The last `n` groups of five bits of a state. */
  function Cut(x: State, n: nat): (xs: seq<State>)
    ensures |xs| == n && Narrow(xs)
    decreases n
  {
    if n == 0 then [] else Cut(High(x), n - 1) + [Lo(x)]
  }

  /** What is left above them. */
  function Above(x: State, n: nat): State
    decreases n
  {
    if n == 0 then x else Above(High(x), n - 1)
  }

  lemma GlueHighLo(x: State)
    ensures Glue(High(x), Lo(x)) == x
    ensures High(0) == 0 && High(x) < 0x2000000
  {
  }

  lemma HighLoGlue(x: State, v: State)
    requires x < 0x2000000 && v < 32
    ensures High(Glue(x, v)) == x
    ensures Lo(Glue(x, v)) == v
  {
  }

  lemma {:induction false} AboveStays(x: State, m: nat, n: nat)
    requires m <= n && Above(x, m) == 0
    ensures Above(x, n) == 0
    decreases n
  {
    hide High;
    GlueHighLo(0);
    if n > 0 {
      AboveStays(if m == 0 then 0 else High(x), if m == 0 then 0 else m - 1, n - 1);
    }
  }

  lemma AboveFive(x: State)
    ensures Above(x, 6) == 0
    ensures Above(x, 5) == 0 ==> x < 0x2000000
  {
    var y := High(High(High(x)));
    assert Above(x, 5) == Above(y, 2) && Above(x, 6) == Above(y, 3);
    assert Above(y, 2) == High(High(y)) && Above(y, 3) == High(High(High(y)));
  }

  /** From the zero state, up to six symbols are just shifted in. */
  lemma {:induction false} FeedSix(xs: seq<State>)
    requires |xs| <= 6 && Narrow(xs)
    ensures Cut(Feed(0, xs), |xs|) == xs && Above(Feed(0, xs), |xs|) == 0
  {
    hide Step, High, Lo, Glue;
    if xs != [] {
      var n := |xs| - 1;
      var c := Feed(0, xs[..n]);
      FeedSix(xs[..n]);
      AboveStays(c, n, 5);
      AboveFive(c);
      SmallStep(c, xs[n]);
      HighLoGlue(c, xs[n]);
    }
  }

  /** And every state arises from exactly one such list. */
  lemma {:induction false} FeedCut(x: State, n: nat)
    requires n <= 6 && Above(x, n) == 0
    ensures Feed(0, Cut(x, n)) == x
    decreases n
  {
    hide Step, High, Lo, Glue;
    if n > 0 {
      FeedCut(High(x), n - 1);
      GlueHighLo(x);
      SmallStep(High(x), Lo(x));
      assert Cut(x, n)[..n - 1] == Cut(High(x), n - 1);
    }
  }

  // ----- main results -----

  /** The test of `decode_lnurl`: the checksum constant is 1. */
  predicate Passes(vs: seq<int>)
    requires Symbols(vs)
  {
    Feed(1, Word(vs)) == 1
  }

  /** The checksum of a payload: run on, over six zero symbols, add 1, cut into six symbols. */
  function ChecksumOf(vs: seq<int>): (suffix: seq<int>)
    requires Symbols(vs)
    ensures |suffix| == 6 && Symbols(suffix)
  {
    var xs := Cut(Add(Feed(1, Word(vs) + Zeros(6)), 1), 6);
    seq(6, i requires 0 <= i < 6 => Num(xs[i]))
  }

  lemma SymNum(x: State)
    requires x < 32
    ensures Sym(Num(x)) == x
  {
  }

  lemma NumSym(v: int)
    requires IsSymbol(v)
    ensures Sym(v) < 32 && Num(Sym(v)) == v
  {
    if v < 16 {
      NumSymLow(v);
    } else {
      NumSymHigh(v);
    }
  }

  lemma NumSymLow(v: int)
    requires 0 <= v < 16
    ensures v as State < 32 && (v as State) as int == v
  {
    if v < 4 {
    } else if v < 8 {
    } else if v < 12 {
    }
  }

  lemma NumSymHigh(v: int)
    requires 16 <= v < 32
    ensures v as State < 32 && (v as State) as int == v
  {
    if v < 20 {
    } else if v < 24 {
    } else if v < 28 {
    }
  }

  lemma WordNarrow(vs: seq<int>)
    requires Symbols(vs)
    ensures Narrow(Word(vs))
  {
    hide Sym;
    forall i | 0 <= i < |vs| {
      NumSym(vs[i]);
    }
  }

  lemma WordInjective(us: seq<int>, vs: seq<int>)
    requires Symbols(us) && Symbols(vs) && Word(us) == Word(vs)
    ensures us == vs
  {
    hide Sym, Num;
    forall i | 0 <= i < |us| ensures us[i] == vs[i] {
      assert Word(us)[i] == Word(vs)[i];
      NumSym(us[i]);
      NumSym(vs[i]);
    }
  }

  /** Two inputs fed from the same state differ by what their difference alone would give. */
  lemma FeedDiff(xs: seq<State>, ys: seq<State>)
    requires |xs| == |ys|
    ensures Feed(1, xs) == Feed(1, ys) <==> Feed(0, Sum(xs, ys)) == 0
    ensures Add(Feed(1, xs), Feed(1, ys)) == Feed(0, Sum(xs, ys))
  {
    hide Add, Feed;
    FeedLinear(1, xs, 1, ys);
    AddSelf(1, 1);
    AddSelf(Feed(1, xs), Feed(1, ys));
  }

  /** Over zero symbols nothing happens on either side of a window of six. */
  lemma FeedWindow(lo: nat, w: seq<State>, hi: nat)
    requires |w| == 6 && Narrow(w)
    ensures Feed(0, Zeros(lo) + w + Zeros(hi)) == 0 <==> w == Zeros(6)
  {
    hide Feed, Step;
    FeedConcat(0, Zeros(lo) + w, Zeros(hi));
    FeedConcat(0, Zeros(lo), w);
    FeedZeros(0, lo);
    FeedZeros(Feed(0, w), hi);
    FeedSix(w);
    FeedZeros(0, 6);
    FeedSix(Zeros(6));
  }

  lemma AddNarrow(x: State, y: State)
    requires x < 32 && y < 32
    ensures Add(x, y) < 32
  {
  }

  /** A list that is zero outside a window of six. */
  lemma ZeroOutside(z: seq<State>, lo: nat)
    requires lo + 6 <= |z| && forall j :: 0 <= j < |z| && !(lo <= j < lo + 6) ==> z[j] == 0
    ensures z == Zeros(lo) + z[lo..lo + 6] + Zeros(|z| - lo - 6)
  {
    var whole := Zeros(lo) + z[lo..lo + 6] + Zeros(|z| - lo - 6);
    forall j | 0 <= j < |z| ensures z[j] == whole[j] {
      if lo <= j < lo + 6 {
        assert whole[j] == z[lo..lo + 6][j - lo];
      } else {
        assert whole[j] == 0;
      }
    }
  }

  /**
    Burst detection, at any length: a list that passes the test never passes again
    after a change confined to six consecutive symbols.
   */
  lemma BurstDetected(d: seq<int>, e: seq<int>, i: int)
    requires Symbols(d) && Symbols(e) && |d| == |e| >= 6
    requires forall j :: 0 <= j < |d| && d[j] != e[j] ==> i <= j < i + 6
    requires d != e && Passes(d)
    ensures !Passes(e)
  {
    hide Add, Feed, Sym;
    var xs, ys := Word(d), Word(e);
    var lo := if i < 0 then 0 else if i > |d| - 6 then |d| - 6 else i;
    var z := Sum(xs, ys);
    var w := z[lo..lo + 6];
    WordNarrow(d);
    WordNarrow(e);
    forall j | 0 <= j < |d| ensures z[j] < 32 && (z[j] == 0 <==> xs[j] == ys[j]) {
      AddNarrow(xs[j], ys[j]);
      AddSelf(xs[j], ys[j]);
    }
    assert Narrow(w) by {
      assert forall k :: 0 <= k < 6 ==> w[k] == z[lo + k];
    }
    assert z == Zeros(lo) + w + Zeros(|d| - lo - 6) by {
      forall j | 0 <= j < |z| && !(lo <= j < lo + 6) ensures z[j] == 0 {
        assert d[j] == e[j] && xs[j] == ys[j];
      }
      ZeroOutside(z, lo);
    }
    FeedWindow(lo, w, |d| - lo - 6);
    FeedDiff(xs, ys);
    if w == Zeros(6) {
      forall j | 0 <= j < |d| ensures xs[j] == ys[j] {
        assert z[j] == 0 by {
          if lo <= j < lo + 6 {
            assert z[j] == w[j - lo];
          }
        }
      }
      assert xs == ys;
      WordInjective(d, e);
    }
  }

  /** Every payload has exactly one checksum. */
  lemma UniqueChecksum(payload: seq<int>, suffix: seq<int>)
    requires Symbols(payload) && Symbols(suffix) && |suffix| == 6
    ensures Passes(payload + suffix) <==> suffix == ChecksumOf(payload)
  {
    hide Add, Feed, Sym, Cut, Num;
    var p, s := Word(payload), Word(suffix);
    var base := Feed(1, p + Zeros(6));
    WordNarrow(suffix);
    assert Word(payload + suffix) == p + s;
    ShiftedIn(p, s);
    var full := Feed(1, p + s);
    // full == base + Feed(0, s), so full == 1 exactly when Feed(0, s) == base + 1
    AddMove(full, base, Feed(0, s), 1);
    FeedSix(s);
    AboveFive(Add(base, 1));
    FeedCut(Add(base, 1), 6);
    NumWord(suffix, Cut(Add(base, 1), 6));
  }

  lemma NumWord(vs: seq<int>, xs: seq<State>)
    requires Symbols(vs) && Narrow(xs) && |xs| == |vs| == 6
    ensures Word(vs) == xs <==> vs == seq(6, i requires 0 <= i < 6 => Num(xs[i]))
  {
    hide Sym, Num;
    var us := seq(6, i requires 0 <= i < 6 => Num(xs[i]));
    forall i | 0 <= i < 6 ensures Word(vs)[i] == xs[i] <==> vs[i] == us[i] {
      SymNum(xs[i]);
      NumSym(vs[i]);
    }
  }

  lemma ShiftedIn(p: seq<State>, s: seq<State>)
    requires |s| == 6
    ensures Add(Feed(1, p + s), Feed(1, p + Zeros(6))) == Feed(0, s)
  {
    hide Add, Feed;
    FeedDiff(p + s, p + Zeros(6));
    forall j | 0 <= j < |p| + 6 ensures Sum(p + s, p + Zeros(6))[j] == (Zeros(|p|) + s)[j] {
      AddSelf((p + s)[j], (p + s)[j]);
      AddZero((p + s)[j]);
    }
    assert Sum(p + s, p + Zeros(6)) == Zeros(|p|) + s;
    FeedConcat(0, Zeros(|p|), s);
    FeedZeros(0, |p|);
  }

  lemma AddMove(x: State, y: State, z: State, c: State)
    requires Add(x, y) == z
    ensures x == c <==> z == Add(y, c)
  {
    hide Add;
    AddComm(y, c);
    AddAssoc(x, y, y);
    AddAssoc(c, y, y);
    AddSelf(y, y);
    AddZero(x);
    AddZero(c);
  }
}
