/**
  `_convertbits` (app/core/bech32_lnurl.py) and `_from_5bit_bytes`
  (app/core/bolt11.py): regrouping a stream of `a`-bit digits into `b`-bit digits.
  The source never masks its accumulator, so the accumulator here is an unbounded
  natural number.
 */
module Regroup {
  import opened Common
  import opened Numerals

  /** How many bits of `data` are left over after cutting it into whole `b`-bit groups. */
  function LeftOver(data: seq<int>, a: nat, b: nat): (bits: nat)
    requires b > 0
    ensures bits < b
  {
    Left(Width(|data|, a), b)
  }

  /** The whole groups: the leading bits of the input. */
  function Whole(data: seq<int>, a: nat, b: nat): (out: seq<int>)
    requires InRange(data, a) && b > 0
  {
    Digits(Shr(Val(data, a), LeftOver(data, a, b)), Groups(Width(|data|, a), b), b)
  }

  /** The left-over bits, as a number. */
  function Rest(data: seq<int>, a: nat, b: nat): (r: nat)
    requires InRange(data, a) && b > 0
  {
    Low(Val(data, a), LeftOver(data, a, b))
  }

  /** What regrouping means: no loop, no accumulator. */
  function Convert(data: seq<int>, a: nat, b: nat, pad: bool): Option<seq<int>>
    requires b > 0
  {
    if !InRange(data, a) then None
    else
      var bits := LeftOver(data, a, b);
      if pad then
        Some(if bits > 0 then Whole(data, a, b) + [Shl(Rest(data, a, b), b - bits)] else Whole(data, a, b))
      else if bits >= a || Rest(data, a, b) != 0 then None
      else Some(Whole(data, a, b))
  }

  /** One round of either loop: `acc` holds the bits of `done`, `ret` the groups cut so far. */
  ghost predicate Progress(done: seq<int>, a: nat, b: nat, acc: nat, bits: nat, ret: seq<int>) {
    && InRange(done, a)
    && acc == Val(done, a)
    && Width(|ret|, b) + bits == Width(|done|, a)
    && ret == Digits(Shr(acc, bits), |ret|, b)
  }

  lemma ProgressStart(a: nat, b: nat)
    ensures Progress([], a, b, 0, 0, [])
  {
  }

  lemma ProgressPush(done: seq<int>, v: int, a: nat, b: nat, acc: nat, bits: nat, ret: seq<int>)
    requires Progress(done, a, b, acc, bits, ret) && 0 <= v < Pow2(a)
    ensures Progress(done + [v], a, b, Shl(acc, a) + v, bits + a, ret)
  {
    hide Val, Shl, Shr, Low, Digits;
    ValAppend(done, v, a);
    Append(acc, v, a);
    ShrShr(Shl(acc, a) + v, a, bits);
  }

  lemma ProgressCut(done: seq<int>, a: nat, b: nat, acc: nat, bits: nat, ret: seq<int>)
    requires Progress(done, a, b, acc, bits, ret) && bits >= b
    ensures Progress(done, a, b, acc, bits - b, ret + [Low(Shr(acc, bits - b), b)])
  {
    ShrShr(acc, bits - b, b);
  }

  lemma ProgressEnd(data: seq<int>, a: nat, b: nat, acc: nat, bits: nat, ret: seq<int>)
    requires Progress(data, a, b, acc, bits, ret) && bits < b
    ensures bits == LeftOver(data, a, b) && ret == Whole(data, a, b)
    ensures Low(Shl(acc, b - bits), b) == Shl(Rest(data, a, b), b - bits)
  {
    hide Val, Shl, Shr, Low, Digits, Width, Left, Groups;
    GroupsUnique(|ret|, bits, b);
    Split(acc, bits);
    ShlAdd(Shl(Shr(acc, bits), bits), Low(acc, bits), b - bits);
    ShlShl(Shr(acc, bits), bits, b - bits);
    ShlBelow(Low(acc, bits), 0, bits, b - bits);
    Append(Shr(acc, bits), Shl(Low(acc, bits), b - bits), b);
  }

  /** The loop of `_convertbits`. */
  method ConvertBits(data: seq<int>, frombits: nat, tobits: nat, pad: bool) returns (r: Option<seq<int>>)
    requires tobits > 0
    ensures r == Convert(data, frombits, tobits, pad)
  {
    hide Val, Shl, Shr, Low, Digits, Width, Left, Groups;
    ProgressStart(frombits, tobits);
    var acc: nat, bits: nat := 0, 0;
    var ret: seq<int> := [];
    for i := 0 to |data|
      invariant bits < tobits && Progress(data[..i], frombits, tobits, acc, bits, ret)
    {
      var value := data[i];
      if value < 0 || Shr(value, frombits) != 0 {
        Narrow(value, frombits);
        return None;
      }
      Narrow(value, frombits);
      ProgressPush(data[..i], value, frombits, tobits, acc, bits, ret);
      assert data[..i] + [value] == data[..i + 1];
      acc := Shl(acc, frombits) + value;
      bits := bits + frombits;
      while bits >= tobits
        invariant Progress(data[..i + 1], frombits, tobits, acc, bits, ret)
      {
        ProgressCut(data[..i + 1], frombits, tobits, acc, bits, ret);
        bits := bits - tobits;
        ret := ret + [Low(Shr(acc, bits), tobits)];
      }
    }
    assert data[..|data|] == data;
    ProgressEnd(data, frombits, tobits, acc, bits, ret);
    ShlZero(Rest(data, frombits, tobits), tobits - bits);
    if pad {
      if bits != 0 {
        ret := ret + [Low(Shl(acc, tobits - bits), tobits)];
      }
    } else if bits >= frombits || Low(Shl(acc, tobits - bits), tobits) != 0 {
      return None;
    }
    return Some(ret);
  }

  /** `value >> b` is zero exactly when `value` has at most `b` bits. */
  lemma Narrow(value: int, b: nat)
    ensures value >= 0 ==> (Shr(value, b) == 0 <==> value < Pow2(b))
  {
    if value >= 0 {
      Split(value, b);
      ShlZero(Shr(value, b), b);
      if Shr(value, b) > 0 {
        ShlAdd(Shr(value, b) - 1, 1, b);
      }
    }
  }

  lemma {:induction false} ShlZero(n: nat, b: nat)
    ensures Shl(n, b) == 0 <==> n == 0
  {
    if b > 0 {
      ShlZero(n, b - 1);
    }
  }

  /** The loop of `_from_5bit_bytes`: whole bytes only, left-over bits dropped. */
  method From5BitBytes(values: seq<int>) returns (out: seq<int>)
    requires InRange(values, 5)
    ensures out == Whole(values, 5, 8)
  {
    hide Val, Shl, Shr, Low, Digits, Width, Left, Groups;
    ProgressStart(5, 8);
    var acc: nat, bits: nat := 0, 0;
    out := [];
    for i := 0 to |values|
      invariant bits < 8 && Progress(values[..i], 5, 8, acc, bits, out)
    {
      ProgressPush(values[..i], values[i], 5, 8, acc, bits, out);
      assert values[..i] + [values[i]] == values[..i + 1];
      acc := Shl(acc, 5) + values[i];
      bits := bits + 5;
      while bits >= 8
        invariant Progress(values[..i + 1], 5, 8, acc, bits, out)
      {
        ProgressCut(values[..i + 1], 5, 8, acc, bits, out);
        bits := bits - 8;
        out := out + [Low(Shr(acc, bits), 8)];
      }
    }
    assert values[..|values|] == values;
    ProgressEnd(values, 5, 8, acc, bits, out);
  }

  lemma WholeVal(data: seq<int>, a: nat, b: nat)
    requires InRange(data, a) && b > 0
    ensures Val(Whole(data, a, b), b) == Shr(Val(data, a), LeftOver(data, a, b))
  {
    var k, bits := Groups(Width(|data|, a), b), LeftOver(data, a, b);
    ValBound(data, a);
    GroupsAndLeft(Width(|data|, a), b);
    ShrBelow(Val(data, a), Width(k, b), bits);
    ValDigits(Shr(Val(data, a), bits), k, b);
  }

  lemma PadValue(n: nat, bits: nat, pad: nat)
    ensures Shl(n, pad) == Shl(Shr(n, bits), bits + pad) + Shl(Low(n, bits), pad)
  {
    Split(n, bits);
    ShlAdd(Shl(Shr(n, bits), bits), Low(n, bits), pad);
    ShlShl(Shr(n, bits), bits, pad);
  }

  /** How many zero bits fill up the last group. */
  function Padding(data: seq<int>, a: nat, b: nat): (pad: nat)
    requires b > 0
    ensures pad < b
  {
    var bits := LeftOver(data, a, b);
    if bits > 0 then b - bits else 0
  }

  lemma PaddedTail(data: seq<int>, a: nat, b: nat, out: seq<int>)
    requires InRange(data, a) && b > 0 && LeftOver(data, a, b) > 0
    requires out == Convert(data, a, b, true).value
    ensures InRange(out, b)
    ensures Val(out, b) == Shl(Val(data, a), Padding(data, a, b))
  {
    hide Val, Shl, Shr, Low, Digits, Width, Left, Groups;
    var bits, whole, rest := LeftOver(data, a, b), Whole(data, a, b), Rest(data, a, b);
    WholeVal(data, a, b);
    ShlBelow(rest, 0, bits, b - bits);
    ValAppend(whole, Shl(rest, b - bits), b);
    PadValue(Val(data, a), bits, b - bits);
    assert out == whole + [Shl(rest, b - bits)];
  }

  /** Padded output is the input number shifted left to the next whole group. */
  lemma PaddedValue(data: seq<int>, a: nat, b: nat, out: seq<int>)
    requires InRange(data, a) && b > 0
    requires out == Convert(data, a, b, true).value
    ensures InRange(out, b)
    ensures Val(out, b) == Shl(Val(data, a), Padding(data, a, b))
  {
    if LeftOver(data, a, b) > 0 {
      PaddedTail(data, a, b, out);
    } else {
      WholeVal(data, a, b);
    }
  }

  lemma PaddedWidth(data: seq<int>, a: nat, b: nat, out: seq<int>)
    requires InRange(data, a) && b > 0
    requires out == Convert(data, a, b, true).value
    ensures Width(|out|, b) == Width(|data|, a) + Padding(data, a, b)
  {
    hide Val, Shl, Shr, Low, InRange, Digits, Width, Groups, Left;
    var n := Width(|data|, a);
    GroupsAndLeft(n, b);
    WidthNext(Groups(n, b), b);
  }

  lemma WidthNext(k: nat, w: nat)
    ensures Width(k + 1, w) == Width(k, w) + w
  {
  }

  /** Splitting into narrower groups with padding, then joining without, loses nothing. */
  lemma SplitThenJoin(data: seq<int>, a: nat, b: nat)
    requires InRange(data, a) && 0 < b <= a
    ensures Convert(data, a, b, true).Some?
    ensures Convert(Convert(data, a, b, true).value, b, a, false) == Some(data)
  {
    hide Val, Shl, Shr, Low, Digits, Width, Left, Groups;
    var out := Convert(data, a, b, true).value;
    PaddedValue(data, a, b, out);
    PaddedWidth(data, a, b, out);
    var pad := Padding(data, a, b);
    GroupsUnique(|data|, pad, a);
    Append(Val(data, a), 0, pad);
    DigitsVal(data, a);
  }

  /** Whatever joining accepts, splitting turns back into the same symbols. */
  lemma JoinThenSplit(syms: seq<int>, a: nat, b: nat)
    requires 0 < b <= a
    requires Convert(syms, b, a, false).Some?
    ensures InRange(Convert(syms, b, a, false).value, a)
    ensures Convert(Convert(syms, b, a, false).value, a, b, true) == Some(syms)
  {
    hide Val, Shl, Shr, Low, Digits, Width, Left, Groups;
    var data := Convert(syms, b, a, false).value;
    var bits := LeftOver(syms, b, a);
    WholeVal(syms, b, a);
    GroupsAndLeft(Width(|syms|, b), a);
    var out := Convert(data, a, b, true).value;
    PaddedValue(data, a, b, out);
    PaddedWidth(data, a, b, out);
    WidthInjective(|out|, |syms|, b, Width(|data|, a));
    Split(Val(syms, b), bits);
    ValInjective(out, syms, b);
  }

  lemma {:induction false} WidthInjective(m: nat, n: nat, b: nat, total: nat)
    requires total <= Width(m, b) < total + b && total <= Width(n, b) < total + b
    ensures m == n
  {
    if m > 0 && n > 0 {
      if total >= b {
        WidthInjective(m - 1, n - 1, b, total - b);
      } else {
        assert Width(m, b) == Width(m - 1, b) + b && Width(n, b) == Width(n - 1, b) + b;
      }
    }
  }

  /** So joining is injective: no two symbol lists decode to the same digits. */
  lemma JoinInjective(s: seq<int>, t: seq<int>, a: nat, b: nat)
    requires 0 < b <= a
    requires Convert(s, b, a, false).Some?
    requires Convert(s, b, a, false) == Convert(t, b, a, false)
    ensures s == t
  {
    JoinThenSplit(s, a, b);
    JoinThenSplit(t, a, b);
  }
}
