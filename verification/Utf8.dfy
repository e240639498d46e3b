/**
  Strict UTF-8, as Python's `bytes.decode("utf-8")` applies it (RFC 3629): a `char`
  is a Unicode scalar value, and a byte an integer below 256.
 */
module Utf8 {
  import opened Common

  function EncodeChar(c: char): (bs: seq<int>)
    ensures 1 <= |bs| <= 4 && forall i :: 0 <= i < |bs| ==> 0 <= bs[i] < 256
  {
    var n := c as int;
    if n < 0x80 then [n]
    else if n < 0x800 then [0xC0 + n / 64, 0x80 + n % 64]
    else if n < 0x10000 then [0xE0 + n / 4096, 0x80 + n / 64 % 64, 0x80 + n % 64]
    else [0xF0 + n / 262144, 0x80 + n / 4096 % 64, 0x80 + n / 64 % 64, 0x80 + n % 64]
  }

  function Encode(s: string): (bs: seq<int>)
    ensures forall i :: 0 <= i < |bs| ==> 0 <= bs[i] < 256
  {
    if s == "" then [] else EncodeChar(s[0]) + Encode(s[1..])
  }

  predicate IsTail(b: int) {
    0x80 <= b < 0xC0
  }

  /** The first character of `bs`: overlong forms, surrogates and values past U+10FFFF are refused. */
  function DecodeChar(bs: seq<int>): (r: Option<(char, seq<int>)>)
    ensures r.Some? ==> |r.value.1| < |bs|
  {
    if |bs| >= 1 && 0 <= bs[0] < 0x80 then
      Some((bs[0] as char, bs[1..]))
    else if |bs| >= 2 && 0xC2 <= bs[0] < 0xE0 && IsTail(bs[1]) then
      Some((((bs[0] - 0xC0) * 64 + (bs[1] - 0x80)) as char, bs[2..]))
    else if |bs| >= 3 && 0xE0 <= bs[0] < 0xF0 && IsTail(bs[1]) && IsTail(bs[2]) then
      var n := (bs[0] - 0xE0) * 4096 + (bs[1] - 0x80) * 64 + (bs[2] - 0x80);
      if n < 0x800 || 0xD800 <= n < 0xE000 then None else Some((n as char, bs[3..]))
    else if |bs| >= 4 && 0xF0 <= bs[0] < 0xF5 && IsTail(bs[1]) && IsTail(bs[2]) && IsTail(bs[3]) then
      var n := (bs[0] - 0xF0) * 262144 + (bs[1] - 0x80) * 4096 + (bs[2] - 0x80) * 64 + (bs[3] - 0x80);
      if n < 0x10000 || n >= 0x110000 then None else Some((n as char, bs[4..]))
    else None
  }

  function Decode(bs: seq<int>): Option<string>
    decreases |bs|
  {
    if bs == [] then Some("")
    else
      var (c, rest) :- DecodeChar(bs);
      var s :- Decode(rest);
      Some([c] + s)
  }

  // Base 64, both ways.

  lemma Groups64(n: nat)
    ensures n / 64 * 64 + n % 64 == n
    ensures n / 4096 * 4096 + n / 64 % 64 * 64 + n % 64 == n
    ensures n / 262144 * 262144 + n / 4096 % 64 * 4096 + n / 64 % 64 * 64 + n % 64 == n
  {
    assert n / 4096 == n / 64 / 64 && n / 262144 == n / 4096 / 64;
  }

  lemma Digits64(a: nat, b: nat, c: nat, d: nat)
    requires b < 64 && c < 64 && d < 64
    ensures var n := a * 262144 + b * 4096 + c * 64 + d;
            n / 262144 == a && n / 4096 % 64 == b && n / 64 % 64 == c && n % 64 == d
  {
    var n := a * 262144 + b * 4096 + c * 64 + d;
    assert n / 64 == a * 4096 + b * 64 + c;
    assert n / 4096 == a * 64 + b;
  }

  lemma CharRoundTrip(c: char, rest: seq<int>)
    ensures DecodeChar(EncodeChar(c) + rest) == Some((c, rest))
  {
    var n := c as int;
    var bs := EncodeChar(c) + rest;
    Groups64(n);
    if n < 0x80 {
      assert bs[1..] == rest;
    } else if n < 0x800 {
      assert bs[2..] == rest;
    } else if n < 0x10000 {
      assert bs[0] == 0xE0 + n / 4096 && bs[1] == 0x80 + n / 64 % 64 && bs[2] == 0x80 + n % 64;
      assert bs[3..] == rest;
    } else {
      assert bs[0] == 0xF0 + n / 262144 && bs[1] == 0x80 + n / 4096 % 64;
      assert bs[2] == 0x80 + n / 64 % 64 && bs[3] == 0x80 + n % 64;
      assert bs[4..] == rest;
    }
  }

  lemma CharCanonical(bs: seq<int>)
    requires DecodeChar(bs).Some?
    ensures bs == EncodeChar(DecodeChar(bs).value.0) + DecodeChar(bs).value.1
  {
    if bs[0] < 0x80 {
    } else if bs[0] < 0xE0 {
      Digits64(0, 0, bs[0] - 0xC0, bs[1] - 0x80);
    } else if bs[0] < 0xF0 {
      Digits64(0, bs[0] - 0xE0, bs[1] - 0x80, bs[2] - 0x80);
    } else {
      Digits64(bs[0] - 0xF0, bs[1] - 0x80, bs[2] - 0x80, bs[3] - 0x80);
    }
  }

  lemma {:induction false} DecodeEncode(s: string)
    ensures Decode(Encode(s)) == Some(s)
  {
    hide EncodeChar, DecodeChar;
    if s != "" {
      CharRoundTrip(s[0], Encode(s[1..]));
      DecodeEncode(s[1..]);
      assert [s[0]] + s[1..] == s;
    }
  }

  /** The decoder accepts exactly what the encoder produces. */
  lemma {:induction false} DecodeIffEncode(bs: seq<int>, s: string)
    ensures Decode(bs) == Some(s) <==> bs == Encode(s)
    decreases |bs|
  {
    hide EncodeChar, DecodeChar;
    DecodeEncode(s);
    if Decode(bs) == Some(s) && bs != [] {
      var (c, rest) := DecodeChar(bs).value;
      CharCanonical(bs);
      DecodeIffEncode(rest, s[1..]);
    }
  }
}
