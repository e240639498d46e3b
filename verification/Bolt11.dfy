/**
  Offline BOLT 11 reading (app/core/bolt11.py): the payment hash from the tagged
  fields, proved against a printer of tagged fields.
 */
module Bolt11 {
  import opened Common
  import opened Numerals
  import opened Regroup
  import opened Checksum
  import opened Text
  import opened Lnurl

  // ----- framing -----

  /** `invoice.strip().lower()` */
  function Normal(invoice: string): string {
    Lower(RStrip(LStrip(invoice)))
  }

  predicate AllSpace(s: string) {
    forall i :: 0 <= i < |s| ==> IsSpace(s[i])
  }

  /** Normalising removes exactly the surrounding white space, and the case. */
  lemma {:induction false} NormalOf(before: string, core: string, after: string)
    requires AllSpace(before) && AllSpace(after)
    requires core != "" && !IsSpace(core[0]) && !IsSpace(core[|core| - 1])
    ensures Normal(before + core + after) == Lower(core)
    decreases |before| + |after|
  {
    var s := before + core + after;
    if before != "" {
      assert s[1..] == before[1..] + core + after;
      NormalOf(before[1..], core, after);
    } else {
      assert s == core + after;
      RStripOf(core, after);
    }
  }

  lemma {:induction false} RStripOf(core: string, after: string)
    requires AllSpace(after) && core != "" && !IsSpace(core[|core| - 1])
    ensures RStrip(core + after) == core
  {
    var s := core + after;
    if after == "" {
      assert s == core;
    } else {
      assert s[..|s| - 1] == core + after[..|after| - 1];
      RStripOf(core, after[..|after| - 1]);
    }
  }

  /** The tagged-field section: what is left without prefix, timestamp, signature and checksum. */
  function Tagged(inv: string): Option<string> {
    var pos := LastIndex(inv, '1');
    if inv[..if |inv| < 2 then |inv| else 2] != "ln" || pos < 0 then None
    else
      var data := inv[pos + 1..];
      if |data| < 6 + 7 + 104 then None else Some(data[7..|data| - 110])
  }

  // ----- tagged fields -----

  datatype Field = Field(tag: char, body: string)

  predicate Fits(f: Field) {
    |f.body| < 1024
  }

  /** A payment-hash field. */
  predicate IsHash(f: Field) {
    f.tag == 'p' && |f.body| == 52
  }

  /** A field as text: its tag, its length as two symbols, its body. */
  function PrintField(f: Field): (t: string)
    requires Fits(f)
    ensures |t| == 3 + |f.body|
  {
    [f.tag, Letter(|f.body| / 32), Letter(|f.body| % 32)] + f.body
  }

  function Print(fs: seq<Field>): string
    requires forall f :: f in fs ==> Fits(f)
  {
    if fs == [] then "" else PrintField(fs[0]) + Print(fs[1..])
  }

  function HexDigit(n: int): char
    requires 0 <= n < 16
  {
    if n < 10 then ('0' as int + n) as char else ('a' as int + n - 10) as char
  }

  function Hex(bs: seq<int>): string
    requires forall i :: 0 <= i < |bs| ==> 0 <= bs[i] < 256
  {
    if bs == [] then "" else [HexDigit(bs[0] / 16), HexDigit(bs[0] % 16)] + Hex(bs[1..])
  }

  lemma {:induction false} HexInjective(a: seq<int>, b: seq<int>)
    requires forall i :: 0 <= i < |a| ==> 0 <= a[i] < 256
    requires forall i :: 0 <= i < |b| ==> 0 <= b[i] < 256
    requires Hex(a) == Hex(b)
    ensures a == b
  {
    if a != [] && b != [] {
      assert Hex(a)[2..] == Hex(a[1..]) && Hex(b)[2..] == Hex(b[1..]);
      assert Hex(a)[0] == Hex(b)[0] && Hex(a)[1] == Hex(b)[1];
      assert a[0] == b[0];
      HexInjective(a[1..], b[1..]);
    }
  }

  /** The first 32 bytes of a body of 52 symbols; the last four bits are padding. */
  function HashBytes(body: string): (bs: seq<int>)
    requires |body| == 52 && InCharset(body)
    ensures |bs| == 32 && forall i :: 0 <= i < |bs| ==> 0 <= bs[i] < 256
  {
    var vs := Indices(body);
    FiveBits(vs);
    WidthTimes(52, 5);
    WidthTimes(32, 8);
    GroupsUnique(32, 4, 8);
    EightBits(Whole(vs, 5, 8));
    Whole(vs, 5, 8)
  }

  lemma {:induction false} WidthTimes(k: nat, w: nat)
    ensures w == 5 ==> Width(k, w) == 5 * k
    ensures w == 8 ==> Width(k, w) == 8 * k
  {
    if k > 0 {
      WidthTimes(k - 1, w);
    }
  }

  function HashText(body: string): Option<string>
    requires |body| == 52
  {
    if InCharset(body) then Some(Hex(HashBytes(body))) else None
  }

  /** Two payment-hash fields read as the same text exactly if they carry the same 32 bytes. */
  lemma SameHashExactly(a: string, b: string)
    requires |a| == 52 && |b| == 52 && InCharset(a) && InCharset(b)
    ensures HashText(a) == HashText(b) <==> HashBytes(a) == HashBytes(b)
  {
    hide HashBytes, Hex;
    if HashText(a) == HashText(b) {
      HexInjective(HashBytes(a), HashBytes(b));
    }
  }

  // ----- the walk -----

  /** What the walk returns on a tagged section, field by field. */
  function Walk(t: string): Option<string>
    decreases |t|
  {
    if |t| < 3 || Find(t[1]) == -1 || Find(t[2]) == -1 then None
    else
      var n := Find(t[1]) * 32 + Find(t[2]);
      if 3 + n > |t| then None
      else if t[0] == 'p' && n == 52 then HashText(t[3..55])
      else Walk(t[3 + n..])
  }

  /** `t` is a run of fields that are no payment hash, then a payment hash reading `h`, then anything. */
  ghost predicate Found(t: string, h: string) {
    exists fs: seq<Field>, f: Field, rest: string :: FoundAt(t, h, fs, f, rest)
  }

  ghost predicate FoundAt(t: string, h: string, fs: seq<Field>, f: Field, rest: string) {
    && (forall g :: g in fs ==> Fits(g) && !IsHash(g))
    && IsHash(f)
    && t == Print(fs) + PrintField(f) + rest
    && HashText(f.body) == Some(h)
  }

  /** A printed field parses back, whatever follows it. */
  lemma Header(f: Field, rest: string)
    requires Fits(f)
    ensures var t := PrintField(f) + rest;
            && Find(t[1]) * 32 + Find(t[2]) == |f.body| && Find(t[1]) != -1 && Find(t[2]) != -1
            && t[0] == f.tag && t[3..3 + |f.body|] == f.body && t[3 + |f.body|..] == rest
  {
    hide Find, Letter;
    FindLetter(|f.body| / 32);
    FindLetter(|f.body| % 32);
  }

  /** Any text with a readable header of the right length is a printed field and a rest. */
  lemma Unheader(t: string)
    requires |t| >= 3 && Find(t[1]) != -1 && Find(t[2]) != -1
    requires 3 + Find(t[1]) * 32 + Find(t[2]) <= |t|
    ensures var n := Find(t[1]) * 32 + Find(t[2]);
            Fits(Field(t[0], t[3..3 + n])) && t == PrintField(Field(t[0], t[3..3 + n])) + t[3 + n..]
  {
    hide Find, Letter;
    var n := Find(t[1]) * 32 + Find(t[2]);
    assert n / 32 == Find(t[1]) && n % 32 == Find(t[2]);
  }

  /** Soundness of the walk: a hash it returns is that of the first payment-hash field. */
  lemma {:induction false} WalkSound(t: string, h: string)
    requires Walk(t) == Some(h)
    ensures Found(t, h)
    decreases |t|
  {
    hide Find, Letter, HashText, PrintField, Found;
    var n := Find(t[1]) * 32 + Find(t[2]);
    var f, rest := Field(t[0], t[3..3 + n]), t[3 + n..];
    Unheader(t);
    if IsHash(f) {
      FoundHere(f, rest, h);
    } else {
      WalkSound(rest, h);
      FoundLater(f, rest, h);
    }
  }

  lemma FoundHere(f: Field, rest: string, h: string)
    requires IsHash(f) && HashText(f.body) == Some(h)
    ensures Found(PrintField(f) + rest, h)
  {
    hide PrintField, HashText;
    assert Print([]) + PrintField(f) + rest == PrintField(f) + rest;
    assert FoundAt(PrintField(f) + rest, h, [], f, rest);
  }

  lemma FoundLater(f: Field, rest: string, h: string)
    requires Fits(f) && !IsHash(f) && Found(rest, h)
    ensures Found(PrintField(f) + rest, h)
  {
    hide PrintField, HashText;
    var fs, g, tail :| FoundAt(rest, h, fs, g, tail);
    var gs := [f] + fs;
    assert gs[1..] == fs;
    assert PrintField(f) + rest == Print(gs) + PrintField(g) + tail;
    assert FoundAt(PrintField(f) + rest, h, gs, g, tail);
  }

  /** Skipping fields that are no payment hash. */
  lemma {:induction false} WalkSkips(fs: seq<Field>, rest: string)
    requires forall g :: g in fs ==> Fits(g) && !IsHash(g)
    ensures Walk(Print(fs) + rest) == Walk(rest)
  {
    hide Find, Letter, HashText;
    if fs == [] {
      assert Print(fs) + rest == rest;
    } else {
      var f, more := fs[0], Print(fs[1..]) + rest;
      Header(f, more);
      assert Print(fs) + rest == PrintField(f) + more;
      WalkSkips(fs[1..], rest);
    }
  }

  /** The walk finds exactly the first payment hash. */
  lemma WalkIffFound(t: string, h: string)
    ensures Walk(t) == Some(h) <==> Found(t, h)
  {
    hide Find, Letter, HashText;
    if Walk(t) == Some(h) {
      WalkSound(t, h);
    }
    if Found(t, h) {
      var fs, f, rest :| FoundAt(t, h, fs, f, rest);
      assert t == Print(fs) + (PrintField(f) + rest);
      WalkSkips(fs, PrintField(f) + rest);
      Header(f, rest);
    }
  }

  /** `_to_5bit`: the symbols, or nothing at all if some character has none. */
  method To5Bit(s: string) returns (out: seq<int>)
    ensures out == if InCharset(s) then Indices(s) else []
  {
    var r := ReadSymbols(s);
    out := if r.Some? then r.value else [];
  }

  /** The normalised invoice has a tagged section whose first payment-hash field reads `h`. */
  ghost predicate Carries(inv: string, h: string) {
    Tagged(inv).Some? && Found(Tagged(inv).value, h)
  }

  /** The payload of a payment-hash field, packed into bytes and written in hex. */
  method ReadHash(body: string) returns (r: Option<string>)
    requires |body| == 52
    ensures r == HashText(body)
  {
    hide Find, Letter, Hex, Whole;
    var symbols := To5Bit(body);
    FiveBits(symbols);
    var payload := From5BitBytes(symbols);
    EmptyWhole();
    assert InCharset(body) ==> payload == HashBytes(body);
    if |payload| < 32 {
      return None;
    }
    assert payload[..32] == payload;
    return Some(Hex(payload[..32]));
  }

  lemma EmptyWhole()
    ensures Whole([], 5, 8) == []
  {
  }

  /** The loop of `payment_hash_from_bolt11`. */
  method WalkTagged(tagged: string) returns (r: Option<string>)
    ensures r == Walk(tagged)
  {
    hide Find, Letter, HashText;
    var i := 0;
    while i + 3 <= |tagged|
      invariant 0 <= i <= |tagged|
      invariant Walk(tagged) == Walk(tagged[i..])
    {
      var high, low := Find(tagged[i + 1]), Find(tagged[i + 2]);
      if high == -1 || low == -1 {
        return None;
      }
      var count := high * 32 + low;
      var start, end := i + 3, i + 3 + count;
      if end > |tagged| {
        return None;
      }
      assert tagged[i..][3..3 + count] == tagged[start..end] && tagged[i..][3 + count..] == tagged[end..];
      if tagged[i] == 'p' && count == 52 {
        r := ReadHash(tagged[start..end]);
        return r;
      }
      i := end;
    }
    return None;
  }

  /** `payment_hash_from_bolt11`, given what the library's `strip` and `lower` make of the invoice. */
  method PaymentHash(inv: string) returns (r: Option<string>)
    ensures forall h :: r == Some(h) <==> Carries(inv, h)
  {
    var pos := LastIndex(inv, '1');
    if |inv| < 2 || inv[..2] != "ln" || pos == -1 {
      return None;
    }
    var data := inv[pos + 1..];
    if |data| < 6 + 7 + 104 {
      return None;
    }
    var chars := data[..|data| - 6];
    var tagged := chars[7..|chars| - 104];
    assert tagged == data[7..|data| - 110];
    r := WalkTagged(tagged);
    forall h ensures r == Some(h) <==> Carries(inv, h) {
      WalkIffFound(tagged, h);
    }
  }

  // ----- the printer -----

  /** Lower-case bech32 text. */
  predicate Plain(s: string) {
    forall i :: 0 <= i < |s| ==> s[i] in CHARSET
  }

  /** The hash of the first payment-hash field of a list. */
  function FirstHash(fs: seq<Field>): Option<string> {
    if fs == [] then None
    else if IsHash(fs[0]) then HashText(fs[0].body)
    else FirstHash(fs[1..])
  }

  lemma {:induction false} WalkPrint(fs: seq<Field>)
    requires forall f :: f in fs ==> Fits(f)
    ensures Walk(Print(fs)) == FirstHash(fs)
  {
    hide Find, Letter, HashText;
    if fs != [] {
      Header(fs[0], Print(fs[1..]));
      WalkPrint(fs[1..]);
    }
  }

  /** A whole invoice. */
  function PrintInvoice(hrp: string, stamp: string, fs: seq<Field>, sig: string, chk: string): string
    requires forall f :: f in fs ==> Fits(f)
  {
    hrp + "1" + (stamp + Print(fs) + sig + chk)
  }

  lemma PlainChar(c: char)
    requires c in CHARSET
    ensures c != '1' && !('A' <= c <= 'Z') && !IsSpace(c) && Find(c) != -1
  {
    var k :| 0 <= k < |CHARSET| && CHARSET[k] == c;
    LetterPlain(k);
  }

  lemma {:induction false} PlainPrint(fs: seq<Field>)
    requires forall f :: f in fs ==> Fits(f) && f.tag in CHARSET && Plain(f.body)
    ensures Plain(Print(fs))
  {
    if fs != [] {
      PlainPrint(fs[1..]);
      var t := PrintField(fs[0]);
      assert Letter(|fs[0].body| / 32) in CHARSET && Letter(|fs[0].body| % 32) in CHARSET;
      forall i | 0 <= i < |t| ensures t[i] in CHARSET {
        if i >= 3 {
          assert t[i] == fs[0].body[i - 3];
        }
      }
    }
  }

  /**
    The parser undoes the printer: whatever the prefix, timestamp, signature and checksum,
    what is read from a printed invoice is the first payment hash among its fields.
   */
  lemma ParserUndoesPrinter(inv: string, hrp: string, stamp: string, fs: seq<Field>, sig: string, chk: string, h: string)
    requires forall f :: f in fs ==> Fits(f) && f.tag in CHARSET && Plain(f.body)
    requires |hrp| >= 2 && hrp[..2] == "ln"
    requires |stamp| == 7 && |sig| == 104 && |chk| == 6 && Plain(stamp) && Plain(sig) && Plain(chk)
    requires inv == PrintInvoice(hrp, stamp, fs, sig, chk)
    ensures Carries(inv, h) <==> FirstHash(fs) == Some(h)
  {
    hide Find, Letter, Walk, Found, FirstHash, Print;
    var data := stamp + Print(fs) + sig + chk;
    PlainPrint(fs);
    forall i | 0 <= i < |data| ensures data[i] != '1' {
      PlainChar(data[i]);
    }
    LastIndexUnique(hrp, '1', data);
    assert inv[..2] == "ln";
    assert inv[|hrp| + 1..] == data;
    assert data[7..|data| - 110] == Print(fs);
    WalkPrint(fs);
    WalkIffFound(Print(fs), h);
  }

  /** A 32-byte hash written as a field reads back as that hash. */
  lemma HashFieldRoundTrip(hash: seq<int>)
    requires |hash| == 32 && forall i :: 0 <= i < 32 ==> 0 <= hash[i] < 256
    ensures Convert(hash, 8, 5, true).Some? && Symbols(Convert(hash, 8, 5, true).value)
    ensures var f := Field('p', Chars(Convert(hash, 8, 5, true).value));
            IsHash(f) && Plain(f.body) && HashText(f.body) == Some(Hex(hash))
  {
    hide Find, Letter, Hex, Whole;
    EightBits(hash);
    SplitThenJoin(hash, 8, 5);
    var vs := Convert(hash, 8, 5, true).value;
    PaddedValue(hash, 8, 5, vs);
    PaddedWidth(hash, 8, 5, vs);
    WidthTimes(32, 8);
    WidthTimes(|vs|, 5);
    FiveBits(vs);
    IndicesChars(vs);
    assert Whole(vs, 5, 8) == hash;
    assert HashBytes(Chars(vs)) == hash;
    forall i | 0 <= i < |vs| ensures Chars(vs)[i] in CHARSET {
      LetterIn(vs[i]);
    }
  }

  lemma LetterIn(v: int)
    requires IsSymbol(v)
    ensures Letter(v) in CHARSET
  {
  }
}
