/**
  `decode_lnurl` of app/core/bech32_lnurl.py, proved against a reference encoder
  (LUD-01 over BIP-173) that the repository itself does not contain.
 */
module Lnurl {
  import opened Common
  import opened Numerals
  import opened Regroup
  import opened Checksum
  import opened Text
  import Utf8

  const MAX_LEN := 2048

  /** `_hrp_expand`, on ASCII text. */
  function HrpExpand(hrp: string): (vs: seq<int>)
    requires IsAscii(hrp)
    ensures Symbols(vs)
  {
    seq(|hrp|, i requires 0 <= i < |hrp| => hrp[i] as int / 32)
    + [0]
    + seq(|hrp|, i requires 0 <= i < |hrp| => hrp[i] as int % 32)
  }

  /** The prefix that the checksum covers in front of the data. */
  function Prefix(): (vs: seq<int>)
    ensures Symbols(vs) && |vs| == 11
  {
    HrpExpand("lnurl")
  }

  lemma FiveBits(vs: seq<int>)
    ensures InRange(vs, 5) <==> Symbols(vs)
  {
    assert Pow2(5) == 32 by {
      assert Shl(1, 3) == 8;
    }
    assert InRange(vs, 5) ==> forall i :: 0 <= i < |vs| ==> 0 <= vs[i] < Pow2(5);
    assert Symbols(vs) ==> forall i :: 0 <= i < |vs| ==> IsSymbol(vs[i]);
  }

  lemma EightBits(bs: seq<int>)
    ensures InRange(bs, 8) <==> forall i :: 0 <= i < |bs| ==> 0 <= bs[i] < 256
  {
    assert Pow2(8) == 256 by {
      assert Shl(1, 3) == 8;
      assert Shl(1, 6) == 64;
    }
  }

  /** The symbols of a URL: its UTF-8 bytes in groups of five bits. */
  function Payload(url: string): (vs: seq<int>)
    ensures Symbols(vs)
  {
    var bs := Utf8.Encode(url);
    EightBits(bs);
    SplitThenJoin(bs, 8, 5);
    var vs := Convert(bs, 8, 5, true).value;
    PaddedValue(bs, 8, 5, vs);
    FiveBits(vs);
    vs
  }

  function Data(url: string): (vs: seq<int>)
    ensures Symbols(vs)
  {
    Payload(url) + ChecksumOf(Prefix() + Payload(url))
  }

  /** The reference encoder. */
  function Encode(url: string): string {
    "lnurl1" + Chars(Data(url))
  }

  /** What it is for `s` to be an LNURL of `url`: the encoder's text, in one case, within the length cap. */
  ghost predicate IsLnurl(s: string, url: string) {
    |s| <= MAX_LEN && !MixedCase(s) && Lower(s) == Encode(url)
  }

  /** The same for a text with any case mapping: `lower` and `upper` are its two forms. */
  ghost predicate IsFolded(s: string, lower: string, upper: string, url: string) {
    s != "" && |s| <= MAX_LEN && (lower == s || upper == s) && lower == Encode(url)
  }

  /** Everything that the decoder looks at on the way to `url`. */
  ghost predicate Shape(low: string, url: string) {
    && |low| >= 12
    && LastIndex(low, '1') == 5
    && low[..5] == "lnurl"
    && InCharset(low[6..])
    && DataOf(Indices(low[6..]), url)
  }

  /** The symbols carry a valid checksum and, in front of it, exactly the bytes of `url`. */
  ghost predicate DataOf(data: seq<int>, url: string)
    requires Symbols(data)
  {
    && |data| >= 6
    && Passes(Prefix() + data)
    && Convert(data[..|data| - 6], 5, 8, false) == Some(Utf8.Encode(url))
  }

  lemma EncodeShape(url: string)
    ensures Shape(Encode(url), url)
  {
    hide Utf8.Encode, ChecksumOf, Passes, Prefix, Find, Letter, Convert;
    var e, data := Encode(url), Data(url);
    assert "lnurl1" == "lnurl" + ['1'];
    IndicesChars(data);
    LastIndexUnique("lnurl", '1', Chars(data));
    assert e[..5] == "lnurl" && e[6..] == Chars(data);
    var bs := Utf8.Encode(url);
    EightBits(bs);
    SplitThenJoin(bs, 8, 5);
    assert data[..|data| - 6] == Payload(url);
    UniqueChecksum(Prefix() + Payload(url), ChecksumOf(Prefix() + Payload(url)));
    assert Prefix() + data == (Prefix() + Payload(url)) + ChecksumOf(Prefix() + Payload(url));
  }

  lemma ShapeDecodes(low: string, url: string)
    requires Shape(low, url)
    ensures low == Encode(url)
  {
    hide Utf8.Encode, ChecksumOf, Passes, Prefix, Find, Letter, Convert;
    var data := Indices(low[6..]);
    var payload, suffix := data[..|data| - 6], data[|data| - 6..];
    JoinThenSplit(payload, 8, 5);
    assert payload == Payload(url);
    UniqueChecksum(Prefix() + payload, suffix);
    assert Prefix() + data == (Prefix() + payload) + suffix;
    assert data == Data(url);
    CharsIndices(low[6..]);
    assert low == low[..5] + [low[5]] + low[6..];
  }

  /** The loop of `decode_lnurl` that looks every character up. */
  method ReadSymbols(text: string) returns (r: Option<seq<int>>)
    ensures r.Some? <==> InCharset(text)
    ensures r.Some? ==> r.value == Indices(text)
  {
    hide Find, Letter;
    var data: seq<int> := [];
    for k := 0 to |text|
      invariant InCharset(text[..k]) && data == Indices(text[..k])
    {
      var idx := Find(text[k]);
      if idx == -1 {
        return None;
      }
      assert text[..k + 1] == text[..k] + [text[k]];
      data := data + [idx];
    }
    assert text[..|text|] == text;
    return Some(data);
  }

  /** The tail of `decode_lnurl`: checksum, regrouping, UTF-8. */
  method DecodeData(data: seq<int>) returns (r: Option<string>)
    requires Symbols(data) && |data| >= 6
    ensures forall url :: r == Some(url) <==> DataOf(data, url)
  {
    hide Utf8.Encode, Utf8.Decode, Convert, Feed, Word, Prefix;
    var chk := Polymod(Prefix() + data);
    if chk != 1 {
      return None;
    }
    var payload := data[..|data| - 6];
    var bytes := ConvertBits(payload, 5, 8, false);
    if bytes.None? {
      return None;
    }
    r := Utf8.Decode(bytes.value);
    forall url ensures r == Some(url) <==> DataOf(data, url) {
      Utf8.DecodeIffEncode(bytes.value, url);
    }
  }

  /**
    `decode_lnurl`, given what the library's `lower` and `upper` make of the text: it returns
    `url` exactly when `s` is an LNURL of `url`. Round trip, rejection of everything else, and
    canonicity are all in this equivalence.
   */
  method DecodeLnurl(s: string, lower: string, upper: string) returns (r: Option<string>)
    ensures forall url :: r == Some(url) <==> IsFolded(s, lower, upper, url)
    ensures lower == Lower(s) && upper == Upper(s) ==> forall url :: r == Some(url) <==> IsLnurl(s, url)
  {
    hide Utf8.Encode, Utf8.Decode, Encode, DataOf, Find, Letter;
    forall url ensures IsFolded(s, Lower(s), Upper(s), url) <==> IsLnurl(s, url) {
      Folds(s, url);
    }
    forall url | IsFolded(s, lower, upper, url) ensures Shape(lower, url) {
      EncodeShape(url);
    }
    if |s| == 0 {
      return None;
    }
    if |s| > MAX_LEN {
      return None;
    }
    if lower != s && upper != s {
      return None;
    }
    var pos := LastIndex(lower, '1');
    if pos < 1 || pos + 7 > |lower| {
      return None;
    }
    var hrp := lower[..pos];
    if hrp != "lnurl" {
      return None;
    }
    var symbols := ReadSymbols(lower[pos + 1..]);
    if symbols.None? {
      return None;
    }
    var data := symbols.value;
    r := DecodeData(data);
    forall url ensures r == Some(url) <==> IsFolded(s, lower, upper, url) {
      if r == Some(url) {
        ShapeDecodes(lower, url);
      }
    }
  }

  /** On ASCII text the two notions agree. */
  lemma Folds(s: string, url: string)
    ensures IsFolded(s, Lower(s), Upper(s), url) <==> IsLnurl(s, url)
  {
    hide Data;
    assert |Encode(url)| >= 6;
  }

  /** The encoder's text, and its upper-case form, are LNURLs of the URL. */
  lemma RoundTrip(url: string)
    requires |Encode(url)| <= MAX_LEN
    ensures IsAscii(Encode(url)) && IsLnurl(Encode(url), url)
    ensures IsAscii(Upper(Encode(url))) && IsLnurl(Upper(Encode(url)), url)
  {
    hide Letter, Find, Data;
    IndicesChars(Data(url));
    LowerOfLower(Encode(url));
  }

  /** A text is the LNURL of at most one URL, and any two LNURLs of a URL differ in case only. */
  lemma OneUrlOneText(s: string, lower: string, upper: string, u: string, t: string, lower': string, upper': string, v: string)
    requires IsFolded(s, lower, upper, u) && IsFolded(t, lower', upper', v)
    ensures u == v <==> lower == lower'
  {
    hide Utf8.Encode, Utf8.Decode, Encode, Convert, Passes;
    EncodeShape(u);
    EncodeShape(v);
    Utf8.DecodeIffEncode(Utf8.Encode(u), u);
    Utf8.DecodeIffEncode(Utf8.Encode(u), v);
  }

  /** A change of the data characters is a change of the symbols at the same places. */
  lemma SymbolsDiffer(a: string, b: string, i: int)
    requires |a| == |b| >= 6 && InCharset(a[6..]) && InCharset(b[6..])
    requires forall j :: 0 <= j < |a| && a[j] != b[j] ==> i <= j < i + 6
    ensures var d, e := Prefix() + Indices(a[6..]), Prefix() + Indices(b[6..]);
            |d| == |e| && forall j :: 0 <= j < |d| && d[j] != e[j] ==> i + 5 <= j < i + 11
  {
    hide Find, Letter, Prefix;
    var x, y := a[6..], b[6..];
    var d, e := Prefix() + Indices(x), Prefix() + Indices(y);
    forall j | 0 <= j < |d| && d[j] != e[j] ensures i + 5 <= j < i + 11 {
      assert d[j] == Indices(x)[j - 11] && e[j] == Indices(y)[j - 11];
      assert x[j - 11] == a[j - 5] && y[j - 11] == b[j - 5];
    }
  }

  /** Texts that differ after equal prefixes have different symbols. */
  lemma DataDiffers(a: string, b: string)
    requires |a| == |b| >= 6 && a[..5] == b[..5] && a[5] == b[5] && InCharset(a[6..]) && InCharset(b[6..])
    ensures Indices(a[6..]) == Indices(b[6..]) ==> a == b
  {
    hide Find, Letter;
    CharsIndices(a[6..]);
    CharsIndices(b[6..]);
    assert a == a[..5] + [a[5]] + a[6..] && b == b[..5] + [b[5]] + b[6..];
  }

  /** Corrupting up to six consecutive characters of an LNURL never leaves an LNURL of anything. */
  lemma TextBurst(s: string, url: string, t: string, i: int, other: string)
    requires IsLnurl(s, url) && |t| == |s|
    requires forall j :: 0 <= j < |s| && Lower(s)[j] != Lower(t)[j] ==> i <= j < i + 6
    requires Lower(s) != Lower(t)
    ensures !IsLnurl(t, other)
  {
    hide Utf8.Encode, Encode, Convert, Passes, Find, Letter, Indices, Prefix;
    if IsLnurl(t, other) {
      var a, b := Lower(s), Lower(t);
      EncodeShape(url);
      EncodeShape(other);
      var d, e := Prefix() + Indices(a[6..]), Prefix() + Indices(b[6..]);
      SymbolsDiffer(a, b, i);
      assert d[11..] == Indices(a[6..]) && e[11..] == Indices(b[6..]);
      DataDiffers(a, b);
      BurstDetected(d, e, i + 5);
    }
  }
}
