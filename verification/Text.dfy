/**
  Text helpers shared by the LNURL and BOLT 11 readers: ASCII case, the bech32
  alphabet and `str.rfind`. Case mapping is modelled for ASCII only.
 */
module Text {
  import opened Checksum

  const CHARSET := "qpzry9x8gf2tvdw0s3jn54khce6mua7l"

  predicate IsAscii(s: string) {
    forall i :: 0 <= i < |s| ==> s[i] as int < 128
  }

  function LowerChar(c: char): char {
    if 'A' <= c <= 'Z' then (c as int + 32) as char else c
  }

  function UpperChar(c: char): char {
    if 'a' <= c <= 'z' then (c as int - 32) as char else c
  }

  function Lower(s: string): (t: string)
    ensures |t| == |s|
  {
    seq(|s|, i requires 0 <= i < |s| => LowerChar(s[i]))
  }

  function Upper(s: string): (t: string)
    ensures |t| == |s|
  {
    seq(|s|, i requires 0 <= i < |s| => UpperChar(s[i]))
  }

  /** A string that neither all-lower nor all-upper case leaves alone. */
  predicate MixedCase(s: string) {
    Lower(s) != s && Upper(s) != s
  }

  predicate IsLower(s: string) {
    forall i :: 0 <= i < |s| ==> !('A' <= s[i] <= 'Z')
  }

  lemma LowerOfLower(s: string)
    requires IsLower(s)
    ensures Lower(s) == s && Lower(Upper(s)) == s
    ensures !MixedCase(s) && !MixedCase(Upper(s))
  {
    assert Upper(Upper(s)) == Upper(s);
  }

  /** `CHARSET.find(c)`, searching from position `i`. */
  function Find(c: char, i: nat := 0): (k: int)
    requires i <= |CHARSET|
    ensures k == -1 || (i <= k < 32 && Letter(k) == c)
    ensures k == -1 ==> forall j :: i <= j < |CHARSET| ==> CHARSET[j] != c
    decreases |CHARSET| - i
  {
    if i == |CHARSET| then -1 else if CHARSET[i] == c then i else Find(c, i + 1)
  }

  /** The letter of a symbol. */
  function Letter(v: int): char
    requires IsSymbol(v)
  {
    CHARSET[v]
  }

  lemma LettersDistinct(i: nat, j: nat)
    requires i < j < 32
    ensures Letter(i) != Letter(j)
  {
  }

  /** No symbol is written with the separator, an upper-case letter or a non-ASCII character. */
  lemma LetterPlain(v: int)
    requires IsSymbol(v)
    ensures Letter(v) != '1' && !('A' <= Letter(v) <= 'Z') && Letter(v) as int < 128
    ensures !IsSpace(Letter(v))
  {
  }

  lemma FindLetter(v: int)
    requires IsSymbol(v)
    ensures Find(Letter(v)) == v
  {
    var k := Find(Letter(v));
    assert CHARSET[v] == Letter(v);
    if k < v {
      LettersDistinct(k, v);
    } else if v < k {
      LettersDistinct(v, k);
    }
  }

  /** Symbols as text. */
  function Chars(vs: seq<int>): (s: string)
    requires Symbols(vs)
    ensures |s| == |vs|
  {
    seq(|vs|, i requires 0 <= i < |vs| => Letter(vs[i]))
  }

  predicate InCharset(s: string) {
    forall i :: 0 <= i < |s| ==> Find(s[i]) != -1
  }

  /** Text as symbols. */
  function Indices(s: string): (vs: seq<int>)
    requires InCharset(s)
    ensures |vs| == |s| && Symbols(vs)
  {
    seq(|s|, i requires 0 <= i < |s| => Find(s[i]))
  }

  lemma CharsIndices(s: string)
    requires InCharset(s)
    ensures Chars(Indices(s)) == s
  {
  }

  lemma IndicesChars(vs: seq<int>)
    requires Symbols(vs)
    ensures InCharset(Chars(vs)) && Indices(Chars(vs)) == vs
    ensures '1' !in Chars(vs) && IsLower(Chars(vs)) && IsAscii(Chars(vs))
  {
    hide Letter, Find;
    forall i | 0 <= i < |vs| ensures Find(Chars(vs)[i]) == vs[i] {
      FindLetter(vs[i]);
    }
    forall i | 0 <= i < |vs|
      ensures Chars(vs)[i] != '1' && !('A' <= Chars(vs)[i] <= 'Z') && Chars(vs)[i] as int < 128
    {
      LetterPlain(vs[i]);
    }
  }

  /** `s.rfind(c)` */
  function LastIndex(s: string, c: char): (k: int)
    ensures -1 <= k < |s|
    ensures k >= 0 ==> s[k] == c
    ensures forall j :: k < j < |s| ==> s[j] != c
  {
    if s == "" then -1
    else if s[|s| - 1] == c then |s| - 1
    else LastIndex(s[..|s| - 1], c)
  }

  lemma LastIndexUnique(a: string, c: char, b: string)
    requires c !in b
    ensures LastIndex(a + [c] + b, c) == |a|
  {
    var s := a + [c] + b;
    assert s[|a|] == c;
    assert forall j :: |a| < j < |s| ==> s[j] in b;
  }

  /** ASCII white space, as `str.strip` removes it. */
  predicate IsSpace(c: char) {
    c == ' ' || 9 <= c as int <= 13 || 28 <= c as int <= 31
  }

  function LStrip(s: string): string {
    if s != "" && IsSpace(s[0]) then LStrip(s[1..]) else s
  }

  function RStrip(s: string): string {
    if s != "" && IsSpace(s[|s| - 1]) then RStrip(s[..|s| - 1]) else s
  }
}
