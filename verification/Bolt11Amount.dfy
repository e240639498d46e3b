/**
  The amount of a BOLT 11 invoice (`principal_sats_from_bolt11`), read from its
  human-readable part with exact integers, against one specification in pico-BTC.
 */
module Bolt11Amount {
  import opened Common
  import opened Text
  import opened Bolt11

  predicate IsDigit(c: char) {
    '0' <= c <= '9'
  }

  predicate IsLetter(c: char) {
    'a' <= c <= 'z'
  }

  predicate Letters(s: string) {
    forall i :: 0 <= i < |s| ==> IsLetter(s[i])
  }

  predicate AllDigits(s: string) {
    forall i :: 0 <= i < |s| ==> IsDigit(s[i])
  }

  function Decimal(s: string): nat
    requires AllDigits(s)
  {
    if s == "" then 0 else Decimal(s[..|s| - 1]) * 10 + (s[|s| - 1] as int - '0' as int)
  }

  /** The end of the run of letters, or of digits, that starts at `i`. */
  function Run(s: string, i: nat, digits: bool): (j: nat)
    requires i <= |s|
    ensures i <= j <= |s|
    ensures forall k :: i <= k < j ==> if digits then IsDigit(s[k]) else IsLetter(s[k])
    ensures j < |s| ==> if digits then !IsDigit(s[j]) else !IsLetter(s[j])
    decreases |s| - i
  {
    if i < |s| && (if digits then IsDigit(s[i]) else IsLetter(s[i])) then Run(s, i + 1, digits) else i
  }

  predicate IsMultiplier(m: string) {
    m == "" || m == "m" || m == "u" || m == "n" || m == "p"
  }

  /** What `$` leaves in front of it: in Python it also matches before a final line feed. */
  function BeforeEnd(tail: string): string {
    if tail != "" && tail[|tail| - 1] == '\n' then tail[..|tail| - 1] else tail
  }

  /** The expression `^ln[a-z]+?(\d{1,14})([munp]?)$` as an automaton: its two groups. */
  function MatchHrp(hrp: string): (r: Option<(string, string)>)
    ensures r.Some? ==> AllDigits(r.value.0) && IsMultiplier(r.value.1)
  {
    if |hrp| < 2 || hrp[..2] != "ln" then None
    else
      var j := Run(hrp, 2, false);
      var k := Run(hrp, j, true);
      if j > 2 && 1 <= k - j <= 14 && IsMultiplier(BeforeEnd(hrp[k..]))
      then Some((hrp[j..k], BeforeEnd(hrp[k..])))
      else None
  }

  /** The same expression as a grammar. */
  ghost predicate Grammar(hrp: string, currency: string, digits: string, m: string, eol: string) {
    && hrp == "ln" + currency + digits + m + eol
    && currency != "" && Letters(currency)
    && 1 <= |digits| <= 14 && AllDigits(digits)
    && IsMultiplier(m)
    && (eol == "" || eol == "\n")
  }

  lemma RunUnique(s: string, i: nat, j: nat, digits: bool)
    requires i <= j <= |s|
    requires forall k :: i <= k < j ==> if digits then IsDigit(s[k]) else IsLetter(s[k])
    requires j < |s| ==> if digits then !IsDigit(s[j]) else !IsLetter(s[j])
    ensures Run(s, i, digits) == j
  {
  }

  lemma TailUnique(m: string, eol: string)
    requires IsMultiplier(m) && (eol == "" || eol == "\n")
    ensures BeforeEnd(m + eol) == m
    ensures m + eol != "" ==> !IsDigit((m + eol)[0])
  {
    assert m + "" == m && (m + "\n")[..|m|] == m;
  }

  /** The automaton reads every sentence of the grammar the one way it can be read. */
  lemma GrammarMatches(hrp: string, currency: string, digits: string, m: string, eol: string)
    requires Grammar(hrp, currency, digits, m, eol)
    ensures MatchHrp(hrp) == Some((digits, m))
  {
    hide Run, BeforeEnd;
    var j := 2 + |currency|;
    var k := j + |digits|;
    TailUnique(m, eol);
    assert hrp[..2] == "ln" && hrp[j..k] == digits && hrp[k..] == m + eol;
    assert forall x :: 2 <= x < j ==> hrp[x] == currency[x - 2];
    assert forall x :: j <= x < k ==> hrp[x] == digits[x - j];
    RunUnique(hrp, 2, j, false);
    assert k < |hrp| ==> hrp[k] == (m + eol)[0];
    RunUnique(hrp, j, k, true);
  }

  /** And accepts nothing else. */
  lemma MatchesGrammar(hrp: string) returns (currency: string, eol: string)
    requires MatchHrp(hrp).Some?
    ensures Grammar(hrp, currency, MatchHrp(hrp).value.0, MatchHrp(hrp).value.1, eol)
  {
    hide Run, BeforeEnd;
    var j := Run(hrp, 2, false);
    var k := Run(hrp, j, true);
    currency := hrp[2..j];
    eol := TailSplit(hrp[k..]);
    var (digits, m) := MatchHrp(hrp).value;
    assert hrp == "ln" + currency + digits + m + eol by {
      assert hrp[k..] == m + eol;
      assert hrp == hrp[..2] + hrp[2..j] + hrp[j..k] + hrp[k..];
    }
  }

  lemma TailSplit(tail: string) returns (eol: string)
    ensures tail == BeforeEnd(tail) + eol && (eol == "" || eol == "\n")
  {
    eol := tail[|BeforeEnd(tail)|..];
  }

  /** Millisatoshi per unit, for every multiplier but `p`. */
  function MsatPerUnit(m: string): nat
    requires IsMultiplier(m) && m != "p"
  {
    if m == "" then 100_000_000_000
    else if m == "m" then 100_000_000
    else if m == "u" then 100_000
    else 100
  }

  /** The arithmetic of `principal_sats_from_bolt11`. */
  function Sats(value: nat, m: string): Option<nat>
    requires IsMultiplier(m)
  {
    if m == "p" && value % 10 != 0 then None
    else
      var msat := if m == "p" then value / 10 else value * MsatPerUnit(m);
      if msat % 1000 != 0 then None else Some(msat / 1000)
  }

  /** `principal_sats_from_bolt11`, on the stripped and lower-cased invoice. */
  function PrincipalSats(inv: string): Option<nat> {
    var pos := LastIndex(inv, '1');
    if pos <= 0 then None
    else
      var (digits, m) :- MatchHrp(inv[..pos]);
      Sats(Decimal(digits), m)
  }

  /** Pico-BTC per unit: powers of a thousand. */
  function PicoPerUnit(m: string): nat
    requires IsMultiplier(m)
  {
    if m == "" then 1_000_000_000_000
    else if m == "m" then 1_000_000_000
    else if m == "u" then 1_000_000
    else if m == "n" then 1_000
    else 1
  }

  /** The invoice is for `pico` pico-BTC: its text has a reading in the grammar that says so. */
  ghost predicate Bills(inv: string, pico: nat) {
    exists hrp, currency, digits, m, eol, data ::
      Reads(inv, hrp, currency, digits, m, eol, data) && pico == Decimal(digits) * PicoPerUnit(m)
  }

  ghost predicate Reads(inv: string, hrp: string, currency: string, digits: string, m: string, eol: string, data: string) {
    && inv == hrp + "1" + data && '1' !in data
    && Grammar(hrp, currency, digits, m, eol)
  }

  /** A satoshi is ten thousand pico-BTC; what is no whole number of them is refused. */
  function WholeSats(pico: nat): Option<nat> {
    if pico % 10_000 == 0 then Some(pico / 10_000) else None
  }

  lemma SatsExact(value: nat, m: string)
    requires IsMultiplier(m)
    ensures Sats(value, m) == WholeSats(value * PicoPerUnit(m))
  {
    if m == "p" {
      PicoExact(value);
    } else {
      UnitExact(value * MsatPerUnit(m));
    }
  }

  lemma PicoExact(value: nat)
    ensures Sats(value, "p") == WholeSats(value)
  {
    var msat := value / 10;
    Quotient(value, msat / 1000, msat % 1000 * 10 + value % 10);
  }

  /** Ten pico-BTC are a millisatoshi. */
  lemma UnitExact(msat: nat)
    ensures WholeSats(msat * 10) == if msat % 1000 != 0 then None else Some(msat / 1000)
  {
    Quotient(msat * 10, msat / 1000, msat % 1000 * 10);
  }

  lemma Quotient(n: nat, q: nat, r: nat)
    requires n == q * 10_000 + r && r < 10_000
    ensures n / 10_000 == q && n % 10_000 == r
  {
  }

  /** For all five multipliers the arithmetic is that one specification. */
  lemma ExactAmount(inv: string, pico: nat)
    requires Bills(inv, pico)
    ensures PrincipalSats(inv) == WholeSats(pico)
  {
    hide Sats, WholeSats, MatchHrp, Decimal, PicoPerUnit, LastIndex;
    var hrp, currency, digits, m, eol, data :|
      Reads(inv, hrp, currency, digits, m, eol, data) && pico == Decimal(digits) * PicoPerUnit(m);
    LastIndexUnique(hrp, '1', data);
    assert inv[..|hrp|] == hrp;
    GrammarMatches(hrp, currency, digits, m, eol);
    SatsExact(Decimal(digits), m);
  }

  /** Every amount that is read is one that the invoice bills. */
  lemma OnlyBilled(inv: string, sats: nat)
    requires PrincipalSats(inv) == Some(sats)
    ensures Bills(inv, sats * 10_000)
  {
    hide Sats, MatchHrp, Decimal, PicoPerUnit;
    var pos := LastIndex(inv, '1');
    var hrp, data := inv[..pos], inv[pos + 1..];
    var currency, eol := MatchesGrammar(hrp);
    var (digits, m) := MatchHrp(hrp).value;
    assert inv == hrp + "1" + data;
    assert Reads(inv, hrp, currency, digits, m, eol, data);
    SatsExact(Decimal(digits), m);
    assert Decimal(digits) * PicoPerUnit(m) == sats * 10_000;
  }

  /** An invoice bills at most one amount, and invoices that bill the same amount read the same. */
  lemma AmountsAgree(a: string, b: string, p: nat, q: nat)
    requires Bills(a, p) && Bills(b, q)
    ensures a == b ==> p == q
    ensures p == q ==> PrincipalSats(a) == PrincipalSats(b)
  {
    hide MatchHrp, Decimal, PicoPerUnit, LastIndex, PrincipalSats, WholeSats;
    ExactAmount(a, p);
    ExactAmount(b, q);
    if a == b {
      var h1, c1, d1, m1, e1, x1 :| Reads(a, h1, c1, d1, m1, e1, x1) && p == Decimal(d1) * PicoPerUnit(m1);
      var h2, c2, d2, m2, e2, x2 :| Reads(a, h2, c2, d2, m2, e2, x2) && q == Decimal(d2) * PicoPerUnit(m2);
      LastIndexUnique(h1, '1', x1);
      LastIndexUnique(h2, '1', x2);
      assert h1 == a[..|h1|] && h2 == a[..|h2|];
      GrammarMatches(h1, c1, d1, m1, e1);
      GrammarMatches(h2, c2, d2, m2, e2);
    }
  }
}
