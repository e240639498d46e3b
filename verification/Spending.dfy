/**
  Spend limits for one API key: the per-payment cap and fee budgets of
  app/api/payments.py, app/api/channels.py and app/api/bolt12.py, and the rolling
  ledger of app/core/rate_limit.py (a reservation does not age out of the window).
 */
module Spending {
  import opened Common

  /** `LND_MAX_PAYMENT_SATS` (-1: none), the spend limit and the velocity limit (0 or less: off). */
  datatype Config = Config(maxSats: int, spendLimit: int, velocityLimit: int)

  /** What a request asks to spend; an invoice has its amount, and the whole sats that LND reports for it. */
  datatype Quote =
    | Invoice(amountSats: int, msat: nat, feeLimit: Option<nat>)
    | Offer(offerMsat: Option<nat>, askedMsat: Option<nat>)
    | Onchain(amount: nat, rate: Option<nat>)
    | Channel(funding: nat, rate: Option<nat>)

  predicate Lightning(q: Quote) {
    q.Invoice? || q.Offer?
  }

  const VBYTE_ESTIMATE := 250

  /** `_check_payment_limit`; the same test guards every kind of spend. */
  predicate UnderCap(cfg: Config, sats: int) {
    cfg.maxSats == -1 || sats <= cfg.maxSats
  }

  /** The default routing-fee budget: five per cent, at least one satoshi. */
  function DefaultFee(sats: nat): nat {
    if sats / 20 > 1 then sats / 20 else 1
  }

  /** `_resolve_pay_amount` */
  function ResolveAmount(offerMsat: Option<nat>, askedMsat: Option<nat>): Option<nat> {
    match (offerMsat, askedMsat)
    case (Some(o), Some(a)) => if a < o then None else Some(a)
    case (Some(o), None) => Some(o)
    case (None, a) => a
  }

  /** The routing-fee limit of an invoice: the caller's, else the default. */
  function InvoiceFee(amountSats: int, feeLimit: Option<nat>): nat {
    if feeLimit.Some? then feeLimit.value else DefaultFee(if amountSats > 0 then amountSats else 0)
  }

  function SatsUp(msat: nat): nat {
    (msat + 999) / 1000
  }

  function FeeEstimate(rate: Option<nat>): nat {
    if rate.Some? then rate.value * VBYTE_ESTIMATE else 0
  }

  /** What a request reserves in the ledger, or None when it is refused outright. */
  function BudgetOf(cfg: Config, q: Quote): Option<nat> {
    match q
    case Invoice(amount, _, limit) =>
      if amount <= 0 then None
      else
        var total := amount + InvoiceFee(amount, limit);
        if UnderCap(cfg, total) then Some(total) else None
    case Offer(o, a) =>
      var msat :- ResolveAmount(o, a);
      var total := SatsUp(msat) + DefaultFee(SatsUp(msat));
      if UnderCap(cfg, total) then Some(total) else None
    case Onchain(amount, rate) =>
      if UnderCap(cfg, amount) then Some(amount + FeeEstimate(rate)) else None
    case Channel(funding, rate) =>
      if UnderCap(cfg, funding) then Some(funding + FeeEstimate(rate)) else None
  }

  /** What LND is told: an amount and a routing-fee limit, or an amount and a fee rate. */
  datatype Order = Pay(amountMsat: nat, feeMsat: nat) | Broadcast(sats: nat, rate: Option<nat>)

  function OrderOf(q: Quote): Order {
    match q
    case Invoice(amount, msat, limit) => Pay(msat, InvoiceFee(amount, limit) * 1000)
    case Offer(o, a) =>
      var msat := ResolveAmount(o, a);
      if msat.Some? then Pay(msat.value, DefaultFee(SatsUp(msat.value)) * 1000) else Pay(0, 0)
    case Onchain(amount, rate) => Broadcast(amount, rate)
    case Channel(funding, rate) => Broadcast(funding, rate)
  }

  /** The most that LND may move on an order, in msat; on-chain fees are not in it. */
  function Most(order: Order): nat {
    match order
    case Pay(amount, fee) => amount + fee
    case Broadcast(sats, _) => sats * 1000
  }

  /** LND reports an invoice in whole sats, rounded down. */
  predicate RoundedDown(q: Quote) {
    q.Invoice? ==> q.amountSats * 1000 <= q.msat < (q.amountSats + 1) * 1000
  }

  /**
    The order never exceeds the reservation by more than what rounding took off the invoice,
    and stays below the next whole satoshi; it is within the reservation exactly if the invoice
    is for no more than the whole sats that LND reports. The same holds of the cap.
   */
  lemma SendWithinBudget(cfg: Config, q: Quote)
    requires BudgetOf(cfg, q).Some?
    ensures var reserve, most := BudgetOf(cfg, q).value, Most(OrderOf(q));
            && (q.Invoice? ==> most - reserve * 1000 == q.msat - q.amountSats * 1000)
            && (q.Invoice? ==> (most <= reserve * 1000 <==> q.msat <= q.amountSats * 1000))
            && (!q.Invoice? ==> most <= reserve * 1000)
            && (RoundedDown(q) ==> most / 1000 <= reserve)
            && (RoundedDown(q) && cfg.maxSats != -1 ==> most / 1000 <= cfg.maxSats)
    ensures var order := OrderOf(q);
            && (q.Offer? && q.offerMsat.Some? ==> order.amountMsat >= q.offerMsat.value)
            && (q.Offer? && q.askedMsat.Some? ==> order.amountMsat == q.askedMsat.value)
            && (Lightning(q) && !(q.Invoice? && q.feeLimit.Some?) ==> 1000 <= order.feeMsat)
            && (!Lightning(q) ==> order.sats + FeeEstimate(order.rate) == BudgetOf(cfg, q).value)
  {
  }

  /** The ledger: the amount charged by each open or settled spend, and the spends counted for velocity. */
  datatype Ledger = Ledger(spend: map<nat, nat>, velocity: set<nat>)

  /** The sum over spends `0..n`. */
  function Total(spend: map<nat, nat>, n: nat): nat {
    if n == 0 then 0 else Total(spend, n - 1) + if n - 1 in spend then spend[n - 1] else 0
  }

  predicate SpendAllowed(cfg: Config, l: Ledger, n: nat, amount: nat) {
    cfg.spendLimit <= 0 || Total(l.spend, n) + amount <= cfg.spendLimit
  }

  predicate VelocityAllowed(cfg: Config, l: Ledger) {
    cfg.velocityLimit <= 0 || |l.velocity| < cfg.velocityLimit
  }

  /** `check_payment_limits` for the fresh spend `i`, with members below `n` in the ledger. */
  function Admitted(cfg: Config, l: Ledger, n: nat, amount: nat): bool {
    SpendAllowed(cfg, l, n, amount) && VelocityAllowed(cfg, l)
  }

  function SpendCharged(cfg: Config, l: Ledger, i: nat, amount: nat): Ledger {
    if cfg.spendLimit > 0 then l.(spend := l.spend[i := amount]) else l
  }

  function VelocityCharged(cfg: Config, l: Ledger, i: nat): Ledger {
    if cfg.velocityLimit > 0 then l.(velocity := l.velocity + {i}) else l
  }

  function Charged(cfg: Config, l: Ledger, i: nat, amount: nat): Ledger {
    VelocityCharged(cfg, SpendCharged(cfg, l, i, amount), i)
  }

  /** `_rollback_member` on the spend window. */
  function Unspent(l: Ledger, i: nat): Ledger {
    l.(spend := l.spend - {i})
  }

  /** `reconcile_spend_limit` */
  function Reconciled(l: Ledger, i: nat, sats: nat): Ledger {
    if i in l.spend then l.(spend := l.spend[i := sats]) else l
  }

  /** `rollback_payment_limits` */
  function RolledBack(l: Ledger, i: nat): Ledger {
    Ledger(l.spend - {i}, l.velocity - {i})
  }

  lemma {:induction false} TotalFrame(a: map<nat, nat>, b: map<nat, nat>, n: nat)
    requires forall i :: 0 <= i < n ==> (i in a <==> i in b) && (i in a ==> a[i] == b[i])
    ensures Total(a, n) == Total(b, n)
  {
    if n > 0 {
      TotalFrame(a, b, n - 1);
    }
  }

  function Entry(spend: map<nat, nat>, i: nat): nat {
    if i in spend then spend[i] else 0
  }

  lemma {:induction false} TotalChange(a: map<nat, nat>, b: map<nat, nat>, n: nat, i: nat)
    requires i < n
    requires forall j :: 0 <= j < n && j != i ==> (j in a <==> j in b) && (j in a ==> a[j] == b[j])
    ensures Total(b, n) == Total(a, n) - Entry(a, i) + Entry(b, i)
  {
    if i == n - 1 {
      TotalFrame(a, b, n - 1);
    } else {
      TotalChange(a, b, n - 1, i);
    }
  }
}
