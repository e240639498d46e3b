/**
  What the spend ledger holds in every state of the payment protocol: conservation,
  and the spend and velocity limits.
 */
module PaymentLedger {
  import opened Common
  import opened Idempotency
  import opened Spending
  import opened PaymentProtocol

  /** What an answer leaves charged: the settled sats of a Lightning payment, nothing after a failure. */
  function ChargeOf(cfg: Config, q: Quote, answer: Answer): Option<nat> {
    match answer
    case Paid(sats, _) => Some(if Lightning(q) then sats else Reserve(cfg, q))
    case Rejected => None
    case Unknown => Some(Reserve(cfg, q))
  }

  /** What a request has charged to the ledger, if anything. */
  function Charge(cfg: Config, a: Attempt): Option<nat> {
    match a.phase
    case Reserving => Some(Reserve(cfg, a.quote))
    case Holding => Some(Reserve(cfg, a.quote))
    case Sending => Some(Reserve(cfg, a.quote))
    case Answered(_) => Some(Reserve(cfg, a.quote))
    case Booked(answer) => ChargeOf(cfg, a.quote, answer)
    case Ended(Returned(answer)) => ChargeOf(cfg, a.quote, answer)
    case Ended(Crashed(Some(answer), _)) => ChargeOf(cfg, a.quote, answer)
    case Ended(Crashed(None, _)) => Some(Reserve(cfg, a.quote))
    case _ => None
  }

  /** What request `i` has charged, and whether it counts for velocity; nothing if there is no such request. */
  function ChargeAt(cfg: Config, attempts: seq<Attempt>, i: nat): (Option<nat>, bool) {
    if i < |attempts| then ChargesOf(cfg, attempts[i]) else (None, false)
  }

  /** A spend counts for velocity once it has passed the velocity check. */
  function ChargesOf(cfg: Config, a: Attempt): (Option<nat>, bool) {
    (Charge(cfg, a), Charge(cfg, a).Some? && !a.phase.Reserving? && !Uncounted(a.phase))
  }

  predicate Uncounted(phase: Phase) {
    phase.Ended? && phase.outcome.Crashed? && !phase.outcome.counted
  }

  /** The ledger holds exactly this under `i`. */
  predicate Holds(cfg: Config, l: Ledger, i: nat, charge: (Option<nat>, bool)) {
    && (i in l.spend <==> cfg.spendLimit > 0 && charge.0.Some?)
    && (i in l.spend ==> charge.0 == Some(l.spend[i]))
    && (i in l.velocity <==> cfg.velocityLimit > 0 && charge.1)
  }

  /** The ledger is exactly the charges of the requests. */
  ghost predicate Balanced(cfg: Config, s: State) {
    forall i: nat :: Holds(cfg, s.ledger, i, ChargeAt(cfg, s.attempts, i))
  }

  /** By how much a request's charge exceeds what it reserved: LND reported more than was budgeted. */
  function Overrun(cfg: Config, a: Attempt): nat {
    var c := Charge(cfg, a);
    if c.Some? && c.value > Reserve(cfg, a.quote) then c.value - Reserve(cfg, a.quote) else 0
  }

  function Overruns(cfg: Config, attempts: seq<Attempt>): nat {
    if attempts == [] then 0
    else Overruns(cfg, attempts[..|attempts| - 1]) + Overrun(cfg, attempts[|attempts| - 1])
  }

  /** The velocity limit holds, and the spend limit up to the overruns. */
  ghost predicate Within(cfg: Config, s: State) {
    && (cfg.spendLimit > 0 ==> Total(s.ledger.spend, |s.attempts|) <= cfg.spendLimit + Overruns(cfg, s.attempts))
    && (cfg.velocityLimit > 0 ==> |s.ledger.velocity| <= cfg.velocityLimit)
  }

  /** LND moves no more than it was ordered to, and reports whole sats, rounded down. */
  predicate Frugal(q: Quote, answer: Answer) {
    answer.Paid? && Lightning(q) ==> answer.sats * 1000 <= Most(OrderOf(q)) && RoundedDown(q)
  }

  predicate FrugalStep(s: State, step: Step) {
    step.Answer? && step.i < |s.attempts| ==> Frugal(s.attempts[step.i].quote, step.answer)
  }

  predicate FrugalRequest(a: Attempt) {
    a.phase.Answered? ==> Frugal(a.quote, a.phase.answer)
  }

  /** The phases of a request that has sent, or has got as far as sending. */
  predicate PastSend(phase: Phase) {
    || phase.Sending? || phase.Answered? || phase.Booked?
    || (phase.Ended? && (phase.outcome.Returned? || phase.outcome.Crashed?))
  }

  /** A request past the cap has a budget; a send was ordered, and as its budget says. */
  predicate Funded(cfg: Config, a: Attempt) {
    && ((Active(a) && !a.phase.Running?) || a.order.Some? ==> BudgetOf(cfg, a.quote).Some?)
    && (a.order.Some? ==> a.order.value == OrderOf(a.quote))
    && (!a.fate.Unsent? || a.phase.Sending? ==> a.order.Some?)
    && (!a.fate.Unsent? ==> PastSend(a.phase))
  }

  ghost predicate AllFunded(cfg: Config, s: State) {
    forall i: nat :: i < |s.attempts| ==> Funded(cfg, s.attempts[i])
  }

  ghost predicate LedgerInv(cfg: Config, s: State) {
    Balanced(cfg, s) && Within(cfg, s)
  }

  // ----- every send has its budget -----

  /** One step of one request, before its send. */
  lemma FundsBefore(cfg: Config, s: State, step: Step)
    requires Enabled(s, step) && !step.Arrive? && Funded(cfg, s.attempts[step.i])
    requires step.Peek? || step.Lookup? || step.Refuse?
    ensures Funded(cfg, Apply(cfg, s, step).attempts[step.i])
  {
    hide Truthful, BudgetOf, OrderOf, At, ClaimsOf, Released;
  }

  lemma FundsClaim(cfg: Config, s: State, step: Step)
    requires Enabled(s, step) && (step.Act? || step.Claim?) && Funded(cfg, s.attempts[step.i])
    ensures Funded(cfg, Apply(cfg, s, step).attempts[step.i])
  {
    hide Truthful, BudgetOf, OrderOf, At, ClaimsOf, Replaced, Dropped, Reserved;
  }

  /** At the cap and the limits. */
  lemma FundsLimits(cfg: Config, s: State, step: Step)
    requires Enabled(s, step) && (step.Limit? || step.Velocity?) && Funded(cfg, s.attempts[step.i])
    ensures Funded(cfg, Apply(cfg, s, step).attempts[step.i])
  {
    hide OrderOf, At, Released, SpendAllowed, VelocityAllowed, SpendCharged, VelocityCharged;
  }

  /** And from its send on. */
  lemma FundsAfter(cfg: Config, s: State, step: Step)
    requires Enabled(s, step) && !step.Arrive? && Funded(cfg, s.attempts[step.i])
    requires step.Send? || step.NoSend? || step.Node? || step.Answer? || step.Book? || step.Settle? || step.Fault?
    ensures Funded(cfg, Apply(cfg, s, step).attempts[step.i])
  {
    hide Truthful, BudgetOf, OrderOf, At, ClaimsOf, Replaced, Released, Dropped, Reserved, SettledSlot, BookLedger, BookRow;
  }

  /** Every step, harmful or not, keeps every send within a budget. */
  lemma StepFunds(cfg: Config, s: State, step: Step)
    requires AllFunded(cfg, s) && Enabled(s, step)
    ensures AllFunded(cfg, Apply(cfg, s, step))
  {
    hide Enabled, Apply, Funded;
    if step.Arrive? {
      ArrivesUnfunded(cfg, s, step);
    } else {
      OneRequest(cfg, s, step);
      if step.Limit? || step.Velocity? {
        FundsLimits(cfg, s, step);
      } else if step.Act? || step.Claim? {
        FundsClaim(cfg, s, step);
      } else if step.Peek? || step.Lookup? || step.Refuse? {
        FundsBefore(cfg, s, step);
      } else {
        FundsAfter(cfg, s, step);
      }
    }
  }

  lemma ArrivesUnfunded(cfg: Config, s: State, step: Step)
    requires AllFunded(cfg, s) && step.Arrive?
    ensures AllFunded(cfg, Apply(cfg, s, step))
  {
    hide BudgetOf, OrderOf;
  }

  lemma {:induction false} RunFunds(cfg: Config, s: State, steps: seq<Step>)
    requires AllFunded(cfg, s) && Runs(cfg, s, steps)
    ensures AllFunded(cfg, Exec(cfg, s, steps))
    decreases |steps|
  {
    hide Apply, Enabled, AllFunded;
    if steps != [] {
      StepFunds(cfg, s, steps[0]);
      RunFunds(cfg, Apply(cfg, s, steps[0]), steps[1..]);
    }
  }

  /**
    In every run, harmful or not, every send was ordered as its request says: a Lightning order is
    within the reservation and the cap to the satoshi, and to the millisatoshi exactly if the invoice
    is for no more than the whole sats that were checked; an on-chain order and its fee estimate are
    the reservation.
   */
  lemma EverySendWithinBudget(cfg: Config, steps: seq<Step>, i: nat)
    requires Runs(cfg, INIT, steps)
    requires i < |Exec(cfg, INIT, steps).attempts| && !Exec(cfg, INIT, steps).attempts[i].fate.Unsent?
    ensures var a := Exec(cfg, INIT, steps).attempts[i];
            var q, reserve := a.quote, Reserve(cfg, a.quote);
            && a.order == Some(OrderOf(q))
            && BudgetOf(cfg, q) == Some(reserve)
            && (q.Invoice? ==> (Most(a.order.value) <= reserve * 1000 <==> q.msat <= q.amountSats * 1000))
            && (q.Offer? ==> Most(a.order.value) <= reserve * 1000)
            && (RoundedDown(q) ==> Most(a.order.value) / 1000 <= reserve)
            && (RoundedDown(q) && cfg.maxSats != -1 ==> Most(a.order.value) / 1000 <= cfg.maxSats)
            && (!Lightning(q) ==> a.order.value.sats + FeeEstimate(a.order.value.rate) == reserve)
  {
    hide Runs, Exec, BudgetOf, OrderOf, Most, RoundedDown;
    RunFunds(cfg, INIT, steps);
    var a := Exec(cfg, INIT, steps).attempts[i];
    assert Funded(cfg, a);
    SendWithinBudget(cfg, a.quote);
  }

  /** An invoice with a fraction of a satoshi: the order exceeds the reservation, and the cap, by the fraction. */
  lemma FractionExceeds() returns (cfg: Config, s: State)
    ensures cfg == Config(2, 0, 0) && Reaches(cfg, INIT, s) && |s.attempts| == 1 && s.attempts[0].fate.Live?
    ensures var a := s.attempts[0];
            && a.quote == Invoice(1, 1999, None) && RoundedDown(a.quote) && a.order.Some?
            && Most(a.order.value) == Reserve(cfg, a.quote) * 1000 + 999 == cfg.maxSats * 1000 + 999
  {
    hide Reaches;
    cfg := Config(2, 0, 0);
    s := FreeSlotAdmits(cfg, INIT, Invoice(1, 1999, None), "k", "", "");
  }

  /** So what a Lightning payment settles for is within its reservation. */
  lemma SettlesWithin(cfg: Config, q: Quote, answer: Answer)
    requires BudgetOf(cfg, q).Some? && Frugal(q, answer)
    ensures answer.Paid? && Lightning(q) ==> answer.sats <= Reserve(cfg, q)
  {
    hide BudgetOf, OrderOf;
    SendWithinBudget(cfg, q);
  }

  // ----- the ledger knows its requests -----

  /** Every member of the ledger is a request. */
  ghost predicate Known(s: State) {
    && (forall i :: i in s.ledger.spend ==> i < |s.attempts|)
    && (forall i :: i in s.ledger.velocity ==> i < |s.attempts|)
  }

  lemma StepKnows(cfg: Config, s: State, step: Step)
    requires Known(s) && Enabled(s, step)
    ensures Known(Apply(cfg, s, step))
  {
    hide Apply, Truthful, Total;
    if step.Limit? {
      LimitCases(cfg, s, step.i);
    } else if step.Velocity? {
      VelocityCases(cfg, s, step.i);
    } else if step.Book? {
      BookCases(cfg, s, step.i);
    } else if step.Send? || step.NoSend? || step.Node? || step.Answer? || step.Settle? || step.Fault? {
      LedgerStaysAfter(cfg, s, step);
      OneRequest(cfg, s, step);
    } else {
      LedgerStaysBefore(cfg, s, step);
    }
  }

  lemma LedgerStaysBefore(cfg: Config, s: State, step: Step)
    requires Enabled(s, step) && (step.Arrive? || step.Peek? || step.Lookup? || step.Act? || step.Claim? || step.Refuse?)
    ensures Apply(cfg, s, step).ledger == s.ledger && |Apply(cfg, s, step).attempts| >= |s.attempts|
  {
    hide Truthful, At, ClaimsOf, Replaced, Released, Dropped, Reserved;
  }

  lemma LedgerStaysAfter(cfg: Config, s: State, step: Step)
    requires Enabled(s, step)
    requires step.Send? || step.NoSend? || step.Node? || step.Answer? || step.Settle? || step.Fault?
    ensures Apply(cfg, s, step).ledger == s.ledger
  {
    hide OrderOf, At, Replaced, Released;
  }

  lemma {:induction false} RunKnows(cfg: Config, s: State, steps: seq<Step>)
    requires Known(s) && Runs(cfg, s, steps)
    ensures Known(Exec(cfg, s, steps))
    decreases |steps|
  {
    hide Apply, Enabled, Known;
    if steps != [] {
      StepKnows(cfg, s, steps[0]);
      RunKnows(cfg, Apply(cfg, s, steps[0]), steps[1..]);
    }
  }

  // ----- every step keeps the ledger balanced -----

  lemma {:induction false} OverrunsChange(cfg: Config, a: seq<Attempt>, b: seq<Attempt>, i: nat)
    requires i < |a| == |b| && b == a[i := b[i]]
    ensures Overruns(cfg, b) == Overruns(cfg, a) - Overrun(cfg, a[i]) + Overrun(cfg, b[i])
    decreases |a|
  {
    hide Overrun;
    var n := |a| - 1;
    if i == n {
      assert a[..n] == b[..n];
    } else {
      assert b[..n] == a[..n][i := b[i]];
      OverrunsChange(cfg, a[..n], b[..n], i);
    }
  }

  /** A step that changes one request and its ledger entry. */
  lemma OneEntry(cfg: Config, s: State, t: State, i: nat)
    requires LedgerInv(cfg, s) && i < |s.attempts| == |t.attempts| && t.attempts == s.attempts[i := t.attempts[i]]
    requires t.ledger.spend - {i} == s.ledger.spend - {i} && t.ledger.velocity - {i} == s.ledger.velocity - {i}
    requires Holds(cfg, t.ledger, i, ChargesOf(cfg, t.attempts[i]))
    requires cfg.spendLimit > 0 ==>
               Total(s.ledger.spend, |s.attempts|) - Entry(s.ledger.spend, i) + Entry(t.ledger.spend, i)
               <= cfg.spendLimit + Overruns(cfg, s.attempts) - Overrun(cfg, s.attempts[i]) + Overrun(cfg, t.attempts[i])
    requires cfg.velocityLimit > 0 ==> |t.ledger.velocity| <= cfg.velocityLimit
    ensures LedgerInv(cfg, t)
  {
    hide ChargesOf, Overrun, Overruns, Total;
    OffEntry(s.ledger, t.ledger, i);
    TotalChange(s.ledger.spend, t.ledger.spend, |s.attempts|, i);
    OverrunsChange(cfg, s.attempts, t.attempts, i);
    forall j: nat ensures Holds(cfg, t.ledger, j, ChargeAt(cfg, t.attempts, j)) {
      assert Holds(cfg, s.ledger, j, ChargeAt(cfg, s.attempts, j));
    }
  }

  lemma OffEntry(a: Ledger, b: Ledger, i: nat)
    requires b.spend - {i} == a.spend - {i} && b.velocity - {i} == a.velocity - {i}
    ensures forall j :: j != i ==> (j in a.spend <==> j in b.spend) && (j in a.velocity <==> j in b.velocity)
    ensures forall j :: j != i && j in a.spend ==> a.spend[j] == b.spend[j]
  {
    forall j | j != i
      ensures (j in a.spend <==> j in b.spend) && (j in a.velocity <==> j in b.velocity)
      ensures j in a.spend ==> a.spend[j] == b.spend[j]
    {
      assert (j in a.spend <==> j in a.spend - {i}) && (j in b.spend <==> j in b.spend - {i});
      assert j in a.spend ==> (a.spend - {i})[j] == (b.spend - {i})[j];
      assert (j in a.velocity <==> j in a.velocity - {i}) && (j in b.velocity <==> j in b.velocity - {i});
    }
  }

  lemma KeepsArrived(cfg: Config, s: State, step: Step)
    requires LedgerInv(cfg, s) && step.Arrive?
    ensures LedgerInv(cfg, Apply(cfg, s, step))
  {
    hide Reserve, Overrun;
    var t, n := Apply(cfg, s, step), |s.attempts|;
    assert Holds(cfg, s.ledger, n, ChargeAt(cfg, s.attempts, n));
    forall j: nat ensures Holds(cfg, t.ledger, j, ChargeAt(cfg, t.attempts, j)) {
      assert Holds(cfg, s.ledger, j, ChargeAt(cfg, s.attempts, j));
    }
    assert t.attempts[..n] == s.attempts;
  }

  /** The request at `i`, alone, changes from `s` to `t`, and not what it has charged. */
  ghost predicate Quiet(cfg: Config, s: State, t: State, i: nat) {
    && t.ledger == s.ledger
    && i < |s.attempts| == |t.attempts| && t.attempts == s.attempts[i := t.attempts[i]]
    && ChargesOf(cfg, t.attempts[i]) == ChargesOf(cfg, s.attempts[i])
    && t.attempts[i].quote == s.attempts[i].quote
  }

  lemma QuietBefore(cfg: Config, s: State, step: Step)
    requires Enabled(s, step) && (step.Peek? || step.Lookup? || step.Act? || step.Claim? || step.Refuse?)
    ensures Quiet(cfg, s, Apply(cfg, s, step), step.i)
  {
    hide Truthful, Reserve, At, ClaimsOf, Replaced, Released, Dropped, Reserved, SettledSlot;
  }

  lemma QuietAfter(cfg: Config, s: State, step: Step)
    requires Enabled(s, step)
    requires step.Send? || step.NoSend? || step.Node? || step.Answer? || step.Settle? || step.Fault?
    ensures Quiet(cfg, s, Apply(cfg, s, step), step.i)
  {
    hide Truthful, Reserve, OrderOf, At, ClaimsOf, Replaced, Released, Dropped, Reserved, SettledSlot;
  }

  lemma QuietStep(cfg: Config, s: State, step: Step)
    requires Enabled(s, step) && !step.Arrive? && !step.Limit? && !step.Velocity? && !step.Book?
    ensures Quiet(cfg, s, Apply(cfg, s, step), step.i)
  {
    hide Apply, Enabled, Quiet;
    if step.Peek? || step.Lookup? || step.Act? || step.Claim? || step.Refuse? {
      QuietBefore(cfg, s, step);
    } else {
      QuietAfter(cfg, s, step);
    }
  }

  /** Steps that leave the ledger alone leave the charge of their request alone. */
  lemma KeepsQuiet(cfg: Config, s: State, step: Step)
    requires LedgerInv(cfg, s) && Enabled(s, step) && !step.Arrive? && !step.Limit? && !step.Velocity? && !step.Book?
    ensures LedgerInv(cfg, Apply(cfg, s, step))
  {
    hide Apply, Enabled, Charge, Overruns, Reserve, Total;
    QuietStep(cfg, s, step);
    assert Holds(cfg, s.ledger, step.i, ChargeAt(cfg, s.attempts, step.i));
    OneEntry(cfg, s, Apply(cfg, s, step), step.i);
  }

  /** What the spend check does: refuse and charge nothing, or reserve. */
  lemma LimitCases(cfg: Config, s: State, i: nat)
    requires Enabled(s, Limit(i))
    ensures var t := Apply(cfg, s, Limit(i));
            var r := Reserve(cfg, s.attempts[i].quote);
            && |t.attempts| == |s.attempts| && t.attempts == s.attempts[i := t.attempts[i]]
            && t.attempts[i].quote == s.attempts[i].quote
            && if t.attempts[i].phase == Reserving
               then SpendAllowed(cfg, s.ledger, |s.attempts|, r) && t.ledger == SpendCharged(cfg, s.ledger, i, r)
               else t.attempts[i].phase == Ended(Refused) && t.ledger == s.ledger
  {
    hide BudgetOf, SpendAllowed, SpendCharged, At, ClaimsOf, Released;
  }

  lemma KeepsLimited(cfg: Config, s: State, i: nat)
    requires LedgerInv(cfg, s) && Enabled(s, Limit(i))
    ensures LedgerInv(cfg, Apply(cfg, s, Limit(i)))
  {
    hide Apply, Reserve, Overruns, Total;
    LimitCases(cfg, s, i);
    var t := Apply(cfg, s, Limit(i));
    assert Holds(cfg, s.ledger, i, ChargeAt(cfg, s.attempts, i));
    OneEntry(cfg, s, t, i);
  }

  /** What the velocity check does: count the spend, or take it back. */
  lemma VelocityCases(cfg: Config, s: State, i: nat)
    requires Enabled(s, Velocity(i))
    ensures var t := Apply(cfg, s, Velocity(i));
            && |t.attempts| == |s.attempts| && t.attempts == s.attempts[i := t.attempts[i]]
            && t.attempts[i].quote == s.attempts[i].quote
            && if t.attempts[i].phase == Holding
               then VelocityAllowed(cfg, s.ledger) && t.ledger == VelocityCharged(cfg, s.ledger, i)
               else t.attempts[i].phase == Ended(Refused) && t.ledger == Unspent(s.ledger, i)
  {
    hide VelocityAllowed, VelocityCharged, Unspent, At, ClaimsOf, Released;
  }

  lemma KeepsPaced(cfg: Config, s: State, i: nat)
    requires LedgerInv(cfg, s) && Enabled(s, Velocity(i))
    ensures LedgerInv(cfg, Apply(cfg, s, Velocity(i)))
  {
    hide Apply, Reserve, Overruns, Total;
    VelocityCases(cfg, s, i);
    var t := Apply(cfg, s, Velocity(i));
    assert Holds(cfg, s.ledger, i, ChargeAt(cfg, s.attempts, i));
    OneEntry(cfg, s, t, i);
  }

  lemma BookCases(cfg: Config, s: State, i: nat)
    requires Enabled(s, Book(i))
    ensures var t := Apply(cfg, s, Book(i));
            && |t.attempts| == |s.attempts| && t.attempts == s.attempts[i := t.attempts[i]]
            && t.attempts[i].quote == s.attempts[i].quote
            && t.attempts[i].phase == Booked(s.attempts[i].phase.answer)
            && t.ledger == BookLedger(s.ledger, i, s.attempts[i].quote, s.attempts[i].phase.answer)
  {
    hide BookLedger;
  }

  /** Booking replaces the reservation by the answer's charge, and any excess is an overrun. */
  lemma KeepsBooked(cfg: Config, s: State, i: nat)
    requires LedgerInv(cfg, s) && Enabled(s, Book(i))
    ensures LedgerInv(cfg, Apply(cfg, s, Book(i)))
  {
    hide Apply, Reserve, Overruns, Total;
    BookCases(cfg, s, i);
    assert Holds(cfg, s.ledger, i, ChargeAt(cfg, s.attempts, i));
    OneEntry(cfg, s, Apply(cfg, s, Book(i)), i);
  }

  /** Every step of every run, harmful ones included, keeps the ledger balanced and within its limits, overruns apart. */
  lemma StepBalances(cfg: Config, s: State, step: Step)
    requires LedgerInv(cfg, s) && Enabled(s, step)
    ensures LedgerInv(cfg, Apply(cfg, s, step))
  {
    hide Apply, Enabled, LedgerInv;
    if step.Arrive? {
      KeepsArrived(cfg, s, step);
    } else if step.Limit? {
      KeepsLimited(cfg, s, step.i);
    } else if step.Velocity? {
      KeepsPaced(cfg, s, step.i);
    } else if step.Book? {
      KeepsBooked(cfg, s, step.i);
    } else {
      KeepsQuiet(cfg, s, step);
    }
  }

  // ----- main results: the ledger -----

  lemma {:induction false} RunBalances(cfg: Config, s: State, steps: seq<Step>)
    requires LedgerInv(cfg, s) && Runs(cfg, s, steps)
    ensures LedgerInv(cfg, Exec(cfg, s, steps))
    decreases |steps|
  {
    hide Apply, Enabled, LedgerInv;
    if steps != [] {
      StepBalances(cfg, s, steps[0]);
      RunBalances(cfg, Apply(cfg, s, steps[0]), steps[1..]);
    }
  }

  /** The sum of what the first `n` requests have charged. */
  function Charges(cfg: Config, attempts: seq<Attempt>, n: nat): nat {
    if n == 0 then 0
    else
      var c := ChargeAt(cfg, attempts, n - 1).0;
      Charges(cfg, attempts, n - 1) + if c.Some? then c.value else 0
  }

  lemma {:induction false} TotalIsCharges(cfg: Config, s: State, n: nat)
    requires Balanced(cfg, s) && cfg.spendLimit > 0
    ensures Total(s.ledger.spend, n) == Charges(cfg, s.attempts, n)
  {
    hide Charge;
    if n > 0 {
      TotalIsCharges(cfg, s, n - 1);
      assert Holds(cfg, s.ledger, n - 1, ChargeAt(cfg, s.attempts, n - 1));
    }
  }

  /**
    Conservation: after every run, whatever LND reports, the ledger total is the sum over the
    requests of the reservation (unresolved or unknown), the settled sats (paid over Lightning) or
    nothing (failed or never sent); the velocity limit holds, and the spend limit is exceeded by no
    more than payments have run over their reservations.
   */
  lemma Conservation(cfg: Config, steps: seq<Step>)
    requires Runs(cfg, INIT, steps)
    ensures var s := Exec(cfg, INIT, steps);
            && Balanced(cfg, s)
            && (cfg.spendLimit > 0 ==>
                  && Total(s.ledger.spend, |s.attempts|) == Charges(cfg, s.attempts, |s.attempts|)
                  && Total(s.ledger.spend, |s.attempts|) <= cfg.spendLimit + Overruns(cfg, s.attempts))
            && (cfg.velocityLimit > 0 ==> |s.ledger.velocity| <= cfg.velocityLimit)
  {
    hide Apply, Enabled, Runs, Exec, Balanced;
    Empty(cfg);
    RunBalances(cfg, INIT, steps);
    var s := Exec(cfg, INIT, steps);
    if cfg.spendLimit > 0 {
      TotalIsCharges(cfg, s, |s.attempts|);
    }
  }

  lemma Empty(cfg: Config)
    ensures LedgerInv(cfg, INIT)
  {
  }

  // ----- no overruns if LND keeps to its orders -----

  ghost predicate FrugalRun(cfg: Config, s: State, steps: seq<Step>)
    requires Runs(cfg, s, steps)
    decreases |steps|
  {
    steps == [] || (FrugalStep(s, steps[0]) && FrugalRun(cfg, Apply(cfg, s, steps[0]), steps[1..]))
  }

  predicate Thrifty(cfg: Config, a: Attempt) {
    FrugalRequest(a) && Overrun(cfg, a) == 0
  }

  ghost predicate AllThrifty(cfg: Config, s: State) {
    AllFunded(cfg, s) && forall i: nat :: i < |s.attempts| ==> Thrifty(cfg, s.attempts[i])
  }

  /** A step that leaves the charge alone: only an answer can make a request spendthrift. */
  lemma ThriftyQuiet(cfg: Config, s: State, step: Step)
    requires Enabled(s, step) && !step.Arrive? && !step.Limit? && !step.Velocity? && !step.Book? && FrugalStep(s, step)
    requires Thrifty(cfg, s.attempts[step.i])
    ensures Thrifty(cfg, Apply(cfg, s, step).attempts[step.i])
  {
    hide Apply, Truthful, Reserve, Charge, Most, RoundedDown, OrderOf;
    QuietStep(cfg, s, step);
    AnswersOnly(cfg, s, step);
  }

  /** A request has an answer because LND gave it, because it did not send, or from before. */
  lemma AnswersOnly(cfg: Config, s: State, step: Step)
    requires Enabled(s, step) && !step.Arrive? && !step.Limit? && !step.Velocity? && !step.Book?
    ensures var a, b := s.attempts[step.i], Apply(cfg, s, step).attempts;
            step.i < |b| && (b[step.i].phase.Answered? ==>
              || (step.Answer? && b[step.i].phase.answer == step.answer && b[step.i].quote == a.quote)
              || b[step.i].phase.answer.Rejected?
              || (b[step.i].phase == a.phase && b[step.i].quote == a.quote))
  {
    hide Truthful, At, ClaimsOf, Replaced, Released, Dropped, Reserved, OrderOf;
  }

  lemma ThriftyLimits(cfg: Config, s: State, step: Step)
    requires Enabled(s, step) && (step.Limit? || step.Velocity?)
    ensures Thrifty(cfg, Apply(cfg, s, step).attempts[step.i])
  {
    hide Apply, Reserve, SpendAllowed, VelocityAllowed, SpendCharged, VelocityCharged;
    if step.Limit? {
      LimitCases(cfg, s, step.i);
    } else {
      VelocityCases(cfg, s, step.i);
    }
  }

  lemma ThriftyBook(cfg: Config, s: State, i: nat)
    requires Enabled(s, Book(i)) && Thrifty(cfg, s.attempts[i]) && Funded(cfg, s.attempts[i])
    ensures Thrifty(cfg, Apply(cfg, s, Book(i)).attempts[i])
  {
    hide Apply, Reserve, BudgetOf, Frugal, OrderOf, BookLedger;
    BookCases(cfg, s, i);
    SettlesWithin(cfg, s.attempts[i].quote, s.attempts[i].phase.answer);
  }

  lemma StepThrifty(cfg: Config, s: State, step: Step)
    requires AllThrifty(cfg, s) && Enabled(s, step) && FrugalStep(s, step)
    ensures AllThrifty(cfg, Apply(cfg, s, step))
  {
    hide Truthful, Apply, Funded, Thrifty;
    StepFunds(cfg, s, step);
    if step.Arrive? {
      ArrivesThrifty(cfg, s, step);
    } else {
      OneRequest(cfg, s, step);
      assert Thrifty(cfg, s.attempts[step.i]) && Funded(cfg, s.attempts[step.i]);
      if step.Limit? || step.Velocity? {
        ThriftyLimits(cfg, s, step);
      } else if step.Book? {
        ThriftyBook(cfg, s, step.i);
      } else {
        ThriftyQuiet(cfg, s, step);
      }
    }
  }

  lemma ArrivesThrifty(cfg: Config, s: State, step: Step)
    requires AllThrifty(cfg, s) && step.Arrive?
    ensures forall i: nat :: i < |Apply(cfg, s, step).attempts| ==> Thrifty(cfg, Apply(cfg, s, step).attempts[i])
  {
    hide Reserve, Funded;
  }

  lemma {:induction false} RunThrifty(cfg: Config, s: State, steps: seq<Step>)
    requires AllThrifty(cfg, s) && Runs(cfg, s, steps) && FrugalRun(cfg, s, steps)
    ensures AllThrifty(cfg, Exec(cfg, s, steps))
    decreases |steps|
  {
    hide Apply, Enabled, AllThrifty, FrugalStep;
    if steps != [] {
      StepThrifty(cfg, s, steps[0]);
      RunThrifty(cfg, Apply(cfg, s, steps[0]), steps[1..]);
    }
  }

  lemma {:induction false} NoOverruns(cfg: Config, attempts: seq<Attempt>)
    requires forall i: nat :: i < |attempts| ==> Overrun(cfg, attempts[i]) == 0
    ensures Overruns(cfg, attempts) == 0
  {
    hide Overrun;
    if attempts != [] {
      NoOverruns(cfg, attempts[..|attempts| - 1]);
    }
  }

  /** If LND moves no more than it was ordered to, nothing runs over, and the spend limit holds. */
  lemma FrugalStaysWithin(cfg: Config, steps: seq<Step>)
    requires Runs(cfg, INIT, steps) && FrugalRun(cfg, INIT, steps)
    ensures var s := Exec(cfg, INIT, steps);
            && Overruns(cfg, s.attempts) == 0
            && (cfg.spendLimit > 0 ==> Total(s.ledger.spend, |s.attempts|) <= cfg.spendLimit)
  {
    hide Runs, Exec, FrugalRun, Balanced, Overrun, Funded;
    RunThrifty(cfg, INIT, steps);
    Conservation(cfg, steps);
    var s := Exec(cfg, INIT, steps);
    forall i: nat | i < |s.attempts| ensures Overrun(cfg, s.attempts[i]) == 0 {
      assert Thrifty(cfg, s.attempts[i]);
    }
    NoOverruns(cfg, s.attempts);
  }

  /** A payment that LND reports at more than was reserved takes the window over its limit by the excess. */
  lemma OverrunHappens(excess: nat) returns (cfg: Config, s: State)
    ensures cfg == Config(-1, 2, 0) && Reaches(cfg, INIT, s) && |s.attempts| == 1
    ensures Overruns(cfg, s.attempts) == excess && Total(s.ledger.spend, |s.attempts|) == cfg.spendLimit + excess
  {
    hide Reaches;
    cfg := Config(-1, 2, 0);
    var q := Invoice(1, 1000, None);
    assert Total(INIT.ledger.spend, 1) == 0;
    s := FreeSlotAdmits(cfg, INIT, q, "k", "", "");
    s := Finishes(cfg, INIT, s, 0, Paid(2 + excess, ""));
    BalancedReach(cfg, s);
    assert Overruns(cfg, s.attempts) == Overruns(cfg, s.attempts[..0]) + Overrun(cfg, s.attempts[0]);
    TotalIsCharges(cfg, s, 1);
    assert Charges(cfg, s.attempts, 0) == 0;
  }

  lemma BalancedReach(cfg: Config, s: State)
    requires Reaches(cfg, INIT, s)
    ensures LedgerInv(cfg, s)
  {
    hide Runs, Exec, Careful, LedgerInv;
    var steps :| Careful(cfg, INIT, steps) && Runs(cfg, INIT, steps) && Exec(cfg, INIT, steps) == s;
    Empty(cfg);
    RunBalances(cfg, INIT, steps);
  }

  // ----- payments that failed and are still charged -----

  /** The handler of the request itself has booked a definite failure. */
  predicate HeardFailure(phase: Phase) {
    || (phase.Booked? && phase.answer.Rejected?)
    || (phase.Ended? && phase.outcome.Returned? && phase.outcome.answer.Rejected?)
    || (phase.Ended? && phase.outcome.Crashed? && phase.outcome.booked == Some(Rejected))
  }

  /**
    In every run: a send that is definitely dead is still charged exactly if its own handler did not
    book the failure. Reconciliation, which finds such failures later, frees the slot and not the ledger.
   */
  lemma DeadStillCharged(cfg: Config, steps: seq<Step>, i: nat)
    requires Runs(cfg, INIT, steps) && cfg.spendLimit > 0
    requires i < |Exec(cfg, INIT, steps).attempts| && Exec(cfg, INIT, steps).attempts[i].fate.Dead?
    ensures var s := Exec(cfg, INIT, steps);
            i in s.ledger.spend <==> !HeardFailure(s.attempts[i].phase)
  {
    hide Runs, Exec, Reserve, BudgetOf, OrderOf;
    Empty(cfg);
    RunBalances(cfg, INIT, steps);
    RunFunds(cfg, INIT, steps);
    var s := Exec(cfg, INIT, steps);
    assert Funded(cfg, s.attempts[i]) && Holds(cfg, s.ledger, i, ChargeAt(cfg, s.attempts, i));
  }

  lemma EndedStays(cfg: Config, s: State, step: Step, i: nat)
    requires Enabled(s, step) && i < |s.attempts| && s.attempts[i].phase.Ended?
    ensures i < |Apply(cfg, s, step).attempts|
    ensures Apply(cfg, s, step).attempts[i].phase == s.attempts[i].phase && Apply(cfg, s, step).attempts[i].quote == s.attempts[i].quote
  {
    hide Truthful;
    if !step.Arrive? {
      OneRequest(cfg, s, step);
    }
  }

  /** A payment that ended in doubt stays charged at its reservation through every run, whatever becomes of it. */
  lemma {:induction false} DoubtStaysCharged(cfg: Config, s: State, steps: seq<Step>, i: nat)
    requires LedgerInv(cfg, s) && Runs(cfg, s, steps) && cfg.spendLimit > 0
    requires i < |s.attempts| && s.attempts[i].phase == Ended(Returned(Unknown))
    ensures var l := Exec(cfg, s, steps).ledger;
            i in l.spend && l.spend[i] == Reserve(cfg, s.attempts[i].quote)
    decreases |steps|
  {
    hide Apply, Enabled, Within, Reserve;
    if steps == [] {
      assert Holds(cfg, s.ledger, i, ChargeAt(cfg, s.attempts, i));
    } else {
      StepBalances(cfg, s, steps[0]);
      EndedStays(cfg, s, steps[0], i);
      DoubtStaysCharged(cfg, Apply(cfg, s, steps[0]), steps[1..], i);
    }
  }

  /** A run that gets there: reconciliation has found the payment failed and freed the slot; the reservation stands. */
  lemma ReconciledStillCharged() returns (cfg: Config, s: State)
    ensures cfg == Config(-1, 2, 0) && Reaches(cfg, INIT, s) && |s.attempts| == 2
    ensures s.attempts[0].fate.Dead? && At(s.slots, "k").Absent? && s.attempts[1].phase.Ready?
    ensures 0 in s.ledger.spend && s.ledger.spend[0] == 2
  {
    hide Reaches;
    cfg := Config(-1, 2, 0);
    var q := Invoice(1, 1000, None);
    assert Total(INIT.ledger.spend, 1) == 0;
    s := FreeSlotAdmits(cfg, INIT, q, "k", "b", "h");
    s := Finishes(cfg, INIT, s, 0, Unknown);
    assert At(s.slots, "k") == Pending("b", "h");
    s := FoundFailed(cfg, s, q);
    BalancedReach(cfg, s);
    assert Holds(cfg, s.ledger, 0, ChargeAt(cfg, s.attempts, 0));
  }

  lemma FoundFailed(cfg: Config, s: State, q: Quote) returns (t: State)
    requires Reaches(cfg, INIT, s) && Lightning(q) && |s.attempts| == 1 && At(s.slots, "k") == Pending("b", "h")
    requires s.attempts[0].phase == Ended(Returned(Unknown)) && s.attempts[0].fate.Live? && s.attempts[0].quote == q
    ensures Reaches(cfg, INIT, t) && |t.attempts| == 2 && t.attempts[0] == s.attempts[0].(fate := Dead)
    ensures At(t.slots, "k").Absent? && t.attempts[1].phase.Ready?
  {
    hide Reaches, BudgetOf, OrderOf;
    var retry := Arrive(q, Some("k"), "b", "h");
    Goes(cfg, INIT, s, Node(0, false));
    t := Apply(cfg, s, Node(0, false));
    Goes(cfg, INIT, t, retry);
    t := Apply(cfg, t, retry);
    Goes(cfg, INIT, t, Peek(1));
    t := Apply(cfg, t, Peek(1));
    assert t.attempts[1].phase.Peeked? && forall a :: a in t.attempts ==> !MaybePaid(a);
    Goes(cfg, INIT, t, Lookup(1, Failed));
    t := Apply(cfg, t, Lookup(1, Failed));
    assert forall i: nat :: i < 2 ==> !MaybePaid(t.attempts[i]);
    Goes(cfg, INIT, t, Act(1));
    t := Apply(cfg, t, Act(1));
  }

  /**
    When a payment returns, its records agree: paid, unknown or failed; slot Done, Pending
    or free; ledger at the settled sats (for on-chain spends the reservation), the
    reservation or nothing; and for BOLT 12 row PAID, OPEN or FAILED. A slot that another
    request completed meanwhile stays as it is.
   */
  lemma ReturnMatches(cfg: Config, s: State, i: nat)
    requires Inv(cfg, s) && Balanced(cfg, s) && Enabled(s, Settle(i))
    ensures var t := Apply(cfg, s, Settle(i));
            var a, answer := t.attempts[i], s.attempts[i].phase.answer;
            var slot := SlotOf(t.slots, a.key);
            && (answer.Paid? ==> Holds(cfg, t.ledger, i, (Some(if Lightning(a.quote) then answer.sats else Reserve(cfg, a.quote)), true)))
            && (answer.Unknown? ==> Holds(cfg, t.ledger, i, (Some(Reserve(cfg, a.quote)), true)))
            && (answer.Rejected? ==> Holds(cfg, t.ledger, i, (None, false)))
            && (a.quote.Offer? ==>
                  && (a.row.PaidRow? <==> answer.Paid?) && (a.row.OpenRow? <==> answer.Unknown?) && (a.row.FailedRow? <==> answer.Rejected?))
            && (if a.key.Some? && SlotOf(s.slots, a.key).InFlight?
                then
                  && (answer.Paid? <==> slot.Done?) && (answer.Unknown? <==> slot.Pending?) && (answer.Rejected? <==> slot.Absent?)
                  && (slot.Done? ==> slot == Done(a.body, answer.response))
                  && (slot.Pending? ==> slot == Pending(a.body, if Lightning(a.quote) then a.hash else ""))
                else slot == SlotOf(s.slots, a.key))
  {
    hide Reserve;
    var a := s.attempts[i];
    assert Consistent(cfg, a) && Holds(cfg, s.ledger, i, ChargeAt(cfg, s.attempts, i));
    if a.key.Some? {
      AtRequest(cfg, s, i);
    }
  }
}
