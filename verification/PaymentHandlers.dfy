/**
  The payment handlers as code over the shared store and ledger, each proved to be a run
  of the protocol in which its request is served from arrival to end. What LND and the
  database answer are parameters.
 */
module PaymentHandlers {
  import opened Common
  import opened Idempotency
  import opened Spending
  import opened PaymentLedger
  import opened PaymentProtocol
  import Text

  // ----- reading what LND says -----

  /** What a send came back with; `totalAmt` is the total of the settled route, when reported. */
  datatype SendResult = Sent(totalAmt: Option<nat>, response: Response) | SendError(error: string)

  /** The payment list, asked for a hash. */
  datatype Lookup = LookupError | Looked(status: string, response: Response)

  function FoundOf(lookup: Lookup): Found {
    if lookup.LookupError? then Unresolved
    else if Text.Upper(lookup.status) == "SUCCEEDED" then Succeeded(lookup.response)
    else if Text.Upper(lookup.status) == "FAILED" then Failed
    else Unresolved
  }

  /** `_is_terminal_ln_error` */
  predicate IsTerminal(error: string) {
    "Payment failed:" <= error
  }

  predicate Contains(s: string, a: char, b: char) {
    exists i :: 0 <= i < |s| - 1 && s[i] == a && s[i + 1] == b
  }

  /** `lnd_broadcast_outcome_unknown` */
  predicate BroadcastUnknown(error: string) {
    if "LND temporarily unavailable" <= error then false
    else if "LND error (" <= error then Contains(if |error| > 14 then error[..14] else error, '(', '5')
    else "Connection failed" <= error || "Request failed" <= error
  }

  /** An HTTP status from LND is unknown exactly when it is a 5xx. */
  lemma StatusClass(a: char, b: char, c: char, rest: string)
    requires '0' <= a <= '9' && '0' <= b <= '9' && '0' <= c <= '9'
    ensures BroadcastUnknown("LND error (" + [a, b, c] + rest) <==> a == '5'
  {
    var error := "LND error (" + [a, b, c] + rest;
    var head := if |error| > 14 then error[..14] else error;
    assert head == "LND error (" + [a, b, c];
    assert head[10] == '(' && head[11] == a;
    assert error[0] == 'L' && error[4] == 'e';
    assert !("LND temporarily unavailable" <= error) by {
      assert "LND temporarily unavailable"[4] == 't';
    }
  }

  function TotalOr(total: Option<nat>, fallback: int): nat {
    if total.Some? && total.value > 0 then total.value else if fallback > 0 then fallback else 0
  }

  function InvoiceAnswer(amount: int, result: SendResult): Answer {
    match result
    case Sent(total, response) => Paid(TotalOr(total, amount), response)
    case SendError(error) => if IsTerminal(error) then Rejected else Unknown
  }

  function BroadcastAnswer(result: SendResult): Answer {
    match result
    case Sent(total, response) => Paid(TotalOr(total, 0), response)
    case SendError(error) => if BroadcastUnknown(error) then Unknown else Rejected
  }

  // ----- the spend ledger -----

  class RateLimiter {
    var ledger: Ledger

    constructor ()
      ensures ledger == Ledger(map[], {})
    {
      ledger := Ledger(map[], {});
    }

    /** The spend script: add up what is charged, and admit or refuse. */
    method CheckSpend(cfg: Config, n: nat, member: nat, amount: nat) returns (allowed: bool)
      modifies this
      ensures allowed == SpendAllowed(cfg, old(ledger), n, amount)
      ensures ledger.velocity == old(ledger.velocity)
      ensures ledger.spend == if allowed && cfg.spendLimit > 0 then old(ledger.spend)[member := amount] else old(ledger.spend)
    {
      if cfg.spendLimit <= 0 {
        return true;
      }
      var total := 0;
      for i := 0 to n
        invariant total == Total(ledger.spend, i)
      {
        if i in ledger.spend {
          total := total + ledger.spend[i];
        }
      }
      allowed := total + amount <= cfg.spendLimit;
      if allowed {
        ledger := ledger.(spend := ledger.spend[member := amount]);
      }
    }

    method CheckVelocity(cfg: Config, member: nat) returns (allowed: bool)
      modifies this
      ensures allowed == VelocityAllowed(cfg, old(ledger))
      ensures ledger.spend == old(ledger.spend)
      ensures ledger.velocity == if allowed && cfg.velocityLimit > 0 then old(ledger.velocity) + {member} else old(ledger.velocity)
    {
      if cfg.velocityLimit <= 0 {
        return true;
      }
      allowed := |ledger.velocity| < cfg.velocityLimit;
      if allowed {
        ledger := ledger.(velocity := ledger.velocity + {member});
      }
    }

    /** Both limits under one fresh member; a spend that the velocity limit refuses is taken back. */
    method CheckPaymentLimits(cfg: Config, n: nat, member: nat, amount: nat) returns (allowed: bool)
      requires member !in ledger.spend && member !in ledger.velocity
      modifies this
      ensures allowed == Admitted(cfg, old(ledger), n, amount)
      ensures ledger == if allowed then Charged(cfg, old(ledger), member, amount) else old(ledger)
    {
      allowed := CheckSpend(cfg, n, member, amount);
      if allowed {
        allowed := CheckVelocity(cfg, member);
        if !allowed {
          ledger := ledger.(spend := ledger.spend - {member});
          assert ledger.spend == old(ledger.spend);
        }
      }
    }

    method ReconcileSpend(member: nat, sats: nat)
      modifies this
      ensures ledger == Reconciled(old(ledger), member, sats)
    {
      if member in ledger.spend {
        ledger := ledger.(spend := ledger.spend[member := sats]);
      }
    }

    method Rollback(member: nat)
      modifies this
      ensures ledger == RolledBack(old(ledger), member)
    {
      ledger := Ledger(ledger.spend - {member}, ledger.velocity - {member});
    }
  }

  // ----- how a handler relates to the protocol -----

  datatype Reply = Success(response: Response) | Failure(status: nat)

  /** The objects hold the slots and the ledger of `s`. */
  ghost predicate Synced(store: Store, limiter: RateLimiter, s: State)
    reads store, limiter
  {
    store.slots == s.slots && limiter.ledger == s.ledger
  }

  /** The next member is fresh in the ledger. */
  ghost predicate Fresh(s: State) {
    |s.attempts| !in s.ledger.spend && |s.attempts| !in s.ledger.velocity
  }

  /** A handler may start in every state that the protocol reaches without a harmful step. */
  lemma Servable(cfg: Config, steps: seq<Step>)
    requires Careful(cfg, INIT, steps)
    ensures Runs(cfg, INIT, steps)
    ensures Inv(cfg, Exec(cfg, INIT, steps)) && Fresh(Exec(cfg, INIT, steps))
  {
    hide Careful, Runs, Exec;
    CarefulKeeps(cfg, INIT, steps);
    RunKnows(cfg, INIT, steps);
  }

  /** The payment list tells the truth about the hash that the slot of `key` records. */
  ghost predicate LookupTruthful(s: State, key: Option<Key>, found: Found) {
    SlotOf(s.slots, key).Pending? ==> Truthful(s, SlotOf(s.slots, key).hash, found)
  }

  /** `t` is `s` with one more request, served to this outcome, with this order to LND. */
  ghost predicate Serves(s: State, t: State, q: Quote, key: Option<Key>, body: Body, hash: string, outcome: Outcome, order: Option<Order>) {
    && |t.attempts| == |s.attempts| + 1 && t.attempts[..|s.attempts|] == s.attempts
    && var a := t.attempts[|s.attempts|];
    && a.quote == q && a.key == key && a.body == body && a.hash == hash && a.phase == Ended(outcome) && a.order == order
  }

  /**
    Exactly when a call is answered with an earlier response, and with which: reconciliation finds the
    recorded payment settled, whatever body asks; or the slot is completed for this body.
   */
  lemma ReplaysExactly(cfg: Config, s: State, q: Quote, key: Option<Key>, body: Body, found: Found, valid: bool, answer: Answer, r: Response)
    ensures var slot := SlotOf(s.slots, key);
            OutcomeOf(cfg, s, q, key, body, found, valid, answer) == Replayed(r) <==>
              (Lightning(q) && Resolvable(slot) && found == Succeeded(r)) || slot == Done(body, r)
  {
    hide SpendOutcome;
    Spends(cfg, s, q, valid, answer);
  }

  lemma Spends(cfg: Config, s: State, q: Quote, valid: bool, answer: Answer)
    ensures !SpendOutcome(cfg, s, q, valid, answer).Replayed?
  {
  }

  /** So a call answers the payment of another body exactly if the slot is that body's, resolvable, and the lookup succeeds. */
  lemma AnswersForeignExactly(cfg: Config, s: State, q: Quote, key: Option<Key>, body: Body, payer: Body, found: Found, valid: bool, answer: Answer)
    requires payer != body
    ensures var slot := SlotOf(s.slots, key);
            !slot.Absent? && slot.fp == payer && OutcomeOf(cfg, s, q, key, body, found, valid, answer).Replayed? <==>
              Lightning(q) && found.Succeeded? && slot.Pending? && slot == Pending(payer, slot.hash) && slot.hash != ""
  {
    hide OutcomeOf;
    forall r ensures OutcomeOf(cfg, s, q, key, body, found, valid, answer) == Replayed(r) <==>
                       (Lightning(q) && Resolvable(SlotOf(s.slots, key)) && found == Succeeded(r)) || SlotOf(s.slots, key) == Done(body, r)
    {
      ReplaysExactly(cfg, s, q, key, body, found, valid, answer, r);
    }
    var o := OutcomeOf(cfg, s, q, key, body, found, valid, answer);
    if o.Replayed? {
      assert o == Replayed(o.response);
    }
    if found.Succeeded? {
      assert found == Succeeded(found.response);
    }
  }

  /** LND is given an order exactly when the request gets to send, and it is the order of the request. */
  function Ordered(outcome: Outcome, q: Quote, sent: bool): Option<Order> {
    if outcome.Returned? && sent then Some(OrderOf(q)) else None
  }

  /** What must come of a spend whose slot is claimed; it is `valid` if nothing fails before the limits. */
  function SpendOutcome(cfg: Config, s: State, q: Quote, valid: bool, answer: Answer): Outcome {
    if valid && BudgetOf(cfg, q).Some? && Admitted(cfg, s.ledger, |s.attempts| + 1, Reserve(cfg, q))
    then Returned(answer) else Refused
  }

  /** What must come of a request that runs alone from `s`. */
  function OutcomeOf(cfg: Config, s: State, q: Quote, key: Option<Key>, body: Body, found: Found, valid: bool, answer: Answer): Outcome {
    var found := if Lightning(q) then found else Unresolved;
    if PhaseAfterLookup(s.slots, key, found).Ended? then PhaseAfterLookup(s.slots, key, found).outcome
    else
      match ClaimOf(SlotOf(AfterLookup(s.slots, key, body, found), key), body)
      case Claimed => SpendOutcome(cfg, s, q, valid, answer)
      case Cached(r) => Replayed(r)
      case Conflict => Refused
  }

  /** The request is refused because its slot is taken. */
  predicate Conflicts(s: State, q: Quote, key: Option<Key>, body: Body, found: Found) {
    var found := if Lightning(q) then found else Unresolved;
    && PhaseAfterLookup(s.slots, key, found).Ready?
    && ClaimOf(SlotOf(AfterLookup(s.slots, key, body, found), key), body).Conflict?
  }

  /** The status of a refusal: the amount or the cap, then what failed before the limits, then the limits. */
  function Refusal(cfg: Config, q: Quote, failed: Option<nat>): nat {
    if BudgetOf(cfg, q).None? then 400 else if failed.Some? then failed.value else 429
  }

  ghost predicate Answers(outcome: Outcome, refusal: nat, reply: Reply) {
    match outcome
    case Replayed(r) => reply == Success(r)
    case Returned(answer) => reply == if answer.Paid? then Success(answer.response) else Failure(502)
    case Refused => reply == Failure(refusal)
    case Crashed(_, _) => false
  }

  // ----- stretches of a request that runs alone -----

  predicate Resolvable(slot: Slot) {
    slot.Pending? && slot.hash != ""
  }

  /** The slots after reconciliation. */
  function AfterLookup(slots: map<Key, Slot>, key: Option<Key>, body: Body, found: Found): map<Key, Slot> {
    var slot := SlotOf(slots, key);
    if key.None? || !Resolvable(slot) then slots
    else
      match found
      case Unresolved => slots
      case Succeeded(r) => slots[key.value := Replaced(slot, Done(body, r))]
      case Failed => slots[key.value := Dropped(slot)]
  }

  function PhaseAfterLookup(slots: map<Key, Slot>, key: Option<Key>, found: Found): Phase {
    if Resolvable(SlotOf(slots, key)) && found.Succeeded? then Ended(Replayed(found.response)) else Ready
  }

  lemma Arrives(cfg: Config, s: State, q: Quote, key: Option<Key>, body: Body, hash: string) returns (t: State)
    ensures Reaches(cfg, s, t) && t.slots == s.slots && t.ledger == s.ledger && t.claims == s.claims
    ensures t.attempts == s.attempts + [Attempt(q, key, body, hash, Started, Unsent, NoRow, None)]
  {
    hide Reaches;
    Stays(cfg, s);
    Goes(cfg, s, s, Arrive(q, key, body, hash));
    t := Apply(cfg, s, Arrive(q, key, body, hash));
  }

  /** Arrival and reconciliation. */
  lemma Reconciles(cfg: Config, s: State, q: Quote, key: Option<Key>, body: Body, hash: string, found: Found)
    returns (t: State)
    requires Inv(cfg, s) && (Lightning(q) ==> LookupTruthful(s, key, found))
    ensures Reaches(cfg, s, t) && t.ledger == s.ledger
    ensures t.slots == if Lightning(q) then AfterLookup(s.slots, key, body, found) else s.slots
    ensures t.attempts == s.attempts + [Attempt(q, key, body, hash,
                                                if Lightning(q) then PhaseAfterLookup(s.slots, key, found) else Ready, Unsent, NoRow, None)]
  {
    hide Reaches, Inv, BudgetOf, At, Consistent, Guards, Compatible;
    var i := |s.attempts|;
    t := Arrives(cfg, s, q, key, body, hash);
    KeepsArrive(cfg, s, Arrive(q, key, body, hash));
    assert t == Apply(cfg, s, Arrive(q, key, body, hash));
    KeepsLooking(cfg, t, Peek(i));
    Goes(cfg, s, t, Peek(i));
    t := Apply(cfg, t, Peek(i));
    if t.attempts[i].phase.Peeked? {
      StillTruthful(s, t, t.attempts[i].phase.hash, found);
      KeepsLooking(cfg, t, Lookup(i, found));
      Goes(cfg, s, t, Lookup(i, found));
      t := Apply(cfg, t, Lookup(i, found));
      FreshActIsHarmless(cfg, t, i);
      Goes(cfg, s, t, Act(i));
      t := Apply(cfg, t, Act(i));
    }
  }

  lemma StillTruthful(s: State, t: State, hash: string, found: Found)
    requires Truthful(s, hash, found)
    requires |t.attempts| == |s.attempts| + 1 && t.attempts[..|s.attempts|] == s.attempts
    requires t.attempts[|s.attempts|].fate.Unsent?
    ensures Truthful(t, hash, found)
  {
    assert t.attempts == s.attempts + [t.attempts[|s.attempts|]];
  }

  lemma Claims(cfg: Config, s: State, t: State, i: nat) returns (u: State)
    requires Reaches(cfg, s, t) && i < |t.attempts| && t.attempts[i].phase.Ready?
    ensures var a := t.attempts[i];
            var slot := SlotOf(t.slots, a.key);
            && Reaches(cfg, s, u) && u.ledger == t.ledger
            && u.slots == (if a.key.Some? && slot.Absent? then t.slots[a.key.value := InFlight(a.body)] else t.slots)
            && u.attempts == t.attempts[i := a.(phase := match ClaimOf(slot, a.body)
                                                 case Claimed => Running
                                                 case Cached(r) => Ended(Replayed(r))
                                                 case Conflict => Ended(Refused))]
  {
    hide Reaches, At, ClaimsOf;
    Goes(cfg, s, t, Claim(i));
    u := Apply(cfg, t, Claim(i));
  }

  /** Refused while running, before the limits. */
  lemma Refuses(cfg: Config, s: State, t: State, i: nat) returns (u: State)
    requires Reaches(cfg, s, t) && i < |t.attempts| && t.attempts[i].phase.Running?
    ensures var a := t.attempts[i];
            && Reaches(cfg, s, u) && u.ledger == t.ledger
            && u.slots == PutSlot(t, a.key, Released(SlotOf(t.slots, a.key))).slots
            && u.attempts == t.attempts[i := a.(phase := Ended(Refused))]
  {
    hide Reaches, At, BudgetOf, Released;
    Goes(cfg, s, t, Refuse(i));
    u := Apply(cfg, t, Refuse(i));
  }

  /** Refused by the cap, by the spend window or by the velocity window. */
  lemma Limits(cfg: Config, s: State, t: State, i: nat) returns (u: State)
    requires Reaches(cfg, s, t) && i < |t.attempts| && t.attempts[i].phase.Running?
    requires i !in t.ledger.spend
    requires !(BudgetOf(cfg, t.attempts[i].quote).Some? && Admitted(cfg, t.ledger, |t.attempts|, Reserve(cfg, t.attempts[i].quote)))
    ensures var a := t.attempts[i];
            && Reaches(cfg, s, u) && u.ledger == t.ledger
            && u.slots == PutSlot(t, a.key, Released(SlotOf(t.slots, a.key))).slots
            && u.attempts == t.attempts[i := a.(phase := Ended(Refused),
                                                row := if BudgetOf(cfg, a.quote).Some? then RefusedRow(a.quote) else a.row)]
  {
    hide Reaches, At, BudgetOf, Released, Total;
    Goes(cfg, s, t, Limit(i));
    u := Apply(cfg, t, Limit(i));
    if u.attempts[i].phase.Reserving? {
      Goes(cfg, s, u, Velocity(i));
      u := Apply(cfg, u, Velocity(i));
      assert u.ledger.spend == t.ledger.spend;
    }
  }

  // ----- the handlers -----

  /** `_reconcile_pending_lightning_payment` and its BOLT 12 twin. */
  method Reconcile(store: Store, k: Key, body: Body, lookup: Lookup) returns (resolved: Option<Response>)
    modifies store
    ensures store.slots == AfterLookup(old(store.slots), Some(k), body, FoundOf(lookup))
    ensures resolved == if Resolvable(At(old(store.slots), k)) && FoundOf(lookup).Succeeded? then Some(FoundOf(lookup).response) else None
  {
    var record := At(store.slots, k);
    if !record.Pending? || record.hash == "" || lookup.LookupError? {
      return None;
    }
    var status := Text.Upper(lookup.status);
    if status == "SUCCEEDED" {
      store.StoreResult(k, body, lookup.response);
      return Some(lookup.response);
    }
    if status == "FAILED" {
      store.ReleasePending(k);
    }
    return None;
  }

  /** What LND decodes an invoice to: the whole sats, the amount that paying it sends, and the hash. */
  datatype Decoded = Decoded(amountSats: int, msat: nat, hash: string)

  /** The quote and the hash that a decoded invoice stands for; one that does not decode has no amount. */
  function QuoteOf(decoded: Option<Decoded>, feeLimit: Option<nat>): Quote {
    if decoded.Some? then Invoice(decoded.value.amountSats, decoded.value.msat, feeLimit) else Invoice(0, 0, feeLimit)
  }

  function HashOf(decoded: Option<Decoded>): string {
    if decoded.Some? then decoded.value.hash else ""
  }

  /** The request at `i` holds the slot of its key, if it has one, and is about to spend. */
  ghost predicate Runnable(cfg: Config, s: State, t: State, q: Quote, key: Option<Key>, body: Body, hash: string) {
    && Reaches(cfg, s, t) && t.ledger == s.ledger
    && t.attempts == s.attempts + [Attempt(q, key, body, hash, Running, Unsent, NoRow, None)]
  }

  /** `pay_invoice`, once the slot is claimed. */
  method SpendInvoice(store: Store, limiter: RateLimiter, cfg: Config, ghost s: State, ghost u: State, member: nat,
                      key: Option<Key>, body: Body, decoded: Option<Decoded>, feeLimit: Option<nat>, result: SendResult)
    returns (reply: Reply, order: Option<Order>, ghost t: State)
    requires Synced(store, limiter, u) && member == |s.attempts| && Fresh(s)
    requires Runnable(cfg, s, u, QuoteOf(decoded, feeLimit), key, body, HashOf(decoded))
    modifies store, limiter
    ensures var q := QuoteOf(decoded, feeLimit);
            var outcome := SpendOutcome(cfg, s, q, decoded.Some?, InvoiceAnswer(q.amountSats, result));
            && Synced(store, limiter, t) && Reaches(cfg, s, t)
            && order == Ordered(outcome, q, true) && Serves(s, t, q, key, body, HashOf(decoded), outcome, order)
            && Answers(outcome, Refusal(cfg, q, None), reply)
  {
    hide Reaches, Admitted, Charged, At, Replaced, Released, Reconciled, RolledBack, IsTerminal, DefaultFee, UnderCap, FeeEstimate, TotalOr;
    var release := true;
    order := None;
    if decoded.None? {
      t := Refuses(cfg, s, u, member);
      reply := Failure(400);
    } else {
      var amount := decoded.value.amountSats;
      var fee := if feeLimit.Some? then feeLimit.value else DefaultFee(if amount > 0 then amount else 0);
      if amount <= 0 || !UnderCap(cfg, amount + fee) {
        t := Limits(cfg, s, u, member);
        reply := Failure(400);
      } else {
        var allowed := limiter.CheckPaymentLimits(cfg, member + 1, member, amount + fee);
        if !allowed {
          t := Limits(cfg, s, u, member);
          reply := Failure(429);
        } else {
          var effectiveFee := fee;
          order := Some(Pay(decoded.value.msat, effectiveFee * 1000));
          t := Sends(cfg, s, u, member, order.value);
          t := Finishes(cfg, s, t, member, InvoiceAnswer(amount, result));
          match result {
            case SendError(error) =>
              if IsTerminal(error) {
                limiter.Rollback(member);
              } else if key.Some? {
                release := false;
                store.MarkPending(key.value, body, decoded.value.hash);
              }
              reply := Failure(502);
            case Sent(total, response) =>
              limiter.ReconcileSpend(member, TotalOr(total, amount));
              if key.Some? {
                store.StoreResult(key.value, body, response);
              }
              reply := Success(response);
          }
        }
      }
    }
    if reply.Failure? && key.Some? && release {
      store.ReleaseInflight(key.value);
    }
  }

  /** `pay_invoice` */
  method PayInvoice(store: Store, limiter: RateLimiter, cfg: Config, ghost s: State, member: nat,
                    key: Option<Key>, body: Body, decoded: Option<Decoded>, feeLimit: Option<nat>,
                    lookup: Lookup, result: SendResult)
    returns (reply: Reply, order: Option<Order>, ghost t: State)
    requires Synced(store, limiter, s) && Inv(cfg, s) && member == |s.attempts| && Fresh(s)
    requires LookupTruthful(s, key, FoundOf(lookup))
    modifies store, limiter
    ensures var q := QuoteOf(decoded, feeLimit);
            var outcome := OutcomeOf(cfg, s, q, key, body, FoundOf(lookup), decoded.Some?, InvoiceAnswer(q.amountSats, result));
            && Synced(store, limiter, t) && Reaches(cfg, s, t)
            && order == Ordered(outcome, q, true) && Serves(s, t, q, key, body, HashOf(decoded), outcome, order)
            && Answers(outcome, if Conflicts(s, q, key, body, FoundOf(lookup)) then 409 else Refusal(cfg, q, None), reply)
  {
    hide Reaches, Inv, Replaced, Dropped, FoundOf, Truthful;
    t := Reconciles(cfg, s, QuoteOf(decoded, feeLimit), key, body, HashOf(decoded), FoundOf(lookup));
    if key.Some? {
      var resolved := Reconcile(store, key.value, body, lookup);
      if resolved.Some? {
        return Success(resolved.value), None, t;
      }
    }
    assert t.attempts[member].phase.Ready?;
    t := Claims(cfg, s, t, member);
    if key.Some? {
      var cached := store.LookupOrReserve(key.value, body);
      if cached.Cached? {
        return Success(cached.response), None, t;
      }
      if cached.Conflict? {
        return Failure(409), None, t;
      }
    }
    reply, order, t := SpendInvoice(store, limiter, cfg, s, t, member, key, body, decoded, feeLimit, result);
  }

  /** `send_onchain` and `open_channel`, which differ in the request and the LND call. */
  method SpendBroadcast(store: Store, limiter: RateLimiter, cfg: Config, ghost s: State, member: nat,
                   q: Quote, key: Option<Key>, body: Body, result: SendResult)
    returns (reply: Reply, order: Option<Order>, ghost t: State)
    requires Synced(store, limiter, s) && Inv(cfg, s) && member == |s.attempts| && Fresh(s) && !Lightning(q)
    modifies store, limiter
    ensures var outcome := OutcomeOf(cfg, s, q, key, body, Unresolved, true, BroadcastAnswer(result));
            && Synced(store, limiter, t) && Reaches(cfg, s, t)
            && order == Ordered(outcome, q, true) && Serves(s, t, q, key, body, "", outcome, order)
            && Answers(outcome, if Conflicts(s, q, key, body, Unresolved) then 409 else Refusal(cfg, q, None), reply)
  {
    hide Reaches, Inv, Replaced, Dropped, Truthful;
    t := Reconciles(cfg, s, q, key, body, "", Unresolved);
    t := Claims(cfg, s, t, member);
    if key.Some? {
      var cached := store.LookupOrReserve(key.value, body);
      if cached.Cached? {
        return Success(cached.response), None, t;
      }
      if cached.Conflict? {
        return Failure(409), None, t;
      }
    }
    reply, order, t := SpendOnchain(store, limiter, cfg, s, t, member, q, key, body, result);
  }

  method SpendOnchain(store: Store, limiter: RateLimiter, cfg: Config, ghost s: State, ghost u: State, member: nat,
                      q: Quote, key: Option<Key>, body: Body, result: SendResult)
    returns (reply: Reply, order: Option<Order>, ghost t: State)
    requires Synced(store, limiter, u) && member == |s.attempts| && Fresh(s) && !Lightning(q)
    requires Runnable(cfg, s, u, q, key, body, "")
    modifies store, limiter
    ensures var outcome := SpendOutcome(cfg, s, q, true, BroadcastAnswer(result));
            && Synced(store, limiter, t) && Reaches(cfg, s, t)
            && order == Ordered(outcome, q, true) && Serves(s, t, q, key, body, "", outcome, order)
            && Answers(outcome, Refusal(cfg, q, None), reply)
  {
    hide Reaches, Admitted, Charged, At, Replaced, Released, Reconciled, RolledBack, BroadcastUnknown, DefaultFee, UnderCap, FeeEstimate, TotalOr;
    var amount := if q.Onchain? then q.amount else q.funding;
    var release := true;
    order := None;
    if !UnderCap(cfg, amount) {
      t := Limits(cfg, s, u, member);
      reply := Failure(400);
    } else {
      var allowed := limiter.CheckPaymentLimits(cfg, member + 1, member, amount + FeeEstimate(q.rate));
      if !allowed {
        t := Limits(cfg, s, u, member);
        reply := Failure(429);
      } else {
        order := Some(Order.Broadcast(amount, q.rate));
        t := Sends(cfg, s, u, member, order.value);
        t := Finishes(cfg, s, t, member, BroadcastAnswer(result));
        match result {
          case SendError(error) =>
            if BroadcastUnknown(error) {
              if key.Some? {
                release := false;
                store.MarkPending(key.value, body, "");
              }
            } else {
              limiter.Rollback(member);
            }
            reply := Failure(502);
          case Sent(_, response) =>
            if key.Some? {
              store.StoreResult(key.value, body, response);
            }
            reply := Success(response);
        }
      }
    }
    if reply.Failure? && key.Some? && release {
      store.ReleaseInflight(key.value);
    }
  }

  const MAX_SAT_PER_VBYTE := 1000

  /** The rate of an on-chain send: the caller's, else the mempool's for the priority, clamped. */
  function SendRate(rate: Option<nat>, mempoolRate: Option<nat>): Option<nat> {
    if rate.Some? && rate.value > 0 then rate
    else if mempoolRate.Some? && mempoolRate.value > 0 then
      Some(if mempoolRate.value < MAX_SAT_PER_VBYTE then mempoolRate.value else MAX_SAT_PER_VBYTE)
    else rate
  }

  /** `send_onchain` */
  method SendOnchain(store: Store, limiter: RateLimiter, cfg: Config, ghost s: State, member: nat,
                     amount: nat, rate: Option<nat>, mempoolRate: Option<nat>, key: Option<Key>, body: Body, result: SendResult)
    returns (reply: Reply, order: Option<Order>, ghost t: State)
    requires Synced(store, limiter, s) && Inv(cfg, s) && member == |s.attempts| && Fresh(s)
    modifies store, limiter
    ensures var q := Onchain(amount, SendRate(rate, mempoolRate));
            var outcome := OutcomeOf(cfg, s, q, key, body, Unresolved, true, BroadcastAnswer(result));
            && Synced(store, limiter, t) && Reaches(cfg, s, t)
            && order == Ordered(outcome, q, true) && Serves(s, t, q, key, body, "", outcome, order)
            && Answers(outcome, if Conflicts(s, q, key, body, Unresolved) then 409 else Refusal(cfg, q, None), reply)
  {
    hide Reaches, Inv, OutcomeOf;
    reply, order, t := SpendBroadcast(store, limiter, cfg, s, member, Onchain(amount, SendRate(rate, mempoolRate)), key, body, result);
  }

  /** `open_channel` */
  method OpenChannel(store: Store, limiter: RateLimiter, cfg: Config, ghost s: State, member: nat,
                     funding: nat, rate: Option<nat>, key: Option<Key>, body: Body, result: SendResult)
    returns (reply: Reply, order: Option<Order>, ghost t: State)
    requires Synced(store, limiter, s) && Inv(cfg, s) && member == |s.attempts| && Fresh(s)
    modifies store, limiter
    ensures var q := Channel(funding, rate);
            var outcome := OutcomeOf(cfg, s, q, key, body, Unresolved, true, BroadcastAnswer(result));
            && Synced(store, limiter, t) && Reaches(cfg, s, t)
            && order == Ordered(outcome, q, true) && Serves(s, t, q, key, body, "", outcome, order)
            && Answers(outcome, if Conflicts(s, q, key, body, Unresolved) then 409 else Refusal(cfg, q, None), reply)
  {
    hide Reaches, Inv, OutcomeOf;
    reply, order, t := SpendBroadcast(store, limiter, cfg, s, member, Channel(funding, rate), key, body, result);
  }

  // ----- BOLT 12 -----

  datatype Htlc = Htlc(status: string, totalAmt: Option<nat>)

  /** What settling an invoice meets: its blinded paths, the routes LND offers, and the HTLC it reports. */
  datatype Settlement = Settlement(hasPaths: bool, pathsDecode: bool, routes: Option<nat>, htlc: Option<Htlc>)

  /** The payment got as far as `SendToRouteV2`. */
  predicate Routed(w: Settlement) {
    w.hasPaths && w.pathsDecode && w.routes.Some? && w.routes.value > 0
  }

  function OfferAnswer(w: Settlement, sats: nat, response: Response): Answer {
    if !Routed(w) then Rejected
    else if w.htlc.None? || Text.Upper(w.htlc.value.status) == "IN_FLIGHT" then Unknown
    else if Text.Upper(w.htlc.value.status) == "SUCCEEDED" then Paid(TotalOr(w.htlc.value.totalAmt, sats), response)
    else Rejected
  }

  class InvoiceRow {
    var status: Row

    constructor ()
      ensures status == NoRow
    {
      status := NoRow;
    }
  }

  datatype Outbound = Outbound(paid: bool, ambiguous: bool)

  /** `_settle_bolt12_outbound`: the order is for the invoice's amount, within the given fee limit. */
  method SettleOutbound(row: InvoiceRow, amountMsat: nat, feeLimitMsat: nat, w: Settlement)
    returns (outcome: Outbound, order: Option<Order>)
    requires row.status.OpenRow?
    modifies row
    ensures var answer := OfferAnswer(w, 0, "");
            && row.status == BookRow(Offer(None, None), answer)
            && outcome == Outbound(answer.Paid?, answer.Unknown?)
            && order == if Routed(w) then Some(Pay(amountMsat, feeLimitMsat)) else None
  {
    order := None;
    outcome := Outbound(false, false);
    if !w.hasPaths {
      row.status := FailedRow;
      return;
    }
    if !w.pathsDecode {
      row.status := FailedRow;
      return;
    }
    if w.routes.None? {
      row.status := FailedRow;
      return;
    }
    if w.routes.value == 0 {
      row.status := FailedRow;
      return;
    }
    order := Some(Pay(amountMsat, feeLimitMsat));
    if w.htlc.None? {
      outcome := Outbound(false, true);
      return;
    }
    var status := Text.Upper(w.htlc.value.status);
    if status == "SUCCEEDED" {
      row.status := PaidRow;
      outcome := Outbound(true, false);
      return;
    }
    if status == "IN_FLIGHT" {
      outcome := Outbound(false, true);
      return;
    }
    row.status := FailedRow;
  }

  /** A request that holds its reservation finds no way to send, and concludes. */
  lemma Gives(cfg: Config, s: State, t: State, i: nat, w: Settlement, sats: nat, response: Response) returns (u: State)
    requires Reaches(cfg, s, t) && i < |t.attempts| && t.attempts[i].phase.Running? && t.attempts[i].quote.Offer?
    requires BudgetOf(cfg, t.attempts[i].quote).Some?
    requires Admitted(cfg, t.ledger, |t.attempts|, Reserve(cfg, t.attempts[i].quote))
    ensures var a, answer := t.attempts[i], OfferAnswer(w, sats, response);
            && Reaches(cfg, s, u)
            && u.slots == PutSlot(t, a.key, SettledSlot(SlotOf(t.slots, a.key), a, answer)).slots
            && u.ledger == BookLedger(Charged(cfg, t.ledger, i, Reserve(cfg, a.quote)), i, a.quote, answer)
            && |u.attempts| == |t.attempts|
            && u.attempts == t.attempts[i := a.(phase := Ended(Returned(answer)), fate := u.attempts[i].fate, row := BookRow(a.quote, answer),
                                                order := if Routed(w) then Some(OrderOf(a.quote)) else a.order)]
  {
    hide Reaches, BudgetOf, Admitted, Charged, At, BookLedger, Replaced, Released, OrderOf;
    if Routed(w) {
      u := Sends(cfg, s, t, i, OrderOf(t.attempts[i].quote));
      u := Finishes(cfg, s, u, i, OfferAnswer(w, sats, response));
    } else {
      u := Reserves(cfg, s, t, i);
      Goes(cfg, s, u, NoSend(i));
      u := Apply(cfg, u, NoSend(i));
      assert u.attempts[i].phase == Answered(Rejected);
      u := Concludes(cfg, s, u, i);
    }
  }

  /** The response body for each row status. */
  datatype Results = Results(paid: Response, open: Response, failed: Response)

  function ResultFor(results: Results, row: Row): Response {
    if row.PaidRow? then results.paid else if row.OpenRow? then results.open else results.failed
  }

  /** The amount of an offer in sats, rounded up: what a payment settles for if no route total is reported. */
  function OfferSats(offerMsat: Option<nat>, askedMsat: Option<nat>): nat {
    var msat := ResolveAmount(offerMsat, askedMsat);
    if msat.Some? then SatsUp(msat.value) else 0
  }

  /** Whether the invoice arrived and is sound, or the status with which fetching it failed. */
  datatype Fetch = Arrived | Failing(status: nat)

  function FailedWith(fetch: Fetch): Option<nat> {
    if fetch.Failing? then Some(fetch.status) else None
  }

  /** `_perform_pay_offer`, from the amount to the settlement. */
  method PerformPayOffer(limiter: RateLimiter, row: InvoiceRow, cfg: Config, member: nat,
                         offerMsat: Option<nat>, askedMsat: Option<nat>, fetch: Fetch, w: Settlement, results: Results)
    returns (reply: Reply, order: Option<Order>)
    requires row.status.NoRow? && member !in limiter.ledger.spend && member !in limiter.ledger.velocity
    modifies limiter, row
    ensures var q := Offer(offerMsat, askedMsat);
            var answer := OfferAnswer(w, OfferSats(offerMsat, askedMsat), results.paid);
            var was := old(limiter.ledger);
            if fetch.Arrived? && BudgetOf(cfg, q).Some? && Admitted(cfg, was, member + 1, Reserve(cfg, q))
            then
              && reply == Success(ResultFor(results, row.status)) && row.status == BookRow(q, answer)
              && limiter.ledger == BookLedger(Charged(cfg, was, member, Reserve(cfg, q)), member, q, answer)
              && order == if Routed(w) then Some(OrderOf(q)) else None
            else
              && reply == Failure(Refusal(cfg, q, FailedWith(fetch)))
              && limiter.ledger == was && order == None
              && row.status == if fetch.Arrived? && BudgetOf(cfg, q).Some? then FailedRow else NoRow
  {
    hide Admitted, Charged, RolledBack, Reconciled;
    var msat := ResolveAmount(offerMsat, askedMsat);
    if msat.None? {
      return Failure(400), None;
    }
    var sats := SatsUp(msat.value);
    var total := sats + DefaultFee(sats);
    if !UnderCap(cfg, total) {
      return Failure(400), None;
    }
    if fetch.Failing? {
      return Failure(fetch.status), None;
    }
    row.status := OpenRow;
    var allowed := limiter.CheckPaymentLimits(cfg, member + 1, member, total);
    if !allowed {
      row.status := FailedRow;
      return Failure(429), None;
    }
    var outcome;
    outcome, order := SettleOutbound(row, msat.value, (total - sats) * 1000, w);
    if outcome.paid {
      limiter.ReconcileSpend(member, TotalOr(w.htlc.value.totalAmt, sats));
    } else if !outcome.ambiguous {
      limiter.Rollback(member);
    }
    reply := Success(ResultFor(results, row.status));
  }

  ghost predicate AnswersOffer(outcome: Outcome, refusal: nat, row: Row, results: Results, reply: Reply) {
    match outcome
    case Replayed(r) => reply == Success(r)
    case Returned(_) => reply == Success(ResultFor(results, row))
    case Refused => reply == Failure(refusal)
    case Crashed(_, _) => false
  }

  /** `pay_offer` once the slot is claimed. */
  method SpendOffer(store: Store, limiter: RateLimiter, row: InvoiceRow, cfg: Config, ghost s: State, ghost u: State, member: nat,
                    offerMsat: Option<nat>, askedMsat: Option<nat>, fetch: Fetch, hash: string, w: Settlement,
                    results: Results, key: Option<Key>, body: Body)
    returns (reply: Reply, order: Option<Order>, ghost t: State)
    requires Synced(store, limiter, u) && member == |s.attempts| && Fresh(s) && row.status.NoRow?
    requires Runnable(cfg, s, u, Offer(offerMsat, askedMsat), key, body, hash)
    modifies store, limiter, row
    ensures var q := Offer(offerMsat, askedMsat);
            var answer := OfferAnswer(w, OfferSats(offerMsat, askedMsat), results.paid);
            var outcome := SpendOutcome(cfg, s, q, fetch.Arrived?, answer);
            && Synced(store, limiter, t) && Reaches(cfg, s, t)
            && order == Ordered(outcome, q, Routed(w)) && Serves(s, t, q, key, body, hash, outcome, order)
            && AnswersOffer(outcome, Refusal(cfg, q, FailedWith(fetch)), row.status, results, reply)
            && row.status == t.attempts[member].row
  {
    hide Reaches, Admitted, Charged, At, Replaced, Released, Reconciled, RolledBack, BudgetOf, Routed, OfferSats;
    ghost var q := Offer(offerMsat, askedMsat);
    ghost var sats := OfferSats(offerMsat, askedMsat);
    reply, order := PerformPayOffer(limiter, row, cfg, member, offerMsat, askedMsat, fetch, w, results);
    if reply.Failure? {
      if fetch.Arrived? {
        t := Limits(cfg, s, u, member);
      } else {
        t := Refuses(cfg, s, u, member);
      }
      if key.Some? {
        store.ReleaseInflight(key.value);
      }
      return;
    }
    t := Gives(cfg, s, u, member, w, sats, results.paid);
    if key.Some? {
      if row.status.PaidRow? {
        store.StoreResult(key.value, body, reply.response);
      } else if row.status.OpenRow? {
        store.MarkPending(key.value, body, hash);
      } else {
        store.ReleaseInflight(key.value);
      }
    }
  }

  /** `pay_offer` */
  method PayOffer(store: Store, limiter: RateLimiter, row: InvoiceRow, cfg: Config, ghost s: State, member: nat,
                  offerMsat: Option<nat>, askedMsat: Option<nat>, fetch: Fetch, hash: string, w: Settlement,
                  results: Results, key: Option<Key>, body: Body, lookup: Lookup)
    returns (reply: Reply, order: Option<Order>, ghost t: State)
    requires Synced(store, limiter, s) && Inv(cfg, s) && member == |s.attempts| && Fresh(s) && row.status.NoRow?
    requires LookupTruthful(s, key, FoundOf(lookup))
    modifies store, limiter, row
    ensures var q := Offer(offerMsat, askedMsat);
            var answer := OfferAnswer(w, OfferSats(offerMsat, askedMsat), results.paid);
            var outcome := OutcomeOf(cfg, s, q, key, body, FoundOf(lookup), fetch.Arrived?, answer);
            && Synced(store, limiter, t) && Reaches(cfg, s, t)
            && order == Ordered(outcome, q, Routed(w)) && Serves(s, t, q, key, body, hash, outcome, order)
            && AnswersOffer(outcome, if Conflicts(s, q, key, body, FoundOf(lookup)) then 409 else Refusal(cfg, q, FailedWith(fetch)),
                            row.status, results, reply)
            && row.status == t.attempts[member].row
  {
    hide Reaches, Inv, Replaced, Dropped, FoundOf, Truthful;
    ghost var q := Offer(offerMsat, askedMsat);
    t := Reconciles(cfg, s, q, key, body, hash, FoundOf(lookup));
    if key.Some? {
      var resolved := Reconcile(store, key.value, body, lookup);
      if resolved.Some? {
        return Success(resolved.value), None, t;
      }
    }
    assert t.attempts[member].phase.Ready?;
    t := Claims(cfg, s, t, member);
    if key.Some? {
      var cached := store.LookupOrReserve(key.value, body);
      if cached.Cached? {
        return Success(cached.response), None, t;
      }
      if cached.Conflict? {
        return Failure(409), None, t;
      }
    }
    reply, order, t := SpendOffer(store, limiter, row, cfg, s, t, member, offerMsat, askedMsat, fetch, hash, w, results, key, body);
  }
}
