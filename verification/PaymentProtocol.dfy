/**
  The idempotent payment protocol as a step machine: any number of requests of one
  API key, over any idempotency keys, interleaved with each other and with the node.
  A request is `pay_invoice` or `send_onchain` (app/api/payments.py), `open_channel`
  (app/api/channels.py) or `pay_offer` (app/api/bolt12.py); its steps are the stretches
  of the handler between suspension points.
 */
module PaymentProtocol {
  import opened Common
  import opened Idempotency
  import opened Spending

  /** What has become of the send that a request handed to LND. */
  datatype Fate = Unsent | Live | Settled | Dead

  /** What LND answered: paid, definitely failed, or no way to tell. */
  datatype Answer = Paid(sats: nat, response: Response) | Rejected | Unknown

  /** What looking up the payment hash of a pending slot gave. */
  datatype Found = Unresolved | Succeeded(response: Response) | Failed

  /** The BOLT 12 invoice row. */
  datatype Row = NoRow | OpenRow | PaidRow | FailedRow

  datatype Outcome =
    | Refused
    | Replayed(response: Response)
    | Returned(answer: Answer)
    | Crashed(booked: Option<Answer>, counted: bool)

  datatype Phase =
    | Started
    | Peeked(hash: string, epoch: nat)
    | LookedUp(found: Found, epoch: nat)
    | Ready
    | Running
    | Reserving
    | Holding
    | Sending
    | Answered(answer: Answer)
    | Booked(answer: Answer)
    | Ended(outcome: Outcome)

  datatype Attempt = Attempt(
    quote: Quote, key: Option<Key>, body: Body, hash: string,
    phase: Phase, fate: Fate, row: Row, order: Option<Order>)

  /** `claims` counts how often each slot has been claimed; nothing in the source depends on it. */
  datatype State = State(slots: map<Key, Slot>, claims: map<Key, nat>, ledger: Ledger, attempts: seq<Attempt>)

  const INIT := State(map[], map[], Ledger(map[], {}), [])

  datatype Step =
    | Arrive(quote: Quote, key: Option<Key>, body: Body, hash: string)
    | Peek(i: nat)
    | Lookup(i: nat, found: Found)
    | Act(i: nat)
    | Claim(i: nat)
    | Refuse(i: nat)
    | Limit(i: nat)
    | Velocity(i: nat)
    | Send(i: nat, order: Order)
    | NoSend(i: nat)
    | Node(i: nat, settled: bool)
    | Answer(i: nat, answer: Answer)
    | Book(i: nat)
    | Settle(i: nat)
    | Fault(i: nat)

  // ----- reading a state -----

  /** The request holds the slot: it may spend. */
  predicate Active(a: Attempt) {
    || a.phase.Running? || a.phase.Reserving? || a.phase.Holding? || a.phase.Sending?
    || a.phase.Answered? || a.phase.Booked?
  }

  /** Its send has settled or may still settle. */
  predicate MaybePaid(a: Attempt) {
    a.fate.Live? || a.fate.Settled?
  }

  /** The hash that a pending slot of this request records: none for on-chain spends. */
  function RecordedHash(a: Attempt): string {
    if Lightning(a.quote) then a.hash else ""
  }

  function SlotOf(slots: map<Key, Slot>, key: Option<Key>): Slot {
    if key.Some? then At(slots, key.value) else Absent
  }

  function ClaimsOf(claims: map<Key, nat>, key: Option<Key>): nat {
    if key.Some? && key.value in claims then claims[key.value] else 0
  }

  function Reserve(cfg: Config, q: Quote): nat {
    var b := BudgetOf(cfg, q);
    if b.Some? then b.value else 0
  }

  // ----- the steps -----

  /**
    The payment list tells the truth: a payment it calls failed is none that may settle. One that it
    calls succeeded may have been made by anyone who uses the node.
   */
  ghost predicate Truthful(s: State, hash: string, found: Found) {
    found.Failed? ==> forall a :: a in s.attempts && Lightning(a.quote) && a.hash == hash ==> !MaybePaid(a)
  }

  ghost predicate Enabled(s: State, step: Step) {
    if step.Arrive? then true
    else
      && step.i < |s.attempts|
      && var a := s.attempts[step.i];
      match step
      case Arrive(_, _, _, _) => true
      case Peek(_) => a.phase.Started?
      case Lookup(_, found) => a.phase.Peeked? && Truthful(s, a.phase.hash, found)
      case Act(_) => a.phase.LookedUp?
      case Claim(_) => a.phase.Ready?
      case Refuse(_) => a.phase.Running?
      case Limit(_) => a.phase.Running?
      case Velocity(_) => a.phase.Reserving?
      case Send(_, order) => a.phase.Holding? && order == OrderOf(a.quote)
      case NoSend(_) => a.phase.Holding? && a.quote.Offer?
      case Node(_, _) => a.fate.Live?
      case Answer(_, answer) =>
        a.phase.Sending? && (answer.Paid? ==> a.fate.Settled?) && (answer.Rejected? ==> a.fate.Dead?)
      case Book(_) => a.phase.Answered?
      case Settle(_) => a.phase.Booked?
      case Fault(_) => Active(a) && !a.phase.Running?
  }

  function Put(s: State, i: nat, a: Attempt): State
    requires i < |s.attempts|
  {
    s.(attempts := s.attempts[i := a])
  }

  function PutSlot(s: State, key: Option<Key>, slot: Slot): State {
    if key.Some? then s.(slots := s.slots[key.value := slot]) else s
  }

  /** Reconciliation first looks whether the slot is pending with a payment hash. */
  function Peeking(s: State, a: Attempt): Phase {
    var slot := SlotOf(s.slots, a.key);
    if Lightning(a.quote) && slot.Pending? && slot.hash != "" then Peeked(slot.hash, ClaimsOf(s.claims, a.key)) else Ready
  }

  function Acting(s: State, i: nat): State
    requires i < |s.attempts| && s.attempts[i].phase.LookedUp?
  {
    var a := s.attempts[i];
    var slot := SlotOf(s.slots, a.key);
    match a.phase.found
    case Unresolved => Put(s, i, a.(phase := Ready))
    case Succeeded(r) => PutSlot(Put(s, i, a.(phase := Ended(Replayed(r)))), a.key, Replaced(slot, Done(a.body, r)))
    case Failed => PutSlot(Put(s, i, a.(phase := Ready)), a.key, Dropped(slot))
  }

  function Claiming(s: State, i: nat): State
    requires i < |s.attempts|
  {
    var a := s.attempts[i];
    var slot := SlotOf(s.slots, a.key);
    match ClaimOf(slot, a.body)
    case Claimed =>
      var t := PutSlot(Put(s, i, a.(phase := Running)), a.key, Reserved(slot, a.body));
      if a.key.Some? then t.(claims := t.claims[a.key.value := ClaimsOf(s.claims, a.key) + 1]) else t
    case Cached(r) => Put(s, i, a.(phase := Ended(Replayed(r))))
    case Conflict => Put(s, i, a.(phase := Ended(Refused)))
  }

  /** Leaving by an exception while the slot is still in flight. */
  function Leaving(s: State, i: nat, outcome: Outcome): State
    requires i < |s.attempts|
  {
    var a := s.attempts[i];
    PutSlot(Put(s, i, a.(phase := Ended(outcome))), a.key, Released(SlotOf(s.slots, a.key)))
  }

  /** An exception leaves the ledger as it is: what was booked, and whether the spend was counted. */
  function CrashOf(phase: Phase): Outcome {
    Crashed(if phase.Booked? then Some(phase.answer) else None, !phase.Reserving?)
  }

  /** A refusal by the limits marks the BOLT 12 row. */
  function RefusedRow(q: Quote): Row {
    if q.Offer? then FailedRow else NoRow
  }

  /** The cap, then the spend window. */
  function Limiting(cfg: Config, s: State, i: nat): State
    requires i < |s.attempts|
  {
    var a := s.attempts[i];
    match BudgetOf(cfg, a.quote)
    case None => Leaving(s, i, Refused)
    case Some(b) =>
      if SpendAllowed(cfg, s.ledger, |s.attempts|, b) then
        Put(s, i, a.(phase := Reserving)).(ledger := SpendCharged(cfg, s.ledger, i, b))
      else
        Leaving(Put(s, i, a.(row := RefusedRow(a.quote))), i, Refused)
  }

  /** The velocity window, which takes the spend back if it refuses. */
  function Pacing(cfg: Config, s: State, i: nat): State
    requires i < |s.attempts|
  {
    var a := s.attempts[i];
    if VelocityAllowed(cfg, s.ledger) then
      Put(s, i, a.(phase := Holding, row := if a.quote.Offer? then OpenRow else NoRow))
        .(ledger := VelocityCharged(cfg, s.ledger, i))
    else
      Leaving(Put(s, i, a.(row := RefusedRow(a.quote))), i, Refused).(ledger := Unspent(s.ledger, i))
  }

  /** The ledger after the answer: settled sats for Lightning, nothing for a failure, else the reservation stays. */
  function BookLedger(l: Ledger, i: nat, q: Quote, answer: Answer): Ledger {
    match answer
    case Paid(sats, _) => if Lightning(q) then Reconciled(l, i, sats) else l
    case Rejected => RolledBack(l, i)
    case Unknown => l
  }

  function BookRow(q: Quote, answer: Answer): Row {
    if !q.Offer? then NoRow
    else if answer.Paid? then PaidRow
    else if answer.Rejected? then FailedRow
    else OpenRow
  }

  function SettledSlot(slot: Slot, a: Attempt, answer: Answer): Slot {
    match answer
    case Paid(_, r) => Replaced(slot, Done(a.body, r))
    case Rejected => Released(slot)
    case Unknown => Replaced(slot, Pending(a.body, RecordedHash(a)))
  }

  function Apply(cfg: Config, s: State, step: Step): State
    requires Enabled(s, step)
  {
    match step
    case Arrive(q, key, body, hash) =>
      s.(attempts := s.attempts + [Attempt(q, key, body, hash, Started, Unsent, NoRow, None)])
    case Peek(i) => Put(s, i, s.attempts[i].(phase := Peeking(s, s.attempts[i])))
    case Lookup(i, found) => Put(s, i, s.attempts[i].(phase := LookedUp(found, s.attempts[i].phase.epoch)))
    case Act(i) => Acting(s, i)
    case Claim(i) => Claiming(s, i)
    case Refuse(i) => Leaving(s, i, Refused)
    case Limit(i) => Limiting(cfg, s, i)
    case Velocity(i) => Pacing(cfg, s, i)
    case Send(i, order) => Put(s, i, s.attempts[i].(phase := Sending, fate := Live, order := Some(order)))
    case NoSend(i) => Put(s, i, s.attempts[i].(phase := Answered(Rejected)))
    case Node(i, settled) => Put(s, i, s.attempts[i].(fate := if settled then Settled else Dead))
    case Answer(i, answer) => Put(s, i, s.attempts[i].(phase := Answered(answer)))
    case Book(i) =>
      var a := s.attempts[i];
      Put(s, i, a.(phase := Booked(a.phase.answer), row := BookRow(a.quote, a.phase.answer)))
        .(ledger := BookLedger(s.ledger, i, a.quote, a.phase.answer))
    case Settle(i) =>
      var a := s.attempts[i];
      PutSlot(Put(s, i, a.(phase := Ended(Returned(a.phase.answer)))),
              a.key, SettledSlot(SlotOf(s.slots, a.key), a, a.phase.answer))
    case Fault(i) =>
      Leaving(s, i, CrashOf(s.attempts[i].phase))
  }

  /** A run from `s`: every step enabled where it is taken. */
  ghost predicate Runs(cfg: Config, s: State, steps: seq<Step>)
    decreases |steps|
  {
    steps == [] || (Enabled(s, steps[0]) && Runs(cfg, Apply(cfg, s, steps[0]), steps[1..]))
  }

  ghost function Exec(cfg: Config, s: State, steps: seq<Step>): State
    requires Runs(cfg, s, steps)
    decreases |steps|
  {
    if steps == [] then s else Exec(cfg, Apply(cfg, s, steps[0]), steps[1..])
  }

  // ----- safety -----

  ghost predicate Keyed(s: State, i: nat, k: Key) {
    i < |s.attempts| && s.attempts[i].key == Some(k)
  }

  /** At most one send per idempotency key has settled or may still settle. */
  ghost predicate OneLiveSend(s: State) {
    forall i: nat, j: nat, k ::
      (Keyed(s, i, k) && Keyed(s, j, k) && MaybePaid(s.attempts[i]) && MaybePaid(s.attempts[j])) ==> i == j
  }

  /**
    The two ways a slot can be freed under a send that may settle: an exception (or a
    cancelled handler) between the LND call and the slot update, and a reconciliation
    that drops a pending slot it did not look up.
   */
  ghost predicate Harmful(s: State, step: Step) {
    match step
    case Fault(i) =>
      i < |s.attempts| && MaybePaid(s.attempts[i]) && SlotOf(s.slots, s.attempts[i].key).InFlight?
    case Act(i) =>
      && i < |s.attempts| && s.attempts[i].phase.LookedUp? && s.attempts[i].phase.found.Failed?
      && SlotOf(s.slots, s.attempts[i].key).Pending?
      && exists j: nat :: Keyed(s, j, s.attempts[i].key.value) && MaybePaid(s.attempts[j])
    case _ => false
  }

  /** What a request's phase says about its send. */
  ghost predicate Consistent(cfg: Config, a: Attempt) {
    && ((a.phase.Started? || a.phase.Peeked? || a.phase.LookedUp? || a.phase.Ready? || a.phase.Running?
         || a.phase.Reserving? || a.phase.Holding? || a.phase == Ended(Refused)) ==> a.fate.Unsent?)
    && (a.phase.Sending? ==> !a.fate.Unsent?)
    && ((a.phase.Answered? || a.phase.Booked?) ==>
          && (a.phase.answer.Paid? ==> a.fate.Settled?)
          && (a.phase.answer.Rejected? ==> !MaybePaid(a))
          && (a.phase.answer.Unknown? ==> !a.fate.Unsent?))
    && (a.phase.Peeked? ==> a.phase.hash != "" && a.key.Some? && Lightning(a.quote))
    && (a.phase.LookedUp? ==> a.key.Some? && Lightning(a.quote))
    && (a.phase.Booked? ==> a.row == BookRow(a.quote, a.phase.answer))
    && (a.phase.Ended? && a.phase.outcome.Returned? ==> a.row == BookRow(a.quote, a.phase.outcome.answer))
    && (Active(a) && !a.phase.Running? ==> BudgetOf(cfg, a.quote).Some?)
    && (MaybePaid(a) ==> BudgetOf(cfg, a.quote).Some?)
  }

  /** What a slot says about the requests of its key. */
  ghost predicate Guards(slot: Slot, a: Attempt) {
    && (Active(a) ==> slot.InFlight? || slot.Done?)
    && (MaybePaid(a) ==>
          && !slot.Absent?
          && (slot.InFlight? ==> Active(a))
          && (slot.Pending? ==> slot.hash == RecordedHash(a)))
  }

  /** What two requests of one key say about each other. */
  ghost predicate Compatible(a: Attempt, b: Attempt, same: bool, claims: nat) {
    && (Active(a) && Active(b) ==> same)
    && (MaybePaid(a) && MaybePaid(b) ==> same)
    && (Active(a) && MaybePaid(b) ==> same)
    && (a.phase.Peeked? ==> a.phase.epoch <= claims)
    && (a.phase.LookedUp? ==> a.phase.epoch <= claims)
    && (a.phase.Peeked? && a.phase.epoch == claims ==>
          !Active(b) && (MaybePaid(b) ==> RecordedHash(b) == a.phase.hash))
    && (a.phase.LookedUp? && a.phase.found.Failed? && a.phase.epoch == claims ==> !Active(b) && !MaybePaid(b))
  }

  ghost predicate Inv(cfg: Config, s: State) {
    && (forall i: nat :: i < |s.attempts| ==> Consistent(cfg, s.attempts[i]))
    && (forall i: nat, k :: Keyed(s, i, k) ==> Guards(At(s.slots, k), s.attempts[i]))
    && (forall i: nat, j: nat, k :: Keyed(s, i, k) && Keyed(s, j, k) ==>
          Compatible(s.attempts[i], s.attempts[j], i == j, ClaimsOf(s.claims, Some(k))))
  }

  // ----- every harmless step keeps the invariant -----

  /** A step that replaces one request, and the slot and claim count of its key, keeps the rest. */
  lemma Local(cfg: Config, s: State, t: State, i: nat, a: Attempt)
    requires Inv(cfg, s) && i < |s.attempts|
    requires t.attempts == s.attempts[i := a] && a.key == s.attempts[i].key
    requires Consistent(cfg, a)
    requires forall k :: Some(k) != a.key ==> At(t.slots, k) == At(s.slots, k)
    requires forall k :: Some(k) != a.key ==> ClaimsOf(t.claims, Some(k)) == ClaimsOf(s.claims, Some(k))
    requires ClaimsOf(t.claims, a.key) >= ClaimsOf(s.claims, a.key)
    requires a.key.Some? ==> Guards(SlotOf(t.slots, a.key), a) && Compatible(a, a, true, ClaimsOf(t.claims, a.key))
    requires a.key.Some? ==> forall j: nat :: Keyed(s, j, a.key.value) && j != i ==>
               && Guards(SlotOf(t.slots, a.key), s.attempts[j])
               && Compatible(a, s.attempts[j], false, ClaimsOf(t.claims, a.key))
               && Compatible(s.attempts[j], a, false, ClaimsOf(t.claims, a.key))
    ensures Inv(cfg, t)
  {
    hide Guards, Consistent, At, ClaimsOf;
    forall j: nat, k | Keyed(t, j, k) ensures Guards(At(t.slots, k), t.attempts[j]) {
      assert Keyed(s, j, k);
    }
    forall j: nat, l: nat, k | Keyed(t, j, k) && Keyed(t, l, k)
      ensures Compatible(t.attempts[j], t.attempts[l], j == l, ClaimsOf(t.claims, Some(k)))
    {
      assert Keyed(s, j, k) && Keyed(s, l, k);
    }
  }

  lemma KeepsArrive(cfg: Config, s: State, step: Step)
    requires Inv(cfg, s) && step.Arrive?
    ensures Inv(cfg, Apply(cfg, s, step))
  {
    hide At, ClaimsOf;
    var t := Apply(cfg, s, step);
    var n := |s.attempts|;
    forall j: nat, k | Keyed(t, j, k) ensures Guards(At(t.slots, k), t.attempts[j]) {
      assert j != n ==> Keyed(s, j, k);
    }
    forall j: nat, l: nat, k | Keyed(t, j, k) && Keyed(t, l, k)
      ensures Compatible(t.attempts[j], t.attempts[l], j == l, ClaimsOf(t.claims, Some(k)))
    {
      assert (j != n ==> Keyed(s, j, k)) && (l != n ==> Keyed(s, l, k));
      if j != n {
        assert Compatible(s.attempts[j], s.attempts[j], true, ClaimsOf(s.claims, Some(k)));
      }
    }
  }

  /** The invariant, read at one request. */
  lemma AtRequest(cfg: Config, s: State, i: nat)
    requires Inv(cfg, s) && i < |s.attempts| && s.attempts[i].key.Some?
    ensures Keyed(s, i, s.attempts[i].key.value)
    ensures Guards(SlotOf(s.slots, s.attempts[i].key), s.attempts[i])
    ensures Compatible(s.attempts[i], s.attempts[i], true, ClaimsOf(s.claims, s.attempts[i].key))
    ensures forall j: nat :: Keyed(s, j, s.attempts[i].key.value) && j != i ==>
              && Guards(SlotOf(s.slots, s.attempts[i].key), s.attempts[j])
              && Compatible(s.attempts[i], s.attempts[j], false, ClaimsOf(s.claims, s.attempts[i].key))
              && Compatible(s.attempts[j], s.attempts[i], false, ClaimsOf(s.claims, s.attempts[i].key))
  {
    hide Guards, Compatible, ClaimsOf, Consistent;
  }

  lemma SlotFrame(slots: map<Key, Slot>, key: Option<Key>, slot: Slot)
    requires key.Some?
    ensures At(slots[key.value := slot], key.value) == slot
    ensures forall k :: Some(k) != key ==> At(slots[key.value := slot], k) == At(slots, k)
  {
  }

  lemma ClaimsFrame(claims: map<Key, nat>, key: Option<Key>, n: nat)
    requires key.Some?
    ensures ClaimsOf(claims[key.value := n], key) == n
    ensures forall k :: Some(k) != key ==> ClaimsOf(claims[key.value := n], Some(k)) == ClaimsOf(claims, Some(k))
  {
  }

  /** Looking at the slot and looking the hash up change neither slot nor ledger. */
  lemma KeepsLooking(cfg: Config, s: State, step: Step)
    requires Inv(cfg, s) && Enabled(s, step) && (step.Peek? || step.Lookup?)
    ensures Inv(cfg, Apply(cfg, s, step))
  {
    hide At, ClaimsOf, BudgetOf;
    var i := step.i;
    var t := Apply(cfg, s, step);
    if s.attempts[i].key.Some? {
      AtRequest(cfg, s, i);
    }
    Local(cfg, s, t, i, t.attempts[i]);
  }

  /** Steps of the node and of a request that owns its slot, up to the slot update. */
  lemma KeepsOwning(cfg: Config, s: State, step: Step)
    requires Inv(cfg, s) && Enabled(s, step)
    requires step.Send? || step.NoSend? || step.Node? || step.Answer? || step.Book?
    ensures Inv(cfg, Apply(cfg, s, step))
  {
    hide At, ClaimsOf, BudgetOf, BookLedger;
    var i := step.i;
    var t := Apply(cfg, s, step);
    if s.attempts[i].key.Some? {
      AtRequest(cfg, s, i);
    }
    Local(cfg, s, t, i, t.attempts[i]);
  }

  lemma KeepsClaim(cfg: Config, s: State, step: Step)
    requires Inv(cfg, s) && Enabled(s, step) && step.Claim?
    ensures Inv(cfg, Apply(cfg, s, step))
  {
    hide At, ClaimsOf, BudgetOf;
    var i := step.i;
    var t := Apply(cfg, s, step);
    var a := s.attempts[i];
    if a.key.Some? {
      AtRequest(cfg, s, i);
      SlotFrame(s.slots, a.key, Reserved(SlotOf(s.slots, a.key), a.body));
      ClaimsFrame(s.claims, a.key, ClaimsOf(s.claims, a.key) + 1);
    }
    Local(cfg, s, t, i, t.attempts[i]);
  }

  lemma KeepsAct(cfg: Config, s: State, step: Step)
    requires Inv(cfg, s) && Enabled(s, step) && step.Act? && !Harmful(s, step)
    ensures Inv(cfg, Apply(cfg, s, step))
  {
    hide At, ClaimsOf, BudgetOf;
    var i := step.i;
    var t := Apply(cfg, s, step);
    var a := s.attempts[i];
    AtRequest(cfg, s, i);
    SlotFrame(s.slots, a.key, SlotOf(t.slots, a.key));
    if a.phase.found.Succeeded? {
      SlotFrame(s.slots, a.key, Replaced(SlotOf(s.slots, a.key), Done(a.body, a.phase.found.response)));
    } else if a.phase.found.Failed? {
      SlotFrame(s.slots, a.key, Dropped(SlotOf(s.slots, a.key)));
    }
    Local(cfg, s, t, i, t.attempts[i]);
  }

  /** Giving the slot up is safe for a request whose send, if any, is dead. */
  lemma KeepsLeaving(cfg: Config, s: State, i: nat, outcome: Outcome)
    requires Inv(cfg, s) && i < |s.attempts| && Active(s.attempts[i])
    requires !MaybePaid(s.attempts[i]) || !SlotOf(s.slots, s.attempts[i].key).InFlight?
    requires outcome.Refused? ==> s.attempts[i].fate.Unsent?
    requires !outcome.Returned?
    ensures Inv(cfg, Leaving(s, i, outcome))
  {
    hide At, ClaimsOf, BudgetOf;
    var t := Leaving(s, i, outcome);
    var a := s.attempts[i];
    if a.key.Some? {
      AtRequest(cfg, s, i);
      SlotFrame(s.slots, a.key, Released(SlotOf(s.slots, a.key)));
    }
    Local(cfg, s, t, i, t.attempts[i]);
  }

  lemma KeepsSettle(cfg: Config, s: State, step: Step)
    requires Inv(cfg, s) && Enabled(s, step) && step.Settle?
    ensures Inv(cfg, Apply(cfg, s, step))
  {
    hide At, ClaimsOf, BudgetOf;
    var i := step.i;
    var t := Apply(cfg, s, step);
    var a := s.attempts[i];
    if a.key.Some? {
      AtRequest(cfg, s, i);
      SlotFrame(s.slots, a.key, SettledSlot(SlotOf(s.slots, a.key), a, a.phase.answer));
    }
    Local(cfg, s, t, i, t.attempts[i]);
  }

  /** A refusal by the limits: the row, then the slot. */
  lemma KeepsRefusing(cfg: Config, s: State, i: nat, t: State)
    requires Inv(cfg, s) && i < |s.attempts| && (s.attempts[i].phase.Running? || s.attempts[i].phase.Reserving?)
    requires t.attempts == s.attempts[i := s.attempts[i].(row := RefusedRow(s.attempts[i].quote))]
    requires t.slots == s.slots && t.claims == s.claims
    ensures Inv(cfg, Leaving(t, i, Refused))
  {
    hide At, ClaimsOf, BudgetOf;
    if s.attempts[i].key.Some? {
      AtRequest(cfg, s, i);
    }
    Local(cfg, s, t, i, t.attempts[i]);
    KeepsLeaving(cfg, t, i, Refused);
  }

  lemma KeepsLimit(cfg: Config, s: State, step: Step)
    requires Inv(cfg, s) && Enabled(s, step) && step.Limit?
    ensures Inv(cfg, Apply(cfg, s, step))
  {
    hide At, ClaimsOf, SpendAllowed, SpendCharged;
    var i := step.i;
    var a := s.attempts[i];
    var b := BudgetOf(cfg, a.quote);
    if a.key.Some? {
      AtRequest(cfg, s, i);
    }
    if b.None? {
      KeepsLeaving(cfg, s, i, Refused);
    } else if SpendAllowed(cfg, s.ledger, |s.attempts|, b.value) {
      var t := Apply(cfg, s, step);
      Local(cfg, s, t, i, t.attempts[i]);
    } else {
      KeepsRefusing(cfg, s, i, Put(s, i, a.(row := RefusedRow(a.quote))));
    }
  }

  lemma KeepsVelocity(cfg: Config, s: State, step: Step)
    requires Inv(cfg, s) && Enabled(s, step) && step.Velocity?
    ensures Inv(cfg, Apply(cfg, s, step))
  {
    hide At, ClaimsOf, VelocityAllowed, VelocityCharged, BudgetOf;
    var i := step.i;
    var a := s.attempts[i];
    if a.key.Some? {
      AtRequest(cfg, s, i);
    }
    if VelocityAllowed(cfg, s.ledger) {
      var t := Apply(cfg, s, step);
      Local(cfg, s, t, i, t.attempts[i]);
    } else {
      KeepsRefusing(cfg, s, i, Put(s, i, a.(row := RefusedRow(a.quote))));
      SlotsOnly(cfg, Leaving(Put(s, i, a.(row := RefusedRow(a.quote))), i, Refused), Unspent(s.ledger, i));
    }
  }

  /** The invariant does not look at the ledger. */
  lemma SlotsOnly(cfg: Config, s: State, ledger: Ledger)
    requires Inv(cfg, s)
    ensures Inv(cfg, s.(ledger := ledger))
  {
    hide At, ClaimsOf, Consistent, Guards, Compatible;
    var t := s.(ledger := ledger);
    forall j: nat, k | Keyed(t, j, k) ensures Guards(At(t.slots, k), t.attempts[j]) {
      assert Keyed(s, j, k);
    }
    forall j: nat, l: nat, k | Keyed(t, j, k) && Keyed(t, l, k)
      ensures Compatible(t.attempts[j], t.attempts[l], j == l, ClaimsOf(t.claims, Some(k)))
    {
      assert Keyed(s, j, k) && Keyed(s, l, k);
    }
  }

  /** Every step but the two harmful ones keeps the invariant. */
  lemma StepKeeps(cfg: Config, s: State, step: Step)
    requires Inv(cfg, s) && Enabled(s, step) && !Harmful(s, step)
    ensures Inv(cfg, Apply(cfg, s, step))
  {
    match step
    case Arrive(_, _, _, _) => KeepsArrive(cfg, s, step);
    case Peek(_) => KeepsLooking(cfg, s, step);
    case Lookup(_, _) => KeepsLooking(cfg, s, step);
    case Act(_) => KeepsAct(cfg, s, step);
    case Claim(_) => KeepsClaim(cfg, s, step);
    case Refuse(i) => KeepsLeaving(cfg, s, i, Refused);
    case Limit(_) => KeepsLimit(cfg, s, step);
    case Velocity(_) => KeepsVelocity(cfg, s, step);
    case Send(_, _) => KeepsOwning(cfg, s, step);
    case NoSend(_) => KeepsOwning(cfg, s, step);
    case Node(_, _) => KeepsOwning(cfg, s, step);
    case Answer(_, _) => KeepsOwning(cfg, s, step);
    case Book(_) => KeepsOwning(cfg, s, step);
    case Settle(_) => KeepsSettle(cfg, s, step);
    case Fault(i) =>
      KeepsLeaving(cfg, s, i, CrashOf(s.attempts[i].phase));
  }

  // ----- main results: idempotency -----

  /** A run in which no step frees a slot under a send that may settle. */
  ghost predicate Careful(cfg: Config, s: State, steps: seq<Step>)
    decreases |steps|
  {
    steps == [] ||
    (Enabled(s, steps[0]) && !Harmful(s, steps[0]) && Careful(cfg, Apply(cfg, s, steps[0]), steps[1..]))
  }

  lemma {:induction false} CarefulKeeps(cfg: Config, s: State, steps: seq<Step>)
    requires Inv(cfg, s) && Careful(cfg, s, steps)
    ensures Runs(cfg, s, steps) && Inv(cfg, Exec(cfg, s, steps))
    decreases |steps|
  {
    hide Apply, Enabled, Inv, Harmful;
    if steps != [] {
      StepKeeps(cfg, s, steps[0]);
      CarefulKeeps(cfg, Apply(cfg, s, steps[0]), steps[1..]);
    }
  }

  /** At most one send per key in every careful run, and the slot of such a key is not free. */
  lemma CarefulIsSafe(cfg: Config, steps: seq<Step>)
    requires Careful(cfg, INIT, steps)
    ensures Runs(cfg, INIT, steps)
    ensures OneLiveSend(Exec(cfg, INIT, steps)) && LiveIsHeld(Exec(cfg, INIT, steps))
  {
    hide Runs, Exec, Careful;
    CarefulKeeps(cfg, INIT, steps);
    OneLive(cfg, Exec(cfg, INIT, steps));
  }

  ghost predicate LiveIsHeld(s: State) {
    forall i: nat, k :: Keyed(s, i, k) && MaybePaid(s.attempts[i]) ==> !At(s.slots, k).Absent?
  }

  /** The phases in which an exception is safe: before the send, and after LND has said that it failed. */
  predicate SafeToFail(phase: Phase) {
    phase.Reserving? || phase.Holding? || ((phase.Answered? || phase.Booked?) && phase.answer.Rejected?)
  }

  /**
    What a handler can see of a step: an exception strikes only where it is safe, and a pending
    slot is released only if nobody has claimed it since its hash was looked up.
   */
  predicate Prudent(s: State, step: Step) {
    match step
    case Fault(i) => i < |s.attempts| && SafeToFail(s.attempts[i].phase)
    case Act(i) =>
      && i < |s.attempts| && s.attempts[i].phase.LookedUp?
      && (s.attempts[i].phase.found.Failed? ==> s.attempts[i].phase.epoch == ClaimsOf(s.claims, s.attempts[i].key))
    case _ => true
  }

  ghost predicate PrudentRun(cfg: Config, s: State, steps: seq<Step>)
    decreases |steps|
  {
    steps == [] ||
    (Enabled(s, steps[0]) && Prudent(s, steps[0]) && PrudentRun(cfg, Apply(cfg, s, steps[0]), steps[1..]))
  }

  lemma PrudentIsHarmless(cfg: Config, s: State, step: Step)
    requires Inv(cfg, s) && Enabled(s, step) && Prudent(s, step)
    ensures !Harmful(s, step)
  {
    hide At, ClaimsOf, BudgetOf;
    if step.Fault? {
      assert Consistent(cfg, s.attempts[step.i]);
    } else if step.Act? && s.attempts[step.i].phase.found.Failed? {
      FreshActIsHarmless(cfg, s, step.i);
    }
  }

  lemma {:induction false} PrudentIsCareful(cfg: Config, s: State, steps: seq<Step>)
    requires Inv(cfg, s) && PrudentRun(cfg, s, steps)
    ensures Careful(cfg, s, steps)
    decreases |steps|
  {
    hide Apply, Enabled, Inv, Harmful, Prudent;
    if steps != [] {
      PrudentIsHarmless(cfg, s, steps[0]);
      StepKeeps(cfg, s, steps[0]);
      PrudentIsCareful(cfg, Apply(cfg, s, steps[0]), steps[1..]);
    }
  }

  /**
    In every prudent run, of any length and any interleaving: at most one send per idempotency
    key has settled or may still settle, and the slot of such a key is not free.
   */
  lemma AtMostOneLiveSend(cfg: Config, steps: seq<Step>)
    requires PrudentRun(cfg, INIT, steps)
    ensures Runs(cfg, INIT, steps)
    ensures OneLiveSend(Exec(cfg, INIT, steps)) && LiveIsHeld(Exec(cfg, INIT, steps))
  {
    hide Runs, Exec, Careful, PrudentRun;
    PrudentIsCareful(cfg, INIT, steps);
    CarefulIsSafe(cfg, steps);
  }

  lemma OneLive(cfg: Config, s: State)
    requires Inv(cfg, s)
    ensures OneLiveSend(s) && LiveIsHeld(s)
  {
    hide Consistent, ClaimsOf;
    forall i: nat, j: nat, k | Keyed(s, i, k) && Keyed(s, j, k) && MaybePaid(s.attempts[i]) && MaybePaid(s.attempts[j])
      ensures i == j
    {
      assert Compatible(s.attempts[i], s.attempts[j], i == j, ClaimsOf(s.claims, Some(k)));
    }
  }

  /** A new send under a key starts only when every earlier one is definitely dead. */
  lemma SendOnlyAfterFailure(cfg: Config, s: State, i: nat, order: Order, j: nat, k: Key)
    requires Inv(cfg, s) && Enabled(s, Send(i, order)) && Keyed(s, i, k) && Keyed(s, j, k)
    ensures !MaybePaid(s.attempts[j])
  {
    AtRequest(cfg, s, i);
    assert Consistent(cfg, s.attempts[i]);
  }

  /** From `s` to `t` only the request at `i` changes, and not what it asks for. */
  ghost predicate OnlyAt(s: State, t: State, i: nat) {
    && i < |s.attempts| == |t.attempts|
    && t.attempts == s.attempts[i := t.attempts[i]]
    && t.attempts[i].quote == s.attempts[i].quote
    && t.attempts[i].key == s.attempts[i].key
    && t.attempts[i].body == s.attempts[i].body
    && t.attempts[i].hash == s.attempts[i].hash
  }

  lemma OneBefore(cfg: Config, s: State, step: Step)
    requires Enabled(s, step)
    requires step.Peek? || step.Lookup? || step.Act? || step.Claim? || step.Refuse?
    ensures OnlyAt(s, Apply(cfg, s, step), step.i)
  {
    hide At, ClaimsOf, Truthful, SlotOf, Released, Replaced, Dropped, Reserved;
  }

  lemma OneLimits(cfg: Config, s: State, step: Step)
    requires Enabled(s, step) && (step.Limit? || step.Velocity?)
    ensures OnlyAt(s, Apply(cfg, s, step), step.i)
  {
    hide BudgetOf, SpendAllowed, VelocityAllowed, SpendCharged, VelocityCharged, Unspent, At, SlotOf, Released;
  }

  lemma OneAfter(cfg: Config, s: State, step: Step)
    requires Enabled(s, step)
    requires step.Send? || step.NoSend? || step.Node? || step.Answer? || step.Book? || step.Settle? || step.Fault?
    ensures OnlyAt(s, Apply(cfg, s, step), step.i)
  {
    hide BookLedger, At, SlotOf, Released, Replaced, BookRow, OrderOf;
  }

  /** A step changes one request only, and never what it asks for. */
  lemma OneRequest(cfg: Config, s: State, step: Step)
    requires Enabled(s, step) && !step.Arrive?
    ensures OnlyAt(s, Apply(cfg, s, step), step.i)
  {
    hide Enabled, Apply, OnlyAt;
    if step.Limit? || step.Velocity? {
      OneLimits(cfg, s, step);
    } else if step.Peek? || step.Lookup? || step.Act? || step.Claim? || step.Refuse? {
      OneBefore(cfg, s, step);
    } else {
      OneAfter(cfg, s, step);
    }
  }

  /** While a slot is pending, with a hash or without, no step of an on-chain handler changes it. */
  lemma OnchainLeavesPending(cfg: Config, s: State, step: Step, k: Key)
    requires Inv(cfg, s) && Enabled(s, step) && At(s.slots, k).Pending?
    requires step.Arrive? || !Lightning(s.attempts[step.i].quote)
    ensures At(Apply(cfg, s, step).slots, k) == At(s.slots, k)
  {
    hide ClaimsOf, BudgetOf, SpendAllowed, VelocityAllowed, SpendCharged, VelocityCharged, BookLedger;
    if !step.Arrive? && s.attempts[step.i].key.Some? {
      AtRequest(cfg, s, step.i);
      assert Consistent(cfg, s.attempts[step.i]);
    }
  }

  /** The slot of `k` is pending without a hash, as after a broadcast in doubt, and no request under `k` is past its claim. */
  ghost predicate Blocked(s: State, k: Key) {
    && At(s.slots, k).Pending? && At(s.slots, k).hash == ""
    && forall i: nat :: Keyed(s, i, k) ==> Idle(s.attempts[i].phase)
  }

  predicate Idle(phase: Phase) {
    phase.Started? || phase.Ready? || phase.Ended?
  }

  /** A pending slot without a hash blocks its key unless a request under it is in the middle of a reconciliation. */
  lemma PendingBlocks(cfg: Config, s: State, k: Key)
    requires Inv(cfg, s) && At(s.slots, k).Pending? && At(s.slots, k).hash == ""
    ensures Blocked(s, k) <==> forall i: nat :: Keyed(s, i, k) ==> !s.attempts[i].phase.Peeked? && !s.attempts[i].phase.LookedUp?
  {
    hide At, Consistent, Compatible, ClaimsOf;
  }

  lemma OtherBefore(cfg: Config, s: State, step: Step, k: Key)
    requires Enabled(s, step) && (step.Act? || step.Claim? || step.Refuse? || step.Limit? || step.Velocity?)
    requires s.attempts[step.i].key != Some(k)
    ensures At(Apply(cfg, s, step).slots, k) == At(s.slots, k)
  {
    hide Truthful, ClaimsOf, BudgetOf, SpendAllowed, VelocityAllowed, SpendCharged, VelocityCharged, Unspent, Replaced, Released, Dropped, Reserved;
  }

  lemma OtherAfter(cfg: Config, s: State, step: Step, k: Key)
    requires Enabled(s, step) && (step.Settle? || step.Fault?) && s.attempts[step.i].key != Some(k)
    ensures At(Apply(cfg, s, step).slots, k) == At(s.slots, k)
  {
    hide Replaced, Released;
  }

  lemma SlotsStay(cfg: Config, s: State, step: Step)
    requires Enabled(s, step)
    requires step.Peek? || step.Lookup? || step.Send? || step.NoSend? || step.Node? || step.Answer? || step.Book?
    ensures Apply(cfg, s, step).slots == s.slots
  {
    hide Truthful, ClaimsOf, At, BookLedger, BookRow, OrderOf;
  }

  /** A step of a request touches no slot but that of its key. */
  lemma OtherSlots(cfg: Config, s: State, step: Step, k: Key)
    requires Enabled(s, step) && (step.Arrive? || s.attempts[step.i].key != Some(k))
    ensures At(Apply(cfg, s, step).slots, k) == At(s.slots, k)
  {
    hide Truthful, Limiting, Pacing, Acting, Claiming, Leaving, At, SettledSlot, BookLedger, BookRow, OrderOf, ClaimsOf;
    if step.Act? || step.Claim? || step.Refuse? || step.Limit? || step.Velocity? {
      OtherBefore(cfg, s, step, k);
    } else if step.Settle? || step.Fault? {
      OtherAfter(cfg, s, step, k);
    } else if !step.Arrive? {
      SlotsStay(cfg, s, step);
    }
  }

  /** A step of a request under a blocked key: it peeks, is refused by its claim, or has ended already. */
  lemma BlockedRequest(cfg: Config, s: State, step: Step, k: Key)
    requires Enabled(s, step) && !step.Arrive? && Keyed(s, step.i, k)
    requires At(s.slots, k).Pending? && At(s.slots, k).hash == "" && Idle(s.attempts[step.i].phase)
    ensures step.Peek? || step.Claim? || step.Node?
    ensures At(Apply(cfg, s, step).slots, k) == At(s.slots, k) && Idle(Apply(cfg, s, step).attempts[step.i].phase)
  {
    hide Truthful, Limiting, Pacing, Acting, Leaving, ClaimsOf, BookLedger, BookRow, OrderOf, SettledSlot;
  }

  /** No step of any handler, harmful or not, unblocks a key or changes its slot. */
  lemma PendingBroadcastStays(cfg: Config, s: State, step: Step, k: Key)
    requires Enabled(s, step) && Blocked(s, k)
    ensures Blocked(Apply(cfg, s, step), k) && At(Apply(cfg, s, step).slots, k) == At(s.slots, k)
  {
    hide Truthful, At, Idle, Peeking, Limiting, Pacing, Acting, Claiming, Leaving, SettledSlot, BookLedger, BookRow, OrderOf;
    var t := Apply(cfg, s, step);
    if step.Arrive? {
      OtherSlots(cfg, s, step, k);
      Idles();
    } else {
      OneRequest(cfg, s, step);
      if s.attempts[step.i].key == Some(k) {
        assert Keyed(s, step.i, k);
        BlockedRequest(cfg, s, step, k);
      } else {
        OtherSlots(cfg, s, step, k);
      }
    }
    forall i: nat | Keyed(t, i, k) ensures Idle(t.attempts[i].phase) {
      assert i < |s.attempts| ==> Keyed(s, i, k);
    }
  }

  lemma Idles()
    ensures Idle(Started)
  {
  }

  /**
    So a key whose broadcast may have happened stays blocked, with its slot as it is, through
    every run of all handlers: Lightning retries under the key and harmful steps included.
   */
  lemma {:induction false} PendingForever(cfg: Config, s: State, steps: seq<Step>, k: Key)
    requires Blocked(s, k) && Runs(cfg, s, steps)
    ensures Blocked(Exec(cfg, s, steps), k) && At(Exec(cfg, s, steps).slots, k) == At(s.slots, k)
    decreases |steps|
  {
    hide Blocked, At, Apply, Enabled;
    if steps != [] {
      PendingBroadcastStays(cfg, s, steps[0], k);
      PendingForever(cfg, Apply(cfg, s, steps[0]), steps[1..], k);
    }
  }

  /** The hash looked up was that of the slot, and nobody has claimed the slot since: dropping it is harmless. */
  lemma FreshActIsHarmless(cfg: Config, s: State, i: nat)
    requires Inv(cfg, s) && Enabled(s, Act(i))
    requires s.attempts[i].phase.epoch == ClaimsOf(s.claims, s.attempts[i].key)
    ensures !Harmful(s, Act(i))
  {
    hide At, ClaimsOf;
    assert Consistent(cfg, s.attempts[i]);
    AtRequest(cfg, s, i);
  }

  /** So reconciliation that runs as one piece is always harmless, however many requests run beside it. */
  lemma AtomicReconciliation(cfg: Config, s: State, i: nat, found: Found)
    requires Inv(cfg, s) && Enabled(s, Peek(i)) && Apply(cfg, s, Peek(i)).attempts[i].phase.Peeked?
    requires Enabled(Apply(cfg, s, Peek(i)), Lookup(i, found))
    ensures Careful(cfg, s, [Peek(i), Lookup(i, found), Act(i)])
  {
    hide At, ClaimsOf, BudgetOf;
    var s1 := Apply(cfg, s, Peek(i));
    var s2 := Apply(cfg, s1, Lookup(i, found));
    KeepsLooking(cfg, s, Peek(i));
    KeepsLooking(cfg, s1, Lookup(i, found));
    FreshActIsHarmless(cfg, s2, i);
    var steps := [Peek(i), Lookup(i, found), Act(i)];
    assert steps[1..] == [Lookup(i, found), Act(i)] && steps[1..][1..] == [Act(i)] && steps[1..][1..][1..] == [];
    assert Careful(cfg, Apply(cfg, s2, Act(i)), []);
    assert Careful(cfg, s2, [Act(i)]);
    assert Careful(cfg, s1, [Lookup(i, found), Act(i)]);
  }

  // ----- reachability by careful steps -----

  /** `t` can be reached from `s` without a harmful step. */
  ghost predicate Reaches(cfg: Config, s: State, t: State) {
    exists steps :: Careful(cfg, s, steps) && Runs(cfg, s, steps) && Exec(cfg, s, steps) == t
  }

  lemma {:induction false} RunsOn(cfg: Config, s: State, steps: seq<Step>, step: Step)
    requires Careful(cfg, s, steps) && Runs(cfg, s, steps)
    requires Enabled(Exec(cfg, s, steps), step) && !Harmful(Exec(cfg, s, steps), step)
    ensures Careful(cfg, s, steps + [step]) && Runs(cfg, s, steps + [step])
    ensures Exec(cfg, s, steps + [step]) == Apply(cfg, Exec(cfg, s, steps), step)
    decreases |steps|
  {
    hide Apply, Enabled, Harmful;
    var more := steps + [step];
    if steps == [] {
      assert more == [step] && more[1..] == [];
      assert Runs(cfg, Apply(cfg, s, step), []) && Careful(cfg, Apply(cfg, s, step), []);
    } else {
      assert more[1..] == steps[1..] + [step];
      RunsOn(cfg, Apply(cfg, s, steps[0]), steps[1..], step);
    }
  }

  lemma Stays(cfg: Config, s: State)
    ensures Reaches(cfg, s, s)
  {
    assert Careful(cfg, s, []) && Runs(cfg, s, []) && Exec(cfg, s, []) == s;
  }

  lemma Goes(cfg: Config, s: State, t: State, step: Step)
    requires Reaches(cfg, s, t) && Enabled(t, step) && !Harmful(t, step)
    ensures Reaches(cfg, s, Apply(cfg, t, step))
  {
    hide Apply, Enabled, Runs, Exec, Careful, Harmful;
    var steps :| Careful(cfg, s, steps) && Runs(cfg, s, steps) && Exec(cfg, s, steps) == t;
    RunsOn(cfg, s, steps, step);
  }

  // ----- stretches of one request -----

  /** A running request whose budget is admitted reserves it. */
  lemma Reserves(cfg: Config, s: State, t: State, i: nat) returns (u: State)
    requires Reaches(cfg, s, t) && i < |t.attempts| && t.attempts[i].phase.Running?
    requires BudgetOf(cfg, t.attempts[i].quote).Some?
    requires Admitted(cfg, t.ledger, |t.attempts|, Reserve(cfg, t.attempts[i].quote))
    ensures Reaches(cfg, s, u)
    ensures u.slots == t.slots && u.claims == t.claims
    ensures u.ledger == Charged(cfg, t.ledger, i, Reserve(cfg, t.attempts[i].quote))
    ensures u.attempts == t.attempts[i := t.attempts[i].(phase := Holding,
                                                         row := if t.attempts[i].quote.Offer? then OpenRow else NoRow)]
  {
    hide Reaches, BudgetOf, At, Total;
    Goes(cfg, s, t, Limit(i));
    u := Apply(cfg, t, Limit(i));
    assert u.attempts[i].phase.Reserving?;
    Goes(cfg, s, u, Velocity(i));
    u := Apply(cfg, u, Velocity(i));
  }

  /** And sends this order. */
  lemma Sends(cfg: Config, s: State, t: State, i: nat, order: Order) returns (u: State)
    requires Reaches(cfg, s, t) && i < |t.attempts| && t.attempts[i].phase.Running?
    requires BudgetOf(cfg, t.attempts[i].quote).Some? && order == OrderOf(t.attempts[i].quote)
    requires Admitted(cfg, t.ledger, |t.attempts|, Reserve(cfg, t.attempts[i].quote))
    ensures Reaches(cfg, s, u)
    ensures u.slots == t.slots && u.claims == t.claims
    ensures u.ledger == Charged(cfg, t.ledger, i, Reserve(cfg, t.attempts[i].quote))
    ensures u.attempts == t.attempts[i := t.attempts[i].(phase := Sending, fate := Live, order := Some(order),
                                                         row := if t.attempts[i].quote.Offer? then OpenRow else NoRow)]
  {
    hide Reaches, BudgetOf, OrderOf, At;
    u := Reserves(cfg, s, t, i);
    Goes(cfg, s, u, Send(i, order));
    u := Apply(cfg, u, Send(i, order));
  }

  /** What the node does before it gives this answer. */
  function FateOf(answer: Answer): Fate {
    match answer
    case Paid(_, _) => Settled
    case Rejected => Dead
    case Unknown => Live
  }

  /** A request that has its answer books it and updates its slot. */
  lemma Concludes(cfg: Config, s: State, t: State, i: nat) returns (u: State)
    requires Reaches(cfg, s, t) && i < |t.attempts| && t.attempts[i].phase.Answered?
    ensures var a := t.attempts[i];
            && Reaches(cfg, s, u) && u.claims == t.claims
            && u.slots == PutSlot(t, a.key, SettledSlot(SlotOf(t.slots, a.key), a, a.phase.answer)).slots
            && u.ledger == BookLedger(t.ledger, i, a.quote, a.phase.answer)
            && u.attempts == t.attempts[i := a.(phase := Ended(Returned(a.phase.answer)), row := BookRow(a.quote, a.phase.answer))]
  {
    hide Reaches, BookLedger, BookRow, At, Replaced, Released;
    Goes(cfg, s, t, Book(i));
    u := Apply(cfg, t, Book(i));
    Goes(cfg, s, u, Settle(i));
    u := Apply(cfg, u, Settle(i));
  }

  /** A request that has sent gets this answer, truthfully, and concludes. */
  lemma Finishes(cfg: Config, s: State, t: State, i: nat, answer: Answer) returns (u: State)
    requires Reaches(cfg, s, t) && i < |t.attempts| && t.attempts[i].phase.Sending? && t.attempts[i].fate.Live?
    ensures var a := t.attempts[i];
            && Reaches(cfg, s, u) && u.claims == t.claims
            && u.slots == PutSlot(t, a.key, SettledSlot(SlotOf(t.slots, a.key), a, answer)).slots
            && u.ledger == BookLedger(t.ledger, i, a.quote, answer)
            && u.attempts == t.attempts[i := a.(phase := Ended(Returned(answer)), fate := FateOf(answer), row := BookRow(a.quote, answer))]
  {
    hide Reaches, BookLedger, BookRow, At, Replaced, Released;
    u := t;
    if !answer.Unknown? {
      Goes(cfg, s, t, Node(i, answer.Paid?));
      u := Apply(cfg, t, Node(i, answer.Paid?));
    }
    Goes(cfg, s, u, Answer(i, answer));
    u := Apply(cfg, u, Answer(i, answer));
    assert u.attempts[i] == t.attempts[i].(phase := Answered(answer), fate := FateOf(answer));
    u := Concludes(cfg, s, u, i);
  }

  // ----- counterexamples -----

  const FREE := Config(-1, 0, 0)

  /** With its slot free, a key admits every request that the limits admit. */
  lemma FreeSlotAdmits(cfg: Config, s: State, q: Quote, k: Key, body: Body, hash: string) returns (t: State)
    requires At(s.slots, k).Absent? && Room(cfg, s, q)
    ensures Reaches(cfg, s, t)
    ensures t.attempts == s.attempts + [Attempt(q, Some(k), body, hash, Sending, Live,
                                                if q.Offer? then OpenRow else NoRow, Some(OrderOf(q)))]
    ensures At(t.slots, k).InFlight?
  {
    hide Reaches, BudgetOf, Admitted, Charged, OrderOf;
    var n := |s.attempts|;
    Stays(cfg, s);
    Goes(cfg, s, s, Arrive(q, Some(k), body, hash));
    t := Apply(cfg, s, Arrive(q, Some(k), body, hash));
    Goes(cfg, s, t, Peek(n));
    t := Apply(cfg, t, Peek(n));
    Goes(cfg, s, t, Claim(n));
    t := Apply(cfg, t, Claim(n));
    assert t.attempts[n].phase.Running?;
    t := Sends(cfg, s, t, n, OrderOf(q));
  }

  /** The cap and both windows leave room for one more such request. */
  predicate Room(cfg: Config, s: State, q: Quote) {
    BudgetOf(cfg, q).Some? && Admitted(cfg, s.ledger, |s.attempts| + 1, Reserve(cfg, q))
  }

  /** Room for a retry of every request under `k` whose send may settle. */
  ghost predicate RoomToRetry(cfg: Config, s: State, k: Key) {
    forall j: nat :: Keyed(s, j, k) && MaybePaid(s.attempts[j]) ==> Room(cfg, s, s.attempts[j].quote)
  }

  /**
    A harmful step, wherever it happens and whatever the limits, leads to two live sends under one
    key: a plain retry of the request whose send may settle is enough, if the limits have room. The
    retry may carry any payment hash, as `pay_offer` fetches a new invoice each time.
   */
  lemma HarmBreaks(cfg: Config, s: State, step: Step, hash: string) returns (t: State, j: nat)
    requires Inv(cfg, s) && Enabled(s, step) && Harmful(s, step)
    requires RoomToRetry(cfg, Apply(cfg, s, step), s.attempts[step.i].key.value)
    ensures Reaches(cfg, Apply(cfg, s, step), t) && !OneLiveSend(t)
    ensures j < |s.attempts| && |t.attempts| == |s.attempts| + 1 && MaybePaid(t.attempts[j]) && t.attempts[|s.attempts|].fate.Live?
    ensures var a, b := s.attempts[j], t.attempts[|s.attempts|];
            b.quote == a.quote && b.key == a.key == s.attempts[step.i].key && b.body == a.body && b.hash == hash
  {
    hide Reaches, BudgetOf, Room, OrderOf;
    var k := s.attempts[step.i].key.value;
    j := step.i;
    if step.Act? {
      j :| Keyed(s, j, k) && MaybePaid(s.attempts[j]);
    }
    var freed := Apply(cfg, s, step);
    assert Keyed(freed, j, k) && MaybePaid(freed.attempts[j]);
    var a := freed.attempts[j];
    t := FreeSlotAdmits(cfg, freed, a.quote, k, a.body, hash);
    assert t.attempts[j] == a;
    assert Keyed(t, |s.attempts|, k) && Keyed(t, j, k);
  }

  /** Where the limits have room for a retry, a step opens a way to a double send exactly when it is harmful. */
  lemma HarmfulExactly(cfg: Config, s: State, step: Step)
    requires Inv(cfg, s) && Enabled(s, step)
    requires Harmful(s, step) ==> RoomToRetry(cfg, Apply(cfg, s, step), s.attempts[step.i].key.value)
    ensures Harmful(s, step) <==> exists t :: Reaches(cfg, Apply(cfg, s, step), t) && !OneLiveSend(t)
  {
    hide Inv, Enabled, Apply, Harmful, Runs, Exec, Careful, RoomToRetry;
    if Harmful(s, step) {
      var t, j := HarmBreaks(cfg, s, step, "");
    } else {
      StepKeeps(cfg, s, step);
      forall t | Reaches(cfg, Apply(cfg, s, step), t) ensures OneLiveSend(t) {
        ReachesKeeps(cfg, Apply(cfg, s, step), t);
        OneLive(cfg, t);
      }
    }
  }

  lemma ReachesKeeps(cfg: Config, s: State, t: State)
    requires Inv(cfg, s) && Reaches(cfg, s, t)
    ensures Inv(cfg, t)
  {
    hide Inv, Runs, Exec, Careful;
    var steps :| Careful(cfg, s, steps) && Runs(cfg, s, steps) && Exec(cfg, s, steps) == t;
    CarefulKeeps(cfg, s, steps);
  }

  /** The request at `i` is in this phase, and an exception there is harmful. */
  ghost predicate FaultHarmsAt(s: State, i: nat, phase: Phase) {
    i < |s.attempts| && s.attempts[i].phase == phase && Enabled(s, Fault(i)) && Harmful(s, Fault(i))
  }

  /** For each phase: an exception there is harmful in some reachable state exactly if the phase is not one of the safe ones. */
  lemma FaultPhaseExactly(phase: Phase)
    requires phase.Reserving? || phase.Holding? || phase.Sending? || phase.Answered? || phase.Booked?
    ensures !SafeToFail(phase) <==> exists s, i: nat :: Reaches(FREE, INIT, s) && FaultHarmsAt(s, i, phase)
  {
    hide Reaches, BudgetOf;
    if SafeToFail(phase) {
      forall s, i: nat | Reaches(FREE, INIT, s) ensures !FaultHarmsAt(s, i, phase) {
        ReachesKeeps(FREE, INIT, s);
        assert i < |s.attempts| ==> Consistent(FREE, s.attempts[i]);
      }
    } else {
      var s := FaultHarms(phase);
    }
  }

  /** A run, of one request, to an exception that is harmful. */
  lemma FaultHarms(phase: Phase) returns (s: State)
    requires phase.Sending? || ((phase.Answered? || phase.Booked?) && !phase.answer.Rejected?)
    ensures Reaches(FREE, INIT, s) && FaultHarmsAt(s, 0, phase)
  {
    hide Reaches, BudgetOf, BookLedger, OrderOf;
    FreeHasRoom(INIT);
    s := FreeSlotAdmits(FREE, INIT, Onchain(1, None), "k", "", "");
    if !phase.Sending? {
      s := Hears(s, phase.answer);
      if phase.Booked? {
        Goes(FREE, INIT, s, Book(0));
        s := Apply(FREE, s, Book(0));
      }
    }
  }

  /** The only request, which has sent, gets an answer that is no failure. */
  lemma Hears(s: State, answer: Answer) returns (t: State)
    requires Reaches(FREE, INIT, s) && |s.attempts| == 1 && !answer.Rejected?
    requires s.attempts[0].phase.Sending? && s.attempts[0].fate.Live? && s.attempts[0].key == Some("k") && At(s.slots, "k").InFlight?
    ensures Reaches(FREE, INIT, t) && t.slots == s.slots
    ensures t.attempts == [s.attempts[0].(phase := Answered(answer), fate := FateOf(answer))]
  {
    hide Reaches, At;
    t := s;
    if answer.Paid? {
      Goes(FREE, INIT, s, Node(0, true));
      t := Apply(FREE, s, Node(0, true));
    }
    Goes(FREE, INIT, t, Answer(0, answer));
    t := Apply(FREE, t, Answer(0, answer));
  }

  lemma FreeHasRoom(s: State)
    ensures Room(FREE, s, Onchain(1, None))
  {
  }

  /** The request at `i` has found the payment failed, nobody (or somebody) has claimed the slot since, and releasing it is harmful. */
  ghost predicate ActHarmsAt(s: State, i: nat, unclaimed: bool) {
    && i < |s.attempts| && s.attempts[i].phase.LookedUp? && s.attempts[i].phase.found.Failed?
    && unclaimed == (s.attempts[i].phase.epoch == ClaimsOf(s.claims, s.attempts[i].key))
    && Enabled(s, Act(i)) && Harmful(s, Act(i))
  }

  /** A release is harmful in some reachable state exactly if the slot may have been claimed since it was peeked. */
  lemma ReleaseExactly(unclaimed: bool)
    ensures !unclaimed <==> exists s, i: nat :: Reaches(FREE, INIT, s) && ActHarmsAt(s, i, unclaimed)
  {
    hide Reaches, Harmful, Inv;
    if unclaimed {
      forall s, i: nat | Reaches(FREE, INIT, s) ensures !ActHarmsAt(s, i, true) {
        StartsSafe(FREE);
        ReachesKeeps(FREE, INIT, s);
        if ActHarmsAt(s, i, true) {
          FreshActIsHarmless(FREE, s, i);
        }
      }
    } else {
      var s := StaleActHarms();
      StartsSafe(FREE);
      ReachesKeeps(FREE, INIT, s);
      if ActHarmsAt(s, 1, true) {
        FreshActIsHarmless(FREE, s, 1);
      }
      assert ActHarmsAt(s, 1, false);
    }
  }

  lemma StartsSafe(cfg: Config)
    ensures Inv(cfg, INIT)
  {
  }

  const RETRIED := Offer(Some(1000), None)

  /** An attempt at the offer, with the hash of the invoice that it fetched. */
  function Retry(hash: string, phase: Phase, fate: Fate): Attempt {
    Attempt(RETRIED, Some("k"), "b", hash, phase, fate, if fate.Unsent? then NoRow else OpenRow,
            if fate.Unsent? then None else Some(OrderOf(RETRIED)))
  }

  /** A request that is ready to claim its free slot can end with the outcome unknown. */
  lemma EndsUnknown(s: State, t: State, i: nat, hash: string) returns (u: State)
    requires Reaches(FREE, s, t)
    requires i < |t.attempts| && t.attempts[i] == Retry(hash, Ready, Unsent) && At(t.slots, "k").Absent?
    ensures Reaches(FREE, s, u)
    ensures u.slots == t.slots["k" := Pending("b", hash)]
    ensures u.claims == t.claims["k" := ClaimsOf(t.claims, Some("k")) + 1]
    ensures u.attempts == t.attempts[i := Retry(hash, Ended(Returned(Unknown)), Live)]
  {
    hide Reaches, Charged, BookLedger;
    Goes(FREE, s, t, Claim(i));
    u := Apply(FREE, t, Claim(i));
    assert u.attempts[i] == Retry(hash, Running, Unsent);
    u := Sends(FREE, s, u, i, OrderOf(RETRIED));
    u := Finishes(FREE, s, u, i, Unknown);
  }

  /** One request, left pending. */
  lemma OnePending() returns (s: State)
    ensures Reaches(FREE, INIT, s)
    ensures s.attempts == [Retry("h0", Ended(Returned(Unknown)), Live)]
    ensures At(s.slots, "k") == Pending("b", "h0") && ClaimsOf(s.claims, Some("k")) == 1
  {
    hide Reaches, BudgetOf;
    var arrive := Arrive(RETRIED, Some("k"), "b", "h0");
    Stays(FREE, INIT);
    Goes(FREE, INIT, INIT, arrive);
    s := Apply(FREE, INIT, arrive);
    Goes(FREE, INIT, s, Peek(0));
    s := Apply(FREE, s, Peek(0));
    s := EndsUnknown(INIT, s, 0, "h0");
  }

  /** It has failed; a second and a third, with invoices of their own, have both looked at it and found that out. */
  lemma TwoReconcile() returns (s: State)
    ensures Reaches(FREE, INIT, s)
    ensures s.attempts == [Retry("h0", Ended(Returned(Unknown)), Dead), Retry("h1", LookedUp(Failed, 1), Unsent),
                           Retry("h2", LookedUp(Failed, 1), Unsent)]
    ensures At(s.slots, "k") == Pending("b", "h0")
  {
    hide Reaches, BudgetOf;
    s := OnePending();
    Goes(FREE, INIT, s, Node(0, false));
    s := Apply(FREE, s, Node(0, false));
    var second, third := Arrive(RETRIED, Some("k"), "b", "h1"), Arrive(RETRIED, Some("k"), "b", "h2");
    Goes(FREE, INIT, s, second);
    s := Apply(FREE, s, second);
    Goes(FREE, INIT, s, Peek(1));
    s := Apply(FREE, s, Peek(1));
    assert s.attempts == [Retry("h0", Ended(Returned(Unknown)), Dead), Retry("h1", Peeked("h0", 1), Unsent)];
    Goes(FREE, INIT, s, Lookup(1, Failed));
    s := Apply(FREE, s, Lookup(1, Failed));
    Goes(FREE, INIT, s, third);
    s := Apply(FREE, s, third);
    Goes(FREE, INIT, s, Peek(2));
    s := Apply(FREE, s, Peek(2));
    assert s.attempts == [Retry("h0", Ended(Returned(Unknown)), Dead), Retry("h1", LookedUp(Failed, 1), Unsent),
                          Retry("h2", Peeked("h0", 1), Unsent)];
    Goes(FREE, INIT, s, Lookup(2, Failed));
    s := Apply(FREE, s, Lookup(2, Failed));
  }

  /**
    Reconciliation in pieces is not safe: two retries of a failed payment both find it
    failed, one sends again, and the other then drops the slot of that new send.
   */
  lemma StaleActHarms() returns (s: State)
    ensures Reaches(FREE, INIT, s) && |s.attempts| == 3 && s.attempts[1] == Retry("h1", LookedUp(Failed, 1), Unsent)
    ensures s.attempts[2] == Retry("h2", Ended(Returned(Unknown)), Live)
    ensures Enabled(s, Act(1)) && Harmful(s, Act(1))
  {
    hide Reaches, BudgetOf;
    s := TwoReconcile();
    Goes(FREE, INIT, s, Act(2));
    s := Apply(FREE, s, Act(2));
    s := EndsUnknown(INIT, s, 2, "h2");
    assert Keyed(s, 2, "k") && MaybePaid(s.attempts[2]);
  }
}
