/**
  What a completed slot and a replayed response stand for, in every run of the payment
  protocol, harmful steps included.
 */
module PaymentReplay {
  import opened Common
  import opened Idempotency
  import opened Spending
  import opened PaymentProtocol

  // ----- a completed slot is final -----

  /** The slot of `k` is completed, and no request under `k` is spending. */
  ghost predicate Closed(s: State, k: Key) {
    At(s.slots, k).Done? && forall i: nat :: Keyed(s, i, k) ==> !Active(s.attempts[i])
  }

  /** A step of a request under a completed key leaves the slot, and a request that was not spending does not start to. */
  lemma DoneRequest(cfg: Config, s: State, step: Step, k: Key)
    requires Enabled(s, step) && !step.Arrive? && Keyed(s, step.i, k) && At(s.slots, k).Done?
    ensures At(Apply(cfg, s, step).slots, k) == At(s.slots, k)
    ensures !Active(s.attempts[step.i]) && step.i < |Apply(cfg, s, step).attempts| ==> !Active(Apply(cfg, s, step).attempts[step.i])
  {
    hide ClaimsOf, BudgetOf, Truthful, SpendAllowed, VelocityAllowed, SpendCharged, VelocityCharged, Unspent, BookLedger, BookRow, OrderOf;
  }

  /** No step of any handler changes a completed slot. */
  lemma DoneStays(cfg: Config, s: State, step: Step, k: Key)
    requires Enabled(s, step) && At(s.slots, k).Done?
    ensures At(Apply(cfg, s, step).slots, k) == At(s.slots, k)
  {
    hide Truthful, Apply, At;
    if step.Arrive? || s.attempts[step.i].key != Some(k) {
      OtherSlots(cfg, s, step, k);
    } else {
      assert Keyed(s, step.i, k);
      DoneRequest(cfg, s, step, k);
    }
  }

  /** And no request under its key starts to spend. */
  lemma ClosedStays(cfg: Config, s: State, step: Step, k: Key)
    requires Enabled(s, step) && Closed(s, k)
    ensures Closed(Apply(cfg, s, step), k)
  {
    hide Truthful, At, Active, Peeking, Limiting, Pacing, Acting, Claiming, Leaving, SettledSlot, BookLedger, BookRow, OrderOf;
    DoneStays(cfg, s, step, k);
    var t := Apply(cfg, s, step);
    if step.Arrive? {
      Arrives(t.attempts[|s.attempts|]);
    } else {
      OneRequest(cfg, s, step);
      if s.attempts[step.i].key == Some(k) {
        assert Keyed(s, step.i, k);
        DoneRequest(cfg, s, step, k);
      }
    }
    forall i: nat | Keyed(t, i, k) ensures !Active(t.attempts[i]) {
      assert i < |s.attempts| ==> Keyed(s, i, k);
    }
  }

  lemma Arrives(a: Attempt)
    ensures a.phase.Started? ==> !Active(a)
  {
  }

  /** Once completed, a slot keeps its response for good, and once its key is closed no request under it ever spends. */
  lemma {:induction false} DoneForever(cfg: Config, s: State, steps: seq<Step>, k: Key)
    requires At(s.slots, k).Done? && Runs(cfg, s, steps)
    ensures At(Exec(cfg, s, steps).slots, k) == At(s.slots, k)
    ensures Closed(s, k) ==> Closed(Exec(cfg, s, steps), k)
    decreases |steps|
  {
    hide Closed, At, Apply, Enabled;
    if steps != [] {
      DoneStays(cfg, s, steps[0], k);
      if Closed(s, k) {
        ClosedStays(cfg, s, steps[0], k);
      }
      DoneForever(cfg, Apply(cfg, s, steps[0]), steps[1..], k);
    }
  }

  // ----- and backed by a settled send -----

  /** A Lightning request under `k` has this payment hash. */
  ghost predicate Origin(s: State, k: Key, hash: string) {
    exists c: nat :: Keyed(s, c, k) && Lightning(s.attempts[c].quote) && s.attempts[c].hash == hash
  }

  /** A send has settled that is of a request under `k`, or of one with the payment hash of such a request. */
  ghost predicate Settles(s: State, b: nat, c: nat, k: Key) {
    && Keyed(s, c, k) && b < |s.attempts| && s.attempts[b].fate.Settled?
    && (b == c || (Lightning(s.attempts[b].quote) && Lightning(s.attempts[c].quote) && s.attempts[b].hash == s.attempts[c].hash))
  }

  ghost predicate SettledFor(s: State, k: Key) {
    exists b: nat, c: nat :: Settles(s, b, c, k)
  }

  /** What a slot stands for. */
  ghost predicate SlotBacked(s: State, k: Key) {
    && (At(s.slots, k).Pending? && At(s.slots, k).hash != "" ==> Origin(s, k, At(s.slots, k).hash))
    && (At(s.slots, k).Done? ==> SettledFor(s, k))
  }

  /** What a request has read stands for. */
  ghost predicate RequestBacked(s: State, a: Attempt) {
    && (a.phase.Peeked? ==> a.key.Some? && Origin(s, a.key.value, a.phase.hash))
    && (a.phase.LookedUp? && a.phase.found.Succeeded? ==> a.key.Some? && SettledFor(s, a.key.value))
    && (a.phase.Ended? && a.phase.outcome.Replayed? ==> a.key.Some? && SettledFor(s, a.key.value))
  }

  /** What a request's phase says about its send; in every run, unlike the rest of the invariant. */
  predicate Sound(a: Attempt) {
    && (a.phase.Started? || a.phase.Peeked? || a.phase.LookedUp? || a.phase.Ready? ==> a.fate.Unsent?)
    && (a.phase.Running? || a.phase.Reserving? || a.phase.Holding? ==> a.fate.Unsent?)
    && ((a.phase.Answered? || a.phase.Booked?) && a.phase.answer.Paid? ==> a.fate.Settled?)
  }

  ghost predicate Backing(s: State) {
    && (forall i: nat :: i < |s.attempts| ==> Sound(s.attempts[i]) && RequestBacked(s, s.attempts[i]))
    && (forall k :: SlotBacked(s, k))
  }

  lemma SoundBefore(cfg: Config, s: State, step: Step)
    requires Enabled(s, step) && !step.Arrive? && Sound(s.attempts[step.i])
    requires step.Peek? || step.Lookup? || step.Act? || step.Claim? || step.Refuse?
    ensures Sound(Apply(cfg, s, step).attempts[step.i])
    ensures Apply(cfg, s, step).attempts[step.i].fate == s.attempts[step.i].fate
  {
    hide Truthful, At, ClaimsOf, Replaced, Released, Dropped, Reserved;
  }

  lemma SoundLimits(cfg: Config, s: State, step: Step)
    requires Enabled(s, step) && (step.Limit? || step.Velocity?) && Sound(s.attempts[step.i])
    ensures Sound(Apply(cfg, s, step).attempts[step.i])
    ensures Apply(cfg, s, step).attempts[step.i].fate == s.attempts[step.i].fate
  {
    hide BudgetOf, At, Released, SpendAllowed, VelocityAllowed, SpendCharged, VelocityCharged, Unspent;
  }

  lemma SoundAfter(cfg: Config, s: State, step: Step)
    requires Enabled(s, step) && !step.Arrive? && Sound(s.attempts[step.i])
    requires step.Send? || step.NoSend? || step.Node? || step.Answer? || step.Book? || step.Settle? || step.Fault?
    ensures Sound(Apply(cfg, s, step).attempts[step.i])
    ensures s.attempts[step.i].fate.Settled? ==> Apply(cfg, s, step).attempts[step.i].fate.Settled?
  {
    hide Truthful, BudgetOf, OrderOf, At, ClaimsOf, Replaced, Released, SettledSlot, BookLedger, BookRow;
  }

  /** From `s` to `t` requests are only added, keep what they ask for, and stay settled. */
  ghost predicate Extends(s: State, t: State) {
    && |s.attempts| <= |t.attempts|
    && forall i: nat :: i < |s.attempts| ==>
         && t.attempts[i].quote == s.attempts[i].quote && t.attempts[i].key == s.attempts[i].key
         && t.attempts[i].hash == s.attempts[i].hash
         && (s.attempts[i].fate.Settled? ==> t.attempts[i].fate.Settled?)
  }

  lemma StepExtends(cfg: Config, s: State, step: Step)
    requires Backing(s) && Enabled(s, step)
    ensures Extends(s, Apply(cfg, s, step))
    ensures !step.Arrive? ==> OnlyAt(s, Apply(cfg, s, step), step.i) && Sound(Apply(cfg, s, step).attempts[step.i])
  {
    hide Enabled, Sound, RequestBacked, SlotBacked;
    if !step.Arrive? {
      OneRequest(cfg, s, step);
      assert Sound(s.attempts[step.i]);
      if step.Limit? || step.Velocity? {
        SoundLimits(cfg, s, step);
      } else if step.Peek? || step.Lookup? || step.Act? || step.Claim? || step.Refuse? {
        SoundBefore(cfg, s, step);
      } else {
        SoundAfter(cfg, s, step);
      }
    }
  }

  lemma OriginStays(s: State, t: State, k: Key, hash: string)
    requires Extends(s, t) && Origin(s, k, hash)
    ensures Origin(t, k, hash)
  {
    var c: nat :| Keyed(s, c, k) && Lightning(s.attempts[c].quote) && s.attempts[c].hash == hash;
    assert Keyed(t, c, k);
  }

  lemma SettledStays(s: State, t: State, k: Key)
    requires Extends(s, t) && SettledFor(s, k)
    ensures SettledFor(t, k)
  {
    var b: nat, c: nat :| Settles(s, b, c, k);
    assert Settles(t, b, c, k);
  }

  /** What was backed stays backed. */
  lemma BackedStays(s: State, t: State)
    requires Extends(s, t)
    ensures forall a :: RequestBacked(s, a) ==> RequestBacked(t, a)
    ensures forall k :: SlotBacked(s, k) && At(t.slots, k) == At(s.slots, k) ==> SlotBacked(t, k)
  {
    hide At, Extends, Origin, SettledFor;
    forall k, hash | Origin(s, k, hash) ensures Origin(t, k, hash) {
      OriginStays(s, t, k, hash);
    }
    forall k | SettledFor(s, k) ensures SettledFor(t, k) {
      SettledStays(s, t, k);
    }
  }

  /** After a step from `s` to `t`, the request at `i` and its slot are backed, and no other slot has changed. */
  ghost predicate BackedAt(s: State, t: State, i: nat) {
    && i < |t.attempts|
    && RequestBacked(t, t.attempts[i])
    && (forall k :: t.attempts[i].key != Some(k) ==> At(t.slots, k) == At(s.slots, k))
    && (t.attempts[i].key.Some? ==> SlotBacked(t, t.attempts[i].key.value))
  }

  /** The request and the slot of its key, as they were, are backed in the state after. */
  lemma BackedBefore(s: State, t: State, i: nat)
    requires Backing(s) && Extends(s, t) && i < |s.attempts|
    ensures RequestBacked(t, s.attempts[i])
    ensures s.attempts[i].key.Some? ==>
              var slot := SlotOf(s.slots, s.attempts[i].key);
              && (slot.Pending? && slot.hash != "" ==> Origin(t, s.attempts[i].key.value, slot.hash))
              && (slot.Done? ==> SettledFor(t, s.attempts[i].key.value))
  {
    hide Extends, Sound, Origin, SettledFor, At;
    BackedStays(s, t);
    var a := s.attempts[i];
    if a.key.Some? {
      var k, slot := a.key.value, SlotOf(s.slots, a.key);
      assert SlotBacked(s, k);
      if slot.Pending? && slot.hash != "" {
        OriginStays(s, t, k, slot.hash);
      } else if slot.Done? {
        SettledStays(s, t, k);
      }
    }
  }

  lemma BacksPeek(cfg: Config, s: State, i: nat)
    requires Backing(s) && Enabled(s, Peek(i)) && Extends(s, Apply(cfg, s, Peek(i)))
    ensures BackedAt(s, Apply(cfg, s, Peek(i)), i)
  {
    hide Extends, Sound, Origin, SettledFor, At, Backing;
    BackedBefore(s, Apply(cfg, s, Peek(i)), i);
  }

  /** A success that was found is of a hash that a request of this API key has paid. */
  ghost predicate Own(s: State, step: Step)
    requires Enabled(s, step)
  {
    step.Lookup? && step.found.Succeeded? ==>
      exists a :: a in s.attempts && Lightning(a.quote) && a.hash == s.attempts[step.i].phase.hash && a.fate.Settled?
  }

  /** The lookup of a hash that was recorded under the key: the settled send is of that hash. */
  lemma BacksLookup(cfg: Config, s: State, i: nat, found: Found)
    requires Backing(s) && Enabled(s, Lookup(i, found)) && Own(s, Lookup(i, found)) && Extends(s, Apply(cfg, s, Lookup(i, found)))
    ensures BackedAt(s, Apply(cfg, s, Lookup(i, found)), i)
  {
    hide Extends, Sound, At, SlotBacked;
    var t := Apply(cfg, s, Lookup(i, found));
    BackedSlot(s, t, i);
    var a := s.attempts[i];
    assert RequestBacked(s, a);
    if found.Succeeded? {
      var c: nat :| Keyed(s, c, a.key.value) && Lightning(s.attempts[c].quote) && s.attempts[c].hash == a.phase.hash;
      var x :| x in s.attempts && Lightning(x.quote) && x.hash == a.phase.hash && x.fate.Settled?;
      var b: nat :| b < |s.attempts| && s.attempts[b] == x;
      assert Settles(s, b, c, a.key.value);
      SettledStays(s, t, a.key.value);
    }
  }

  /** A step that leaves the slots alone leaves them backed. */
  lemma BackedSlot(s: State, t: State, i: nat)
    requires Backing(s) && Extends(s, t) && t.slots == s.slots && i < |s.attempts|
    ensures i < |t.attempts| && (t.attempts[i].key.Some? ==> SlotBacked(t, t.attempts[i].key.value))
  {
    hide Sound, Origin, SettledFor, At, SlotBacked;
    BackedStays(s, t);
    if t.attempts[i].key.Some? {
      assert SlotBacked(s, t.attempts[i].key.value);
    }
  }

  lemma BacksAct(cfg: Config, s: State, i: nat)
    requires Backing(s) && Enabled(s, Act(i)) && Extends(s, Apply(cfg, s, Act(i)))
    ensures BackedAt(s, Apply(cfg, s, Act(i)), i)
  {
    hide Extends, Sound, Origin, SettledFor, Backing;
    BackedBefore(s, Apply(cfg, s, Act(i)), i);
  }

  lemma BacksClaim(cfg: Config, s: State, i: nat)
    requires Backing(s) && Enabled(s, Claim(i)) && Extends(s, Apply(cfg, s, Claim(i)))
    ensures BackedAt(s, Apply(cfg, s, Claim(i)), i)
  {
    hide Extends, Sound, Origin, SettledFor, Backing, ClaimsOf;
    BackedBefore(s, Apply(cfg, s, Claim(i)), i);
  }

  lemma BacksSettle(cfg: Config, s: State, i: nat)
    requires Backing(s) && Enabled(s, Settle(i)) && Extends(s, Apply(cfg, s, Settle(i)))
    ensures BackedAt(s, Apply(cfg, s, Settle(i)), i)
  {
    hide Extends, RequestBacked, Origin, SettledFor;
    var t, a := Apply(cfg, s, Settle(i)), s.attempts[i];
    BackedBefore(s, t, i);
    assert Sound(a);
    if a.key.Some? {
      OwnSettles(t, i);
    }
    Unread(t, t.attempts[i]);
  }

  /** A request under a key is an origin of its own hash, and settles for the key if it has settled. */
  lemma OwnSettles(t: State, i: nat)
    requires i < |t.attempts| && t.attempts[i].key.Some?
    ensures Lightning(t.attempts[i].quote) ==> Origin(t, t.attempts[i].key.value, t.attempts[i].hash)
    ensures t.attempts[i].fate.Settled? ==> SettledFor(t, t.attempts[i].key.value)
  {
    var k := t.attempts[i].key.value;
    assert Keyed(t, i, k);
    if t.attempts[i].fate.Settled? {
      assert Settles(t, i, i, k);
    }
  }

  /** A request that has read nothing needs no backing. */
  lemma Unread(t: State, a: Attempt)
    requires !a.phase.Peeked? && !a.phase.LookedUp? && !(a.phase.Ended? && a.phase.outcome.Replayed?)
    ensures RequestBacked(t, a)
  {
  }

  /** A step that reads nothing and frees the slot at most. */
  lemma BacksFreeing(s: State, t: State, i: nat)
    requires Backing(s) && Extends(s, t) && OnlyAt(s, t, i)
    requires t.slots == s.slots || t.slots == PutSlot(s, s.attempts[i].key, Released(SlotOf(s.slots, s.attempts[i].key))).slots
    requires t.attempts[i].phase.Reserving? || t.attempts[i].phase.Holding?
             || (t.attempts[i].phase.Ended? && !t.attempts[i].phase.outcome.Replayed?)
    ensures BackedAt(s, t, i)
  {
    hide Extends, Origin, SettledFor, Backing, RequestBacked;
    BackedBefore(s, t, i);
    Unread(t, t.attempts[i]);
  }

  lemma BacksLeaving(cfg: Config, s: State, step: Step)
    requires Backing(s) && Enabled(s, step) && Extends(s, Apply(cfg, s, step)) && (step.Refuse? || step.Fault?)
    requires OnlyAt(s, Apply(cfg, s, step), step.i)
    ensures BackedAt(s, Apply(cfg, s, step), step.i)
  {
    hide Extends, Backing, BackedAt, At, Released;
    BacksFreeing(s, Apply(cfg, s, step), step.i);
  }

  lemma BacksLimit(cfg: Config, s: State, i: nat)
    requires Backing(s) && Enabled(s, Limit(i)) && Extends(s, Apply(cfg, s, Limit(i)))
    requires OnlyAt(s, Apply(cfg, s, Limit(i)), i)
    ensures BackedAt(s, Apply(cfg, s, Limit(i)), i)
  {
    hide Extends, Backing, BackedAt, OnlyAt, At, Released, BudgetOf, SpendAllowed, SpendCharged;
    BacksFreeing(s, Apply(cfg, s, Limit(i)), i);
  }

  lemma BacksVelocity(cfg: Config, s: State, i: nat)
    requires Backing(s) && Enabled(s, Velocity(i)) && Extends(s, Apply(cfg, s, Velocity(i)))
    requires OnlyAt(s, Apply(cfg, s, Velocity(i)), i)
    ensures BackedAt(s, Apply(cfg, s, Velocity(i)), i)
  {
    hide Extends, Backing, BackedAt, OnlyAt, At, Released, VelocityAllowed, VelocityCharged, Unspent;
    BacksFreeing(s, Apply(cfg, s, Velocity(i)), i);
  }

  /** The other steps read nothing and leave the slots alone. */
  lemma BacksRest(cfg: Config, s: State, step: Step)
    requires Backing(s) && Enabled(s, step) && Extends(s, Apply(cfg, s, step))
    requires step.Send? || step.NoSend? || step.Node? || step.Answer? || step.Book?
    requires OnlyAt(s, Apply(cfg, s, step), step.i)
    ensures BackedAt(s, Apply(cfg, s, step), step.i)
  {
    hide Extends, Origin, SettledFor, Backing, SlotBacked, RequestBacked, OrderOf, BookLedger, BookRow;
    var t := Apply(cfg, s, step);
    BackedSlot(s, t, step.i);
    BackedBefore(s, t, step.i);
    if step.Node? {
      SameRead(t, s.attempts[step.i], t.attempts[step.i]);
    } else {
      Unread(t, t.attempts[step.i]);
    }
  }

  lemma SameRead(t: State, a: Attempt, b: Attempt)
    requires RequestBacked(t, a) && b.phase == a.phase && b.key == a.key
    ensures RequestBacked(t, b)
  {
  }

  lemma StepBacks(cfg: Config, s: State, step: Step)
    requires Backing(s) && Enabled(s, step) && Own(s, step) && !step.Arrive? && Extends(s, Apply(cfg, s, step))
    requires OnlyAt(s, Apply(cfg, s, step), step.i)
    ensures BackedAt(s, Apply(cfg, s, step), step.i)
  {
    hide OnlyAt, Own, Backing, Enabled, Extends, Apply, BackedAt;
    match step
    case Peek(i) => BacksPeek(cfg, s, i);
    case Lookup(i, found) => BacksLookup(cfg, s, i, found);
    case Act(i) => BacksAct(cfg, s, i);
    case Claim(i) => BacksClaim(cfg, s, i);
    case Settle(i) => BacksSettle(cfg, s, i);
    case Refuse(_) => BacksLeaving(cfg, s, step);
    case Fault(_) => BacksLeaving(cfg, s, step);
    case Limit(i) => BacksLimit(cfg, s, i);
    case Velocity(i) => BacksVelocity(cfg, s, i);
    case _ => BacksRest(cfg, s, step);
  }

  /** Every step, harmful or not, keeps every completed slot and every replay backed. */
  lemma StepKeepsBacking(cfg: Config, s: State, step: Step)
    requires Backing(s) && Enabled(s, step) && Own(s, step)
    ensures Backing(Apply(cfg, s, step))
  {
    hide Enabled, Own, Sound, RequestBacked, SlotBacked, Extends, At;
    var t := Apply(cfg, s, step);
    StepExtends(cfg, s, step);
    BackedStays(s, t);
    if step.Arrive? {
      Arrived(t, t.attempts[|s.attempts|]);
    } else {
      StepBacks(cfg, s, step);
    }
  }

  lemma Arrived(t: State, a: Attempt)
    requires a.phase.Started? && a.fate.Unsent?
    ensures Sound(a) && RequestBacked(t, a)
  {
  }

  ghost predicate OwnRun(cfg: Config, s: State, steps: seq<Step>)
    requires Runs(cfg, s, steps)
    decreases |steps|
  {
    steps == [] || (Own(s, steps[0]) && OwnRun(cfg, Apply(cfg, s, steps[0]), steps[1..]))
  }

  lemma {:induction false} RunKeepsBacking(cfg: Config, s: State, steps: seq<Step>)
    requires Backing(s) && Runs(cfg, s, steps) && OwnRun(cfg, s, steps)
    ensures Backing(Exec(cfg, s, steps))
    decreases |steps|
  {
    hide Apply, Enabled, Own, Backing;
    if steps != [] {
      StepKeepsBacking(cfg, s, steps[0]);
      RunKeepsBacking(cfg, Apply(cfg, s, steps[0]), steps[1..]);
    }
  }

  /**
    In every run, harmful or not, in which the hashes that are looked up are paid by this API key
    alone: if a slot is completed, or a request was answered from it, then a send has settled that is
    of a request under the key or carries the payment hash of one.
   */
  lemma SuccessIsBacked(cfg: Config, steps: seq<Step>)
    requires Runs(cfg, INIT, steps) && OwnRun(cfg, INIT, steps)
    ensures var s := Exec(cfg, INIT, steps);
            && (forall k :: At(s.slots, k).Done? ==> SettledFor(s, k))
            && (forall i: nat :: i < |s.attempts| && s.attempts[i].phase.Ended? && s.attempts[i].phase.outcome.Replayed? ==>
                  s.attempts[i].key.Some? && SettledFor(s, s.attempts[i].key.value))
  {
    hide Runs, Exec, OwnRun, SettledFor;
    RunKeepsBacking(cfg, INIT, steps);
    var s := Exec(cfg, INIT, steps);
    forall k | At(s.slots, k).Done? ensures SettledFor(s, k) {
      assert SlotBacked(s, k);
    }
  }

  // ----- whose response is replayed -----

  /** With this step a request is answered with an earlier response, although the slot belongs to another body. */
  ghost predicate ForeignReplay(cfg: Config, s: State, step: Step, i: nat)
    requires Enabled(s, step)
  {
    && !step.Arrive? && step.i == i && !s.attempts[i].phase.Ended?
    && var slot, a := SlotOf(s.slots, s.attempts[i].key), Apply(cfg, s, step).attempts;
    && i < |a| && a[i].phase.Ended? && a[i].phase.outcome.Replayed?
    && !slot.Absent? && slot.fp != s.attempts[i].body
  }

  /**
    A response goes to another body than the one that holds the slot exactly when reconciliation
    acts on a payment that succeeded and the fingerprint of the slot is not that of the request:
    reconciliation does not look at the fingerprint, and the claim does.
   */
  lemma ForeignReplayExactly(cfg: Config, s: State, step: Step, i: nat)
    requires Enabled(s, step) && i < |s.attempts| && !s.attempts[i].phase.Ended?
    ensures ForeignReplay(cfg, s, step, i) <==>
              && step == Act(i) && s.attempts[i].phase.found.Succeeded?
              && !SlotOf(s.slots, s.attempts[i].key).Absent?
              && SlotOf(s.slots, s.attempts[i].key).fp != s.attempts[i].body
  {
    hide Truthful, BudgetOf, OrderOf, ClaimsOf, SpendAllowed, VelocityAllowed, SpendCharged, VelocityCharged, BookLedger, BookRow;
  }

  /** If the slot was pending, it then belongs to that other body, and the body that paid is refused. */
  lemma ForeignReplayRefusesPayer(cfg: Config, s: State, i: nat)
    requires Enabled(s, Act(i)) && ForeignReplay(cfg, s, Act(i), i) && SlotOf(s.slots, s.attempts[i].key).Pending?
    ensures var before, after := SlotOf(s.slots, s.attempts[i].key), SlotOf(Apply(cfg, s, Act(i)).slots, s.attempts[i].key);
            && after == Done(s.attempts[i].body, s.attempts[i].phase.found.response)
            && ClaimOf(after, before.fp).Conflict? && ClaimOf(after, s.attempts[i].body).Cached?
  {
  }

  /** A run that gets there: another body under the key, once the payment of the first has settled. */
  lemma ForeignReplayHappens(r: Response) returns (s: State)
    ensures Reaches(FREE, INIT, s) && Enabled(s, Act(1)) && ForeignReplay(FREE, s, Act(1), 1)
    ensures At(s.slots, "k") == Pending("b", "h0") && s.attempts[1].body == "c" && s.attempts[1].phase.found == Succeeded(r)
  {
    hide Reaches, BudgetOf;
    s := OnePending();
    Goes(FREE, INIT, s, Node(0, true));
    s := Apply(FREE, s, Node(0, true));
    var other := Arrive(RETRIED, Some("k"), "c", "h1");
    Goes(FREE, INIT, s, other);
    s := Apply(FREE, s, other);
    Goes(FREE, INIT, s, Peek(1));
    s := Apply(FREE, s, Peek(1));
    assert s.attempts[1].phase == Peeked("h0", 1) && s.attempts[0] in s.attempts;
    Goes(FREE, INIT, s, Lookup(1, Succeeded(r)));
    s := Apply(FREE, s, Lookup(1, Succeeded(r)));
  }
}
