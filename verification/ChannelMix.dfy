/**
  The one-active-run guard of channel-mix executes (app/api/channel_mix.py): any number of
  execute transactions, force-stops and executor ticks, interleaved statement by statement.
  Each statement reads what is committed; the advisory lock lasts to the end of its
  transaction, and exists on Postgres only.
 */
module ChannelMix {
  import opened Common

  datatype RunState = Queued | InProgress | AwaitingFunds | Complete | PartialFailure | StoppedInsufficient | Cancelled

  predicate Terminal(state: RunState) {
    state.Complete? || state.PartialFailure? || state.StoppedInsufficient? || state.Cancelled?
  }

  datatype MixRun = MixRun(digest: string, state: RunState, stopRequested: bool)

  /** `finalize_run`: terminal states are absorbing. */
  function Finalized(run: MixRun, state: RunState): MixRun {
    if Terminal(run.state) then run else run.(state := state)
  }

  /** How an execute ended: with the run of this digest, with the active run, with a new run, or not at all. */
  datatype Outcome = Existing(id: nat) | Resumed(id: nat) | Created(id: nat) | Aborted

  datatype Phase = Started | Locking | Guarding | Inserting | Ended(outcome: Outcome)

  datatype Tx = Tx(digest: string, phase: Phase)

  datatype State = State(runs: seq<MixRun>, lock: Option<nat>, txs: seq<Tx>)

  const INIT := State([], None, [])

  datatype Step =
    | Begin(digest: string)
    | Digest(i: nat)
    | Lock(i: nat)
    | Guard(i: nat)
    | Commit(i: nat)
    | Rollback(i: nat)
    | Stop(j: nat, force: bool)
    | Tick(j: nat, state: RunState)

  predicate Matches(runs: seq<MixRun>, digest: string, j: nat) {
    j < |runs| && runs[j].digest == digest
  }

  predicate Active(runs: seq<MixRun>, j: nat) {
    j < |runs| && !Terminal(runs[j].state)
  }

  ghost predicate Enabled(postgres: bool, s: State, step: Step) {
    match step
    case Begin(_) => true
    case Digest(i) => i < |s.txs| && s.txs[i].phase.Started?
    case Lock(i) => i < |s.txs| && s.txs[i].phase.Locking? && (postgres ==> s.lock.None?)
    case Guard(i) => i < |s.txs| && s.txs[i].phase.Guarding?
    case Commit(i) => i < |s.txs| && s.txs[i].phase.Inserting?
    case Rollback(i) => i < |s.txs| && !s.txs[i].phase.Ended?
    case Stop(j, _) => j < |s.runs|
    case Tick(j, _) => j < |s.runs| && !Terminal(s.runs[j].state)
  }

  /** The lookup by digest expects one row at most, and fails on more. */
  ghost function AfterDigest(runs: seq<MixRun>, digest: string): Phase {
    if forall j :: !Matches(runs, digest, j) then Locking
    else
      var j :| Matches(runs, digest, j);
      Ended(if forall l :: Matches(runs, digest, l) ==> l == j then Existing(j) else Aborted)
  }

  /** The latest active run among the first `n`. */
  function LatestActive(runs: seq<MixRun>, n: nat): Option<nat>
    requires n <= |runs|
  {
    if n == 0 then None else if Active(runs, n - 1) then Some(n - 1) else LatestActive(runs, n - 1)
  }

  function AfterGuard(runs: seq<MixRun>): Phase {
    match LatestActive(runs, |runs|)
    case Some(j) => Ended(Resumed(j))
    case None => Inserting
  }

  /** A transaction that has ended holds no lock. */
  function LockAfter(lock: Option<nat>, i: nat, phase: Phase): Option<nat> {
    if phase.Ended? && lock == Some(i) then None else lock
  }

  function Move(s: State, i: nat, phase: Phase): State
    requires i < |s.txs|
  {
    s.(txs := s.txs[i := s.txs[i].(phase := phase)], lock := LockAfter(s.lock, i, phase))
  }

  ghost function Apply(postgres: bool, s: State, step: Step): State
    requires Enabled(postgres, s, step)
  {
    match step
    case Begin(digest) => s.(txs := s.txs + [Tx(digest, Started)])
    case Digest(i) => Move(s, i, AfterDigest(s.runs, s.txs[i].digest))
    case Lock(i) => Move(s, i, Guarding).(lock := if postgres then Some(i) else s.lock)
    case Guard(i) => Move(s, i, AfterGuard(s.runs))
    case Commit(i) => Move(s, i, Ended(Created(|s.runs|))).(runs := s.runs + [MixRun(s.txs[i].digest, Queued, false)])
    case Rollback(i) => Move(s, i, Ended(Aborted))
    case Stop(j, force) => s.(runs := s.runs[j := Stopped(s.runs[j], force)])
    case Tick(j, state) => s.(runs := s.runs[j := s.runs[j].(state := state)])
  }

  function Stopped(run: MixRun, force: bool): MixRun {
    if force then Finalized(run.(stopRequested := true), Cancelled)
    else if Terminal(run.state) then run
    else run.(stopRequested := true)
  }

  ghost predicate Runs(postgres: bool, s: State, steps: seq<Step>)
    decreases |steps|
  {
    steps == [] || (Enabled(postgres, s, steps[0]) && Runs(postgres, Apply(postgres, s, steps[0]), steps[1..]))
  }

  ghost function Exec(postgres: bool, s: State, steps: seq<Step>): State
    requires Runs(postgres, s, steps)
    decreases |steps|
  {
    if steps == [] then s else Exec(postgres, Apply(postgres, s, steps[0]), steps[1..])
  }

  // ----- safety -----

  ghost predicate OneActive(runs: seq<MixRun>) {
    forall i: nat, j: nat :: Active(runs, i) && Active(runs, j) ==> i == j
  }

  ghost predicate NoneActive(runs: seq<MixRun>) {
    forall i: nat :: !Active(runs, i)
  }

  lemma {:induction false} LatestIsActive(runs: seq<MixRun>, n: nat)
    requires n <= |runs|
    ensures match LatestActive(runs, n)
            case Some(j) => Active(runs, j) && forall l: nat :: j < l < n ==> !Active(runs, l)
            case None => forall l: nat :: l < n ==> !Active(runs, l)
  {
    if n > 0 {
      LatestIsActive(runs, n - 1);
    }
  }

  /** Past the lock, a transaction holds it, and past the guard there is nothing active. */
  ghost predicate Inv(s: State) {
    && OneActive(s.runs)
    && (forall i: nat :: i < |s.txs| && (s.txs[i].phase.Guarding? || s.txs[i].phase.Inserting?) ==> s.lock == Some(i))
    && (forall i: nat :: i < |s.txs| && s.txs[i].phase.Inserting? ==> NoneActive(s.runs))
  }

  lemma StepKeeps(s: State, step: Step)
    requires Inv(s) && Enabled(true, s, step)
    ensures Inv(Apply(true, s, step))
  {
    hide Terminal;
    LatestIsActive(s.runs, |s.runs|);
    var t := Apply(true, s, step);
    StillActive(true, s, step);
    if step.Commit? {
      assert NoneActive(s.runs);
    }
  }

  /** Only a commit makes a run active. */
  lemma StillActive(postgres: bool, s: State, step: Step)
    requires Enabled(postgres, s, step)
    ensures |Apply(postgres, s, step).runs| == |s.runs| + if step.Commit? then 1 else 0
    ensures forall j: nat :: j < |s.runs| && Active(Apply(postgres, s, step).runs, j) ==> Active(s.runs, j)
  {
    hide AfterDigest, AfterGuard;
  }

  lemma {:induction false} RunKeeps(s: State, steps: seq<Step>)
    requires Inv(s) && Runs(true, s, steps)
    ensures Inv(Exec(true, s, steps))
    decreases |steps|
  {
    hide Apply, Enabled, Inv;
    if steps != [] {
      StepKeeps(s, steps[0]);
      RunKeeps(Apply(true, s, steps[0]), steps[1..]);
    }
  }

  // ----- main results -----

  /** On Postgres at most one non-terminal run is ever committed, whatever is interleaved. */
  lemma OneActiveRun(steps: seq<Step>)
    requires Runs(true, INIT, steps)
    ensures OneActive(Exec(true, INIT, steps).runs)
  {
    hide Runs, Exec;
    RunKeeps(INIT, steps);
  }

  /** A run that has ended keeps its state and its digest through every further step. */
  lemma {:induction false} TerminalStays(postgres: bool, s: State, steps: seq<Step>, j: nat)
    requires Runs(postgres, s, steps) && j < |s.runs| && Terminal(s.runs[j].state)
    ensures j < |Exec(postgres, s, steps).runs|
    ensures Exec(postgres, s, steps).runs[j].(stopRequested := false) == s.runs[j].(stopRequested := false)
    decreases |steps|
  {
    hide AfterDigest, AfterGuard;
    if steps != [] {
      TerminalStays(postgres, Apply(postgres, s, steps[0]), steps[1..], j);
    }
  }

  /** With or without the lock, an execute breaks the rule exactly if a run is active when it commits. */
  lemma CommitBreaksExactly(postgres: bool, s: State, i: nat)
    requires Enabled(postgres, s, Commit(i))
    ensures OneActive(Apply(postgres, s, Commit(i)).runs) <==> NoneActive(s.runs)
  {
    var t := Apply(postgres, s, Commit(i));
    assert Active(t.runs, |s.runs|);
    forall j: nat | j < |s.runs| ensures Active(t.runs, j) <==> Active(s.runs, j) {
    }
    if OneActive(t.runs) {
      forall j: nat ensures !Active(s.runs, j) {
        assert Active(s.runs, j) ==> Active(t.runs, j);
      }
    }
  }

  /** What no step undoes: runs are only appended, keep their digest and stay terminal; a transaction keeps its digest and its end. */
  ghost predicate Grows(s: State, t: State) {
    && |s.runs| <= |t.runs| && |s.txs| <= |t.txs|
    && (forall j: nat :: j < |s.runs| ==> t.runs[j].digest == s.runs[j].digest && (Active(t.runs, j) ==> Active(s.runs, j)))
    && (forall i: nat :: i < |s.txs| ==> t.txs[i].digest == s.txs[i].digest)
    && (forall i: nat :: i < |s.txs| && s.txs[i].phase.Ended? ==> t.txs[i].phase == s.txs[i].phase)
  }

  lemma StepGrows(postgres: bool, s: State, step: Step)
    requires Enabled(postgres, s, step)
    ensures Grows(s, Apply(postgres, s, step))
  {
    hide AfterDigest, AfterGuard;
  }

  lemma {:induction false} RunGrows(postgres: bool, s: State, steps: seq<Step>)
    requires Runs(postgres, s, steps)
    ensures Grows(s, Exec(postgres, s, steps))
    decreases |steps|
  {
    hide Apply, Enabled;
    if steps != [] {
      StepGrows(postgres, s, steps[0]);
      RunGrows(postgres, Apply(postgres, s, steps[0]), steps[1..]);
    }
  }

  /** Two runs carry this digest. */
  ghost predicate Repeated(runs: seq<MixRun>, digest: string) {
    exists i: nat, j: nat :: i != j && Matches(runs, digest, i) && Matches(runs, digest, j)
  }

  /** The lookup by digest finds none, the one, or fails, exactly by how many runs carry the digest. */
  lemma LookupExactly(runs: seq<MixRun>, digest: string)
    ensures AfterDigest(runs, digest).Locking? <==> forall j: nat :: !Matches(runs, digest, j)
    ensures AfterDigest(runs, digest) == Ended(Aborted) <==> Repeated(runs, digest)
    ensures forall j: nat :: AfterDigest(runs, digest) == Ended(Existing(j)) <==>
              Matches(runs, digest, j) && !Repeated(runs, digest)
  {
  }

  /**
    Transaction `i` looks its digest up in `s`, anything happens, and it commits: the digest is then
    carried twice exactly if a run with it was committed after the lookup.
   */
  lemma RepeatsExactly(postgres: bool, s: State, i: nat, steps: seq<Step>)
    requires Enabled(postgres, s, Digest(i)) && Runs(postgres, Apply(postgres, s, Digest(i)), steps)
    requires Enabled(postgres, Exec(postgres, Apply(postgres, s, Digest(i)), steps), Commit(i))
    ensures var t := Exec(postgres, Apply(postgres, s, Digest(i)), steps);
            var digest := s.txs[i].digest;
            && |s.runs| <= |t.runs| && t.txs[i].digest == digest
            && (Repeated(Apply(postgres, t, Commit(i)).runs, digest) <==>
                  exists j: nat :: |s.runs| <= j && Matches(t.runs, digest, j))
  {
    hide Runs, Exec, AfterDigest;
    var digest, u := s.txs[i].digest, Apply(postgres, s, Digest(i));
    var t := Exec(postgres, u, steps);
    RunGrows(postgres, u, steps);
    LookupExactly(s.runs, digest);
    assert u.txs[i].phase.Locking?;
    var after := Apply(postgres, t, Commit(i)).runs;
    assert Matches(after, digest, |t.runs|);
    forall j: nat | j < |t.runs| ensures Matches(after, digest, j) <==> Matches(t.runs, digest, j) {
    }
    forall j: nat | j < |s.runs| ensures !Matches(t.runs, digest, j) {
      assert !Matches(s.runs, digest, j);
    }
  }

  /** Under the lock, all earlier runs of a digest have ended when it is committed again, so at most one is ever active. */
  lemma RepeatedRunsEnded(s: State, i: nat)
    requires Inv(s) && Enabled(true, s, Commit(i))
    ensures forall j: nat :: Matches(s.runs, s.txs[i].digest, j) ==> Terminal(s.runs[j].state)
    ensures var t := Apply(true, s, Commit(i));
            forall j: nat :: Matches(t.runs, s.txs[i].digest, j) && Active(t.runs, j) ==> j == |s.runs|
  {
    hide Terminal;
    var t := Apply(true, s, Commit(i));
    assert NoneActive(s.runs);
    forall j: nat | j < |s.runs| ensures Terminal(s.runs[j].state) && !Active(t.runs, j) {
      assert !Active(s.runs, j);
    }
  }

  /**
    Transaction `i` passes the guard in `s`, anything happens, and it commits: with or without the
    lock, the rule is broken exactly if a run that was committed after the guard is still active.
   */
  lemma OverlapBreaksExactly(postgres: bool, s: State, i: nat, steps: seq<Step>)
    requires Enabled(postgres, s, Guard(i)) && Runs(postgres, Apply(postgres, s, Guard(i)), steps)
    requires Enabled(postgres, Exec(postgres, Apply(postgres, s, Guard(i)), steps), Commit(i))
    ensures var t := Exec(postgres, Apply(postgres, s, Guard(i)), steps);
            !OneActive(Apply(postgres, t, Commit(i)).runs) <==> exists j: nat :: |s.runs| <= j && Active(t.runs, j)
  {
    hide Runs, Exec, LatestActive, OneActive;
    var u := Apply(postgres, s, Guard(i));
    var t := Exec(postgres, u, steps);
    RunGrows(postgres, u, steps);
    LatestIsActive(s.runs, |s.runs|);
    assert !u.txs[i].phase.Ended?;
    CommitBreaksExactly(postgres, t, i);
    forall j: nat | j < |s.runs| ensures !Active(t.runs, j) {
      assert !Active(s.runs, j);
    }
  }

  // ----- reachable states -----

  ghost predicate Reaches(postgres: bool, s: State, t: State) {
    exists steps :: Runs(postgres, s, steps) && Exec(postgres, s, steps) == t
  }

  lemma {:induction false} RunsOn(postgres: bool, s: State, steps: seq<Step>, step: Step)
    requires Runs(postgres, s, steps) && Enabled(postgres, Exec(postgres, s, steps), step)
    ensures Runs(postgres, s, steps + [step])
    ensures Exec(postgres, s, steps + [step]) == Apply(postgres, Exec(postgres, s, steps), step)
    decreases |steps|
  {
    hide Apply, Enabled;
    var more := steps + [step];
    if steps == [] {
      assert more == [step] && more[1..] == [];
      assert Runs(postgres, Apply(postgres, s, step), []);
    } else {
      assert more[1..] == steps[1..] + [step];
      RunsOn(postgres, Apply(postgres, s, steps[0]), steps[1..], step);
    }
  }

  lemma Stays(postgres: bool, s: State)
    ensures Reaches(postgres, s, s)
  {
    assert Runs(postgres, s, []) && Exec(postgres, s, []) == s;
  }

  lemma Goes(postgres: bool, s: State, t: State, step: Step) returns (u: State)
    requires Reaches(postgres, s, t) && Enabled(postgres, t, step)
    ensures u == Apply(postgres, t, step) && Reaches(postgres, s, u)
  {
    hide Apply, Enabled, Runs, Exec;
    var steps :| Runs(postgres, s, steps) && Exec(postgres, s, steps) == t;
    RunsOn(postgres, s, steps, step);
    u := Apply(postgres, t, step);
  }

  /** Two executes of one plan, or of two plans, have both looked for their digest and found none. */
  lemma TwoExecutes(postgres: bool, a: string, b: string) returns (s: State)
    ensures Reaches(postgres, INIT, s) && s == State([], None, [Tx(a, Locking), Tx(b, Locking)])
  {
    hide Reaches;
    Stays(postgres, INIT);
    s := Goes(postgres, INIT, INIT, Begin(a));
    s := Goes(postgres, INIT, s, Begin(b));
    s := Goes(postgres, INIT, s, Digest(0));
    s := Goes(postgres, INIT, s, Digest(1));
  }

  /** Without the lock, two executes can both pass the guard and both commit. */
  lemma NoLockTwoRuns() returns (s: State)
    ensures Reaches(false, INIT, s) && !OneActive(s.runs)
  {
    hide Reaches, AfterDigest;
    s := TwoExecutes(false, "a", "b");
    s := Goes(false, INIT, s, Lock(0));
    s := Goes(false, INIT, s, Lock(1));
    s := Goes(false, INIT, s, Guard(0));
    s := Goes(false, INIT, s, Guard(1));
    s := Goes(false, INIT, s, Commit(0));
    s := Goes(false, INIT, s, Commit(1));
    assert s.runs == [MixRun("a", Queued, false), MixRun("b", Queued, false)];
    assert Active(s.runs, 0) && Active(s.runs, 1);
  }

  /** Digests are not unique, even with the lock: a plan can be committed twice, and then no longer be looked up. */
  lemma DigestsRepeat(a: string) returns (s: State)
    ensures Reaches(true, INIT, s)
    ensures |s.runs| == 2 && s.runs[0].digest == s.runs[1].digest == a && AfterDigest(s.runs, a) == Ended(Aborted)
  {
    hide Reaches;
    s := TwoExecutes(true, a, a);
    s := Goes(true, INIT, s, Lock(0));
    s := Goes(true, INIT, s, Guard(0));
    s := Goes(true, INIT, s, Commit(0));
    s := Goes(true, INIT, s, Stop(0, true));
    assert s.runs == [MixRun(a, Cancelled, true)];
    LatestIsActive(s.runs, 1);
    s := Goes(true, INIT, s, Lock(1));
    s := Goes(true, INIT, s, Guard(1));
    s := Goes(true, INIT, s, Commit(1));
    assert Matches(s.runs, a, 0) && Matches(s.runs, a, 1);
  }

  // ----- the handlers -----

  class Database {
    const postgres: bool
    var runs: seq<MixRun>

    constructor (postgres: bool)
      ensures this.postgres == postgres && runs == []
    {
      this.postgres, runs := postgres, [];
    }

    /** The lookup by digest: the row if there is one, and whether there are more. */
    method FindDigest(digest: string) returns (found: Option<nat>, several: bool)
      ensures found.None? ==> !several && forall j :: !Matches(runs, digest, j)
      ensures found.Some? ==> Matches(runs, digest, found.value)
      ensures found.Some? ==> (several <==> exists j :: Matches(runs, digest, j) && j != found.value)
    {
      found, several := None, false;
      for j := 0 to |runs|
        invariant found.None? ==> !several && forall l: nat :: l < j ==> !Matches(runs, digest, l)
        invariant found.Some? ==> found.value < j && Matches(runs, digest, found.value)
        invariant found.Some? ==> (several <==> exists l: nat :: l < j && Matches(runs, digest, l) && l != found.value)
      {
        if runs[j].digest == digest {
          assert Matches(runs, digest, j);
          if found.Some? {
            several := true;
          } else {
            found := Some(j);
          }
        }
      }
    }

    /** `_active_run` */
    method ActiveRun() returns (active: Option<nat>)
      ensures active == LatestActive(runs, |runs|)
    {
      active := None;
      for j := 0 to |runs|
        invariant active == LatestActive(runs, j)
      {
        if !Terminal(runs[j].state) {
          active := Some(j);
        }
      }
    }

    /** `post_channel_mix_execute` from the digest lookup to the commit, run alone from `s`. */
    method Execute(digest: string, ghost s: State) returns (outcome: Outcome, ghost t: State)
      requires runs == s.runs && s.lock.None?
      modifies this
      ensures runs == t.runs && t.lock.None? && Reaches(postgres, s, t)
      ensures t.txs == s.txs + [Tx(digest, Ended(outcome))]
      ensures outcome.Existing? ==> forall j :: Matches(old(runs), digest, j) <==> j == outcome.id
      ensures outcome.Resumed? ==> Active(old(runs), outcome.id) && forall j :: !Matches(old(runs), digest, j)
      ensures outcome.Created? <==> NoneActive(old(runs)) && forall j :: !Matches(old(runs), digest, j)
      ensures outcome.Created? ==> runs == old(runs) + [MixRun(digest, Queued, false)] && outcome.id == |old(runs)|
      ensures !outcome.Created? ==> runs == old(runs)
    {
      hide Reaches, LatestActive;
      ghost var n := |s.txs|;
      LatestIsActive(runs, |runs|);
      Stays(postgres, s);
      t := Goes(postgres, s, s, Begin(digest));
      t := Goes(postgres, s, t, Digest(n));
      var existing, several := FindDigest(digest);
      if existing.Some? {
        outcome := if several then Aborted else Existing(existing.value);
        return;
      }
      t := Goes(postgres, s, t, Lock(n));
      t := Goes(postgres, s, t, Guard(n));
      var active := ActiveRun();
      if active.Some? {
        outcome := Resumed(active.value);
        return;
      }
      t := Goes(postgres, s, t, Commit(n));
      outcome := Created(|runs|);
      runs := runs + [MixRun(digest, Queued, false)];
    }

    /** `post_channel_mix_run_stop`; None for a run that does not exist. */
    method StopRun(j: nat, force: bool) returns (reply: Option<MixRun>)
      modifies this
      ensures j >= |old(runs)| ==> reply == None && runs == old(runs)
      ensures j < |old(runs)| ==>
                && runs == old(runs)[j := Stopped(old(runs)[j], force)] && reply == Some(runs[j])
                && (force ==> Terminal(runs[j].state) && runs[j].stopRequested)
                && (Terminal(old(runs)[j].state) ==> runs[j].state == old(runs)[j].state)
                && (!Terminal(old(runs)[j].state) ==> runs[j].stopRequested && (force <==> Terminal(runs[j].state)))
    {
      if j >= |runs| {
        return None;
      }
      var run := runs[j];
      if force {
        run := Finalized(run.(stopRequested := true), Cancelled);
        runs := runs[j := run];
      } else if !Terminal(run.state) && !run.stopRequested {
        run := run.(stopRequested := true);
        runs := runs[j := run];
      }
      return Some(run);
    }
  }
}
