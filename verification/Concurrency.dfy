/**
  Admission and drain (app/core/concurrency.py and the `concurrency_and_drain` middleware
  of app/main.py). A request is one admission step, a handler that may run for any time,
  and one finishing step; nothing suspends inside the two steps.
 */
module Concurrency {
  import opened Common

  type Key = string

  const MAX_TRACKED_KEYS := 16384
  const BYPASS_PREFIXES: seq<string> :=
    ["/health", "/ready", "/v1/admin/services", "/v1/admin/tasks/status", "/metrics"]

  // ----- per-key slots -----

  function Available(cap: nat, slots: map<Key, nat>, k: Key): nat {
    if k in slots then slots[k] else cap
  }

  predicate MayAcquire(cap: nat, slots: map<Key, nat>, k: Key) {
    cap == 0 || (Available(cap, slots, k) > 0 && (k in slots || |slots| < MAX_TRACKED_KEYS))
  }

  function Acquired(cap: nat, slots: map<Key, nat>, k: Key): map<Key, nat>
    requires MayAcquire(cap, slots, k)
  {
    if cap == 0 then slots else slots[k := Available(cap, slots, k) - 1]
  }

  function Released(cap: nat, slots: map<Key, nat>, k: Key): map<Key, nat> {
    if cap == 0 || k !in slots then slots
    else if slots[k] + 1 >= cap then slots - {k}
    else slots[k := slots[k] + 1]
  }

  // ----- the machine -----

  datatype Phase = Running(acquired: bool) | Refused(status: nat) | Finished

  datatype Request = Request(bypass: bool, key: Option<Key>, phase: Phase)

  datatype State = State(slots: map<Key, nat>, inFlight: nat, shutdown: bool, requests: seq<Request>)

  const INIT := State(map[], 0, false, [])

  datatype Step = Arrive(bypass: bool, key: Option<Key>) | Finish(i: nat) | Shutdown

  predicate Enabled(s: State, step: Step) {
    step.Finish? ==> step.i < |s.requests| && s.requests[step.i].phase.Running?
  }

  /** What the middleware decides about a new request. */
  function Admission(cap: nat, s: State, bypass: bool, key: Option<Key>): Phase {
    if bypass then Running(false)
    else if s.shutdown then Refused(503)
    else if key.Some? && !MayAcquire(cap, s.slots, key.value) then Refused(429)
    else Running(key.Some?)
  }

  function Apply(cap: nat, s: State, step: Step): State
    requires Enabled(s, step)
  {
    match step
    case Arrive(bypass, key) =>
      var phase := Admission(cap, s, bypass, key);
      State(if phase == Running(true) then Acquired(cap, s.slots, key.value) else s.slots,
            if phase.Running? then s.inFlight + 1 else s.inFlight,
            s.shutdown,
            s.requests + [Request(bypass, key, phase)])
    case Finish(i) =>
      var r := s.requests[i];
      State(if r.phase.acquired && r.key.Some? then Released(cap, s.slots, r.key.value) else s.slots,
            if s.inFlight > 0 then s.inFlight - 1 else 0,
            s.shutdown,
            s.requests[i := r.(phase := Finished)])
    case Shutdown => s.(shutdown := true)
  }

  ghost predicate Runs(cap: nat, s: State, steps: seq<Step>)
    decreases |steps|
  {
    steps == [] || (Enabled(s, steps[0]) && Runs(cap, Apply(cap, s, steps[0]), steps[1..]))
  }

  ghost function Exec(cap: nat, s: State, steps: seq<Step>): State
    requires Runs(cap, s, steps)
    decreases |steps|
  {
    if steps == [] then s else Exec(cap, Apply(cap, s, steps[0]), steps[1..])
  }

  // ----- what the counters should say -----

  function RunningSet(requests: seq<Request>): set<nat> {
    set i: nat | i < |requests| && requests[i].phase.Running?
  }

  predicate Holds(r: Request, k: Key) {
    r.phase == Running(true) && r.key == Some(k)
  }

  function Holders(requests: seq<Request>, k: Key): set<nat> {
    set i: nat | i < |requests| && Holds(requests[i], k)
  }

  /** The map entry of a key against the number of slots it holds. */
  predicate Tracks(cap: nat, slots: map<Key, nat>, k: Key, held: nat) {
    && (k in slots <==> cap > 0 && held > 0)
    && (k in slots ==> slots[k] + held == cap)
  }

  ghost predicate Inv(cap: nat, s: State) {
    && s.inFlight == |RunningSet(s.requests)|
    && (forall k :: Tracks(cap, s.slots, k, |Holders(s.requests, k)|))
    && |s.slots| <= MAX_TRACKED_KEYS
    && (forall i :: 0 <= i < |s.requests| && s.requests[i].phase == Running(true) ==> s.requests[i].key.Some?)
  }

  lemma RunningGrows(requests: seq<Request>, r: Request)
    ensures |RunningSet(requests + [r])| == |RunningSet(requests)| + if r.phase.Running? then 1 else 0
  {
    var more, n := requests + [r], |requests|;
    forall i: nat ensures i in RunningSet(more) <==> i in RunningSet(requests) || (i == n && r.phase.Running?) {
    }
    if r.phase.Running? {
      assert RunningSet(more) == RunningSet(requests) + {n};
    } else {
      assert RunningSet(more) == RunningSet(requests);
    }
  }

  lemma HoldersGrow(requests: seq<Request>, r: Request, k: Key)
    ensures |Holders(requests + [r], k)| == |Holders(requests, k)| + if Holds(r, k) then 1 else 0
  {
    hide Holds;
    var more, n := requests + [r], |requests|;
    forall i: nat ensures i in Holders(more, k) <==> i in Holders(requests, k) || (i == n && Holds(r, k)) {
    }
    if Holds(r, k) {
      assert Holders(more, k) == Holders(requests, k) + {n};
    } else {
      assert Holders(more, k) == Holders(requests, k);
    }
  }

  lemma SetsShrink(requests: seq<Request>, i: nat, k: Key)
    requires i < |requests| && requests[i].phase.Running?
    ensures |RunningSet(requests[i := requests[i].(phase := Finished)])| == |RunningSet(requests)| - 1
    ensures |Holders(requests[i := requests[i].(phase := Finished)], k)|
         == |Holders(requests, k)| - if Holds(requests[i], k) then 1 else 0
  {
    var after := requests[i := requests[i].(phase := Finished)];
    assert i in RunningSet(requests) && RunningSet(after) == RunningSet(requests) - {i};
    if Holds(requests[i], k) {
      assert i in Holders(requests, k);
    }
    assert Holders(after, k) == Holders(requests, k) - {i};
  }

  lemma KeepsArrive(cap: nat, s: State, step: Step)
    requires Inv(cap, s) && step.Arrive?
    ensures Inv(cap, Apply(cap, s, step))
  {
    var t := Apply(cap, s, step);
    var r := t.requests[|s.requests|];
    RunningGrows(s.requests, r);
    forall k ensures Tracks(cap, t.slots, k, |Holders(t.requests, k)|) {
      HoldersGrow(s.requests, r, k);
      assert Tracks(cap, s.slots, k, |Holders(s.requests, k)|);
    }
  }

  lemma KeepsFinish(cap: nat, s: State, step: Step)
    requires Inv(cap, s) && Enabled(s, step) && step.Finish?
    ensures Inv(cap, Apply(cap, s, step))
    ensures Apply(cap, s, step).inFlight == s.inFlight - 1
  {
    var t := Apply(cap, s, step);
    SetsShrink(s.requests, step.i, "");
    forall k ensures Tracks(cap, t.slots, k, |Holders(t.requests, k)|) {
      SetsShrink(s.requests, step.i, k);
      assert Tracks(cap, s.slots, k, |Holders(s.requests, k)|);
    }
    Shrinks(cap, s.slots, if s.requests[step.i].key.Some? then s.requests[step.i].key.value else "");
  }

  lemma Shrinks(cap: nat, slots: map<Key, nat>, k: Key)
    ensures |Released(cap, slots, k)| <= |slots|
  {
    if k in slots {
      assert (slots - {k}).Keys == slots.Keys - {k};
      assert slots[k := slots[k] + 1].Keys == slots.Keys;
    }
  }

  lemma StepKeeps(cap: nat, s: State, step: Step)
    requires Inv(cap, s) && Enabled(s, step)
    ensures Inv(cap, Apply(cap, s, step))
  {
    match step
    case Arrive(_, _) => KeepsArrive(cap, s, step);
    case Finish(_) => KeepsFinish(cap, s, step);
    case Shutdown =>
  }

  lemma {:induction false} RunKeeps(cap: nat, s: State, steps: seq<Step>)
    requires Inv(cap, s) && Runs(cap, s, steps)
    ensures Inv(cap, Exec(cap, s, steps))
    decreases |steps|
  {
    hide Apply, Enabled, Inv;
    if steps != [] {
      StepKeeps(cap, s, steps[0]);
      RunKeeps(cap, Apply(cap, s, steps[0]), steps[1..]);
    }
  }

  // ----- main results -----

  /**
    In every interleaving: the gauge is the number of running handlers; each key holds at
    most `cap` slots, is in the map exactly when it holds one, and its entry is `cap` less
    what it holds; the map is bounded, and empty once every request has ended.
   */
  lemma Conservation(cap: nat, steps: seq<Step>)
    requires Runs(cap, INIT, steps)
    ensures var s := Exec(cap, INIT, steps);
            && s.inFlight == |RunningSet(s.requests)|
            && |s.slots| <= MAX_TRACKED_KEYS
            && (forall k :: k in s.slots <==> cap > 0 && |Holders(s.requests, k)| > 0)
            && (forall k :: k in s.slots ==> cap - s.slots[k] == |Holders(s.requests, k)|)
            && (cap > 0 ==> forall k :: |Holders(s.requests, k)| <= cap)
            && (RunningSet(s.requests) == {} ==> s.inFlight == 0 && s.slots == map[])
  {
    hide Runs, Exec;
    RunKeeps(cap, INIT, steps);
    var s := Exec(cap, INIT, steps);
    forall k
      ensures k in s.slots <==> cap > 0 && |Holders(s.requests, k)| > 0
      ensures k in s.slots ==> cap - s.slots[k] == |Holders(s.requests, k)|
      ensures cap > 0 ==> |Holders(s.requests, k)| <= cap
    {
      assert Tracks(cap, s.slots, k, |Holders(s.requests, k)|);
    }
    if RunningSet(s.requests) == {} {
      forall k ensures k !in s.slots {
        assert Holders(s.requests, k) <= RunningSet(s.requests);
        assert Holders(s.requests, k) == {};
      }
      assert s.slots == map[];
    }
  }

  /** The clamp on the gauge never bites: every finishing step lowers it by exactly one. */
  lemma ClampNeverBites(cap: nat, steps: seq<Step>, i: nat)
    requires Runs(cap, INIT, steps) && Enabled(Exec(cap, INIT, steps), Finish(i))
    ensures Exec(cap, INIT, steps).inFlight > 0
    ensures Apply(cap, Exec(cap, INIT, steps), Finish(i)).inFlight == Exec(cap, INIT, steps).inFlight - 1
  {
    hide Runs, Exec;
    RunKeeps(cap, INIT, steps);
    KeepsFinish(cap, Exec(cap, INIT, steps), Finish(i));
  }

  /** The keys that hold a slot. */
  function HeldKeys(requests: seq<Request>): set<Key> {
    set i | 0 <= i < |requests| && requests[i].phase == Running(true) && requests[i].key.Some? :: requests[i].key.value
  }

  /**
    Exactly when a request is let in, read off the running requests alone: a key is refused
    only at its cap, or when it holds nothing and as many keys as can be tracked do.
   */
  lemma AdmittedExactly(cap: nat, s: State, bypass: bool, key: Option<Key>)
    requires Inv(cap, s)
    ensures Admission(cap, s, bypass, key).Running? <==>
              || bypass
              || (&& !s.shutdown
                  && (key.Some? && cap > 0 ==>
                        var held := |Holders(s.requests, key.value)|;
                        held < cap && (held > 0 || |HeldKeys(s.requests)| < MAX_TRACKED_KEYS)))
  {
    if key.Some? && cap > 0 {
      assert Tracks(cap, s.slots, key.value, |Holders(s.requests, key.value)|);
      KeysAreHeld(cap, s);
    }
  }

  lemma KeysAreHeld(cap: nat, s: State)
    requires Inv(cap, s) && cap > 0
    ensures s.slots.Keys == HeldKeys(s.requests)
  {
    forall k ensures k in s.slots.Keys <==> k in HeldKeys(s.requests) {
      assert Tracks(cap, s.slots, k, |Holders(s.requests, k)|);
      if k in s.slots {
        var i :| i in Holders(s.requests, k);
        assert s.requests[i].key.value == k;
      }
      if k in HeldKeys(s.requests) {
        var i :| 0 <= i < |s.requests| && s.requests[i].phase == Running(true) && s.requests[i].key == Some(k);
        assert i in Holders(s.requests, k);
      }
    }
  }

  ghost predicate OnlyBypassRuns(s: State) {
    forall i :: 0 <= i < |s.requests| && s.requests[i].phase.Running? ==> s.requests[i].bypass
  }

  lemma {:induction false} DrainStays(cap: nat, s: State, steps: seq<Step>)
    requires s.shutdown && OnlyBypassRuns(s) && Runs(cap, s, steps)
    ensures OnlyBypassRuns(Exec(cap, s, steps))
    decreases |steps|
  {
    if steps != [] {
      DrainStays(cap, Apply(cap, s, steps[0]), steps[1..]);
    }
  }

  lemma ZeroMeansIdle(cap: nat, s: State)
    requires Inv(cap, s) && s.inFlight == 0
    ensures OnlyBypassRuns(s) && RunningSet(s.requests) == {}
  {
    forall i: nat | i < |s.requests| ensures !s.requests[i].phase.Running? {
      assert i !in RunningSet(s.requests);
    }
  }

  /**
    Once the gauge reads zero after shutdown began, no handler but those of bypass paths
    runs, then or after any further steps.
   */
  lemma DrainSafe(cap: nat, steps: seq<Step>, more: seq<Step>)
    requires Runs(cap, INIT, steps) && Exec(cap, INIT, steps).shutdown && Exec(cap, INIT, steps).inFlight == 0
    requires Runs(cap, Exec(cap, INIT, steps), more)
    ensures RunningSet(Exec(cap, INIT, steps).requests) == {}
    ensures OnlyBypassRuns(Exec(cap, Exec(cap, INIT, steps), more))
  {
    hide Inv, Runs, Exec, OnlyBypassRuns;
    var s := Exec(cap, INIT, steps);
    Start(cap);
    RunKeeps(cap, INIT, steps);
    ZeroMeansIdle(cap, s);
    DrainStays(cap, s, more);
  }

  // ----- the module state and its operations -----

  class Gate {
    const cap: nat
    var slots: map<Key, nat>
    var inFlight: nat
    var shutdown: bool

    constructor (cap: int)
      ensures this.cap == if cap > 0 then cap else 0
      ensures slots == map[] && inFlight == 0 && !shutdown
    {
      this.cap := if cap > 0 then cap else 0;
      slots, inFlight, shutdown := map[], 0, false;
    }

    method TryAcquire(k: Key) returns (ok: bool)
      modifies this`slots
      ensures ok == MayAcquire(cap, old(slots), k)
      ensures slots == if ok then Acquired(cap, old(slots), k) else old(slots)
    {
      if cap == 0 {
        return true;
      }
      var available := if k in slots then slots[k] else cap;
      if available == 0 {
        return false;
      }
      if k !in slots && |slots| >= MAX_TRACKED_KEYS {
        return false;
      }
      slots := slots[k := available - 1];
      return true;
    }

    method Release(k: Key)
      modifies this`slots
      ensures slots == Released(cap, old(slots), k)
    {
      if cap == 0 || k !in slots {
        return;
      }
      var available := if slots[k] + 1 < cap then slots[k] + 1 else cap;
      if available >= cap {
        slots := slots - {k};
      } else {
        slots := slots[k := available];
      }
    }

    ghost predicate Mirrors(s: State)
      reads this
    {
      slots == s.slots && inFlight == s.inFlight && shutdown == s.shutdown
    }

    method BeginShutdown(ghost s: State) returns (ghost t: State)
      requires Mirrors(s)
      modifies this`shutdown
      ensures t == Apply(cap, s, Shutdown) && Mirrors(t)
    {
      t := Apply(cap, s, Shutdown);
      shutdown := true;
    }

    /** The middleware up to the call of the handler. */
    method Admit(path: string, key: Option<Key>, ghost s: State) returns (phase: Phase, ghost t: State)
      requires Mirrors(s)
      modifies this
      ensures t == Apply(cap, s, Arrive(Bypassed(path), key)) && Mirrors(t)
      ensures t.requests == s.requests + [Request(Bypassed(path), key, phase)]
    {
      t := Apply(cap, s, Arrive(Bypassed(path), key));
      var bypass := IsBypassed(path);
      if bypass {
        inFlight := inFlight + 1;
        return Running(false), t;
      }
      if shutdown {
        return Refused(503), t;
      }
      var acquired := false;
      if key.Some? {
        acquired := TryAcquire(key.value);
        if !acquired {
          return Refused(429), t;
        }
      }
      inFlight := inFlight + 1;
      return Running(acquired), t;
    }

    /** The middleware after the handler, however it ended. */
    method Leave(key: Option<Key>, acquired: bool, ghost s: State, ghost i: nat) returns (ghost t: State)
      requires Mirrors(s) && i < |s.requests| && s.requests[i].key == key && s.requests[i].phase == Running(acquired)
      modifies this
      ensures t == Apply(cap, s, Finish(i)) && Mirrors(t)
    {
      t := Apply(cap, s, Finish(i));
      inFlight := if inFlight > 1 then inFlight - 1 else 0;
      if acquired && key.Some? {
        Release(key.value);
      }
    }
  }

  predicate Bypassed(path: string) {
    exists j :: 0 <= j < |BYPASS_PREFIXES| && BYPASS_PREFIXES[j] <= path
  }

  method IsBypassed(path: string) returns (r: bool)
    ensures r <==> Bypassed(path)
  {
    r := false;
    for j := 0 to |BYPASS_PREFIXES|
      invariant r <==> exists l :: 0 <= l < j && BYPASS_PREFIXES[l] <= path
    {
      if BYPASS_PREFIXES[j] <= path {
        r := true;
      }
    }
  }

  /** What one poll of the drain loop reads: the gauge, and the time that is left. */
  datatype Poll = Poll(inFlight: nat, remaining: int)

  ghost predicate Leads(cap: nat, s: State, t: State) {
    exists steps :: Runs(cap, s, steps) && Exec(cap, s, steps) == t
  }

  /** Successive states of one run. */
  ghost predicate Trace(cap: nat, states: seq<State>) {
    && (states != [] ==> Leads(cap, INIT, states[0]))
    && forall j :: 0 < j < |states| ==> Leads(cap, states[j - 1], states[j])
  }

  lemma {:induction false} TraceKeeps(cap: nat, states: seq<State>, j: nat)
    requires Trace(cap, states) && j < |states|
    ensures Inv(cap, states[j])
  {
    hide Inv, Runs, Exec;
    Start(cap);
    var s := if j == 0 then INIT else states[j - 1];
    if j > 0 {
      TraceKeeps(cap, states, j - 1);
    }
    assert Leads(cap, s, states[j]);
    var steps :| Runs(cap, s, steps) && Exec(cap, s, steps) == states[j];
    RunKeeps(cap, s, steps);
  }

  /** In `s`, and after any further steps, only handlers of bypass paths run. */
  ghost predicate Drained(cap: nat, s: State) {
    forall more :: Runs(cap, s, more) ==> OnlyBypassRuns(Exec(cap, s, more))
  }

  lemma IdleIsDrained(cap: nat, s: State)
    requires Inv(cap, s) && s.shutdown && s.inFlight == 0
    ensures Drained(cap, s)
  {
    hide Inv, Runs, Exec, OnlyBypassRuns;
    ZeroMeansIdle(cap, s);
    forall more | Runs(cap, s, more) ensures OnlyBypassRuns(Exec(cap, s, more)) {
      DrainStays(cap, s, more);
    }
  }

  /**
    `wait_for_drain`: each poll reads the gauge of the state that the run has reached, and the clock
    reaches the deadline at some poll. It returns True exactly when some poll before that reads
    zero; and if shutdown had begun by then, no handler but those of bypass paths runs any more, then
    or after any further steps.
   */
  method WaitForDrain(polls: seq<Poll>, ghost cap: nat, ghost states: seq<State>) returns (drained: bool, last: nat)
    requires exists j :: 0 <= j < |polls| && polls[j].remaining <= 0
    requires Trace(cap, states) && |states| == |polls|
    requires forall j :: 0 <= j < |polls| ==> polls[j].inFlight == states[j].inFlight
    ensures last < |polls| && drained == (polls[last].inFlight == 0)
    ensures forall j :: 0 <= j < last ==> polls[j].inFlight > 0 && polls[j].remaining > 0
    ensures !drained ==> polls[last].remaining <= 0
    ensures drained ==> RunningSet(states[last].requests) == {}
    ensures drained && states[last].shutdown ==> Drained(cap, states[last])
  {
    hide Inv, Trace, Drained, RunningSet;
    last := 0;
    while last < |polls| && polls[last].inFlight > 0
      invariant last <= |polls|
      invariant forall j :: 0 <= j < last ==> polls[j].inFlight > 0 && polls[j].remaining > 0
    {
      if polls[last].remaining <= 0 {
        return false, last;
      }
      last := last + 1;
    }
    drained := true;
    TraceKeeps(cap, states, last);
    ZeroMeansIdle(cap, states[last]);
    if states[last].shutdown {
      IdleIsDrained(cap, states[last]);
    }
  }

  lemma Start(cap: nat)
    ensures Inv(cap, INIT)
  {
    assert RunningSet([]) == {};
    forall k ensures Tracks(cap, map[], k, |Holders([], k)|) {
      assert Holders([], k) == {};
    }
  }
}
