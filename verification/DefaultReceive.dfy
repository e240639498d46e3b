/**
  The default receive offer of an API key (app/api/bolt12.py) under the partial unique index
  of alembic/versions/012_bolt12_default_receive.py: any number of get, configure,
  set-default and disable requests by any number of keys, interleaved statement by
  statement. A request writes only the columns that it has changed since it loaded the row.
 */
module DefaultReceive {
  import opened Common
  import Text

  type Key = string

  datatype Offer = Offer(key: Key, description: string, issued: bool, active: bool, isDefault: bool, deleted: bool)

  const DEFAULT_DESCRIPTION := "Receive offer (configure for your payer)"
  const MAX_DESCRIPTION := 640

  function Strip(s: string): string {
    Text.RStrip(Text.LStrip(s))
  }

  predicate ValidDescription(s: string) {
    0 < |Strip(s)| <= MAX_DESCRIPTION
  }

  predicate LiveDefault(o: Offer, k: Key) {
    o.key == k && o.isDefault && !o.deleted
  }

  /** The partial unique index. */
  ghost predicate Index(offers: seq<Offer>) {
    forall i, j, k ::
      0 <= i < |offers| && 0 <= j < |offers| && LiveDefault(offers[i], k) && LiveDefault(offers[j], k) ==> i == j
  }

  /** The first live default of a key among the offers from `i` on. */
  function FindDefault(offers: seq<Offer>, k: Key, i: nat): (r: Option<nat>)
    requires i <= |offers|
    ensures r.Some? ==> r.value < |offers| && LiveDefault(offers[r.value], k)
    ensures r.None? ==> forall j :: i <= j < |offers| ==> !LiveDefault(offers[j], k)
    decreases |offers| - i
  {
    if i == |offers| then None else if LiveDefault(offers[i], k) then Some(i) else FindDefault(offers, k, i + 1)
  }

  function DefaultOf(offers: seq<Offer>, k: Key): Option<nat> {
    FindDefault(offers, k, 0)
  }

  /** The rows that a demotion reaches: every flagged one of the key, deleted or not. */
  function Flagged(offers: seq<Offer>, k: Key): set<nat> {
    set i: nat | i < |offers| && offers[i].key == k && offers[i].isDefault
  }

  function Demoted(offers: seq<Offer>, rows: set<nat>): seq<Offer> {
    seq(|offers|, i requires 0 <= i < |offers| => if i in rows then offers[i].(isDefault := false) else offers[i])
  }

  function Minted(k: Key, description: string): Offer {
    Offer(k, description, true, true, true, false)
  }

  // ----- the machine -----

  datatype Request =
    | Get(key: Key)
    | Configure(key: Key, description: string)
    | SetDefault(key: Key, id: nat)
    | Disable(key: Key, id: nat)

  datatype Reply = Ok(id: nat) | Done | Error(status: nat)

  datatype Phase =
    | Started
    | Reviving(row: nat)
    | Minting
    | Lost
    | Demoting(rows: set<nat>)
    | Loaded(wasDefault: bool, wasActive: bool)
    | Promoting(wasDefault: bool, wasActive: bool, rows: set<nat>)
    | Ended(reply: Reply)

  datatype Tx = Tx(request: Request, phase: Phase)

  datatype State = State(offers: seq<Offer>, txs: seq<Tx>)

  const INIT := State([], [])

  datatype Step = Begin(request: Request) | Next(i: nat)

  predicate Enabled(s: State, step: Step) {
    step.Next? ==> step.i < |s.txs| && !s.txs[step.i].phase.Ended?
  }

  /** What the next statement of a request does: its new phase, and the table it leaves. */
  datatype Effect = Effect(phase: Phase, offers: seq<Offer>)

  /** Commit if the index allows it; otherwise nothing is written. */
  ghost function Commit(offers: seq<Offer>, candidate: seq<Offer>, success: Phase, failure: Phase): Effect {
    if Index(candidate) then Effect(success, candidate) else Effect(failure, offers)
  }

  ghost function GetNext(offers: seq<Offer>, k: Key, phase: Phase): Effect {
    var existing := DefaultOf(offers, k);
    match phase
    case Started =>
      Effect(if existing.None? then Minting
             else if offers[existing.value].active then Ended(Ok(existing.value))
             else Reviving(existing.value), offers)
    case Reviving(j) =>
      Effect(Ended(Ok(j)), if j < |offers| then offers[j := offers[j].(active := true)] else offers)
    case Minting => Commit(offers, offers + [Minted(k, DEFAULT_DESCRIPTION)], Ended(Ok(|offers|)), Lost)
    case _ => Effect(Ended(if existing.Some? then Ok(existing.value) else Error(500)), offers)
  }

  ghost function ConfigureNext(offers: seq<Offer>, k: Key, description: string, phase: Phase): Effect {
    match phase
    case Demoting(rows) =>
      Commit(offers, Demoted(offers, rows) + [Minted(k, Strip(description))], Ended(Ok(|offers|)), Ended(Error(409)))
    case _ => Effect(if ValidDescription(description) then Demoting(Flagged(offers, k)) else Ended(Error(422)), offers)
  }

  /** The row is there, and is the caller's. */
  predicate Owned(offers: seq<Offer>, k: Key, id: nat) {
    id < |offers| && !offers[id].deleted && offers[id].key == k
  }

  function Promoted(offers: seq<Offer>, id: nat, wasDefault: bool, wasActive: bool, rows: set<nat>): seq<Offer>
    requires id < |offers|
  {
    var d := Demoted(offers, rows);
    d[id := d[id].(isDefault := if wasDefault then d[id].isDefault else true, active := if wasActive then d[id].active else true)]
  }

  ghost function SetDefaultNext(offers: seq<Offer>, k: Key, id: nat, phase: Phase): Effect {
    if !Owned(offers, k, id) then Effect(Ended(Error(404)), offers)
    else
      match phase
      case Loaded(wasDefault, wasActive) => Effect(Promoting(wasDefault, wasActive, Flagged(offers, k) - {id}), offers)
      case Promoting(wasDefault, wasActive, rows) =>
        Commit(offers, Promoted(offers, id, wasDefault, wasActive, rows), Ended(Ok(id)), Ended(Error(500)))
      case _ =>
        Effect(if offers[id].issued then Loaded(offers[id].isDefault, offers[id].active) else Ended(Error(400)), offers)
  }

  function Disabled(o: Offer, wasDefault: bool, wasActive: bool): Offer {
    o.(active := if wasActive then false else o.active, isDefault := if wasDefault then false else o.isDefault)
  }

  ghost function DisableNext(offers: seq<Offer>, k: Key, id: nat, phase: Phase): Effect {
    if !Owned(offers, k, id) then Effect(Ended(Error(404)), offers)
    else
      match phase
      case Loaded(wasDefault, wasActive) => Effect(Ended(Done), offers[id := Disabled(offers[id], wasDefault, wasActive)])
      case _ => Effect(Loaded(offers[id].isDefault, offers[id].active), offers)
  }

  ghost function NextOf(offers: seq<Offer>, tx: Tx): Effect {
    match tx.request
    case Get(k) => GetNext(offers, k, tx.phase)
    case Configure(k, description) => ConfigureNext(offers, k, description, tx.phase)
    case SetDefault(k, id) => SetDefaultNext(offers, k, id, tx.phase)
    case Disable(k, id) => DisableNext(offers, k, id, tx.phase)
  }

  ghost function Apply(s: State, step: Step): State
    requires Enabled(s, step)
  {
    match step
    case Begin(request) => s.(txs := s.txs + [Tx(request, Started)])
    case Next(i) =>
      var e := NextOf(s.offers, s.txs[i]);
      State(e.offers, s.txs[i := s.txs[i].(phase := e.phase)])
  }

  ghost predicate Runs(s: State, steps: seq<Step>)
    decreases |steps|
  {
    steps == [] || (Enabled(s, steps[0]) && Runs(Apply(s, steps[0]), steps[1..]))
  }

  ghost function Exec(s: State, steps: seq<Step>): State
    requires Runs(s, steps)
    decreases |steps|
  {
    if steps == [] then s else Exec(Apply(s, steps[0]), steps[1..])
  }

  // ----- what every step keeps -----

  /** The same offer but for its flag and its status. */
  predicate SameOffer(a: Offer, b: Offer) {
    a.(active := false, isDefault := false) == b.(active := false, isDefault := false)
  }

  /** From `a` to `b` no offer is lost, none changes but in flag and status, and none of another key changes or appears. */
  ghost predicate Extends(a: seq<Offer>, b: seq<Offer>, k: Key) {
    && |a| <= |b|
    && (forall j :: 0 <= j < |a| ==> SameOffer(a[j], b[j]) && (a[j].key != k ==> a[j] == b[j]))
    && (forall j :: |a| <= j < |b| ==> b[j].key == k)
  }

  predicate OwnRows(offers: seq<Offer>, k: Key, rows: set<nat>) {
    forall j :: j in rows ==> j < |offers| && offers[j].key == k
  }

  /** What a request has read of the table is about its own rows. */
  predicate TxOk(offers: seq<Offer>, tx: Tx) {
    && (tx.phase.Reviving? ==> OwnRows(offers, tx.request.key, {tx.phase.row}))
    && (tx.phase.Demoting? ==> OwnRows(offers, tx.request.key, tx.phase.rows))
    && (tx.phase.Promoting? ==> OwnRows(offers, tx.request.key, tx.phase.rows))
    && (tx.request.SetDefault? && tx.phase.Promoting? ==> tx.request.id !in tx.phase.rows)
    && ((tx.request.SetDefault? || tx.request.Disable?) && (tx.phase.Loaded? || tx.phase.Promoting?) ==>
          Owned(offers, tx.request.key, tx.request.id))
  }

  ghost predicate Inv(s: State) {
    Index(s.offers) && forall i :: 0 <= i < |s.txs| ==> TxOk(s.offers, s.txs[i])
  }

  /** The index holds after a statement, and only the caller's offers change. */
  ghost predicate Keeps(offers: seq<Offer>, tx: Tx) {
    var e := NextOf(offers, tx);
    Index(e.offers) && Extends(offers, e.offers, tx.request.key) && TxOk(e.offers, tx.(phase := e.phase))
  }

  lemma GetKeeps(offers: seq<Offer>, tx: Tx)
    requires Index(offers) && TxOk(offers, tx) && tx.request.Get?
    ensures Keeps(offers, tx)
  {
  }

  lemma ConfigureKeeps(offers: seq<Offer>, tx: Tx)
    requires Index(offers) && TxOk(offers, tx) && tx.request.Configure?
    ensures Keeps(offers, tx)
  {
    hide Strip, ValidDescription, FindDefault;
  }

  lemma SetDefaultKeeps(offers: seq<Offer>, tx: Tx)
    requires Index(offers) && TxOk(offers, tx) && tx.request.SetDefault?
    ensures Keeps(offers, tx)
  {
    hide FindDefault;
  }

  lemma DisableKeeps(offers: seq<Offer>, tx: Tx)
    requires Index(offers) && TxOk(offers, tx) && tx.request.Disable?
    ensures Keeps(offers, tx)
  {
    hide FindDefault;
  }

  lemma NextKeeps(offers: seq<Offer>, tx: Tx)
    requires Index(offers) && TxOk(offers, tx)
    ensures Keeps(offers, tx)
  {
    hide Keeps, Index, TxOk;
    match tx.request
    case Get(_) => GetKeeps(offers, tx);
    case Configure(_, _) => ConfigureKeeps(offers, tx);
    case SetDefault(_, _) => SetDefaultKeeps(offers, tx);
    case Disable(_, _) => DisableKeeps(offers, tx);
  }

  lemma TxStays(a: seq<Offer>, b: seq<Offer>, k: Key, tx: Tx)
    requires TxOk(a, tx) && Extends(a, b, k)
    ensures TxOk(b, tx)
  {
  }

  lemma StepKeeps(s: State, step: Step)
    requires Inv(s) && Enabled(s, step)
    ensures Inv(Apply(s, step))
    ensures step.Next? ==> Extends(s.offers, Apply(s, step).offers, s.txs[step.i].request.key)
    ensures step.Begin? ==> Apply(s, step).offers == s.offers
  {
    hide NextOf, Index, TxOk, Extends;
    if step.Next? {
      var t := Apply(s, step);
      NextKeeps(s.offers, s.txs[step.i]);
      forall i | 0 <= i < |t.txs| ensures TxOk(t.offers, t.txs[i]) {
        if i != step.i {
          TxStays(s.offers, t.offers, s.txs[step.i].request.key, s.txs[i]);
        }
      }
    } else {
      Unstarted(s.offers, step.request);
    }
  }

  lemma Unstarted(offers: seq<Offer>, request: Request)
    ensures TxOk(offers, Tx(request, Started))
  {
  }

  lemma {:induction false} RunKeeps(s: State, steps: seq<Step>)
    requires Inv(s) && Runs(s, steps)
    ensures Inv(Exec(s, steps))
    decreases |steps|
  {
    hide Inv, Enabled, Apply;
    if steps != [] {
      StepKeeps(s, steps[0]);
      RunKeeps(Apply(s, steps[0]), steps[1..]);
    }
  }

  // ----- main results -----

  /** In every interleaving each key has at most one live default. */
  lemma OneDefault(steps: seq<Step>)
    requires Runs(INIT, steps)
    ensures Index(Exec(INIT, steps).offers)
  {
    hide Runs, Exec;
    RunKeeps(INIT, steps);
  }

  /** A request that has not ended, or has ended in an error, has changed nothing with this statement. */
  lemma FailureChangesNothing(offers: seq<Offer>, tx: Tx)
    requires !tx.phase.Ended?
    ensures var e := NextOf(offers, tx);
            !e.phase.Ended? || e.phase.reply.Error? ==> e.offers == offers
  {
    hide Index, Strip, ValidDescription, Flagged, FindDefault;
  }

  /**
    When get or configure succeeds, what it returns is the live default of its key then and
    there, except that a default that had to be revived may have been demoted since it was read.
   */
  lemma ReturnsDefault(offers: seq<Offer>, tx: Tx)
    requires (tx.request.Get? || tx.request.Configure?) && !tx.phase.Ended? && TxOk(offers, tx)
    requires tx.request.Get? ==> tx.phase.Started? || tx.phase.Reviving? || tx.phase.Minting? || tx.phase.Lost?
    ensures var e := NextOf(offers, tx);
            e.phase.Ended? && e.phase.reply.Ok? ==>
              && e.phase.reply.id < |e.offers|
              && (LiveDefault(e.offers[e.phase.reply.id], tx.request.key) <==>
                    tx.phase.Reviving? ==> LiveDefault(offers[tx.phase.row], tx.request.key))
  {
    hide Index, Strip, ValidDescription, Flagged;
  }

  /** Set-default returns the live default exactly unless it loaded the row as the default and the row was demoted since. */
  lemma PromotesExactly(offers: seq<Offer>, tx: Tx)
    requires tx.request.SetDefault? && tx.phase.Promoting? && TxOk(offers, tx)
    ensures var e := NextOf(offers, tx);
            e.phase.reply.Ok? ==>
              && e.phase.reply.id == tx.request.id < |e.offers|
              && (LiveDefault(e.offers[tx.request.id], tx.request.key) <==> !tx.phase.wasDefault || offers[tx.request.id].isDefault)
  {
    hide Index, Flagged;
  }

  /** A mint loses the race exactly when the key has a live default by then. */
  lemma LosesExactly(offers: seq<Offer>, k: Key)
    requires Index(offers)
    ensures GetNext(offers, k, Minting).phase.Lost? <==> DefaultOf(offers, k).Some?
  {
    var candidate := offers + [Minted(k, DEFAULT_DESCRIPTION)];
    assert LiveDefault(candidate[|offers|], k);
    if DefaultOf(offers, k).Some? {
      var j := DefaultOf(offers, k).value;
      assert candidate[j] == offers[j] && LiveDefault(candidate[j], k);
    }
  }

  /** Configure ends in a conflict exactly when the key has a live default that it did not demote. */
  lemma ConflictsExactly(offers: seq<Offer>, tx: Tx)
    requires Index(offers) && TxOk(offers, tx) && tx.request.Configure? && tx.phase.Demoting?
    ensures var current := DefaultOf(offers, tx.request.key);
            NextOf(offers, tx).phase == Ended(Error(409)) <==> current.Some? && current.value !in tx.phase.rows
  {
    hide Strip;
    var k, rows := tx.request.key, tx.phase.rows;
    var candidate := Demoted(offers, rows) + [Minted(k, Strip(tx.request.description))];
    assert LiveDefault(candidate[|offers|], k);
    forall j | 0 <= j < |offers| ensures forall l :: LiveDefault(candidate[j], l) <==> LiveDefault(offers[j], l) && j !in rows {
    }
    var current := DefaultOf(offers, k);
    if current.Some? && current.value !in rows {
      assert LiveDefault(candidate[current.value], k);
    }
  }

  /** Set-default fails exactly when it sets the flag and the key has another live default that it did not demote. */
  lemma FailsExactly(offers: seq<Offer>, tx: Tx)
    requires Index(offers) && TxOk(offers, tx) && tx.request.SetDefault? && tx.phase.Promoting?
    ensures var current := DefaultOf(offers, tx.request.key);
            NextOf(offers, tx).phase == Ended(Error(500)) <==>
              !tx.phase.wasDefault && current.Some? && current.value != tx.request.id && current.value !in tx.phase.rows
  {
    var k, id, rows := tx.request.key, tx.request.id, tx.phase.rows;
    var candidate := Promoted(offers, id, tx.phase.wasDefault, tx.phase.wasActive, rows);
    forall j | 0 <= j < |offers| && j != id
      ensures forall l :: LiveDefault(candidate[j], l) <==> LiveDefault(offers[j], l) && j !in rows
    {
    }
    assert forall l :: LiveDefault(candidate[id], l) <==> l == k && (!tx.phase.wasDefault || offers[id].isDefault);
    var current := DefaultOf(offers, k);
    if current.Some? && current.value != id && current.value !in rows {
      assert LiveDefault(candidate[current.value], k);
    }
  }

  // ----- keeping a default -----

  ghost predicate HasDefault(offers: seq<Offer>, k: Key) {
    exists j :: 0 <= j < |offers| && LiveDefault(offers[j], k)
  }

  /**
    The statements that take a key's default away: a disable that loaded the present default as the
    default, and a set-default that loaded its row as the default, finds it demoted since, and has
    demoted the present one.
   */
  predicate Drops(offers: seq<Offer>, tx: Tx, k: Key) {
    && tx.request.key == k
    && ((&& tx.request.Disable? && tx.phase.Loaded? && tx.phase.wasDefault
         && tx.request.id < |offers| && LiveDefault(offers[tx.request.id], k))
        || (&& tx.request.SetDefault? && tx.phase.Promoting? && tx.phase.wasDefault
            && tx.request.id < |offers| && !offers[tx.request.id].isDefault
            && DefaultOf(offers, k).Some? && DefaultOf(offers, k).value in tx.phase.rows))
  }

  /** The statements that give a default to a key without one. */
  predicate Gains(tx: Tx, k: Key) {
    && tx.request.key == k
    && ((tx.request.Get? && tx.phase.Minting?)
        || (tx.request.Configure? && tx.phase.Demoting?)
        || (tx.request.SetDefault? && tx.phase.Promoting? && !tx.phase.wasDefault))
  }

  /** Whether a key has a default after a statement. */
  predicate Keeping(offers: seq<Offer>, tx: Tx, k: Key, has: bool) {
    if has then !Drops(offers, tx, k) else Gains(tx, k)
  }

  lemma GetChanges(offers: seq<Offer>, tx: Tx)
    requires Index(offers) && TxOk(offers, tx) && !tx.phase.Ended? && tx.request.Get?
    ensures HasDefault(NextOf(offers, tx).offers, tx.request.key) <==>
              Keeping(offers, tx, tx.request.key, HasDefault(offers, tx.request.key))
  {
    hide Index;
    var k, b := tx.request.key, NextOf(offers, tx).offers;
    if tx.phase.Minting? {
      LosesExactly(offers, k);
      assert !HasDefault(offers, k) ==> LiveDefault(b[|offers|], k);
    } else {
      forall j | 0 <= j < |offers| ensures LiveDefault(b[j], k) <==> LiveDefault(offers[j], k) {
      }
    }
  }

  lemma ConfigureChanges(offers: seq<Offer>, tx: Tx)
    requires Index(offers) && TxOk(offers, tx) && !tx.phase.Ended? && tx.request.Configure?
    ensures HasDefault(NextOf(offers, tx).offers, tx.request.key) <==>
              Keeping(offers, tx, tx.request.key, HasDefault(offers, tx.request.key))
  {
    hide Index, Strip, ValidDescription;
    if tx.phase.Demoting? {
      ConflictsExactly(offers, tx);
      var e := NextOf(offers, tx);
      if e.phase == Ended(Error(409)) {
        assert LiveDefault(offers[DefaultOf(offers, tx.request.key).value], tx.request.key);
      } else {
        assert LiveDefault(e.offers[|offers|], tx.request.key);
      }
    }
  }

  lemma HasIffFound(offers: seq<Offer>, k: Key)
    ensures HasDefault(offers, k) <==> DefaultOf(offers, k).Some?
  {
    if DefaultOf(offers, k).Some? {
      assert LiveDefault(offers[DefaultOf(offers, k).value], k);
    }
  }

  /** After a promotion the default is the promoted row, if its flag is set, or a row that was spared. */
  lemma PromotedDefault(offers: seq<Offer>, k: Key, id: nat, wasDefault: bool, wasActive: bool, rows: set<nat>)
    requires Index(offers) && Owned(offers, k, id) && id !in rows
    ensures var current := DefaultOf(offers, k);
            HasDefault(Promoted(offers, id, wasDefault, wasActive, rows), k) <==>
              !wasDefault || offers[id].isDefault || (current.Some? && current.value !in rows)
  {
    var b, current := Promoted(offers, id, wasDefault, wasActive, rows), DefaultOf(offers, k);
    assert LiveDefault(b[id], k) <==> !wasDefault || offers[id].isDefault;
    forall j | 0 <= j < |offers| && j != id ensures LiveDefault(b[j], k) <==> LiveDefault(offers[j], k) && j !in rows {
    }
    if current.Some? && current.value !in rows {
      assert LiveDefault(b[current.value], k);
    }
    if HasDefault(b, k) {
      var j :| 0 <= j < |b| && LiveDefault(b[j], k);
      if j != id {
        assert LiveDefault(offers[j], k) && j !in rows;
        assert current.Some?;
        assert LiveDefault(offers[current.value], k);
      }
    }
  }

  lemma SetDefaultChanges(offers: seq<Offer>, tx: Tx)
    requires Index(offers) && TxOk(offers, tx) && !tx.phase.Ended? && tx.request.SetDefault?
    ensures HasDefault(NextOf(offers, tx).offers, tx.request.key) <==>
              Keeping(offers, tx, tx.request.key, HasDefault(offers, tx.request.key))
  {
    hide HasDefault, Promoted, Index, Flagged, FindDefault;
    var k, id := tx.request.key, tx.request.id;
    HasIffFound(offers, k);
    if tx.phase.Promoting? {
      FailsExactly(offers, tx);
      PromotedDefault(offers, k, id, tx.phase.wasDefault, tx.phase.wasActive, tx.phase.rows);
      OwnFlag(offers, k, id);
    }
  }

  /** A flagged row of the key is its default. */
  lemma OwnFlag(offers: seq<Offer>, k: Key, id: nat)
    requires Index(offers) && Owned(offers, k, id)
    ensures offers[id].isDefault <==> DefaultOf(offers, k) == Some(id)
  {
    if offers[id].isDefault {
      assert LiveDefault(offers[id], k);
      assert DefaultOf(offers, k).Some? && LiveDefault(offers[DefaultOf(offers, k).value], k);
    }
  }

  lemma DisableChanges(offers: seq<Offer>, tx: Tx)
    requires Index(offers) && TxOk(offers, tx) && !tx.phase.Ended? && tx.request.Disable?
    ensures HasDefault(NextOf(offers, tx).offers, tx.request.key) <==>
              Keeping(offers, tx, tx.request.key, HasDefault(offers, tx.request.key))
  {
    hide FindDefault;
    var k, id, b := tx.request.key, tx.request.id, NextOf(offers, tx).offers;
    forall j | 0 <= j < |offers| && j != id ensures LiveDefault(b[j], k) <==> LiveDefault(offers[j], k) {
    }
    if HasDefault(offers, k) {
      var j :| 0 <= j < |offers| && LiveDefault(offers[j], k);
      assert forall l :: 0 <= l < |offers| && LiveDefault(offers[l], k) ==> l == j;
      if j == id {
        assert LiveDefault(b[id], k) <==> !Drops(offers, tx, k);
        assert forall l :: 0 <= l < |b| && LiveDefault(b[l], k) ==> l == id;
      } else {
        assert LiveDefault(b[j], k) && !Drops(offers, tx, k);
      }
    }
  }

  /** Exactly when a statement leaves a key with a default, for every statement of every request and every key. */
  lemma DefaultExactly(offers: seq<Offer>, tx: Tx, k: Key)
    requires Index(offers) && TxOk(offers, tx) && !tx.phase.Ended?
    ensures HasDefault(NextOf(offers, tx).offers, k) <==> Keeping(offers, tx, k, HasDefault(offers, k))
  {
    hide Index, TxOk, NextOf, Keeping;
    if tx.request.key != k {
      NextKeeps(offers, tx);
      OthersDefault(offers, tx, k);
    } else {
      match tx.request
      case Get(_) => GetChanges(offers, tx);
      case Configure(_, _) => ConfigureChanges(offers, tx);
      case SetDefault(_, _) => SetDefaultChanges(offers, tx);
      case Disable(_, _) => DisableChanges(offers, tx);
    }
  }

  lemma OthersDefault(offers: seq<Offer>, tx: Tx, k: Key)
    requires Keeps(offers, tx) && tx.request.key != k
    ensures HasDefault(NextOf(offers, tx).offers, k) <==> Keeping(offers, tx, k, HasDefault(offers, k))
  {
    hide Index, TxOk, NextOf;
    var b := NextOf(offers, tx).offers;
    forall j | 0 <= j < |b| ensures LiveDefault(b[j], k) <==> j < |offers| && LiveDefault(offers[j], k) {
    }
  }

  /** Whether the key has a default after a run: the per-statement condition, step by step. */
  ghost predicate Tracked(s: State, steps: seq<Step>, k: Key, has: bool)
    requires Runs(s, steps)
    decreases |steps|
  {
    if steps == [] then has
    else Tracked(Apply(s, steps[0]), steps[1..], k,
                 if steps[0].Next? then Keeping(s.offers, s.txs[steps[0].i], k, has) else has)
  }

  /** Over every run: a key has a default exactly if it had one or gained one, and nothing dropped it since. */
  lemma {:induction false} DefaultOverRuns(s: State, steps: seq<Step>, k: Key)
    requires Inv(s) && Runs(s, steps)
    ensures HasDefault(Exec(s, steps).offers, k) <==> Tracked(s, steps, k, HasDefault(s.offers, k))
    decreases |steps|
  {
    hide HasDefault, Index, TxOk, NextOf, Keeping;
    if steps != [] {
      StepKeeps(s, steps[0]);
      if steps[0].Next? {
        DefaultExactly(s.offers, s.txs[steps[0].i], k);
      }
      DefaultOverRuns(Apply(s, steps[0]), steps[1..], k);
    }
  }

  /** Every request of this key is a get or a configure. */
  ghost predicate OnlyGetsAndConfigures(s: State, k: Key) {
    forall i :: 0 <= i < |s.txs| && s.txs[i].request.key == k ==> s.txs[i].request.Get? || s.txs[i].request.Configure?
  }

  /** So gets and configures alone, with failures and lost races, never leave a key that has a default without one. */
  lemma {:induction false} NoBlackHole(s: State, steps: seq<Step>, k: Key)
    requires Inv(s) && Runs(s, steps) && HasDefault(s.offers, k) && OnlyGetsAndConfigures(s, k)
    requires forall i :: 0 <= i < |steps| && steps[i].Begin? && steps[i].request.key == k ==>
               steps[i].request.Get? || steps[i].request.Configure?
    ensures HasDefault(Exec(s, steps).offers, k)
    decreases |steps|
  {
    hide HasDefault, Index, TxOk, NextOf;
    if steps != [] {
      StepKeeps(s, steps[0]);
      if steps[0].Next? {
        DefaultExactly(s.offers, s.txs[steps[0].i], k);
      }
      assert forall i :: 0 <= i < |steps[1..]| ==> steps[1..][i] == steps[i + 1];
      NoBlackHole(Apply(s, steps[0]), steps[1..], k);
    }
  }

  /** No step of `steps` is taken by a request of this key. */
  ghost predicate Avoids(s: State, steps: seq<Step>, k: Key)
    requires Runs(s, steps)
    decreases |steps|
  {
    steps == []
    || ((steps[0].Next? ==> s.txs[steps[0].i].request.key != k) && Avoids(Apply(s, steps[0]), steps[1..], k))
  }

  /** From `a` to `b` every offer is still there, and those of this key are exactly as they were. */
  ghost predicate Untouched(a: seq<Offer>, b: seq<Offer>, k: Key) {
    && |a| <= |b|
    && (forall j :: 0 <= j < |a| ==> SameOffer(a[j], b[j]) && (a[j].key == k ==> a[j] == b[j]))
    && (forall j :: |a| <= j < |b| ==> b[j].key != k)
  }

  lemma Onwards(a: seq<Offer>, b: seq<Offer>, c: seq<Offer>, k: Key)
    requires Untouched(a, b, k) && Untouched(b, c, k)
    ensures Untouched(a, c, k)
  {
  }

  /** Whatever other keys do, and however long, a key's offers stay as they are; and no offer is ever lost. */
  lemma {:induction false} OthersUntouched(s: State, steps: seq<Step>, k: Key)
    requires Inv(s) && Runs(s, steps) && Avoids(s, steps, k)
    ensures Untouched(s.offers, Exec(s, steps).offers, k)
    decreases |steps|
  {
    hide Inv, Apply, TxOk, Index;
    if steps != [] {
      var t := Apply(s, steps[0]);
      StepKeeps(s, steps[0]);
      assert Untouched(s.offers, t.offers, k);
      OthersUntouched(t, steps[1..], k);
      Onwards(s.offers, t.offers, Exec(t, steps[1..]).offers, k);
    }
  }

  // ----- reachable states -----

  ghost predicate Reaches(s: State, t: State) {
    exists steps :: Runs(s, steps) && Exec(s, steps) == t
  }

  lemma {:induction false} RunsOn(s: State, steps: seq<Step>, step: Step)
    requires Runs(s, steps) && Enabled(Exec(s, steps), step)
    ensures Runs(s, steps + [step]) && Exec(s, steps + [step]) == Apply(Exec(s, steps), step)
    decreases |steps|
  {
    hide Apply, Enabled;
    var more := steps + [step];
    if steps == [] {
      assert more == [step] && more[1..] == [];
      assert Runs(Apply(s, step), []);
    } else {
      assert more[1..] == steps[1..] + [step];
      RunsOn(Apply(s, steps[0]), steps[1..], step);
    }
  }

  lemma Stays(s: State)
    ensures Reaches(s, s)
  {
    assert Runs(s, []) && Exec(s, []) == s;
  }

  lemma Goes(s: State, t: State, step: Step) returns (u: State)
    requires Reaches(s, t) && Enabled(t, step)
    ensures u == Apply(t, step) && Reaches(s, u)
  {
    hide Apply, Enabled, Runs, Exec;
    var steps :| Runs(s, steps) && Exec(s, steps) == t;
    RunsOn(s, steps, step);
    u := Apply(t, step);
  }

  /** A request that begins and takes its first statement. */
  lemma Begins(s: State, t: State, request: Request) returns (u: State)
    requires Reaches(s, t)
    ensures var e := NextOf(t.offers, Tx(request, Started));
            Reaches(s, u) && u == State(e.offers, t.txs + [Tx(request, e.phase)])
  {
    hide Reaches, NextOf;
    u := Goes(s, t, Begin(request));
    u := Goes(s, u, Next(|t.txs|));
  }

  /** The next statement of the last request. */
  lemma Continues(s: State, t: State, i: nat) returns (u: State)
    requires Reaches(s, t) && i < |t.txs| && !t.txs[i].phase.Ended?
    ensures var e := NextOf(t.offers, t.txs[i]);
            Reaches(s, u) && u == State(e.offers, t.txs[i := t.txs[i].(phase := e.phase)])
  {
    hide Reaches, NextOf;
    u := Goes(s, t, Next(i));
  }

  /** The key's first offer, demoted, and the one that replaced it. */
  function Replaced(k: Key): seq<Offer> {
    [Minted(k, DEFAULT_DESCRIPTION).(isDefault := false), Minted(k, Strip("x"))]
  }

  /** A set-default of the present default, overtaken by a configure. */
  lemma Overtaken(k: Key) returns (s: State)
    ensures Reaches(INIT, s) && |s.txs| == 3 && s.txs[1] == Tx(SetDefault(k, 0), Loaded(true, true))
    ensures s.offers == Replaced(k)
  {
    hide Reaches, Strip;
    s := Gotten(k);
    s := Begins(INIT, s, SetDefault(k, 0));
    assert s.txs[1] == Tx(SetDefault(k, 0), Loaded(true, true));
    Describes();
    s := Begins(INIT, s, Configure(k, "x"));
    assert s.txs[2].phase == Demoting({0});
    s := Continues(INIT, s, 2);
  }

  /** It ends well, and leaves the key with no default at all. */
  lemma StaleSetDefault(k: Key) returns (s: State)
    ensures Reaches(INIT, s) && |s.txs| == 3 && s.txs[1] == Tx(SetDefault(k, 0), Ended(Ok(0)))
    ensures DefaultOf(s.offers, k).None?
  {
    hide Reaches, Strip;
    s := Overtaken(k);
    s := Continues(INIT, s, 1);
    assert s.txs[1].phase == Promoting(true, true, {1});
    s := Continues(INIT, s, 1);
    assert s.offers == [Replaced(k)[0], Replaced(k)[1].(isDefault := false)];
  }

  /** A default that is disabled: a disable that loaded the row before it was promoted again. */
  lemma DisabledDefault(k: Key) returns (s: State)
    ensures Reaches(INIT, s) && |s.txs| == 4
    ensures s.offers == [Minted(k, DEFAULT_DESCRIPTION).(active := false), Minted(k, Strip("x")).(isDefault := false)]
  {
    hide Reaches, Strip;
    s := Configured(k);
    s := Begins(INIT, s, Disable(k, 0));
    assert s.txs[2] == Tx(Disable(k, 0), Loaded(false, true));
    s := Begins(INIT, s, SetDefault(k, 0));
    assert s.txs[3].phase == Loaded(false, true);
    s := Continues(INIT, s, 3);
    assert s.txs[3].phase == Promoting(false, true, {1});
    s := Continues(INIT, s, 3);
    assert s.offers == [Minted(k, DEFAULT_DESCRIPTION), Minted(k, Strip("x")).(isDefault := false)];
    s := Continues(INIT, s, 2);
  }

  /** A get. */
  lemma Gotten(k: Key) returns (s: State)
    ensures Reaches(INIT, s) && s == State([Minted(k, DEFAULT_DESCRIPTION)], [Tx(Get(k), Ended(Ok(0)))])
  {
    hide Reaches, Strip;
    Stays(INIT);
    s := Begins(INIT, INIT, Get(k));
    assert s == State([], [Tx(Get(k), Minting)]);
    s := Continues(INIT, s, 0);
  }

  /** And a configure. */
  lemma Configured(k: Key) returns (s: State)
    ensures Reaches(INIT, s) && |s.txs| == 2 && s.offers == Replaced(k)
  {
    hide Reaches, Strip;
    s := Gotten(k);
    Describes();
    s := Begins(INIT, s, Configure(k, "x"));
    assert s.txs[1].phase == Demoting({0});
    s := Continues(INIT, s, 1);
  }

  /** A get that revives such a default, overtaken by a configure, returns an offer that is not the default. */
  lemma StaleRevival(k: Key) returns (s: State)
    ensures Reaches(INIT, s) && |s.txs| == 6 && s.txs[4] == Tx(Get(k), Ended(Ok(0)))
    ensures |s.offers| == 3 && !LiveDefault(s.offers[0], k) && LiveDefault(s.offers[2], k)
  {
    hide Reaches, Strip;
    s := DisabledDefault(k);
    var first, second := s.offers[0], s.offers[1];
    s := Begins(INIT, s, Get(k));
    assert s.txs[4] == Tx(Get(k), Reviving(0));
    Describes();
    s := Begins(INIT, s, Configure(k, "x"));
    assert s.txs[5].phase == Demoting({0});
    s := Continues(INIT, s, 5);
    assert s.offers == [first.(isDefault := false), second, Minted(k, Strip("x"))];
    s := Continues(INIT, s, 4);
  }

  lemma Describes()
    ensures ValidDescription("x")
  {
    assert Text.LStrip("x") == "x" && Text.RStrip("x") == "x";
  }

  // ----- the handlers -----

  /** The request, run alone from `s`, has ended in `t` with this reply. */
  ghost predicate Serves(s: State, t: State, request: Request, reply: Reply) {
    Reaches(s, t) && t.txs == s.txs + [Tx(request, Ended(reply))]
  }

  lemma ConfigureCommits(offers: seq<Offer>, k: Key, description: string)
    requires Index(offers)
    ensures Index(Demoted(offers, Flagged(offers, k)) + [Minted(k, description)])
  {
    var b := Demoted(offers, Flagged(offers, k)) + [Minted(k, description)];
    forall j | 0 <= j < |offers| ensures !LiveDefault(b[j], k) && forall l :: l != k && LiveDefault(b[j], l) ==> LiveDefault(offers[j], l) {
    }
  }

  lemma PromoteCommits(offers: seq<Offer>, k: Key, id: nat)
    requires Index(offers) && Owned(offers, k, id)
    ensures Index(Promoted(offers, id, offers[id].isDefault, offers[id].active, Flagged(offers, k) - {id}))
  {
    var b := Promoted(offers, id, offers[id].isDefault, offers[id].active, Flagged(offers, k) - {id});
    forall j | 0 <= j < |offers| && j != id
      ensures !LiveDefault(b[j], k) && forall l :: l != k && LiveDefault(b[j], l) ==> LiveDefault(offers[j], l)
    {
    }
  }

  class OfferTable {
    var offers: seq<Offer>

    constructor ()
      ensures offers == []
    {
      offers := [];
    }

    /** `_get_or_create_default_receive` */
    method GetOrCreate(k: Key, ghost s: State) returns (id: nat, ghost t: State)
      requires offers == s.offers && Index(offers)
      modifies this
      ensures offers == t.offers && Serves(s, t, Get(k), Ok(id))
      ensures id < |offers| && LiveDefault(offers[id], k) && offers[id].active
    {
      hide Reaches, Index;
      Stays(s);
      t := Begins(s, s, Get(k));
      var existing := DefaultOf(offers, k);
      if existing.Some? {
        id := existing.value;
        if !offers[id].active {
          t := Continues(s, t, |s.txs|);
          offers := offers[id := offers[id].(active := true)];
        }
        return;
      }
      LosesExactly(offers, k);
      t := Continues(s, t, |s.txs|);
      id := |offers|;
      offers := offers + [Minted(k, DEFAULT_DESCRIPTION)];
    }

    /** `_reconfigure_default_receive` */
    method Reconfigure(k: Key, description: string, ghost s: State) returns (reply: Reply, ghost t: State)
      requires offers == s.offers && Index(offers)
      modifies this
      ensures offers == t.offers && Serves(s, t, Configure(k, description), reply)
      ensures if ValidDescription(description)
              then reply == Ok(|old(offers)|) && |offers| == |old(offers)| + 1 && LiveDefault(offers[reply.id], k)
                   && offers[reply.id].active && offers[reply.id].description == Strip(description)
              else reply == Error(422) && offers == old(offers)
    {
      hide Reaches, Index, Strip, FindDefault;
      Stays(s);
      t := Begins(s, s, Configure(k, description));
      var stripped := Strip(description);
      if stripped == "" {
        return Error(422), t;
      }
      if |stripped| > MAX_DESCRIPTION {
        return Error(422), t;
      }
      ConfigureCommits(offers, k, stripped);
      t := Continues(s, t, |s.txs|);
      reply := Ok(|offers|);
      offers := Demoted(offers, Flagged(offers, k)) + [Minted(k, stripped)];
    }

    /** `_set_default_receive` */
    method SetDefaultReceive(k: Key, id: nat, ghost s: State) returns (reply: Reply, ghost t: State)
      requires offers == s.offers && Index(offers)
      modifies this
      ensures offers == t.offers && Serves(s, t, SetDefault(k, id), reply)
      ensures reply == if !Owned(old(offers), k, id) then Error(404) else if !old(offers)[id].issued then Error(400) else Ok(id)
      ensures if reply.Ok? then |offers| == |old(offers)| && LiveDefault(offers[id], k) && offers[id].active else offers == old(offers)
    {
      hide Reaches, Index, FindDefault;
      Stays(s);
      t := Begins(s, s, SetDefault(k, id));
      if id >= |offers| || offers[id].deleted || offers[id].key != k {
        return Error(404), t;
      }
      if !offers[id].issued {
        return Error(400), t;
      }
      t := Continues(s, t, |s.txs|);
      PromoteCommits(offers, k, id);
      t := Continues(s, t, |s.txs|);
      var demoted := Demoted(offers, Flagged(offers, k) - {id});
      offers := demoted[id := demoted[id].(isDefault := true, active := true)];
      reply := Ok(id);
    }

    /** `disable_offer` */
    method DisableOffer(k: Key, id: nat, ghost s: State) returns (reply: Reply, ghost t: State)
      requires offers == s.offers && Index(offers)
      modifies this
      ensures offers == t.offers && Serves(s, t, Disable(k, id), reply)
      ensures reply == if Owned(old(offers), k, id) then Done else Error(404)
      ensures if reply.Done? then |offers| == |old(offers)| && !offers[id].active && !offers[id].isDefault else offers == old(offers)
      ensures reply.Done? && DefaultOf(old(offers), k) == Some(id) ==> DefaultOf(offers, k).None?
    {
      hide Reaches, FindDefault;
      Stays(s);
      t := Begins(s, s, Disable(k, id));
      if id >= |offers| || offers[id].deleted || offers[id].key != k {
        return Error(404), t;
      }
      t := Continues(s, t, |s.txs|);
      offers := offers[id := offers[id].(active := false, isDefault := false)];
      reply := Done;
    }
  }
}
