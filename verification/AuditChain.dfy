/**
  Re-anchoring the audit hash chain (alembic/versions/044_audit_chain_keyed_hmac.py and its
  unkeyed twin 008). The hash, with its key, is a function of the canonical JSON document;
  the results about equal hashes take it to be free of collisions and never empty.
 */
module AuditChain {
  import opened Common

  /** A timestamp as the driver returns it: microseconds of wall clock, and the UTC offset if it has one. */
  datatype Stamp = Naive(micros: int) | Aware(micros: int, offset: int)

  /** The instant that is written out: naive means UTC. */
  function Instant(stamp: Stamp): int {
    match stamp
    case Naive(m) => m
    case Aware(m, offset) => m - offset
  }

  datatype Fields = Fields(
    apiKeyId: string, apiKeyName: string, action: string, resource: string, details: Option<string>,
    amountSats: Option<int>, success: bool, errorMessage: Option<string>, ipAddress: Option<string>)

  datatype Row = Row(id: int, fields: Fields, createdAt: Option<Stamp>)

  function InstantOf(row: Row): Option<int> {
    if row.createdAt.Some? then Some(Instant(row.createdAt.value)) else None
  }

  /** A row up to how its timestamp is represented. */
  datatype Normal = Normal(id: int, fields: Fields, created: Option<int>)

  function NormalOf(row: Row): Normal {
    Normal(row.id, row.fields, InstantOf(row))
  }

  /** The hashed document; a missing previous hash is written as the empty string. */
  datatype Payload = Payload(row: Normal, prevHash: string)

  type Hash = Payload -> string

  function PayloadOf(row: Row, prev: Option<string>): Payload {
    Payload(NormalOf(row), if prev.Some? then prev.value else "")
  }

  datatype Entry = Entry(row: Row, prevHash: Option<string>, entryHash: Option<string>)

  // ----- the order of the chain -----

  /** `ORDER BY created_at ASC, id ASC`, with missing timestamps last. */
  predicate Before(a: Row, b: Row) {
    var s, t := InstantOf(a), InstantOf(b);
    if s == t then a.id < b.id
    else s.Some? && (t.None? || s.value < t.value)
  }

  predicate Ordered(s: seq<Row>) {
    forall i, j :: 0 <= i < j < |s| ==> Before(s[i], s[j])
  }

  function Rows(s: seq<Entry>): seq<Row> {
    seq(|s|, i requires 0 <= i < |s| => s[i].row)
  }

  /** The primary key. */
  ghost predicate UniqueIds(s: seq<Entry>) {
    forall i, j :: 0 <= i < |s| && 0 <= j < |s| && s[i].row.id == s[j].row.id ==> i == j
  }

  function Insert(e: Entry, s: seq<Entry>): seq<Entry> {
    if s == [] || Before(e.row, s[0].row) then [e] + s else [s[0]] + Insert(e, s[1..])
  }

  function Select(s: seq<Entry>): seq<Entry> {
    if s == [] then [] else Insert(s[0], Select(s[1..]))
  }

  ghost predicate SameElements<T(!new)>(a: seq<T>, b: seq<T>) {
    forall x :: x in a <==> x in b
  }

  lemma {:induction false} InsertKeeps(e: Entry, s: seq<Entry>)
    requires Ordered(Rows(s)) && forall x :: x in s ==> x.row.id != e.row.id
    ensures Ordered(Rows(Insert(e, s))) && forall x :: x in Insert(e, s) <==> x == e || x in s
  {
    hide Before;
    OrderedEntries(s);
    if s == [] || Before(e.row, s[0].row) {
      assert Insert(e, s) == [e] + s;
      forall j | 0 <= j < |s| ensures Before(e.row, s[j].row) {
        Transitive(e.row, s[0].row, s[j].row);
      }
    } else {
      var rest := s[1..];
      assert forall x :: x in s <==> x == s[0] || x in rest;
      InsertKeeps(e, rest);
      Total(e.row, s[0].row);
      var more := Insert(e, rest);
      forall j | 0 <= j < |more| ensures Before(s[0].row, more[j].row) {
        assert more[j] in more;
      }
      OrderedEntries(more);
      assert Insert(e, s) == [s[0]] + more;
    }
  }

  lemma OrderedEntries(s: seq<Entry>)
    requires Ordered(Rows(s))
    ensures forall i, j :: 0 <= i < j < |s| ==> Before(s[i].row, s[j].row)
  {
    forall i, j | 0 <= i < j < |s| ensures Before(s[i].row, s[j].row) {
      assert Before(Rows(s)[i], Rows(s)[j]);
    }
  }

  lemma Transitive(a: Row, b: Row, c: Row)
    ensures Before(a, b) && Before(b, c) ==> Before(a, c)
  {
  }

  lemma Total(a: Row, b: Row)
    ensures a.id != b.id ==> Before(a, b) || Before(b, a)
    ensures !(Before(a, b) && Before(b, a))
  {
  }

  lemma {:induction false} SelectSorts(s: seq<Entry>)
    requires UniqueIds(s)
    ensures Ordered(Rows(Select(s))) && SameElements(s, Select(s))
  {
    if s != [] {
      var rest := s[1..];
      assert forall x :: x in s <==> x == s[0] || x in rest;
      assert forall i :: 0 <= i < |rest| ==> rest[i] == s[i + 1];
      SelectSorts(rest);
      InsertKeeps(s[0], Select(rest));
    }
  }

  /** The order leaves no choice: equal contents, equal sequence. */
  lemma {:induction false} OrderUnique(a: seq<Row>, b: seq<Row>)
    requires Ordered(a) && Ordered(b) && SameElements(a, b)
    ensures a == b
  {
    hide Before;
    Inhabited(a);
    Inhabited(b);
    if a != [] {
      HeadsAgree(a, b);
      forall x ensures x in a[1..] <==> x in b[1..] {
        TailElements(a, x);
        TailElements(b, x);
      }
      OrderUnique(a[1..], b[1..]);
      assert a == [a[0]] + a[1..] && b == [b[0]] + b[1..];
    }
  }

  lemma Inhabited(s: seq<Row>)
    ensures s != [] ==> s[0] in s
  {
  }

  lemma HeadsAgree(a: seq<Row>, b: seq<Row>)
    requires Ordered(a) && Ordered(b) && a != [] && b != [] && a[0] in b && b[0] in a
    ensures a[0] == b[0]
  {
    var i :| 0 <= i < |b| && b[i] == a[0];
    var j :| 0 <= j < |a| && a[j] == b[0];
    Total(a[0], b[0]);
  }

  lemma TailElements(a: seq<Row>, x: Row)
    requires Ordered(a) && a != []
    ensures x in a[1..] <==> x in a && x != a[0]
  {
    if x in a && x != a[0] {
      var i :| 0 <= i < |a| && a[i] == x;
      assert a[1..][i - 1] == x;
    }
  }

  // ----- linking -----

  /** Entry `k` names the hash before it (the first one `genesis`) and carries its own. */
  ghost predicate LinkedAt(hash: Hash, chain: seq<Entry>, k: nat, genesis: Option<string>)
    requires k < |chain|
  {
    && chain[k].prevHash == (if k == 0 then genesis else chain[k - 1].entryHash)
    && chain[k].entryHash == Some(hash(PayloadOf(chain[k].row, chain[k].prevHash)))
  }

  /** What verification of a chain demands. */
  ghost predicate Linked(hash: Hash, chain: seq<Entry>) {
    forall k: nat :: k < |chain| ==> LinkedAt(hash, chain, k, None)
  }

  /** The hashes that re-anchoring gives to these rows, from this previous hash on. */
  function Chain(hash: Hash, rows: seq<Entry>, prev: Option<string>): seq<Entry>
    decreases |rows|
  {
    if rows == [] then []
    else
      var h := hash(PayloadOf(rows[0].row, prev));
      [Entry(rows[0].row, prev, Some(h))] + Chain(hash, rows[1..], Some(h))
  }

  lemma {:induction false} ChainLinks(hash: Hash, rows: seq<Entry>, prev: Option<string>)
    ensures |Chain(hash, rows, prev)| == |rows|
    ensures forall k :: 0 <= k < |rows| ==> Chain(hash, rows, prev)[k].row == rows[k].row
    ensures forall k: nat :: k < |rows| ==> LinkedAt(hash, Chain(hash, rows, prev), k, prev)
    decreases |rows|
  {
    if rows != [] {
      var h := hash(PayloadOf(rows[0].row, prev));
      ChainLinks(hash, rows[1..], Some(h));
      var c, d := Chain(hash, rows, prev), Chain(hash, rows[1..], Some(h));
      forall k: nat | 1 <= k < |c| ensures c[k].row == rows[k].row && LinkedAt(hash, c, k, prev) {
        assert LinkedAt(hash, d, k - 1, Some(h)) && c[k] == d[k - 1];
      }
    }
  }

  /** Rows and links determine a chain: a linked chain is what re-anchoring its rows gives. */
  lemma {:induction false} LinkedIsChain(hash: Hash, c: seq<Entry>, d: seq<Entry>, k: nat)
    requires Linked(hash, c) && Linked(hash, d) && Rows(c) == Rows(d) && k < |c|
    ensures |c| == |d| && c[k] == d[k]
  {
    assert |c| == |Rows(c)| && |d| == |Rows(d)|;
    assert c[k].row == Rows(c)[k] == d[k].row;
    if k > 0 {
      LinkedIsChain(hash, c, d, k - 1);
    }
    assert LinkedAt(hash, c, k, None) && LinkedAt(hash, d, k, None);
  }

  // ----- main results -----

  /** `now` is `was` re-anchored: the same rows where they were, and a linked chain in the order of the log. */
  ghost predicate Anchors(hash: Hash, was: seq<Entry>, now: seq<Entry>) {
    && Rows(now) == Rows(was)
    && Select(now) == Chain(hash, Select(was), None)
  }

  lemma ChainRows(hash: Hash, s: seq<Entry>)
    ensures Rows(Chain(hash, s, None)) == Rows(s)
    ensures Linked(hash, Chain(hash, s, None))
  {
    ChainLinks(hash, s, None);
  }

  lemma SameIds(a: seq<Entry>, b: seq<Entry>)
    requires Rows(a) == Rows(b) && UniqueIds(a)
    ensures UniqueIds(b)
  {
    assert |a| == |Rows(a)| && |b| == |Rows(b)|;
    assert forall i :: 0 <= i < |a| ==> a[i].row == Rows(a)[i] == Rows(b)[i] == b[i].row;
  }

  /** Equal rows in place and equal logs: equal tables. */
  lemma TableFromLog(a: seq<Entry>, b: seq<Entry>)
    requires Rows(a) == Rows(b) && Select(a) == Select(b) && UniqueIds(a)
    ensures a == b
  {
    SameIds(a, b);
    SelectSorts(a);
    SelectSorts(b);
    assert |a| == |Rows(a)| && |b| == |Rows(b)|;
    forall i | 0 <= i < |a| ensures a[i] == b[i] {
      assert a[i].row == Rows(a)[i] && b[i].row == Rows(b)[i];
      assert a[i] in b;
    }
  }

  /** Re-anchoring changes nothing exactly when the chain is linked already. */
  lemma NoChangeExactly(hash: Hash, was: seq<Entry>, now: seq<Entry>)
    requires UniqueIds(was) && Anchors(hash, was, now)
    ensures now == was <==> Linked(hash, Select(was))
  {
    var log := Select(was);
    ChainRows(hash, log);
    if Linked(hash, log) {
      var chain := Chain(hash, log, None);
      assert |log| == |Rows(log)| == |chain|;
      forall k | 0 <= k < |log| ensures log[k] == chain[k] {
        LinkedIsChain(hash, log, chain, k);
      }
      TableFromLog(was, now);
    }
  }

  /** Re-anchoring always gives a linked chain, so doing it again changes nothing. */
  lemma Idempotent(hash: Hash, was: seq<Entry>, now: seq<Entry>, again: seq<Entry>)
    requires UniqueIds(was) && Anchors(hash, was, now) && Anchors(hash, now, again)
    ensures Linked(hash, Select(now)) && again == now
  {
    hide Select, Chain, Linked, UniqueIds;
    ChainRows(hash, Select(was));
    SameIds(was, now);
    NoChangeExactly(hash, now, again);
  }

  /** Two tables with the same rows, in any physical order and with any old hashes, get the same chain. */
  lemma OrderIndependent(hash: Hash, a: seq<Entry>, b: seq<Entry>)
    requires UniqueIds(a) && UniqueIds(b) && SameElements(Rows(a), Rows(b))
    ensures Chain(hash, Select(a), None) == Chain(hash, Select(b), None)
  {
    SelectSorts(a);
    SelectSorts(b);
    forall x ensures x in Rows(Select(a)) <==> x in Rows(Select(b)) {
      RowOf(a, Select(a), x);
      RowOf(b, Select(b), x);
    }
    OrderUnique(Rows(Select(a)), Rows(Select(b)));
    SameChain(hash, Select(a), Select(b), None);
  }

  lemma RowOf(a: seq<Entry>, b: seq<Entry>, x: Row)
    requires SameElements(a, b)
    ensures x in Rows(a) <==> x in Rows(b)
  {
    if x in Rows(a) {
      var i :| 0 <= i < |a| && Rows(a)[i] == x;
      assert a[i] in b;
      var j :| 0 <= j < |b| && b[j] == a[i];
      assert Rows(b)[j] == x;
    }
    if x in Rows(b) {
      var i :| 0 <= i < |b| && Rows(b)[i] == x;
      assert b[i] in a;
      var j :| 0 <= j < |a| && a[j] == b[i];
      assert Rows(a)[j] == x;
    }
  }

  lemma {:induction false} SameChain(hash: Hash, a: seq<Entry>, b: seq<Entry>, prev: Option<string>)
    requires Rows(a) == Rows(b)
    ensures Chain(hash, a, prev) == Chain(hash, b, prev)
    decreases |a|
  {
    assert |a| == |Rows(a)| && |b| == |Rows(b)|;
    if a != [] {
      assert a[0].row == Rows(a)[0] == Rows(b)[0] == b[0].row;
      assert Rows(a[1..]) == Rows(a)[1..] && Rows(b[1..]) == Rows(b)[1..];
      SameChain(hash, a[1..], b[1..], Some(hash(PayloadOf(a[0].row, prev))));
    }
  }

  ghost predicate CollisionFree(hash: Hash) {
    && (forall p, q :: hash(p) == hash(q) ==> p == q)
    && (forall p :: hash(p) != "")
  }

  /** The hash that stands for the whole log. */
  function Head(chain: seq<Entry>): Option<string> {
    if chain == [] then None else chain[|chain| - 1].entryHash
  }

  function Normals(chain: seq<Entry>): seq<Normal> {
    seq(|chain|, i requires 0 <= i < |chain| => NormalOf(chain[i].row))
  }

  /** Two linked chains have the same head exactly when they hold the same rows, up to how timestamps are written. */
  lemma HeadDetermines(hash: Hash, a: seq<Entry>, b: seq<Entry>)
    requires CollisionFree(hash) && Linked(hash, a) && Linked(hash, b)
    ensures Head(a) == Head(b) <==> Normals(a) == Normals(b)
  {
    if Head(a) == Head(b) {
      SameHeadSameRows(hash, a, b);
    }
    if Normals(a) == Normals(b) {
      SameRowsSameHead(hash, a, b);
    }
  }

  lemma LinkedPrefix(hash: Hash, a: seq<Entry>)
    requires Linked(hash, a) && a != []
    ensures Linked(hash, a[..|a| - 1])
    ensures a[|a| - 1].prevHash == Head(a[..|a| - 1])
    ensures a[|a| - 1].entryHash == Some(hash(PayloadOf(a[|a| - 1].row, a[|a| - 1].prevHash)))
    ensures Normals(a) == Normals(a[..|a| - 1]) + [NormalOf(a[|a| - 1].row)]
  {
    assert LinkedAt(hash, a, |a| - 1, None);
    var init := a[..|a| - 1];
    forall k: nat | k < |init| ensures LinkedAt(hash, init, k, None) {
      assert LinkedAt(hash, a, k, None);
    }
  }

  lemma HeadNotEmpty(hash: Hash, a: seq<Entry>)
    requires CollisionFree(hash) && Linked(hash, a)
    ensures Head(a) != Some("") && (Head(a).None? <==> a == [])
  {
    if a != [] {
      LinkedPrefix(hash, a);
    }
  }

  lemma {:induction false} SameHeadSameRows(hash: Hash, a: seq<Entry>, b: seq<Entry>)
    requires CollisionFree(hash) && Linked(hash, a) && Linked(hash, b) && Head(a) == Head(b)
    ensures Normals(a) == Normals(b)
    decreases |a|
  {
    hide Linked, Normals;
    HeadNotEmpty(hash, a);
    HeadNotEmpty(hash, b);
    if a != [] {
      var x, y := a[..|a| - 1], b[..|b| - 1];
      LinkedPrefix(hash, a);
      LinkedPrefix(hash, b);
      HeadNotEmpty(hash, x);
      HeadNotEmpty(hash, y);
      SameHeadSameRows(hash, x, y);
    } else {
      assert a == b;
    }
  }

  lemma {:induction false} SameRowsSameHead(hash: Hash, a: seq<Entry>, b: seq<Entry>)
    requires Linked(hash, a) && Linked(hash, b) && Normals(a) == Normals(b)
    ensures Head(a) == Head(b)
    decreases |a|
  {
    assert |a| == |Normals(a)| && |b| == |Normals(b)|;
    if a != [] {
      var x, y := a[..|a| - 1], b[..|b| - 1];
      LinkedPrefix(hash, a);
      LinkedPrefix(hash, b);
      assert Normals(x) == Normals(a)[..|a| - 1] && Normals(y) == Normals(b)[..|b| - 1];
      assert NormalOf(a[|a| - 1].row) == Normals(a)[|a| - 1] == Normals(b)[|b| - 1];
      SameRowsSameHead(hash, x, y);
    }
  }

  // ----- the migration -----

  /** `UPDATE audit_logs SET prev_hash = ..., entry_hash = ... WHERE id = ...` */
  function Updated(entries: seq<Entry>, id: int, prev: Option<string>, h: string): seq<Entry> {
    seq(|entries|, i requires 0 <= i < |entries| =>
      if entries[i].row.id == id then entries[i].(prevHash := prev, entryHash := Some(h)) else entries[i])
  }

  /** An id names one entry of the table and one of the log, the same. */
  lemma IdsAgree(s: seq<Entry>)
    requires UniqueIds(s)
    ensures UniqueIds(Select(s))
    ensures forall i, k :: 0 <= i < |s| && 0 <= k < |Select(s)| && s[i].row.id == Select(s)[k].row.id ==> s[i] == Select(s)[k]
  {
    var log := Select(s);
    SelectSorts(s);
    OrderedEntries(log);
    forall i, k | 0 <= i < |s| && 0 <= k < |log| && s[i].row.id == log[k].row.id ensures s[i] == log[k] {
      assert log[k] in s;
    }
    forall j, k | 0 <= j < |log| && 0 <= k < |log| && log[j].row.id == log[k].row.id ensures j == k {
      assert log[j] in s && log[k] in s;
    }
  }

  /** Once every entry has its hashes, the log is the chain. */
  lemma Finished(hash: Hash, was: seq<Entry>, now: seq<Entry>, chain: seq<Entry>)
    requires UniqueIds(was) && |now| == |was| && forall i :: 0 <= i < |was| ==> now[i].row == was[i].row
    requires chain == Chain(hash, Select(was), None)
    requires forall i, j :: 0 <= i < |was| && 0 <= j < |chain| && was[i].row.id == chain[j].row.id ==> now[i] == chain[j]
    ensures UniqueIds(now) && Anchors(hash, was, now)
  {
    hide Select, Chain, Before, Linked;
    var log := Select(now);
    assert Rows(now) == Rows(was);
    ChainRows(hash, Select(was));
    SelectSorts(was);
    SelectSorts(now);
    forall x ensures x in Rows(log) <==> x in Rows(chain) {
      RowOf(now, log, x);
      RowOf(was, Select(was), x);
    }
    OrderUnique(Rows(log), Rows(chain));
    assert |log| == |Rows(log)| && |chain| == |Rows(chain)|;
    forall k | 0 <= k < |log| ensures log[k] == chain[k] {
      assert log[k].row == Rows(log)[k] == Rows(chain)[k] == chain[k].row;
      assert log[k] in now;
      var i :| 0 <= i < |now| && now[i] == log[k];
      assert was[i].row.id == chain[k].row.id;
    }
  }

  class Table {
    var entries: seq<Entry>

    constructor (entries: seq<Entry>)
      ensures this.entries == entries
    {
      this.entries := entries;
    }

    method Upgrade(hash: Hash)
      requires UniqueIds(entries)
      modifies this
      ensures UniqueIds(entries) && Anchors(hash, old(entries), entries)
    {
      ghost var was := entries;
      var rows := Select(entries);
      ghost var chain := Chain(hash, rows, None);
      ChainLinks(hash, rows, None);
      IdsAgree(entries);
      var prev: Option<string> := None;
      for k := 0 to |rows|
        invariant |entries| == |was| && forall i :: 0 <= i < |was| ==> entries[i].row == was[i].row
        invariant forall i, j :: 0 <= i < |was| && 0 <= j < k && was[i].row.id == chain[j].row.id ==> entries[i] == chain[j]
        invariant prev == if k == 0 then None else chain[k - 1].entryHash
      {
        assert LinkedAt(hash, chain, k, None);
        var h := hash(PayloadOf(rows[k].row, prev));
        entries := Updated(entries, rows[k].row.id, prev, h);
        prev := Some(h);
      }
      Finished(hash, was, entries, chain);
    }
  }
}
