/**
  The idempotency store (app/core/idempotency.py) for one API key: one slot per
  `Idempotency-Key`. The two Lua scripts make get-or-claim and compare-and-set
  atomic. A body stands for its own fingerprint, since the hash is taken to be
  collision-free; slots do not expire.
 */
module Idempotency {
  import opened Common

  type Key = string
  type Body = string
  type Response = string

  datatype Slot =
    | Absent
    | InFlight(fp: Body)
    | Pending(fp: Body, hash: string)
    | Done(fp: Body, response: Response)

  datatype Claim = Claimed | Cached(response: Response) | Conflict

  function At(slots: map<Key, Slot>, k: Key): Slot {
    if k in slots then slots[k] else Absent
  }

  /** `lookup_or_reserve`, the answer. */
  function ClaimOf(slot: Slot, fp: Body): Claim {
    if slot.Absent? then Claimed
    else if slot.Done? && slot.fp == fp then Cached(slot.response)
    else Conflict
  }

  /** `lookup_or_reserve`, the effect. */
  function Reserved(slot: Slot, fp: Body): Slot {
    if slot.Absent? then InFlight(fp) else slot
  }

  /** The compare-and-set of `store_result` and `mark_pending`: never over a completed result. */
  function Replaced(slot: Slot, next: Slot): Slot {
    if slot.Done? then slot else next
  }

  /** `release_inflight` */
  function Released(slot: Slot): Slot {
    if slot.InFlight? then Absent else slot
  }

  /** `release_pending` */
  function Dropped(slot: Slot): Slot {
    if slot.Pending? then Absent else slot
  }

  class Store {
    var slots: map<Key, Slot>

    constructor ()
      ensures slots == map[]
    {
      slots := map[];
    }

    method LookupOrReserve(k: Key, fp: Body) returns (c: Claim)
      modifies this
      ensures c == ClaimOf(At(old(slots), k), fp)
      ensures slots == old(slots)[k := Reserved(At(old(slots), k), fp)]
    {
      var existing := At(slots, k);
      match existing {
        case Absent =>
          slots := slots[k := InFlight(fp)];
          c := Claimed;
        case Done(f, response) =>
          c := if f == fp then Cached(response) else Conflict;
          slots := slots[k := existing];
        case _ =>
          c := Conflict;
          slots := slots[k := existing];
      }
    }

    method StoreResult(k: Key, fp: Body, response: Response)
      modifies this
      ensures slots == old(slots)[k := Replaced(At(old(slots), k), Done(fp, response))]
    {
      CompareAndSet(k, Done(fp, response));
    }

    method MarkPending(k: Key, fp: Body, hash: string)
      modifies this
      ensures slots == old(slots)[k := Replaced(At(old(slots), k), Pending(fp, hash))]
    {
      CompareAndSet(k, Pending(fp, hash));
    }

    /** The store script: it writes over a free slot and over one that carries the sentinel. */
    method CompareAndSet(k: Key, next: Slot)
      modifies this
      ensures slots == old(slots)[k := Replaced(At(old(slots), k), next)]
    {
      if k !in slots || slots[k].Absent? || slots[k].InFlight? || slots[k].Pending? {
        slots := slots[k := next];
      } else {
        assert slots == slots[k := slots[k]];
      }
    }

    method ReleaseInflight(k: Key)
      modifies this
      ensures slots == old(slots)[k := Released(At(old(slots), k))]
    {
      var existing := At(slots, k);
      if existing.InFlight? {
        existing := Absent;
      }
      slots := slots[k := existing];
    }

    method ReleasePending(k: Key)
      modifies this
      ensures slots == old(slots)[k := Dropped(At(old(slots), k))]
    {
      var existing := At(slots, k);
      if existing.Pending? {
        existing := Absent;
      }
      slots := slots[k := existing];
    }
  }
}
