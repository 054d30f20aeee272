// The store of trade recommendations awaiting a human decision. A record
// starts 'pending' with a 30-minute expiry; reading the store first turns
// every overdue pending record into 'expired'; `updateStatus` moves a
// pending record to any status; `markExecuted` stamps a record as executed
// with its fill, whatever its status. Times are milliseconds since the
// epoch.

module Pending {
  import opened Prelude

  /** EXPIRY_MS: thirty minutes. */
  const ExpiryMs: int := 30 * 60 * 1000

  /** The order an executor sends for a recommendation. */
  datatype Order = Order(
    ticker: string,
    side: string,
    action: string,
    count: real,
    orderType: string,
    yesPrice: Option<int>,
    noPrice: Option<int>)

  /** The fill details `markExecuted` attaches (`{}` by default). */
  datatype Fill = NoDetails | DryRunFill(order: Order) | LiveFill(order: Order, response: string)

  datatype Recommendation = Recommendation(
    id: string,
    strategy: string,
    contract: string,
    side: string,
    qty: real,
    price: real,
    edge: real,
    reasoning: string,
    status: string,
    createdAt: int,
    expiresAt: int,
    updatedAt: Option<int>,
    fill: Option<Fill>)

  // ----------------------------------------------------------------- expiry

  /** A pending record whose expiry time has come. */
  predicate Overdue(r: Recommendation, now: int)
  {
    r.status == "pending" && r.expiresAt <= now
  }

  function Expire(r: Recommendation, now: int): Recommendation
  {
    if Overdue(r, now) then r.(status := "expired") else r
  }

  /** The records after `expireOld` at time `now`. */
  function ExpireAll(rs: seq<Recommendation>, now: int): (out: seq<Recommendation>)
    ensures |out| == |rs|
    ensures forall i :: 0 <= i < |rs| ==> out[i] == Expire(rs[i], now)
  {
    if rs == [] then [] else ExpireAll(rs[..|rs| - 1], now) + [Expire(rs[|rs| - 1], now)]
  }

  predicate AnyOverdue(rs: seq<Recommendation>, now: int)
  {
    exists i :: 0 <= i < |rs| && Overdue(rs[i], now)
  }

  /**
   * Expiry changes only the status, only of overdue pending records, and
   * only to 'expired'; it changes something exactly when a record is
   * overdue; afterwards nothing is overdue, expiring again at the same time
   * changes nothing, and expiring again later is the same as expiring once,
   * later.
   */
  lemma ExpireAllEffect(rs: seq<Recommendation>, now: int, later: int)
    requires now <= later
    ensures var out := ExpireAll(rs, now);
      && (forall i :: 0 <= i < |rs| ==>
            out[i] == rs[i].(status := out[i].status)
            && out[i].status == (if Overdue(rs[i], now) then "expired" else rs[i].status))
      && !AnyOverdue(out, now)
      && (AnyOverdue(rs, now) <==> out != rs)
      && ExpireAll(out, now) == out
      && ExpireAll(out, later) == ExpireAll(rs, later)
  {
    ExpireAllChanges(rs, now);
    ExpireAllStable(rs, now, later);
  }

  lemma ExpireAllChanges(rs: seq<Recommendation>, now: int)
    ensures AnyOverdue(rs, now) <==> ExpireAll(rs, now) != rs
  {
    if AnyOverdue(rs, now) {
      var i :| 0 <= i < |rs| && Overdue(rs[i], now);
      assert ExpireAll(rs, now)[i] != rs[i];
    } else {
      assert ExpireAll(rs, now) == rs;
    }
  }

  lemma ExpireAllStable(rs: seq<Recommendation>, now: int, later: int)
    requires now <= later
    ensures var out := ExpireAll(rs, now);
      !AnyOverdue(out, now) && ExpireAll(out, now) == out && ExpireAll(out, later) == ExpireAll(rs, later)
  {
    var out := ExpireAll(rs, now);
    forall i | 0 <= i < |rs|
      ensures !Overdue(out[i], now) && Expire(out[i], later) == Expire(rs[i], later)
    {
      ExpireRecord(rs[i], now, later);
    }
    assert ExpireAll(out, now) == out;
    assert ExpireAll(out, later) == ExpireAll(rs, later);
  }

  /** One record: expiring leaves nothing overdue, and a later expiry subsumes it. */
  lemma ExpireRecord(r: Recommendation, now: int, later: int)
    requires now <= later
    ensures !Overdue(Expire(r, now), now) && Expire(Expire(r, now), later) == Expire(r, later)
  {
  }

  /** The loop of `expireOld`: the expired records, and whether anything changed. */
  method ExpireScan(rs: seq<Recommendation>, now: int) returns (out: seq<Recommendation>, changed: bool)
    ensures out == ExpireAll(rs, now)
    ensures changed <==> AnyOverdue(rs, now)
  {
    out := rs;
    changed := false;
    for j := 0 to |rs|
      invariant |out| == |rs|
      invariant forall i :: 0 <= i < j ==> out[i] == Expire(rs[i], now)
      invariant forall i :: j <= i < |rs| ==> out[i] == rs[i]
      invariant changed <==> exists i :: 0 <= i < j && Overdue(rs[i], now)
    {
      if out[j].status == "pending" && out[j].expiresAt <= now {
        out := out[j := out[j].(status := "expired")];
        changed := true;
      }
    }
  }

  /** The records whose status is 'pending', in order. */
  function StillPending(rs: seq<Recommendation>): (out: seq<Recommendation>)
    ensures forall r :: r in out <==> r in rs && r.status == "pending"
  {
    if rs == [] then []
    else StillPending(rs[..|rs| - 1]) + (if rs[|rs| - 1].status == "pending" then [rs[|rs| - 1]] else [])
  }

  /** What `getPending` returns at `now`: pending records none of which has expired. */
  lemma PendingNotOverdue(rs: seq<Recommendation>, now: int)
    ensures forall r :: r in StillPending(ExpireAll(rs, now)) ==> r.status == "pending" && r.expiresAt > now
  {
    var out := ExpireAll(rs, now);
    forall r | r in StillPending(out)
      ensures r.status == "pending" && r.expiresAt > now
    {
      var i :| 0 <= i < |out| && out[i] == r;
      assert out[i] == Expire(rs[i], now);
    }
  }

  // ----------------------------------------------------------- lookups

  /** `pending.find(t => t.id === id)`: the index of the first record with the id. */
  function FindFirst(rs: seq<Recommendation>, id: string): (r: Option<nat>)
    ensures r.Some? ==> r.value < |rs| && rs[r.value].id == id && forall j :: 0 <= j < r.value ==> rs[j].id != id
    ensures r.None? ==> forall j :: 0 <= j < |rs| ==> rs[j].id != id
  {
    if rs == [] then None
    else if rs[0].id == id then Some(0)
    else
      var k := FindFirst(rs[1..], id);
      if k.Some? then Some(k.value + 1) else None
  }

  function NotFound(id: string): string
  {
    "Trade " + id + " not found"
  }

  function NotPending(id: string, status: string): string
  {
    "Trade " + id + " is " + status + ", not pending"
  }

  /**
   * `updateStatus(id, status)` on the stored records: fails, changing
   * nothing, when the id is absent or the record is not pending (it does
   * not expire first); otherwise sets the status and the update time of that
   * one record.
   */
  function UpdateStatusSpec(rs: seq<Recommendation>, id: string, status: string, now: int): (r: (seq<Recommendation>, Result<Recommendation>))
    ensures r.1.Success? <==> FindFirst(rs, id).Some? && rs[FindFirst(rs, id).value].status == "pending"
    ensures FindFirst(rs, id).None? ==> r == (rs, Failure(NotFound(id)))
    ensures FindFirst(rs, id).Some? && rs[FindFirst(rs, id).value].status != "pending" ==>
      r == (rs, Failure(NotPending(id, rs[FindFirst(rs, id).value].status)))
    ensures r.1.Success? ==>
      var k := FindFirst(rs, id).value;
      && |r.0| == |rs| && r.0[k] == r.1.value
      && r.1.value == rs[k].(status := status, updatedAt := Some(now))
      && (forall j :: 0 <= j < |rs| && j != k ==> r.0[j] == rs[j])
  {
    var k := FindFirst(rs, id);
    if k.None? then (rs, Failure(NotFound(id)))
    else if rs[k.value].status != "pending" then (rs, Failure(NotPending(id, rs[k.value].status)))
    else
      var rec := rs[k.value].(status := status, updatedAt := Some(now));
      (rs[k.value := rec], Success(rec))
  }

  /**
   * `markExecuted(id, fill)`: fails only when the id is absent; otherwise
   * the record becomes 'executed' with the fill, from any status, and no
   * other record changes.
   */
  function MarkExecutedSpec(rs: seq<Recommendation>, id: string, fill: Fill, now: int): (r: (seq<Recommendation>, Result<Recommendation>))
    ensures r.1.Success? <==> FindFirst(rs, id).Some?
    ensures r.1.Failure? ==> r == (rs, Failure(NotFound(id)))
    ensures r.1.Success? ==>
      var k := FindFirst(rs, id).value;
      && |r.0| == |rs| && r.0[k] == r.1.value
      && r.1.value.status == "executed" && r.1.value.fill == Some(fill)
      && r.1.value == rs[k].(status := "executed", updatedAt := Some(now), fill := Some(fill))
      && (forall j :: 0 <= j < |rs| && j != k ==> r.0[j] == rs[j])
  {
    var k := FindFirst(rs, id);
    if k.None? then (rs, Failure(NotFound(id)))
    else
      var rec := rs[k.value].(status := "executed", updatedAt := Some(now), fill := Some(fill));
      (rs[k.value := rec], Success(rec))
  }

  /**
   * `updateStatus` does not expire first: a pending record past its expiry
   * time can still be moved to any status until something reads the store.
   */
  lemma OverdueStillUpdatable(rs: seq<Recommendation>, id: string, status: string, now: int)
    requires FindFirst(rs, id).Some? && Overdue(rs[FindFirst(rs, id).value], now)
    ensures UpdateStatusSpec(rs, id, status, now).1 == Success(rs[FindFirst(rs, id).value].(status := status, updatedAt := Some(now)))
  {
  }

  /** Once a read has expired it, the same record can no longer be updated. */
  lemma ExpiredNotUpdatable(rs: seq<Recommendation>, id: string, status: string, now: int)
    requires FindFirst(rs, id).Some? && Overdue(rs[FindFirst(rs, id).value], now)
    ensures UpdateStatusSpec(ExpireAll(rs, now), id, status, now).1 == Failure(NotPending(id, "expired"))
  {
    var out := ExpireAll(rs, now);
    var k := FindFirst(rs, id).value;
    assert out[k] == Expire(rs[k], now);
    assert FindFirst(out, id) == Some(k) by {
      FindFirstSameIds(rs, out, id);
    }
  }

  /** Lookup by id sees only the ids. */
  lemma FindFirstSameIds(a: seq<Recommendation>, b: seq<Recommendation>, id: string)
    requires |a| == |b| && forall i :: 0 <= i < |a| ==> a[i].id == b[i].id
    ensures FindFirst(a, id) == FindFirst(b, id)
  {
    var ka := FindFirst(a, id);
    var kb := FindFirst(b, id);
    if ka.Some? {
      assert b[ka.value].id == id;
    }
    if kb.Some? {
      assert a[kb.value].id == id;
    }
  }

  /** The record `addPending` creates at `now`. */
  function NewRecommendation(id: string, strategy: string, contract: string, side: string, qty: real, price: real,
                             edge: real, reasoning: string, now: int): (r: Recommendation)
    ensures r.status == "pending" && r.createdAt == now && r.expiresAt == now + ExpiryMs
    ensures r.strategy == (if strategy == "" then "weather" else strategy)
    ensures r.updatedAt.None? && r.fill.None?
  {
    Recommendation(id, if strategy == "" then "weather" else strategy, contract, side, qty, price, edge,
      reasoning, "pending", now, now + ExpiryMs, None, None)
  }

  // -------------------------------------------------------------- the class

  /**
   * The pending-recommendation document held in memory; `saves` counts the
   * times the document is written back.
   */
  class PendingStore {
    var records: seq<Recommendation>
    var saves: nat

    /** An empty store, as `load` returns when there is no file. */
    constructor ()
      ensures records == [] && saves == 0
    {
      records := [];
      saves := 0;
    }

    /** `expireOld`: expires overdue pending records and saves only if one changed. */
    method ExpireOld(now: int)
      modifies this
      ensures records == ExpireAll(old(records), now)
      ensures saves == old(saves) + (if AnyOverdue(old(records), now) then 1 else 0)
    {
      var out, changed := ExpireScan(records, now);
      records := out;
      if changed {
        saves := saves + 1;
      }
    }

    /** `addPending`: appends a new pending record that expires 30 minutes after `now`. */
    method AddPending(id: string, strategy: string, contract: string, side: string, qty: real, price: real,
                      edge: real, reasoning: string, now: int) returns (rec: Recommendation)
      modifies this
      ensures rec == NewRecommendation(id, strategy, contract, side, qty, price, edge, reasoning, now)
      ensures records == old(records) + [rec] && saves == old(saves) + 1
    {
      rec := NewRecommendation(id, strategy, contract, side, qty, price, edge, reasoning, now);
      records := records + [rec];
      saves := saves + 1;
    }

    /** `getPending`: expires, then returns the records still pending. */
    method GetPending(now: int) returns (ps: seq<Recommendation>)
      modifies this
      ensures records == ExpireAll(old(records), now)
      ensures saves == old(saves) + (if AnyOverdue(old(records), now) then 1 else 0)
      ensures ps == StillPending(records)
    {
      ExpireOld(now);
      ps := StillPending(records);
    }

    /** `getAll`: expires, then returns every record. */
    method GetAll(now: int) returns (all: seq<Recommendation>)
      modifies this
      ensures records == ExpireAll(old(records), now) && all == records
      ensures saves == old(saves) + (if AnyOverdue(old(records), now) then 1 else 0)
    {
      ExpireOld(now);
      all := records;
    }

    /** `findById`: expires, then returns the first record with the id. */
    method FindById(id: string, now: int) returns (r: Option<Recommendation>)
      modifies this
      ensures records == ExpireAll(old(records), now)
      ensures saves == old(saves) + (if AnyOverdue(old(records), now) then 1 else 0)
      ensures r == (var k := FindFirst(records, id); if k.Some? then Some(records[k.value]) else None)
    {
      ExpireOld(now);
      var k := FindFirst(records, id);
      r := if k.Some? then Some(records[k.value]) else None;
    }

    /** `updateStatus`: saves only when it succeeds. */
    method UpdateStatus(id: string, status: string, now: int) returns (r: Result<Recommendation>)
      modifies this
      ensures (records, r) == UpdateStatusSpec(old(records), id, status, now)
      ensures saves == old(saves) + (if r.Success? then 1 else 0)
    {
      var k := FindFirst(records, id);
      if k.None? {
        return Failure(NotFound(id));
      }
      var rec := records[k.value];
      if rec.status != "pending" {
        return Failure(NotPending(id, rec.status));
      }
      rec := rec.(status := status, updatedAt := Some(now));
      records := records[k.value := rec];
      saves := saves + 1;
      r := Success(rec);
    }

    /** `markExecuted`: saves only when it succeeds. */
    method MarkExecuted(id: string, fill: Fill, now: int) returns (r: Result<Recommendation>)
      modifies this
      ensures (records, r) == MarkExecutedSpec(old(records), id, fill, now)
      ensures saves == old(saves) + (if r.Success? then 1 else 0)
    {
      var k := FindFirst(records, id);
      if k.None? {
        return Failure(NotFound(id));
      }
      var rec := records[k.value].(status := "executed", updatedAt := Some(now), fill := Some(fill));
      records := records[k.value := rec];
      saves := saves + 1;
      r := Success(rec);
    }
  }
}
