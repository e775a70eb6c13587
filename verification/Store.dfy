// agentgate/internal/approval/store.go and migrations/002_pending_approvals.sql
module Store {
  import opened Wrappers
  import opened Json

  // A transaction id. The database draws them; only their being distinct matters.
  type TxId = nat

  // How one database, file, graph or network operation ends for its caller.
  datatype Outcome =
    | Done     // took effect and was reported
    | Lost     // took effect, but the caller sees an error
    | Refused  // no effect, and the caller sees an error

  datatype State = Pending | Approved | Denied | Executed | Failed

  // The part of a call that is kept to re-check and replay it later.
  datatype Captured = Captured(agentId: string, onBehalfOf: string, roles: seq<string>, tool: string, args: Object)

  // One row of pending_approvals. `decidedAt` and `createdAt` are ticks of the
  // protocol's clock.
  datatype Row = Row(
    tx: TxId, call: Captured, state: State, decidedBy: Option<string>, decidedAt: Option<nat>,
    result: Option<string>, createdAt: nat)

  type Rows = map<TxId, Row>

  predicate Winnable(rows: Rows, tx: TxId) {
    tx in rows && rows[tx].state.Pending?
  }

  // INSERT: the id is UNIQUE, so an id already present is refused.
  function Parked(rows: Rows, tx: TxId, call: Captured, at: nat): Rows {
    if tx in rows then rows else rows[tx := Row(tx, call, Pending, None, None, None, at)]
  }

  // The guarded UPDATE: only a pending row changes.
  function Decided(rows: Rows, tx: TxId, state: State, decider: string, at: nat): Rows {
    if Winnable(rows, tx) then rows[tx := rows[tx].(state := state, decidedBy := Some(decider), decidedAt := Some(at))]
    else rows
  }

  // The unguarded UPDATE: whatever the row's state is.
  function Closed(rows: Rows, tx: TxId, state: State, result: string): Rows {
    if tx in rows then rows[tx := rows[tx].(state := state, result := Some(result))] else rows
  }

  // ---- The table ---------------------------------------------------------

  // `r` among rows in the order of created_at, after those that are as old.
  function Insert(rs: seq<Row>, r: Row): seq<Row> {
    if rs == [] || rs[|rs| - 1].createdAt <= r.createdAt then rs + [r]
    else Insert(rs[..|rs| - 1], r) + [rs[|rs| - 1]]
  }

  // The query's answer: the pending rows among `order`, ordered by created_at.
  function Waiting(rows: Rows, order: seq<TxId>): seq<Row> {
    if order == [] then []
    else
      var last, before := order[|order| - 1], Waiting(rows, order[..|order| - 1]);
      if Winnable(rows, last) then Insert(before, rows[last]) else before
  }

  predicate Distinct(order: seq<TxId>) {
    forall i, j :: 0 <= i < j < |order| ==> order[i] != order[j]
  }

  predicate DistinctRows(rs: seq<Row>) {
    forall i, j :: 0 <= i < j < |rs| ==> rs[i].tx != rs[j].tx
  }

  predicate Ascending(rs: seq<Row>) {
    forall i, j :: 0 <= i < j < |rs| ==> rs[i].createdAt <= rs[j].createdAt
  }

  lemma {:induction false} InsertKeeps(rs: seq<Row>, r: Row)
    ensures forall q :: q in Insert(rs, r) <==> q in rs || q == r
    ensures Ascending(rs) ==> Ascending(Insert(rs, r))
    ensures DistinctRows(rs) && (forall q :: q in rs ==> q.tx != r.tx) ==> DistinctRows(Insert(rs, r))
    decreases |rs|
  {
    if rs != [] && rs[|rs| - 1].createdAt > r.createdAt {
      var front, last := rs[..|rs| - 1], rs[|rs| - 1];
      InsertKeeps(front, r);
      assert rs == front + [last];
      assert forall q :: q in front ==> q in rs;
      forall i | 0 <= i < |Insert(front, r)|
        ensures Ascending(rs) ==> Insert(front, r)[i].createdAt <= last.createdAt
        ensures DistinctRows(rs) && (forall q :: q in rs ==> q.tx != r.tx) ==> Insert(front, r)[i].tx != last.tx
      {
        assert Insert(front, r)[i] in Insert(front, r);
      }
    }
  }

  // It holds exactly the rows a click can still win, each once, in the order of created_at.
  lemma {:induction false} WaitingIsWinnable(rows: Rows, order: seq<TxId>)
    requires Distinct(order)
    ensures forall tx :: tx in order && Winnable(rows, tx) ==> rows[tx] in Waiting(rows, order)
    ensures forall r :: r in Waiting(rows, order) ==> exists tx :: tx in order && Winnable(rows, tx) && r == rows[tx]
    ensures (forall tx :: tx in rows ==> rows[tx].tx == tx) ==> DistinctRows(Waiting(rows, order))
    ensures Ascending(Waiting(rows, order))
    decreases |order|
  {
    if order != [] {
      var n := |order| - 1;
      WaitingIsWinnable(rows, order[..n]);
      assert order == order[..n] + [order[n]];
      assert order[n] !in order[..n];
      if Winnable(rows, order[n]) { InsertKeeps(Waiting(rows, order[..n]), rows[order[n]]); }
    }
  }

  class Table {
    var rows: Rows
    var order: seq<TxId>  // insertion order

    predicate Valid()
      reads this
    {
      && Distinct(order) && (forall tx :: tx in order ==> tx in rows) && (forall tx :: tx in rows ==> tx in order)
      && (forall tx :: tx in rows ==> rows[tx].tx == tx)
    }

    constructor ()
      ensures Valid() && rows == map[]
    {
      rows, order := map[], [];
    }

    // `tx` is None for the empty string, which is no UUID. `now` is when the transaction began, which
    // may be earlier than that of a row already there.
    method Park(tx: Option<TxId>, call: Captured, now: nat) returns (ok: bool, ghost o: Outcome)
      requires Valid()
      modifies this
      ensures Valid()
      ensures rows == if tx.Some? && !o.Refused? then Parked(old(rows), tx.value, call, now) else old(rows)
      ensures ok <==> tx.Some? && tx.value !in old(rows) && o.Done?
      ensures ok ==> rows == old(rows)[tx.value := Row(tx.value, call, Pending, None, None, None, now)]
    {
      var oc: Outcome := *;
      o := oc;
      if tx.None? || tx.value in rows || oc.Refused? {
        return false, oc;
      }
      rows := rows[tx.value := Row(tx.value, call, Pending, None, None, None, now)];
      order := order + [tx.value];
      ok := oc.Done?;
    }

    method Get(tx: TxId) returns (p: Option<Row>, ghost o: Outcome)
      ensures p == if o.Done? && tx in rows then Some(rows[tx]) else None
    {
      var oc: Outcome := *;
      p, o := if oc.Done? && tx in rows then Some(rows[tx]) else None, oc;
    }

    // Exactly the calls that still wait for a decision, oldest first, each once.
    method ListPending() returns (out: seq<Row>)
      requires Valid()
      ensures out == Waiting(rows, order)
      ensures forall tx :: tx in rows && rows[tx].state.Pending? ==> rows[tx] in out
      ensures forall r :: r in out ==> r.state.Pending? && r.tx in rows && rows[r.tx] == r
      ensures forall i, j :: 0 <= i < j < |out| ==> out[i].tx != out[j].tx
      ensures forall i, j :: 0 <= i < j < |out| ==> out[i].createdAt <= out[j].createdAt
    {
      out := [];
      for i := 0 to |order|
        invariant out == Waiting(rows, order[..i])
      {
        if rows[order[i]].state.Pending? {
          out := Insert(out, rows[order[i]]);
        }
        assert order[..i + 1][..i] == order[..i];
      }
      assert order[..|order|] == order;
      WaitingIsWinnable(rows, order);
    }

    // `won` is None when the caller sees an error, though the row may have changed.
    method Decide(tx: TxId, state: State, decider: string, now: nat) returns (won: Option<bool>, ghost o: Outcome)
      requires Valid()
      modifies this
      ensures Valid()
      ensures rows == if o.Refused? then old(rows) else Decided(old(rows), tx, state, decider, now)
      ensures won == if o.Done? then Some(tx in old(rows) && old(rows)[tx].state.Pending?) else None
      ensures
        won == Some(true) ==>
          var r := old(rows)[tx];
          rows == old(rows)[tx := Row(r.tx, r.call, state, Some(decider), Some(now), r.result, r.createdAt)]
    {
      var oc: Outcome := *;
      o := oc;
      won := if oc.Done? then Some(Winnable(rows, tx)) else None;
      if !oc.Refused? && Winnable(rows, tx) {
        rows := rows[tx := rows[tx].(state := state, decidedBy := Some(decider), decidedAt := Some(now))];
      }
    }

    method SetResult(tx: TxId, state: State, result: string) returns (ok: bool, ghost o: Outcome)
      requires Valid()
      modifies this
      ensures Valid()
      ensures rows == if o.Refused? then old(rows) else Closed(old(rows), tx, state, result)
      ensures ok <==> o.Done?
      ensures
        ok && tx in old(rows) ==>
          var r := old(rows)[tx];
          rows == old(rows)[tx := Row(r.tx, r.call, state, r.decidedBy, r.decidedAt, Some(result), r.createdAt)]
    {
      var oc: Outcome := *;
      ok, o := oc.Done?, oc;
      if !oc.Refused? && tx in rows {
        rows := rows[tx := rows[tx].(state := state, result := Some(result))];
      }
    }
  }
}
