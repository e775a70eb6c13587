// What happens to the backend's records: which approvals destroyed them, and when
// two approved calls delete the same record.
module Destruction {
  import opened Wrappers
  import opened Json
  import opened Policy
  import opened ToyServer
  import opened Protocol
  import opened Invariant
  import opened Preservation
  import opened Guarantees

  // Request `k` destroyed record `id`: it replayed an approved transaction that names this
  // very record, after the approving click and, with ownership checks on, after an instant at
  // which the transaction's user owned the record.
  ghost predicate DestroyedBy(cfg: Config, w: World, id: string, k: nat)
    requires k < |w.requests|
  {
    var q := w.requests[k];
    && Erases(q, id) && q.found.Some?
    && q.origin.Approval? && q.origin.tx in w.rows
    && var r := w.rows[q.origin.tx];
    && r.call.tool == DELETE_RECORD && IdArg(r.call.args) == Some(id)
    && !r.state.Pending? && !r.state.Denied?
    && r.decidedAt.Some?
    && r.createdAt < r.decidedAt.value < q.ownerAt < q.sentAt < q.found.value < q.delivery.value.at < w.Now()
    && (cfg.ownership ==> Edge(r.call.onBehalfOf, id) in w.MomentAt(q.ownerAt).edges)
  }

  // End to end: a record is gone exactly when an approved request destroyed it, and a record
  // that is there is as it was.
  lemma EndToEndDestruction(cfg: Config, w: World, id: string)
    requires Reachable(cfg, w) && id in cfg.seed
    ensures id !in w.records <==> exists k :: 0 <= k < |w.requests| && DestroyedBy(cfg, w, id, k)
    ensures id in w.records ==> w.records[id] == cfg.seed[id]
  {
    ReachableInv(cfg, w);
    assert RecordOk(cfg, w, id);
    if id !in w.records {
      var k :| 0 <= k < |w.requests| && Erases(w.requests[k], id);
      ErasureIsApproved(cfg, w, id, k);
    }
  }

  lemma ErasureIsApproved(cfg: Config, w: World, id: string, k: nat)
    requires Inv(cfg, w) && k < |w.requests| && Erases(w.requests[k], id)
    ensures DestroyedBy(cfg, w, id, k)
  {
    assert RequestOk(cfg, w, k);
    assert DESTRUCTIVE_PREFIXES[0] == "delete_" && DESTRUCTIVE_PREFIXES[0] <= DELETE_RECORD;
    assert Destructive(DELETE_RECORD);
    assert RowOk(cfg, w, w.requests[k].origin.tx);
  }

  // Missing records map to distinct approved transactions: no transaction destroys two.
  lemma DistinctTransactions(cfg: Config, w: World, id: string, other: string, k: nat, l: nat)
    requires Reachable(cfg, w) && k < |w.requests| && l < |w.requests| && id != other
    requires DestroyedBy(cfg, w, id, k) && DestroyedBy(cfg, w, other, l)
    ensures w.requests[k].origin != w.requests[l].origin
  {
  }

  // ---- Deleting twice -----------------------------------------------------

  // Two requests that both deleted the same record overlapped: each had found it before the
  // other deleted it.
  lemma DeletionsOverlap(cfg: Config, w: World, id: string, k: nat, l: nat)
    requires Reachable(cfg, w) && k < |w.requests| && l < |w.requests|
    requires Erases(w.requests[k], id) && Erases(w.requests[l], id)
    ensures w.requests[l].found.Some? && w.requests[l].found.value < w.requests[k].delivery.value.at
  {
    ReachableInv(cfg, w);
    assert RequestOk(cfg, w, l) && Finds(w.requests[l], id);
  }

  lemma FoundEarlier(cfg: Config, w: World, e: Event, l: nat)
    requires Enabled(cfg, w, e) && l < |Next(cfg, w, e).requests|
    requires
      var q := Next(cfg, w, e).requests[l];
      q.found.Some? && q.found.value < w.Now()
    ensures l < |w.requests| && w.requests[l].found == Next(cfg, w, e).requests[l].found
  {
    if !e.Handle? && !e.Erase? { NextSends(cfg, w, e); }
  }

  // A lookup dated before `w` had been made in `w`.
  lemma {:induction false} FoundBefore(cfg: Config, w: World, es: seq<Event>, v: World, l: nat)
    requires Inv(cfg, w) && Runs(cfg, w, es, v) && l < |v.requests|
    requires v.requests[l].found.Some? && v.requests[l].found.value < w.Now()
    ensures l < |w.requests| && w.requests[l].found == v.requests[l].found
    decreases |es|
  {
    if es != [] {
      NextInv(cfg, w, es[0]);
      NextTicks(cfg, w, es[0]);
      FoundBefore(cfg, Next(cfg, w, es[0]), es[1..], v, l);
      FoundEarlier(cfg, w, es[0], l);
    }
  }

  // In some continuation, another request than `k` deletes the record too.
  ghost predicate DeletedAgain(cfg: Config, w: World, id: string, k: nat) {
    exists es, v, l: nat :: Runs(cfg, w, es, v) && l < |v.requests| && l != k && Erases(v.requests[l], id)
  }

  // Another handler had found the record when request `k` deleted it.
  predicate FoundByAnother(w: World, id: string, k: nat)
    requires k < |w.requests| && w.requests[k].delivery.Some?
  {
    exists l :: 0 <= l < |w.requests| && l != k && Finds(w.requests[l], id)
                && w.requests[l].found.value < w.requests[k].delivery.value.at
  }

  // The handlers share an unguarded map, so a record can be deleted twice with both calls told
  // that they deleted it. Once request `k` has deleted it, this can still happen, or has happened
  // already, if and only if another handler found the record before that.
  lemma DeletedAgainIff(cfg: Config, w: World, id: string, k: nat)
    requires Reachable(cfg, w) && k < |w.requests| && Erases(w.requests[k], id)
    ensures DeletedAgain(cfg, w, id, k) <==> FoundByAnother(w, id, k)
  {
    ReachableInv(cfg, w);
    assert RequestOk(cfg, w, k);
    if DeletedAgain(cfg, w, id, k) {
      var es, v, l: nat :| Runs(cfg, w, es, v) && l < |v.requests| && l != k && Erases(v.requests[l], id);
      AnotherFoundIt(cfg, w, es, v, id, k, l);
    }
    if FoundByAnother(w, id, k) {
      var l :| 0 <= l < |w.requests| && l != k && Finds(w.requests[l], id);
      assert RequestOk(cfg, w, l);
      FinderDeletes(cfg, w, id, k, l);
    }
  }

  lemma AnotherFoundIt(cfg: Config, w: World, es: seq<Event>, v: World, id: string, k: nat, l: nat)
    requires Inv(cfg, w) && Runs(cfg, w, es, v) && k < |w.requests| && l < |v.requests| && l != k
    requires Erases(w.requests[k], id) && w.requests[k].delivery.value.at < w.Now() && Erases(v.requests[l], id)
    ensures FoundByAnother(w, id, k)
  {
    RunExtends(cfg, w, es, v);
    assert SameRequest(w.requests[k], v.requests[k]);
    assert RequestOk(cfg, v, l) && Finds(v.requests[l], id);
    FoundBefore(cfg, w, es, v, l);
    assert SameRequest(w.requests[l], v.requests[l]);
    assert Finds(w.requests[l], id);
  }

  lemma FinderDeletes(cfg: Config, w: World, id: string, k: nat, l: nat)
    requires l < |w.requests| && l != k && Finds(w.requests[l], id) && RequestOk(cfg, w, l)
    ensures DeletedAgain(cfg, w, id, k)
  {
    if w.requests[l].delivery.Some? {
      assert Runs(cfg, w, [], w) && Erases(w.requests[l], id);
    } else {
      var v := Next(cfg, w, Erase(l));
      assert Runs(cfg, v, [], v) && [Erase(l)][1..] == [] && Runs(cfg, w, [Erase(l)], v);
      assert Erases(v.requests[l], id);
    }
  }
}
