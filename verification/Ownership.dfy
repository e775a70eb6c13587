// The ownership graph along a run: who owned what at every instant, read off the
// grants and revokes, and what that says of the records that were deleted.
module Ownership {
  import opened Wrappers
  import opened Json
  import opened Policy
  import opened Store
  import opened Audit
  import opened Relations
  import opened Protocol
  import opened Invariant
  import opened Preservation
  import opened Guarantees
  import opened Destruction

  // ---- The graph at every instant --------------------------------------------

  function EdgesAfter(edges: set<Edge>, e: Event): set<Edge> {
    match e
    case Grant(edge) => edges + {edge}
    case Revoke(edge) => edges - {edge}
    case _ => edges
  }

  // The k-th event of a run takes the graph from one instant to the next.
  lemma {:induction false} MomentsOfRun(cfg: Config, w: World, es: seq<Event>, v: World)
    requires Runs(cfg, w, es, v)
    ensures v.Now() == w.Now() + |es|
    ensures forall t :: 0 <= t <= w.Now() ==> v.MomentAt(t) == w.MomentAt(t)
    ensures forall k :: 0 <= k < |es| ==>
              v.MomentAt(w.Now() + k + 1).edges == EdgesAfter(v.MomentAt(w.Now() + k).edges, es[k])
    decreases |es|
  {
    if es != [] {
      var next := Next(cfg, w, es[0]);
      NextTicks(cfg, w, es[0]);
      MomentsOfRun(cfg, next, es[1..], v);
      forall k | 0 <= k < |es|
        ensures v.MomentAt(w.Now() + k + 1).edges == EdgesAfter(v.MomentAt(w.Now() + k).edges, es[k])
      {
        if k == 0 {
          assert v.MomentAt(w.Now() + 1) == next.MomentAt(next.Now()) && v.MomentAt(w.Now()) == w.MomentAt(w.Now());
        } else {
          assert es[k] == es[1..][k - 1] && w.Now() + k == next.Now() + (k - 1);
        }
      }
    }
  }

  // Between the a-th and the b-th event the edge was revoked, and not granted again after that.
  predicate Withdrawn(es: seq<Event>, edge: Edge, a: nat, b: nat)
    requires b <= |es|
  {
    exists k :: a <= k < b && es[k] == Event.Revoke(edge) && forall l :: k < l < b ==> es[l] != Event.Grant(edge)
  }

  predicate Written(es: seq<Event>, edge: Edge, a: nat, b: nat)
    requires b <= |es|
  {
    exists k :: a <= k < b && es[k] == Event.Grant(edge)
  }

  // Whether an edge is there at a later instant, from what is there at an earlier one: it was not
  // withdrawn in between, and it was there already or has been written.
  lemma {:induction false} EdgeHistory(cfg: Config, w: World, es: seq<Event>, v: World, edge: Edge, a: nat, b: nat)
    requires Runs(cfg, w, es, v) && a <= b <= |es|
    ensures v.Now() == w.Now() + |es|
    ensures edge in v.MomentAt(w.Now() + b).edges <==>
              !Withdrawn(es, edge, a, b) && (edge in v.MomentAt(w.Now() + a).edges || Written(es, edge, a, b))
    decreases b
  {
    MomentsOfRun(cfg, w, es, v);
    if a < b {
      EdgeHistory(cfg, w, es, v, edge, a, b - 1);
      assert v.MomentAt(w.Now() + (b - 1) + 1).edges == EdgesAfter(v.MomentAt(w.Now() + (b - 1)).edges, es[b - 1]);
    }
  }

  // ---- The graph as the history of its updates ---------------------------------

  function Updates(es: seq<Event>): seq<Update> {
    if es == [] then [] else UpdateOf(es[0]) + Updates(es[1..])
  }

  function UpdateOf(e: Event): seq<Update> {
    match e
    case Grant(edge) => [Touch(edge)]
    case Revoke(edge) => [Delete(edge)]
    case _ => []
  }

  lemma {:induction false} RunReplays(cfg: Config, w: World, es: seq<Event>, v: World, history: seq<Update>)
    requires Runs(cfg, w, es, v) && w.edges == Replay(history)
    ensures v.edges == Replay(history + Updates(es))
    decreases |es|
  {
    if es == [] {
      assert history + Updates(es) == history;
    } else {
      if UpdateOf(es[0]) == [] {
        assert history + UpdateOf(es[0]) == history;
      } else {
        assert (history + UpdateOf(es[0]))[..|history|] == history;
      }
      RunReplays(cfg, Next(cfg, w, es[0]), es[1..], v, history + UpdateOf(es[0]));
      UpdatesFirst(history, es);
    }
  }

  lemma UpdatesFirst(history: seq<Update>, es: seq<Event>)
    requires es != []
    ensures history + UpdateOf(es[0]) + Updates(es[1..]) == history + Updates(es)
  {
  }

  // A run of the protocol does to the graph what its updates do to a history: after any run an
  // edge is there exactly when the last operation on it, before or during the run, wrote it.
  lemma GraphIsHistory(cfg: Config, w: World, es: seq<Event>, v: World, history: seq<Update>, edge: Edge)
    requires Runs(cfg, w, es, v) && w.edges == Replay(history)
    ensures edge in v.edges <==> LastGranted(history + Updates(es), edge)
  {
    RunReplays(cfg, w, es, v, history);
    GraphRefinesHistory(history + Updates(es), edge);
  }

  // ---- Ownership at the deletion -----------------------------------------------

  // A record deleted for a transaction was checked to be the user's when the call was re-checked.
  // It is still the user's when it is deleted if and only if no revocation fell between the check
  // and the deletion that was not repaired by a grant before the deletion.
  lemma DeletedWhileOwnedIff(cfg: Config, w0: World, es: seq<Event>, v: World, id: string, k: nat)
    requires Initial(cfg, w0) && Runs(cfg, w0, es, v) && k < |v.requests| && Erases(v.requests[k], id)
    ensures DestroyedBy(cfg, v, id, k) && v.requests[k].delivery.value.at <= |es|
    ensures
      var q := v.requests[k];
      var c := v.rows[q.origin.tx].call;
      var edge := Edge(c.onBehalfOf, id);
      && (OwnedAt(v, c, q.delivery.value.at) <==>
            && !Withdrawn(es, edge, q.ownerAt, q.delivery.value.at)
            && (OwnedAt(v, c, q.ownerAt) || Written(es, edge, q.ownerAt, q.delivery.value.at)))
      && (cfg.ownership ==> (OwnedAt(v, c, q.delivery.value.at) <==> !Withdrawn(es, edge, q.ownerAt, q.delivery.value.at)))
  {
    InitialInv(cfg, w0);
    RunsInv(cfg, w0, es, v);
    ErasureIsApproved(cfg, v, id, k);
    OwnedSinceIff(cfg, w0, es, v, id, k);
  }

  lemma OwnedSinceIff(cfg: Config, w0: World, es: seq<Event>, v: World, id: string, k: nat)
    requires w0.past == [] && Runs(cfg, w0, es, v) && k < |v.requests| && DestroyedBy(cfg, v, id, k)
    ensures v.requests[k].delivery.value.at <= |es|
    ensures
      var q := v.requests[k];
      var c := v.rows[q.origin.tx].call;
      OwnedAt(v, c, q.delivery.value.at) <==>
        && !Withdrawn(es, Edge(c.onBehalfOf, id), q.ownerAt, q.delivery.value.at)
        && (OwnedAt(v, c, q.ownerAt) || Written(es, Edge(c.onBehalfOf, id), q.ownerAt, q.delivery.value.at))
  {
    MomentsOfRun(cfg, w0, es, v);
    var q := v.requests[k];
    EdgeHistory(cfg, w0, es, v, Edge(v.rows[q.origin.tx].call.onBehalfOf, id), q.ownerAt, q.delivery.value.at);
  }

  // ---- Accountability ------------------------------------------------------------

  // The audit row of the attempt behind a destroyed record.
  predicate AccountsFor(w: World, row: AuditRow, id: string, tx: TxId)
    requires tx in w.rows
  {
    && Links(row, tx, w.rows[tx].call, w.rows[tx].createdAt)
    && row.entry.onBehalfOf == w.rows[tx].call.onBehalfOf && IdArg(row.entry.args) == Some(id)
  }

  // Every destroyed record is accounted for: exactly one audit row has the id of the transaction
  // that destroyed it, and it is an earlier needs_approval for that user and that record.
  lemma DestructionIsOnRecord(cfg: Config, w: World, id: string, k: nat)
    requires Reachable(cfg, w) && k < |w.requests| && DestroyedBy(cfg, w, id, k)
    ensures
      var tx := w.requests[k].origin.tx;
      exists l :: 0 <= l < |w.log| && AccountsFor(w, w.log[l], id, tx) && w.log[l].at < w.rows[tx].createdAt
                  && forall m :: 0 <= m < |w.log| && w.log[m].tx == tx ==> m == l
  {
    var tx := w.requests[k].origin.tx;
    ParkedIsLinked(cfg, w, tx);
    var l :| 0 <= l < |w.log| && Links(w.log[l], tx, w.rows[tx].call, w.rows[tx].createdAt);
    assert AccountsFor(w, w.log[l], id, tx);
  }
}
