// A permission revoked in the policy file while a call is parked is meant to void
// its approval. When it does, when it does not, and exactly which of the two.
module Voiding {
  import opened Wrappers
  import opened Json
  import opened Cedar
  import opened Policy
  import opened Store
  import opened Audit
  import opened Protocol
  import opened Invariant
  import opened Preservation
  import opened Guarantees
  import opened Conclusions
  import opened Freshness

  // With this text the call is denied, or the reload fails.
  predicate Denies(cfg: Config, text: string, c: Captured) {
    match cfg.reader.parse(text)
    case None => true
    case Some(ps) => Refuses(ps, c)
  }

  predicate Refuses(ps: PolicySet, c: Captured) {
    !MayCall(ps, c.onBehalfOf, c.roles, c.tool)
  }

  // The file denies the call at every instant from `t` on.
  predicate DeniedSince(cfg: Config, v: World, c: Captured, t: nat) {
    forall u :: t <= u <= v.Now() ==> Denies(cfg, v.MomentAt(u).disk, c)
  }

  // A Reload in flight holds a text that still permits the call.
  predicate StaleText(cfg: Config, w: World, c: Captured) {
    exists j :: 0 <= j < |w.sessions| && w.sessions[j].Swapping? && !Denies(cfg, w.sessions[j].text, c)
  }

  // ---- It holds without a stale text ---------------------------------------

  // Where session `i` may stand: still to be refused, being refused, or done.
  predicate BoundToRefuse(w: World, i: nat, tx: TxId, c: Captured) {
    && i < |w.sessions|
    && match w.sessions[i]
       case Reading(t, k) => t.tx == tx && k == c
       case Swapping(t, k, _, _, _) => t.tx == tx && k == c
       case Snapping(t, k, _, _) => t.tx == tx && k == c && |w.installs| > 0 && Refuses(w.Current().policies, c)
       case Rejudging(t, k, _, _, inst, _) => t.tx == tx && k == c && inst < |w.installs| && Refuses(w.installs[inst].policies, c)
       case Closing(t, _, _, _, r, _) => t.tx == tx && t.approve && Unattempted(r)
       case Noting(t, _, r, _) => t.tx == tx && t.approve && Unattempted(r)
       case Filing(t, _, r, _, _, _) => t.tx == tx && t.approve && Unattempted(r)
       case Finished(done) => done == tx && Concluded(w, tx)
       case _ => false
  }

  // Nothing was executed for the transaction, and a result it has is a refusal.
  predicate Voided(w: World, tx: TxId) {
    NoRequest(w, tx) && tx in w.rows && (w.rows[tx].result.Some? ==> RefusalRow(w.rows[tx]))
  }

  // A step brings no permitting text into flight, unless the file held one.
  lemma NoStaleTextStarts(cfg: Config, w: World, e: Event, c: Captured)
    requires Enabled(cfg, w, e) && !StaleText(cfg, w, c) && Denies(cfg, w.disk, c)
    ensures !StaleText(cfg, Next(cfg, w, e), c)
  {
    var v := Next(cfg, w, e);
    forall j | 0 <= j < |v.sessions| && v.sessions[j].Swapping? ensures Denies(cfg, v.sessions[j].text, c) {
      if !(j < |w.sessions| && v.sessions[j] == w.sessions[j]) { ReadsDisk(cfg, w, e, j); }
    }
  }

  lemma ReadsDisk(cfg: Config, w: World, e: Event, j: nat)
    requires Enabled(cfg, w, e) && j < |Next(cfg, w, e).sessions| && Next(cfg, w, e).sessions[j].Swapping?
    requires !(j < |w.sessions| && Next(cfg, w, e).sessions[j] == w.sessions[j])
    ensures Next(cfg, w, e).sessions[j].text == w.disk
  {
  }

  // What a swap installs comes from the text in flight.
  lemma InstallsInFlight(cfg: Config, w: World, e: Event, c: Captured)
    requires Enabled(cfg, w, e) && !StaleText(cfg, w, c) && ActingOk(cfg, w, e)
    ensures w.installs <= Next(cfg, w, e).installs && |Next(cfg, w, e).installs| <= |w.installs| + 1
    ensures |Next(cfg, w, e).installs| > |w.installs| ==> Refuses(Next(cfg, w, e).Current().policies, c)
  {
  }

  lemma OthersLeaveBound(cfg: Config, w: World, e: Event, i: nat, tx: TxId, c: Captured)
    requires Enabled(cfg, w, e) && !RunBy(e, i) && BoundToRefuse(w, i, tx, c) && |w.began| == |w.sessions|
    requires w.installs <= Next(cfg, w, e).installs && |Next(cfg, w, e).installs| <= |w.installs| + 1
    requires |Next(cfg, w, e).installs| > |w.installs| ==> Refuses(Next(cfg, w, e).Current().policies, c)
    requires w.sessions[i].Finished? ==> Concluded(Next(cfg, w, e), tx)
    ensures BoundToRefuse(Next(cfg, w, e), i, tx, c)
  {
    NextSessions(cfg, w, e);
  }

  lemma RefusesBound(cfg: Config, w: World, e: Event, i: nat, tx: TxId, c: Captured)
    requires Enabled(cfg, w, e) && RunBy(e, i) && BoundToRefuse(w, i, tx, c) && SessionOk(cfg, w, i)
    requires w.sessions[i].Rejudging? || w.sessions[i].Closing? || w.sessions[i].Noting?
    ensures BoundToRefuse(Next(cfg, w, e), i, tx, c)
  {
  }

  lemma FilingFinishes(cfg: Config, w: World, e: Event, i: nat, tx: TxId)
    requires Enabled(cfg, w, e) && RunBy(e, i) && w.sessions[i].Filing? && w.sessions[i].t.tx == tx
    requires UniqueClaims(w.sessions) && tx in w.rows && !w.rows[tx].state.Pending?
    ensures Concluded(Next(cfg, w, e), tx)
  {
    var v := Next(cfg, w, e);
    assert v.sessions == w.sessions[i := Finished(tx)] && v.rows == w.rows;
  }

  lemma BoundStep(cfg: Config, w: World, e: Event, i: nat, tx: TxId, c: Captured)
    requires Inv(cfg, w) && Enabled(cfg, w, e) && BoundToRefuse(w, i, tx, c)
    requires !StaleText(cfg, w, c)
    ensures BoundToRefuse(Next(cfg, w, e), i, tx, c)
  {
    assert SessionOk(cfg, w, i);
    if RunBy(e, i) {
      if w.sessions[i].Filing? {
        assert Claim(w.sessions[i]) == Some(tx);
        FilingFinishes(cfg, w, e, i, tx);
      } else if w.sessions[i].Rejudging? || w.sessions[i].Closing? || w.sessions[i].Noting? {
        RefusesBound(cfg, w, e, i, tx, c);
      }
    } else {
      if e.Run? { assert SessionOk(cfg, w, e.actor); }
      InstallsInFlight(cfg, w, e, c);
      if w.sessions[i].Finished? { ConcludedStep(cfg, w, e, tx); }
      OthersLeaveBound(cfg, w, e, i, tx, c);
    }
  }

  // Bound to refuse, the session sends nothing, and stores nothing but a refusal.
  lemma VoidedStep(cfg: Config, w: World, e: Event, i: nat, tx: TxId, c: Captured)
    requires Inv(cfg, w) && Enabled(cfg, w, e) && BoundToRefuse(w, i, tx, c) && Voided(w, tx)
    ensures Voided(Next(cfg, w, e), tx)
  {
    assert SessionOk(cfg, w, i);
    if RunBy(e, i) {
      NextRows(cfg, w, e, tx);
      VoidedOwnStep(cfg, w, e, i, tx, c);
    } else {
      if w.sessions[i].Finished? { NobodyActs(cfg, w, e, tx); } else { ClaimsAreExclusive(cfg, w, e, i); }
      NextUndisturbed(cfg, w, e, tx);
      NextExtends(cfg, w, e);
      NothingNewStays(w, Next(cfg, w, e), tx);
    }
  }

  lemma VoidedOwnStep(cfg: Config, w: World, e: Event, i: nat, tx: TxId, c: Captured)
    requires Enabled(cfg, w, e) && RunBy(e, i) && SessionOk(cfg, w, i)
    requires BoundToRefuse(w, i, tx, c) && Voided(w, tx) && tx in Next(cfg, w, e).rows
    ensures Voided(Next(cfg, w, e), tx)
  {
  }

  lemma {:induction false} VoidedRun(cfg: Config, w: World, es: seq<Event>, v: World, i: nat, tx: TxId, c: Captured)
    requires Inv(cfg, w) && Runs(cfg, w, es, v) && BoundToRefuse(w, i, tx, c) && Voided(w, tx)
    requires !StaleText(cfg, w, c) && DeniedSince(cfg, v, c, w.Now())
    ensures BoundToRefuse(v, i, tx, c) && Voided(v, tx)
    decreases |es|
  {
    if es != [] {
      var next := Next(cfg, w, es[0]);
      RunExtends(cfg, w, es, v);
      assert v.MomentAt(w.Now()) == w.MomentAt(w.Now());
      NextTicks(cfg, w, es[0]);
      NextInv(cfg, w, es[0]);
      NoStaleTextStarts(cfg, w, es[0], c);
      BoundStep(cfg, w, es[0], i, tx, c);
      VoidedStep(cfg, w, es[0], i, tx, c);
      VoidedRun(cfg, next, es[1..], v, i, tx, c);
    }
  }

  // The file has denied the call since the session was about to reload, and no Reload in flight
  // then held a text that permits it: the approval is void. The tool is not called, the only
  // result stored is a refusal, and once the session has ended this is so for good.
  lemma PolicyRevocationRespected(cfg: Config, w: World, es: seq<Event>, v: World, i: nat)
    requires Reachable(cfg, w) && i < |w.sessions| && w.sessions[i].Reading? && Runs(cfg, w, es, v)
    requires !StaleText(cfg, w, w.sessions[i].c) && DeniedSince(cfg, v, w.sessions[i].c, w.Now())
    ensures Voided(v, w.sessions[i].t.tx)
    ensures i < |v.sessions| && (v.sessions[i].Finished? ==> Concluded(v, w.sessions[i].t.tx))
  {
    ReachableInv(cfg, w);
    assert SessionOk(cfg, w, i);
    VoidedRun(cfg, w, es, v, i, w.sessions[i].t.tx, w.sessions[i].c);
  }

  // If the file has denied the call since the click, every text in flight that permits it was read
  // before the click.
  lemma StaleTextIsOlder(cfg: Config, w: World, c: Captured, clickAt: nat)
    requires Reachable(cfg, w) && DeniedSince(cfg, w, c, clickAt)
    ensures forall j :: 0 <= j < |w.sessions| && w.sessions[j].Swapping? && !Denies(cfg, w.sessions[j].text, c)
              ==> w.sessions[j].readAt < clickAt
  {
    ReachableInv(cfg, w);
    forall j | 0 <= j < |w.sessions| && w.sessions[j].Swapping? && !Denies(cfg, w.sessions[j].text, c)
      ensures w.sessions[j].readAt < clickAt
    {
      assert SessionOk(cfg, w, j);
    }
  }

  // So if every text the file has held from the winning click on denies the call, and no older
  // Reload was in flight when the session was about to read the file, the approval is void.
  lemma DeniedSinceClickIsVoided(cfg: Config, w: World, es: seq<Event>, v: World, i: nat)
    requires Reachable(cfg, w) && i < |w.sessions| && w.sessions[i].Reading? && Runs(cfg, w, es, v)
    requires !OlderReload(w, w.sessions[i].t.clickAt) && DeniedSince(cfg, v, w.sessions[i].c, w.sessions[i].t.clickAt)
    ensures Voided(v, w.sessions[i].t.tx)
  {
    var clickAt, c := w.sessions[i].t.clickAt, w.sessions[i].c;
    DeniedAlready(cfg, w, es, v, i);
    StaleTextIsOlder(cfg, w, c, clickAt);
    PolicyRevocationRespected(cfg, w, es, v, i);
  }

  lemma DeniedAlready(cfg: Config, w: World, es: seq<Event>, v: World, i: nat)
    requires Reachable(cfg, w) && i < |w.sessions| && w.sessions[i].Reading? && Runs(cfg, w, es, v)
    requires DeniedSince(cfg, v, w.sessions[i].c, w.sessions[i].t.clickAt)
    ensures w.sessions[i].t.clickAt < w.Now() && DeniedSince(cfg, w, w.sessions[i].c, w.sessions[i].t.clickAt)
  {
    ReachableInv(cfg, w);
    assert SessionOk(cfg, w, i);
    RunExtends(cfg, w, es, v);
    forall u | w.sessions[i].t.clickAt <= u <= w.Now() ensures Denies(cfg, w.MomentAt(u).disk, w.sessions[i].c) {
      assert v.MomentAt(u) == w.MomentAt(u);
    }
  }

  // ---- It fails with one -----------------------------------------------------

  // From a session about to re-check with policies that permit the call, the graph's edge granted,
  // to the request sent; the file stays as it is.
  lemma PermittedIsSent(cfg: Config, w: World, i: nat) returns (v: World)
    requires i < |w.sessions| && w.sessions[i].Rejudging? && w.sessions[i].inst < |w.installs|
    requires !Refuses(w.installs[w.sessions[i].inst].policies, w.sessions[i].c)
    requires Parkable(cfg, w.sessions[i].c.tool, w.sessions[i].c.args)
    ensures Leads(cfg, w, v) && SameDisk(w, v) && Sent(v, w.sessions[i].t.tx)
  {
    var c := w.sessions[i].c;
    var edge := Edge(c.onBehalfOf, StrAt(c.args, "id"));
    var granted := Next(cfg, w, Grant(edge));
    StepLeads(cfg, w, Grant(edge));
    assert granted.edges == w.edges + {edge} && granted.sessions == w.sessions && granted.installs == w.installs;
    v := OwnedIsSent(cfg, granted, i);
    LeadsThen(cfg, w, granted, v);
  }

  lemma OwnedIsSent(cfg: Config, w: World, i: nat) returns (v: World)
    requires i < |w.sessions| && w.sessions[i].Rejudging? && w.sessions[i].inst < |w.installs|
    requires !Refuses(w.installs[w.sessions[i].inst].policies, w.sessions[i].c)
    requires Parkable(cfg, w.sessions[i].c.tool, w.sessions[i].c.args)
    requires Edge(w.sessions[i].c.onBehalfOf, StrAt(w.sessions[i].c.args, "id")) in w.edges
    ensures Leads(cfg, w, v) && SameDisk(w, v) && Sent(v, w.sessions[i].t.tx)
  {
    var e := Run(i, Done, Undrawn(w.log));
    var passed := Next(cfg, w, e);
    StepLeads(cfg, w, e);
    v := PassedIsSent(cfg, passed, i);
    LeadsThen(cfg, w, passed, v);
  }

  lemma PassedIsSent(cfg: Config, w: World, i: nat) returns (v: World)
    requires i < |w.sessions| && w.sessions[i].Connecting? && |w.installs| > 0
    ensures Leads(cfg, w, v) && SameDisk(w, v) && Sent(v, w.sessions[i].t.tx)
  {
    var e := Run(i, Done, Undrawn(w.log));
    var open := Next(cfg, w, e);
    StepLeads(cfg, w, e);
    v := ConnectedIsSent(cfg, open, i);
    LeadsThen(cfg, w, open, v);
  }

  lemma ConnectedIsSent(cfg: Config, w: World, i: nat) returns (v: World)
    requires i < |w.sessions| && w.sessions[i].Calling? && |w.installs| > 0
    ensures Leads(cfg, w, v) && SameDisk(w, v) && Sent(v, w.sessions[i].t.tx)
  {
    var e := Run(i, Done, Undrawn(w.log));
    v := Next(cfg, w, e);
    StepLeads(cfg, w, e);
    assert v.requests[|w.requests|].origin == Approval(w.sessions[i].t.tx);
  }

  // The file denies the call, yet a Reload in flight puts a permitting text back and the call goes out.
  lemma StaleTextIsUsed(cfg: Config, w: World, i: nat) returns (v: World)
    requires Reachable(cfg, w) && i < |w.sessions| && w.sessions[i].Reading?
    requires cfg.reader.parse(w.disk).Some? && StaleText(cfg, w, w.sessions[i].c)
    ensures Leads(cfg, w, v) && SameDisk(w, v) && Sent(v, w.sessions[i].t.tx)
  {
    var j :| 0 <= j < |w.sessions| && w.sessions[j].Swapping? && !Denies(cfg, w.sessions[j].text, w.sessions[i].c);
    ReadingIsParkable(cfg, w, i);
    var u := OlderReloadWins(cfg, w, i, j);
    ReachableLeads(cfg, w, u);
    ReachableInv(cfg, u);
    assert InstallOk(cfg, u, u.sessions[i].inst);
    var sent := PermittedIsSent(cfg, u, i);
    LeadsThen(cfg, w, u, sent);
    v := sent;
  }

  lemma ReadingIsParkable(cfg: Config, w: World, i: nat)
    requires Reachable(cfg, w) && i < |w.sessions| && w.sessions[i].Reading?
    ensures |w.installs| > 0 && Parkable(cfg, w.sessions[i].c.tool, w.sessions[i].c.args)
  {
    ReachableInv(cfg, w);
    assert SessionOk(cfg, w, i) && RowOk(cfg, w, w.sessions[i].t.tx);
  }

  // ---- Exactly -------------------------------------------------------------

  // An approval is about to reload a readable file that denies its call. As long as the file goes
  // on denying it, the call is kept from the backend in every continuation, if and only if no
  // Reload in flight holds a text that still permits it.
  lemma VoidedIff(cfg: Config, w: World, i: nat)
    requires Reachable(cfg, w) && i < |w.sessions| && w.sessions[i].Reading?
    requires cfg.reader.parse(w.disk).Some? && Denies(cfg, w.disk, w.sessions[i].c)
    ensures (forall es, v :: Runs(cfg, w, es, v) && DeniedSince(cfg, v, w.sessions[i].c, w.Now())
                             ==> NoRequest(v, w.sessions[i].t.tx))
            <==> !StaleText(cfg, w, w.sessions[i].c)
  {
    var tx, c := w.sessions[i].t.tx, w.sessions[i].c;
    if StaleText(cfg, w, c) {
      NotVoided(cfg, w, i);
    } else {
      forall es, v | Runs(cfg, w, es, v) && DeniedSince(cfg, v, c, w.Now()) ensures NoRequest(v, tx) {
        PolicyRevocationRespected(cfg, w, es, v, i);
      }
    }
  }

  lemma NotVoided(cfg: Config, w: World, i: nat)
    requires Reachable(cfg, w) && i < |w.sessions| && w.sessions[i].Reading?
    requires cfg.reader.parse(w.disk).Some? && Denies(cfg, w.disk, w.sessions[i].c) && StaleText(cfg, w, w.sessions[i].c)
    ensures exists es, v :: Runs(cfg, w, es, v) && DeniedSince(cfg, v, w.sessions[i].c, w.Now())
                            && !NoRequest(v, w.sessions[i].t.tx)
  {
    var v := StaleTextIsUsed(cfg, w, i);
    var es :| Runs(cfg, w, es, v);
    var k :| 0 <= k < |v.requests| && v.requests[k].origin == Approval(w.sessions[i].t.tx);
  }

}
