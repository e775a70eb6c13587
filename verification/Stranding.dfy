// When operations fail: which decided rows are still going to get a result.
module Stranding {
  import opened Policy
  import opened Store
  import opened Audit
  import opened Protocol
  import opened Invariant
  import opened Preservation
  import opened Guarantees
  import opened FaultFree

  // Some running session still has to store the result of `tx`.
  predicate Held(w: World, tx: TxId) {
    exists i :: 0 <= i < |w.sessions| && Holding(w.sessions[i]) && w.sessions[i].t.tx == tx
  }

  predicate Abandoned(w: World, tx: TxId) {
    tx in w.rows && !w.rows[tx].state.Pending? && w.rows[tx].result.None? && !Held(w, tx)
  }

  // A session comes to hold a transaction only by winning its click, or by holding it already.
  lemma HoldersAreOld(cfg: Config, w: World, e: Event, i: nat)
    requires Enabled(cfg, w, e) && i < |Next(cfg, w, e).sessions| && |w.began| == |w.sessions|
    requires Holding(Next(cfg, w, e).sessions[i])
    ensures i < |w.sessions|
    ensures
      var s, t := w.sessions[i], Next(cfg, w, e).sessions[i];
      || (Holding(s) && s.t == t.t)
      || (s.Clicking? && s.tx == t.t.tx && Winnable(w.rows, s.tx))
  {
    NextSessions(cfg, w, e);
    if RunBy(e, i) { HolderWasOld(cfg, w, e); }
  }

  lemma HolderWasOld(cfg: Config, w: World, e: Event)
    requires Enabled(cfg, w, e) && e.Run? && Holding(Next(cfg, w, e).sessions[e.actor])
    ensures
      var s, t := w.sessions[e.actor], Next(cfg, w, e).sessions[e.actor];
      || (Holding(s) && s.t == t.t)
      || (s.Clicking? && s.tx == t.t.tx && Winnable(w.rows, s.tx))
  {
  }

  lemma AbandonedStep(cfg: Config, w: World, e: Event, tx: TxId)
    requires Inv(cfg, w) && Enabled(cfg, w, e) && Abandoned(w, tx)
    ensures Abandoned(Next(cfg, w, e), tx) && Next(cfg, w, e).rows[tx] == w.rows[tx]
  {
    var v := Next(cfg, w, e);
    NextRows(cfg, w, e, tx);
    ParkedIsLogged(cfg, w, tx);
    if Held(v, tx) {
      var i :| 0 <= i < |v.sessions| && Holding(v.sessions[i]) && v.sessions[i].t.tx == tx;
      HoldersAreOld(cfg, w, e, i);
    }
  }

  lemma {:induction false} AbandonedForever(cfg: Config, w: World, es: seq<Event>, v: World, tx: TxId)
    requires Inv(cfg, w) && Abandoned(w, tx) && Runs(cfg, w, es, v)
    ensures Abandoned(v, tx) && v.rows[tx] == w.rows[tx]
    decreases |es|
  {
    if es != [] {
      AbandonedStep(cfg, w, es[0], tx);
      NextInv(cfg, w, es[0]);
      AbandonedForever(cfg, Next(cfg, w, es[0]), es[1..], v, tx);
    }
  }

  predicate HolderMoved(w: World, i: nat, v: World) {
    i < |w.sessions| && Holding(w.sessions[i]) &&
    var tx := w.sessions[i].t.tx;
    && i < |v.sessions| && tx in v.rows
    && (if w.sessions[i].Closing? then v.rows[tx].result.Some?
        else Holding(v.sessions[i]) && v.sessions[i].t.tx == tx)
  }

  lemma HolderRuns(cfg: Config, w: World, i: nat, drawn: TxId)
    requires Enabled(cfg, w, Run(i, Done, drawn)) && SessionOk(cfg, w, i) && Holding(w.sessions[i])
    ensures HolderMoved(w, i, Next(cfg, w, Run(i, Done, drawn)))
  {
  }

  ghost predicate CanGetResult(cfg: Config, w: World, tx: TxId) {
    exists es, v :: Runs(cfg, w, es, v) && tx in v.rows && v.rows[tx].result.Some?
  }

  lemma ResultLater(cfg: Config, w: World, e: Event, tx: TxId)
    requires Enabled(cfg, w, e) && CanGetResult(cfg, Next(cfg, w, e), tx)
    ensures CanGetResult(cfg, w, tx)
  {
    var es, v :| Runs(cfg, Next(cfg, w, e), es, v) && tx in v.rows && v.rows[tx].result.Some?;
    RunAfter(cfg, w, e, es, v);
  }

  lemma {:induction false} HolderFinishes(cfg: Config, w: World, i: nat, tx: TxId)
    requires Reachable(cfg, w) && i < |w.sessions| && Holding(w.sessions[i]) && w.sessions[i].t.tx == tx
    ensures CanGetResult(cfg, w, tx)
    decreases Measure(w)
  {
    ReachableInv(cfg, w);
    NeverStuck(cfg, w, i);
    assert SessionOk(cfg, w, i);
    if NextMove(w, i).Run? { HolderRuns(cfg, w, i, Undrawn(w.log)); }
    MeasureDecreases(cfg, w, NextMove(w, i));
    StepLeads(cfg, w, NextMove(w, i));
    var u := Next(cfg, w, NextMove(w, i));
    if w.sessions[i].Closing? {
      assert Runs(cfg, u, [], u);
    } else {
      HolderFinishes(cfg, u, i, tx);
    }
    ResultLater(cfg, w, NextMove(w, i), tx);
  }

  // Under faults a row can stay `approved`, or `denied` without a result, for ever: nothing
  // retries. A decided row without a result can still get one if and only if a running
  // session holds it; otherwise no continuation ever changes the row.
  lemma StrandedIffAbandoned(cfg: Config, w: World, tx: TxId)
    requires Reachable(cfg, w) && tx in w.rows && !w.rows[tx].state.Pending? && w.rows[tx].result.None?
    ensures CanGetResult(cfg, w, tx) <==> Held(w, tx)
    ensures !Held(w, tx) ==> forall es, v :: Runs(cfg, w, es, v) ==> tx in v.rows && v.rows[tx] == w.rows[tx]
  {
    ReachableInv(cfg, w);
    if Held(w, tx) {
      var i :| 0 <= i < |w.sessions| && Holding(w.sessions[i]) && w.sessions[i].t.tx == tx;
      HolderFinishes(cfg, w, i, tx);
    } else {
      forall es, v | Runs(cfg, w, es, v) ensures tx in v.rows && v.rows[tx] == w.rows[tx] {
        AbandonedForever(cfg, w, es, v, tx);
      }
    }
  }

  // ---- That it happens -------------------------------------------------------

  // From any world in which a transaction waits for a decision: one more click, one failure, and
  // the row is abandoned as `approved` or `denied`.

  lemma ClickArrives(cfg: Config, w: World, tx: TxId, approve: bool) returns (u: World)
    requires Reachable(cfg, w) && |w.installs| > 0 && Winnable(w.rows, tx)
    ensures Reachable(cfg, u) && |u.installs| > 0 && u.rows == w.rows
    ensures u.sessions == w.sessions + [Clicking(tx, "", approve)]
  {
    u := Next(cfg, w, Begin(Clicking(tx, "", approve)));
    StepLeads(cfg, w, Begin(Clicking(tx, "", approve)));
  }

  lemma NobodyHolds(cfg: Config, w: World, v: World, tx: TxId, s: Session)
    requires Reachable(cfg, w) && Winnable(w.rows, tx) && v.sessions == w.sessions + [s] && !Holding(s)
    ensures !Held(v, tx)
  {
    ReachableInv(cfg, w);
    PendingIsUnheld(cfg, w, tx);
    assert forall i :: 0 <= i < |w.sessions| ==> v.sessions[i] == w.sessions[i];
  }

  lemma PendingIsUnheld(cfg: Config, w: World, tx: TxId)
    requires Inv(cfg, w) && Winnable(w.rows, tx)
    ensures !Held(w, tx)
  {
    forall i | 0 <= i < |w.sessions| ensures !(Holding(w.sessions[i]) && w.sessions[i].t.tx == tx) {
      assert SessionOk(cfg, w, i);
    }
  }

  // The click took effect, but the clicker sees an error.
  lemma LostClickAbandons(cfg: Config, w: World, tx: TxId, approve: bool) returns (v: World)
    requires Reachable(cfg, w) && |w.installs| > 0 && Winnable(w.rows, tx)
    ensures Reachable(cfg, v) && Abandoned(v, tx) && (if approve then v.rows[tx].state.Approved? else v.rows[tx].state.Denied?)
  {
    var u := ClickArrives(cfg, w, tx, approve);
    PendingHasNoResult(cfg, w, tx);
    v := ClickIsLost(cfg, u, |w.sessions|);
    NobodyHolds(cfg, w, v, tx, Finished(tx));
  }

  lemma ClickIsLost(cfg: Config, u: World, i: nat) returns (v: World)
    requires Reachable(cfg, u) && |u.installs| > 0 && |u.sessions| == i + 1 && u.sessions[i].Clicking?
    requires Winnable(u.rows, u.sessions[i].tx)
    ensures Reachable(cfg, v)
    ensures
      var Clicking(tx, decider, approve) := u.sessions[i];
      && v.sessions == u.sessions[..i] + [Finished(tx)]
      && v.rows == Decided(u.rows, tx, if approve then Approved else Denied, decider, u.Now())
  {
    var e := Run(i, Lost, Undrawn(u.log));
    v := Next(cfg, u, e);
    StepLeads(cfg, u, e);
    assert u.sessions == u.sessions[..i] + [u.sessions[i]];
  }

  lemma PendingHasNoResult(cfg: Config, w: World, tx: TxId)
    requires Reachable(cfg, w) && Winnable(w.rows, tx)
    ensures w.rows[tx].result.None?
  {
    ReachableInv(cfg, w);
    assert RowOk(cfg, w, tx);
  }

  lemma ClickIsWon(cfg: Config, w: World, tx: TxId, approve: bool) returns (v: World)
    requires Reachable(cfg, w) && |w.installs| > 0 && Winnable(w.rows, tx)
    ensures Reachable(cfg, v) && |v.installs| > 0 && |v.sessions| == |w.sessions| + 1 && v.sessions[..|w.sessions|] == w.sessions
    ensures v.sessions[|w.sessions|].Fetching?
    ensures v.sessions[|w.sessions|].t.tx == tx && v.sessions[|w.sessions|].t.approve == approve
    ensures tx in v.rows && v.rows[tx].state == (if approve then Approved else Denied) && v.rows[tx].result.None?
  {
    var u := ClickArrives(cfg, w, tx, approve);
    PendingHasNoResult(cfg, w, tx);
    var e := Run(|w.sessions|, Done, Undrawn(u.log));
    v := Next(cfg, u, e);
    StepLeads(cfg, u, e);
  }

  // The click was won and reported, but the row cannot be read back.
  lemma FailedFetchAbandons(cfg: Config, w: World, tx: TxId, approve: bool) returns (v: World)
    requires Reachable(cfg, w) && |w.installs| > 0 && Winnable(w.rows, tx)
    ensures Reachable(cfg, v) && Abandoned(v, tx) && (if approve then v.rows[tx].state.Approved? else v.rows[tx].state.Denied?)
  {
    var u := ClickIsWon(cfg, w, tx, approve);
    var e := Run(|w.sessions|, Refused, Undrawn(u.log));
    v := Next(cfg, u, e);
    StepLeads(cfg, u, e);
    assert v.sessions == w.sessions + [Finished(tx)];
    NobodyHolds(cfg, w, v, tx, Finished(tx));
  }

  // The denial was won and read back, but its result cannot be stored.
  lemma RefusedResultAbandons(cfg: Config, w: World, tx: TxId) returns (v: World)
    requires Reachable(cfg, w) && |w.installs| > 0 && Winnable(w.rows, tx)
    ensures Reachable(cfg, v) && Abandoned(v, tx) && v.rows[tx].state.Denied?
  {
    var i := |w.sessions|;
    var won := ClickIsWon(cfg, w, tx, false);
    var fetch := Run(i, Done, Undrawn(won.log));
    var u := Next(cfg, won, fetch);
    StepLeads(cfg, won, fetch);
    v := ResultRefused(cfg, u, i);
    NobodyHolds(cfg, w, v, tx, v.sessions[i]);
  }

  lemma ResultRefused(cfg: Config, u: World, i: nat) returns (v: World)
    requires Reachable(cfg, u) && |u.installs| > 0 && |u.sessions| == i + 1 && u.sessions[i].Closing?
    ensures Reachable(cfg, v) && v.rows == u.rows
    ensures |v.sessions| == i + 1 && v.sessions == u.sessions[..i] + [v.sessions[i]] && v.sessions[i].Noting?
  {
    var e := Run(i, Refused, Undrawn(u.log));
    v := Next(cfg, u, e);
    StepLeads(cfg, u, e);
    assert v.sessions == u.sessions[i := v.sessions[i]];
    assert u.sessions == u.sessions[..i] + [u.sessions[i]];
  }

  // ---- A restart -------------------------------------------------------------

  // The service after a restart: the policy file loaded afresh, and no call left running. The
  // database, the graph and the backend go on as they were.
  function Restarted(cfg: Config, w: World): World
    requires cfg.reader.parse(w.disk).Some?
  {
    var install := Install(w.disk, cfg.reader.parse(w.disk).value, VersionOf(cfg.reader, w.disk), w.Now(), w.Now());
    w.(installs := w.installs + [install],
       sessions := seq(|w.sessions|, i requires 0 <= i < |w.sessions| => if Over(w.sessions[i]) then w.sessions[i] else Finished(0)),
       past := w.past + [Moment(w.disk, w.edges)])
  }

  lemma RestartExtends(cfg: Config, w: World)
    requires cfg.reader.parse(w.disk).Some?
    ensures Extends(w, Restarted(cfg, w))
  {
  }

  lemma RestartRequests(cfg: Config, w: World, k: nat)
    requires Inv(cfg, w) && cfg.reader.parse(w.disk).Some? && k < |w.requests|
    ensures RequestOk(cfg, Restarted(cfg, w), k)
  {
    RestartExtends(cfg, w);
    assert RequestOk(cfg, w, k);
    if w.requests[k].origin.Approval? { assert RowOk(cfg, w, w.requests[k].origin.tx); }
  }

  // The invariant survives it, and so does everything that rests on the invariant alone.
  lemma RestartInv(cfg: Config, w: World)
    requires Inv(cfg, w) && cfg.reader.parse(w.disk).Some?
    ensures Inv(cfg, Restarted(cfg, w))
  {
    var u := Restarted(cfg, w);
    RestartExtends(cfg, w);
    forall i | 0 <= i < |u.sessions| ensures SessionOk(cfg, u, i) { assert SessionOk(cfg, w, i); }
    forall tx | tx in u.rows ensures RowOk(cfg, u, tx) {
      assert RowOk(cfg, w, tx);
      RowStays(cfg, w, u, tx);
    }
    forall k | 0 <= k < |u.requests| ensures RequestOk(cfg, u, k) { RestartRequests(cfg, w, k); }
    forall k | 0 <= k < |u.log| ensures EntryOk(cfg, u, k) { OldEntryOk(cfg, w, u, k); }
    forall n | 0 <= n < |u.installs| ensures InstallOk(cfg, u, n) {
      if n < |w.installs| {
        assert InstallOk(cfg, w, n);
      }
    }
    forall id ensures RecordOk(cfg, u, id) { assert RecordOk(cfg, w, id) && (Erased(u, id) <==> Erased(w, id)); }
  }

  // A restart abandons every decided row that has no result yet, for good.
  lemma RestartAbandons(cfg: Config, w: World, tx: TxId, es: seq<Event>, v: World)
    requires Reachable(cfg, w) && cfg.reader.parse(w.disk).Some? && Runs(cfg, Restarted(cfg, w), es, v)
    requires tx in w.rows && !w.rows[tx].state.Pending? && w.rows[tx].result.None?
    ensures Abandoned(v, tx) && v.rows[tx] == w.rows[tx]
  {
    ReachableInv(cfg, w);
    RestartInv(cfg, w);
    NothingHeld(cfg, w, tx);
    AbandonedForever(cfg, Restarted(cfg, w), es, v, tx);
  }

  lemma NothingHeld(cfg: Config, w: World, tx: TxId)
    requires cfg.reader.parse(w.disk).Some?
    ensures !Held(Restarted(cfg, w), tx)
  {
  }
}
