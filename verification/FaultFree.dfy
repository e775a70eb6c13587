// What holds when no operation fails: the audit log accounts for everything, and
// no approval is left behind. Also, with or without faults: every call terminates.
module FaultFree {
  import opened Wrappers
  import opened Store
  import opened Audit
  import opened Protocol
  import opened Invariant
  import opened Preservation
  import opened Guarantees
  import opened Accounts

  // ---- Fault-free runs ---------------------------------------------------

  predicate Clean(e: Event) {
    e.Run? ==> e.outcome.Done?
  }

  predicate AllClean(es: seq<Event>) {
    forall k :: 0 <= k < |es| ==> Clean(es[k])
  }

  ghost predicate CleanlyReachable(cfg: Config, w: World) {
    exists w0, es :: Initial(cfg, w0) && AllClean(es) && Runs(cfg, w0, es, w)
  }

  // ---- The fault-free invariant -------------------------------------------

  predicate SessionClean(w: World, i: nat) {
    i < |w.sessions| &&
    var s := w.sessions[i];
    && (Logged(s) ==> HasEntry(w, i))
    && (s.Parking? ==> s.audited.Some?)
    && (s.Noting? || s.Filing? ==>
          s.t.tx in w.rows && w.rows[s.t.tx].result.Some? && Agrees(w.rows[s.t.tx].state, s.ruling))
  }

  predicate Claimed(sessions: seq<Session>, tx: TxId) {
    exists i :: 0 <= i < |sessions| && Claim(sessions[i]) == Some(tx)
  }

  // The transaction has its result, and its row in the audit log, which agree.
  predicate Settled(w: World, tx: TxId) {
    && tx in w.rows && w.rows[tx].result.Some?
    && exists k :: 0 <= k < |w.log| && About(w.log[k], tx) && Agrees(w.rows[tx].state, w.log[k].entry.ruling)
  }

  predicate RowClean(w: World, tx: TxId) {
    tx in w.rows && (w.rows[tx].state.Pending? || Settled(w, tx) || Claimed(w.sessions, tx))
  }

  ghost predicate CleanInv(cfg: Config, w: World) {
    && Inv(cfg, w)
    && (forall i :: 0 <= i < |w.sessions| ==> SessionClean(w, i))
    && (forall tx :: tx in w.rows ==> RowClean(w, tx))
  }

  lemma ActorClean(cfg: Config, w: World, e: Event)
    requires Enabled(cfg, w, e) && Clean(e) && e.Run?
    requires SessionOk(cfg, w, e.actor) && SessionClean(w, e.actor)
    ensures SessionClean(Next(cfg, w, e), e.actor)
  {
    ActorLogged(cfg, w, e);
  }

  lemma ActorLogged(cfg: Config, w: World, e: Event)
    requires Enabled(cfg, w, e) && Clean(e) && e.Run? && SessionClean(w, e.actor)
    ensures
      var v := Next(cfg, w, e);
      && (Logged(v.sessions[e.actor]) ==> HasEntry(v, e.actor))
      && (v.sessions[e.actor].Parking? ==> v.sessions[e.actor].audited.Some?)
  {
    NewEntries(cfg, w, e);
    var i, v := e.actor, Next(cfg, w, e);
    if w.sessions[i].Recording? { assert From(v.log[|w.log|], i); }
  }

  lemma ClaimKept(cfg: Config, w: World, e: Event, tx: TxId)
    requires Enabled(cfg, w, e) && ActsOn(w, e) != Some(tx) && Claimed(w.sessions, tx)
    ensures Claimed(Next(cfg, w, e).sessions, tx)
  {
    var i :| 0 <= i < |w.sessions| && Claim(w.sessions[i]) == Some(tx);
    assert !RunBy(e, i);
    assert Next(cfg, w, e).sessions[i] == w.sessions[i];
  }

  // The acting session goes on claiming its transaction until it files the row that settles it.
  lemma ActedRowClean(cfg: Config, w: World, e: Event, tx: TxId)
    requires Enabled(cfg, w, e) && Clean(e) && e.Run? && ActsOn(w, e) == Some(tx)
    requires SessionOk(cfg, w, e.actor) && SessionClean(w, e.actor)
    requires tx in Next(cfg, w, e).rows && (tx in w.rows ==> !Fresh(w.log, tx))
    ensures RowClean(Next(cfg, w, e), tx)
  {
    if w.sessions[e.actor].Filing? {
      FiledRowSettled(cfg, w, e, tx);
    } else if !w.sessions[e.actor].Parking? && !w.sessions[e.actor].Recording? {
      assert Claim(Next(cfg, w, e).sessions[e.actor]) == Some(tx);
    }
  }

  lemma FiledRowSettled(cfg: Config, w: World, e: Event, tx: TxId)
    requires Enabled(cfg, w, e) && Clean(e) && e.Run? && w.sessions[e.actor].Filing? && w.sessions[e.actor].t.tx == tx
    requires SessionClean(w, e.actor)
    ensures Settled(Next(cfg, w, e), tx)
  {
    var v := Next(cfg, w, e);
    assert About(v.log[|w.log|], tx) && Agrees(v.rows[tx].state, v.log[|w.log|].entry.ruling);
  }

  lemma RowsClean(cfg: Config, w: World, e: Event, tx: TxId)
    requires CleanInv(cfg, w) && Enabled(cfg, w, e) && Clean(e) && tx in Next(cfg, w, e).rows
    ensures RowClean(Next(cfg, w, e), tx)
  {
    NextRows(cfg, w, e, tx);
    if ActsOn(w, e) == Some(tx) {
      ParkedIsLogged(cfg, w, tx);
      assert SessionOk(cfg, w, e.actor) && SessionClean(w, e.actor);
      ActedRowClean(cfg, w, e, tx);
    } else {
      var v := Next(cfg, w, e);
      assert RowClean(w, tx);
      NextRows(cfg, w, e, tx);
      NewEntries(cfg, w, e);
      if Claimed(w.sessions, tx) { ClaimKept(cfg, w, e, tx); }
    }
  }

  lemma NextClean(cfg: Config, w: World, e: Event)
    requires CleanInv(cfg, w) && Enabled(cfg, w, e) && Clean(e)
    ensures CleanInv(cfg, Next(cfg, w, e))
  {
    var v := Next(cfg, w, e);
    NextInv(cfg, w, e);
    forall i | 0 <= i < |v.sessions| ensures SessionClean(v, i) {
      if RunBy(e, i) {
        assert SessionOk(cfg, w, i) && SessionClean(w, i);
        ActorClean(cfg, w, e);
      } else if i < |w.sessions| {
        assert SessionClean(w, i);
        NewEntries(cfg, w, e);
        if Claim(w.sessions[i]).Some? {
          ClaimsAreExclusive(cfg, w, e, i);
          NextRows(cfg, w, e, Claim(w.sessions[i]).value);
        }
      }
    }
    forall tx | tx in v.rows ensures RowClean(v, tx) { RowsClean(cfg, w, e, tx); }
  }

  lemma {:induction false} CleanRun(cfg: Config, w: World, es: seq<Event>, v: World)
    requires CleanInv(cfg, w) && AllClean(es) && Runs(cfg, w, es, v)
    ensures CleanInv(cfg, v)
    decreases |es|
  {
    if es != [] {
      assert Clean(es[0]);
      NextClean(cfg, w, es[0]);
      CleanRun(cfg, Next(cfg, w, es[0]), es[1..], v);
    }
  }

  lemma CleanReachableInv(cfg: Config, w: World)
    requires CleanlyReachable(cfg, w)
    ensures CleanInv(cfg, w)
  {
    var w0, es :| Initial(cfg, w0) && AllClean(es) && Runs(cfg, w0, es, w);
    InitialInv(cfg, w0);
    CleanRun(cfg, w0, es, w);
  }

  // ---- Quiescence --------------------------------------------------------

  lemma {:induction false} NothingMissing(cfg: Config, w: World, es: seq<Event>)
    requires AllClean(es)
    ensures Deficit(cfg, w, es) == 0
    decreases |es|
  {
    if es != [] && Enabled(cfg, w, es[0]) {
      assert Clean(es[0]);
      NothingMissing(cfg, Next(cfg, w, es[0]), es[1..]);
    }
  }

  // Audit conservation: once every call has returned, there is one audit row per identified
  // Check and one per decided transaction, and no other.
  lemma AuditConservation(cfg: Config, w: World)
    requires CleanlyReachable(cfg, w) && Quiescent(w)
    ensures |w.log| == Count(w.sessions, s => Identified(s)) + |DecidedRows(w.rows)|
    ensures forall i :: 0 <= i < |w.sessions| && Identified(w.sessions[i]) ==> HasEntry(w, i)
  {
    var w0, es :| Initial(cfg, w0) && AllClean(es) && Runs(cfg, w0, es, w);
    ConservationWithFaults(cfg, w0, es, w);
    NothingMissing(cfg, w0, es);
    CleanReachableInv(cfg, w);
    forall i | 0 <= i < |w.sessions| && Identified(w.sessions[i]) ensures HasEntry(w, i) {
      assert SessionClean(w, i);
    }
  }

  // No stranded approvals: once every call has returned, no row is left `approved`; a decided
  // row is executed, failed or denied with a result, and has exactly one executor row, whose
  // ruling agrees with its state.
  lemma NothingStranded(cfg: Config, w: World, tx: TxId)
    requires CleanlyReachable(cfg, w) && Quiescent(w)
    requires tx in w.rows && !w.rows[tx].state.Pending?
    ensures !w.rows[tx].state.Approved? && w.rows[tx].result.Some?
    ensures exists k :: 0 <= k < |w.log| && About(w.log[k], tx) && Agrees(w.rows[tx].state, w.log[k].entry.ruling)
    ensures forall k, l :: 0 <= k < l < |w.log| && About(w.log[k], tx) ==> !About(w.log[l], tx)
  {
    CleanReachableInv(cfg, w);
    assert RowClean(w, tx);
    assert forall i :: 0 <= i < |w.sessions| ==> Over(w.sessions[i]);
  }

  // ---- Termination -------------------------------------------------------

  // How many more steps a call can take at most; sending a request leaves two to its handler.
  function Remaining(s: Session): nat {
    match s
    case Arrived(_, _) => 7
    case Judging(_, _, _, _) => 6
    case Stamping(_, _, _, _) => 5
    case Recording(_, _, _, _, _, _) => 4
    case Parking(_, _, _) => 1
    case Forwarding(_) => 3
    case Clicking(_, _, _) => 14
    case Fetching(_) => 13
    case Reading(_, _) => 12
    case Swapping(_, _, _, _, _) => 11
    case Snapping(_, _, _, _) => 10
    case Rejudging(_, _, _, _, _, _) => 9
    case Connecting(_, _, _) => 8
    case Calling(_, _, _) => 7
    case Waiting(_, _, _, _) => 4
    case Closing(_, _, _, _, _, _) => 3
    case Noting(_, _, _, _) => 2
    case Filing(_, _, _, _, _, _) => 1
    case Answered(_, _, _) => 0
    case Finished(_) => 0
  }

  function Work(sessions: seq<Session>): nat {
    if sessions == [] then 0 else Work(sessions[..|sessions| - 1]) + Remaining(sessions[|sessions| - 1])
  }

  function Pending(q: ToolRequest): nat {
    if q.delivery.Some? then 0 else if q.found.Some? then 1 else 2
  }

  function Unhandled(requests: seq<ToolRequest>): nat {
    if requests == [] then 0 else Unhandled(requests[..|requests| - 1]) + Pending(requests[|requests| - 1])
  }

  // The steps left in all running calls and handlers together.
  function Measure(w: World): nat {
    Work(w.sessions) + Unhandled(w.requests)
  }

  lemma {:induction false} WorkUpdate(sessions: seq<Session>, i: nat, s: Session)
    requires i < |sessions|
    ensures Work(sessions[i := s]) + Remaining(sessions[i]) == Work(sessions) + Remaining(s)
    decreases |sessions|
  {
    var n := |sessions| - 1;
    if i < n {
      assert sessions[i := s][..n] == sessions[..n][i := s];
      WorkUpdate(sessions[..n], i, s);
    } else {
      assert sessions[i := s][..n] == sessions[..n];
    }
  }

  lemma {:induction false} UnhandledUpdate(requests: seq<ToolRequest>, k: nat, q: ToolRequest)
    requires k < |requests|
    ensures Unhandled(requests[k := q]) + Pending(requests[k]) == Unhandled(requests) + Pending(q)
    decreases |requests|
  {
    var n := |requests| - 1;
    if k < n {
      assert requests[k := q][..n] == requests[..n][k := q];
      UnhandledUpdate(requests[..n], k, q);
    } else {
      assert requests[k := q][..n] == requests[..n];
    }
  }

  predicate Internal(e: Event) {
    e.Run? || e.Handle? || e.Erase?
  }

  // A step's requests and remaining work, for the two halves of the step function.
  predicate Works(w: World, s: Session, v: World, t: Session) {
    && (v.requests == w.requests || (|v.requests| == |w.requests| + 1 && v.requests[..|w.requests|] == w.requests))
    && Remaining(t) + 2 * |v.requests| < Remaining(s) + 2 * |w.requests|
  }

  lemma ClickWork(cfg: Config, w: World, i: nat, o: Outcome, d: TxId)
    requires Enabled(cfg, w, Run(i, o, d)) && !InCheck(w.sessions[i])
    ensures
      var (v, t) := ClickStep(cfg, w, w.sessions[i], o, d);
      Works(w, w.sessions[i], v, t)
  {
  }

  lemma StepWork(cfg: Config, w: World, i: nat, o: Outcome, d: TxId)
    requires Enabled(cfg, w, Run(i, o, d))
    ensures
      var v := Next(cfg, w, Run(i, o, d));
      v.sessions == w.sessions[i := v.sessions[i]] && Works(w, w.sessions[i], v, v.sessions[i])
  {
    if !InCheck(w.sessions[i]) { ClickWork(cfg, w, i, o, d); }
  }

  // Every step of every session, faulty or not, and every step of a handler uses up some of the measure.
  lemma MeasureDecreases(cfg: Config, w: World, e: Event)
    requires Enabled(cfg, w, e) && Internal(e)
    ensures Measure(Next(cfg, w, e)) < Measure(w)
  {
    var v := Next(cfg, w, e);
    if e.Run? {
      var v := Next(cfg, w, Run(e.actor, e.outcome, e.drawn));
      StepWork(cfg, w, e.actor, e.outcome, e.drawn);
      WorkUpdate(w.sessions, e.actor, v.sessions[e.actor]);
      if v.requests != w.requests {
        var n := |w.requests|;
        assert v.requests == w.requests + [v.requests[n]];
      }
    } else {
      UnhandledUpdate(w.requests, e.request, v.requests[e.request]);
    }
  }

  // Termination: calls already running can take only boundedly many steps, whatever fails.
  lemma {:induction false} CallsTerminate(cfg: Config, w: World, es: seq<Event>, v: World)
    requires Runs(cfg, w, es, v) && (forall k :: 0 <= k < |es| ==> Internal(es[k]))
    ensures |es| + Measure(v) <= Measure(w)
    decreases |es|
  {
    if es != [] {
      assert Internal(es[0]);
      MeasureDecreases(cfg, w, es[0]);
      CallsTerminate(cfg, Next(cfg, w, es[0]), es[1..], v);
    }
  }

  // A call that has not returned can go on: by its own step, or, when it waits for the
  // backend, once its request is handled.
  function NextMove(w: World, i: nat): Event
    requires i < |w.sessions|
  {
    var s := w.sessions[i];
    if s.Waiting? && s.request < |w.requests| && w.requests[s.request].delivery.None?
    then (if w.requests[s.request].found.None? then Handle(s.request) else Erase(s.request))
    else Run(i, Done, Undrawn(w.log))
  }

  lemma NeverStuck(cfg: Config, w: World, i: nat)
    requires Inv(cfg, w) && i < |w.sessions| && !Over(w.sessions[i])
    ensures Enabled(cfg, w, NextMove(w, i)) && Clean(NextMove(w, i)) && Internal(NextMove(w, i))
    ensures w.sessions[i].Waiting? ==> w.sessions[i].request < |w.requests|
  {
    assert SessionOk(cfg, w, i);
  }

  predicate Winding(es: seq<Event>) {
    forall k :: 0 <= k < |es| ==> Clean(es[k]) && Internal(es[k])
  }

  // Progress: from every reachable world, even after faults, fault-free steps of the running
  // calls and handlers lead to one where every call has returned.
  lemma {:induction false} CanFinish(cfg: Config, w: World)
    requires Inv(cfg, w)
    ensures exists es, v :: Winding(es) && Runs(cfg, w, es, v) && Quiescent(v)
    decreases Measure(w)
  {
    if Quiescent(w) {
      assert Winding([]) && Runs(cfg, w, [], w);
    } else {
      var i :| 0 <= i < |w.sessions| && !Over(w.sessions[i]);
      var e := NextMove(w, i);
      NeverStuck(cfg, w, i);
      MeasureDecreases(cfg, w, e);
      NextInv(cfg, w, e);
      CanFinish(cfg, Next(cfg, w, e));
      var es, v :| Winding(es) && Runs(cfg, Next(cfg, w, e), es, v) && Quiescent(v);
      RunAfter(cfg, w, e, es, v);
      assert Winding([e] + es);
    }
  }

  // A row that is `pending` is exactly one a later click can still win.
  lemma PendingIsWinnable(cfg: Config, w: World, tx: TxId)
    requires Reachable(cfg, w) && tx in w.rows
    ensures w.rows[tx].state.Pending? <==>
              exists es, v :: Runs(cfg, w, es, v) && tx in v.rows && v.rows[tx].decidedAt.Some?
                              && v.rows[tx].decidedAt.value >= w.Now()
  {
    ReachableInv(cfg, w);
    assert RowOk(cfg, w, tx);
    if w.rows[tx].state.Pending? {
      ClickWins(cfg, w, tx);
    } else {
      forall es, v | Runs(cfg, w, es, v) ensures tx in v.rows && v.rows[tx].decidedAt == w.rows[tx].decidedAt {
        FirstClickWins(cfg, w, es, v, tx);
      }
    }
  }

  lemma ClickWins(cfg: Config, w: World, tx: TxId)
    requires |w.installs| > 0 && Winnable(w.rows, tx)
    ensures exists es, v :: Runs(cfg, w, es, v) && tx in v.rows && v.rows[tx].decidedAt.Some?
                            && v.rows[tx].decidedAt.value >= w.Now()
  {
    var arrive, click := Begin(Clicking(tx, "", false)), Run(|w.sessions|, Done, Undrawn(w.log));
    var u := Next(cfg, w, arrive);
    var v := Next(cfg, u, click);
    assert Runs(cfg, v, [], v) && [click][1..] == [] && Runs(cfg, u, [click], v);
    assert [arrive, click][1..] == [click] && Runs(cfg, w, [arrive, click], v);
    assert v.rows[tx].decidedAt == Some(u.Now());
  }
}
