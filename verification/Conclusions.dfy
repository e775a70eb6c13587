// How a decided transaction ends: when nothing will ever touch it again, and which
// endings prove that its tool was not called.
module Conclusions {
  import opened Wrappers
  import opened Policy
  import opened Store
  import opened Audit
  import opened Protocol
  import opened Invariant
  import opened Preservation
  import opened Guarantees

  // ---- When a transaction is over -----------------------------------------

  // Decided, and no running session is still working on it.
  predicate Concluded(w: World, tx: TxId) {
    var ok :=
      && tx in w.rows && !w.rows[tx].state.Pending?
      && forall i :: 0 <= i < |w.sessions| ==> Claim(w.sessions[i]) != Some(tx);
    ok
  }

  lemma NobodyActs(cfg: Config, w: World, e: Event, tx: TxId)
    requires Inv(cfg, w) && Enabled(cfg, w, e) && Concluded(w, tx)
    ensures ActsOn(w, e) != Some(tx)
  {
    ParkedIsLogged(cfg, w, tx);
  }

  lemma ConcludedStep(cfg: Config, w: World, e: Event, tx: TxId)
    requires Inv(cfg, w) && Enabled(cfg, w, e) && Concluded(w, tx)
    ensures Concluded(Next(cfg, w, e), tx) && Undisturbed(w, Next(cfg, w, e), tx)
  {
    NobodyActs(cfg, w, e, tx);
    NextUndisturbed(cfg, w, e, tx);
    NextSessions(cfg, w, e);
    if e.Run? { NewClaim(cfg, w, e); }
  }

  // Nothing about the transaction changes: its row, its requests, the audit rows about it.
  predicate Untouched(w: World, v: World, tx: TxId) {
    tx in w.rows && Undisturbed(w, v, tx)
  }

  // Nothing happens to a concluded transaction, whoever clicks and whatever is granted or edited later.
  lemma {:induction false} ConcludedForever(cfg: Config, w: World, es: seq<Event>, v: World, tx: TxId)
    requires Inv(cfg, w) && Runs(cfg, w, es, v) && Concluded(w, tx)
    ensures Concluded(v, tx) && Untouched(w, v, tx)
    decreases |es|
  {
    if es != [] {
      var next := Next(cfg, w, es[0]);
      ConcludedStep(cfg, w, es[0], tx);
      NextInv(cfg, w, es[0]);
      ConcludedForever(cfg, next, es[1..], v, tx);
      RunExtends(cfg, next, es[1..], v);
      UndisturbedThen(w, next, v, tx);
    }
  }

  // A revocation that holds from the winning click until the session ends is final: the tool is
  // never called for the transaction, even if the edge is granted back afterwards.
  lemma RevokedIsNeverInvoked(cfg: Config, w: World, es: seq<Event>, v: World, tx: TxId)
    requires Reachable(cfg, w) && Runs(cfg, w, es, v) && cfg.ownership
    requires Concluded(w, tx) && w.rows[tx].decidedAt.Some? && !w.rows[tx].state.Denied?
    requires forall t :: w.rows[tx].decidedAt.value < t <= w.Now() ==> !OwnedAt(w, w.rows[tx].call, t)
    ensures NoRequest(v, tx)
    ensures tx in v.rows && (v.rows[tx].result.Some? ==> v.rows[tx].state.Failed? && Refusal(v.rows[tx].result.value))
    ensures forall k :: 0 <= k < |v.log| && About(v.log[k], tx) ==> v.log[k].entry.ruling == Ruled(Deny)
  {
    RevocationRespected(cfg, w, tx);
    ReachableInv(cfg, w);
    ConcludedForever(cfg, w, es, v, tx);
    RunExtends(cfg, w, es, v);
    forall k | 0 <= k < |v.requests| ensures v.requests[k].origin != Approval(tx) {
      if k < |w.requests| { assert SameRequest(w.requests[k], v.requests[k]); }
    }
    forall k | 0 <= k < |v.log| && About(v.log[k], tx) ensures v.log[k].entry.ruling == Ruled(Deny) {
      if k < |w.log| { assert v.log[k] == w.log[k]; }
    }
  }

  // ---- Refusals ----------------------------------------------------------

  // The rulings of a call that was never attempted: refused by the re-check, or by a human.
  predicate Unattempted(r: Ruling) {
    r.Ruled? || r.DeniedByHuman?
  }

  predicate Refusing(s: Session) {
    (s.Closing? || s.Noting? || s.Filing?) && Unattempted(s.ruling)
  }

  predicate RefusalEntry(row: AuditRow) {
    row.source.FromExecutor? && Unattempted(row.entry.ruling)
  }

  predicate Refusals(w: World) {
    && (forall i :: 0 <= i < |w.sessions| && Refusing(w.sessions[i]) ==> NoRequest(w, w.sessions[i].t.tx))
    && (forall k :: 0 <= k < |w.log| && RefusalEntry(w.log[k]) ==> NoRequest(w, w.log[k].source.about))
    && (forall tx :: tx in w.rows && SilentRow(w.rows[tx]) ==> NoRequest(w, tx))
  }

  predicate RefusalRow(r: Row) {
    r.state.Failed? && r.result.Some? && Refusal(r.result.value)
  }

  // Failed before there was a session to call in: refused, or no connection.
  predicate SilentRow(r: Row) {
    r.state.Failed? && r.result.Some? && !AfterConnecting(r.result.value)
  }

  // A refusing session has sent nothing before, and sends nothing in the step that makes it one.
  lemma RefusingActor(cfg: Config, w: World, e: Event)
    requires Enabled(cfg, w, e) && e.Run? && SessionOk(cfg, w, e.actor)
    requires Refusing(w.sessions[e.actor]) ==> NoRequest(w, w.sessions[e.actor].t.tx)
    requires Refusing(Next(cfg, w, e).sessions[e.actor])
    ensures NoRequest(Next(cfg, w, e), Next(cfg, w, e).sessions[e.actor].t.tx)
  {
    RefusingBefore(cfg, w, e);
  }

  lemma RefusingBefore(cfg: Config, w: World, e: Event)
    requires Enabled(cfg, w, e) && e.Run? && Refusing(Next(cfg, w, e).sessions[e.actor])
    ensures
      var s := w.sessions[e.actor];
      && Ticketed(s) && s.t == Next(cfg, w, e).sessions[e.actor].t
      && (Refusing(s) || s.Fetching? || s.Reading? || s.Rejudging?)
  {
  }

  lemma NothingSent(cfg: Config, w: World, e: Event, tx: TxId)
    requires Enabled(cfg, w, e) && ActsOn(w, e) != Some(tx) && NoRequest(w, tx)
    ensures NoRequest(Next(cfg, w, e), tx)
  {
    NextRequests(cfg, w, e);
    var v := Next(cfg, w, e);
    forall k | 0 <= k < |v.requests| ensures v.requests[k].origin != Approval(tx) {
      if k < |w.requests| { assert SameRequest(w.requests[k], v.requests[k]); }
    }
  }

  // A failed row gets no request; one just stored as refused has none.
  lemma RefusedRowStands(cfg: Config, w: World, e: Event, tx: TxId)
    requires Enabled(cfg, w, e) && NoRequest(w, tx) && tx in w.rows && w.rows[tx].state.Failed?
    requires ActingOk(cfg, w, e)
    ensures NoRequest(Next(cfg, w, e), tx)
  {
    NextRequests(cfg, w, e);
    var v := Next(cfg, w, e);
    forall k | 0 <= k < |v.requests| ensures v.requests[k].origin != Approval(tx) {
      if k < |w.requests| { assert SameRequest(w.requests[k], v.requests[k]); }
    }
  }

  lemma SilentRowStored(cfg: Config, w: World, e: Event, tx: TxId)
    requires Enabled(cfg, w, e) && e.Run? && SessionOk(cfg, w, e.actor)
    requires tx in Next(cfg, w, e).rows && SilentRow(Next(cfg, w, e).rows[tx])
    requires tx in w.rows ==> w.rows[tx] != Next(cfg, w, e).rows[tx]
    ensures NoRequest(Next(cfg, w, e), tx)
  {
  }

  lemma SilentRows(cfg: Config, w: World, e: Event, tx: TxId)
    requires Inv(cfg, w) && Enabled(cfg, w, e) && Refusals(w)
    requires tx in Next(cfg, w, e).rows && SilentRow(Next(cfg, w, e).rows[tx])
    ensures NoRequest(Next(cfg, w, e), tx)
  {
    NextRows(cfg, w, e, tx);
    if e.Run? { assert SessionOk(cfg, w, e.actor); }
    if tx in w.rows && w.rows[tx] == Next(cfg, w, e).rows[tx] {
      RefusedRowStands(cfg, w, e, tx);
    } else {
      SilentRowStored(cfg, w, e, tx);
    }
  }

  lemma RefusingSessions(cfg: Config, w: World, e: Event, i: nat)
    requires Inv(cfg, w) && Enabled(cfg, w, e) && Refusals(w)
    requires i < |Next(cfg, w, e).sessions| && Refusing(Next(cfg, w, e).sessions[i])
    ensures NoRequest(Next(cfg, w, e), Next(cfg, w, e).sessions[i].t.tx)
  {
    if RunBy(e, i) {
      assert SessionOk(cfg, w, i);
      RefusingActor(cfg, w, e);
    } else {
      ClaimsAreExclusive(cfg, w, e, i);
      NothingSent(cfg, w, e, w.sessions[i].t.tx);
    }
  }

  lemma NextRefusals(cfg: Config, w: World, e: Event)
    requires Inv(cfg, w) && Enabled(cfg, w, e) && Refusals(w)
    ensures Refusals(Next(cfg, w, e))
  {
    var v := Next(cfg, w, e);
    forall i | 0 <= i < |v.sessions| && Refusing(v.sessions[i]) ensures NoRequest(v, v.sessions[i].t.tx) {
      RefusingSessions(cfg, w, e, i);
    }
    forall k | 0 <= k < |v.log| && RefusalEntry(v.log[k]) ensures NoRequest(v, v.log[k].source.about) {
      NewEntries(cfg, w, e);
      if k < |w.log| {
        assert EntryOk(cfg, w, k);
        FiledIsUnclaimed(cfg, w, k);
        NobodyActs(cfg, w, e, w.log[k].source.about);
        NothingSent(cfg, w, e, w.log[k].source.about);
      } else { NewEntries(cfg, w, e); }
    }
    forall tx | tx in v.rows && SilentRow(v.rows[tx]) ensures NoRequest(v, tx) { SilentRows(cfg, w, e, tx); }
  }

  lemma {:induction false} RunRefusals(cfg: Config, w: World, es: seq<Event>, v: World)
    requires Inv(cfg, w) && Refusals(w) && Runs(cfg, w, es, v)
    ensures Refusals(v)
    decreases |es|
  {
    if es != [] {
      NextInv(cfg, w, es[0]);
      NextRefusals(cfg, w, es[0]);
      RunRefusals(cfg, Next(cfg, w, es[0]), es[1..], v);
    }
  }

  lemma ReachableRefusals(cfg: Config, w: World)
    requires Reachable(cfg, w)
    ensures Refusals(w)
  {
    var w0, es :| Initial(cfg, w0) && Runs(cfg, w0, es, w);
    InitialInv(cfg, w0);
    RunRefusals(cfg, w0, es, w);
  }

  lemma RunReachable(cfg: Config, w: World, es: seq<Event>, v: World)
    requires Reachable(cfg, w) && Runs(cfg, w, es, v)
    ensures Reachable(cfg, v)
  {
    var w0, fs :| Initial(cfg, w0) && Runs(cfg, w0, fs, w);
    RunsThen(cfg, w0, fs, w, es, v);
  }

  // A session that is about to record a refusal has not called the tool, and never will.
  lemma RefusingIsSilent(cfg: Config, w: World, i: nat)
    requires Reachable(cfg, w) && i < |w.sessions| && Refusing(w.sessions[i])
    ensures NoRequest(w, w.sessions[i].t.tx)
  {
    ReachableRefusals(cfg, w);
  }

  // An `approval/deny` or `approval/denied_by_human` row is proof that the tool was not and will
  // not be called for its transaction; `approval/execute_failed` proves no such thing (see
  // Scenarios.FailedThoughExecuted).
  lemma RefusedIsNeverInvoked(cfg: Config, w: World, es: seq<Event>, v: World, k: nat)
    requires Reachable(cfg, w) && Runs(cfg, w, es, v)
    requires k < |w.log| && RulingName(w.log[k].entry.ruling) != "allow"
    requires w.log[k].entry.rpc == "approval/deny" || w.log[k].entry.rpc == "approval/denied_by_human"
    ensures w.log[k].source.FromExecutor? && NoRequest(v, w.log[k].source.about)
  {
    FiledUnderItsName(cfg, w, k);
    RunReachable(cfg, w, es, v);
    ReachableRefusals(cfg, v);
    ReachableInv(cfg, w);
    RunExtends(cfg, w, es, v);
    assert RefusalEntry(v.log[k]);
  }

  // ---- What a failed row tells ---------------------------------------------

  lemma SilentIsUnsent(cfg: Config, w: World, tx: TxId)
    requires Reachable(cfg, w) && tx in w.rows && SilentRow(w.rows[tx])
    ensures NoRequest(w, tx)
  {
    ReachableRefusals(cfg, w);
  }

  // What the stored result says of the call. Before a failed or answered call nothing went out; an
  // error of the tool is the answer to a call that did. A failed call says neither.
  lemma FailedRowSent(cfg: Config, w: World, tx: TxId)
    requires Reachable(cfg, w) && tx in w.rows && w.rows[tx].state.Failed?
    ensures w.rows[tx].result.Some? && (Sent(w, tx) ==> AfterConnecting(w.rows[tx].result.value))
    ensures w.rows[tx].result == Some(TOOL_ERROR) ==> Replied(w, tx, false) && Sent(w, tx)
  {
    ReachableInv(cfg, w);
    assert RowOk(cfg, w, tx);
    DistinctTexts();
    if !AfterConnecting(w.rows[tx].result.value) { SilentIsUnsent(cfg, w, tx); }
    if w.rows[tx].result == Some(TOOL_ERROR) {
      var k :| 0 <= k < |w.requests| && RepliedTo(w.requests[k], tx, false);
    }
  }

  // A stored refusal is proof that the tool was not and will not be called, whether or not the
  // audit row was written.
  lemma RefusedRowIsNeverInvoked(cfg: Config, w: World, es: seq<Event>, v: World, tx: TxId)
    requires Reachable(cfg, w) && Runs(cfg, w, es, v)
    requires tx in w.rows && w.rows[tx].state.Failed? && w.rows[tx].result.Some? && Refusal(w.rows[tx].result.value)
    ensures NoRequest(v, tx)
  {
    ResultIsFinal(cfg, w, es, v, tx);
    DistinctTexts();
    RunReachable(cfg, w, es, v);
    SilentIsUnsent(cfg, v, tx);
  }

  // No session can send for the transaction any more: none has a send of it still ahead.
  predicate SendingOver(w: World, tx: TxId) {
    && tx in w.rows && !w.rows[tx].state.Pending?
    && forall i :: 0 <= i < |w.sessions| && Claim(w.sessions[i]) == Some(tx) ==> PastSending(w.sessions[i])
  }

  predicate PastSending(s: Session) {
    s.Waiting? || s.Closing? || s.Noting? || s.Filing?
  }

  lemma SendingOverSessions(cfg: Config, w: World, e: Event, tx: TxId)
    requires Enabled(cfg, w, e) && SendingOver(w, tx) && !Fresh(w.log, tx) && |w.began| == |w.sessions|
    ensures
      var v := Next(cfg, w, e);
      forall i :: 0 <= i < |v.sessions| && Claim(v.sessions[i]) == Some(tx) ==> PastSending(v.sessions[i])
  {
    NextSessions(cfg, w, e);
  }

  lemma NothingMoreSent(cfg: Config, w: World, e: Event, tx: TxId)
    requires Enabled(cfg, w, e) && SendingOver(w, tx) && !Fresh(w.log, tx)
    ensures forall k :: |w.requests| <= k < |Next(cfg, w, e).requests| ==> Next(cfg, w, e).requests[k].origin != Approval(tx)
  {
    NextRequests(cfg, w, e);
  }

  lemma {:induction false} SendingOverForever(cfg: Config, w: World, es: seq<Event>, v: World, tx: TxId)
    requires Inv(cfg, w) && Runs(cfg, w, es, v) && SendingOver(w, tx) && NoRequest(w, tx)
    ensures SendingOver(v, tx) && NoRequest(v, tx)
    decreases |es|
  {
    if es != [] {
      ParkedIsLogged(cfg, w, tx);
      NextRows(cfg, w, es[0], tx);
      SendingOverSessions(cfg, w, es[0], tx);
      ParkedIsLogged(cfg, w, tx);
      NothingMoreSent(cfg, w, es[0], tx);
      NextRequests(cfg, w, es[0]);
      var next := Next(cfg, w, es[0]);
      forall k | 0 <= k < |next.requests| ensures next.requests[k].origin != Approval(tx) {
        if k < |w.requests| { assert SameRequest(w.requests[k], next.requests[k]); }
      }
      NextInv(cfg, w, es[0]);
      SendingOverForever(cfg, Next(cfg, w, es[0]), es[1..], v, tx);
    }
  }

  // The backend has taken the transaction's request.
  predicate Reached(v: World, tx: TxId) {
    exists k :: 0 <= k < |v.requests| && v.requests[k].origin == Approval(tx)
                && (v.requests[k].found.Some? || v.requests[k].delivery.Some?)
  }

  ghost predicate CanReach(cfg: Config, w: World, tx: TxId) {
    exists es, v :: Runs(cfg, w, es, v) && Reached(v, tx)
  }

  lemma SentCanReach(cfg: Config, w: World, tx: TxId)
    requires Sent(w, tx)
    ensures CanReach(cfg, w, tx)
  {
    var k :| 0 <= k < |w.requests| && w.requests[k].origin == Approval(tx);
    if w.requests[k].found.Some? || w.requests[k].delivery.Some? {
      assert Runs(cfg, w, [], w) && Reached(w, tx);
    } else {
      var v := Next(cfg, w, Handle(k));
      assert [Handle(k)][1..] == [] && Runs(cfg, v, [], v) && Runs(cfg, w, [Handle(k)], v);
      assert v.requests[k].origin == Approval(tx) && (v.requests[k].found.Some? || v.requests[k].delivery.Some?);
    }
  }

  lemma UnsentCannotReach(cfg: Config, w: World, tx: TxId)
    requires Inv(cfg, w) && SendingOver(w, tx) && NoRequest(w, tx)
    ensures !CanReach(cfg, w, tx)
  {
    forall es, v | Runs(cfg, w, es, v) ensures !Reached(v, tx) {
      SendingOverForever(cfg, w, es, v, tx);
    }
  }

  // The backend has taken a failed row's call, or can still take it, if and only if a request went
  // out. The stored result decides it except for a failed call, which can be either (see
  // Scenarios.FailedThoughExecuted and Scenarios.FailedUnsent).
  lemma FailedRowReached(cfg: Config, w: World, tx: TxId)
    requires Reachable(cfg, w) && tx in w.rows && w.rows[tx].state.Failed?
    ensures CanReach(cfg, w, tx) <==> !NoRequest(w, tx)
    ensures w.rows[tx].result.Some? && (CanReach(cfg, w, tx) ==> AfterConnecting(w.rows[tx].result.value))
    ensures w.rows[tx].result == Some(TOOL_ERROR) ==> CanReach(cfg, w, tx)
  {
    FailedRowSent(cfg, w, tx);
    ReachableInv(cfg, w);
    if Sent(w, tx) {
      SentCanReach(cfg, w, tx);
    } else {
      forall i | 0 <= i < |w.sessions| && Claim(w.sessions[i]) == Some(tx) ensures PastSending(w.sessions[i]) {
        assert SessionOk(cfg, w, i);
      }
      UnsentCannotReach(cfg, w, tx);
    }
  }

  // A stored tool error is the backend's own answer: the handler ran to its end, changed nothing
  // and never runs again.
  lemma ToolErrorChangedNothing(cfg: Config, w: World, es: seq<Event>, v: World, tx: TxId, k: nat)
    requires Reachable(cfg, w) && Runs(cfg, w, es, v)
    requires tx in w.rows && w.rows[tx].state.Failed? && w.rows[tx].result == Some(TOOL_ERROR)
    requires k < |v.requests| && v.requests[k].origin == Approval(tx)
    ensures v.requests[k].delivery.Some? && v.requests[k].delivery.value.reply.ToolError? && v.requests[k].found.None?
  {
    ResultIsFinal(cfg, w, es, v, tx);
    RunReachable(cfg, w, es, v);
    AnsweredWithError(cfg, v, tx, k);
  }

  lemma AnsweredWithError(cfg: Config, v: World, tx: TxId, k: nat)
    requires Reachable(cfg, v) && tx in v.rows && v.rows[tx].state.Failed? && v.rows[tx].result == Some(TOOL_ERROR)
    requires k < |v.requests| && v.requests[k].origin == Approval(tx)
    ensures v.requests[k].delivery.Some? && v.requests[k].delivery.value.reply.ToolError? && v.requests[k].found.None?
  {
    ReachableInv(cfg, v);
    var m :| 0 <= m < |v.requests| && RepliedTo(v.requests[m], tx, false);
    AtMostOneInvocation(cfg, v, m, tx);
    assert RequestOk(cfg, v, k);
  }

  // The guard that decides it: a call about to go out reaches the backend in some continuation if
  // and only if its own send was not refused.
  lemma ReachedIffSent(cfg: Config, w: World, i: nat, o: Outcome, drawn: TxId)
    requires Reachable(cfg, w) && Enabled(cfg, w, Run(i, o, drawn)) && w.sessions[i].Calling?
    ensures CanReach(cfg, Next(cfg, w, Run(i, o, drawn)), w.sessions[i].t.tx) <==> !o.Refused?
  {
    ReachableInv(cfg, w);
    if o.Refused? {
      assert SessionOk(cfg, w, i);
      NextInv(cfg, w, Run(i, Refused, drawn));
      UnsentIsOver(cfg, w, i, drawn);
      UnsentCannotReach(cfg, Next(cfg, w, Run(i, Refused, drawn)), w.sessions[i].t.tx);
    } else {
      assert Next(cfg, w, Run(i, o, drawn)).requests[|w.requests|].origin == Approval(w.sessions[i].t.tx);
      SentCanReach(cfg, Next(cfg, w, Run(i, o, drawn)), w.sessions[i].t.tx);
    }
  }

  lemma UnsentIsOver(cfg: Config, w: World, i: nat, drawn: TxId)
    requires Enabled(cfg, w, Run(i, Refused, drawn)) && w.sessions[i].Calling? && SessionOk(cfg, w, i)
    requires UniqueClaims(w.sessions)
    ensures
      var v, tx := Next(cfg, w, Run(i, Refused, drawn)), w.sessions[i].t.tx;
      SendingOver(v, tx) && NoRequest(v, tx)
  {
    var v := Next(cfg, w, Run(i, Refused, drawn));
    assert v.sessions[i].Closing? && Claim(w.sessions[i]) == Some(w.sessions[i].t.tx);
  }
}
