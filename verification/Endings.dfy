// How an approval ends, in the words the database keeps: the row's result, the
// method of the executor's audit row, and the backend's answer they go back to.
module Endings {
  import opened Wrappers
  import opened Store
  import opened Audit
  import opened ToyServer
  import opened Protocol
  import opened Invariant
  import opened Preservation
  import opened Guarantees
  import opened Conclusions

  // ---- What the backend's answer leads to ----------------------------------

  // The next step of session `i`, which waits for the backend: what it stores is decided by what it
  // hears, in these words.
  predicate EndsAsHeard(w: World, i: nat, o: Outcome, v: World) {
    i < |w.sessions| && w.sessions[i].Waiting? && i < |v.sessions| &&
    var Waiting(t, c, j, k) := w.sessions[i];
    && k < |w.requests| && w.requests[k].origin == Approval(t.tx)
    && var heard: Option<Reply> := if o.Done? && w.requests[k].delivery.Some? then Some(w.requests[k].delivery.value.reply) else None;
    && match heard
       case Some(ToolOk(text)) => v.sessions[i] == Closing(t, c, Executed, text, ExecutedAfterApproval, Some(j))
       case Some(ToolError) => v.sessions[i] == Closing(t, c, Failed, "tool returned error", ExecuteFailed, Some(j))
       case Some(NoSuchTool) => v.sessions[i] == Closing(t, c, Failed, "call tool", ExecuteFailed, Some(j))
       case None => v.sessions[i] == Closing(t, c, Failed, "call tool", ExecuteFailed, Some(j))
  }

  lemma HeardIsStored(cfg: Config, w: World, i: nat, o: Outcome, drawn: TxId)
    requires Reachable(cfg, w) && Enabled(cfg, w, Run(i, o, drawn)) && w.sessions[i].Waiting?
    ensures EndsAsHeard(w, i, o, Next(cfg, w, Run(i, o, drawn)))
  {
    ReachableInv(cfg, w);
    assert SessionOk(cfg, w, i);
    WaitingEnds(cfg, w, i, o, drawn);
  }

  lemma WaitingEnds(cfg: Config, w: World, i: nat, o: Outcome, drawn: TxId)
    requires Enabled(cfg, w, Run(i, o, drawn)) && w.sessions[i].Waiting? && SessionOk(cfg, w, i)
    ensures EndsAsHeard(w, i, o, Next(cfg, w, Run(i, o, drawn)))
  {
  }

  // ---- Rows and the rows about them ------------------------------------------

  // A result that goes with a ruling.
  predicate GoesWith(state: State, result: string, ruling: Ruling, decider: string) {
    match ruling
    case ExecutedAfterApproval => state.Executed?
    case ExecuteFailed => state.Failed? && (result == "mcp initialize" || result == "call tool" || result == "tool returned error")
    case DeniedByHuman => state.Denied? && result == "denied by " + decider
    case Ruled(_) => state.Failed? && (result == "policy reload failed" || result == "re-check denied")
  }

  predicate RowGoesWith(rows: Rows, tx: TxId, ruling: Ruling) {
    && tx in rows && rows[tx].decidedBy.Some?
    && (rows[tx].result.Some? ==> GoesWith(rows[tx].state, rows[tx].result.value, ruling, rows[tx].decidedBy.value))
  }

  predicate SessionEnds(rows: Rows, s: Session) {
    && (s.Closing? ==> GoesWith(s.final, s.result, s.ruling, s.t.decider))
    && (s.Noting? || s.Filing? ==> RowGoesWith(rows, s.t.tx, s.ruling))
  }

  predicate EntryEnds(rows: Rows, row: AuditRow) {
    row.source.FromExecutor? ==> RowGoesWith(rows, row.source.about, row.entry.ruling)
  }

  ghost predicate Ended(w: World) {
    && (forall i :: 0 <= i < |w.sessions| ==> SessionEnds(w.rows, w.sessions[i]))
    && (forall k :: 0 <= k < |w.log| ==> EntryEnds(w.rows, w.log[k]))
  }

  lemma StepEnds(cfg: Config, w: World, s: Session, o: Outcome, drawn: TxId)
    requires ClickOk(cfg, w, s) && SessionEnds(w.rows, s)
    ensures SessionEnds(ClickStep(cfg, w, s, o, drawn).0.rows, ClickStep(cfg, w, s, o, drawn).1)
  {
  }

  lemma RowStillGoes(w: World, v: World, tx: TxId, ruling: Ruling)
    requires RowGoesWith(w.rows, tx, ruling) && RowKept(w, v, tx)
    ensures RowGoesWith(v.rows, tx, ruling)
  {
  }

  lemma ActorEnds(cfg: Config, w: World, i: nat, o: Outcome, drawn: TxId)
    requires Enabled(cfg, w, Run(i, o, drawn)) && SessionOk(cfg, w, i) && SessionEnds(w.rows, w.sessions[i])
    ensures SessionEnds(Next(cfg, w, Run(i, o, drawn)).rows, Next(cfg, w, Run(i, o, drawn)).sessions[i])
  {
    NextIsStep(cfg, w, i, o, drawn);
    if Ticketed(w.sessions[i]) { StepEnds(cfg, w, w.sessions[i], o, drawn); }
  }

  lemma SessionStillEnds(cfg: Config, w: World, e: Event, i: nat)
    requires Inv(cfg, w) && Enabled(cfg, w, e) && Ended(w) && i < |Next(cfg, w, e).sessions|
    ensures SessionEnds(Next(cfg, w, e).rows, Next(cfg, w, e).sessions[i])
  {
    NextSessions(cfg, w, e);
    if i < |w.sessions| {
      assert SessionOk(cfg, w, i);
      if RunBy(e, i) {
        ActorEnds(cfg, w, i, e.outcome, e.drawn);
      } else if Claim(w.sessions[i]).Some? {
        ClaimsAreExclusive(cfg, w, e, i);
        NextRows(cfg, w, e, Claim(w.sessions[i]).value);
      }
    }
  }

  lemma EntryStillEnds(cfg: Config, w: World, e: Event, k: nat)
    requires Inv(cfg, w) && Enabled(cfg, w, e) && Ended(w) && k < |w.log|
    ensures EntryEnds(Next(cfg, w, e).rows, w.log[k])
  {
    assert EntryOk(cfg, w, k);
    if w.log[k].source.FromExecutor? {
      FiledIsUnclaimed(cfg, w, k);
      NobodyActs(cfg, w, e, w.log[k].source.about);
      NextRows(cfg, w, e, w.log[k].source.about);
      RowStillGoes(w, Next(cfg, w, e), w.log[k].source.about, w.log[k].entry.ruling);
    }
  }

  lemma NewEntryEnds(cfg: Config, w: World, e: Event)
    requires Enabled(cfg, w, e) && Ended(w) && |Next(cfg, w, e).log| > |w.log|
    ensures EntryEnds(Next(cfg, w, e).rows, Next(cfg, w, e).log[|w.log|])
  {
    NewEntries(cfg, w, e);
    NextIsStep(cfg, w, e.actor, e.outcome, e.drawn);
    assert SessionEnds(w.rows, w.sessions[e.actor]);
  }

  lemma NextEnded(cfg: Config, w: World, e: Event)
    requires Inv(cfg, w) && Enabled(cfg, w, e) && Ended(w)
    ensures Ended(Next(cfg, w, e))
  {
    var v := Next(cfg, w, e);
    forall i | 0 <= i < |v.sessions| ensures SessionEnds(v.rows, v.sessions[i]) { SessionStillEnds(cfg, w, e, i); }
    NewEntries(cfg, w, e);
    forall k | 0 <= k < |v.log| ensures EntryEnds(v.rows, v.log[k]) {
      if k < |w.log| { EntryStillEnds(cfg, w, e, k); } else { NewEntryEnds(cfg, w, e); }
    }
  }

  lemma {:induction false} RunEnded(cfg: Config, w: World, es: seq<Event>, v: World)
    requires Inv(cfg, w) && Ended(w) && Runs(cfg, w, es, v)
    ensures Ended(v)
    decreases |es|
  {
    if es != [] {
      NextInv(cfg, w, es[0]);
      NextEnded(cfg, w, es[0]);
      RunEnded(cfg, Next(cfg, w, es[0]), es[1..], v);
    }
  }

  lemma ReachableEnded(cfg: Config, w: World)
    requires Reachable(cfg, w)
    ensures Ended(w)
  {
    var w0, es :| Initial(cfg, w0) && Runs(cfg, w0, es, w);
    InitialInv(cfg, w0);
    RunEnded(cfg, w0, es, w);
  }

  // Which name goes with which ending: what an executor row is filed under, and the state and result
  // of the parked row it is about, if a result could be stored.
  lemma EndingIsNamed(cfg: Config, w: World, k: nat)
    requires Reachable(cfg, w) && k < |w.log| && w.log[k].source.FromExecutor?
    ensures w.log[k].source.about in w.rows && w.rows[w.log[k].source.about].decidedBy.Some?
    ensures
      var rpc, r := w.log[k].entry.rpc, w.rows[w.log[k].source.about];
      r.result.Some? ==>
        && (rpc == "approval/executed_after_approval" <==> r.state.Executed?)
        && (rpc == "approval/execute_failed" <==>
              r.state.Failed?
              && (r.result == Some("mcp initialize") || r.result == Some("call tool") || r.result == Some("tool returned error")))
        && (rpc == "approval/deny" <==>
              r.state.Failed? && (r.result == Some("policy reload failed") || r.result == Some("re-check denied")))
        && (rpc == "approval/denied_by_human" <==> r.state.Denied?)
        && (r.state.Denied? ==> r.result == Some("denied by " + r.decidedBy.value))
        && (r.state.Executed? ==> Succeeded(w, w.log[k].source.about, r.result.value))
  {
    ReachableEnded(cfg, w);
    ReachableInv(cfg, w);
    assert EntryEnds(w.rows, w.log[k]) && EntryOk(cfg, w, k);
    var tx := w.log[k].source.about;
    assert RowOk(cfg, w, tx);
    MethodTells(w.log[k].entry.ruling, w.log[k].entry.rpc);
    DistinctTexts();
  }
}
