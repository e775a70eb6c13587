// agentgate/internal/approval/executor.go, statement by statement, with arbitrary
// interference between any two operations. Every call adds to the trace of the
// protocol and takes its own session from the click to the end.
module Executor {
  import opened Wrappers
  import opened Cedar
  import opened Policy
  import opened Store
  import opened Audit
  import opened Protocol
  import opened Invariant
  import opened Preservation
  import opened Conclusions
  import opened Traces
  import opened Deployment

  // What the person who clicked is told.
  datatype Reply =
    | Error
    | AlreadyDecided
    | Voided
    | ExecutionFailed(why: string)
    | ExecutedWith(result: string)
    | DeniedByYou

  // The row holds this result, unless storing it failed.
  predicate Stored(v: World, tx: TxId, final: State, result: string) {
    tx in v.rows && (v.rows[tx].result.Some? ==> v.rows[tx].state == final && v.rows[tx].result == Some(result))
  }

  // The audit row about the transaction is this one, unless writing it failed.
  predicate Filed(v: World, tx: TxId, c: Captured, ruling: Ruling, judgment: Option<Judgment>) {
    forall k :: 0 <= k < |v.log| && About(v.log[k], tx) ==>
      && v.log[k].entry.ruling == ruling && NamesRuling(ruling, v.log[k].entry.rpc)
      && v.log[k].entry.caller == c.agentId && v.log[k].entry.onBehalfOf == c.onBehalfOf && v.log[k].entry.roles == c.roles
      && v.log[k].entry.tool == c.tool && v.log[k].entry.args == c.args && v.log[k].source.judgment == judgment
  }

  // What the text of a failed execution says of the call.
  predicate Explains(v: World, tx: TxId, why: string) {
    || (why == "mcp initialize" && NoRequest(v, tx))
    || why == "call tool"
    || (why == "tool returned error" && Replied(v, tx, false))
  }

  // What each answer after a won click promises about the transaction when it is given.
  ghost predicate Truthful(v: World, tx: TxId, r: Reply) {
    match r
    case Voided =>
      NoRequest(v, tx) && (Stored(v, tx, Failed, "policy reload failed") || Stored(v, tx, Failed, "re-check denied"))
    case ExecutionFailed(why) => Stored(v, tx, Failed, why) && Explains(v, tx, why)
    case ExecutedWith(result) => Succeeded(v, tx, result) && Stored(v, tx, Executed, result)
    case DeniedByYou => NoRequest(v, tx)
    case Error => NoRequest(v, tx) && Concluded(v, tx)
    case AlreadyDecided => false
  }

  // What an answer promises, from the state `u` in which the click was made to the state `v` in
  // which the answer is given: who won, and the above. After an error the click may have taken
  // effect all the same; if it did, the tool was not called and never will be.
  ghost predicate Honest(u: World, v: World, tx: TxId, decider: string, approve: bool, r: Reply) {
    match r
    case AlreadyDecided => !Winnable(u.rows, tx)
    case Error => tx in v.rows && v.rows[tx].decidedAt == Some(u.Now()) ==> NoRequest(v, tx) && Concluded(v, tx)
    case _ => Winnable(u.rows, tx) && WonBy(v, tx, decider, approve) && Truthful(v, tx, r)
  }

  // ---- What the invariant says at the points between operations ---------------

  lemma TicketFacts(cfg: Config, start: World, trace: seq<Event>, w: World, i: nat)
    requires Traced(cfg, start, trace, w) && i < |w.sessions| && Ticketed(w.sessions[i])
    ensures
      var s := w.sessions[i];
      && s.t.tx in w.rows && NoFiling(w, s.t.tx) && Claim(s) == Some(s.t.tx)
      && (Holding(s) ==> w.rows[s.t.tx].result.None?)
      && (Holding(s) && !Called(s) ==> NoRequest(w, s.t.tx))
  {
    TracedInv(cfg, start, trace, w);
    assert SessionOk(cfg, w, i);
  }

  lemma FetchFailureConcludes(cfg: Config, start: World, trace: seq<Event>, w: World, i: nat, v: World)
    requires Traced(cfg, start, trace, w) && i < |w.sessions| && w.sessions[i].Fetching?
    requires v.sessions == w.sessions[i := Finished(w.sessions[i].t.tx)] && v.rows == w.rows
    ensures Concluded(v, w.sessions[i].t.tx)
  {
    TracedInv(cfg, start, trace, w);
    assert SessionOk(cfg, w, i) && Claim(w.sessions[i]) == Some(w.sessions[i].t.tx);
  }

  // A click that is lost, whether or not it took effect, leaves nobody to act on the transaction.
  lemma LostClickConcludes(cfg: Config, start: World, trace: seq<Event>, w: World, i: nat, v: World, tx: TxId)
    requires Traced(cfg, start, trace, w) && i < |w.sessions| && v.sessions == w.sessions[i := Finished(tx)]
    requires tx in v.rows && v.rows[tx].decidedAt == Some(w.Now()) && v.requests == w.requests
    requires v.rows == w.rows || (Winnable(w.rows, tx) && !v.rows[tx].state.Pending?)
    ensures NoRequest(v, tx) && Concluded(v, tx)
  {
    TracedInv(cfg, start, trace, w);
    if tx in w.rows { assert RowOk(cfg, w, tx); }
    PendingIsUntouched(cfg, w, tx);
    forall j | 0 <= j < |w.sessions| ensures Claim(w.sessions[j]) != Some(tx) { assert SessionOk(cfg, w, j); }
  }

  // A re-check that has been made stays on record.
  lemma RecheckedIsJudged(cfg: Config, start: World, trace: seq<Event>, w: World, i: nat, j: Judgment)
    requires Traced(cfg, start, trace, w) && i < |w.sessions|
    requires
      var s := w.sessions[i];
      (s.Connecting? && s.passed == j) || (s.Closing? && s.ruling == Ruled(Decision.Deny) && s.judgment == Some(j))
    ensures
      var s := w.sessions[i];
      Judged(cfg, w, j, s.c, if s.Connecting? then NeedsApproval else Decision.Deny)
  {
    TracedInv(cfg, start, trace, w);
    assert SessionOk(cfg, w, i);
  }

  lemma JudgedLater(cfg: Config, start: World, before: seq<Event>, u: World, after: seq<Event>, v: World, j: Judgment, c: Captured,
                    decision: Decision)
    requires Traced(cfg, start, before, u) && Traced(cfg, start, after, v) && before <= after && Judged(cfg, u, j, c, decision)
    ensures Judged(cfg, v, j, c, decision)
  {
    TracedLeads(cfg, start, before, u, after, v);
    JudgedStays(cfg, u, v, j, c, decision);
  }

  lemma FiledNow(u: World, v: World, tx: TxId, c: Captured, ruling: Ruling, judgment: Option<Judgment>)
    requires NoFiling(u, tx)
    requires
      || v.log == u.log
      || exists drawn, at, version, stamp :: v.log == u.log +
           [AuditRow(drawn, at, Entry(c.agentId, c.onBehalfOf, c.roles, "approval/" + RulingName(ruling), c.tool, c.args, ruling,
                                      version), FromExecutor(tx, judgment, stamp))]
    requires NamesRuling(ruling, "approval/" + RulingName(ruling))
    ensures Filed(v, tx, c, ruling, judgment)
  {
  }

  class Executor {
    const d: Deployment

    constructor (d: Deployment)
      ensures this.d == d
    {
      this.d := d;
    }

    // Interference while the session holds a won transaction: it leaves the row as it is, and what
    // has not been sent or filed for it stays unsent and unfiled.
    method Wait(ghost i: nat)
      requires d.Coupled() && i < |d.w.sessions| && Ticketed(d.w.sessions[i])
      modifies d.Footprint()
      ensures d.Coupled() && old(d.trace) <= d.trace
      ensures i < |d.w.sessions| && d.w.sessions[i] == old(d.w).sessions[i]
      ensures
        var s := d.w.sessions[i];
        && s.t.tx in old(d.w).rows && s.t.tx in d.w.rows && d.w.rows[s.t.tx] == old(d.w).rows[s.t.tx]
        && NoFiling(d.w, s.t.tx) && (NoRequest(old(d.w), s.t.tx) ==> NoRequest(d.w, s.t.tx))
        && (Holding(s) ==> d.w.rows[s.t.tx].result.None?) && (Holding(s) && !Called(s) ==> NoRequest(d.w, s.t.tx))
    {
      TicketFacts(d.cfg, d.start, d.trace, d.w, i);
      d.Yield(i);
      NothingNewStays(old(d.w), d.w, d.w.sessions[i].t.tx);
      TicketFacts(d.cfg, d.start, d.trace, d.w, i);
    }

    method Approve(ghost i: nat, tx: TxId, decider: string) returns (r: Reply)
      requires d.Coupled() && i < |d.w.sessions| && d.w.sessions[i] == Clicking(tx, decider, true)
      modifies d.Footprint()
      ensures d.Coupled() && old(d.trace) <= d.trace
      ensures i < |d.w.sessions| && d.w.sessions[i] == Finished(tx)
      ensures Honest(old(d.w), d.w, tx, decider, true, r) && !r.DeniedByYou?
    {
      ghost var before, start := d.trace, d.w;
      var won := d.Click(i, tx, decider, true);
      if won.None? {
        if tx in d.w.rows && d.w.rows[tx].decidedAt == Some(start.Now()) {
          LostClickConcludes(d.cfg, d.start, before, start, i, d.w, tx);
        }
        return Error;
      }
      if !won.value {
        return AlreadyDecided;
      }
      ghost var clicked, trail := d.w, d.trace;
      r := ExecuteApproved(i, tx);
      TracedLeads(d.cfg, d.start, trail, clicked, d.trace, d.w);
      WonForGood(d.cfg, clicked, d.w, tx, decider, true);
    }

    // What follows a won click: reading the row back, the reload, the re-check and the call.
    method ExecuteApproved(ghost i: nat, tx: TxId) returns (r: Reply)
      requires d.Coupled() && i < |d.w.sessions| && d.w.sessions[i].Fetching?
      requires d.w.sessions[i].t.tx == tx && d.w.sessions[i].t.approve
      modifies d.Footprint()
      ensures d.Coupled() && old(d.trace) <= d.trace
      ensures i < |d.w.sessions| && d.w.sessions[i] == Finished(tx)
      ensures Truthful(d.w, tx, r) && !r.DeniedByYou?
    {
      var p := ReadBack(i, tx);
      if p.None? {
        return Error;
      }
      ghost var j;
      r, j := ReloadAndExecute(i, tx, p.value.call);
    }

    // A row that cannot be read back ends the session; nothing was sent, and nothing will be.
    method ReadBack(ghost i: nat, tx: TxId) returns (p: Option<Row>)
      requires d.Coupled() && i < |d.w.sessions| && d.w.sessions[i].Fetching? && d.w.sessions[i].t.tx == tx
      modifies d.Footprint()
      ensures d.Coupled() && old(d.trace) <= d.trace && i < |d.w.sessions|
      ensures NoRequest(d.w, tx) && tx in d.w.rows && d.w.rows[tx].result.None? && (p.None? ==> Concluded(d.w, tx))
      ensures
        var t := old(d.w).sessions[i].t;
        d.w.sessions[i] == if p.None? then Finished(tx)
                           else if t.approve then Reading(t, p.value.call)
                           else Closing(t, p.value.call, State.Denied, "denied by " + t.decider, DeniedByHuman, None)
    {
      Wait(i);
      ghost var before, u := d.trace, d.w;
      p := d.Fetch(i, tx);
      if p.None? { FetchFailureConcludes(d.cfg, d.start, before, u, i, d.w); }
    }

    // `j` is how the re-check came about, None when the reload failed and there was none.
    method ReloadAndExecute(ghost i: nat, tx: TxId, c: Captured) returns (r: Reply, ghost j: Option<Judgment>)
      requires d.Coupled() && i < |d.w.sessions| && d.w.sessions[i].Reading?
      requires d.w.sessions[i].c == c && d.w.sessions[i].t.tx == tx
      modifies d.Footprint()
      ensures d.Coupled() && old(d.trace) <= d.trace
      ensures i < |d.w.sessions| && d.w.sessions[i] == Finished(tx)
      ensures Truthful(d.w, tx, r) && (r.Voided? || r.ExecutionFailed? || r.ExecutedWith?)
      ensures j.None? ==> r.Voided? && Stored(d.w, tx, Failed, "policy reload failed")
      ensures j.Some? && r.Voided? ==> Stored(d.w, tx, Failed, "re-check denied")
      ensures j.Some? ==> Judged(d.cfg, d.w, j.value, c, if r.Voided? then Decision.Deny else NeedsApproval)
    {
      var reloaded := Reload(i);
      if reloaded {
        ghost var how;
        r, how := ExecuteIfStillAllowed(i, tx, c);
        j := Some(how);
      } else {
        Refuse(i, tx, c, RELOAD_FAILED, None);
        r, j := Voided, None;
      }
    }

    // The read and the swap of Engine.Reload, which others may come between.
    method Reload(ghost i: nat) returns (ok: bool)
      requires d.Coupled() && i < |d.w.sessions| && d.w.sessions[i].Reading?
      modifies d.Footprint()
      ensures d.Coupled() && old(d.trace) <= d.trace && i < |d.w.sessions|
      ensures
        var Reading(t, c) := old(d.w).sessions[i];
        if ok then d.w.sessions[i].Snapping? && d.w.sessions[i].t == t && d.w.sessions[i].c == c
        else d.w.sessions[i] == Closing(t, c, Failed, RELOAD_FAILED, Ruled(Decision.Deny), None)
    {
      var text := Read(i);
      if text.None? {
        return false;
      }
      var ps := d.cfg.reader.parse(text.value).value;
      d.Yield(i);
      d.Swap(i, text.value, ps);
      return true;
    }

    method Read(ghost i: nat) returns (text: Option<string>)
      requires d.Coupled() && i < |d.w.sessions| && d.w.sessions[i].Reading?
      modifies d.Footprint()
      ensures d.Coupled() && old(d.trace) <= d.trace && i < |d.w.sessions|
      ensures text.Some? ==> d.cfg.reader.parse(text.value).Some?
      ensures
        var Reading(t, c) := old(d.w).sessions[i];
        var s := d.w.sessions[i];
        if text.Some? then s.Swapping? && s.t == t && s.c == c && s.text == text.value
        else s == Closing(t, c, Failed, RELOAD_FAILED, Ruled(Decision.Deny), None)
    {
      d.Yield(i);
      text := d.ReadFile(i);
    }

    // The re-check, in its two moments, and what follows from it.
    method ExecuteIfStillAllowed(ghost i: nat, tx: TxId, c: Captured) returns (r: Reply, ghost j: Judgment)
      requires d.Coupled() && i < |d.w.sessions| && d.w.sessions[i].Snapping?
      requires d.w.sessions[i].c == c && d.w.sessions[i].t.tx == tx
      modifies d.Footprint()
      ensures d.Coupled() && old(d.trace) <= d.trace
      ensures i < |d.w.sessions| && d.w.sessions[i] == Finished(tx)
      ensures Truthful(d.w, tx, r) && (r.Voided? || r.ExecutionFailed? || r.ExecutedWith?)
      ensures Judged(d.cfg, d.w, j, c, if r.Voided? then Decision.Deny else NeedsApproval)
      ensures r.Voided? ==> Stored(d.w, tx, Failed, "re-check denied")
    {
      var decision, judgment := Recheck(i, c);
      ghost var before, u := d.trace, d.w;
      RecheckedIsJudged(d.cfg, d.start, d.trace, d.w, i, judgment);
      j := judgment;
      if decision.Deny? {
        Refuse(i, tx, c, RECHECK_DENIED, Some(judgment));
        r := Voided;
      } else {
        r := Execute(i, tx, c, judgment);
      }
      JudgedLater(d.cfg, d.start, before, u, d.trace, d.w, j, c, if decision.Deny? then Decision.Deny else NeedsApproval);
    }

    // Engine.Decide: the snapshot under the lock, and the evaluation.
    method Recheck(ghost i: nat, c: Captured) returns (decision: Decision, j: Judgment)
      requires d.Coupled() && i < |d.w.sessions| && d.w.sessions[i].Snapping? && d.w.sessions[i].c == c
      modifies d.Footprint()
      ensures d.Coupled() && old(d.trace) <= d.trace && i < |d.w.sessions|
      ensures
        var t := old(d.w).sessions[i].t;
        d.w.sessions[i] == if decision.Deny? then Closing(t, c, Failed, RECHECK_DENIED, Ruled(Decision.Deny), Some(j))
                           else Connecting(t, c, j)
    {
      var ps, inst, takenAt := Snapshot(i);
      decision, j := d.Recheck(i, ps, inst, takenAt, c);
    }

    // The policies taken stay those of their installation, whatever is installed later.
    method Snapshot(ghost i: nat) returns (ps: PolicySet, inst: nat, takenAt: nat)
      requires d.Coupled() && i < |d.w.sessions| && d.w.sessions[i].Snapping?
      modifies d.Footprint()
      ensures d.Coupled() && old(d.trace) <= d.trace && i < |d.w.sessions|
      ensures
        var s := d.w.sessions[i];
        && s.Rejudging? && s.t == old(d.w).sessions[i].t && s.c == old(d.w).sessions[i].c
        && s.inst == inst && s.takenAt == takenAt
      ensures inst < |d.w.installs| && d.w.installs[inst].policies == ps
    {
      d.Yield(i);
      ps, inst, takenAt := d.Snapshot(i);
      d.Yield(i);
    }

    method Execute(ghost i: nat, tx: TxId, c: Captured, j: Judgment) returns (r: Reply)
      requires d.Coupled() && i < |d.w.sessions| && d.w.sessions[i].Connecting? && d.w.sessions[i].passed == j
      requires d.w.sessions[i].c == c && d.w.sessions[i].t.tx == tx
      modifies d.Footprint()
      ensures d.Coupled() && old(d.trace) <= d.trace
      ensures i < |d.w.sessions| && d.w.sessions[i] == Finished(tx)
      ensures Truthful(d.w, tx, r) && (r.ExecutionFailed? || r.ExecutedWith?)
      ensures Filed(d.w, tx, c, if r.ExecutedWith? then ExecutedAfterApproval else ExecuteFailed, Some(j))
    {
      var result;
      ghost var heard;
      result, heard := CallTool(i, tx, c, j);
      ghost var before, u := d.trace, d.w;
      match result {
        case Got(text) =>
          Finish(i, tx, c, Executed, text, ExecutedAfterApproval, Some(j));
          r := ExecutedWith(text);
        case Broke(why) =>
          Finish(i, tx, c, Failed, why, ExecuteFailed, Some(j));
          r := ExecutionFailed(why);
      }
      TracedLeads(d.cfg, d.start, before, u, d.trace, d.w);
      if result.Got? { SucceededStays(u, d.w, tx, result.text); } else { SentStays(u, d.w, tx); }
    }

    // `heard` is the backend's answer, if the executor got one.
    method CallTool(ghost i: nat, tx: TxId, c: Captured, j: Judgment) returns (result: ToolResult, ghost heard: Option<Toy.Reply>)
      requires d.Coupled() && i < |d.w.sessions| && d.w.sessions[i].Connecting? && d.w.sessions[i].passed == j
      requires d.w.sessions[i].c == c && d.w.sessions[i].t.tx == tx
      modifies d.Footprint()
      ensures d.Coupled() && old(d.trace) <= d.trace && i < |d.w.sessions|
      ensures d.w.sessions[i] == AfterCall(old(d.w).sessions[i].t, c, j, result)
      ensures match result case Got(text) => Succeeded(d.w, tx, text) case Broke(why) => Explains(d.w, tx, why)
      ensures
        match heard
        case Some(ToolOk(text)) => result == Got(text)
        case Some(ToolError) => result == Broke("tool returned error")
        case Some(NoSuchTool) => result == Broke("call tool")
        case None => result == Broke("mcp initialize") || result == Broke("call tool")
    {
      heard := None;
      var open := Connect(i, tx, c, j);
      if !open {
        result := Broke(CONNECT_FAILED);
        return;
      }
      var sent := Send(i, tx, c, j);
      if sent.None? {
        result := Broke(CALL_FAILED);
        return;
      }
      d.Yield(i);
      result, heard := d.Await(i, tx, sent.value);
    }

    method Connect(ghost i: nat, tx: TxId, ghost c: Captured, ghost j: Judgment) returns (open: bool)
      requires d.Coupled() && i < |d.w.sessions| && d.w.sessions[i].Connecting? && d.w.sessions[i].passed == j
      requires d.w.sessions[i].c == c && d.w.sessions[i].t.tx == tx
      modifies d.Footprint()
      ensures d.Coupled() && old(d.trace) <= d.trace && i < |d.w.sessions|
      ensures !open ==> NoRequest(d.w, tx)
      ensures
        var t := old(d.w).sessions[i].t;
        d.w.sessions[i] == if open then Calling(t, c, j)
                           else Closing(t, c, Failed, CONNECT_FAILED, ExecuteFailed, Some(j))
    {
      Wait(i);
      open := d.Connect(i, tx, c, j);
    }

    method Send(ghost i: nat, tx: TxId, c: Captured, j: Judgment) returns (sent: Option<nat>)
      requires d.Coupled() && i < |d.w.sessions| && d.w.sessions[i].Calling? && d.w.sessions[i].passed == j
      requires d.w.sessions[i].c == c && d.w.sessions[i].t.tx == tx
      modifies d.Footprint()
      ensures d.Coupled() && old(d.trace) <= d.trace && i < |d.w.sessions|
      ensures
        var t := old(d.w).sessions[i].t;
        d.w.sessions[i] == if sent.Some? then Waiting(t, c, j, sent.value)
                           else Closing(t, c, Failed, CALL_FAILED, ExecuteFailed, Some(j))
    {
      d.Yield(i);
      sent := d.Send(i, tx, c, j);
    }

    // SetResult and then the audit row; the error of either is only logged.
    method Finish(ghost i: nat, tx: TxId, c: Captured, final: State, result: string, ruling: Ruling, judgment: Option<Judgment>)
      requires d.Coupled() && i < |d.w.sessions| && d.w.sessions[i].Closing? && d.w.sessions[i].t.tx == tx
      requires d.w.sessions[i] == Closing(d.w.sessions[i].t, c, final, result, ruling, judgment)
      modifies d.Footprint()
      ensures d.Coupled() && old(d.trace) <= d.trace
      ensures i < |d.w.sessions| && d.w.sessions[i] == Finished(tx)
      ensures Stored(d.w, tx, final, result) && Filed(d.w, tx, c, ruling, judgment)
      ensures Unattempted(ruling) || NoRequest(old(d.w), tx) ==> NoRequest(d.w, tx)
    {
      StoreResult(i, tx, c, final, result, ruling, judgment);
      AuditRow(i, tx, c, ruling, judgment);
    }

    method StoreResult(ghost i: nat, tx: TxId, ghost c: Captured, final: State, result: string, ghost ruling: Ruling,
                       ghost judgment: Option<Judgment>)
      requires d.Coupled() && i < |d.w.sessions| && d.w.sessions[i].Closing? && d.w.sessions[i].t.tx == tx
      requires d.w.sessions[i] == Closing(d.w.sessions[i].t, c, final, result, ruling, judgment)
      modifies d.Footprint()
      ensures d.Coupled() && old(d.trace) <= d.trace && i < |d.w.sessions|
      ensures d.w.sessions[i] == Noting(old(d.w).sessions[i].t, c, ruling, judgment)
      ensures Stored(d.w, tx, final, result) && (NoRequest(old(d.w), tx) ==> NoRequest(d.w, tx))
    {
      Wait(i);
      d.SetResult(i, tx, final, result);
    }

    method Refuse(ghost i: nat, tx: TxId, c: Captured, why: string, judgment: Option<Judgment>)
      requires d.Coupled() && i < |d.w.sessions| && d.w.sessions[i].Closing? && d.w.sessions[i].t.tx == tx
      requires d.w.sessions[i] == Closing(d.w.sessions[i].t, c, Failed, why, Ruled(Decision.Deny), judgment)
      modifies d.Footprint()
      ensures d.Coupled() && old(d.trace) <= d.trace
      ensures i < |d.w.sessions| && d.w.sessions[i] == Finished(tx)
      ensures Stored(d.w, tx, Failed, why) && Filed(d.w, tx, c, Ruled(Decision.Deny), judgment) && NoRequest(d.w, tx)
    {
      Finish(i, tx, c, Failed, why, Ruled(Decision.Deny), judgment);
    }

    method AuditRow(ghost i: nat, tx: TxId, c: Captured, ruling: Ruling, judgment: Option<Judgment>)
      requires d.Coupled() && i < |d.w.sessions| && d.w.sessions[i].Noting? && d.w.sessions[i].t.tx == tx
      requires d.w.sessions[i] == Noting(d.w.sessions[i].t, c, ruling, judgment)
      modifies d.Footprint()
      ensures d.Coupled() && old(d.trace) <= d.trace
      ensures i < |d.w.sessions| && d.w.sessions[i] == Finished(tx)
      ensures (tx in old(d.w).rows ==> tx in d.w.rows && d.w.rows[tx] == old(d.w).rows[tx])
      ensures Filed(d.w, tx, c, ruling, judgment)
      ensures Unattempted(ruling) || NoRequest(old(d.w), tx) ==> NoRequest(d.w, tx)
    {
      var version, stamp := ReadVersion(i, tx);
      FileRow(i, tx, c, ruling, judgment, version, stamp);
    }

    method FileRow(ghost i: nat, tx: TxId, c: Captured, ruling: Ruling, judgment: Option<Judgment>, version: string, stamp: Stamp)
      requires d.Coupled() && i < |d.w.sessions| && d.w.sessions[i].Filing? && d.w.sessions[i].t.tx == tx
      requires d.w.sessions[i] == Filing(d.w.sessions[i].t, c, ruling, judgment, version, stamp)
      modifies d.Footprint()
      ensures d.Coupled() && old(d.trace) <= d.trace
      ensures i < |d.w.sessions| && d.w.sessions[i] == Finished(tx)
      ensures (tx in old(d.w).rows ==> tx in d.w.rows && d.w.rows[tx] == old(d.w).rows[tx])
      ensures Filed(d.w, tx, c, ruling, judgment)
      ensures Unattempted(ruling) || NoRequest(old(d.w), tx) ==> NoRequest(d.w, tx)
    {
      Wait(i);
      if Unattempted(ruling) {
        RefusingIsSilent(d.cfg, d.w, i);
      }
      ghost var u := d.w;
      d.File(i, tx, c, ruling, judgment, version, stamp);
      FiledNow(u, d.w, tx, c, ruling, judgment);
    }

    method ReadVersion(ghost i: nat, ghost tx: TxId) returns (version: string, stamp: Stamp)
      requires d.Coupled() && i < |d.w.sessions| && d.w.sessions[i].Noting? && d.w.sessions[i].t.tx == tx
      modifies d.Footprint()
      ensures d.Coupled() && old(d.trace) <= d.trace && i < |d.w.sessions|
      ensures (tx in old(d.w).rows ==> tx in d.w.rows && d.w.rows[tx] == old(d.w).rows[tx])
      ensures
        var Noting(t, c, ruling, judgment) := old(d.w).sessions[i];
        d.w.sessions[i] == Filing(t, c, ruling, judgment, version, stamp)
      ensures NoRequest(old(d.w), tx) ==> NoRequest(d.w, tx)
    {
      Wait(i);
      version, stamp := d.ReadVersion(i);
    }

    method Deny(ghost i: nat, tx: TxId, decider: string) returns (r: Reply)
      requires d.Coupled() && i < |d.w.sessions| && d.w.sessions[i] == Clicking(tx, decider, false)
      modifies d.Footprint()
      ensures d.Coupled() && old(d.trace) <= d.trace
      ensures i < |d.w.sessions| && d.w.sessions[i] == Finished(tx)
      ensures Honest(old(d.w), d.w, tx, decider, false, r) && (r.Error? || r.AlreadyDecided? || r.DeniedByYou?)
    {
      ghost var before, start := d.trace, d.w;
      var won := d.Click(i, tx, decider, false);
      if won.None? {
        if tx in d.w.rows && d.w.rows[tx].decidedAt == Some(start.Now()) {
          LostClickConcludes(d.cfg, d.start, before, start, i, d.w, tx);
        }
        return Error;
      }
      if !won.value {
        return AlreadyDecided;
      }
      ghost var clicked, trail := d.w, d.trace;
      CloseDenied(i, tx, decider);
      TracedLeads(d.cfg, d.start, trail, clicked, d.trace, d.w);
      WonForGood(d.cfg, clicked, d.w, tx, decider, false);
      return DeniedByYou;
    }

    // What follows a won denial: the result and the audit row, when the row can be read back.
    method CloseDenied(ghost i: nat, tx: TxId, decider: string)
      requires d.Coupled() && i < |d.w.sessions| && d.w.sessions[i].Fetching?
      requires d.w.sessions[i].t == Ticket(tx, decider, false, d.w.sessions[i].t.clickAt)
      modifies d.Footprint()
      ensures d.Coupled() && old(d.trace) <= d.trace
      ensures i < |d.w.sessions| && d.w.sessions[i] == Finished(tx)
      ensures Stored(d.w, tx, State.Denied, "denied by " + decider) && NoRequest(d.w, tx)
    {
      var p := ReadBack(i, tx);
      if p.Some? {
        Finish(i, tx, p.value.call, State.Denied, "denied by " + decider, DeniedByHuman, None);
      }
    }
  }
}
