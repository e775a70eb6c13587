// agentgate/internal/authz/server.go: the check every MCP request passes through.
module Authz {
  import opened Wrappers
  import opened Identity
  import opened Cedar
  import opened Policy
  import opened PolicyProperties
  import opened Store
  import opened Audit
  import opened Protocol
  import opened Invariant
  import opened Traces
  import opened Provenance
  import opened Deployment

  // What the invariant says of a Check call that is being answered.
  lemma AnswerFacts(cfg: Config, start: World, trace: seq<Event>, w: World, i: nat)
    requires Traced(cfg, start, trace, w) && i < |w.sessions|
    ensures w.sessions[i].Forwarding? ==> !Destructive(w.sessions[i].call.tool)
    ensures w.sessions[i].Answered? && w.sessions[i].answer.Allowed? ==> !Destroys(w.sessions[i].call)
    ensures w.sessions[i].Answered? && w.sessions[i].answer.PendingApproval? ==> w.sessions[i].answer.tx in w.rows
    ensures w.sessions[i].Stamping? && w.sessions[i].verdict.NeedsApproval? ==> Destroys(w.sessions[i].call)
  {
    TracedInv(cfg, start, trace, w);
    assert SessionOk(cfg, w, i);
  }

  // The audit row of session `i`, if there is one: this caller's, for this call, with this verdict.
  predicate LoggedFor(w: World, i: nat, id: Identity, call: Call, verdict: Decision, judgment: Option<Judgment>) {
    forall k :: 0 <= k < |w.log| && From(w.log[k], i) ==>
      && Describes(w.log[k].entry, id, call) && w.log[k].entry.ruling == Ruled(verdict) && w.log[k].source.judgment == judgment
  }

  // The same with the verdict read off the answer: a call that could not be parked was rejected too.
  predicate LoggedAsAnswered(w: World, i: nat, who: Option<Identity>, call: Call, answer: Answer) {
    forall k :: 0 <= k < |w.log| && From(w.log[k], i) ==>
      && who.Some? && Describes(w.log[k].entry, who.value, call)
      && match answer
         case Allowed => w.log[k].entry.ruling == Ruled(Decision.Allow)
         case PendingApproval(_) => w.log[k].entry.ruling == Ruled(NeedsApproval)
         case Rejected => w.log[k].entry.ruling == Ruled(Decision.Deny) || w.log[k].entry.ruling == Ruled(NeedsApproval)
  }

  lemma AnswerIsLogged(cfg: Config, start: World, before: seq<Event>, u: World, after: seq<Event>, v: World, i: nat,
                       id: Identity, call: Call, answer: Answer)
    requires Traced(cfg, start, before, u) && Traced(cfg, start, after, v) && before <= after && i < |u.sessions|
    requires u.sessions[i] == Arrived(Some(id), call) && i < |v.sessions|
    requires v.sessions[i] == if answer.Allowed? && call.rpc == TOOLS_CALL then Forwarding(call) else Answered(true, call, answer)
    ensures LoggedAsAnswered(v, i, Some(id), call, answer)
  {
    LoggedAsAsked(cfg, start, before, u, after, v, i, id, call);
  }

  lemma WrittenNow(u: World, v: World, i: nat, id: Identity, call: Call, verdict: Decision, judgment: Option<Judgment>,
                   tx: Option<TxId>)
    requires NoEntry(u, i)
    requires
      || (tx.None? && v.log == u.log)
      || exists drawn, at, version, stamp :: (tx.Some? ==> tx.value == drawn) && v.log == u.log +
           [AuditRow(drawn, at, Entry(id.agentId, id.onBehalfOf, id.roles, call.rpc, call.tool, call.args, Ruled(verdict), version),
                     FromCheck(i, judgment, stamp))]
    ensures LoggedFor(v, i, id, call, verdict, judgment)
    ensures tx.Some? ==> exists k :: 0 <= k < |v.log| && From(v.log[k], i) && v.log[k].tx == tx.value
  {
    if v.log != u.log { assert From(v.log[|u.log|], i); }
  }

  // A Check that has not written its audit row has none.
  lemma NothingLoggedYet(cfg: Config, start: World, trace: seq<Event>, w: World, i: nat)
    requires Traced(cfg, start, trace, w) && i < |w.sessions| && NotYetLogged(w.sessions[i])
    ensures NoEntry(w, i)
  {
    TracedInv(cfg, start, trace, w);
    assert SessionOk(cfg, w, i);
  }

  class Server {
    const d: Deployment

    constructor (d: Deployment)
      ensures this.d == d
    {
      this.d := d;
    }

    // Every call adds a run of the protocol that ends with the answer given, so a destructive
    // tools/call is never answered with allow; and a pending answer names a row that holds this call.
    method Check(i: nat, who: Option<Identity>, call: Call) returns (answer: Answer)
      requires d.Coupled() && i < |d.w.sessions| && d.w.sessions[i] == Arrived(who, call)
      modifies d.Footprint()
      ensures d.Coupled() && old(d.trace) <= d.trace && i < |d.w.sessions|
      ensures d.w.sessions[i] == if answer.Allowed? && call.rpc == TOOLS_CALL then Forwarding(call)
                                 else Answered(who.Some?, call, answer)
      ensures who.None? ==> answer.Rejected?
      ensures call.rpc == "tools/call" && NamedDestructive(call.tool) ==> !answer.Allowed?
      ensures answer.PendingApproval? ==>
                && call.rpc == "tools/call" && NamedDestructive(call.tool) && answer.tx in d.w.rows
                && Keeps(d.w.rows[answer.tx].call, who.value, call)
      ensures LoggedAsAnswered(d.w, i, who, call, answer)
    {
      ghost var before, asked := d.trace, d.w;
      var ps, inst, takenAt := d.Admit(i, who, call);
      if who.None? {
        UnidentifiedIsUnlogged(d.cfg, d.start, before, asked, d.trace, d.w, i);
        return Rejected;
      }
      answer := Resolve(i, who.value, call, ps, inst, takenAt);
      AnswerIsLogged(d.cfg, d.start, before, asked, d.trace, d.w, i, who.value, call, answer);
    }

    // The decision on an identified caller's message, its audit row and the answer.
    method Resolve(i: nat, id: Identity, call: Call, ps: PolicySet, inst: nat, takenAt: nat) returns (answer: Answer)
      requires d.Coupled() && i < |d.w.sessions|
      requires d.w.sessions[i] == if call.rpc == TOOLS_CALL then Judging(id, call, inst, takenAt) else Stamping(id, call, Allow, None)
      requires inst < |d.w.installs| && d.w.installs[inst].policies == ps
      modifies d.Footprint()
      ensures d.Coupled() && old(d.trace) <= d.trace && i < |d.w.sessions|
      ensures d.w.sessions[i] == if answer.Allowed? && call.rpc == TOOLS_CALL then Forwarding(call)
                                 else Answered(true, call, answer)
      ensures call.rpc == "tools/call" && NamedDestructive(call.tool) ==> !answer.Allowed?
      ensures answer.PendingApproval? ==>
                && call.rpc == "tools/call" && NamedDestructive(call.tool) && answer.tx in d.w.rows
                && Keeps(d.w.rows[answer.tx].call, id, call)
    {
      FourPrefixes(call.tool);
      var verdict, judgment := Verdict(i, id, call, ps, inst, takenAt);
      AnswerFacts(d.cfg, d.start, d.trace, d.w, i);
      var tx := Record(i, id, call, verdict, judgment);
      answer := Respond(i, id, call, verdict, tx);
      AnswerFacts(d.cfg, d.start, d.trace, d.w, i);
    }

    // Only tool calls are decided; any other message is let through.
    method Verdict(ghost i: nat, id: Identity, call: Call, ps: PolicySet, inst: nat, takenAt: nat)
      returns (verdict: Decision, judgment: Option<Judgment>)
      requires d.Coupled() && i < |d.w.sessions|
      requires d.w.sessions[i] == if call.rpc == TOOLS_CALL then Judging(id, call, inst, takenAt) else Stamping(id, call, Allow, None)
      requires inst < |d.w.installs| && d.w.installs[inst].policies == ps
      modifies d.Footprint()
      ensures d.Coupled() && old(d.trace) <= d.trace && i < |d.w.sessions|
      ensures d.w.sessions[i] == Stamping(id, call, verdict, judgment)
      ensures judgment.None? <==> call.rpc != "tools/call"
      ensures judgment.None? ==> verdict.Allow?
    {
      verdict, judgment := Allow, None;
      if call.rpc == TOOLS_CALL {
        var j;
        verdict, j := Decide(i, ps, inst, takenAt, id, call);
        judgment := Some(j);
      }
    }

    method Decide(ghost i: nat, ps: PolicySet, inst: nat, takenAt: nat, id: Identity, call: Call)
      returns (verdict: Decision, j: Judgment)
      requires d.Coupled() && i < |d.w.sessions| && d.w.sessions[i] == Judging(id, call, inst, takenAt)
      requires inst < |d.w.installs| && d.w.installs[inst].policies == ps
      modifies d.Footprint()
      ensures d.Coupled() && old(d.trace) <= d.trace && i < |d.w.sessions|
      ensures d.w.sessions[i] == Stamping(id, call, verdict, Some(j)) && j.inst == inst && j.takenAt == takenAt
    {
      d.Yield(i);
      verdict, j := d.Evaluate(i, ps, inst, takenAt, id, call);
    }

    // The version read and the audit write; without an id the call cannot be parked.
    method Record(i: nat, id: Identity, call: Call, verdict: Decision, judgment: Option<Judgment>) returns (tx: Option<TxId>)
      requires d.Coupled() && i < |d.w.sessions| && d.w.sessions[i] == Stamping(id, call, verdict, judgment)
      modifies d.Footprint()
      ensures d.Coupled() && old(d.trace) <= d.trace && i < |d.w.sessions|
      ensures d.w.sessions[i] == Audited(id, call, verdict, tx)
      ensures LoggedFor(d.w, i, id, call, verdict, judgment)
      ensures tx.Some? ==> exists k :: 0 <= k < |d.w.log| && From(d.w.log[k], i) && d.w.log[k].tx == tx.value
    {
      d.Yield(i);
      var version, stamp := d.ReadVersion(i);
      d.Yield(i);
      NothingLoggedYet(d.cfg, d.start, d.trace, d.w, i);
      ghost var u := d.w;
      tx := d.Record(i, id, call, verdict, judgment, version, stamp);
      WrittenNow(u, d.w, i, id, call, verdict, judgment, tx);
    }

    // The switch on the decision: allow, park, or deny.
    method Respond(ghost i: nat, id: Identity, call: Call, verdict: Decision, tx: Option<TxId>) returns (answer: Answer)
      requires d.Coupled() && i < |d.w.sessions|
      requires d.w.sessions[i] == Audited(id, call, verdict, tx)
      modifies d.Footprint()
      ensures d.Coupled() && old(d.trace) <= d.trace && i < |d.w.sessions|
      ensures d.w.sessions[i] == if answer.Allowed? && call.rpc == TOOLS_CALL then Forwarding(call)
                                 else Answered(true, call, answer)
      ensures answer.Allowed? <==> verdict.Allow?
      ensures answer.PendingApproval? ==>
                && verdict.NeedsApproval? && tx == Some(answer.tx)
                && answer.tx in d.w.rows && Keeps(d.w.rows[answer.tx].call, id, call)
    {
      match verdict
      case Allow => answer := Allowed;
      case NeedsApproval => answer := ParkCall(i, Capture(id, call), call, tx);
      case Deny => answer := Rejected;
    }

    // An attempt that could not be audited or parked is refused. Between the INSERT and the answer
    // the Slack message goes out, so the row may have been decided by then; its call is the same.
    method ParkCall(ghost i: nat, kept: Captured, ghost call: Call, tx: Option<TxId>) returns (answer: Answer)
      requires d.Coupled() && i < |d.w.sessions| && d.w.sessions[i] == Parking(kept, call, tx)
      modifies d.Footprint()
      ensures d.Coupled() && old(d.trace) <= d.trace && i < |d.w.sessions|
      ensures d.w.sessions[i] == Answered(true, call, answer)
      ensures answer.Rejected? || (tx.Some? && answer == PendingApproval(tx.value))
      ensures answer.PendingApproval? ==> answer.tx in d.w.rows && d.w.rows[answer.tx].call == kept
    {
      d.Yield(i);
      var ok := d.Park(i, kept, call, tx);
      answer := if ok then PendingApproval(tx.value) else Rejected;
      ghost var parked := d.w;
      d.Yield(i);
      assert ok ==> RowEvolves(parked.rows[tx.value], d.w.rows[tx.value]);
    }
  }
}
