// agentgate/internal/audit/audit.go and migrations/001_audit_log.sql
module Audit {
  import opened Wrappers
  import opened Json
  import opened Store
  import opened Policy

  // The decision column. An executor row's method column is "approval/" + decision.
  datatype Ruling = Ruled(decision: Decision) | ExecuteFailed | ExecutedAfterApproval | DeniedByHuman

  function RulingName(r: Ruling): string {
    match r
    case Ruled(Allow) => "allow"
    case Ruled(Deny) => "deny"
    case Ruled(NeedsApproval) => "needs_approval"
    case ExecuteFailed => "execute_failed"
    case ExecutedAfterApproval => "executed_after_approval"
    case DeniedByHuman => "denied_by_human"
  }

  // The two columns of an executor row that name its ruling. The executor files no other ruling.
  predicate NamesRuling(r: Ruling, rpc: string) {
    match r
    case Ruled(Deny) => rpc == "approval/deny"
    case ExecuteFailed => rpc == "approval/execute_failed"
    case ExecutedAfterApproval => rpc == "approval/executed_after_approval"
    case DeniedByHuman => rpc == "approval/denied_by_human"
    case Ruled(_) => true
  }

  lemma MethodNames(r: Ruling)
    ensures NamesRuling(r, "approval/" + RulingName(r))
  {
    assert "approval/" + "deny" == "approval/deny" && "approval/" + "execute_failed" == "approval/execute_failed";
    assert "approval/" + "executed_after_approval" == "approval/executed_after_approval";
    assert "approval/" + "denied_by_human" == "approval/denied_by_human";
  }

  // Each method names one ruling.
  lemma MethodTells(r: Ruling, rpc: string)
    requires NamesRuling(r, rpc) && (r.Ruled? ==> r.decision.Deny?)
    ensures rpc == "approval/deny" <==> r == Ruled(Deny)
    ensures rpc == "approval/execute_failed" <==> r.ExecuteFailed?
    ensures rpc == "approval/executed_after_approval" <==> r.ExecutedAfterApproval?
    ensures rpc == "approval/denied_by_human" <==> r.DeniedByHuman?
  {
    assert |"approval/deny"| == 13 && |"approval/execute_failed"| == 23;
    assert |"approval/executed_after_approval"| == 32 && |"approval/denied_by_human"| == 24;
  }

  // So does each decision.
  lemma DecisionTells(r: Ruling)
    ensures RulingName(r) == "allow" <==> r == Ruled(Allow)
    ensures RulingName(r) == "deny" <==> r == Ruled(Deny)
    ensures RulingName(r) == "needs_approval" <==> r == Ruled(NeedsApproval)
    ensures RulingName(r) == "execute_failed" <==> r.ExecuteFailed?
    ensures RulingName(r) == "executed_after_approval" <==> r.ExecutedAfterApproval?
    ensures RulingName(r) == "denied_by_human" <==> r.DeniedByHuman?
  {
    assert |"allow"| == 5 && |"deny"| == 4 && |"executed_after_approval"| == 23 && |"denied_by_human"| == 15;
    assert "needs_approval"[0] != "execute_failed"[0];
  }

  // How a decision came about: by the policies of installation `inst`, taken from the engine at
  // instant `takenAt`, and the graph at instant `at`, if it answered.
  datatype Judgment = Judgment(inst: nat, takenAt: nat, at: nat, answered: bool)

  // Where a policy_version came from: installation `inst`, as the engine stood at instant `at`.
  datatype Stamp = Stamp(inst: nat, at: nat)

  // Which code path wrote a row. The database does not hold this column: it is the model's
  // record of provenance. A protocol message has no judgment, nor has an approval whose reload
  // failed or that was denied by a human.
  datatype Source =
    | FromCheck(session: nat, judgment: Option<Judgment>, stamp: Stamp)
    | FromExecutor(about: TxId, judgment: Option<Judgment>, stamp: Stamp)

  datatype Entry = Entry(caller: string, onBehalfOf: string, roles: seq<string>, rpc: string, tool: string, args: Object,
                         ruling: Ruling, version: string)

  datatype AuditRow = AuditRow(tx: TxId, at: nat, entry: Entry, source: Source)

  type AuditRows = seq<AuditRow>

  predicate Fresh(log: AuditRows, tx: TxId) {
    forall k :: 0 <= k < |log| ==> log[k].tx != tx
  }

  // An id that has not been drawn.
  function Undrawn(log: AuditRows): (tx: TxId)
    ensures forall k :: 0 <= k < |log| ==> log[k].tx < tx
  {
    if log == [] then 0
    else
      var tx, last := Undrawn(log[..|log| - 1]), log[|log| - 1].tx;
      if last < tx then tx else last + 1
  }

  class Log {
    var rows: AuditRows

    constructor ()
      ensures rows == []
    {
      rows := [];
    }

    // `drawn` is the id the database draws. None when the caller sees an error, though the row may be there.
    method Record(entry: Entry, source: Source, drawn: TxId, now: nat) returns (tx: Option<TxId>, ghost o: Outcome)
      modifies this
      ensures rows == if o.Refused? then old(rows) else old(rows) + [AuditRow(drawn, now, entry, source)]
      ensures tx == if o.Done? then Some(drawn) else None
    {
      var oc: Outcome := *;
      tx, o := if oc.Done? then Some(drawn) else None, oc;
      if !oc.Refused? {
        rows := rows + [AuditRow(drawn, now, entry, source)];
      }
    }
  }
}
