// A run of the protocol kept as a trace: what may be concluded between two of its points.
module Traces {
  import opened Wrappers
  import opened Identity
  import opened Policy
  import opened Store
  import opened Protocol
  import opened Invariant
  import opened Preservation
  import opened Guarantees

  // ---- Traces ----------------------------------------------------------------

  // `u` is where the events of `trace` lead from the initial world `start`.
  ghost predicate Traced(cfg: Config, start: World, trace: seq<Event>, u: World) {
    Initial(cfg, start) && Runs(cfg, start, trace, u)
  }

  // One step of session `i`, and nothing else, has been added.
  predicate StepOf(before: seq<Event>, after: seq<Event>, i: nat) {
    |after| == |before| + 1 && before <= after && after[|before|].Run? && after[|before|].actor == i
  }

  // Only steps of others than session `i` have been added.
  predicate StepsOfOthers(before: seq<Event>, after: seq<Event>, i: nat) {
    before <= after && Others(after[|before|..], i)
  }

  lemma StepTraced(cfg: Config, start: World, trace: seq<Event>, u: World, e: Event)
    requires Traced(cfg, start, trace, u) && Enabled(cfg, u, e)
    ensures Traced(cfg, start, trace + [e], Next(cfg, u, e))
  {
    var v := Next(cfg, u, e);
    assert [e][1..] == [] && Runs(cfg, v, [], v) && Runs(cfg, u, [e], v);
    RunsThen(cfg, start, trace, u, [e], v);
  }

  lemma TracedInv(cfg: Config, start: World, trace: seq<Event>, u: World)
    requires Traced(cfg, start, trace, u)
    ensures Inv(cfg, u)
  {
    InitialInv(cfg, start);
    RunsInv(cfg, start, trace, u);
  }

  lemma TracedLeads(cfg: Config, start: World, before: seq<Event>, u: World, after: seq<Event>, v: World)
    requires Traced(cfg, start, before, u) && Traced(cfg, start, after, v) && before <= after
    ensures Leads(cfg, u, v) && Extends(u, v)
  {
    RunBetween(cfg, start, before, u, after, v);
    TracedInv(cfg, start, before, u);
    RunExtends(cfg, u, after[|before|..], v);
  }

  lemma OthersTraced(cfg: Config, start: World, before: seq<Event>, u: World, after: seq<Event>, v: World, i: nat)
    requires Traced(cfg, start, before, u) && Traced(cfg, start, after, v) && StepsOfOthers(before, after, i) && i < |u.sessions|
    ensures i < |v.sessions| && v.sessions[i] == u.sessions[i] && Extends(u, v)
    ensures Claim(u.sessions[i]).Some? ==> Undisturbed(u, v, Claim(u.sessions[i]).value)
  {
    RunBetween(cfg, start, before, u, after, v);
    TracedInv(cfg, start, before, u);
    OthersRun(cfg, u, after[|before|..], v, i);
  }

  // ---- What runs keep ----------------------------------------------------------

  // Transaction `tx` was won by `decider`'s click.
  predicate WonBy(u: World, tx: TxId, decider: string, approve: bool) {
    && tx in u.rows && u.rows[tx].decidedBy == Some(decider)
    && !u.rows[tx].state.Pending? && (u.rows[tx].state.Denied? <==> !approve)
  }

  lemma WonForGood(cfg: Config, u: World, v: World, tx: TxId, decider: string, approve: bool)
    requires Reachable(cfg, u) && Leads(cfg, u, v) && WonBy(u, tx, decider, approve)
    ensures WonBy(v, tx, decider, approve) && v.rows[tx].decidedAt == u.rows[tx].decidedAt
  {
    var es :| Runs(cfg, u, es, v);
    FirstClickWins(cfg, u, es, v, tx);
    LeadsExtends(cfg, u, v);
    assert RowEvolves(u.rows[tx], v.rows[tx]);
  }

  // What every world guarantees to the operations.
  lemma Ready(cfg: Config, start: World, trace: seq<Event>, u: World, i: nat)
    requires Traced(cfg, start, trace, u) && i < |u.sessions|
    ensures |u.installs| > 0
    ensures u.sessions[i].Waiting? ==>
              && u.sessions[i].request < |u.requests|
              && u.requests[u.sessions[i].request].origin == Approval(u.sessions[i].t.tx)
  {
    TracedInv(cfg, start, trace, u);
    assert SessionOk(cfg, u, i);
  }

  // Where Check stands after its audit write, which returned `tx`.
  function Audited(id: Identity, call: Call, verdict: Decision, tx: Option<TxId>): Session {
    AfterRecord(id, call, verdict, if tx.Some? then Done else Refused, if tx.Some? then tx.value else 0)
  }

  lemma AuditedAfter(id: Identity, call: Call, verdict: Decision, o: Outcome, drawn: TxId)
    ensures AfterRecord(id, call, verdict, o, drawn) == Audited(id, call, verdict, if o.Done? then Some(drawn) else None)
  {
  }

  lemma GraphNow(cfg: Config, u: World, e: Event, o: Outcome)
    requires Enabled(cfg, u, e)
    ensures GraphAt(cfg, Next(cfg, u, e), u.Now(), o.Done?) == GraphSeen(cfg, u, o)
  {
    NextTicks(cfg, u, e);
  }
}
