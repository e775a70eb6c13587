// Pieces of runs, for putting complete runs together: each takes one session, or one
// call, a few steps further while nothing else happens.
module Walks {
  import opened Wrappers
  import opened Json
  import opened Identity
  import opened Policy
  import opened Store
  import opened Audit
  import opened Protocol
  import opened Invariant
  import opened Preservation
  import opened Guarantees
  import opened Freshness

  // ---- Worlds --------------------------------------------------------------

  // A call that the policies permit and that can be parked.
  predicate Parks(cfg: Config, u: World, id: Identity, call: Call) {
    && |u.installs| > 0 && call.rpc == TOOLS_CALL && Parkable(cfg, call.tool, call.args)
    && MayCall(u.Current().policies, id.onBehalfOf, id.roles, call.tool)
    && (cfg.ownership ==> Owner(id, call) in u.edges)
  }

  function Owner(id: Identity, call: Call): Edge {
    Edge(id.onBehalfOf, StrAt(call.args, "id"))
  }

  // The same file, engine, graph, backend and requests.
  predicate Same(u: World, v: World) {
    && v.disk == u.disk && v.edges == u.edges && v.records == u.records && v.installs == u.installs && v.requests == u.requests
  }

  // Of the sessions, only `i` has moved; the file, the graph, the backend and the audit log are as they were.
  predicate Alone(u: World, v: World, i: nat) {
    && v.disk == u.disk && v.edges == u.edges && v.records == u.records && v.log == u.log
    && |v.sessions| == |u.sessions| && i < |u.sessions| && v.sessions == u.sessions[i := v.sessions[i]]
  }

  lemma Granted(cfg: Config, w0: World, id: Identity, call: Call) returns (u: World)
    requires Initial(cfg, w0) && call.rpc == TOOLS_CALL && Parkable(cfg, call.tool, call.args)
    requires MayCall(w0.Current().policies, id.onBehalfOf, id.roles, call.tool)
    ensures Reachable(cfg, u) && Parks(cfg, u, id, call)
    ensures u.installs == w0.installs && u.disk == w0.disk && u.records == w0.records && u.sessions == [] && u.requests == []
  {
    assert Runs(cfg, w0, [], w0);
    var e := Protocol.Grant(Owner(id, call));
    u := Next(cfg, w0, e);
    StepLeads(cfg, w0, e);
  }

  // ---- Check -----------------------------------------------------------------

  lemma Arrives(cfg: Config, u: World, id: Identity, call: Call) returns (v: World)
    requires Reachable(cfg, u) && |u.installs| > 0 && call.rpc == TOOLS_CALL
    ensures Reachable(cfg, v) && Same(u, v) && v.rows == u.rows && v.log == u.log
    ensures |v.sessions| == |u.sessions| + 1 && v.sessions[..|u.sessions|] == u.sessions
    ensures
      var s := v.sessions[|u.sessions|];
      s.Judging? && s.id == id && s.call == call && s.inst == |u.installs| - 1
  {
    var begin, admit := Begin(Arrived(Some(id), call)), Run(|u.sessions|, Done, Undrawn(u.log));
    var arrived := Next(cfg, u, begin);
    v := Next(cfg, arrived, admit);
    StepLeads(cfg, u, begin);
    StepLeads(cfg, arrived, admit);
  }

  lemma Decides(cfg: Config, u: World, i: nat, verdict: Decision) returns (v: World)
    requires Reachable(cfg, u) && |u.installs| > 0 && i < |u.sessions| && u.sessions[i].Judging?
    requires
      var Judging(id, call, inst, _) := u.sessions[i];
      Judge(PoliciesOf(u, inst), id.onBehalfOf, id.roles, call.tool, call.args, GraphSeen(cfg, u, Done)) == verdict
    ensures Reachable(cfg, v) && Same(u, v) && v.rows == u.rows && Alone(u, v, i) && v.sessions[i].Stamping?
    ensures v.sessions[i].id == u.sessions[i].id && v.sessions[i].call == u.sessions[i].call && v.sessions[i].verdict == verdict
  {
    var e := Run(i, Done, Undrawn(u.log));
    v := Next(cfg, u, e);
    StepLeads(cfg, u, e);
  }

  lemma Stamps(cfg: Config, u: World, i: nat) returns (v: World)
    requires Reachable(cfg, u) && |u.installs| > 0 && i < |u.sessions| && u.sessions[i].Stamping?
    ensures Reachable(cfg, v) && Same(u, v) && v.rows == u.rows && Alone(u, v, i) && v.sessions[i].Recording?
    ensures v.sessions[i].id == u.sessions[i].id && v.sessions[i].call == u.sessions[i].call
    ensures v.sessions[i].verdict == u.sessions[i].verdict && v.sessions[i].version == u.Current().version
  {
    var e := Run(i, Done, Undrawn(u.log));
    v := Next(cfg, u, e);
    StepLeads(cfg, u, e);
  }

  lemma Records(cfg: Config, u: World, i: nat, tx: TxId) returns (v: World)
    requires Reachable(cfg, u) && |u.installs| > 0 && i < |u.sessions| && u.sessions[i].Recording?
    requires u.sessions[i].verdict.NeedsApproval? && Fresh(u.log, tx)
    ensures Reachable(cfg, v) && Same(u, v) && v.rows == u.rows
    ensures |v.log| == |u.log| + 1 && v.log[|u.log|].tx == tx && v.log[|u.log|].entry.version == u.sessions[i].version
    ensures |v.sessions| == |u.sessions| && v.sessions == u.sessions[i := v.sessions[i]]
    ensures v.sessions[i] == Parking(Capture(u.sessions[i].id, u.sessions[i].call), u.sessions[i].call, Some(tx))
  {
    var e := Run(i, Done, tx);
    v := Next(cfg, u, e);
    StepLeads(cfg, u, e);
  }

  lemma Inserts(cfg: Config, u: World, i: nat) returns (v: World)
    requires Reachable(cfg, u) && |u.installs| > 0 && i < |u.sessions| && u.sessions[i].Parking?
    requires u.sessions[i].audited.Some? && u.sessions[i].audited.value !in u.rows
    ensures Reachable(cfg, v) && Same(u, v) && Alone(u, v, i)
    ensures
      var tx := u.sessions[i].audited.value;
      && Winnable(v.rows, tx) && v.rows == u.rows[tx := v.rows[tx]] && v.rows[tx].call == u.sessions[i].kept
  {
    var e := Run(i, Done, Undrawn(u.log));
    v := Next(cfg, u, e);
    StepLeads(cfg, u, e);
  }

  // One more parked call, and nothing else different but its session and its audit row.
  predicate ParkedOne(u: World, v: World, tx: TxId, c: Captured) {
    && Same(u, v) && tx !in u.rows && Winnable(v.rows, tx) && v.rows == u.rows[tx := v.rows[tx]] && v.rows[tx].call == c
    && |u.sessions| < |v.sessions| && v.sessions[..|u.sessions|] == u.sessions
  }

  // The audit row of an attempt, with the version it was stamped with.
  predicate Stamped(v: World, tx: TxId, version: string) {
    exists l :: 0 <= l < |v.log| && v.log[l].tx == tx && v.log[l].entry.version == version
  }

  lemma ParksOne(cfg: Config, u: World, id: Identity, call: Call) returns (v: World, tx: TxId)
    requires Reachable(cfg, u) && Parks(cfg, u, id, call)
    ensures Reachable(cfg, v) && ParkedOne(u, v, tx, Capture(id, call)) && Stamped(v, tx, u.Current().version)
  {
    var i := |u.sessions|;
    var attempted := Attempts(cfg, u, id, call);
    tx := Undrawn(u.log);
    ReachableInv(cfg, u);
    DrawnIsUnused(cfg, u, tx);
    var recorded := Records(cfg, attempted, i, tx);
    v := Inserts(cfg, recorded, i);
    assert v.log[|u.log|].tx == tx;
  }

  lemma Attempts(cfg: Config, u: World, id: Identity, call: Call) returns (v: World)
    requires Reachable(cfg, u) && Parks(cfg, u, id, call)
    ensures Reachable(cfg, v) && Same(u, v) && v.rows == u.rows && v.log == u.log
    ensures |v.sessions| == |u.sessions| + 1 && v.sessions[..|u.sessions|] == u.sessions
    ensures
      var s := v.sessions[|u.sessions|];
      s.Recording? && s.id == id && s.call == call && s.verdict.NeedsApproval? && s.version == u.Current().version
  {
    var i := |u.sessions|;
    var arrived := Arrives(cfg, u, id, call);
    ParksIsJudged(cfg, u, arrived, id, call);
    var decided := Decides(cfg, arrived, i, NeedsApproval);
    v := Stamps(cfg, decided, i);
  }

  lemma ParksIsJudged(cfg: Config, u: World, v: World, id: Identity, call: Call)
    requires Parks(cfg, u, id, call) && Same(u, v)
    ensures Judge(PoliciesOf(v, u.Latest()), id.onBehalfOf, id.roles, call.tool, call.args, GraphSeen(cfg, v, Done)).NeedsApproval?
  {
  }

  // Two transactions wait for a decision on the same call, and nobody is deciding.
  predicate ParkedTwo(w0: World, v: World, txA: TxId, txB: TxId, c: Captured) {
    && v.installs == w0.installs && v.disk == w0.disk && v.records == w0.records && v.requests == []
    && txA != txB && Winnable(v.rows, txA) && Winnable(v.rows, txB) && v.rows[txA].call == c && v.rows[txB].call == c
  }

  lemma ParksTwo(cfg: Config, w0: World, id: Identity, call: Call) returns (v: World, txA: TxId, txB: TxId)
    requires Initial(cfg, w0) && call.rpc == TOOLS_CALL && Parkable(cfg, call.tool, call.args)
    requires MayCall(w0.Current().policies, id.onBehalfOf, id.roles, call.tool)
    ensures Reachable(cfg, v) && ParkedTwo(w0, v, txA, txB, Capture(id, call))
    ensures Stamped(v, txB, w0.Current().version) && (cfg.ownership ==> Owner(id, call) in v.edges)
  {
    var u := Granted(cfg, w0, id, call);
    var a, tx := ParksOne(cfg, u, id, call);
    txA := tx;
    v, txB := ParksOne(cfg, a, id, call);
  }

  // ---- Approve -----------------------------------------------------------------

  // A click on `tx`, up to where its session is about to reload the policy file.
  predicate ApprovedOne(u: World, v: World, tx: TxId) {
    && Same(u, v) && SameDisk(u, v) && v.log == u.log && tx in u.rows
    && |v.sessions| == |u.sessions| + 1 && v.sessions[..|u.sessions|] == u.sessions && v.sessions[|u.sessions|].Reading?
    && v.sessions[|u.sessions|].t.tx == tx && v.sessions[|u.sessions|].c == u.rows[tx].call
    && v.rows == Decided(u.rows, tx, Approved, "", |u.past| + 1)
  }

  lemma Approves(cfg: Config, u: World, tx: TxId) returns (v: World)
    requires Reachable(cfg, u) && |u.installs| > 0 && Winnable(u.rows, tx)
    ensures Reachable(cfg, v) && ApprovedOne(u, v, tx) && |v.past| == |u.past| + 3
  {
    var clicked := ClickWon(cfg, u, tx);
    var fetch := Run(|u.sessions|, Done, Undrawn(u.log));
    v := Next(cfg, clicked, fetch);
    StepLeads(cfg, clicked, fetch);
  }

  lemma ClickWon(cfg: Config, u: World, tx: TxId) returns (v: World)
    requires Reachable(cfg, u) && |u.installs| > 0 && Winnable(u.rows, tx)
    ensures Reachable(cfg, v) && Same(u, v) && SameDisk(u, v) && v.log == u.log
    ensures v.sessions == u.sessions + [Fetching(Ticket(tx, "", true, |u.past| + 1))] && |v.past| == |u.past| + 2
    ensures v.rows == Decided(u.rows, tx, Approved, "", |u.past| + 1)
  {
    var begin := Begin(Clicking(tx, "", true));
    var arrived := Next(cfg, u, begin);
    StepLeads(cfg, u, begin);
    v := ClickTaken(cfg, arrived, |u.sessions|);
  }

  lemma ClickTaken(cfg: Config, u: World, i: nat) returns (v: World)
    requires Reachable(cfg, u) && |u.installs| > 0 && |u.sessions| == i + 1 && u.sessions[i].Clicking?
    requires u.sessions[i].approve && Winnable(u.rows, u.sessions[i].tx)
    ensures Reachable(cfg, v) && Same(u, v) && v.log == u.log && v.past == u.past + [Moment(u.disk, u.edges)]
    ensures
      var Clicking(tx, decider, _) := u.sessions[i];
      && v.sessions == u.sessions[..i] + [Fetching(Ticket(tx, decider, true, |u.past|))]
      && v.rows == Decided(u.rows, tx, Approved, decider, |u.past|)
  {
    var e := Run(i, Done, Undrawn(u.log));
    v := Next(cfg, u, e);
    StepLeads(cfg, u, e);
    assert u.sessions == u.sessions[..i] + [u.sessions[i]];
  }

  // Session `i` goes on with the same ticket and call.
  predicate GoesOn(u: World, v: World, i: nat) {
    && Alone(u, v, i) && v.rows == u.rows && Ticketed(u.sessions[i]) && Ticketed(v.sessions[i])
    && !u.sessions[i].Fetching? && !v.sessions[i].Fetching?
    && v.sessions[i].t == u.sessions[i].t && v.sessions[i].c == u.sessions[i].c
  }

  lemma Reads(cfg: Config, u: World, i: nat) returns (v: World)
    requires Reachable(cfg, u) && |u.installs| > 0 && i < |u.sessions| && u.sessions[i].Reading?
    requires cfg.reader.parse(u.disk).Some?
    ensures Reachable(cfg, v) && Same(u, v) && GoesOn(u, v, i) && v.sessions[i].Swapping? && v.sessions[i].text == u.disk
  {
    var e := Run(i, Done, Undrawn(u.log));
    v := Next(cfg, u, e);
    StepLeads(cfg, u, e);
  }

  lemma Swaps(cfg: Config, u: World, i: nat) returns (v: World)
    requires Reachable(cfg, u) && |u.installs| > 0 && i < |u.sessions| && u.sessions[i].Swapping?
    requires cfg.reader.parse(u.sessions[i].text).Some?
    ensures Reachable(cfg, v) && GoesOn(u, v, i) && v.requests == u.requests && v.sessions[i].Snapping?
    ensures |v.installs| == |u.installs| + 1 && u.installs <= v.installs
    ensures
      var inst, text := v.installs[|u.installs|], u.sessions[i].text;
      && inst.text == text && cfg.reader.parse(text) == Some(inst.policies) && inst.version == VersionOf(cfg.reader, text)
  {
    var e := Run(i, Done, Undrawn(u.log));
    v := Next(cfg, u, e);
    StepLeads(cfg, u, e);
  }

  // What the re-check of session `i` is about to decide.
  function Verdict(cfg: Config, u: World, i: nat): Decision
    requires i < |u.sessions| && u.sessions[i].Rejudging?
  {
    var c := u.sessions[i].c;
    Judge(PoliciesOf(u, u.sessions[i].inst), c.onBehalfOf, c.roles, c.tool, c.args, GraphSeen(cfg, u, Done))
  }

  lemma Passes(cfg: Config, u: World, i: nat) returns (v: World)
    requires Reachable(cfg, u) && |u.installs| > 0 && i < |u.sessions| && u.sessions[i].Rejudging?
    requires !Verdict(cfg, u, i).Deny?
    ensures Reachable(cfg, v) && Same(u, v) && GoesOn(u, v, i) && v.sessions[i].Connecting?
  {
    var e := Run(i, Done, Undrawn(u.log));
    v := Next(cfg, u, e);
    StepLeads(cfg, u, e);
  }

  lemma Connects(cfg: Config, u: World, i: nat) returns (v: World)
    requires Reachable(cfg, u) && |u.installs| > 0 && i < |u.sessions| && u.sessions[i].Connecting?
    ensures Reachable(cfg, v) && Same(u, v) && GoesOn(u, v, i) && v.sessions[i].Calling?
  {
    var e := Run(i, Done, Undrawn(u.log));
    v := Next(cfg, u, e);
    StepLeads(cfg, u, e);
  }

  lemma Sends(cfg: Config, u: World, i: nat) returns (v: World)
    requires Reachable(cfg, u) && |u.installs| > 0 && i < |u.sessions| && u.sessions[i].Calling?
    ensures Reachable(cfg, v) && GoesOn(u, v, i) && v.installs == u.installs
    ensures v.sessions[i].Waiting? && v.sessions[i].request == |u.requests|
    ensures |v.requests| == |u.requests| + 1 && v.requests[..|u.requests|] == u.requests
    ensures
      var q, c := v.requests[|u.requests|], u.sessions[i].c;
      q.tool == c.tool && q.args == c.args && q.origin == Approval(u.sessions[i].t.tx) && q.found.None? && q.delivery.None?
  {
    var e := Run(i, Done, Undrawn(u.log));
    v := Next(cfg, u, e);
    StepLeads(cfg, u, e);
  }

  lemma Fails(cfg: Config, u: World, i: nat) returns (v: World)
    requires Reachable(cfg, u) && |u.installs| > 0 && i < |u.sessions| && u.sessions[i].Rejudging? && Verdict(cfg, u, i).Deny?
    ensures Reachable(cfg, v) && Same(u, v) && GoesOn(u, v, i) && v.sessions[i].Closing?
    ensures v.sessions[i].ruling == Ruled(Deny) && v.sessions[i].judgment.Some?
    ensures v.sessions[i].judgment.value.inst == u.sessions[i].inst
  {
    var e := Run(i, Done, Undrawn(u.log));
    v := Next(cfg, u, e);
    StepLeads(cfg, u, e);
  }

  lemma Stores(cfg: Config, u: World, i: nat) returns (v: World)
    requires Reachable(cfg, u) && |u.installs| > 0 && i < |u.sessions| && u.sessions[i].Closing? && u.sessions[i].t.tx in u.rows
    ensures Reachable(cfg, v) && Same(u, v) && Alone(u, v, i) && v.sessions[i].Noting?
    ensures v.sessions[i].t == u.sessions[i].t && v.sessions[i].c == u.sessions[i].c
    ensures v.sessions[i].ruling == u.sessions[i].ruling && v.sessions[i].judgment == u.sessions[i].judgment
    ensures v.rows == Closed(u.rows, u.sessions[i].t.tx, u.sessions[i].final, u.sessions[i].result)
  {
    var e := Run(i, Done, Undrawn(u.log));
    v := Next(cfg, u, e);
    StepLeads(cfg, u, e);
  }

  lemma Notes(cfg: Config, u: World, i: nat) returns (v: World)
    requires Reachable(cfg, u) && |u.installs| > 0 && i < |u.sessions| && u.sessions[i].Noting?
    ensures Reachable(cfg, v) && Same(u, v) && GoesOn(u, v, i) && v.sessions[i].Filing?
    ensures v.sessions[i].ruling == u.sessions[i].ruling && v.sessions[i].judgment == u.sessions[i].judgment
    ensures v.sessions[i].version == u.Current().version
  {
    var e := Run(i, Done, Undrawn(u.log));
    v := Next(cfg, u, e);
    StepLeads(cfg, u, e);
  }

  lemma Files(cfg: Config, u: World, i: nat) returns (v: World)
    requires Reachable(cfg, u) && |u.installs| > 0 && i < |u.sessions| && u.sessions[i].Filing?
    ensures Reachable(cfg, v) && Same(u, v) && |v.log| == |u.log| + 1 && v.log[..|u.log|] == u.log
    ensures
      var s, row := u.sessions[i], v.log[|u.log|];
      About(row, s.t.tx) && row.entry.ruling == s.ruling && row.entry.version == s.version && row.source.judgment == s.judgment
  {
    var e := Run(i, Done, Undrawn(u.log));
    v := Next(cfg, u, e);
    StepLeads(cfg, u, e);
  }

  // Click, reload and snapshot of one approval.
  lemma Snapshots(cfg: Config, u: World, tx: TxId) returns (v: World)
    requires Reachable(cfg, u) && |u.installs| > 0 && Winnable(u.rows, tx) && cfg.reader.parse(u.disk).Some?
    ensures Reachable(cfg, v) && v.disk == u.disk && v.edges == u.edges && v.records == u.records && v.requests == u.requests
    ensures v.log == u.log && v.rows == Decided(u.rows, tx, Approved, "", |u.past| + 1)
    ensures |v.sessions| == |u.sessions| + 1 && v.sessions[..|u.sessions|] == u.sessions && v.sessions[|u.sessions|].Rejudging?
    ensures v.sessions[|u.sessions|].t.tx == tx && v.sessions[|u.sessions|].c == u.rows[tx].call
    ensures
      var inst := v.sessions[|u.sessions|].inst;
      inst < |v.installs| && v.installs[inst].text == u.disk && cfg.reader.parse(u.disk) == Some(v.installs[inst].policies)
  {
    var i := |u.sessions|;
    var clicked := Approves(cfg, u, tx);
    var read := Reads(cfg, clicked, i);
    var swapped := Swaps(cfg, read, i);
    var e := Run(i, Done, Undrawn(swapped.log));
    v := Next(cfg, swapped, e);
    StepLeads(cfg, swapped, e);
  }

  lemma HolderHasRow(cfg: Config, u: World, i: nat)
    requires Reachable(cfg, u) && i < |u.sessions| && Ticketed(u.sessions[i])
    ensures u.sessions[i].t.tx in u.rows && (Holding(u.sessions[i]) ==> u.rows[u.sessions[i].t.tx].result.None?)
  {
    ReachableInv(cfg, u);
    assert SessionOk(cfg, u, i);
  }

  lemma EditsFile(cfg: Config, u: World, text: string) returns (v: World)
    requires Reachable(cfg, u)
    ensures Reachable(cfg, v) && v == u.(disk := text, past := v.past)
  {
    v := Next(cfg, u, Edit(text));
    StepLeads(cfg, u, Edit(text));
  }

  lemma RevokesOwner(cfg: Config, u: World, edge: Edge) returns (v: World)
    requires Reachable(cfg, u)
    ensures Reachable(cfg, v) && v == u.(edges := u.edges - {edge}, past := v.past)
  {
    v := Next(cfg, u, Protocol.Revoke(edge));
    StepLeads(cfg, u, Protocol.Revoke(edge));
  }
}
