// Complete runs, from the initial world, in which something the documentation
// rules out does happen. Each needs no more than a call the first policies permit.
module Scenarios {
  import opened Wrappers
  import opened Json
  import opened Identity
  import opened Policy
  import opened Store
  import opened Audit
  import opened ToyServer
  import opened Protocol
  import opened Invariant
  import opened Preservation
  import opened Guarantees
  import opened Freshness
  import opened Voiding
  import opened Accounts
  import opened Conclusions
  import opened Walks

  // ---- A revoked permission that does not void the approval -----------------

  // The file has denied the call at every instant since the click, and the tool was called all the same.
  predicate SentThoughDenied(cfg: Config, v: World, tx: TxId) {
    && Sent(v, tx) && tx in v.rows && v.rows[tx].decidedAt.Some?
    && DeniedSince(cfg, v, v.rows[tx].call, v.rows[tx].decidedAt.value)
  }

  // Whatever the first policies and the later edit, if the edit denies a call they permit: the call
  // is parked twice, one approval reads the old file, the file is edited, and the other approval,
  // clicked after the edit, is re-checked with the old policies and sent.
  lemma GoneTextIsUsed(cfg: Config, w0: World, id: Identity, call: Call, text: string) returns (v: World, tx: TxId)
    requires Initial(cfg, w0) && call.rpc == TOOLS_CALL && Parkable(cfg, call.tool, call.args)
    requires MayCall(w0.Current().policies, id.onBehalfOf, id.roles, call.tool)
    requires cfg.reader.parse(text).Some? && Denies(cfg, text, Capture(id, call))
    ensures Reachable(cfg, v) && SentThoughDenied(cfg, v, tx)
  {
    var b, txA, txB := ParksTwo(cfg, w0, id, call);
    var c := Approves(cfg, b, txB);
    var j := |b.sessions|;
    var d := Reads(cfg, c, j);
    assert Winnable(d.rows, txA) && d.rows[txA].call == Capture(id, call);
    v := EditThenStale(cfg, d, j, txA, text);
    tx := txA;
  }

  lemma EditThenStale(cfg: Config, d: World, j: nat, tx: TxId, text: string) returns (v: World)
    requires Reachable(cfg, d) && |d.installs| > 0 && j < |d.sessions| && d.sessions[j].Swapping? && Winnable(d.rows, tx)
    requires !Denies(cfg, d.sessions[j].text, d.rows[tx].call)
    requires cfg.reader.parse(text).Some? && Denies(cfg, text, d.rows[tx].call)
    ensures Reachable(cfg, v) && SentThoughDenied(cfg, v, tx)
  {
    var e := Next(cfg, d, Edit(text));
    StepLeads(cfg, d, Edit(text));
    assert e.disk == text && e.rows == d.rows && e.sessions == d.sessions && e.installs == d.installs;
    var f := Approves(cfg, e, tx);
    var i := |e.sessions|;
    assert f.sessions[j] == d.sessions[j];
    assert StaleText(cfg, f, f.sessions[i].c);
    v := StaleTextIsUsed(cfg, f, i);
    ReachableLeads(cfg, f, v);
    StaleSend(cfg, e, f, v, tx);
  }

  lemma StaleSend(cfg: Config, e: World, f: World, v: World, tx: TxId)
    requires Reachable(cfg, f) && ApprovedOne(e, f, tx) && Winnable(e.rows, tx) && Leads(cfg, f, v) && SameDisk(f, v) && Sent(v, tx)
    requires Denies(cfg, e.disk, e.rows[tx].call)
    ensures SentThoughDenied(cfg, v, tx)
  {
    var es :| Runs(cfg, f, es, v);
    FirstClickWins(cfg, f, es, v, tx);
    forall t | v.rows[tx].decidedAt.value <= t <= v.Now() ensures Denies(cfg, v.MomentAt(t).disk, e.rows[tx].call) {
      assert v.MomentAt(t).disk == e.disk;
    }
  }

  // ---- A version stamp that is not the deciding policy's ---------------------

  // The executor's row about `tx` records a deny and carries another version than the attempt's
  // row, yet the re-check ran with the very policies that had parked the call.
  predicate Mislabelled(cfg: Config, v: World, tx: TxId, before: string, after: string) {
    && Stamped(v, tx, VersionOf(cfg.reader, before))
    && exists k :: 0 <= k < |v.log| && About(v.log[k], tx) && v.log[k].entry.ruling == Ruled(Deny)
                   && v.log[k].entry.version == VersionOf(cfg.reader, after)
                   && v.log[k].source.judgment.Some? && v.log[k].source.judgment.value.inst < |v.installs|
                   && v.installs[v.log[k].source.judgment.value.inst].text == before
  }

  // The call is parked twice. One approval takes its snapshot; the file is edited and the other
  // approval reads it; the owner is revoked and the first re-check denies; the second swap comes
  // before the first approval reads the version for its audit row.
  lemma LateStamp(cfg: Config, w0: World, id: Identity, call: Call, text: string) returns (v: World, tx: TxId)
    requires Initial(cfg, w0) && cfg.ownership && call.rpc == TOOLS_CALL && Parkable(cfg, call.tool, call.args)
    requires MayCall(w0.Current().policies, id.onBehalfOf, id.roles, call.tool)
    requires cfg.reader.parse(text).Some?
    ensures Reachable(cfg, v) && Mislabelled(cfg, v, tx, w0.disk, text)
  {
    var b, txA, txB := ParksTwo(cfg, w0, id, call);
    tx := txB;
    var i := |b.sessions|;
    var c := Snapshots(cfg, b, tx);
    assert c.rows[txA] == b.rows[txA];
    var d := OtherReads(cfg, c, txA, text);
    assert d.sessions[i] == c.sessions[i] && d.sessions[i + 1].Swapping?;
    var e := RevokesOwner(cfg, d, Owner(id, call));
    v := DeniesLate(cfg, e, i, i + 1);
    assert v.log[..|b.log|] == b.log;
  }

  // The file is edited, and another approval reads it.
  lemma OtherReads(cfg: Config, u: World, tx: TxId, text: string) returns (v: World)
    requires Reachable(cfg, u) && |u.installs| > 0 && Winnable(u.rows, tx) && cfg.reader.parse(text).Some?
    ensures Reachable(cfg, v) && v.edges == u.edges && v.installs == u.installs && v.log == u.log
    ensures |v.sessions| == |u.sessions| + 1 && v.sessions[..|u.sessions|] == u.sessions
    ensures v.sessions[|u.sessions|].Swapping? && v.sessions[|u.sessions|].text == text
  {
    var edited := EditsFile(cfg, u, text);
    var clicked := Approves(cfg, edited, tx);
    v := Reads(cfg, clicked, |u.sessions|);
  }

  // The re-check of `i` denies; `j` swaps; `i` reads the version and files its row.
  lemma DeniesLate(cfg: Config, u: World, i: nat, j: nat) returns (v: World)
    requires Reachable(cfg, u) && i < j < |u.sessions| && u.sessions[i].Rejudging? && u.sessions[i].inst < |u.installs|
    requires Verdict(cfg, u, i).Deny? && u.sessions[j].Swapping? && cfg.reader.parse(u.sessions[j].text).Some?
    ensures Reachable(cfg, v) && |v.log| == |u.log| + 1 && v.log[..|u.log|] == u.log && u.installs <= v.installs
    ensures
      var s, row := u.sessions[i], v.log[|u.log|];
      && About(row, s.t.tx) && row.entry.ruling == Ruled(Deny)
      && row.entry.version == VersionOf(cfg.reader, u.sessions[j].text)
      && row.source.judgment.Some? && row.source.judgment.value.inst == s.inst
  {
    var denied := Fails(cfg, u, i);
    HolderHasRow(cfg, denied, i);
    var stored := Stores(cfg, denied, i);
    var swapped := Swaps(cfg, stored, j);
    var noted := Notes(cfg, swapped, i);
    v := Files(cfg, noted, i);
  }

  // ---- A failed row whose call was executed, and a record deleted twice ------

  // The file and the graph let the call pass the re-check.
  predicate Permitted(cfg: Config, u: World, c: Captured) {
    && cfg.reader.parse(u.disk).Some? && !Refuses(cfg.reader.parse(u.disk).value, c) && Parkable(cfg, c.tool, c.args)
    && (cfg.ownership ==> Edge(c.onBehalfOf, StrAt(c.args, "id")) in u.edges)
  }

  // `tx` was approved, and its call has been sent.
  predicate CalledOne(u: World, v: World, tx: TxId) {
    && v.disk == u.disk && v.edges == u.edges && v.records == u.records && tx in u.rows
    && |v.sessions| == |u.sessions| + 1 && v.sessions[..|u.sessions|] == u.sessions
    && var s := v.sessions[|u.sessions|];
    && s.Waiting? && s.t.tx == tx && s.c == u.rows[tx].call && s.request == |u.requests|
    && |v.requests| == |u.requests| + 1 && v.requests[..|u.requests|] == u.requests
    && var q := v.requests[|u.requests|];
    && q.tool == s.c.tool && q.args == s.c.args && q.origin == Approval(tx) && q.found.None? && q.delivery.None?
    && v.rows == Decided(u.rows, tx, Approved, "", |u.past| + 1)
  }

  lemma Calls(cfg: Config, u: World, tx: TxId) returns (v: World)
    requires Reachable(cfg, u) && |u.installs| > 0 && Winnable(u.rows, tx) && Permitted(cfg, u, u.rows[tx].call)
    ensures Reachable(cfg, v) && CalledOne(u, v, tx) && |v.installs| > 0
  {
    var i := |u.sessions|;
    var snapped := Snapshots(cfg, u, tx);
    var passed := Passes(cfg, snapped, i);
    var open := Connects(cfg, passed, i);
    v := Sends(cfg, open, i);
  }

  // Lookup and deletion by the backend.

  lemma Finding(cfg: Config, u: World, k: nat) returns (v: World)
    requires Reachable(cfg, u) && k < |u.requests| && u.requests[k].found.None? && u.requests[k].delivery.None?
    requires u.requests[k].tool == DELETE_RECORD && IdArg(u.requests[k].args).Some? && IdArg(u.requests[k].args).value in u.records
    ensures Reachable(cfg, v) && v == u.(requests := v.requests, past := v.past) && |v.requests| == |u.requests|
    ensures v.requests == u.requests[k := v.requests[k]] && v.requests[k] == u.requests[k].(found := Some(u.Now()))
  {
    DeletionTakesTwoSteps(u.records, u.requests[k].args);
    v := Next(cfg, u, Handle(k));
    StepLeads(cfg, u, Handle(k));
  }

  lemma Deleting(cfg: Config, u: World, k: nat) returns (v: World)
    requires Reachable(cfg, u) && k < |u.requests| && u.requests[k].found.Some? && u.requests[k].delivery.None?
    ensures Reachable(cfg, v) && v == u.(records := v.records, requests := v.requests, past := v.past)
    ensures v.records == u.records - {StrAt(u.requests[k].args, "id")} && |v.requests| == |u.requests|
    ensures v.past == u.past + [Moment(u.disk, u.edges)]
    ensures v.requests == u.requests[k := v.requests[k]]
    ensures
      var reply := Confirmation(StrAt(u.requests[k].args, "id"));
      v.requests[k] == u.requests[k].(delivery := Some(Delivery(u.Now(), reply)))
  {
    v := Next(cfg, u, Erase(k));
    StepLeads(cfg, u, Erase(k));
  }

  // CallTool gives up: before the request leaves, or while waiting for the answer.
  lemma CallFails(cfg: Config, u: World, i: nat) returns (v: World)
    requires Reachable(cfg, u) && |u.installs| > 0 && i < |u.sessions| && (u.sessions[i].Calling? || u.sessions[i].Waiting?)
    ensures Reachable(cfg, v) && Same(u, v) && GoesOn(u, v, i)
    ensures v.sessions[i].Closing? && v.sessions[i].final.Failed? && v.sessions[i].result == CALL_FAILED
  {
    var e := Run(i, Refused, Undrawn(u.log));
    v := Next(cfg, u, e);
    StepLeads(cfg, u, e);
  }

  lemma Hears(cfg: Config, u: World, i: nat) returns (v: World)
    requires Reachable(cfg, u) && |u.installs| > 0 && i < |u.sessions| && u.sessions[i].Waiting?
    requires u.sessions[i].request < |u.requests| && u.requests[u.sessions[i].request].delivery.Some?
    requires u.requests[u.sessions[i].request].delivery.value.reply.ToolOk?
    ensures Reachable(cfg, v) && Same(u, v) && GoesOn(u, v, i)
    ensures v.sessions[i].Closing? && v.sessions[i].final.Executed?
  {
    var e := Run(i, Done, Undrawn(u.log));
    v := Next(cfg, u, e);
    StepLeads(cfg, u, e);
  }

  // A row that holds a failed call.
  predicate CallFailed(v: World, tx: TxId) {
    tx in v.rows && v.rows[tx].state.Failed? && v.rows[tx].result == Some(CALL_FAILED)
  }

  // State `failed` does not mean that the tool was not called: the answer came too late.
  lemma FailedThoughExecuted(cfg: Config, w0: World, id: Identity, call: Call) returns (v: World, tx: TxId)
    requires Initial(cfg, w0) && call.rpc == TOOLS_CALL && Parkable(cfg, call.tool, call.args)
    requires MayCall(w0.Current().policies, id.onBehalfOf, id.roles, call.tool)
    requires call.tool == DELETE_RECORD && IdArg(call.args).Some? && IdArg(call.args).value in cfg.seed
    ensures Reachable(cfg, v) && CallFailed(v, tx) && IdArg(call.args).value !in v.records
    ensures exists result :: Succeeded(v, tx, result)
  {
    var u := Granted(cfg, w0, id, call);
    var a, parked := ParksOne(cfg, u, id, call);
    tx := parked;
    var b := Calls(cfg, a, tx);
    var k := b.sessions[|a.sessions|].request;
    var failed := FailsAnyway(cfg, b, |a.sessions|);
    var found := Finding(cfg, failed, k);
    v := Deleting(cfg, found, k);
    assert Succeeds(v.requests[k], b.sessions[|a.sessions|].t.tx, v.requests[k].delivery.value.reply.text);
    assert Succeeded(v, b.sessions[|a.sessions|].t.tx, v.requests[k].delivery.value.reply.text);
  }

  // Nor does it mean, with the same result, that it was: the call failed before the request left.
  lemma FailedUnsent(cfg: Config, w0: World, id: Identity, call: Call) returns (v: World, tx: TxId)
    requires Initial(cfg, w0) && call.rpc == TOOLS_CALL && Parkable(cfg, call.tool, call.args)
    requires MayCall(w0.Current().policies, id.onBehalfOf, id.roles, call.tool)
    ensures Reachable(cfg, v) && CallFailed(v, tx) && !CanReach(cfg, v, tx)
  {
    var u := Granted(cfg, w0, id, call);
    var a, parked := ParksOne(cfg, u, id, call);
    tx := parked;
    var i := |a.sessions|;
    var snapped := Snapshots(cfg, a, tx);
    var passed := Passes(cfg, snapped, i);
    var open := Connects(cfg, passed, i);
    CallerHasRow(cfg, open, i);
    v := FailsAnyway(cfg, open, i);
    FailedRowReached(cfg, v, tx);
  }

  lemma FailsAnyway(cfg: Config, u: World, i: nat) returns (v: World)
    requires Reachable(cfg, u) && |u.installs| > 0 && i < |u.sessions| && (u.sessions[i].Calling? || u.sessions[i].Waiting?)
    ensures Reachable(cfg, v) && Same(u, v) && CallFailed(v, u.sessions[i].t.tx)
  {
    var late := CallFails(cfg, u, i);
    HolderHasRow(cfg, late, i);
    v := Stores(cfg, late, i);
  }

  // ---- A record deleted when its user no longer owns it ------------------------

  // Ownership is checked before the call goes out, and not when the tool runs: an edge revoked in
  // between does not stop the deletion.
  lemma DeletesUnowned(cfg: Config, w0: World, id: Identity, call: Call) returns (v: World, tx: TxId)
    requires Initial(cfg, w0) && call.rpc == TOOLS_CALL && Parkable(cfg, call.tool, call.args)
    requires MayCall(w0.Current().policies, id.onBehalfOf, id.roles, call.tool)
    requires call.tool == DELETE_RECORD && IdArg(call.args).Some? && IdArg(call.args).value in cfg.seed
    ensures Reachable(cfg, v) && DeletedUnowned(v, IdArg(call.args).value, tx)
  {
    var u := Granted(cfg, w0, id, call);
    var a, parked := ParksOne(cfg, u, id, call);
    tx := parked;
    var snapped := Snapshots(cfg, a, tx);
    var passed := Passes(cfg, snapped, |a.sessions|);
    var open := Connects(cfg, passed, |a.sessions|);
    v := RevokesThenDeletes(cfg, open, |a.sessions|);
  }

  // The request for `tx` deleted the record at an instant at which the parked user did not own it.
  predicate DeletedUnowned(v: World, id: string, tx: TxId) {
    && tx in v.rows
    && exists k :: 0 <= k < |v.requests| && Erases(v.requests[k], id) && v.requests[k].origin == Approval(tx)
                   && v.requests[k].delivery.value.at <= v.Now()
                   && !OwnedAt(v, v.rows[tx].call, v.requests[k].delivery.value.at)
  }

  lemma RevokesThenDeletes(cfg: Config, u: World, i: nat) returns (v: World)
    requires Reachable(cfg, u) && |u.installs| > 0 && i < |u.sessions| && u.sessions[i].Calling?
    requires u.sessions[i].c.tool == DELETE_RECORD
    requires IdArg(u.sessions[i].c.args).Some? && IdArg(u.sessions[i].c.args).value in u.records
    ensures Reachable(cfg, v) && DeletedUnowned(v, IdArg(u.sessions[i].c.args).value, u.sessions[i].t.tx)
  {
    var c, tx, k := u.sessions[i].c, u.sessions[i].t.tx, |u.requests|;
    CallerHasRow(cfg, u, i);
    var edge := Edge(c.onBehalfOf, StrAt(c.args, "id"));
    var revoked := RevokesOwner(cfg, u, edge);
    var sent := Sends(cfg, revoked, i);
    var found := Finding(cfg, sent, k);
    v := Deleting(cfg, found, k);
    assert v.MomentAt(found.Now()) == Moment(found.disk, found.edges) && edge !in found.edges;
    assert Erases(v.requests[k], IdArg(c.args).value);
  }

  lemma CallerHasRow(cfg: Config, u: World, i: nat)
    requires Reachable(cfg, u) && i < |u.sessions| && u.sessions[i].Calling?
    ensures u.sessions[i].t.tx in u.rows && u.rows[u.sessions[i].t.tx].call == u.sessions[i].c && NoRequest(u, u.sessions[i].t.tx)
  {
    ReachableInv(cfg, u);
    assert SessionOk(cfg, u, i);
  }

  // Two rows are executed, and each request was told that it deleted the record.
  predicate DeletedTwice(v: World, id: string, txA: TxId, txB: TxId) {
    && txA != txB && txA in v.rows && txB in v.rows && v.rows[txA].state.Executed? && v.rows[txB].state.Executed?
    && exists k, l :: 0 <= k < |v.requests| && 0 <= l < |v.requests| && Erases(v.requests[k], id) && Erases(v.requests[l], id)
                      && v.requests[k].origin == Approval(txA) && v.requests[l].origin == Approval(txB)
  }

  // Both handlers look the record up before either deletes it.
  lemma DeletesTwice(cfg: Config, w0: World, id: Identity, call: Call) returns (v: World, txA: TxId, txB: TxId)
    requires Initial(cfg, w0) && call.rpc == TOOLS_CALL && Parkable(cfg, call.tool, call.args)
    requires MayCall(w0.Current().policies, id.onBehalfOf, id.roles, call.tool)
    requires call.tool == DELETE_RECORD && IdArg(call.args).Some? && IdArg(call.args).value in cfg.seed
    ensures Reachable(cfg, v) && DeletedTwice(v, IdArg(call.args).value, txA, txB)
  {
    var b, tA, tB := ParksTwo(cfg, w0, id, call);
    txA, txB := tA, tB;
    var i := |b.sessions|;
    var d := BothCalled(cfg, b, txA, txB);
    var e := BothDelete(cfg, d, 0, 1);
    var one := HearsAndStores(cfg, e, i);
    v := HearsAndStores(cfg, one, i + 1);
    assert Erases(v.requests[0], IdArg(b.rows[txA].call.args).value) && Erases(v.requests[1], IdArg(b.rows[txA].call.args).value);
  }

  predicate AwaitsAnswer(v: World, i: nat, k: nat, tx: TxId, c: Captured) {
    && i < |v.sessions| && k < |v.requests|
    && v.sessions[i].Waiting? && v.sessions[i].t.tx == tx && v.sessions[i].request == k
    && var q := v.requests[k];
    && q.tool == c.tool && q.args == c.args && q.origin == Approval(tx) && q.found.None? && q.delivery.None?
  }

  lemma BothCalled(cfg: Config, u: World, txA: TxId, txB: TxId) returns (v: World)
    requires Reachable(cfg, u) && |u.installs| > 0 && u.requests == []
    requires txA != txB && Winnable(u.rows, txA) && Winnable(u.rows, txB) && u.rows[txA].call == u.rows[txB].call
    requires Permitted(cfg, u, u.rows[txA].call)
    ensures Reachable(cfg, v) && v.records == u.records && |v.installs| > 0
    ensures AwaitsAnswer(v, |u.sessions|, 0, txA, u.rows[txA].call) && AwaitsAnswer(v, |u.sessions| + 1, 1, txB, u.rows[txA].call)
  {
    var c := Calls(cfg, u, txA);
    assert c.rows[txB] == u.rows[txB];
    v := Calls(cfg, c, txB);
    assert v.sessions[|u.sessions|] == c.sessions[|u.sessions|] && v.requests[0] == c.requests[0];
  }

  lemma BothDelete(cfg: Config, u: World, k: nat, l: nat) returns (v: World)
    requires Reachable(cfg, u) && k < l < |u.requests| && u.requests[k].args == u.requests[l].args
    requires forall m :: m == k || m == l ==>
               u.requests[m].tool == DELETE_RECORD && u.requests[m].found.None? && u.requests[m].delivery.None?
    requires IdArg(u.requests[k].args).Some? && IdArg(u.requests[k].args).value in u.records
    ensures Reachable(cfg, v) && v == u.(records := v.records, requests := v.requests, past := v.past)
    ensures |v.requests| == |u.requests|
    ensures forall m :: m == k || m == l ==>
              && v.requests[m].origin == u.requests[m].origin && Erases(v.requests[m], IdArg(u.requests[k].args).value)
  {
    var a := Finding(cfg, u, k);
    var b := Finding(cfg, a, l);
    var c := Deleting(cfg, b, k);
    v := Deleting(cfg, c, l);
  }

  lemma HearsAndStores(cfg: Config, u: World, i: nat) returns (v: World)
    requires Reachable(cfg, u) && |u.installs| > 0 && i < |u.sessions| && u.sessions[i].Waiting?
    requires u.sessions[i].request < |u.requests| && u.requests[u.sessions[i].request].delivery.Some?
    requires u.requests[u.sessions[i].request].delivery.value.reply.ToolOk?
    ensures Reachable(cfg, v) && Same(u, v) && |v.sessions| == |u.sessions| && v.sessions == u.sessions[i := v.sessions[i]]
    ensures
      var tx := u.sessions[i].t.tx;
      && tx in v.rows && v.rows[tx].state.Executed?
      && forall other :: other != tx && other in u.rows ==> other in v.rows && v.rows[other] == u.rows[other]
  {
    var heard := Hears(cfg, u, i);
    HolderHasRow(cfg, heard, i);
    v := Stores(cfg, heard, i);
  }

  // ---- A tool error -------------------------------------------------------------

  // A row that holds the backend's error.
  predicate ToolRefused(v: World, tx: TxId) {
    tx in v.rows && v.rows[tx].state.Failed? && v.rows[tx].result == Some("tool returned error")
  }

  // The call is parked and approved twice, one approval after the other: the first deletes the
  // record, and the second is told that there is none.
  lemma SecondDeletionFails(cfg: Config, w0: World, id: Identity, call: Call) returns (v: World, txA: TxId, txB: TxId)
    requires Initial(cfg, w0) && call.rpc == TOOLS_CALL && Parkable(cfg, call.tool, call.args)
    requires MayCall(w0.Current().policies, id.onBehalfOf, id.roles, call.tool)
    requires call.tool == "delete_record" && IdArg(call.args).Some? && IdArg(call.args).value in cfg.seed
    ensures Reachable(cfg, v) && ToolRefused(v, txB)
    ensures exists result :: Succeeded(v, txA, result)
  {
    var b, tA, tB := ParksTwo(cfg, w0, id, call);
    txA, txB := tA, tB;
    var c := Calls(cfg, b, txA);
    var d := Finding(cfg, c, 0);
    var e := Deleting(cfg, d, 0);
    assert e.rows == c.rows && c.rows[txB] == b.rows[txB];
    v := FailsAtOnce(cfg, e, txB);
    assert Succeeds(v.requests[0], txA, e.requests[0].delivery.value.reply.text);
    assert Succeeded(v, txA, e.requests[0].delivery.value.reply.text);
  }

  // An approved deletion of a record that is gone.
  lemma FailsAtOnce(cfg: Config, u: World, tx: TxId) returns (v: World)
    requires Reachable(cfg, u) && |u.installs| > 0 && Winnable(u.rows, tx) && Permitted(cfg, u, u.rows[tx].call)
    requires u.rows[tx].call.tool == DELETE_RECORD
    requires IdArg(u.rows[tx].call.args).Some? && IdArg(u.rows[tx].call.args).value !in u.records
    ensures Reachable(cfg, v) && ToolRefused(v, tx)
    ensures |v.requests| > |u.requests| && v.requests[..|u.requests|] == u.requests
  {
    var i, k := |u.sessions|, |u.requests|;
    var called := Calls(cfg, u, tx);
    var handled := AnsweredNoRecord(cfg, called, k);
    var heard := HearsError(cfg, handled, i);
    HolderHasRow(cfg, heard, i);
    v := Stores(cfg, heard, i);
  }

  lemma AnsweredNoRecord(cfg: Config, u: World, k: nat) returns (v: World)
    requires Reachable(cfg, u) && k < |u.requests| && u.requests[k].found.None? && u.requests[k].delivery.None?
    requires u.requests[k].tool == DELETE_RECORD
    requires IdArg(u.requests[k].args).Some? && IdArg(u.requests[k].args).value !in u.records
    ensures Reachable(cfg, v) && v == u.(requests := v.requests, past := v.past) && |v.requests| == |u.requests|
    ensures v.requests == u.requests[k := v.requests[k]]
    ensures v.requests[k].delivery.Some? && v.requests[k].delivery.value.reply.ToolError?
  {
    DeletionTakesTwoSteps(u.records, u.requests[k].args);
    v := Next(cfg, u, Handle(k));
    StepLeads(cfg, u, Handle(k));
  }

  lemma HearsError(cfg: Config, u: World, i: nat) returns (v: World)
    requires Reachable(cfg, u) && |u.installs| > 0 && i < |u.sessions| && u.sessions[i].Waiting?
    requires u.sessions[i].request < |u.requests| && u.requests[u.sessions[i].request].delivery.Some?
    requires u.requests[u.sessions[i].request].delivery.value.reply.ToolError?
    ensures Reachable(cfg, v) && Same(u, v) && GoesOn(u, v, i)
    ensures v.sessions[i].Closing? && v.sessions[i].final.Failed? && v.sessions[i].result == "tool returned error"
  {
    var e := Run(i, Done, Undrawn(u.log));
    v := Next(cfg, u, e);
    StepLeads(cfg, u, e);
  }

  // ---- A call let through without an audit row --------------------------------

  // Session `i` was told allow, and no run ever gives it an audit row.
  ghost predicate AllowedUnaudited(cfg: Config, v: World, i: nat, call: Call) {
    && i < |v.sessions| && v.sessions[i] == Answered(true, call, Allowed)
    && forall es, u :: Runs(cfg, v, es, u) ==> !HasEntry(u, i)
  }

  lemma NeverLogged(cfg: Config, v: World, i: nat, call: Call)
    requires i < |v.sessions| && v.sessions[i] == Answered(true, call, Allowed) && NoEntry(v, i)
    ensures AllowedUnaudited(cfg, v, i, call)
  {
    forall es, u | Runs(cfg, v, es, u) ensures !HasEntry(u, i) { LoggedForGood(cfg, v, es, u, i); }
  }

  // The version read, and a refused audit write.
  lemma WriteRefused(cfg: Config, u: World, i: nat) returns (v: World)
    requires Reachable(cfg, u) && |u.installs| > 0 && i < |u.sessions| && u.sessions[i].Recording? && u.sessions[i].verdict.Allow?
    ensures Reachable(cfg, v) && Same(u, v) && Alone(u, v, i) && NoEntry(v, i)
    ensures
      var call := u.sessions[i].call;
      v.sessions[i] == if call.rpc == TOOLS_CALL then Forwarding(call) else Answered(true, call, Allowed)
  {
    ReachableInv(cfg, u);
    assert SessionOk(cfg, u, i);
    var e := Run(i, Refused, Undrawn(u.log));
    v := Next(cfg, u, e);
    StepLeads(cfg, u, e);
  }

  // A protocol message, from any world.
  lemma MessageUnaudited(cfg: Config, u: World, id: Identity, call: Call) returns (v: World)
    requires Reachable(cfg, u) && |u.installs| > 0 && call.rpc != TOOLS_CALL
    ensures Reachable(cfg, v) && AllowedUnaudited(cfg, v, |u.sessions|, call)
  {
    var i := |u.sessions|;
    var arrived := MessageArrives(cfg, u, id, call);
    var stamped := Stamps(cfg, arrived, i);
    v := WriteRefused(cfg, stamped, i);
    NeverLogged(cfg, v, i, call);
  }

  lemma MessageArrives(cfg: Config, u: World, id: Identity, call: Call) returns (v: World)
    requires Reachable(cfg, u) && |u.installs| > 0 && call.rpc != TOOLS_CALL
    ensures Reachable(cfg, v) && |v.installs| > 0 && |v.sessions| == |u.sessions| + 1
    ensures v.sessions[|u.sessions|] == Stamping(id, call, Allow, None)
  {
    var begin, admit := Begin(Arrived(Some(id), call)), Run(|u.sessions|, Done, Undrawn(u.log));
    var arrived := Next(cfg, u, begin);
    v := Next(cfg, arrived, admit);
    StepLeads(cfg, u, begin);
    StepLeads(cfg, arrived, admit);
  }

  // A tools/call that the policies permit: it even reaches the backend.
  lemma ForwardedUnaudited(cfg: Config, u: World, id: Identity, call: Call) returns (v: World)
    requires Reachable(cfg, u) && |u.installs| > 0 && call.rpc == TOOLS_CALL && !Destructive(call.tool)
    requires MayCall(u.Current().policies, id.onBehalfOf, id.roles, call.tool)
    ensures Reachable(cfg, v) && AllowedUnaudited(cfg, v, |u.sessions|, call)
    ensures exists k :: 0 <= k < |v.requests| && v.requests[k].origin == Gateway(|u.sessions|) && v.requests[k].tool == call.tool
  {
    var i := |u.sessions|;
    var arrived := Arrives(cfg, u, id, call);
    var decided := Decides(cfg, arrived, i, Allow);
    var stamped := Stamps(cfg, decided, i);
    var forwarding := WriteRefused(cfg, stamped, i);
    v := Forwards(cfg, forwarding, i);
    NeverLogged(cfg, v, i, call);
  }

  lemma Forwards(cfg: Config, u: World, i: nat) returns (v: World)
    requires Reachable(cfg, u) && |u.installs| > 0 && i < |u.sessions| && u.sessions[i].Forwarding?
    ensures Reachable(cfg, v) && v.log == u.log
    ensures |v.sessions| == |u.sessions| && v.sessions[i] == Answered(true, u.sessions[i].call, Allowed)
    ensures |v.requests| == |u.requests| + 1 && v.requests[|u.requests|].origin == Gateway(i)
    ensures v.requests[|u.requests|].tool == u.sessions[i].call.tool
  {
    var e := Run(i, Done, Undrawn(u.log));
    v := Next(cfg, u, e);
    StepLeads(cfg, u, e);
  }
}
