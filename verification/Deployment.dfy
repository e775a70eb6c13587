// The running service: the real objects, and beside them the protocol world they
// are in, with the run that led there. Each method here is one atomic operation on
// the shared objects, proved to be one step of the protocol; `Yield` stands between
// two of them, where the rest of the world may take any number of steps.
module Deployment {
  import opened Wrappers
  import opened Json
  import opened Identity
  import opened Cedar
  import opened Policy
  import opened Relations
  import opened Engine
  import opened Store
  import opened Audit
  import opened Protocol
  import opened Invariant
  import Toy = ToyServer
  import opened Traces

  // callTool's result, or its error.
  datatype ToolResult = Got(text: string) | Broke(why: string)

  lemma AnswerHeard(u: World, k: nat, tx: TxId, r: ToolResult)
    requires k < |u.requests| && u.requests[k].origin == Approval(tx)
    requires r.Got? ==> u.requests[k].delivery.Some? && u.requests[k].delivery.value.reply == Toy.ToolOk(r.text)
    requires r.Broke? && r.why != CALL_FAILED ==> u.requests[k].delivery.Some? && u.requests[k].delivery.value.reply.ToolError?
    ensures r.Got? ==> Succeeded(u, tx, r.text)
    ensures r.Broke? && r.why != CALL_FAILED ==> Replied(u, tx, false)
  {
    assert r.Got? ==> Succeeds(u.requests[k], tx, r.text);
    assert r.Broke? && r.why != CALL_FAILED ==> RepliedTo(u.requests[k], tx, false);
  }

  // Where an approval stands after the call.
  function AfterCall(t: Ticket, c: Captured, j: Judgment, r: ToolResult): Session {
    match r
    case Got(text) => Closing(t, c, Executed, text, ExecutedAfterApproval, Some(j))
    case Broke(why) => Closing(t, c, Failed, why, ExecuteFailed, Some(j))
  }

  class Deployment {
    const cfg: Config
    const store: Table
    const engine: Engine
    const log: Log
    const graph: Client
    const backend: Toy.Server
    var disk: string
    var network: seq<ToolRequest>
    var clock: nat   // ticks once an operation
    var calls: nat   // calls begun so far
    var swaps: nat   // installations so far; provenance of audit rows only
    ghost const start: World
    ghost var trace: seq<Event>
    ghost var w: World

    ghost function Footprint(): set<object> {
      {this, store, engine, log, graph, backend}
    }

    // The engine reads with the deployment's parser and asks its graph, if there is one.
    ghost predicate Wired() {
      engine.reader == cfg.reader && engine.relations == (if cfg.ownership then graph else null)
    }

    // The objects are in the state that `u` describes.
    ghost predicate Mirrors(u: World)
      reads Footprint()
    {
      && store.Valid() && store.rows == u.rows
      && log.rows == u.log && disk == u.disk && calls == |u.sessions|
      && swaps == |u.installs| > 0
      && engine.policies == u.installs[swaps - 1].policies && engine.version == u.installs[swaps - 1].version
      && graph.Valid() && graph.edges == u.edges && backend.records == u.records && network == u.requests
      && Wired()
    }

    // They are in the state of the world that the trace leads to.
    ghost predicate Coupled()
      reads Footprint()
    {
      Traced(cfg, start, trace, w) && Mirrors(w) && clock == w.Now()
    }

    constructor (cfg: Config, text: string)
      requires cfg.reader.parse(text).Some?
      ensures Coupled() && this.cfg == cfg && Initial(cfg, w)
      ensures fresh(Footprint())
    {
      var g := new Client();
      var e := new Engine(cfg.reader, text, if cfg.ownership then g else null);
      this.cfg, graph, engine := cfg, g, e;
      store := new Table();
      log := new Log();
      backend := new Toy.Server(cfg.seed);
      disk, network, clock, calls, swaps := text, [], 0, 0, 1;
      var first := World(map[], [], text, [Install(text, cfg.reader.parse(text).value, VersionOf(cfg.reader, text), 0, 0)], {},
                 cfg.seed, [], [], [], []);
      start, trace, w := first, [], first;
      new;
      assert Initial(cfg, w) && Runs(cfg, w, [], w);
    }

    // The world takes step `e`, which an operation has just carried out on the objects.
    method Advance(ghost e: Event)
      requires Traced(cfg, start, trace, w) && clock == w.Now() && Enabled(cfg, w, e) && Mirrors(Next(cfg, w, e))
      modifies `clock, `w, `trace
      ensures Coupled() && w == Next(cfg, old(w), e) && trace == old(trace) + [e] && clock == old(clock) + 1
    {
      StepTraced(cfg, start, trace, w, e);
      w, trace, clock := Next(cfg, w, e), trace + [e], clock + 1;
    }

    // Anything the other sessions, the policy's editors, the graph's administrators and the
    // backend may do while session `i` stands between two operations. The body does nothing;
    // callers may rely on no more than the contract.
    method Interfere(ghost i: nat)
      requires Coupled() && i < |w.sessions|
      modifies Footprint()
      ensures Coupled() && StepsOfOthers(old(trace), trace, i)
    {
    }

    // The same, and what follows from it: the session stands where it stood, and nobody has
    // touched the transaction it works on.
    method Yield(ghost i: nat)
      requires Coupled() && i < |w.sessions|
      modifies Footprint()
      ensures Coupled() && old(trace) <= trace && Extends(old(w), w)
      ensures i < |w.sessions| && w.sessions[i] == old(w).sessions[i]
      ensures Claim(w.sessions[i]).Some? ==> Undisturbed(old(w), w, Claim(w.sessions[i]).value)
    {
      Interfere(i);
      OthersTraced(cfg, start, old(trace), old(w), trace, w, i);
    }

    // ---- Calls begin -----------------------------------------------------

    // A check request arrives; `i` is its session.
    method Arrive(who: Option<Identity>, call: Call) returns (i: nat)
      requires Coupled()
      modifies `clock, `w, `trace, `calls
      ensures Coupled() && trace == old(trace) + [Begin(Arrived(who, call))]
      ensures i == old(calls) && w.sessions == old(w).sessions + [Arrived(who, call)] && i == |old(w).sessions|
    {
      i, calls := calls, calls + 1;
      Advance(Begin(Arrived(who, call)));
    }

    // A human clicks Approve or Deny.
    method ClickArrives(tx: TxId, decider: string, approve: bool) returns (i: nat)
      requires Coupled()
      modifies `clock, `w, `trace, `calls
      ensures Coupled() && trace == old(trace) + [Begin(Clicking(tx, decider, approve))]
      ensures i == old(calls) && w.sessions == old(w).sessions + [Clicking(tx, decider, approve)] && i == |old(w).sessions|
    {
      i, calls := calls, calls + 1;
      Advance(Begin(Clicking(tx, decider, approve)));
    }

    // ---- Operations of Approve and Deny ----------------------------------

    method Click(ghost i: nat, tx: TxId, decider: string, approve: bool) returns (won: Option<bool>)
      requires Coupled() && i < |w.sessions| && w.sessions[i] == Clicking(tx, decider, approve)
      modifies `clock, `w, `trace, store
      ensures Coupled() && StepOf(old(trace), trace, i)
      ensures w.sessions == old(w).sessions[i :=
                if won == Some(true) then Fetching(Ticket(tx, decider, approve, old(clock))) else Finished(tx)]
      ensures
        var decided := Decided(old(w).rows, tx, if approve then Approved else Denied, decider, old(clock));
        w.rows == decided || (won.None? && w.rows == old(w).rows)
      ensures w.requests == old(w).requests
      ensures won.Some? ==> (won.value <==> Winnable(old(w).rows, tx))
    {
      ghost var o;
      var state := if approve then Approved else Denied;
      won, o := store.Decide(tx, state, decider, clock);
      ghost var e := Run(i, o, Undrawn(w.log));
      Advance(e);
    }

    method Fetch(ghost i: nat, tx: TxId) returns (p: Option<Row>)
      requires Coupled() && i < |w.sessions| && w.sessions[i].Fetching? && w.sessions[i].t.tx == tx
      modifies `clock, `w, `trace
      ensures Coupled() && StepOf(old(trace), trace, i) && w.rows == old(w).rows
      ensures w.requests == old(w).requests && (p.Some? ==> tx in w.rows && p.value == w.rows[tx])
      ensures
        var t := old(w).sessions[i].t;
        w.sessions == old(w).sessions[i :=
          if p.None? then Finished(tx)
          else if t.approve then Reading(t, p.value.call)
          else Closing(t, p.value.call, Denied, "denied by " + t.decider, DeniedByHuman, None)]
    {
      ghost var o;
      p, o := store.Get(tx);
      ghost var e := Run(i, o, Undrawn(w.log));
      Advance(e);
    }

    // os.ReadFile and the parse, as one read; None when Reload reports an error, and then nothing
    // is installed.
    method ReadFile(ghost i: nat) returns (text: Option<string>)
      requires Coupled() && i < |w.sessions| && w.sessions[i].Reading?
      modifies `clock, `w, `trace
      ensures Coupled() && StepOf(old(trace), trace, i) && w.installs == old(w).installs && w.rows == old(w).rows
      ensures text.Some? ==> text.value == disk && cfg.reader.parse(disk).Some?
      ensures i < |w.sessions|
      ensures
        var Reading(t, c) := old(w).sessions[i];
        var s := w.sessions[i];
        if text.None? then s == Closing(t, c, Failed, RELOAD_FAILED, Ruled(Deny), None)
        else s.Swapping? && s.t == t && s.c == c && s.text == text.value
    {
      var oc: Outcome := *;
      text := if oc.Done? && cfg.reader.parse(disk).Some? then Some(disk) else None;
      ghost var e := Run(i, oc, Undrawn(w.log));
      Advance(e);
    }

    method Swap(ghost i: nat, text: string, ps: PolicySet)
      requires Coupled() && i < |w.sessions| && w.sessions[i].Swapping? && w.sessions[i].text == text
      requires cfg.reader.parse(text) == Some(ps)
      modifies `clock, `w, `trace, `swaps, engine
      ensures Coupled() && StepOf(old(trace), trace, i) && w.rows == old(w).rows
      ensures |w.installs| == |old(w).installs| + 1 && w.Current().text == text && w.Current().policies == ps
      ensures i < |w.sessions| && w.sessions[i].Snapping?
      ensures w.sessions[i].t == old(w).sessions[i].t && w.sessions[i].c == old(w).sessions[i].c
    {
      engine.Install(text, ps);
      ghost var e := Run(i, Done, Undrawn(w.log));
      swaps := swaps + 1;
      Advance(e);
    }

    // Decide's locked read: the policies installed now, and where and when.
    method Snapshot(ghost i: nat) returns (ps: PolicySet, inst: nat, takenAt: nat)
      requires Coupled() && i < |w.sessions| && w.sessions[i].Snapping?
      modifies `clock, `w, `trace
      ensures Coupled() && StepOf(old(trace), trace, i) && w.rows == old(w).rows && w.installs == old(w).installs
      ensures inst == |w.installs| - 1 && ps == w.Current().policies && takenAt == old(clock)
      ensures i < |w.sessions| && w.sessions[i].Rejudging? && w.sessions[i].inst == inst && w.sessions[i].takenAt == takenAt
      ensures w.sessions[i].t == old(w).sessions[i].t && w.sessions[i].c == old(w).sessions[i].c
    {
      ps, inst, takenAt := engine.policies, swaps - 1, clock;
      ghost var e := Run(i, Done, Undrawn(w.log));
      Advance(e);
    }

    // What Decide decides for the call with the policies taken, and how.
    ghost predicate DecidedBy(j: Judgment, ps: PolicySet, user: string, roles: seq<string>, tool: string, args: Object,
                              decision: Decision)
      reads this
    {
      j.at <= w.Now() && decision == Judge(ps, user, roles, tool, args, GraphAt(cfg, w, j.at, j.answered))
    }

    method Recheck(ghost i: nat, ps: PolicySet, inst: nat, takenAt: nat, c: Captured) returns (decision: Decision, j: Judgment)
      requires Coupled() && i < |w.sessions| && w.sessions[i].Rejudging? && w.sessions[i].c == c
      requires w.sessions[i].inst == inst && w.sessions[i].takenAt == takenAt
      requires inst < |w.installs| && w.installs[inst].policies == ps
      modifies `clock, `w, `trace
      ensures Coupled() && StepOf(old(trace), trace, i) && w.rows == old(w).rows
      ensures j.inst == inst && j.takenAt == takenAt && j.at == old(clock)
      ensures DecidedBy(j, ps, c.onBehalfOf, c.roles, c.tool, c.args, decision)
      ensures
        var t := old(w).sessions[i].t;
        w.sessions == old(w).sessions[i :=
          if decision.Deny? then Closing(t, c, Failed, RECHECK_DENIED, Ruled(Deny), Some(j)) else Connecting(t, c, j)]
    {
      var answered;
      decision, answered := engine.Evaluate(ps, c.onBehalfOf, c.roles, c.tool, c.args);
      j := Judgment(inst, takenAt, clock, answered);
      ghost var o := if answered then Done else Refused;
      assert decision == Judge(PoliciesOf(w, inst), c.onBehalfOf, c.roles, c.tool, c.args, GraphSeen(cfg, w, o));
      ghost var e := Run(i, o, Undrawn(w.log));
      GraphNow(cfg, w, e, o);
      Advance(e);
    }

    // Opening a client and its MCP session.
    method Connect(ghost i: nat, ghost tx: TxId, ghost c: Captured, ghost j: Judgment) returns (ok: bool)
      requires Coupled() && i < |w.sessions| && w.sessions[i].Connecting? && w.sessions[i].t.tx == tx
      requires w.sessions[i].c == c && w.sessions[i].passed == j
      modifies `clock, `w, `trace
      ensures Coupled() && StepOf(old(trace), trace, i) && w.rows == old(w).rows && w.requests == old(w).requests
      ensures
        var t := old(w).sessions[i].t;
        w.sessions == old(w).sessions[i :=
          if ok then Calling(t, c, j) else Closing(t, c, Failed, CONNECT_FAILED, ExecuteFailed, Some(j))]
    {
      var oc: Outcome := *;
      ok := oc.Done?;
      ghost var e := Run(i, oc, Undrawn(w.log));
      Advance(e);
    }

    // Sending the call; None when the error came before anything left.
    method Send(ghost i: nat, tx: TxId, c: Captured, j: Judgment) returns (sent: Option<nat>)
      requires Coupled() && i < |w.sessions| && w.sessions[i].Calling? && w.sessions[i].t.tx == tx
      requires w.sessions[i].c == c && w.sessions[i].passed == j
      modifies `clock, `w, `trace, `network
      ensures Coupled() && StepOf(old(trace), trace, i) && w.rows == old(w).rows
      ensures sent.Some? ==> sent.value == |old(w).requests|
      ensures
        w.requests == if sent.None? then old(w).requests
                      else old(w).requests + [ToolRequest(c.tool, c.args, Approval(tx), j.at, old(clock), None, None)]
      ensures
        var t := old(w).sessions[i].t;
        w.sessions == old(w).sessions[i :=
          if sent.Some? then Waiting(t, c, j, sent.value)
          else Closing(t, c, Failed, CALL_FAILED, ExecuteFailed, Some(j))]
    {
      var oc: Outcome := *;
      sent := None;
      if !oc.Refused? {
        sent := Some(|network|);
        network := network + [ToolRequest(c.tool, c.args, Approval(tx), j.at, clock, None, None)];
      }
      ghost var e := Run(i, oc, Undrawn(w.log));
      Advance(e);
    }

    // Waiting for the answer, `heard` if one comes. A failed call may have run or may run yet; a
    // tool error is an answer.
    method Await(ghost i: nat, tx: TxId, k: nat) returns (r: ToolResult, ghost heard: Option<Toy.Reply>)
      requires Coupled() && i < |w.sessions| && w.sessions[i].Waiting? && w.sessions[i].t.tx == tx && w.sessions[i].request == k
      modifies `clock, `w, `trace
      ensures Coupled() && StepOf(old(trace), trace, i) && w.rows == old(w).rows && w.requests == old(w).requests
      ensures heard.Some? ==> k < |w.requests| && w.requests[k].delivery.Some? && w.requests[k].delivery.value.reply == heard.value
      ensures
        match heard
        case Some(ToolOk(text)) => r == Got(text) && Succeeded(w, tx, text)
        case Some(ToolError) => r == Broke("tool returned error") && Replied(w, tx, false)
        case Some(NoSuchTool) => r == Broke("call tool")
        case None => r == Broke("call tool")
      ensures w.sessions == old(w).sessions[i := AfterCall(old(w).sessions[i].t, old(w).sessions[i].c, old(w).sessions[i].passed, r)]
    {
      Ready(cfg, start, trace, w, i);
      var oc: Outcome := *;
      var answered := oc.Done? && network[k].delivery.Some?;
      heard := if answered then Some(network[k].delivery.value.reply) else None;
      if answered {
        r := match network[k].delivery.value.reply
          case ToolOk(text) => Got(text)
          case ToolError => Broke(TOOL_ERROR)
          case NoSuchTool => Broke(CALL_FAILED);
      } else {
        r := Broke(CALL_FAILED);
      }
      ghost var e := Run(i, if answered then Done else Refused, Undrawn(w.log));
      Advance(e);
      AnswerHeard(w, k, tx, r);
    }

    // Whether it took effect is only logged.
    method SetResult(ghost i: nat, tx: TxId, final: State, result: string)
      requires Coupled() && i < |w.sessions| && w.sessions[i].Closing? && w.sessions[i].t.tx == tx
      requires w.sessions[i].final == final && w.sessions[i].result == result
      modifies `clock, `w, `trace, store
      ensures Coupled() && StepOf(old(trace), trace, i) && w.log == old(w).log && w.requests == old(w).requests
      ensures w.rows == old(w).rows || w.rows == Closed(old(w).rows, tx, final, result)
      ensures
        var Closing(t, c, _, _, ruling, judgment) := old(w).sessions[i];
        w.sessions == old(w).sessions[i := Noting(t, c, ruling, judgment)]
    {
      var ok;
      ghost var o;
      ok, o := store.SetResult(tx, final, result);
      ghost var e := Run(i, o, Undrawn(w.log));
      Advance(e);
    }

    // engine.Version(), for a row about to be written, and where and when it was read.
    method ReadVersion(ghost i: nat) returns (version: string, stamp: Stamp)
      requires Coupled() && i < |w.sessions| && (w.sessions[i].Noting? || w.sessions[i].Stamping?)
      modifies `clock, `w, `trace
      ensures Coupled() && StepOf(old(trace), trace, i) && w.rows == old(w).rows && w.log == old(w).log
      ensures w.requests == old(w).requests
      ensures w.installs == old(w).installs && version == w.Current().version && stamp == Stamp(|w.installs| - 1, old(clock))
      ensures
        w.sessions == old(w).sessions[i :=
          match old(w).sessions[i]
          case Noting(t, c, ruling, judgment) => Filing(t, c, ruling, judgment, version, stamp)
          case Stamping(id, call, verdict, judgment) => Recording(id, call, verdict, judgment, version, stamp)
          case other => other]
    {
      version, stamp := engine.version, Stamp(swaps - 1, clock);
      ghost var e := Run(i, Done, Undrawn(w.log));
      Advance(e);
    }

    method File(ghost i: nat, tx: TxId, c: Captured, ruling: Ruling, judgment: Option<Judgment>, version: string, stamp: Stamp)
      requires Coupled() && i < |w.sessions|
      requires w.sessions[i].Filing? && w.sessions[i].t.tx == tx
      requires w.sessions[i] == Filing(w.sessions[i].t, c, ruling, judgment, version, stamp)
      modifies `clock, `w, `trace, log
      ensures Coupled() && StepOf(old(trace), trace, i) && w.rows == old(w).rows && w.requests == old(w).requests
      ensures w.sessions == old(w).sessions[i := Finished(tx)]
      ensures
        || w.log == old(w).log
        || exists drawn :: w.log == old(w).log +
             [AuditRow(drawn, old(clock), Entry(c.agentId, c.onBehalfOf, c.roles, "approval/" + RulingName(ruling), c.tool, c.args,
                                                ruling, version), FromExecutor(tx, judgment, stamp))]
      ensures NamesRuling(ruling, "approval/" + RulingName(ruling))
    {
      MethodNames(ruling);
      var entry, source := FileEntry(c, ruling, version), FromExecutor(tx, judgment, stamp);
      var drawn := Draw();
      var filed;
      ghost var o;
      filed, o := log.Record(entry, source, drawn, clock);
      ghost var e := Run(i, o, drawn);
      Advance(e);
    }

    // gen_random_uuid(): some id that no audit row has.
    method Draw() returns (drawn: TxId)
      ensures Fresh(log.rows, drawn)
    {
      drawn := *;
      if !Fresh(log.rows, drawn) {
        drawn := Undrawn(log.rows);
      }
    }

    // ---- Operations of Check ---------------------------------------------

    // Until the policy set is taken under the lock; for an unidentified caller and for protocol
    // messages nothing shared is read.
    method Admit(ghost i: nat, who: Option<Identity>, call: Call) returns (ps: PolicySet, inst: nat, takenAt: nat)
      requires Coupled() && i < |w.sessions| && w.sessions[i] == Arrived(who, call)
      modifies `clock, `w, `trace
      ensures Coupled() && StepOf(old(trace), trace, i) && w.rows == old(w).rows && w.installs == old(w).installs
      ensures inst == |w.installs| - 1 && ps == w.Current().policies && takenAt == old(clock)
      ensures
        w.sessions == old(w).sessions[i :=
          if who.None? then Answered(false, call, Rejected)
          else if call.rpc == TOOLS_CALL then Judging(who.value, call, inst, takenAt)
          else Stamping(who.value, call, Allow, None)]
    {
      ps, inst, takenAt := engine.policies, swaps - 1, clock;
      ghost var e := Run(i, Done, Undrawn(w.log));
      Advance(e);
    }

    method Evaluate(ghost i: nat, ps: PolicySet, inst: nat, takenAt: nat, id: Identity, call: Call)
      returns (decision: Decision, j: Judgment)
      requires Coupled() && i < |w.sessions| && w.sessions[i] == Judging(id, call, inst, takenAt)
      requires inst < |w.installs| && w.installs[inst].policies == ps
      modifies `clock, `w, `trace
      ensures Coupled() && StepOf(old(trace), trace, i) && w.rows == old(w).rows
      ensures j.inst == inst && j.takenAt == takenAt && j.at == old(clock)
      ensures DecidedBy(j, ps, id.onBehalfOf, id.roles, call.tool, call.args, decision)
      ensures w.sessions == old(w).sessions[i := Stamping(id, call, decision, Some(j))]
    {
      var answered;
      decision, answered := engine.Evaluate(ps, id.onBehalfOf, id.roles, call.tool, call.args);
      j := Judgment(inst, takenAt, clock, answered);
      ghost var o := if answered then Done else Refused;
      assert GraphAnswer(engine.relations, answered) == GraphSeen(cfg, w, o);
      ghost var e := Run(i, o, Undrawn(w.log));
      GraphNow(cfg, w, e, o);
      Advance(e);
    }

    // The audit write. None when it is not reported, though the row may be there.
    method Record(i: nat, id: Identity, call: Call, verdict: Decision, judgment: Option<Judgment>, version: string, stamp: Stamp)
      returns (tx: Option<TxId>)
      requires Coupled() && i < |w.sessions| && w.sessions[i] == Recording(id, call, verdict, judgment, version, stamp)
      modifies `clock, `w, `trace, log
      ensures Coupled() && StepOf(old(trace), trace, i) && w.rows == old(w).rows
      ensures w.sessions == old(w).sessions[i := Audited(id, call, verdict, tx)]
      ensures
        || (tx.None? && w.log == old(w).log)
        || exists drawn :: (tx.Some? ==> tx.value == drawn) && w.log == old(w).log +
             [AuditRow(drawn, old(clock), Entry(id.agentId, id.onBehalfOf, id.roles, call.rpc, call.tool, call.args, Ruled(verdict),
                                                version), FromCheck(i, judgment, stamp))]
    {
      var entry, source := RecordEntry(id, call, verdict, version), FromCheck(i, judgment, stamp);
      var drawn := Draw();
      ghost var o;
      tx, o := log.Record(entry, source, drawn, clock);
      AuditedAfter(id, call, verdict, o, drawn);
      ghost var e := Run(i, o, drawn);
      Advance(e);
    }

    method Park(ghost i: nat, kept: Captured, ghost call: Call, tx: Option<TxId>) returns (ok: bool)
      requires Coupled() && i < |w.sessions| && w.sessions[i] == Parking(kept, call, tx)
      modifies `clock, `w, `trace, store
      ensures Coupled() && StepOf(old(trace), trace, i)
      ensures ok ==> tx.Some? && tx.value !in old(w).rows
      ensures ok ==> tx.value in w.rows && w.rows[tx.value] == Row(tx.value, kept, Pending, None, None, None, old(clock))
      ensures w.rows == old(w).rows || (tx.Some? && w.rows == Parked(old(w).rows, tx.value, kept, old(clock)))
      ensures w.sessions == old(w).sessions[i := Answered(true, call, if ok then PendingApproval(tx.value) else Rejected)]
    {
      ghost var o;
      ok, o := store.Park(tx, kept, clock);
      ghost var e := Run(i, o, Undrawn(w.log));
      Advance(e);
    }

    // The gateway forwards a call that Check allowed.
    method Forward(i: nat, call: Call) returns (sent: bool)
      requires Coupled() && i < |w.sessions| && w.sessions[i] == Forwarding(call)
      modifies `clock, `w, `trace, `network
      ensures Coupled() && StepOf(old(trace), trace, i) && w.rows == old(w).rows
      ensures w.sessions == old(w).sessions[i := Answered(true, call, Allowed)]
      ensures
        w.requests == if !sent then old(w).requests
                      else old(w).requests + [ToolRequest(call.tool, call.args, Gateway(i), old(clock), old(clock), None, None)]
    {
      var oc: Outcome := *;
      sent := !oc.Refused?;
      if sent {
        network := network + [ToolRequest(call.tool, call.args, Gateway(i), clock, clock, None, None)];
      }
      ghost var e := Run(i, oc, Undrawn(w.log));
      Advance(e);
    }

    // ---- The rest of the world ---------------------------------------------

    method EditFile(text: string)
      requires Coupled()
      modifies `clock, `w, `trace, `disk
      ensures Coupled() && trace == old(trace) + [Edit(text)] && disk == text
    {
      disk := text;
      Advance(Edit(text));
    }

    // Granting and revoking; without effect when the graph refuses.
    method GrantOwner(user: string, record: string) returns (ok: bool)
      requires Coupled()
      modifies `clock, `w, `trace, graph
      ensures Coupled()
      ensures trace == old(trace) + [Protocol.Grant(Edge(user, record))] || (!ok && trace == old(trace) && w == old(w))
    {
      var oc;
      ok, oc := graph.Grant(user, record);
      if !oc.Refused? {
        ghost var e := Protocol.Grant(Edge(user, record));
        Advance(e);
      }
    }

    method RevokeOwner(user: string, record: string) returns (ok: bool)
      requires Coupled()
      modifies `clock, `w, `trace, graph
      ensures Coupled()
      ensures trace == old(trace) + [Protocol.Revoke(Edge(user, record))] || (!ok && trace == old(trace) && w == old(w))
    {
      var oc;
      ok, oc := graph.Revoke(user, record);
      if !oc.Refused? {
        ghost var e := Protocol.Revoke(Edge(user, record));
        Advance(e);
      }
    }

    // A backend handler's lookup, and its answer unless it is about to delete.
    method Handle(k: nat)
      requires Coupled() && k < |network| && network[k].found.None? && network[k].delivery.None?
      modifies `clock, `w, `trace, `network
      ensures Coupled() && trace == old(trace) + [Protocol.Handle(k)]
    {
      var h := backend.Handle(network[k].tool, network[k].args);
      var q := match h
        case Answers(reply) => network[k].(delivery := Some(Delivery(clock, reply)))
        case Deletes(_) => network[k].(found := Some(clock));
      network := network[k := q];
      Advance(Protocol.Handle(k));
    }

    // Its deletion, and its answer.
    method Erase(k: nat)
      requires Coupled() && k < |network| && network[k].found.Some? && network[k].delivery.None?
      modifies `clock, `w, `trace, `network, backend
      ensures Coupled() && trace == old(trace) + [Protocol.Erase(k)]
    {
      var reply := backend.Delete(StrAt(network[k].args, "id"));
      network := network[k := network[k].(delivery := Some(Delivery(clock, reply)))];
      Advance(Protocol.Erase(k));
    }
  }
}
