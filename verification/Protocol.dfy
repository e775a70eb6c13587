// The park / approve / re-check / execute protocol as a machine over its atomic
// steps. A session is one running Check, Approve or Deny call, standing just
// before its next database, file, lock, graph or network operation; any number
// run at once, and policy edits, graph writes and the steps of the backend's
// handlers fall anywhere between theirs.
module Protocol {
  import opened Wrappers
  import opened Json
  import opened Identity
  import opened Cedar
  import opened Policy
  import opened Store
  import opened Audit
  import opened ToyServer

  // ---- State -------------------------------------------------------------

  // What a deployment fixes: the Cedar parser and SHA-256, whether a relationship
  // graph is configured, and the backend's first records.
  datatype Config = Config(reader: Reader, ownership: bool, seed: Records)

  // mcpreq.Call, already parsed.
  datatype Call = Call(rpc: string, tool: string, args: Object)

  const TOOLS_CALL := "tools/call"

  datatype Origin = Gateway(session: nat) | Approval(tx: TxId)

  datatype Delivery = Delivery(at: nat, reply: Reply)

  // A tools/call sent to the backend. The network delivers it at most once, and
  // possibly after the sender has given up on it. `ownerAt` is when ownership
  // was last checked for it, `found` when a deleting handler found its record,
  // and `delivery` when the handler answered.
  datatype ToolRequest = ToolRequest(tool: string, args: Object, origin: Origin, ownerAt: nat, sentAt: nat,
                                     found: Option<nat>, delivery: Option<Delivery>)

  // One policy set the engine has installed, when its text was read, and when it was installed.
  datatype Install = Install(text: string, policies: PolicySet, version: string, readAt: nat, at: nat)

  datatype Answer = Allowed | PendingApproval(tx: TxId) | Rejected

  // The click an Approve or Deny call won.
  datatype Ticket = Ticket(tx: TxId, decider: string, approve: bool, clickAt: nat)

  datatype Session =
    // Server.Check
    | Arrived(who: Option<Identity>, call: Call)
    | Judging(id: Identity, call: Call, inst: nat, takenAt: nat)
    | Stamping(id: Identity, call: Call, verdict: Decision, judgment: Option<Judgment>)
    | Recording(id: Identity, call: Call, verdict: Decision, judgment: Option<Judgment>, version: string, stamp: Stamp)
    | Parking(kept: Captured, call: Call, audited: Option<TxId>)
    | Forwarding(call: Call)
    | Answered(resolved: bool, call: Call, answer: Answer)
    // Executor.Approve and Executor.Deny
    | Clicking(tx: TxId, decider: string, approve: bool)
    | Fetching(t: Ticket)
    | Reading(t: Ticket, c: Captured)
    | Swapping(t: Ticket, c: Captured, text: string, readAt: nat, floor: nat)
    | Snapping(t: Ticket, c: Captured, readAt: nat, floor: nat)
    | Rejudging(t: Ticket, c: Captured, readAt: nat, floor: nat, inst: nat, takenAt: nat)
    | Connecting(t: Ticket, c: Captured, passed: Judgment)
    | Calling(t: Ticket, c: Captured, passed: Judgment)
    | Waiting(t: Ticket, c: Captured, passed: Judgment, request: nat)
    | Closing(t: Ticket, c: Captured, final: State, result: string, ruling: Ruling, judgment: Option<Judgment>)
    | Noting(t: Ticket, c: Captured, ruling: Ruling, judgment: Option<Judgment>)
    | Filing(t: Ticket, c: Captured, ruling: Ruling, judgment: Option<Judgment>, version: string, stamp: Stamp)
    | Finished(tx: TxId)

  // The outside world as it stood before one step.
  datatype Moment = Moment(disk: string, edges: set<Edge>)

  datatype World = World(
    rows: Rows,
    log: AuditRows,
    disk: string,
    installs: seq<Install>,
    edges: set<Edge>,
    records: Records,
    requests: seq<ToolRequest>,
    sessions: seq<Session>,
    began: seq<nat>,
    past: seq<Moment>)
  {
    function Now(): nat { |past| }

    // The engine's (policies, version) pair is the latest installation; before the first there is none to speak of.
    function Current(): Install {
      if |installs| > 0 then installs[|installs| - 1] else Install("", [], "", 0, 0)
    }

    function Latest(): nat { if |installs| > 0 then |installs| - 1 else 0 }

    // A stamp of the engine's version, taken now.
    function Here(): Stamp { Stamp(Latest(), Now()) }

    function MomentAt(t: nat): Moment {
      if t < |past| then past[t] else Moment(disk, edges)
    }
  }

  function Capture(id: Identity, call: Call): Captured {
    Captured(id.agentId, id.onBehalfOf, id.roles, call.tool, call.args)
  }

  const RELOAD_FAILED := "policy reload failed"
  const RECHECK_DENIED := "re-check denied"
  const CONNECT_FAILED := "mcp initialize"
  const CALL_FAILED := "call tool"
  const TOOL_ERROR := "tool returned error"

  predicate Destroys(call: Call) {
    call.rpc == TOOLS_CALL && Destructive(call.tool)
  }

  // ---- Steps -------------------------------------------------------------

  datatype Event =
    | Begin(session: Session)              // a Check request arrives, or a human clicks
    | Run(actor: nat, outcome: Outcome, drawn: TxId)  // a session's next step; `drawn` is the id the database would draw
    | Edit(text: string)                   // the policy file changes
    | Grant(edge: Edge)                    // an owner edge is written
    | Revoke(edge: Edge)                   // an owner edge is deleted
    | Handle(request: nat)                 // a backend handler looks its record up, and answers unless it deletes
    | Erase(request: nat)                  // it deletes the record it found, and answers

  function GraphSeen(cfg: Config, w: World, o: Outcome): Graph {
    if !cfg.ownership then NotConfigured else if o.Done? then Owners(w.edges) else Unreachable
  }

  // When the oldest Reload in flight read the file, the caller's own included.
  function Oldest(sessions: seq<Session>, own: nat): (r: nat)
    ensures r <= own
    ensures forall j :: 0 <= j < |sessions| && sessions[j].Swapping? ==> r <= sessions[j].readAt
    ensures r == own || exists j :: 0 <= j < |sessions| && sessions[j].Swapping? && sessions[j].readAt == r
  {
    if sessions == [] then own
    else
      var last := sessions[|sessions| - 1];
      var r := Oldest(sessions[..|sessions| - 1], own);
      if last.Swapping? && last.readAt < r then last.readAt else r
  }

  predicate Enabled(cfg: Config, w: World, e: Event) {
    match e
    case Begin(s) => s.Arrived? || s.Clicking?
    case Run(i, o, drawn) =>
      i < |w.sessions| && |w.installs| > 0 && Fresh(w.log, drawn) &&
      var s := w.sessions[i];
      !Over(s) && (s.Waiting? && o.Done? ==> s.request < |w.requests| && w.requests[s.request].delivery.Some?)
    case Handle(k) => k < |w.requests| && w.requests[k].found.None? && w.requests[k].delivery.None?
    case Erase(k) => k < |w.requests| && w.requests[k].found.Some? && w.requests[k].delivery.None?
    case _ => true
  }

  predicate Over(s: Session) {
    s.Answered? || s.Finished?
  }

  predicate InCheck(s: Session) {
    s.Arrived? || s.Judging? || s.Stamping? || s.Recording? || s.Parking? || s.Forwarding?
  }

  // The steps of Server.Check: the effect on the world, and where the session stands next.

  function Admit(w: World, who: Option<Identity>, call: Call): Session {
    if who.None? then Answered(false, call, Rejected)
    else if call.rpc == TOOLS_CALL then Judging(who.value, call, w.Latest(), w.Now())
    else Stamping(who.value, call, Allow, None)
  }

  function PoliciesOf(w: World, inst: nat): PolicySet {
    if inst < |w.installs| then w.installs[inst].policies else []
  }

  function JudgeCall(cfg: Config, w: World, id: Identity, call: Call, inst: nat, takenAt: nat, o: Outcome): Session {
    Stamping(id, call, Judge(PoliciesOf(w, inst), id.onBehalfOf, id.roles, call.tool, call.args, GraphSeen(cfg, w, o)),
             Some(Judgment(inst, takenAt, w.Now(), o.Done?)))
  }

  function RecordEntry(id: Identity, call: Call, verdict: Decision, version: string): Entry {
    Entry(id.agentId, id.onBehalfOf, id.roles, call.rpc, call.tool, call.args, Ruled(verdict), version)
  }

  function AfterRecord(id: Identity, call: Call, verdict: Decision, o: Outcome, drawn: TxId): Session {
    match verdict
    case Allow => if call.rpc == TOOLS_CALL then Forwarding(call) else Answered(true, call, Allowed)
    case NeedsApproval => Parking(Capture(id, call), call, if o.Done? then Some(drawn) else None)
    case Deny => Answered(true, call, Rejected)
  }

  function ParkCall(w: World, kept: Captured, call: Call, audited: Option<TxId>, o: Outcome): (World, Session) {
    if audited.None? || o.Refused? || audited.value in w.rows then (w, Answered(true, call, Rejected))
    else (w.(rows := Parked(w.rows, audited.value, kept, w.Now())),
          Answered(true, call, if o.Done? then PendingApproval(audited.value) else Rejected))
  }

  function Logging(w: World, row: AuditRow, o: Outcome): World {
    if o.Refused? then w else w.(log := w.log + [row])
  }

  function Sending(w: World, q: ToolRequest, o: Outcome): World {
    if o.Refused? then w else w.(requests := w.requests + [q])
  }

  function CheckStep(cfg: Config, w: World, i: nat, s: Session, o: Outcome, drawn: TxId): (World, Session) {
    match s
    case Arrived(who, call) => (w, Admit(w, who, call))
    case Judging(id, call, inst, takenAt) => (w, JudgeCall(cfg, w, id, call, inst, takenAt, o))
    case Stamping(id, call, verdict, judgment) => (w, Recording(id, call, verdict, judgment, w.Current().version, w.Here()))
    case Recording(id, call, verdict, judgment, version, stamp) =>
      (Logging(w, AuditRow(drawn, w.Now(), RecordEntry(id, call, verdict, version), FromCheck(i, judgment, stamp)), o),
       AfterRecord(id, call, verdict, o, drawn))
    case Parking(kept, call, audited) => ParkCall(w, kept, call, audited, o)
    case Forwarding(call) =>
      (Sending(w, ToolRequest(call.tool, call.args, Gateway(i), w.Now(), w.Now(), None, None), o), Answered(true, call, Allowed))
    case _ => (w, s)
  }

  // The steps of Executor.Approve and Executor.Deny.

  function ClickRow(w: World, tx: TxId, decider: string, approve: bool, o: Outcome): (World, Session) {
    if o.Refused? || !Winnable(w.rows, tx) then (w, Finished(tx))
    else (w.(rows := Decided(w.rows, tx, if approve then Approved else Denied, decider, w.Now())),
          if o.Done? then Fetching(Ticket(tx, decider, approve, w.Now())) else Finished(tx))
  }

  function FetchRow(w: World, t: Ticket, o: Outcome): Session {
    if !o.Done? || t.tx !in w.rows then Finished(t.tx)
    else if t.approve then Reading(t, w.rows[t.tx].call)
    else Closing(t, w.rows[t.tx].call, Denied, "denied by " + t.decider, DeniedByHuman, None)
  }

  function ReadFile(cfg: Config, w: World, t: Ticket, c: Captured, o: Outcome): Session {
    if !o.Done? || cfg.reader.parse(w.disk).None? then Closing(t, c, Failed, RELOAD_FAILED, Ruled(Deny), None)
    else Swapping(t, c, w.disk, w.Now(), Oldest(w.sessions, w.Now()))
  }

  function SwapIn(cfg: Config, w: World, text: string, readAt: nat): World {
    var ps := if cfg.reader.parse(text).Some? then cfg.reader.parse(text).value else [];
    w.(installs := w.installs + [Install(text, ps, VersionOf(cfg.reader, text), readAt, w.Now())])
  }

  function Recheck(cfg: Config, w: World, t: Ticket, c: Captured, inst: nat, takenAt: nat, o: Outcome): Session {
    var judgment := Judgment(inst, takenAt, w.Now(), o.Done?);
    if Judge(PoliciesOf(w, inst), c.onBehalfOf, c.roles, c.tool, c.args, GraphSeen(cfg, w, o)).Deny?
    then Closing(t, c, Failed, RECHECK_DENIED, Ruled(Deny), Some(judgment))
    else Connecting(t, c, judgment)
  }

  // Opening the MCP session.
  function Connect(t: Ticket, c: Captured, j: Judgment, o: Outcome): Session {
    if o.Done? then Calling(t, c, j) else Closing(t, c, Failed, CONNECT_FAILED, ExecuteFailed, Some(j))
  }

  function CallTool(w: World, t: Ticket, c: Captured, j: Judgment, o: Outcome): (World, Session) {
    (Sending(w, ToolRequest(c.tool, c.args, Approval(t.tx), j.at, w.Now(), None, None), o),
     if o.Refused? then Closing(t, c, Failed, CALL_FAILED, ExecuteFailed, Some(j)) else Waiting(t, c, j, |w.requests|))
  }

  function Await(w: World, t: Ticket, c: Captured, j: Judgment, k: nat, o: Outcome): Session {
    if !o.Done? || k >= |w.requests| || w.requests[k].delivery.None?
    then Closing(t, c, Failed, CALL_FAILED, ExecuteFailed, Some(j))
    else
      var reply := w.requests[k].delivery.value.reply;
      match reply
      case ToolOk(text) => Closing(t, c, Executed, text, ExecutedAfterApproval, Some(j))
      case ToolError => Closing(t, c, Failed, TOOL_ERROR, ExecuteFailed, Some(j))
      case NoSuchTool => Closing(t, c, Failed, CALL_FAILED, ExecuteFailed, Some(j))
  }

  function StoreResult(w: World, tx: TxId, final: State, result: string, o: Outcome): World {
    if o.Refused? then w else w.(rows := Closed(w.rows, tx, final, result))
  }

  function FileEntry(c: Captured, ruling: Ruling, version: string): Entry {
    Entry(c.agentId, c.onBehalfOf, c.roles, "approval/" + RulingName(ruling), c.tool, c.args, ruling, version)
  }

  function ClickStep(cfg: Config, w: World, s: Session, o: Outcome, drawn: TxId): (World, Session) {
    match s
    case Clicking(tx, decider, approve) => ClickRow(w, tx, decider, approve, o)
    case Fetching(t) => (w, FetchRow(w, t, o))
    case Reading(t, c) => (w, ReadFile(cfg, w, t, c, o))
    case Swapping(t, c, text, readAt, floor) => (SwapIn(cfg, w, text, readAt), Snapping(t, c, readAt, floor))
    case Snapping(t, c, readAt, floor) => (w, Rejudging(t, c, readAt, floor, w.Latest(), w.Now()))
    case Rejudging(t, c, _, _, inst, takenAt) => (w, Recheck(cfg, w, t, c, inst, takenAt, o))
    case Connecting(t, c, j) => (w, Connect(t, c, j, o))
    case Calling(t, c, j) => CallTool(w, t, c, j, o)
    case Waiting(t, c, j, k) => (w, Await(w, t, c, j, k, o))
    case Closing(t, c, final, result, ruling, judgment) =>
      (StoreResult(w, t.tx, final, result, o), Noting(t, c, ruling, judgment))
    case Noting(t, c, ruling, judgment) => (w, Filing(t, c, ruling, judgment, w.Current().version, w.Here()))
    case Filing(t, c, ruling, judgment, version, stamp) =>
      (Logging(w, AuditRow(drawn, w.Now(), FileEntry(c, ruling, version), FromExecutor(t.tx, judgment, stamp)), o),
       Finished(t.tx))
    case _ => (w, s)
  }

  // The next step of session `i`, which stands at `s`.
  function SessionStep(cfg: Config, w: World, i: nat, s: Session, o: Outcome, drawn: TxId): (World, Session) {
    if InCheck(s) then CheckStep(cfg, w, i, s, o, drawn) else ClickStep(cfg, w, s, o, drawn)
  }

  // The steps of the backend's handlers.

  function Handled(w: World, k: nat): World
    requires k < |w.requests|
  {
    var q := w.requests[k];
    var handler := LookUp(w.records, q.tool, q.args);
    var after := match handler
      case Answers(reply) => q.(delivery := Some(Delivery(w.Now(), reply)))
      case Deletes(_) => q.(found := Some(w.Now()));
    w.(requests := w.requests[k := after])
  }

  function Erasing(w: World, k: nat): World
    requires k < |w.requests|
  {
    var q := w.requests[k];
    var id := StrAt(q.args, "id");
    w.(records := w.records - {id}, requests := w.requests[k := q.(delivery := Some(Delivery(w.Now(), Confirmation(id))))])
  }

  // An event that is not enabled changes nothing.
  function Next(cfg: Config, w: World, e: Event): World {
    if !Enabled(cfg, w, e) then w
    else
      var v := match e
        case Begin(s) => w.(sessions := w.sessions + [s], began := w.began + [w.Now()])
        case Run(i, o, drawn) =>
          var (v, s) := SessionStep(cfg, w, i, w.sessions[i], o, drawn);
          v.(sessions := w.sessions[i := s])
        case Edit(text) => w.(disk := text)
        case Grant(edge) => w.(edges := w.edges + {edge})
        case Revoke(edge) => w.(edges := w.edges - {edge})
        case Handle(k) => Handled(w, k)
        case Erase(k) => Erasing(w, k);
      v.(past := w.past + [Moment(w.disk, w.edges)])
  }

  // ---- Runs --------------------------------------------------------------

  predicate Initial(cfg: Config, w: World) {
    && w.rows == map[] && w.log == [] && w.requests == [] && w.sessions == [] && w.began == [] && w.past == []
    && w.records == cfg.seed
    && cfg.reader.parse(w.disk).Some?
    && w.installs == [Install(w.disk, cfg.reader.parse(w.disk).value, VersionOf(cfg.reader, w.disk), 0, 0)]
  }

  // `es` can be run from `w`, and leads to `v`.
  predicate Runs(cfg: Config, w: World, es: seq<Event>, v: World)
    decreases |es|
  {
    if es == [] then w == v
    else Enabled(cfg, w, es[0]) && Runs(cfg, Next(cfg, w, es[0]), es[1..], v)
  }

  ghost predicate Reachable(cfg: Config, w: World) {
    exists w0, es :: Initial(cfg, w0) && Runs(cfg, w0, es, w)
  }
}
