// What every reachable world satisfies, and what every step guarantees to the
// sessions it does not run.
module Invariant {
  import opened Wrappers
  import opened Json
  import opened Policy
  import opened Store
  import opened Audit
  import opened ToyServer
  import opened Protocol

  // ---- Vocabulary --------------------------------------------------------

  // Past its winning click and not yet finished.
  predicate Ticketed(s: Session) {
    s.Fetching? || s.Reading? || s.Swapping? || s.Snapping? || s.Rejudging? || s.Connecting? || s.Calling? || s.Waiting? || s.Closing?
    || s.Noting? || s.Filing?
  }

  // Ticketed, and the result is still to be stored.
  predicate Holding(s: Session) {
    Ticketed(s) && !s.Noting? && !s.Filing?
  }

  // The transaction a session alone may act on.
  function Claim(s: Session): Option<TxId> {
    if s.Parking? then s.audited else if Ticketed(s) then Some(s.t.tx) else None
  }

  predicate About(row: AuditRow, tx: TxId) {
    row.source.FromExecutor? && row.source.about == tx
  }

  predicate NoRequest(w: World, tx: TxId) {
    forall k :: 0 <= k < |w.requests| ==> w.requests[k].origin != Approval(tx)
  }

  predicate NoFiling(w: World, tx: TxId) {
    forall k :: 0 <= k < |w.log| ==> !About(w.log[k], tx)
  }

  predicate From(row: AuditRow, i: nat) {
    row.source.FromCheck? && row.source.session == i
  }

  predicate NoEntry(w: World, i: nat) {
    forall k :: 0 <= k < |w.log| ==> !From(w.log[k], i)
  }

  predicate NotYetLogged(s: Session) {
    s.Arrived? || s.Judging? || s.Stamping? || s.Recording?
  }

  // The call an audit row describes.
  function Recorded(e: Entry): Captured {
    Captured(e.caller, e.onBehalfOf, e.roles, e.tool, e.args)
  }

  // `row` is the audit row of the attempt that was parked as `tx`.
  predicate Links(row: AuditRow, tx: TxId, c: Captured, before: nat) {
    && row.tx == tx && row.at < before
    && row.source.FromCheck? && row.entry.rpc == TOOLS_CALL && row.entry.ruling == Ruled(NeedsApproval)
    && c == Recorded(row.entry)
  }

  predicate Linked(log: AuditRows, tx: TxId, c: Captured, before: nat) {
    exists k :: 0 <= k < |log| && Links(log[k], tx, c, before)
  }

  predicate OwnedAt(w: World, c: Captured, t: nat) {
    t <= w.Now() && IdArg(c.args).Some? && Edge(c.onBehalfOf, IdArg(c.args).value) in w.MomentAt(t).edges
  }

  // Ownership was found at some instant after the click.
  ghost predicate Vetted(cfg: Config, w: World, c: Captured, clickAt: nat) {
    cfg.ownership ==> exists t :: clickAt < t < w.Now() && OwnedAt(w, c, t)
  }

  // What the graph answered at instant `t`, if it answered.
  function GraphAt(cfg: Config, w: World, t: nat, answered: bool): Graph {
    if !cfg.ownership then NotConfigured else if answered then Owners(w.MomentAt(t).edges) else Unreachable
  }

  // Installation `n` is the one the engine had at instant `t`.
  predicate InstalledAt(w: World, n: nat, t: nat) {
    && n < |w.installs| && t < w.Now()
    && forall m :: 0 <= m < |w.installs| ==> (m <= n <==> w.installs[m].at <= t)
  }

  predicate StampOk(w: World, version: string, s: Stamp) {
    InstalledAt(w, s.inst, s.at) && version == w.installs[s.inst].version
  }

  // `v` is what the policies the engine had and what the graph answered decide for the call, each
  // at the instant `j` names.
  predicate Judged(cfg: Config, w: World, j: Judgment, c: Captured, v: Decision) {
    && InstalledAt(w, j.inst, j.takenAt) && j.takenAt < j.at < w.Now()
    && Judge(w.installs[j.inst].policies, c.onBehalfOf, c.roles, c.tool, c.args, GraphAt(cfg, w, j.at, j.answered)) == v
  }

  predicate Succeeds(q: ToolRequest, tx: TxId, result: string) {
    q.origin == Approval(tx) && q.delivery.Some? && q.delivery.value.reply == ToolOk(result)
  }

  // A request went out for the transaction.
  predicate Sent(w: World, tx: TxId) {
    exists k :: 0 <= k < |w.requests| && w.requests[k].origin == Approval(tx)
  }

  // The backend answered the transaction's request with this kind of reply.
  predicate Replied(w: World, tx: TxId, success: bool) {
    exists k :: 0 <= k < |w.requests| && RepliedTo(w.requests[k], tx, success)
  }

  predicate RepliedTo(q: ToolRequest, tx: TxId, success: bool) {
    && q.origin == Approval(tx) && q.delivery.Some?
    && if success then q.delivery.value.reply.ToolOk? else q.delivery.value.reply.ToolError?
  }

  predicate Succeeded(w: World, tx: TxId, result: string) {
    exists k :: 0 <= k < |w.requests| && Succeeds(w.requests[k], tx, result)
  }

  predicate Erases(q: ToolRequest, id: string) {
    q.tool == DELETE_RECORD && IdArg(q.args) == Some(id) && q.delivery.Some? && q.delivery.value.reply.ToolOk?
  }

  // A deleting handler has found record `id`.
  predicate Finds(q: ToolRequest, id: string) {
    q.tool == DELETE_RECORD && IdArg(q.args) == Some(id) && q.found.Some?
  }

  predicate Erased(w: World, id: string) {
    exists k :: 0 <= k < |w.requests| && Erases(w.requests[k], id)
  }

  // Only a destructive call is parked, and with ownership checks on only one that names a record.
  predicate Parkable(cfg: Config, tool: string, args: Object) {
    Destructive(tool) && (cfg.ownership ==> IdArg(args).Some? && IdArg(args).value != "")
  }

  predicate VerdictOk(cfg: Config, call: Call, v: Decision) {
    && (v.Allow? ==> !Destroys(call))
    && (v.NeedsApproval? ==> call.rpc == TOOLS_CALL && Parkable(cfg, call.tool, call.args))
  }

  predicate Agrees(state: State, ruling: Ruling) {
    match state
    case Executed => ruling.ExecutedAfterApproval?
    case Failed => ruling.ExecuteFailed? || ruling == Ruled(Deny)
    case Denied => ruling.DeniedByHuman?
    case _ => false
  }

  // The two ways the re-check can refuse, as stored in the row.
  predicate Refusal(result: string) {
    result == RELOAD_FAILED || result == RECHECK_DENIED
  }

  // The failures stored once the MCP session was open. A tool error is the backend's answer; a failed
  // call may have gone out or not. A refusal or a failed connection comes before.
  predicate AfterConnecting(result: string) {
    result == CALL_FAILED || result == TOOL_ERROR
  }

  lemma DistinctTexts()
    ensures !AfterConnecting(RELOAD_FAILED) && !AfterConnecting(RECHECK_DENIED) && !AfterConnecting(CONNECT_FAILED)
    ensures CALL_FAILED != TOOL_ERROR
  {
    assert CALL_FAILED[0] != RELOAD_FAILED[0] && CALL_FAILED[0] != RECHECK_DENIED[0] && CALL_FAILED[0] != CONNECT_FAILED[0];
    assert TOOL_ERROR[0] != RELOAD_FAILED[0] && TOOL_ERROR[0] != RECHECK_DENIED[0] && TOOL_ERROR[0] != CONNECT_FAILED[0];
    assert CALL_FAILED[0] != TOOL_ERROR[0];
  }

  // A session whose call has gone out, or may have.
  predicate Called(s: Session) {
    s.Waiting? || (s.Closing? && (s.final.Executed? || (s.final.Failed? && AfterConnecting(s.result))))
  }

  // An audit row that reports an execution is backed by the backend's answer.
  predicate Backed(w: World, tx: TxId, ruling: Ruling) {
    ruling.ExecutedAfterApproval? ==> Replied(w, tx, true)
  }

  predicate JudgedSince(cfg: Config, w: World, judgment: Option<Judgment>, c: Captured, v: Decision, since: nat) {
    judgment.Some? && since < judgment.value.takenAt && Judged(cfg, w, judgment.value, c, v)
  }

  // Here and below, a conjunction named `ok` is taken as a whole by the verifier, not clause by clause.

  // What stands behind an executor's ruling: a deny was judged so, unless the reload failed; an
  // attempted execution was judged needs_approval.
  predicate Sanctioned(cfg: Config, w: World, ruling: Ruling, c: Captured, judgment: Option<Judgment>, clickAt: nat) {
    var ok :=
      match ruling
      case DeniedByHuman => judgment.None?
      case Ruled(d) => d.Deny? && (judgment.Some? ==> JudgedSince(cfg, w, judgment, c, Deny, clickAt))
      case _ => JudgedSince(cfg, w, judgment, c, NeedsApproval, clickAt);
    ok
  }

  // What stands behind a Check's verdict.
  predicate Grounded(cfg: Config, w: World, rpc: string, c: Captured, judgment: Option<Judgment>, v: Decision, since: nat) {
    var ok :=
      if rpc == TOOLS_CALL then JudgedSince(cfg, w, judgment, c, v, since) else judgment.None? && v.Allow?;
    ok
  }

  // The stamp was taken later, by the instant `since` at the earliest.
  predicate StampedAfter(judgment: Option<Judgment>, s: Stamp, since: nat) {
    since < s.at && (judgment.Some? ==> judgment.value.at < s.at)
  }

  // ---- The invariant -----------------------------------------------------

  predicate HeldRow(w: World, t: Ticket) {
    var ok :=
      && t.tx in w.rows
      && w.rows[t.tx].state == (if t.approve then Approved else Denied)
      && w.rows[t.tx].decidedBy == Some(t.decider)
      && w.rows[t.tx].decidedAt == Some(t.clickAt)
      && w.rows[t.tx].result.None?
      && t.clickAt < w.Now();
    ok
  }

  ghost predicate CheckOk(cfg: Config, w: World, s: Session, since: nat)
    requires InCheck(s) || s.Answered?
  {
    var ok :=
      match s
      case Arrived(_, _) => true
      case Judging(_, call, inst, takenAt) => call.rpc == TOOLS_CALL && InstalledAt(w, inst, takenAt) && since < takenAt
      case Stamping(id, call, v, judgment) =>
        VerdictOk(cfg, call, v) && Grounded(cfg, w, call.rpc, Capture(id, call), judgment, v, since)
      case Recording(id, call, v, judgment, version, stamp) =>
        && VerdictOk(cfg, call, v) && Grounded(cfg, w, call.rpc, Capture(id, call), judgment, v, since)
        && StampOk(w, version, stamp) && StampedAfter(judgment, stamp, since)
      case Parking(c, call, audited) =>
        && Parkable(cfg, c.tool, c.args)
        && (audited.Some? ==>
              && audited.value !in w.rows
              && Linked(w.log, audited.value, c, w.Now())
              && NoRequest(w, audited.value) && NoFiling(w, audited.value))
      case Forwarding(call) => !Destructive(call.tool)
      case Answered(_, call, answer) =>
        (answer.Allowed? ==> !Destroys(call)) && (answer.PendingApproval? ==> answer.tx in w.rows);
    ok
  }

  ghost predicate ClickOk(cfg: Config, w: World, s: Session) {
    var ok :=
      && Ticketed(s)
      && NoFiling(w, s.t.tx) && s.t.clickAt < w.Now()
      && s.t.tx in w.rows && w.rows[s.t.tx].decidedAt == Some(s.t.clickAt)
      && !w.rows[s.t.tx].state.Pending? && (w.rows[s.t.tx].state.Denied? <==> !s.t.approve)
      && (!s.Fetching? ==> w.rows[s.t.tx].call == s.c)
      && (Holding(s) ==> HeldRow(w, s.t))
      && (Holding(s) && !Called(s) ==> NoRequest(w, s.t.tx))
      && (s.Closing? || s.Noting? || s.Filing? ==>
            && Sanctioned(cfg, w, s.ruling, s.c, s.judgment, s.t.clickAt) && Backed(w, s.t.tx, s.ruling)
            && (s.ruling.DeniedByHuman? <==> !s.t.approve))
      && (!s.Fetching? && !s.Closing? && !s.Noting? && !s.Filing? ==> s.t.approve)
      && match s
         case Fetching(t) => true
         case Reading(t, c) => true
         case Swapping(t, c, text, readAt, floor) =>
           && cfg.reader.parse(text).Some? && t.clickAt < readAt < w.Now() && w.MomentAt(readAt).disk == text
           && floor <= readAt
         case Snapping(t, c, readAt, floor) => t.clickAt < readAt < w.Now() && floor <= readAt
         case Rejudging(t, c, readAt, floor, inst, takenAt) =>
           t.clickAt < readAt < takenAt && floor <= readAt && InstalledAt(w, inst, takenAt)
         case Connecting(t, c, j) => JudgedSince(cfg, w, Some(j), c, NeedsApproval, t.clickAt)
         case Calling(t, c, j) => JudgedSince(cfg, w, Some(j), c, NeedsApproval, t.clickAt)
         case Waiting(t, c, j, k) =>
           && k < |w.requests| && w.requests[k].origin == Approval(t.tx)
           && JudgedSince(cfg, w, Some(j), c, NeedsApproval, t.clickAt)
         case Closing(t, c, final, result, ruling, judgment) =>
           && Agrees(final, ruling)
           && (if t.approve then final.Executed? || final.Failed? else final.Denied?)
           && (final.Executed? ==> Succeeded(w, t.tx, result))
           && (ruling.Ruled? ==> Refusal(result)) && (ruling.ExecuteFailed? ==> result == CONNECT_FAILED || AfterConnecting(result))
           && (final.Failed? && result == TOOL_ERROR ==> Replied(w, t.tx, false))
         case Noting(t, c, ruling, judgment) => true
         case Filing(t, c, ruling, judgment, version, stamp) =>
           StampOk(w, version, stamp) && StampedAfter(judgment, stamp, t.clickAt);
    ok
  }

  ghost predicate SessionOk(cfg: Config, w: World, i: nat) {
    var ok := i < |w.sessions| &&
      var s := w.sessions[i];
      && i < |w.began| && w.began[i] < w.Now()
      && (NotYetLogged(s) ==> forall k :: 0 <= k < |w.log| ==> !From(w.log[k], i))
      && StandOk(cfg, w, s, w.began[i]);
    ok
  }

  // What a session that began at `since` and has come to `s` rests on.
  ghost predicate StandOk(cfg: Config, w: World, s: Session, since: nat) {
    var ok :=
      if InCheck(s) || s.Answered? then CheckOk(cfg, w, s, since) else Ticketed(s) ==> ClickOk(cfg, w, s);
    ok
  }

  // What holds of the session a step runs.
  ghost predicate ActingOk(cfg: Config, w: World, e: Event) {
    e.Run? ==> SessionOk(cfg, w, e.actor)
  }

  predicate RowShape(r: Row) {
    && (r.state.Pending? <==> r.decidedBy.None?) && (r.decidedBy.None? <==> r.decidedAt.None?)
    && (r.state.Pending? || r.state.Approved? ==> r.result.None?)
    && (r.state.Executed? || r.state.Failed? ==> r.result.Some?)
  }

  ghost predicate RowOk(cfg: Config, w: World, tx: TxId) {
    var ok := tx in w.rows &&
      var r := w.rows[tx];
      && r.tx == tx && RowShape(r)
      && Parkable(cfg, r.call.tool, r.call.args)
      && Linked(w.log, tx, r.call, r.createdAt)
      && r.createdAt < w.Now()
      && (r.decidedAt.Some? ==> r.createdAt < r.decidedAt.value < w.Now())
      && (r.state.Executed? ==> Succeeded(w, tx, r.result.value))
      && (r.state.Failed? ==> Refusal(r.result.value) || ToolTried(cfg, w, r));
    ok
  }

  // The row reports a failed execution, of a call that had been vetted.
  ghost predicate ToolTried(cfg: Config, w: World, r: Row) {
    && r.decidedAt.Some? && Vetted(cfg, w, r.call, r.decidedAt.value)
    && (r.result == Some(CONNECT_FAILED) || (r.result.Some? && AfterConnecting(r.result.value)))
    && (r.result == Some(TOOL_ERROR) ==> Replied(w, r.tx, false))
  }

  predicate RequestOk(cfg: Config, w: World, k: nat) {
    var ok := k < |w.requests| &&
      var q := w.requests[k];
      && q.sentAt < w.Now()
      && (q.found.Some? ==> q.sentAt < q.found.value < w.Now() && Finds(q, StrAt(q.args, "id")))
      && (q.delivery.Some? ==> q.sentAt < q.delivery.value.at < w.Now())
      && (q.found.Some? && q.delivery.Some? ==>
            q.found.value < q.delivery.value.at && q.delivery.value.reply == Confirmation(StrAt(q.args, "id")))
      && (q.tool == DELETE_RECORD && q.delivery.Some? && q.delivery.value.reply.ToolOk? ==> q.found.Some?)
      && match q.origin
         case Gateway(_) => !Destructive(q.tool)
         case Approval(tx) =>
           && tx in w.rows
           && (w.rows[tx].state.Approved? || w.rows[tx].state.Executed? || w.rows[tx].state.Failed?)
           && w.rows[tx].call.tool == q.tool && w.rows[tx].call.args == q.args
           && w.rows[tx].decidedAt.Some? && w.rows[tx].decidedAt.value < q.ownerAt < q.sentAt
           && (cfg.ownership ==> OwnedAt(w, w.rows[tx].call, q.ownerAt));
    ok
  }

  ghost predicate EntryOk(cfg: Config, w: World, k: nat) {
    var ok := k < |w.log| &&
      var row := w.log[k];
      && row.at < w.Now()
      && match row.source
         case FromCheck(i, judgment, stamp) =>
           && i < |w.sessions| && i < |w.began|
           && row.entry.ruling.Ruled?
           && VerdictOk(cfg, Call(row.entry.rpc, row.entry.tool, row.entry.args), row.entry.ruling.decision)
           && Grounded(cfg, w, row.entry.rpc, Recorded(row.entry), judgment, row.entry.ruling.decision, w.began[i])
           && StampOk(w, row.entry.version, stamp) && StampedAfter(judgment, stamp, w.began[i]) && stamp.at < row.at
         case FromExecutor(about, judgment, stamp) =>
           && about in w.rows && w.rows[about].decidedAt.Some? && !w.rows[about].state.Pending?
           && (row.entry.ruling.DeniedByHuman? <==> w.rows[about].state.Denied?)
           && Recorded(row.entry) == w.rows[about].call && Backed(w, about, row.entry.ruling)
           && NamesRuling(row.entry.ruling, row.entry.rpc)
           && Sanctioned(cfg, w, row.entry.ruling, w.rows[about].call, judgment, w.rows[about].decidedAt.value)
           && StampOk(w, row.entry.version, stamp)
           && StampedAfter(judgment, stamp, w.rows[about].decidedAt.value) && stamp.at < row.at;
    ok
  }

  predicate InstallOk(cfg: Config, w: World, n: nat) {
    n < |w.installs| &&
    var inst := w.installs[n];
    && inst.readAt <= inst.at <= w.Now() && w.MomentAt(inst.readAt).disk == inst.text
    && cfg.reader.parse(inst.text) == Some(inst.policies)
    && inst.version == VersionOf(cfg.reader, inst.text)
  }

  predicate UniqueClaims(sessions: seq<Session>) {
    forall i, j :: 0 <= i < j < |sessions| && Claim(sessions[i]).Some? ==> Claim(sessions[i]) != Claim(sessions[j])
  }

  predicate UniqueRequests(requests: seq<ToolRequest>) {
    forall k, l :: 0 <= k < l < |requests| && requests[k].origin.Approval? ==> requests[k].origin != requests[l].origin
  }

  predicate UniqueIds(log: AuditRows) {
    forall k, l :: 0 <= k < l < |log| ==> log[k].tx != log[l].tx
  }

  predicate UniqueFilings(log: AuditRows) {
    forall k, l :: 0 <= k < l < |log| && log[k].source.FromExecutor? ==> !About(log[l], log[k].source.about)
  }

  predicate UniqueEntries(log: AuditRows) {
    forall k, l :: 0 <= k < l < |log| && log[k].source.FromCheck? ==> !From(log[l], log[k].source.session)
  }

  // Two handlers delete the same record only if both had found it before either deleted it.
  ghost predicate FoundInTime(requests: seq<ToolRequest>) {
    forall k, l, id :: 0 <= k < |requests| && 0 <= l < |requests| && Erases(requests[k], id) && Finds(requests[l], id)
      ==> requests[l].found.value < requests[k].delivery.value.at
  }

  predicate RecordOk(cfg: Config, w: World, id: string) {
    && (id in w.records ==> id in cfg.seed && w.records[id] == cfg.seed[id])
    && (id in cfg.seed ==> (id !in w.records <==> Erased(w, id)))
  }

  ghost predicate Inv(cfg: Config, w: World) {
    var ok :=
      && |w.installs| > 0 && |w.began| == |w.sessions|
      && (forall i :: 0 <= i < |w.sessions| ==> SessionOk(cfg, w, i))
      && (forall tx :: tx in w.rows ==> RowOk(cfg, w, tx))
      && (forall k :: 0 <= k < |w.requests| ==> RequestOk(cfg, w, k))
      && (forall k :: 0 <= k < |w.log| ==> EntryOk(cfg, w, k))
      && (forall n :: 0 <= n < |w.installs| ==> InstallOk(cfg, w, n))
      && UniqueClaims(w.sessions) && UniqueRequests(w.requests) && UniqueIds(w.log) && UniqueFilings(w.log)
      && UniqueEntries(w.log) && FoundInTime(w.requests)
      && (forall id :: RecordOk(cfg, w, id));
    ok
  }

  lemma InitialInv(cfg: Config, w: World)
    requires Initial(cfg, w)
    ensures Inv(cfg, w)
  {
  }

  // ---- What a step may do to the shared state ----------------------------

  // One step's effect on a row: it is won from pending, or an approved or
  // denied row without a result gets its final state and result.
  predicate RowStep(r: Row, q: Row) {
    var ok :=
      || q == r
      || (r.state.Pending? && (q.state.Approved? || q.state.Denied?) && q.decidedBy.Some? && q.decidedAt.Some?
          && q == r.(state := q.state, decidedBy := q.decidedBy, decidedAt := q.decidedAt))
      || (r.result.None? && q.result.Some? && q == r.(state := q.state, result := q.result)
          && ((r.state.Approved? && (q.state.Executed? || q.state.Failed?)) || (r.state.Denied? && q.state.Denied?)));
    ok
  }

  predicate RowKept(w: World, v: World, tx: TxId) {
    (tx in v.rows <==> tx in w.rows) && (tx in w.rows ==> v.rows[tx] == w.rows[tx])
  }

  predicate RowMoves(w: World, v: World, tx: TxId) {
    tx in w.rows ==> tx in v.rows && RowStep(w.rows[tx], v.rows[tx])
  }

  predicate RowsShaped(w: World) {
    forall tx :: tx in w.rows ==> RowShape(w.rows[tx])
  }

  // Any number of such steps.
  predicate RowEvolves(r: Row, q: Row) {
    var ok :=
      || q == r
      || (r.result.None? && q.tx == r.tx && q.call == r.call && q.createdAt == r.createdAt && !q.state.Pending?
          && q.decidedBy.Some? && q.decidedAt.Some?
          && (r.state.Pending?
              || (q.result.Some? && q.decidedBy == r.decidedBy && q.decidedAt == r.decidedAt
                  && ((r.state.Approved? && (q.state.Executed? || q.state.Failed?)) || (r.state.Denied? && q.state.Denied?)))));
    ok
  }

  predicate SameRequest(q: ToolRequest, p: ToolRequest) {
    && p == q.(found := p.found, delivery := p.delivery)
    && (q.found.Some? ==> p.found == q.found)
    && (q.delivery.Some? ==> p == q)
  }

  // From `w` to `v` history only grows.
  ghost predicate Extends(w: World, v: World) {
    var ok :=
      && w.installs <= v.installs
      && (forall n :: |w.installs| <= n < |v.installs| ==> w.Now() <= v.installs[n].at)
      && w.log <= v.log
      && |w.past| <= |v.past|
      && (forall t :: 0 <= t <= |w.past| ==> v.MomentAt(t) == w.MomentAt(t))
      && |w.sessions| <= |v.sessions| && w.began <= v.began
      && |w.requests| <= |v.requests|
      && (forall k :: 0 <= k < |w.requests| ==> SameRequest(w.requests[k], v.requests[k]))
      && (forall tx :: tx in w.rows ==> tx in v.rows && RowEvolves(w.rows[tx], v.rows[tx]));
    ok
  }

  // Nothing about `tx` changes from `w` to `v`, except that a request sent for it may be delivered.
  predicate Undisturbed(w: World, v: World, tx: TxId) {
    var ok :=
      && RowKept(w, v, tx)
      && (forall k :: |w.requests| <= k < |v.requests| ==> v.requests[k].origin != Approval(tx))
      && (forall k :: |w.log| <= k < |v.log| ==> v.log[k].tx != tx && !About(v.log[k], tx));
    ok
  }

  // `e` is a step of session `i`.
  predicate RunBy(e: Event, i: nat) {
    e.Run? && e.actor == i
  }

  // The one transaction a step acts on, if any.
  function ActsOn(w: World, e: Event): Option<TxId> {
    if !e.Run? || e.actor >= |w.sessions| then None
    else
      var s := w.sessions[e.actor];
      if s.Recording? then Some(e.drawn)
      else if s.Clicking? then (if Winnable(w.rows, s.tx) then Some(s.tx) else None)
      else Claim(s)
  }
}
