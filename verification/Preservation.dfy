// Every step keeps the invariant: a step acts on at most one transaction, which
// no other session claims, and leaves everything else only growing.
module Preservation {
  import opened Wrappers
  import opened Cedar
  import opened Identity
  import opened Policy
  import opened Store
  import opened Audit
  import opened ToyServer
  import opened Protocol
  import opened Invariant

  // ---- The guarantee of one step -----------------------------------------

  lemma NextTicks(cfg: Config, w: World, e: Event)
    requires Enabled(cfg, w, e)
    ensures Next(cfg, w, e).past == w.past + [Moment(w.disk, w.edges)]
    ensures forall t :: 0 <= t <= |w.past| ==> Next(cfg, w, e).MomentAt(t) == w.MomentAt(t)
    ensures
      var v := Next(cfg, w, e);
      w.installs <= v.installs && forall n :: |w.installs| <= n < |v.installs| ==> w.Now() <= v.installs[n].at
  {
  }

  lemma NextRequests(cfg: Config, w: World, e: Event)
    requires Enabled(cfg, w, e)
    ensures
      var v := Next(cfg, w, e);
      && |w.requests| <= |v.requests|
      && (forall k :: 0 <= k < |w.requests| ==> SameRequest(w.requests[k], v.requests[k]))
      && (forall k, tx: TxId :: |w.requests| <= k < |v.requests| && v.requests[k].origin == Approval(tx) ==> ActsOn(w, e) == Some(tx))
  {
  }

  // Apart from the handlers' steps, requests are only added, unanswered.
  lemma NextSends(cfg: Config, w: World, e: Event)
    requires Enabled(cfg, w, e) && !e.Handle? && !e.Erase?
    ensures
      var v := Next(cfg, w, e);
      && v.records == w.records && w.requests <= v.requests && |v.requests| <= |w.requests| + 1
      && (|v.requests| > |w.requests| ==> e.Run? && v.requests[|w.requests|].found.None? && v.requests[|w.requests|].delivery.None?)
  {
  }

  // Sessions stay where they are, but for the acting one and a new one.
  lemma NextSessions(cfg: Config, w: World, e: Event)
    requires Enabled(cfg, w, e) && |w.began| == |w.sessions|
    ensures
      var v := Next(cfg, w, e);
      && |w.sessions| <= |v.sessions| == |v.began| && w.began <= v.began
      && (forall i :: 0 <= i < |w.sessions| && !RunBy(e, i) ==> v.sessions[i] == w.sessions[i])
      && (|v.sessions| > |w.sessions| ==> e.Begin? && v == Next(cfg, w, Begin(e.session)) && |v.sessions| == |w.sessions| + 1)
  {
  }

  lemma ShapedRows(cfg: Config, w: World)
    requires Inv(cfg, w)
    ensures RowsShaped(w)
  {
    forall tx | tx in w.rows ensures RowShape(w.rows[tx]) { assert RowOk(cfg, w, tx); }
  }

  lemma NextLogFootprint(cfg: Config, w: World, e: Event, tx: TxId)
    requires Enabled(cfg, w, e) && ActsOn(w, e) != Some(tx) && !Fresh(w.log, tx)
    ensures
      var v := Next(cfg, w, e);
      forall k :: |w.log| <= k < |v.log| ==> v.log[k].tx != tx && !About(v.log[k], tx)
  {
    NewEntries(cfg, w, e);
  }

  lemma ClickRows(cfg: Config, w: World, s: Session, o: Outcome, drawn: TxId, tx: TxId)
    requires !InCheck(s) && !Over(s) && (s.Clicking? || ClickOk(cfg, w, s)) && RowsShaped(w)
    ensures
      var v := ClickStep(cfg, w, s, o, drawn).0;
      RowMoves(w, v, tx) && (Claim(s) == Some(tx) || (s.Clicking? && Winnable(w.rows, tx)) || RowKept(w, v, tx))
  {
  }

  lemma RunRows(cfg: Config, w: World, i: nat, o: Outcome, drawn: TxId, tx: TxId)
    requires Enabled(cfg, w, Run(i, o, drawn)) && SessionOk(cfg, w, i) && RowsShaped(w)
    ensures
      var v, e := Next(cfg, w, Run(i, o, drawn)), Run(i, o, drawn);
      (ActsOn(w, e) != Some(tx) ==> RowKept(w, v, tx)) && RowMoves(w, v, tx)
  {
    if !InCheck(w.sessions[i]) { ClickRows(cfg, w, w.sessions[i], o, drawn, tx); }
  }

  lemma NextRows(cfg: Config, w: World, e: Event, tx: TxId)
    requires Inv(cfg, w) && Enabled(cfg, w, e)
    ensures
      var v := Next(cfg, w, e);
      (ActsOn(w, e) != Some(tx) ==> RowKept(w, v, tx)) && RowMoves(w, v, tx)
  {
    if e.Run? {
      assert SessionOk(cfg, w, e.actor);
      ShapedRows(cfg, w);
      RunRows(cfg, w, e.actor, e.outcome, e.drawn, tx);
    }
  }

  lemma NextExtends(cfg: Config, w: World, e: Event)
    requires Inv(cfg, w) && Enabled(cfg, w, e)
    ensures Extends(w, Next(cfg, w, e))
  {
    var v := Next(cfg, w, e);
    NextTicks(cfg, w, e);
    NextRequests(cfg, w, e);
    NewEntries(cfg, w, e);
    NextSessions(cfg, w, e);
    forall tx | tx in w.rows ensures tx in v.rows && RowEvolves(w.rows[tx], v.rows[tx]) {
      assert RowOk(cfg, w, tx);
      NextRows(cfg, w, e, tx);
    }
  }

  lemma NextUndisturbed(cfg: Config, w: World, e: Event, tx: TxId)
    requires Inv(cfg, w) && Enabled(cfg, w, e) && ActsOn(w, e) != Some(tx)
    requires tx in w.rows || !Fresh(w.log, tx)
    ensures Undisturbed(w, Next(cfg, w, e), tx)
  {
    ParkedIsLogged(cfg, w, tx);
    NextRequests(cfg, w, e);
    NextRows(cfg, w, e, tx);
    NextLogFootprint(cfg, w, e, tx);
  }

  lemma ParkedIsLogged(cfg: Config, w: World, tx: TxId)
    requires Inv(cfg, w)
    ensures tx in w.rows ==> !Fresh(w.log, tx)
  {
    if tx in w.rows { assert RowOk(cfg, w, tx); }
  }

  // A claimed transaction has an audit row, so its id is never drawn again.
  lemma ClaimedIsLogged(cfg: Config, w: World, j: nat)
    requires Inv(cfg, w) && j < |w.sessions| && Claim(w.sessions[j]).Some?
    ensures !Fresh(w.log, Claim(w.sessions[j]).value)
  {
    assert SessionOk(cfg, w, j);
    var tx := Claim(w.sessions[j]).value;
    ParkedIsLogged(cfg, w, tx);
  }

  // No step acts on what another session claims.
  lemma ClaimsAreExclusive(cfg: Config, w: World, e: Event, j: nat)
    requires Inv(cfg, w) && Enabled(cfg, w, e)
    requires j < |w.sessions| && !RunBy(e, j) && Claim(w.sessions[j]).Some?
    ensures ActsOn(w, e) != Claim(w.sessions[j])
  {
    ClaimedIsLogged(cfg, w, j);
    assert SessionOk(cfg, w, j);
    if e.Run? {
      assert SessionOk(cfg, w, e.actor);
    }
  }

  // ---- What a step leaves intact ------------------------------------------

  lemma SucceededStays(w: World, v: World, tx: TxId, result: string)
    requires Extends(w, v) && Succeeded(w, tx, result)
    ensures Succeeded(v, tx, result)
  {
    var k :| 0 <= k < |w.requests| && Succeeds(w.requests[k], tx, result);
    assert SameRequest(w.requests[k], v.requests[k]);
    assert Succeeds(v.requests[k], tx, result);
  }

  lemma SentStays(w: World, v: World, tx: TxId)
    requires Extends(w, v)
    ensures Sent(w, tx) ==> Sent(v, tx)
    ensures Replied(w, tx, true) ==> Replied(v, tx, true)
    ensures Replied(w, tx, false) ==> Replied(v, tx, false)
  {
    forall k | 0 <= k < |w.requests| ensures SameRequest(w.requests[k], v.requests[k]) {}
    if Sent(w, tx) {
      var k :| 0 <= k < |w.requests| && w.requests[k].origin == Approval(tx);
      assert v.requests[k].origin == Approval(tx);
    }
    if Replied(w, tx, true) {
      var k :| 0 <= k < |w.requests| && RepliedTo(w.requests[k], tx, true);
      assert RepliedTo(v.requests[k], tx, true);
    }
    if Replied(w, tx, false) {
      var k :| 0 <= k < |w.requests| && RepliedTo(w.requests[k], tx, false);
      assert RepliedTo(v.requests[k], tx, false);
    }
  }

  lemma InstalledStays(w: World, v: World, n: nat, t: nat)
    requires Extends(w, v) && InstalledAt(w, n, t)
    ensures InstalledAt(v, n, t) && v.installs[n] == w.installs[n]
  {
    forall m | 0 <= m < |v.installs| ensures m <= n <==> v.installs[m].at <= t {
      if m < |w.installs| { assert v.installs[m] == w.installs[m]; }
    }
  }

  lemma JudgedStays(cfg: Config, w: World, v: World, j: Judgment, c: Captured, d: Decision)
    requires Extends(w, v) && Judged(cfg, w, j, c, d)
    ensures Judged(cfg, v, j, c, d)
  {
    InstalledStays(w, v, j.inst, j.takenAt);
    assert GraphAt(cfg, v, j.at, j.answered) == GraphAt(cfg, w, j.at, j.answered);
  }

  lemma StampStays(w: World, v: World, version: string, s: Stamp)
    requires Extends(w, v) && StampOk(w, version, s)
    ensures StampOk(v, version, s)
  {
    InstalledStays(w, v, s.inst, s.at);
  }

  lemma GroundedStays(cfg: Config, w: World, v: World, rpc: string, c: Captured, judgment: Option<Judgment>, d: Decision, since: nat)
    requires Extends(w, v) && Grounded(cfg, w, rpc, c, judgment, d, since)
    ensures Grounded(cfg, v, rpc, c, judgment, d, since)
  {
    if rpc == TOOLS_CALL { JudgedStays(cfg, w, v, judgment.value, c, d); }
  }

  lemma SanctionedStays(cfg: Config, w: World, v: World, ruling: Ruling, c: Captured, judgment: Option<Judgment>, clickAt: nat)
    requires Extends(w, v) && Sanctioned(cfg, w, ruling, c, judgment, clickAt)
    ensures Sanctioned(cfg, v, ruling, c, judgment, clickAt)
  {
    if judgment.Some? { JudgedStays(cfg, w, v, judgment.value, c, if ruling.Ruled? then Deny else NeedsApproval); }
  }

  // A needs_approval judgment found the owner.
  lemma JudgedOwner(cfg: Config, w: World, judgment: Option<Judgment>, c: Captured, since: nat)
    requires JudgedSince(cfg, w, judgment, c, NeedsApproval, since)
    ensures Vetted(cfg, w, c, since) && (cfg.ownership ==> OwnedAt(w, c, judgment.value.at))
  {
    if cfg.ownership { assert OwnedAt(w, c, judgment.value.at); }
  }

  lemma NothingNewStays(w: World, v: World, tx: TxId)
    requires Extends(w, v) && Undisturbed(w, v, tx)
    ensures NoRequest(w, tx) ==> NoRequest(v, tx)
    ensures NoFiling(w, tx) ==> NoFiling(v, tx)
  {
    forall k | 0 <= k < |w.requests| ensures v.requests[k].origin == w.requests[k].origin {
      assert SameRequest(w.requests[k], v.requests[k]);
    }
  }

  lemma StandStays(cfg: Config, w: World, v: World, s: Session, since: nat)
    requires Extends(w, v) && StandOk(cfg, w, s, since) && forall tx :: Claim(s) == Some(tx) ==> Undisturbed(w, v, tx)
    ensures StandOk(cfg, v, s, since)
  {
    if s.Judging? { InstalledStays(w, v, s.inst, s.takenAt); }
    else if s.Stamping? || s.Recording? {
      GroundedStays(cfg, w, v, s.call.rpc, Capture(s.id, s.call), s.judgment, s.verdict, since);
      if s.Recording? { StampStays(w, v, s.version, s.stamp); }
    } else if s.Parking? && s.audited.Some? {
      NothingNewStays(w, v, s.audited.value);
    } else if Ticketed(s) {
      ClickStays(cfg, w, v, s);
    }
  }

  lemma ClickStays(cfg: Config, w: World, v: World, s: Session)
    requires Extends(w, v) && Ticketed(s) && Undisturbed(w, v, s.t.tx) && ClickOk(cfg, w, s)
    ensures ClickOk(cfg, v, s)
  {
    NothingNewStays(w, v, s.t.tx);
    SentStays(w, v, s.t.tx);
    if s.Rejudging? { InstalledStays(w, v, s.inst, s.takenAt); }
    if s.Connecting? || s.Calling? || s.Waiting? { JudgedStays(cfg, w, v, s.passed, s.c, NeedsApproval); }
    if s.Waiting? { assert SameRequest(w.requests[s.request], v.requests[s.request]); }
    if s.Closing? || s.Noting? || s.Filing? { SanctionedStays(cfg, w, v, s.ruling, s.c, s.judgment, s.t.clickAt); }
    if s.Closing? && s.final.Executed? { SucceededStays(w, v, s.t.tx, s.result); }
    if s.Filing? { StampStays(w, v, s.version, s.stamp); }
  }

  lemma RowStays(cfg: Config, w: World, v: World, tx: TxId)
    requires tx in w.rows && tx in v.rows && v.rows[tx] == w.rows[tx]
    requires Extends(w, v) && RowOk(cfg, w, tx)
    ensures RowOk(cfg, v, tx)
  {
    var r := w.rows[tx];
    if r.state.Executed? { SucceededStays(w, v, tx, r.result.value); }
    if ToolTried(cfg, w, r) { TriedStays(cfg, w, v, r); }
  }

  lemma TriedStays(cfg: Config, w: World, v: World, r: Row)
    requires Extends(w, v) && ToolTried(cfg, w, r)
    ensures ToolTried(cfg, v, r)
  {
    if cfg.ownership {
      var t :| r.decidedAt.value < t < w.Now() && OwnedAt(w, r.call, t);
      assert OwnedAt(v, r.call, t);
    }
    SentStays(w, v, r.tx);
  }

  lemma EntryStays(cfg: Config, w: World, v: World, k: nat)
    requires k < |w.log| && Extends(w, v) && EntryOk(cfg, w, k)
    requires RowsShaped(w)
    ensures EntryOk(cfg, v, k)
  {
    assert v.log[k] == w.log[k];
    var entry := w.log[k].entry;
    StampStays(w, v, entry.version, w.log[k].source.stamp);
    match w.log[k].source
    case FromCheck(i, judgment, _) =>
      assert v.began[i] == w.began[i];
      GroundedStays(cfg, w, v, entry.rpc, Recorded(entry), judgment, entry.ruling.decision, w.began[i]);
    case FromExecutor(tx, judgment, _) =>
      assert RowEvolves(w.rows[tx], v.rows[tx]);
      SanctionedStays(cfg, w, v, entry.ruling, w.rows[tx].call, judgment, w.rows[tx].decidedAt.value);
      SentStays(w, v, tx);
  }

  // ---- What the acting session establishes --------------------------------

  // Engine.Decide never lets a destructive call through and parks only what is parkable.
  lemma JudgeSound(cfg: Config, w: World, o: Outcome, ps: PolicySet, user: string, roles: seq<string>, call: Call)
    requires call.rpc == TOOLS_CALL
    ensures VerdictOk(cfg, call, Judge(ps, user, roles, call.tool, call.args, GraphSeen(cfg, w, o)))
  {
  }

  // A parked call that is not denied again is judged needs_approval again.
  lemma RejudgePasses(cfg: Config, w: World, o: Outcome, ps: PolicySet, c: Captured)
    requires Parkable(cfg, c.tool, c.args)
    requires !Judge(ps, c.onBehalfOf, c.roles, c.tool, c.args, GraphSeen(cfg, w, o)).Deny?
    ensures cfg.ownership ==> OwnedAt(w, c, w.Now())
    ensures Judge(ps, c.onBehalfOf, c.roles, c.tool, c.args, GraphSeen(cfg, w, o)).NeedsApproval?
  {
  }

  // `v` is one instant after `w`, with the same engine, requests, rows and audit log.
  predicate Quiet(w: World, v: World) {
    && v.past == w.past + [Moment(w.disk, w.edges)]
    && v.installs == w.installs && v.requests == w.requests && v.rows == w.rows && v.log == w.log
  }

  // The engine's present installation is the one it has at this instant.
  lemma CurrentInstalled(cfg: Config, w: World, v: World)
    requires |w.installs| > 0 && Quiet(w, v) && forall n :: 0 <= n < |w.installs| ==> InstallOk(cfg, w, n)
    ensures InstalledAt(v, w.Latest(), w.Now())
  {
    forall m | 0 <= m < |w.installs| ensures w.installs[m].at <= w.Now() { assert InstallOk(cfg, w, m); }
  }

  // The id just drawn has only the row just written.
  lemma DrawnIsUnused(cfg: Config, w: World, tx: TxId)
    requires Inv(cfg, w) && Fresh(w.log, tx)
    ensures tx !in w.rows && NoRequest(w, tx) && NoFiling(w, tx)
  {
    ParkedIsLogged(cfg, w, tx);
    forall k | 0 <= k < |w.requests| ensures w.requests[k].origin != Approval(tx) { assert RequestOk(cfg, w, k); }
    forall k | 0 <= k < |w.log| ensures !About(w.log[k], tx) { assert EntryOk(cfg, w, k); }
  }

  // A call audited under a fresh id is ready to be parked.
  lemma RecordOkAfter(cfg: Config, w: World, v: World, id: Identity, call: Call, d: Decision, j: Option<Judgment>, version: string,
                      stamp: Stamp, row: AuditRow, o: Outcome, since: nat)
    requires StandOk(cfg, w, Recording(id, call, d, j, version, stamp), since)
    requires v == Logging(w, row, o).(sessions := v.sessions, past := v.past) && v.Now() == w.Now() + 1
    requires row.source.FromCheck? && row.entry == RecordEntry(id, call, d, version) && row.at == w.Now()
    requires row.tx !in w.rows && NoRequest(w, row.tx) && NoFiling(w, row.tx)
    ensures StandOk(cfg, v, AfterRecord(id, call, d, o, row.tx), since)
  {
    if d.NeedsApproval? && o.Done? { assert Links(v.log[|w.log|], row.tx, Capture(id, call), v.Now()); }
  }

  // What the acting session may rely on.
  ghost predicate ActorReady(cfg: Config, w: World, s: Session, drawn: TxId, since: nat) {
    var ok :=
      && StandOk(cfg, w, s, since) && since < w.Now() && |w.installs| > 0
      && (forall n :: 0 <= n < |w.installs| ==> InstallOk(cfg, w, n))
      && (s.Recording? ==> drawn !in w.rows && NoRequest(w, drawn) && NoFiling(w, drawn))
      && (s.Clicking? && Winnable(w.rows, s.tx) ==> RowOk(cfg, w, s.tx) && NoRequest(w, s.tx) && NoFiling(w, s.tx))
      && (s.Rejudging? ==> RowOk(cfg, w, s.t.tx));
    ok
  }

  // A step that changes `w` into `u` leads to `v`.
  ghost predicate LandsOn(w: World, v: World, u: World) {
    v == u.(sessions := v.sessions, past := w.past + [Moment(w.disk, w.edges)]) && Extends(w, v)
  }

  lemma PendingIsUntouched(cfg: Config, w: World, tx: TxId)
    requires Inv(cfg, w) && Winnable(w.rows, tx)
    ensures RowOk(cfg, w, tx) && NoRequest(w, tx) && NoFiling(w, tx)
  {
    assert RowOk(cfg, w, tx);
    forall k | 0 <= k < |w.requests| ensures w.requests[k].origin != Approval(tx) { assert RequestOk(cfg, w, k); }
    forall k | 0 <= k < |w.log| ensures !About(w.log[k], tx) { assert EntryOk(cfg, w, k); }
  }

  lemma ActorIsReady(cfg: Config, w: World, i: nat, drawn: TxId)
    requires Inv(cfg, w) && i < |w.sessions| && Fresh(w.log, drawn)
    ensures ActorReady(cfg, w, w.sessions[i], drawn, w.began[i])
  {
    var s := w.sessions[i];
    assert SessionOk(cfg, w, i);
    if s.Recording? { DrawnIsUnused(cfg, w, drawn); }
    if s.Clicking? && Winnable(w.rows, s.tx) { PendingIsUntouched(cfg, w, s.tx); }
    if s.Rejudging? { assert RowOk(cfg, w, s.t.tx); }
  }

  lemma CheckActorOk(cfg: Config, w: World, i: nat, s: Session, o: Outcome, drawn: TxId, v: World, since: nat)
    requires InCheck(s) && ActorReady(cfg, w, s, drawn, since) && LandsOn(w, v, CheckStep(cfg, w, i, s, o, drawn).0)
    ensures StandOk(cfg, v, CheckStep(cfg, w, i, s, o, drawn).1, since)
  {
    if s.Judging? {
      InstalledStays(w, v, s.inst, s.takenAt);
      JudgeSound(cfg, w, o, w.installs[s.inst].policies, s.id.onBehalfOf, s.id.roles, s.call);
      assert GraphAt(cfg, v, w.Now(), o.Done?) == GraphSeen(cfg, w, o);
    } else if s.Recording? {
      var row := AuditRow(drawn, w.Now(), RecordEntry(s.id, s.call, s.verdict, s.version), FromCheck(i, s.judgment, s.stamp));
      RecordOkAfter(cfg, w, v, s.id, s.call, s.verdict, s.judgment, s.version, s.stamp, row, o, since);
    } else if s.Arrived? || s.Stamping? {
      CurrentInstalled(cfg, w, v);
      if s.Stamping? { GroundedStays(cfg, w, v, s.call.rpc, Capture(s.id, s.call), s.judgment, s.verdict, since); }
    }
  }

  lemma FetchingOk(cfg: Config, w: World, s: Session, o: Outcome, drawn: TxId, v: World, since: nat)
    requires s.Fetching? && ActorReady(cfg, w, s, drawn, since) && LandsOn(w, v, ClickStep(cfg, w, s, o, drawn).0)
    ensures StandOk(cfg, v, ClickStep(cfg, w, s, o, drawn).1, since)
  {
  }

  lemma ReadingOk(cfg: Config, w: World, s: Session, o: Outcome, drawn: TxId, v: World, since: nat)
    requires s.Reading? && ActorReady(cfg, w, s, drawn, since) && LandsOn(w, v, ClickStep(cfg, w, s, o, drawn).0)
    ensures StandOk(cfg, v, ClickStep(cfg, w, s, o, drawn).1, since)
  {
    DistinctTexts();
  }

  lemma ReloadingOk(cfg: Config, w: World, s: Session, o: Outcome, drawn: TxId, v: World, since: nat)
    requires (s.Swapping? || s.Snapping?) && ActorReady(cfg, w, s, drawn, since) && LandsOn(w, v, ClickStep(cfg, w, s, o, drawn).0)
    ensures StandOk(cfg, v, ClickStep(cfg, w, s, o, drawn).1, since)
  {
    if s.Snapping? { CurrentInstalled(cfg, w, v); }
  }

  lemma RecheckOk(cfg: Config, w: World, v: World, t: Ticket, c: Captured, readAt: nat, floor: nat, inst: nat, takenAt: nat, o: Outcome)
    requires ClickOk(cfg, w, Rejudging(t, c, readAt, floor, inst, takenAt)) && RowOk(cfg, w, t.tx)
    requires Extends(w, v) && Quiet(w, v)
    ensures ClickOk(cfg, v, Recheck(cfg, w, t, c, inst, takenAt, o))
  {
    DistinctTexts();
    InstalledStays(w, v, inst, takenAt);
    var ps := w.installs[inst].policies;
    assert GraphAt(cfg, v, w.Now(), o.Done?) == GraphSeen(cfg, w, o);
    if !Judge(ps, c.onBehalfOf, c.roles, c.tool, c.args, GraphSeen(cfg, w, o)).Deny? { RejudgePasses(cfg, w, o, ps, c); }
  }

  lemma RejudgingOk(cfg: Config, w: World, s: Session, o: Outcome, drawn: TxId, v: World, since: nat)
    requires s.Rejudging? && ActorReady(cfg, w, s, drawn, since) && LandsOn(w, v, ClickStep(cfg, w, s, o, drawn).0)
    ensures StandOk(cfg, v, ClickStep(cfg, w, s, o, drawn).1, since)
  {
    RecheckOk(cfg, w, v, s.t, s.c, s.readAt, s.floor, s.inst, s.takenAt, o);
  }

  lemma ConnectOk(cfg: Config, w: World, v: World, t: Ticket, c: Captured, j: Judgment, o: Outcome)
    requires ClickOk(cfg, w, Connecting(t, c, j)) && Extends(w, v) && Quiet(w, v)
    ensures ClickOk(cfg, v, Connect(t, c, j, o))
  {
    DistinctTexts();
    JudgedStays(cfg, w, v, j, c, NeedsApproval);
  }

  lemma ConnectingOk(cfg: Config, w: World, s: Session, o: Outcome, drawn: TxId, v: World, since: nat)
    requires s.Connecting? && ActorReady(cfg, w, s, drawn, since) && LandsOn(w, v, ClickStep(cfg, w, s, o, drawn).0)
    ensures StandOk(cfg, v, ClickStep(cfg, w, s, o, drawn).1, since)
  {
    ConnectOk(cfg, w, v, s.t, s.c, s.passed, o);
  }

  lemma CallingOk(cfg: Config, w: World, s: Session, o: Outcome, drawn: TxId, v: World, since: nat)
    requires s.Calling? && ActorReady(cfg, w, s, drawn, since) && LandsOn(w, v, ClickStep(cfg, w, s, o, drawn).0)
    ensures StandOk(cfg, v, ClickStep(cfg, w, s, o, drawn).1, since)
  {
    DistinctTexts();
    JudgedStays(cfg, w, v, s.passed, s.c, NeedsApproval);
    if !o.Refused? { assert v.requests[|w.requests|].origin == Approval(s.t.tx); }
  }

  lemma AwaitOk(cfg: Config, w: World, v: World, t: Ticket, c: Captured, j: Judgment, k: nat, o: Outcome)
    requires ClickOk(cfg, w, Waiting(t, c, j, k)) && Extends(w, v) && Quiet(w, v)
    ensures ClickOk(cfg, v, Await(w, t, c, j, k, o))
  {
    DistinctTexts();
    JudgedStays(cfg, w, v, j, c, NeedsApproval);
    var q := v.requests[k];
    if o.Done? && q.delivery.Some? {
      if q.delivery.value.reply.ToolOk? {
        assert Succeeds(q, t.tx, q.delivery.value.reply.text) && RepliedTo(q, t.tx, true);
      } else if q.delivery.value.reply.ToolError? {
        assert RepliedTo(q, t.tx, false);
      }
    }
  }

  lemma WaitingOk(cfg: Config, w: World, s: Session, o: Outcome, drawn: TxId, v: World, since: nat)
    requires s.Waiting? && ActorReady(cfg, w, s, drawn, since) && LandsOn(w, v, ClickStep(cfg, w, s, o, drawn).0)
    ensures StandOk(cfg, v, ClickStep(cfg, w, s, o, drawn).1, since)
  {
    AwaitOk(cfg, w, v, s.t, s.c, s.passed, s.request, o);
  }

  lemma ClosingOk(cfg: Config, w: World, s: Session, o: Outcome, drawn: TxId, v: World, since: nat)
    requires s.Closing? && ActorReady(cfg, w, s, drawn, since) && LandsOn(w, v, ClickStep(cfg, w, s, o, drawn).0)
    ensures StandOk(cfg, v, ClickStep(cfg, w, s, o, drawn).1, since)
  {
    SentStays(w, v, s.t.tx);
    SanctionedStays(cfg, w, v, s.ruling, s.c, s.judgment, s.t.clickAt);
  }

  lemma NotingOk(cfg: Config, w: World, s: Session, o: Outcome, drawn: TxId, v: World, since: nat)
    requires s.Noting? && ActorReady(cfg, w, s, drawn, since) && LandsOn(w, v, ClickStep(cfg, w, s, o, drawn).0)
    ensures StandOk(cfg, v, ClickStep(cfg, w, s, o, drawn).1, since)
  {
    SentStays(w, v, s.t.tx);
    SanctionedStays(cfg, w, v, s.ruling, s.c, s.judgment, s.t.clickAt);
    CurrentInstalled(cfg, w, v);
  }

  lemma ClickActorOk(cfg: Config, w: World, s: Session, o: Outcome, drawn: TxId, v: World, since: nat)
    requires !InCheck(s) && !Over(s) && ActorReady(cfg, w, s, drawn, since) && LandsOn(w, v, ClickStep(cfg, w, s, o, drawn).0)
    ensures StandOk(cfg, v, ClickStep(cfg, w, s, o, drawn).1, since)
  {
    if s.Fetching? { FetchingOk(cfg, w, s, o, drawn, v, since); }
    else if s.Reading? { ReadingOk(cfg, w, s, o, drawn, v, since); }
    else if s.Swapping? || s.Snapping? { ReloadingOk(cfg, w, s, o, drawn, v, since); }
    else if s.Rejudging? { RejudgingOk(cfg, w, s, o, drawn, v, since); }
    else if s.Connecting? { ConnectingOk(cfg, w, s, o, drawn, v, since); }
    else if s.Calling? { CallingOk(cfg, w, s, o, drawn, v, since); }
    else if s.Waiting? { WaitingOk(cfg, w, s, o, drawn, v, since); }
    else if s.Closing? { ClosingOk(cfg, w, s, o, drawn, v, since); }
    else if s.Noting? { NotingOk(cfg, w, s, o, drawn, v, since); }
  }

  lemma NextIsStep(cfg: Config, w: World, i: nat, o: Outcome, drawn: TxId)
    requires Enabled(cfg, w, Run(i, o, drawn))
    ensures
      var v, (u, s) := Next(cfg, w, Run(i, o, drawn)), SessionStep(cfg, w, i, w.sessions[i], o, drawn);
      && v == u.(sessions := w.sessions[i := s], past := w.past + [Moment(w.disk, w.edges)])
      && (NotYetLogged(s) ==> NotYetLogged(w.sessions[i]) && u.log == w.log)
  {
  }

  lemma OtherSessionOk(cfg: Config, w: World, e: Event, i: nat)
    requires Inv(cfg, w) && Enabled(cfg, w, e) && i < |w.sessions| && !RunBy(e, i)
    requires Extends(w, Next(cfg, w, e))
    ensures SessionOk(cfg, Next(cfg, w, e), i)
  {
    assert SessionOk(cfg, w, i);
    if Claim(w.sessions[i]).Some? {
      ClaimedIsLogged(cfg, w, i);
      ClaimsAreExclusive(cfg, w, e, i);
      NextUndisturbed(cfg, w, e, Claim(w.sessions[i]).value);
    }
    NextSessions(cfg, w, e);
    NewEntries(cfg, w, e);
    assert Next(cfg, w, e).began[i] == w.began[i];
    StandStays(cfg, w, Next(cfg, w, e), w.sessions[i], w.began[i]);
  }

  lemma SessionsOk(cfg: Config, w: World, e: Event, i: nat)
    requires Inv(cfg, w) && Enabled(cfg, w, e) && i < |Next(cfg, w, e).sessions| && Extends(w, Next(cfg, w, e))
    ensures SessionOk(cfg, Next(cfg, w, e), i)
  {
    NextSessions(cfg, w, e);
    if i == |w.sessions| {
      forall k | 0 <= k < |w.log| ensures !From(w.log[k], |w.sessions|) { assert EntryOk(cfg, w, k); }
    } else if RunBy(e, i) {
      NextIsStep(cfg, w, i, e.outcome, e.drawn);
      assert SessionOk(cfg, w, i);
      ActorIsReady(cfg, w, i, e.drawn);
      var v, s, since := Next(cfg, w, e), w.sessions[i], w.began[i];
      assert v.began[i] == since && since < v.Now();
      if InCheck(s) { CheckActorOk(cfg, w, i, s, e.outcome, e.drawn, v, since); }
      else { ClickActorOk(cfg, w, s, e.outcome, e.drawn, v, since); }
      assert StandOk(cfg, v, v.sessions[i], since);
    } else {
      OtherSessionOk(cfg, w, e, i);
    }
  }

  // A step writes at most one audit row; a Check row comes from the acting session.
  lemma NewEntries(cfg: Config, w: World, e: Event)
    requires Enabled(cfg, w, e)
    ensures w.log <= Next(cfg, w, e).log
    ensures |Next(cfg, w, e).log| <= |w.log| + 1
    ensures |Next(cfg, w, e).log| > |w.log| ==>
              && e.Run?
              && Next(cfg, w, e).log[|w.log|].tx == e.drawn
              && (w.sessions[e.actor].Recording? || w.sessions[e.actor].Filing?)
              && (if w.sessions[e.actor].Recording? then From(Next(cfg, w, e).log[|w.log|], e.actor)
                  else About(Next(cfg, w, e).log[|w.log|], w.sessions[e.actor].t.tx))
  {
  }

  lemma ParkedRow(cfg: Config, w: World, e: Event, tx: TxId)
    requires Enabled(cfg, w, e) && ActingOk(cfg, w, e)
    requires tx in Next(cfg, w, e).rows && tx !in w.rows
    ensures
      var q := Next(cfg, w, e).rows[tx];
      && q == Row(tx, q.call, Pending, None, None, None, w.Now())
      && Parkable(cfg, q.call.tool, q.call.args) && Linked(w.log, tx, q.call, w.Now())
  {
  }

  lemma WonRow(cfg: Config, w: World, e: Event, tx: TxId)
    requires Enabled(cfg, w, e) && !(e.Run? && w.sessions[e.actor].Closing?)
    requires tx in w.rows && RowOk(cfg, w, tx)
    requires tx in Next(cfg, w, e).rows && Next(cfg, w, e).rows[tx] != w.rows[tx]
    ensures
      var q := Next(cfg, w, e).rows[tx];
      q.decidedAt == Some(w.Now()) && w.rows[tx].createdAt < w.Now() && !q.state.Executed? && !q.state.Failed?
  {
  }

  lemma ClosedRow(cfg: Config, w: World, e: Event, tx: TxId)
    requires Enabled(cfg, w, e) && e.Run? && w.sessions[e.actor].Closing? && SessionOk(cfg, w, e.actor)
    requires tx in w.rows && RowOk(cfg, w, tx)
    requires tx in Next(cfg, w, e).rows && Next(cfg, w, e).rows[tx] != w.rows[tx]
    ensures
      var q := Next(cfg, w, e).rows[tx];
      && q.decidedAt == w.rows[tx].decidedAt && q.decidedAt.Some?
      && (q.state.Executed? ==> q.result.Some? && Succeeded(w, tx, q.result.value))
      && (q.state.Failed? ==> q.result.Some? && (Refusal(q.result.value) || ToolTried(cfg, w, q)))
  {
    var s := w.sessions[e.actor];
    if s.ruling.ExecuteFailed? { JudgedOwner(cfg, w, s.judgment, s.c, s.t.clickAt); }
  }

  lemma RowsOk(cfg: Config, w: World, e: Event, tx: TxId)
    requires Inv(cfg, w) && Enabled(cfg, w, e) && tx in Next(cfg, w, e).rows && Extends(w, Next(cfg, w, e))
    ensures RowOk(cfg, Next(cfg, w, e), tx)
  {
    NextRows(cfg, w, e, tx);
    if e.Run? { assert SessionOk(cfg, w, e.actor); }
    if tx in w.rows { assert RowOk(cfg, w, tx); }
    RowOkAfter(cfg, w, e, tx);
  }

  lemma RowOkAfter(cfg: Config, w: World, e: Event, tx: TxId)
    requires Enabled(cfg, w, e) && tx in Next(cfg, w, e).rows && Extends(w, Next(cfg, w, e))
    requires ActingOk(cfg, w, e)
    requires (tx in w.rows ==> RowOk(cfg, w, tx)) && RowMoves(w, Next(cfg, w, e), tx)
    ensures RowOk(cfg, Next(cfg, w, e), tx)
  {
    NextTicks(cfg, w, e);
    if tx !in w.rows {
      ParkedRow(cfg, w, e, tx);
    } else if Next(cfg, w, e).rows[tx] != w.rows[tx] {
      if w.sessions[e.actor].Closing? { ClosedRow(cfg, w, e, tx); } else { WonRow(cfg, w, e, tx); }
      var r := Next(cfg, w, e).rows[tx];
      if r.state.Executed? { SucceededStays(w, Next(cfg, w, e), tx, r.result.value); }
      if ToolTried(cfg, w, r) { TriedStays(cfg, w, Next(cfg, w, e), r); }
    } else {
      RowStays(cfg, w, Next(cfg, w, e), tx);
    }
  }

  lemma NewRequestOk(cfg: Config, w: World, e: Event, k: nat)
    requires Enabled(cfg, w, e) && |w.requests| <= k < |Next(cfg, w, e).requests|
    requires ActingOk(cfg, w, e)
    ensures RequestOk(cfg, Next(cfg, w, e), k)
  {
    var s := w.sessions[e.actor];
    if s.Calling? {
      NextTicks(cfg, w, e);
      JudgedOwner(cfg, w, Some(s.passed), s.c, s.t.clickAt);
    }
  }

  lemma RequestsOk(cfg: Config, w: World, e: Event, k: nat)
    requires Inv(cfg, w) && Enabled(cfg, w, e) && k < |Next(cfg, w, e).requests| && Extends(w, Next(cfg, w, e))
    ensures RequestOk(cfg, Next(cfg, w, e), k)
  {
    if k >= |w.requests| {
      if e.Run? { assert SessionOk(cfg, w, e.actor); }
      NewRequestOk(cfg, w, e, k);
    } else {
      assert RequestOk(cfg, w, k);
      ShapedRows(cfg, w);
      OldRequestOk(cfg, w, e, k);
    }
  }

  lemma OldRequestOk(cfg: Config, w: World, e: Event, k: nat)
    requires Enabled(cfg, w, e) && k < |w.requests| && RequestOk(cfg, w, k) && Extends(w, Next(cfg, w, e))
    requires RowsShaped(w)
    ensures RequestOk(cfg, Next(cfg, w, e), k)
  {
    if e == Handle(k) || e == Erase(k) {
    } else {
      OtherRequest(cfg, w, e, k);
    }
  }

  lemma OtherRequest(cfg: Config, w: World, e: Event, k: nat)
    requires Enabled(cfg, w, e) && k < |w.requests| && e != Handle(k) && e != Erase(k)
    ensures k < |Next(cfg, w, e).requests| && Next(cfg, w, e).requests[k] == w.requests[k]
  {
  }

  lemma FiledEntryOk(cfg: Config, w: World, e: Event)
    requires Enabled(cfg, w, e) && e.Run? && SessionOk(cfg, w, e.actor) && w.sessions[e.actor].Filing?
    requires Extends(w, Next(cfg, w, e)) && |w.log| < |Next(cfg, w, e).log|
    ensures EntryOk(cfg, Next(cfg, w, e), |w.log|)
  {
    MethodNames(w.sessions[e.actor].ruling);
    SentStays(w, Next(cfg, w, e), w.sessions[e.actor].t.tx);
    var v, s := Next(cfg, w, e), w.sessions[e.actor];
    StampStays(w, v, s.version, s.stamp);
    SanctionedStays(cfg, w, v, s.ruling, s.c, s.judgment, s.t.clickAt);
  }

  lemma OldEntryOk(cfg: Config, w: World, v: World, k: nat)
    requires Inv(cfg, w) && Extends(w, v) && k < |w.log|
    ensures EntryOk(cfg, v, k)
  {
    assert EntryOk(cfg, w, k);
    ShapedRows(cfg, w);
    EntryStays(cfg, w, v, k);
  }

  lemma NewEntryOk(cfg: Config, w: World, e: Event, k: nat)
    requires Enabled(cfg, w, e) && |w.log| <= k < |Next(cfg, w, e).log| && Extends(w, Next(cfg, w, e))
    requires ActingOk(cfg, w, e)
    ensures EntryOk(cfg, Next(cfg, w, e), k)
  {
    NewEntries(cfg, w, e);
    if w.sessions[e.actor].Recording? {
      var v, s := Next(cfg, w, e), w.sessions[e.actor];
      StampStays(w, v, s.version, s.stamp);
      assert v.began[e.actor] == w.began[e.actor];
      GroundedStays(cfg, w, v, s.call.rpc, Capture(s.id, s.call), s.judgment, s.verdict, w.began[e.actor]);
    } else { FiledEntryOk(cfg, w, e); }
  }

  lemma NewInstallOk(cfg: Config, w: World, e: Event, n: nat)
    requires Enabled(cfg, w, e) && |w.installs| <= n < |Next(cfg, w, e).installs|
    requires ActingOk(cfg, w, e)
    ensures InstallOk(cfg, Next(cfg, w, e), n)
  {
  }

  lemma InstallsOk(cfg: Config, w: World, e: Event, n: nat)
    requires Inv(cfg, w) && Enabled(cfg, w, e) && n < |Next(cfg, w, e).installs| && Extends(w, Next(cfg, w, e))
    ensures InstallOk(cfg, Next(cfg, w, e), n)
  {
    if n < |w.installs| {
      assert InstallOk(cfg, w, n);
    } else {
      if e.Run? { assert SessionOk(cfg, w, e.actor); }
      NewInstallOk(cfg, w, e, n);
    }
  }

  lemma ClaimsStayUnique(cfg: Config, w: World, e: Event)
    requires Inv(cfg, w) && Enabled(cfg, w, e)
    ensures UniqueClaims(Next(cfg, w, e).sessions)
  {
    var v := Next(cfg, w, e);
    NextSessions(cfg, w, e);
    forall i, j | 0 <= i < j < |v.sessions| && Claim(v.sessions[i]).Some?
      ensures Claim(v.sessions[i]) != Claim(v.sessions[j])
    {
      if e.Run? {
        NewClaim(cfg, w, e);
        if i != e.actor { ClaimsAreExclusive(cfg, w, e, i); }
        if j != e.actor && Claim(v.sessions[j]).Some? { ClaimsAreExclusive(cfg, w, e, j); }
      }
    }
  }

  // A session only ever claims what its step acted on.
  lemma NewClaim(cfg: Config, w: World, e: Event)
    requires Enabled(cfg, w, e) && e.Run?
    ensures Claim(Next(cfg, w, e).sessions[e.actor]).Some? ==>
              Claim(Next(cfg, w, e).sessions[e.actor]) == ActsOn(w, e)
  {
  }

  lemma RequestsStayUnique(cfg: Config, w: World, e: Event)
    requires Enabled(cfg, w, e) && UniqueRequests(w.requests) && ActingOk(cfg, w, e)
    ensures UniqueRequests(Next(cfg, w, e).requests)
  {
    NextRequests(cfg, w, e);
  }

  lemma LogStaysUnique(cfg: Config, w: World, e: Event)
    requires Enabled(cfg, w, e) && UniqueIds(w.log) && UniqueFilings(w.log) && UniqueEntries(w.log)
    requires ActingOk(cfg, w, e)
    ensures
      var log := Next(cfg, w, e).log;
      UniqueIds(log) && UniqueFilings(log) && UniqueEntries(log)
  {
    NewEntries(cfg, w, e);
  }

  // ---- The backend -------------------------------------------------------

  // A handler that finds a record finds one that nobody has deleted yet; one that deletes does
  // so after every handler that has found the record.
  lemma HandleInTime(cfg: Config, w: World, k: nat)
    requires Enabled(cfg, w, Handle(k)) && FoundInTime(w.requests) && forall id :: RecordOk(cfg, w, id)
    ensures FoundInTime(Next(cfg, w, Handle(k)).requests)
  {
    var v := Next(cfg, w, Handle(k));
    DeletionTakesTwoSteps(w.records, w.requests[k].args);
    forall i, l, id | 0 <= i < |v.requests| && 0 <= l < |v.requests| && Erases(v.requests[i], id) && Finds(v.requests[l], id)
      ensures v.requests[l].found.value < v.requests[i].delivery.value.at
    {
      assert i != k && Erases(w.requests[i], id);
      if l == k {
        assert RecordOk(cfg, w, id) && Erased(w, id);
        assert false;
      } else {
        assert Finds(w.requests[l], id);
      }
    }
  }

  lemma StaysInTime(cfg: Config, w: World, e: Event)
    requires Inv(cfg, w) && Enabled(cfg, w, e)
    ensures FoundInTime(Next(cfg, w, e).requests)
  {
    if e.Handle? { HandleInTime(cfg, w, e.request); }
    else if e.Erase? {
      var v := Next(cfg, w, Erase(e.request));
      forall i, l, id | 0 <= i < |v.requests| && 0 <= l < |v.requests| && Erases(v.requests[i], id) && Finds(v.requests[l], id)
        ensures v.requests[l].found.value < v.requests[i].delivery.value.at
      {
        assert RequestOk(cfg, w, l) && Finds(w.requests[l], id);
        if i != e.request { assert Erases(w.requests[i], id); }
      }
    }
    else { NextSends(cfg, w, e); }
  }

  // No other step deletes or answers a deletion.
  lemma NothingErased(cfg: Config, w: World, e: Event, id: string)
    requires Enabled(cfg, w, e) && !e.Erase?
    ensures Next(cfg, w, e).records == w.records
    ensures Erased(Next(cfg, w, e), id) ==> Erased(w, id)
  {
    var v := Next(cfg, w, e);
    if e.Handle? { DeletionTakesTwoSteps(w.records, w.requests[e.request].args); } else { NextSends(cfg, w, e); }
    if Erased(v, id) {
      var l :| 0 <= l < |v.requests| && Erases(v.requests[l], id);
      assert l < |w.requests| && Erases(w.requests[l], id);
    }
  }

  lemma RecordsStayOk(cfg: Config, w: World, e: Event, id: string)
    requires Inv(cfg, w) && Enabled(cfg, w, e) && Extends(w, Next(cfg, w, e))
    ensures RecordOk(cfg, Next(cfg, w, e), id)
  {
    assert RecordOk(cfg, w, id);
    if e.Erase? {
      assert RequestOk(cfg, w, e.request);
    } else {
      NothingErased(cfg, w, e, id);
    }
  }

  // ---- The theorem --------------------------------------------------------

  lemma NextInv(cfg: Config, w: World, e: Event)
    requires Inv(cfg, w) && Enabled(cfg, w, e)
    ensures Inv(cfg, Next(cfg, w, e))
  {
    var v := Next(cfg, w, e);
    NextExtends(cfg, w, e);
    NextSessions(cfg, w, e);
    forall i | 0 <= i < |v.sessions| ensures SessionOk(cfg, v, i) { SessionsOk(cfg, w, e, i); }
    forall tx | tx in v.rows ensures RowOk(cfg, v, tx) { RowsOk(cfg, w, e, tx); }
    forall k | 0 <= k < |v.requests| ensures RequestOk(cfg, v, k) { RequestsOk(cfg, w, e, k); }
    if e.Run? { assert SessionOk(cfg, w, e.actor); }
    forall k | 0 <= k < |v.log| ensures EntryOk(cfg, v, k) {
      if k < |w.log| { OldEntryOk(cfg, w, v, k); } else { NewEntryOk(cfg, w, e, k); }
    }
    forall n | 0 <= n < |v.installs| ensures InstallOk(cfg, v, n) { InstallsOk(cfg, w, e, n); }
    forall id ensures RecordOk(cfg, v, id) { RecordsStayOk(cfg, w, e, id); }
    ClaimsStayUnique(cfg, w, e);
    RequestsStayUnique(cfg, w, e);
    LogStaysUnique(cfg, w, e);
    StaysInTime(cfg, w, e);
  }

  lemma {:induction false} RunsInv(cfg: Config, w: World, es: seq<Event>, v: World)
    requires Inv(cfg, w) && Runs(cfg, w, es, v)
    ensures Inv(cfg, v)
    decreases |es|
  {
    if es != [] {
      NextInv(cfg, w, es[0]);
      RunsInv(cfg, Next(cfg, w, es[0]), es[1..], v);
    }
  }

  lemma ReachableInv(cfg: Config, w: World)
    requires Reachable(cfg, w)
    ensures Inv(cfg, w)
  {
    var w0, es :| Initial(cfg, w0) && Runs(cfg, w0, es, w);
    InitialInv(cfg, w0);
    RunsInv(cfg, w0, es, w);
  }
}
