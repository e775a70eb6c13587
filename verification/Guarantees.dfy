// What the protocol promises over every run: any number of Check, Approve and
// Deny calls, interleaved step by step with each other and with policy edits,
// graph writes and late deliveries, under every failure of every operation.
module Guarantees {
  import opened Wrappers
  import opened Json
  import opened Policy
  import opened PolicyProperties
  import opened Store
  import opened Audit
  import opened Protocol
  import opened Invariant
  import opened Preservation

  // ---- History -----------------------------------------------------------

  lemma ExtendsSelf(w: World)
    ensures Extends(w, w)
  {
  }

  lemma ExtendsTransitive(u: World, v: World, w: World)
    requires Extends(u, v) && Extends(v, w)
    ensures Extends(u, w)
  {
    forall t | 0 <= t <= |u.past| ensures w.MomentAt(t) == u.MomentAt(t) {
      assert v.MomentAt(t) == u.MomentAt(t);
    }
    forall k | 0 <= k < |u.requests| ensures SameRequest(u.requests[k], w.requests[k]) {
      assert SameRequest(u.requests[k], v.requests[k]) && SameRequest(v.requests[k], w.requests[k]);
    }
    forall tx | tx in u.rows ensures tx in w.rows && RowEvolves(u.rows[tx], w.rows[tx]) {
      assert RowEvolves(u.rows[tx], v.rows[tx]) && RowEvolves(v.rows[tx], w.rows[tx]);
    }
  }

  lemma {:induction false} RunExtends(cfg: Config, w: World, es: seq<Event>, v: World)
    requires Inv(cfg, w) && Runs(cfg, w, es, v)
    ensures Inv(cfg, v) && Extends(w, v)
    decreases |es|
  {
    if es == [] {
      ExtendsSelf(w);
    } else {
      var next := Next(cfg, w, es[0]);
      NextInv(cfg, w, es[0]);
      NextExtends(cfg, w, es[0]);
      RunExtends(cfg, next, es[1..], v);
      ExtendsTransitive(w, next, v);
    }
  }

  // ---- Composing runs ----------------------------------------------------

  // Some run leads from `u` to `v`.
  ghost predicate Leads(cfg: Config, u: World, v: World) {
    exists es :: Runs(cfg, u, es, v)
  }

  lemma {:induction false} RunsThen(cfg: Config, u: World, es: seq<Event>, v: World, fs: seq<Event>, w: World)
    requires Runs(cfg, u, es, v) && Runs(cfg, v, fs, w)
    ensures Runs(cfg, u, es + fs, w)
    decreases |es|
  {
    if es == [] {
      assert es + fs == fs;
    } else {
      RunsThen(cfg, Next(cfg, u, es[0]), es[1..], v, fs, w);
      RunAfter(cfg, u, es[0], es[1..] + fs, w);
      FirstAndRest(es, fs);
    }
  }

  lemma FirstAndRest(es: seq<Event>, fs: seq<Event>)
    requires es != []
    ensures [es[0]] + (es[1..] + fs) == es + fs
  {
  }

  // No step of session `i` is among `es`.
  predicate Others(es: seq<Event>, i: nat) {
    forall k :: 0 <= k < |es| ==> !RunBy(es[k], i)
  }

  // While session `i` stands still, the rest of the world leaves it, and all about the transaction
  // it claims, as it was.
  lemma {:induction false} OthersRun(cfg: Config, u: World, es: seq<Event>, v: World, i: nat)
    requires Inv(cfg, u) && Runs(cfg, u, es, v) && Others(es, i) && i < |u.sessions|
    ensures i < |v.sessions| && v.sessions[i] == u.sessions[i] && Extends(u, v)
    ensures Claim(u.sessions[i]).Some? ==> Undisturbed(u, v, Claim(u.sessions[i]).value)
    decreases |es|
  {
    if es == [] {
      ExtendsSelf(u);
    } else {
      var next := Next(cfg, u, es[0]);
      NextInv(cfg, u, es[0]);
      NextExtends(cfg, u, es[0]);
      NextSessions(cfg, u, es[0]);
      OthersRun(cfg, next, es[1..], v, i);
      ExtendsTransitive(u, next, v);
      if Claim(u.sessions[i]).Some? {
        ClaimsAreExclusive(cfg, u, es[0], i);
        ClaimedIsLogged(cfg, u, i);
        NextUndisturbed(cfg, u, es[0], Claim(u.sessions[i]).value);
        UndisturbedThen(u, next, v, Claim(u.sessions[i]).value);
      }
    }
  }

  lemma UndisturbedThen(u: World, v: World, w: World, tx: TxId)
    requires Undisturbed(u, v, tx) && Undisturbed(v, w, tx) && Extends(v, w)
    ensures Undisturbed(u, w, tx)
  {
    forall k | |u.requests| <= k < |w.requests| ensures w.requests[k].origin != Approval(tx) {
      if k < |v.requests| { assert SameRequest(v.requests[k], w.requests[k]); }
    }
    forall k | |u.log| <= k < |w.log| ensures w.log[k].tx != tx && !About(w.log[k], tx) {
      if k < |v.log| { assert w.log[k] == v.log[k]; }
    }
  }

  lemma LeadsThen(cfg: Config, u: World, v: World, w: World)
    requires Leads(cfg, u, v) && Leads(cfg, v, w)
    ensures Leads(cfg, u, w)
  {
    var es :| Runs(cfg, u, es, v);
    var fs :| Runs(cfg, v, fs, w);
    RunsThen(cfg, u, es, v, fs, w);
  }

  lemma StepLeads(cfg: Config, u: World, e: Event)
    requires Enabled(cfg, u, e)
    ensures Leads(cfg, u, Next(cfg, u, e))
    ensures Reachable(cfg, u) ==> Reachable(cfg, Next(cfg, u, e))
  {
    var v := Next(cfg, u, e);
    assert [e][1..] == [] && Runs(cfg, v, [], v) && Runs(cfg, u, [e], v);
    if Reachable(cfg, u) {
      var w0, es :| Initial(cfg, w0) && Runs(cfg, w0, es, u);
      RunsThen(cfg, w0, es, u, [e], v);
    }
  }

  // What lies between two points of one run is a run.
  lemma {:induction false} RunBetween(cfg: Config, u: World, es: seq<Event>, v: World, fs: seq<Event>, w: World)
    requires Runs(cfg, u, es, v) && Runs(cfg, u, fs, w) && es <= fs
    ensures Runs(cfg, v, fs[|es|..], w)
    decreases |es|
  {
    if es == [] {
      assert fs[0..] == fs;
    } else {
      RunBetween(cfg, Next(cfg, u, es[0]), es[1..], v, fs[1..], w);
      assert fs[1..][|es| - 1..] == fs[|es|..];
    }
  }

  lemma ReachableLeads(cfg: Config, u: World, v: World)
    requires Reachable(cfg, u) && Leads(cfg, u, v)
    ensures Reachable(cfg, v)
  {
    var w0, es :| Initial(cfg, w0) && Runs(cfg, w0, es, u);
    var fs :| Runs(cfg, u, fs, v);
    RunsThen(cfg, w0, es, u, fs, v);
  }

  lemma LeadsExtends(cfg: Config, u: World, v: World)
    requires Reachable(cfg, u) && Leads(cfg, u, v)
    ensures Extends(u, v)
  {
    ReachableInv(cfg, u);
    var es :| Runs(cfg, u, es, v);
    RunExtends(cfg, u, es, v);
  }

  lemma RunAfter(cfg: Config, w: World, e: Event, es: seq<Event>, v: World)
    requires Enabled(cfg, w, e) && Runs(cfg, Next(cfg, w, e), es, v)
    ensures Runs(cfg, w, [e] + es, v)
  {
    assert ([e] + es)[1..] == es;
  }

  // ---- Rows --------------------------------------------------------------

  // Finality, though SetResult has no guard: once a row has a result, no run changes the row.
  lemma ResultIsFinal(cfg: Config, w: World, es: seq<Event>, v: World, tx: TxId)
    requires Reachable(cfg, w) && Runs(cfg, w, es, v)
    requires tx in w.rows && w.rows[tx].result.Some?
    ensures tx in v.rows && v.rows[tx] == w.rows[tx]
  {
    ReachableInv(cfg, w);
    RunExtends(cfg, w, es, v);
    assert RowEvolves(w.rows[tx], v.rows[tx]);
  }

  // The first click wins for good: who decided, when and which way never change, nor does the captured call.
  lemma FirstClickWins(cfg: Config, w: World, es: seq<Event>, v: World, tx: TxId)
    requires Reachable(cfg, w) && Runs(cfg, w, es, v)
    requires tx in w.rows && !w.rows[tx].state.Pending?
    ensures
      && tx in v.rows
      && v.rows[tx].decidedBy == w.rows[tx].decidedBy && v.rows[tx].decidedAt == w.rows[tx].decidedAt
      && v.rows[tx].call == w.rows[tx].call
      && (v.rows[tx].state.Denied? <==> w.rows[tx].state.Denied?)
  {
    ReachableInv(cfg, w);
    assert RowOk(cfg, w, tx);
    RunExtends(cfg, w, es, v);
    assert RowEvolves(w.rows[tx], v.rows[tx]);
  }

  // pending -> approved -> {executed, failed}, or pending -> denied: each step of each
  // session takes a row along one of these edges or leaves it alone.
  lemma RowLifecycle(cfg: Config, w: World, e: Event, tx: TxId)
    requires Reachable(cfg, w) && Enabled(cfg, w, e)
    ensures
      var v := Next(cfg, w, e);
      && (tx in w.rows ==>
            && tx in v.rows
            && RowStep(w.rows[tx], v.rows[tx]))
      && (tx !in w.rows && tx in v.rows ==> v.rows[tx].state.Pending? && v.rows[tx].result.None?)
  {
    ReachableInv(cfg, w);
    NextRows(cfg, w, e, tx);
    if e.Run? { assert SessionOk(cfg, w, e.actor); }
    if tx !in w.rows && tx in Next(cfg, w, e).rows { ParkedRow(cfg, w, e, tx); }
  }

  // ---- Invocations -------------------------------------------------------

  // At most one tool invocation is ever sent for a transaction, and only once a human has approved it.
  lemma AtMostOneInvocation(cfg: Config, w: World, k: nat, tx: TxId)
    requires Reachable(cfg, w)
    requires k < |w.requests| && w.requests[k].origin == Approval(tx)
    ensures forall l :: 0 <= l < |w.requests| && w.requests[l].origin == Approval(tx) ==> l == k
    ensures
      && tx in w.rows && w.rows[tx].decidedBy.Some? && w.rows[tx].decidedAt.Some?
      && (w.rows[tx].state.Approved? || w.rows[tx].state.Executed? || w.rows[tx].state.Failed?)
      && w.rows[tx].decidedAt.value < w.requests[k].sentAt
      && w.requests[k].tool == w.rows[tx].call.tool && w.requests[k].args == w.rows[tx].call.args
  {
    ReachableInv(cfg, w);
    assert RequestOk(cfg, w, k) && RowOk(cfg, w, tx);
  }

  // Nothing is ever sent for a transaction that a Deny won, before or after.
  lemma DeniedIsNeverInvoked(cfg: Config, w: World, es: seq<Event>, v: World, tx: TxId)
    requires Reachable(cfg, w) && Runs(cfg, w, es, v)
    requires tx in w.rows && w.rows[tx].state.Denied?
    ensures NoRequest(v, tx)
  {
    FirstClickWins(cfg, w, es, v, tx);
    ReachableInv(cfg, w);
    RunsInv(cfg, w, es, v);
    forall k | 0 <= k < |v.requests| ensures v.requests[k].origin != Approval(tx) {
      assert RequestOk(cfg, v, k);
    }
  }

  // `executed` is never claimed falsely: the backend did answer the row's own request with
  // success, and the stored result is that answer.
  lemma ExecutedIsTrue(cfg: Config, w: World, tx: TxId)
    requires Reachable(cfg, w) && tx in w.rows && w.rows[tx].state.Executed?
    ensures w.rows[tx].result.Some? && Succeeded(w, tx, w.rows[tx].result.value)
  {
    ReachableInv(cfg, w);
    assert RowOk(cfg, w, tx);
  }

  // Complete mediation, whatever the policies say: Check never answers allow for a
  // destructive tools/call, so a destructive invocation comes from an approved row that
  // holds the same call, and no two come from the same row.
  lemma CompleteMediation(cfg: Config, w: World, i: nat, k: nat)
    requires Reachable(cfg, w)
    ensures i < |w.sessions| && w.sessions[i].Answered? ==>
              var call := w.sessions[i].call;
              call.rpc == "tools/call" && NamedDestructive(call.tool) ==> !w.sessions[i].answer.Allowed?
    ensures k < |w.requests| && NamedDestructive(w.requests[k].tool) ==>
              var q := w.requests[k];
              && q.origin.Approval? && q.origin.tx in w.rows
              && var r := w.rows[q.origin.tx];
              && (r.state.Approved? || r.state.Executed? || r.state.Failed?) && r.decidedBy.Some?
              && r.call.tool == q.tool && r.call.args == q.args
              && (forall l :: 0 <= l < |w.requests| && l != k ==> w.requests[l].origin != q.origin)
  {
    ReachableInv(cfg, w);
    if i < |w.sessions| {
      assert SessionOk(cfg, w, i);
      if w.sessions[i].Answered? { FourPrefixes(w.sessions[i].call.tool); }
    }
    if k < |w.requests| { FourPrefixes(w.requests[k].tool); }
    if k < |w.requests| && Destructive(w.requests[k].tool) {
      assert RequestOk(cfg, w, k);
      AtMostOneInvocation(cfg, w, k, w.requests[k].origin.tx);
    }
  }

  // ---- Revocation --------------------------------------------------------

  // If the captured user's edge was absent at every instant since the winning click, the tool
  // was not called for the transaction; the only result the row can have is a refusal, stored with
  // state `failed`; and the only row the executor can have filed is a deny.
  lemma RevocationRespected(cfg: Config, w: World, tx: TxId)
    requires Reachable(cfg, w) && cfg.ownership
    requires tx in w.rows && w.rows[tx].decidedAt.Some? && !w.rows[tx].state.Denied?
    requires forall t :: w.rows[tx].decidedAt.value < t <= w.Now() ==> !OwnedAt(w, w.rows[tx].call, t)
    ensures NoRequest(w, tx)
    ensures
      || (w.rows[tx].state.Failed? && w.rows[tx].result.Some? && Refusal(w.rows[tx].result.value))
      || (w.rows[tx].state.Approved? && w.rows[tx].result.None?)
    ensures forall k :: 0 <= k < |w.log| && About(w.log[k], tx) ==> w.log[k].entry.ruling == Ruled(Deny)
    ensures forall i :: 0 <= i < |w.sessions| && Claim(w.sessions[i]) == Some(tx) ==> !Executing(w.sessions[i])
  {
    ReachableInv(cfg, w);
    assert RowOk(cfg, w, tx);
    forall k | 0 <= k < |w.requests| ensures w.requests[k].origin != Approval(tx) {
      assert RequestOk(cfg, w, k);
    }
    forall k | 0 <= k < |w.log| && About(w.log[k], tx) ensures w.log[k].entry.ruling == Ruled(Deny) {
      assert EntryOk(cfg, w, k);
      var ruling := w.log[k].entry.ruling;
      if ruling.ExecuteFailed? || ruling.ExecutedAfterApproval? {
        JudgedOwner(cfg, w, w.log[k].source.judgment, w.rows[tx].call, w.rows[tx].decidedAt.value);
      }
    }
    forall i | 0 <= i < |w.sessions| && Claim(w.sessions[i]) == Some(tx) ensures !Executing(w.sessions[i]) {
      assert SessionOk(cfg, w, i);
      RevokedIsNotExecuting(cfg, w, i, tx);
    }
  }

  predicate Executing(s: Session) {
    s.Connecting? || s.Calling? || s.Waiting?
  }

  lemma RevokedIsNotExecuting(cfg: Config, w: World, i: nat, tx: TxId)
    requires i < |w.sessions| && SessionOk(cfg, w, i) && Claim(w.sessions[i]) == Some(tx) && cfg.ownership
    requires tx in w.rows && w.rows[tx].decidedAt.Some?
    requires forall t :: w.rows[tx].decidedAt.value < t <= w.Now() ==> !OwnedAt(w, w.rows[tx].call, t)
    ensures !Executing(w.sessions[i])
  {
    var s := w.sessions[i];
    if Executing(s) { JudgedOwner(cfg, w, Some(s.passed), s.c, s.t.clickAt); }
  }

  // ---- The re-check -------------------------------------------------------

  // The next step of session `i`, a re-check: it passes when the policy it took still lets the
  // user call the tool and, with ownership checks on, the graph answers that the user owns the
  // record at this very step. It is never plain allow, and a call that does not pass is refused.
  predicate RechecksExactly(cfg: Config, w: World, i: nat, o: Outcome, drawn: TxId)
    requires Enabled(cfg, w, Run(i, o, drawn)) && w.sessions[i].Rejudging?
  {
    var Rejudging(t, c, _, _, inst, takenAt) := w.sessions[i];
    var s := Next(cfg, w, Run(i, o, drawn)).sessions[i];
    && inst < |w.installs|
    && !Judge(w.installs[inst].policies, c.onBehalfOf, c.roles, c.tool, c.args, GraphSeen(cfg, w, o)).Allow?
    && (s.Connecting? <==>
          && MayCall(w.installs[inst].policies, c.onBehalfOf, c.roles, c.tool)
          && (cfg.ownership ==> o.Done? && IdArg(c.args).Some? && Edge(c.onBehalfOf, IdArg(c.args).value) in w.edges))
    && (!s.Connecting? ==>
          s == Closing(t, c, Failed, RECHECK_DENIED, Ruled(Deny), Some(Judgment(inst, takenAt, w.Now(), o.Done?))))
  }

  // What the re-check decides, exactly.
  lemma RecheckExact(cfg: Config, w: World, i: nat, o: Outcome, drawn: TxId)
    requires Reachable(cfg, w) && Enabled(cfg, w, Run(i, o, drawn)) && w.sessions[i].Rejudging?
    ensures RechecksExactly(cfg, w, i, o, drawn)
  {
    ReachableInv(cfg, w);
    assert SessionOk(cfg, w, i);
    assert RowOk(cfg, w, w.sessions[i].t.tx);
    RecheckStep(cfg, w, i, o, drawn);
  }

  lemma RecheckStep(cfg: Config, w: World, i: nat, o: Outcome, drawn: TxId)
    requires Enabled(cfg, w, Run(i, o, drawn)) && w.sessions[i].Rejudging? && SessionOk(cfg, w, i)
    requires RowOk(cfg, w, w.sessions[i].t.tx)
    ensures RechecksExactly(cfg, w, i, o, drawn)
  {
  }

  // Stability: parking and reloading a call changes no decision. If the re-check's policies are
  // those that parked the call, in any order, and the user owns the record, the re-check passes.
  lemma RecheckStable(cfg: Config, w: World, i: nat, drawn: TxId, k: nat)
    requires Reachable(cfg, w) && Enabled(cfg, w, Run(i, Done, drawn)) && w.sessions[i].Rejudging?
    requires k < |w.log| && w.log[k].tx == w.sessions[i].t.tx
    requires w.log[k].source.FromCheck? && w.log[k].source.judgment.Some?
    requires w.log[k].source.judgment.value.inst < |w.installs| && w.sessions[i].inst < |w.installs|
    requires SamePolicies(w.installs[w.log[k].source.judgment.value.inst].policies, w.installs[w.sessions[i].inst].policies)
    requires cfg.ownership ==> IdArg(w.sessions[i].c.args).Some?
                               && Edge(w.sessions[i].c.onBehalfOf, IdArg(w.sessions[i].c.args).value) in w.edges
    ensures Next(cfg, w, Run(i, Done, drawn)).sessions[i].Connecting?
  {
    RecheckExact(cfg, w, i, Done, drawn);
    ReachableInv(cfg, w);
    var t, c := w.sessions[i].t, w.sessions[i].c;
    assert SessionOk(cfg, w, i);
    ParkedIsLinked(cfg, w, t.tx);
    var l :| 0 <= l < |w.log| && Links(w.log[l], t.tx, w.rows[t.tx].call, w.rows[t.tx].createdAt);
    assert l == k && EntryOk(cfg, w, k);
    var j := w.log[k].source.judgment.value;
    assert Judged(cfg, w, j, c, NeedsApproval);
    SameMayCall(w.installs[j.inst].policies, w.installs[w.sessions[i].inst].policies, c.onBehalfOf, c.roles, c.tool);
  }

  // ---- Audit -------------------------------------------------------------

  // Each parked row has exactly one audit row with its id: the earlier attempt, decided
  // `needs_approval`, by the same agent for the same user with the same roles, tool and arguments.
  lemma ParkedIsLinked(cfg: Config, w: World, tx: TxId)
    requires Reachable(cfg, w) && tx in w.rows
    ensures exists k :: 0 <= k < |w.log| && Links(w.log[k], tx, w.rows[tx].call, w.rows[tx].createdAt)
    ensures forall k, l :: 0 <= k < l < |w.log| && w.log[k].tx == tx ==> w.log[l].tx != tx
  {
    ReachableInv(cfg, w);
    assert RowOk(cfg, w, tx);
  }

  lemma ClaimIsUnfiled(cfg: Config, w: World, s: Session, since: nat, tx: TxId)
    requires StandOk(cfg, w, s, since) && Claim(s) == Some(tx)
    ensures NoFiling(w, tx)
  {
  }

  lemma FiledIsUnclaimed(cfg: Config, w: World, k: nat)
    requires Inv(cfg, w) && k < |w.log| && w.log[k].source.FromExecutor?
    ensures forall i :: 0 <= i < |w.sessions| ==> Claim(w.sessions[i]) != Some(w.log[k].source.about)
  {
    var tx := w.log[k].source.about;
    assert EntryOk(cfg, w, k) && About(w.log[k], tx);
    forall i | 0 <= i < |w.sessions| ensures Claim(w.sessions[i]) != Some(tx) {
      assert SessionOk(cfg, w, i);
      if Claim(w.sessions[i]) == Some(tx) { ClaimIsUnfiled(cfg, w, w.sessions[i], w.began[i], tx); }
    }
  }

  // The entry repeats the parked call, column by column.
  predicate Repeats(e: Entry, c: Captured) {
    && e.caller == c.agentId && e.onBehalfOf == c.onBehalfOf && e.roles == c.roles && e.tool == c.tool && e.args == c.args
  }

  // Losing clicks write nothing: a transaction gets at most one executor row, about its own call.
  lemma OneFilingPerTransaction(cfg: Config, w: World, k: nat)
    requires Reachable(cfg, w) && k < |w.log| && w.log[k].source.FromExecutor?
    ensures
      var tx := w.log[k].source.about;
      && tx in w.rows && w.rows[tx].decidedBy.Some? && Repeats(w.log[k].entry, w.rows[tx].call)
      && w.log[k].tx != tx
      && (forall l :: 0 <= l < |w.log| && About(w.log[l], tx) ==> l == k)
      && (forall i :: 0 <= i < |w.sessions| ==> Claim(w.sessions[i]) != Some(tx))
  {
    ReachableInv(cfg, w);
    assert EntryOk(cfg, w, k) && RowOk(cfg, w, w.log[k].source.about);
    var tx := w.log[k].source.about;
    var l :| 0 <= l < |w.log| && Links(w.log[l], tx, w.rows[tx].call, w.rows[tx].createdAt);
    assert l != k && w.log[l].tx != w.log[k].tx;
    FiledIsUnclaimed(cfg, w, k);
  }

  // The engine's pair: at every instant the installed policies and the version come from one
  // text, which the file held when it was read.
  lemma InstalledPair(cfg: Config, w: World)
    requires Reachable(cfg, w)
    ensures |w.installs| > 0
    ensures
      var inst := w.Current();
      && cfg.reader.parse(inst.text) == Some(inst.policies)
      && inst.version <= cfg.reader.digest(inst.text) && |inst.version| == 12
      && inst.readAt <= w.Now() && w.MomentAt(inst.readAt).disk == inst.text
  {
    ReachableInv(cfg, w);
    assert InstallOk(cfg, w, |w.installs| - 1);
  }

  // What a Check row of the audit log proves: the call arrived, its policies were taken, the graph
  // was asked, the version was read and the row was written, in this order; the decision is what
  // those policies and that answer decide for the logged call; and there is one row per Check.
  lemma AuditExplains(cfg: Config, w: World, k: nat)
    requires Reachable(cfg, w) && k < |w.log| && w.log[k].source.FromCheck?
    ensures
      var FromCheck(i, judgment, stamp) := w.log[k].source;
      var entry := w.log[k].entry;
      && i < |w.began| && entry.ruling.Ruled? && w.began[i] < stamp.at < w.log[k].at
      && (judgment.Some? <==> entry.rpc == TOOLS_CALL)
      && (judgment.Some? ==>
            && var j := judgment.value;
            && w.began[i] < j.takenAt < j.at < stamp.at
            && Judged(cfg, w, j, Recorded(entry), entry.ruling.decision))
      && (judgment.None? ==> entry.ruling.decision.Allow?)
      && StampOk(w, entry.version, stamp)
      && (forall l :: 0 <= l < |w.log| && From(w.log[l], i) ==> l == k)
  {
    ReachableInv(cfg, w);
    assert EntryOk(cfg, w, k);
  }

  // What an executor row proves, likewise from the winning click on: a deny was judged so by the
  // re-check, unless the reload had failed, and an execution, failed or not, was judged needs_approval.
  lemma FilingExplains(cfg: Config, w: World, k: nat)
    requires Reachable(cfg, w) && k < |w.log| && w.log[k].source.FromExecutor?
    ensures
      var FromExecutor(tx, judgment, stamp) := w.log[k].source;
      var entry := w.log[k].entry;
      && tx in w.rows && w.rows[tx].decidedAt.Some? && w.rows[tx].decidedAt.value < stamp.at < w.log[k].at
      && (entry.ruling.DeniedByHuman? ==> judgment.None?)
      && (entry.ruling.ExecuteFailed? || entry.ruling.ExecutedAfterApproval? ==> judgment.Some?)
      && (judgment.Some? ==>
            && var j := judgment.value;
            && w.rows[tx].decidedAt.value < j.takenAt < j.at < stamp.at
            && Judged(cfg, w, j, Recorded(entry), if entry.ruling.Ruled? then Deny else NeedsApproval))
      && (entry.ruling.ExecutedAfterApproval? ==> ExecutedOnce(w, tx, entry))
      && StampOk(w, entry.version, stamp)
  {
    ReachableInv(cfg, w);
    assert EntryOk(cfg, w, k);
    if w.log[k].entry.ruling.ExecutedAfterApproval? { FiledAsExecuted(cfg, w, k); }
  }

  // The transaction's one request carried the call that the entry reports, and the backend
  // answered it with success.
  predicate ExecutedOnce(w: World, tx: TxId, entry: Entry) {
    exists m :: 0 <= m < |w.requests| && RepliedTo(w.requests[m], tx, true)
                && w.requests[m].tool == entry.tool && w.requests[m].args == entry.args
                && forall l :: 0 <= l < |w.requests| && w.requests[l].origin == Approval(tx) ==> l == m
  }

  // Who wrote a row, from the two columns the database holds. A client chooses the method of the
  // messages it sends, and Check logs it, so the method alone does not tell; but a message with such
  // a method is only ever logged as `allow`, which the executor never files.
  lemma MethodAndDecisionTell(cfg: Config, w: World, k: nat)
    requires Reachable(cfg, w) && k < |w.log|
    ensures
      var rpc, source := w.log[k].entry.rpc, w.log[k].source;
      var named := rpc == "approval/deny" || rpc == "approval/denied_by_human" || rpc == "approval/execute_failed"
                   || rpc == "approval/executed_after_approval";
      source.FromExecutor? <==> named && RulingName(w.log[k].entry.ruling) != "allow"
  {
    ReachableInv(cfg, w);
    assert EntryOk(cfg, w, k);
    var entry := w.log[k].entry;
    DecisionTells(entry.ruling);
    if w.log[k].source.FromExecutor? {
      MethodTells(entry.ruling, entry.rpc);
    } else {
      assert TOOLS_CALL[0] != "approval/deny"[0] && TOOLS_CALL[0] != "approval/denied_by_human"[0];
      assert TOOLS_CALL[0] != "approval/execute_failed"[0] && TOOLS_CALL[0] != "approval/executed_after_approval"[0];
    }
  }

  // An executor row is filed under the name of its ruling.
  lemma FiledUnderItsName(cfg: Config, w: World, k: nat)
    requires Reachable(cfg, w) && k < |w.log| && RulingName(w.log[k].entry.ruling) != "allow"
    ensures
      var entry, byExecutor := w.log[k].entry, w.log[k].source.FromExecutor?;
      && (entry.rpc == "approval/deny" <==> byExecutor && entry.ruling == Ruled(Deny))
      && (entry.rpc == "approval/execute_failed" <==> byExecutor && entry.ruling.ExecuteFailed?)
      && (entry.rpc == "approval/executed_after_approval" <==> byExecutor && entry.ruling.ExecutedAfterApproval?)
      && (entry.rpc == "approval/denied_by_human" <==> byExecutor && entry.ruling.DeniedByHuman?)
  {
    MethodAndDecisionTell(cfg, w, k);
    ReachableInv(cfg, w);
    assert EntryOk(cfg, w, k);
    if w.log[k].source.FromExecutor? { MethodTells(w.log[k].entry.ruling, w.log[k].entry.rpc); }
  }

  // `approval/executed_after_approval` is never claimed falsely, even when the result could not be stored.
  lemma ExecutedEntryIsTrue(cfg: Config, w: World, k: nat)
    requires Reachable(cfg, w) && k < |w.log| && RulingName(w.log[k].entry.ruling) != "allow"
    requires w.log[k].entry.rpc == "approval/executed_after_approval"
    ensures w.log[k].source.FromExecutor? && ExecutedOnce(w, w.log[k].source.about, w.log[k].entry)
  {
    FiledUnderItsName(cfg, w, k);
    FiledAsExecuted(cfg, w, k);
  }

  lemma FiledAsExecuted(cfg: Config, w: World, k: nat)
    requires Reachable(cfg, w) && k < |w.log| && w.log[k].source.FromExecutor? && w.log[k].entry.ruling.ExecutedAfterApproval?
    ensures ExecutedOnce(w, w.log[k].source.about, w.log[k].entry)
  {
    ReachableInv(cfg, w);
    assert EntryOk(cfg, w, k);
    var tx := w.log[k].source.about;
    var m :| 0 <= m < |w.requests| && RepliedTo(w.requests[m], tx, true);
    AtMostOneInvocation(cfg, w, m, tx);
  }

  predicate SwapBetween(w: World, t: nat, u: nat) {
    exists n :: 0 <= n < |w.installs| && t < w.installs[n].at <= u
  }

  // The stamped version, for both kinds of row: it is that of an installation at or after the
  // deciding one, and the deciding one itself exactly when no swap fell between the moment its
  // policies were taken and the moment the version was read.
  lemma StampIsDecidingIff(cfg: Config, w: World, k: nat)
    requires Reachable(cfg, w) && k < |w.log| && w.log[k].source.judgment.Some?
    ensures
      var j, stamp := w.log[k].source.judgment.value, w.log[k].source.stamp;
      && j.inst <= stamp.inst < |w.installs|
      && w.log[k].entry.version <= cfg.reader.digest(w.installs[stamp.inst].text) && |w.log[k].entry.version| == 12
      && (stamp.inst == j.inst <==> !SwapBetween(w, j.takenAt, stamp.at))
  {
    ReachableInv(cfg, w);
    assert EntryOk(cfg, w, k);
    var j, stamp := w.log[k].source.judgment.value, w.log[k].source.stamp;
    assert InstallOk(cfg, w, stamp.inst);
    assert InstalledAt(w, j.inst, j.takenAt) && InstalledAt(w, stamp.inst, stamp.at);
    if stamp.inst > j.inst { assert j.takenAt < w.installs[stamp.inst].at <= stamp.at; }
  }
}
