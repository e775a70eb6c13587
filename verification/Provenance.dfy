// Where everything came from: each audit row, parked row, request and decision of
// a run, traced back to the check request or the click that began a session.
module Provenance {
  import opened Wrappers
  import opened Identity
  import opened Policy
  import opened PolicyProperties
  import opened Store
  import opened Audit
  import opened Protocol
  import opened Invariant
  import opened Preservation
  import opened Guarantees
  import opened Traces

  // ---- What began --------------------------------------------------------

  function Arrivals(e: Event): seq<Session> {
    if e.Begin? then [e.session] else []
  }

  // The check requests and clicks that arrived in a run; the i-th began session i.
  function Begun(es: seq<Event>): seq<Session> {
    if es == [] then [] else Arrivals(es[0]) + Begun(es[1..])
  }

  // `first` is an identified caller's check request.
  predicate Asks(first: Session, id: Identity, call: Call) {
    first == Arrived(Some(id), call)
  }

  // The audit row of a Check, column by column.
  predicate Describes(e: Entry, id: Identity, call: Call) {
    && e.caller == id.agentId && e.onBehalfOf == id.onBehalfOf && e.roles == id.roles
    && e.rpc == call.rpc && e.tool == call.tool && e.args == call.args
  }

  // What is kept of a call to replay it later.
  predicate Keeps(c: Captured, id: Identity, call: Call) {
    && c.agentId == id.agentId && c.onBehalfOf == id.onBehalfOf && c.roles == id.roles
    && c.tool == call.tool && c.args == call.args
  }

  // A session that began as `first` may stand at `s`.
  predicate Follows(first: Session, s: Session) {
    match s
    case Arrived(_, _) => s == first
    case Judging(id, call, _, _) => Asks(first, id, call) && call.rpc == "tools/call"
    case Stamping(id, call, verdict, _) => Asks(first, id, call) && (verdict.Allow? || call.rpc == "tools/call")
    case Recording(id, call, verdict, _, _, _) => Asks(first, id, call) && (verdict.Allow? || call.rpc == "tools/call")
    case Parking(kept, call, _) =>
      first.Arrived? && first.who.Some? && Asks(first, first.who.value, call) && Keeps(kept, first.who.value, call)
      && call.rpc == "tools/call"
    case Forwarding(call) =>
      first.Arrived? && first.who.Some? && Asks(first, first.who.value, call) && call.rpc == "tools/call"
    case Answered(resolved, call, answer) =>
      first.Arrived? && first.call == call && (resolved <==> first.who.Some?) && (resolved || answer.Rejected?)
    case Clicking(_, _, _) => s == first
    case Finished(tx) => first.Clicking? && first.tx == tx
    case _ => Ticketed(s) && first == Clicking(s.t.tx, s.t.decider, s.t.approve)
  }

  // The decision a Check has logged, and where it stands: what is answered is what was logged,
  // but for a call that should be parked and could not be.
  predicate Told(s: Session, ruling: Ruling) {
    match s
    case Parking(_, _, _) => ruling == Ruled(NeedsApproval)
    case Forwarding(_) => ruling == Ruled(Allow)
    case Answered(_, _, Allowed) => ruling == Ruled(Allow)
    case Answered(_, _, PendingApproval(_)) => ruling == Ruled(NeedsApproval)
    case Answered(_, _, Rejected) => ruling == Ruled(Deny) || ruling == Ruled(NeedsApproval)
    case _ => false
  }

  // ---- One step ----------------------------------------------------------

  lemma StepFollows(cfg: Config, w: World, i: nat, first: Session, s: Session, o: Outcome, drawn: TxId)
    requires Follows(first, s) && !Over(s)
    ensures Follows(first, SessionStep(cfg, w, i, s, o, drawn).1)
  {
    if InCheck(s) { CheckFollows(cfg, w, i, first, s, o, drawn); } else { ClickFollows(cfg, w, first, s, o, drawn); }
  }

  lemma CheckFollows(cfg: Config, w: World, i: nat, first: Session, s: Session, o: Outcome, drawn: TxId)
    requires Follows(first, s) && InCheck(s)
    ensures Follows(first, CheckStep(cfg, w, i, s, o, drawn).1)
  {
  }

  lemma ClickFollows(cfg: Config, w: World, first: Session, s: Session, o: Outcome, drawn: TxId)
    requires Follows(first, s) && !InCheck(s) && !Over(s)
    ensures Follows(first, ClickStep(cfg, w, s, o, drawn).1)
  {
  }

  // ---- Every world of a run ------------------------------------------------

  predicate EntryFrom(w: World, begun: seq<Session>, k: nat) {
    k < |w.log| && w.log[k].source.FromCheck? ==>
      var i := w.log[k].source.session;
      && i < |begun| && i < |w.sessions| && begun[i].Arrived? && begun[i].who.Some?
      && Describes(w.log[k].entry, begun[i].who.value, begun[i].call) && Told(w.sessions[i], w.log[k].entry.ruling)
  }

  predicate RequestFrom(w: World, begun: seq<Session>, k: nat) {
    k < |w.requests| && w.requests[k].origin.Gateway? ==>
      var i := w.requests[k].origin.session;
      && i < |begun| && begun[i].Arrived? && begun[i].who.Some? && begun[i].call.rpc == "tools/call"
      && w.requests[k].tool == begun[i].call.tool && w.requests[k].args == begun[i].call.args
  }

  predicate DecidedFrom(w: World, begun: seq<Session>, tx: TxId) {
    tx in w.rows && w.rows[tx].decidedBy.Some? ==>
      exists i :: 0 <= i < |begun| && begun[i] == Clicking(tx, w.rows[tx].decidedBy.value, !w.rows[tx].state.Denied?)
  }

  ghost predicate Traceable(w: World, begun: seq<Session>) {
    && |begun| == |w.sessions|
    && (forall i :: 0 <= i < |begun| ==> Follows(begun[i], w.sessions[i]))
    && (forall k :: 0 <= k < |w.log| ==> EntryFrom(w, begun, k))
    && (forall k :: 0 <= k < |w.requests| ==> RequestFrom(w, begun, k))
    && (forall tx :: tx in w.rows ==> DecidedFrom(w, begun, tx))
  }

  lemma SessionsFollow(cfg: Config, w: World, e: Event, begun: seq<Session>, i: nat)
    requires Inv(cfg, w) && Enabled(cfg, w, e) && Traceable(w, begun) && i < |begun + Arrivals(e)|
    ensures i < |Next(cfg, w, e).sessions| && Follows((begun + Arrivals(e))[i], Next(cfg, w, e).sessions[i])
  {
    NextSessions(cfg, w, e);
    if RunBy(e, i) {
      NextIsStep(cfg, w, i, e.outcome, e.drawn);
      StepFollows(cfg, w, i, begun[i], w.sessions[i], e.outcome, e.drawn);
    }
  }

  // A logged Check moves on only as it was told.
  lemma StaysTold(cfg: Config, w: World, i: nat, s: Session, o: Outcome, drawn: TxId, ruling: Ruling)
    requires Told(s, ruling) && !Over(s)
    ensures Told(SessionStep(cfg, w, i, s, o, drawn).1, ruling)
  {
  }

  lemma OldEntryFrom(cfg: Config, w: World, e: Event, begun: seq<Session>, k: nat)
    requires Inv(cfg, w) && Enabled(cfg, w, e) && Traceable(w, begun) && k < |w.log|
    ensures EntryFrom(Next(cfg, w, e), begun + Arrivals(e), k)
  {
    assert EntryFrom(w, begun, k);
    NewEntries(cfg, w, e);
    NextSessions(cfg, w, e);
    if w.log[k].source.FromCheck? {
      var i := w.log[k].source.session;
      if RunBy(e, i) {
        NextIsStep(cfg, w, i, e.outcome, e.drawn);
        StaysTold(cfg, w, i, w.sessions[i], e.outcome, e.drawn, w.log[k].entry.ruling);
      }
    }
  }

  // The row a Check writes names the caller and the call of its own session, whatever the verdict.
  lemma NewEntryFrom(cfg: Config, w: World, i: nat, o: Outcome, drawn: TxId, first: Session)
    requires Enabled(cfg, w, Run(i, o, drawn)) && w.sessions[i].Recording? && Follows(first, w.sessions[i])
    requires |Next(cfg, w, Run(i, o, drawn)).log| > |w.log|
    ensures
      var v := Next(cfg, w, Run(i, o, drawn));
      && From(v.log[|w.log|], i) && first.Arrived? && first.who.Some?
      && Describes(v.log[|w.log|].entry, first.who.value, first.call) && Told(v.sessions[i], v.log[|w.log|].entry.ruling)
  {
  }

  lemma EntriesFrom(cfg: Config, w: World, e: Event, begun: seq<Session>, k: nat)
    requires Inv(cfg, w) && Enabled(cfg, w, e) && Traceable(w, begun) && k < |Next(cfg, w, e).log|
    ensures EntryFrom(Next(cfg, w, e), begun + Arrivals(e), k)
  {
    if k < |w.log| {
      OldEntryFrom(cfg, w, e, begun, k);
    } else {
      NewEntries(cfg, w, e);
      NextSessions(cfg, w, e);
      if w.sessions[e.actor].Recording? { NewEntryFrom(cfg, w, e.actor, e.outcome, e.drawn, begun[e.actor]); }
    }
  }

  lemma NewRequestFrom(cfg: Config, w: World, e: Event, begun: seq<Session>, k: nat)
    requires Enabled(cfg, w, e) && Traceable(w, begun) && |w.requests| <= k < |Next(cfg, w, e).requests|
    ensures RequestFrom(Next(cfg, w, e), begun + Arrivals(e), k)
  {
    assert e.Run? ==> Follows(begun[e.actor], w.sessions[e.actor]);
  }

  lemma RequestsFrom(cfg: Config, w: World, e: Event, begun: seq<Session>, k: nat)
    requires Enabled(cfg, w, e) && Traceable(w, begun) && k < |Next(cfg, w, e).requests|
    ensures RequestFrom(Next(cfg, w, e), begun + Arrivals(e), k)
  {
    if k < |w.requests| {
      NextRequests(cfg, w, e);
      assert RequestFrom(w, begun, k) && SameRequest(w.requests[k], Next(cfg, w, e).requests[k]);
    } else {
      NewRequestFrom(cfg, w, e, begun, k);
    }
  }

  // A decision is made by a click, in the direction of the click.
  lemma DecidedByClick(cfg: Config, w: World, e: Event, tx: TxId)
    requires Enabled(cfg, w, e) && tx in Next(cfg, w, e).rows && Next(cfg, w, e).rows[tx].decidedBy.Some?
    requires tx in w.rows ==> w.rows[tx].decidedBy.None?
    ensures
      && e.Run?
      && var r := Next(cfg, w, e).rows[tx];
      && !r.state.Pending? && w.sessions[e.actor] == Clicking(tx, r.decidedBy.value, !r.state.Denied?)
  {
  }

  lemma OldDecisionFrom(w: World, v: World, begun: seq<Session>, more: seq<Session>, tx: TxId)
    requires tx in w.rows && w.rows[tx].decidedBy.Some? && DecidedFrom(w, begun, tx)
    requires tx in v.rows && v.rows[tx].decidedBy == w.rows[tx].decidedBy && (v.rows[tx].state.Denied? <==> w.rows[tx].state.Denied?)
    ensures DecidedFrom(v, begun + more, tx)
  {
    var i :| 0 <= i < |begun| && begun[i] == Clicking(tx, w.rows[tx].decidedBy.value, !w.rows[tx].state.Denied?);
    assert (begun + more)[i] == begun[i];
  }

  lemma NewDecisionFrom(cfg: Config, w: World, e: Event, begun: seq<Session>, tx: TxId)
    requires Enabled(cfg, w, e) && Traceable(w, begun) && tx in Next(cfg, w, e).rows
    requires tx in w.rows ==> w.rows[tx].decidedBy.None?
    ensures DecidedFrom(Next(cfg, w, e), begun + Arrivals(e), tx)
  {
    if Next(cfg, w, e).rows[tx].decidedBy.Some? {
      DecidedByClick(cfg, w, e, tx);
      assert Follows(begun[e.actor], w.sessions[e.actor]) && (begun + Arrivals(e))[e.actor] == begun[e.actor];
    }
  }

  lemma DecisionsFrom(cfg: Config, w: World, e: Event, begun: seq<Session>, tx: TxId)
    requires Inv(cfg, w) && Enabled(cfg, w, e) && Traceable(w, begun) && tx in Next(cfg, w, e).rows
    ensures DecidedFrom(Next(cfg, w, e), begun + Arrivals(e), tx)
  {
    if tx in w.rows && w.rows[tx].decidedBy.Some? {
      NextRows(cfg, w, e, tx);
      assert RowOk(cfg, w, tx);
      OldDecisionFrom(w, Next(cfg, w, e), begun, Arrivals(e), tx);
    } else {
      NewDecisionFrom(cfg, w, e, begun, tx);
    }
  }

  lemma NextTraceable(cfg: Config, w: World, e: Event, begun: seq<Session>)
    requires Inv(cfg, w) && Enabled(cfg, w, e) && Traceable(w, begun)
    ensures Traceable(Next(cfg, w, e), begun + Arrivals(e))
  {
    var v, all := Next(cfg, w, e), begun + Arrivals(e);
    NextSessions(cfg, w, e);
    forall i | 0 <= i < |all| ensures Follows(all[i], v.sessions[i]) { SessionsFollow(cfg, w, e, begun, i); }
    forall k | 0 <= k < |v.log| ensures EntryFrom(v, all, k) { EntriesFrom(cfg, w, e, begun, k); }
    forall k | 0 <= k < |v.requests| ensures RequestFrom(v, all, k) { RequestsFrom(cfg, w, e, begun, k); }
    forall tx | tx in v.rows ensures DecidedFrom(v, all, tx) { DecisionsFrom(cfg, w, e, begun, tx); }
  }

  lemma {:induction false} RunTraceable(cfg: Config, w: World, es: seq<Event>, v: World, begun: seq<Session>)
    requires Inv(cfg, w) && Runs(cfg, w, es, v) && Traceable(w, begun)
    ensures Traceable(v, begun + Begun(es))
    decreases |es|
  {
    if es == [] {
      assert begun + Begun(es) == begun;
    } else {
      NextInv(cfg, w, es[0]);
      NextTraceable(cfg, w, es[0], begun);
      RunTraceable(cfg, Next(cfg, w, es[0]), es[1..], v, begun + Arrivals(es[0]));
      BegunAfter(begun, es);
    }
  }

  lemma BegunAfter(begun: seq<Session>, es: seq<Event>)
    requires es != []
    ensures begun + Arrivals(es[0]) + Begun(es[1..]) == begun + Begun(es)
  {
    Regroup(begun, Arrivals(es[0]), Begun(es[1..]));
  }

  lemma Regroup(a: seq<Session>, b: seq<Session>, c: seq<Session>)
    ensures (a + b) + c == a + (b + c)
  {
  }

  // Every world of every run can be traced back to what arrived in it.
  lemma TracedBack(cfg: Config, w0: World, es: seq<Event>, w: World)
    requires Initial(cfg, w0) && Runs(cfg, w0, es, w)
    ensures Traceable(w, Begun(es))
  {
    InitialInv(cfg, w0);
    RunTraceable(cfg, w0, es, w, []);
    assert [] + Begun(es) == Begun(es);
  }

  // ---- What that says ------------------------------------------------------

  // The audit row of a Check is that of the caller and the call that arrived, column by column and
  // whatever the verdict, and what was answered is what it says. Nobody else gets one.
  lemma CheckRowIsTheCall(cfg: Config, w0: World, es: seq<Event>, w: World, k: nat)
    requires Initial(cfg, w0) && Runs(cfg, w0, es, w) && k < |w.log| && w.log[k].source.FromCheck?
    ensures
      var i, entry, begun := w.log[k].source.session, w.log[k].entry, Begun(es);
      && i < |begun| && i < |w.sessions| && begun[i].Arrived? && begun[i].who.Some?
      && var Arrived(Some(id), call) := begun[i];
      && entry.caller == id.agentId && entry.onBehalfOf == id.onBehalfOf && entry.roles == id.roles
      && entry.rpc == call.rpc && entry.tool == call.tool && entry.args == call.args
      && Told(w.sessions[i], entry.ruling)
  {
    TracedBack(cfg, w0, es, w);
    assert EntryFrom(w, Begun(es), k);
  }

  // Whoever decided a row clicked on it, and in that direction.
  lemma DeciderClicked(cfg: Config, w0: World, es: seq<Event>, w: World, tx: TxId)
    requires Initial(cfg, w0) && Runs(cfg, w0, es, w) && tx in w.rows && w.rows[tx].decidedBy.Some?
    ensures Clicking(tx, w.rows[tx].decidedBy.value, !w.rows[tx].state.Denied?) in Begun(es)
  {
    TracedBack(cfg, w0, es, w);
    assert DecidedFrom(w, Begun(es), tx);
  }

  // A parked row keeps the destructive tools/call of an identified caller, field by field.
  lemma ParkedIsTheCall(cfg: Config, w0: World, es: seq<Event>, w: World, tx: TxId)
    requires Initial(cfg, w0) && Runs(cfg, w0, es, w) && tx in w.rows
    ensures
      var c := w.rows[tx].call;
      && NamedDestructive(c.tool)
      && exists id, call :: Arrived(Some(id), call) in Begun(es) && call.rpc == "tools/call"
                            && c.agentId == id.agentId && c.onBehalfOf == id.onBehalfOf && c.roles == id.roles
                            && c.tool == call.tool && c.args == call.args
  {
    assert Reachable(cfg, w);
    ParkedIsLinked(cfg, w, tx);
    ReachableInv(cfg, w);
    var c := w.rows[tx].call;
    var k :| 0 <= k < |w.log| && Links(w.log[k], tx, c, w.rows[tx].createdAt);
    CheckRowIsTheCall(cfg, w0, es, w, k);
    var first := Begun(es)[w.log[k].source.session];
    assert RowOk(cfg, w, tx);
    FourPrefixes(c.tool);
    assert Arrived(Some(first.who.value), first.call) in Begun(es) && Keeps(c, first.who.value, first.call);
  }

  // Nothing reaches the backend that an identified caller did not send as a tools/call, tool and
  // arguments unchanged; and what does not come through the gateway, a human approved.
  lemma RequestsWereAsked(cfg: Config, w0: World, es: seq<Event>, w: World, k: nat)
    requires Initial(cfg, w0) && Runs(cfg, w0, es, w) && k < |w.requests|
    ensures
      var q := w.requests[k];
      && (exists id, call :: Arrived(Some(id), call) in Begun(es) && call.rpc == "tools/call"
                             && q.tool == call.tool && q.args == call.args)
      && (q.origin.Approval? ==> exists decider :: Clicking(q.origin.tx, decider, true) in Begun(es))
      && (NamedDestructive(q.tool) ==> q.origin.Approval?)
  {
    TracedBack(cfg, w0, es, w);
    assert Reachable(cfg, w) && RequestFrom(w, Begun(es), k);
    var q := w.requests[k];
    CompleteMediation(cfg, w, |w.sessions|, k);
    if q.origin.Approval? {
      AtMostOneInvocation(cfg, w, k, q.origin.tx);
      ParkedIsTheCall(cfg, w0, es, w, q.origin.tx);
      DeciderClicked(cfg, w0, es, w, q.origin.tx);
    } else {
      var first := Begun(es)[q.origin.session];
      assert Arrived(Some(first.who.value), first.call) in Begun(es);
    }
  }

  // ---- Along a trace -------------------------------------------------------

  lemma {:induction false} BegunThen(es: seq<Event>, fs: seq<Event>)
    ensures Begun(es + fs) == Begun(es) + Begun(fs)
    decreases |es|
  {
    if es == [] {
      assert es + fs == fs && Begun(es) + Begun(fs) == Begun(fs);
    } else {
      BegunThen(es[1..], fs);
      RestOfSum(es, fs);
      Regroup(Arrivals(es[0]), Begun(es[1..]), Begun(fs));
    }
  }

  lemma RestOfSum(es: seq<Event>, fs: seq<Event>)
    requires es != []
    ensures (es + fs)[0] == es[0] && (es + fs)[1..] == es[1..] + fs
  {
  }

  // What is logged for a Check that has not logged anything yet.
  lemma LoggedAsAsked(cfg: Config, start: World, before: seq<Event>, u: World, after: seq<Event>, v: World, i: nat,
                      id: Identity, call: Call)
    requires Traced(cfg, start, before, u) && Traced(cfg, start, after, v) && before <= after && i < |u.sessions|
    requires
      || u.sessions[i] == Arrived(Some(id), call)
      || (u.sessions[i].Stamping? && u.sessions[i].id == id && u.sessions[i].call == call)
    ensures forall k :: 0 <= k < |v.log| && From(v.log[k], i) ==>
              Describes(v.log[k].entry, id, call) && i < |v.sessions| && Told(v.sessions[i], v.log[k].entry.ruling)
  {
    TracedBack(cfg, start, before, u);
    TracedBack(cfg, start, after, v);
    assert after == before + after[|before|..];
    BegunThen(before, after[|before|..]);
    assert Follows(Begun(before)[i], u.sessions[i]) && Begun(after)[i] == Begun(before)[i];
    forall k | 0 <= k < |v.log| && From(v.log[k], i)
      ensures Describes(v.log[k].entry, id, call) && i < |v.sessions| && Told(v.sessions[i], v.log[k].entry.ruling)
    {
      assert EntryFrom(v, Begun(after), k);
    }
  }

  // Nothing is ever logged for a caller who could not be identified.
  lemma UnidentifiedIsUnlogged(cfg: Config, start: World, before: seq<Event>, u: World, after: seq<Event>, v: World, i: nat)
    requires Traced(cfg, start, before, u) && Traced(cfg, start, after, v) && before <= after && i < |u.sessions|
    requires u.sessions[i].Arrived? && u.sessions[i].who.None?
    ensures NoEntry(v, i)
  {
    TracedBack(cfg, start, before, u);
    TracedBack(cfg, start, after, v);
    assert after == before + after[|before|..];
    BegunThen(before, after[|before|..]);
    assert Follows(Begun(before)[i], u.sessions[i]) && Begun(after)[i] == Begun(before)[i];
    forall k | 0 <= k < |v.log| ensures !From(v.log[k], i) { assert EntryFrom(v, Begun(after), k); }
  }
}
