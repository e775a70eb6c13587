// The audit log's books over every run, failures included: which calls have their
// row, how many rows are missing, and through which failed operations.
module Accounts {
  import opened Store
  import opened Protocol
  import opened Invariant
  import opened Preservation

  // ---- Counting ----------------------------------------------------------

  function Count(sessions: seq<Session>, p: Session -> bool): nat {
    if sessions == [] then 0
    else Count(sessions[..|sessions| - 1], p) + (if p(sessions[|sessions| - 1]) then 1 else 0)
  }

  lemma {:induction false} CountUpdate(sessions: seq<Session>, i: nat, s: Session, p: Session -> bool)
    requires i < |sessions|
    ensures Count(sessions[i := s], p) + (if p(sessions[i]) then 1 else 0) == Count(sessions, p) + (if p(s) then 1 else 0)
    decreases |sessions|
  {
    var n := |sessions| - 1;
    if i < n {
      assert sessions[i := s][..n] == sessions[..n][i := s];
      CountUpdate(sessions[..n], i, s, p);
    } else {
      assert sessions[i := s][..n] == sessions[..n];
    }
  }

  lemma {:induction false} CountNone(sessions: seq<Session>, p: Session -> bool)
    requires forall i :: 0 <= i < |sessions| ==> !p(sessions[i])
    ensures Count(sessions, p) == 0
    decreases |sessions|
  {
    if sessions != [] { CountNone(sessions[..|sessions| - 1], p); }
  }

  lemma {:induction false} CountSame(sessions: seq<Session>, p: Session -> bool, q: Session -> bool)
    requires forall i :: 0 <= i < |sessions| ==> p(sessions[i]) == q(sessions[i])
    ensures Count(sessions, p) == Count(sessions, q)
    decreases |sessions|
  {
    if sessions != [] { CountSame(sessions[..|sessions| - 1], p, q); }
  }

  // A Check call whose caller was identified.
  predicate Identified(s: Session) {
    (s.Arrived? && s.who.Some?) || s.Judging? || s.Stamping? || s.Recording? || Logged(s)
  }

  // One that has passed its audit write.
  predicate Logged(s: Session) {
    s.Parking? || s.Forwarding? || (s.Answered? && s.resolved)
  }

  function DecidedRows(rows: Rows): set<TxId> {
    set tx | tx in rows && !rows[tx].state.Pending?
  }

  // ---- Who has a row -------------------------------------------------------

  predicate HasEntry(w: World, i: nat) {
    exists k :: 0 <= k < |w.log| && From(w.log[k], i)
  }

  // A call past its audit write never comes back to it.
  lemma LoggedOnce(cfg: Config, w: World, e: Event, i: nat)
    requires Enabled(cfg, w, e) && i < |w.sessions| && !NotYetLogged(w.sessions[i])
    ensures i < |Next(cfg, w, e).sessions| && !NotYetLogged(Next(cfg, w, e).sessions[i])
    ensures HasEntry(Next(cfg, w, e), i) <==> HasEntry(w, i)
  {
    NewEntries(cfg, w, e);
    var v := Next(cfg, w, e);
    assert forall k :: 0 <= k < |w.log| ==> v.log[k] == w.log[k];
  }

  lemma {:induction false} LoggedForGood(cfg: Config, w: World, es: seq<Event>, v: World, i: nat)
    requires Runs(cfg, w, es, v) && i < |w.sessions| && !NotYetLogged(w.sessions[i])
    ensures HasEntry(v, i) <==> HasEntry(w, i)
    decreases |es|
  {
    if es != [] {
      LoggedOnce(cfg, w, es[0], i);
      LoggedForGood(cfg, Next(cfg, w, es[0]), es[1..], v, i);
    }
  }

  lemma WriteIsTheEntry(cfg: Config, w: World, i: nat, o: Outcome, drawn: TxId)
    requires Enabled(cfg, w, Run(i, o, drawn)) && w.sessions[i].Recording? && NoEntry(w, i)
    ensures
      var v := Next(cfg, w, Run(i, o, drawn));
      (HasEntry(v, i) <==> !o.Refused?) && i < |v.sessions| && !NotYetLogged(v.sessions[i])
  {
    var v := Next(cfg, w, Run(i, o, drawn));
    if !o.Refused? { assert From(v.log[|w.log|], i); }
  }

  // A Check has its audit row, now and for ever, if and only if its own audit write took effect;
  // whatever it answered.
  lemma EntryIffWritten(cfg: Config, w: World, i: nat, o: Outcome, drawn: TxId, es: seq<Event>, v: World)
    requires Reachable(cfg, w) && Enabled(cfg, w, Run(i, o, drawn)) && w.sessions[i].Recording?
    requires Runs(cfg, Next(cfg, w, Run(i, o, drawn)), es, v)
    ensures HasEntry(v, i) <==> !o.Refused?
  {
    ReachableInv(cfg, w);
    assert SessionOk(cfg, w, i);
    WriteIsTheEntry(cfg, w, i, o, drawn);
    LoggedForGood(cfg, Next(cfg, w, Run(i, o, drawn)), es, v, i);
  }

  // ---- How many are missing -------------------------------------------------

  // The audit row this step fails to write, or makes sure that nobody will write: a refused audit
  // write, a click whose win is not reported, a row that cannot be read back.
  function Missing(w: World, e: Event): nat {
    if !e.Run? || e.actor >= |w.sessions| || e.outcome.Done? then 0
    else
      var s := w.sessions[e.actor];
      if (s.Recording? || s.Filing?) && e.outcome.Refused? then 1
      else if s.Clicking? && e.outcome.Lost? && Winnable(w.rows, s.tx) then 1
      else if s.Fetching? then 1
      else 0
  }

  function Deficit(cfg: Config, w: World, es: seq<Event>): nat
    decreases |es|
  {
    if es == [] || !Enabled(cfg, w, es[0]) then 0
    else Missing(w, es[0]) + Deficit(cfg, Next(cfg, w, es[0]), es[1..])
  }

  // Every audit row is a Check's or a decided transaction's; a decided transaction without its row
  // has a session that is still to write it, or its row is missing.
  predicate Balanced(w: World, missing: nat) {
    |w.log| + Count(w.sessions, s => Ticketed(s)) + missing
      == Count(w.sessions, s => Logged(s)) + |DecidedRows(w.rows)|
  }

  function One(b: bool): nat {
    if b then 1 else 0
  }

  predicate Wins(w: World, s: Session, o: Outcome) {
    s.Clicking? && Winnable(w.rows, s.tx) && !o.Refused?
  }

  // How one step of a session moves the numbers in the books.
  predicate Books(w: World, s: Session, o: Outcome, missing: nat, v: World, t: Session) {
    && |v.log| + One(Ticketed(t)) + missing == |w.log| + One(Ticketed(s)) + One(s.Recording?) + One(Wins(w, s, o))
    && DecidedRows(v.rows) == DecidedRows(w.rows) + (if Wins(w, s, o) then {s.tx} else {})
    && (Logged(t) <==> Logged(s) || s.Recording?)
  }

  lemma CheckBooks(cfg: Config, w: World, i: nat, o: Outcome, d: TxId)
    requires Enabled(cfg, w, Run(i, o, d)) && InCheck(w.sessions[i])
    ensures
      var (v, t) := CheckStep(cfg, w, i, w.sessions[i], o, d);
      Books(w, w.sessions[i], o, Missing(w, Run(i, o, d)), v, t)
  {
    assert DecidedRows(CheckStep(cfg, w, i, w.sessions[i], o, d).0.rows) == DecidedRows(w.rows);
  }

  lemma ClosingBooks(cfg: Config, w: World, i: nat, o: Outcome, d: TxId)
    requires Enabled(cfg, w, Run(i, o, d)) && w.sessions[i].Closing? && SessionOk(cfg, w, i)
    ensures
      var (v, t) := ClickStep(cfg, w, w.sessions[i], o, d);
      Books(w, w.sessions[i], o, Missing(w, Run(i, o, d)), v, t)
  {
    assert DecidedRows(ClickStep(cfg, w, w.sessions[i], o, d).0.rows) == DecidedRows(w.rows);
  }

  lemma LastBooks(cfg: Config, w: World, i: nat, o: Outcome, d: TxId)
    requires Enabled(cfg, w, Run(i, o, d)) && (w.sessions[i].Fetching? || w.sessions[i].Filing?) && w.sessions[i].t.tx in w.rows
    ensures
      var (v, t) := ClickStep(cfg, w, w.sessions[i], o, d);
      Books(w, w.sessions[i], o, Missing(w, Run(i, o, d)), v, t)
  {
    assert ClickStep(cfg, w, w.sessions[i], o, d).0.rows == w.rows;
  }

  lemma ExecutorBooks(cfg: Config, w: World, i: nat, o: Outcome, d: TxId)
    requires Enabled(cfg, w, Run(i, o, d)) && Ticketed(w.sessions[i])
    requires !w.sessions[i].Closing? && !w.sessions[i].Fetching? && !w.sessions[i].Filing?
    ensures
      var (v, t) := ClickStep(cfg, w, w.sessions[i], o, d);
      Books(w, w.sessions[i], o, Missing(w, Run(i, o, d)), v, t)
  {
    assert ClickStep(cfg, w, w.sessions[i], o, d).0.rows == w.rows;
  }

  lemma StepBooks(cfg: Config, w: World, i: nat, o: Outcome, d: TxId)
    requires Enabled(cfg, w, Run(i, o, d)) && SessionOk(cfg, w, i)
    ensures
      var v := Next(cfg, w, Run(i, o, d));
      && v.sessions == w.sessions[i := v.sessions[i]]
      && Books(w, w.sessions[i], o, Missing(w, Run(i, o, d)), v, v.sessions[i])
  {
    if InCheck(w.sessions[i]) { CheckBooks(cfg, w, i, o, d); }
    else if w.sessions[i].Closing? { ClosingBooks(cfg, w, i, o, d); }
    else if w.sessions[i].Fetching? || w.sessions[i].Filing? { LastBooks(cfg, w, i, o, d); }
    else if Ticketed(w.sessions[i]) { ExecutorBooks(cfg, w, i, o, d); }
  }

  lemma BooksBalance(w: World, i: nat, o: Outcome, step: nat, v: World, missing: nat)
    requires i < |w.sessions| && i < |v.sessions| && v.sessions == w.sessions[i := v.sessions[i]]
    requires Books(w, w.sessions[i], o, step, v, v.sessions[i]) && Balanced(w, missing)
    ensures Balanced(v, missing + step)
  {
    var s, t := w.sessions[i], v.sessions[i];
    CountUpdate(w.sessions, i, t, s => Ticketed(s));
    CountUpdate(w.sessions, i, t, s => Logged(s));
    if Wins(w, s, o) { assert s.tx !in DecidedRows(w.rows); }
  }

  lemma NextBalanced(cfg: Config, w: World, e: Event, missing: nat)
    requires Enabled(cfg, w, e) && ActingOk(cfg, w, e) && Balanced(w, missing)
    ensures Balanced(Next(cfg, w, e), missing + Missing(w, e))
  {
    if e.Run? {
      StepBooks(cfg, w, e.actor, e.outcome, e.drawn);
      BooksBalance(w, e.actor, e.outcome, Missing(w, e), Next(cfg, w, e), missing);
    } else if e.Begin? {
    }
  }

  lemma {:induction false} RunBalanced(cfg: Config, w: World, es: seq<Event>, v: World, missing: nat)
    requires Inv(cfg, w) && Runs(cfg, w, es, v) && Balanced(w, missing)
    ensures Balanced(v, missing + Deficit(cfg, w, es))
    decreases |es|
  {
    if es != [] {
      if es[0].Run? { assert SessionOk(cfg, w, es[0].actor); }
      NextBalanced(cfg, w, es[0], missing);
      NextInv(cfg, w, es[0]);
      RunBalanced(cfg, Next(cfg, w, es[0]), es[1..], v, missing + Missing(w, es[0]));
    }
  }

  predicate Quiescent(w: World) {
    forall i :: 0 <= i < |w.sessions| ==> Over(w.sessions[i])
  }

  // Conservation, whatever fails: once every call has returned, the rows in the log and the rows
  // missing add up to one per identified Check and one per decided transaction. So the log is
  // complete exactly when none of the three failures happened.
  lemma ConservationWithFaults(cfg: Config, w0: World, es: seq<Event>, w: World)
    requires Initial(cfg, w0) && Runs(cfg, w0, es, w) && Quiescent(w)
    ensures |w.log| + Deficit(cfg, w0, es) == Count(w.sessions, s => Identified(s)) + |DecidedRows(w.rows)|
    ensures |w.log| == Count(w.sessions, s => Identified(s)) + |DecidedRows(w.rows)| <==> Deficit(cfg, w0, es) == 0
  {
    InitialInv(cfg, w0);
    assert DecidedRows(w0.rows) == {};
    RunBalanced(cfg, w0, es, w, 0);
    assert forall i :: 0 <= i < |w.sessions| ==> Over(w.sessions[i]);
    CountNone(w.sessions, s => Ticketed(s));
    CountSame(w.sessions, s => Identified(s), s => Logged(s));
  }
}
