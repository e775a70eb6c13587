// Which policy an approval's re-check uses. Reload reads the file and swaps the
// engine's policies in two steps, and Decide takes its snapshot in a third, so
// another session's slower Reload can install an older text in between.
module Freshness {
  import opened Wrappers
  import opened Store
  import opened Audit
  import opened Protocol
  import opened Invariant
  import opened Preservation
  import opened Guarantees

  // ---- The bound: no older than the oldest Reload in flight ---------------

  predicate FloorOk(w: World, i: nat) {
    i < |w.sessions| &&
    match w.sessions[i]
    case Swapping(_, _, _, readAt, floor) =>
      forall j :: 0 <= j < |w.sessions| && w.sessions[j].Swapping? ==> floor <= w.sessions[j].readAt
    case Snapping(_, _, _, floor) =>
      && (forall j :: 0 <= j < |w.sessions| && w.sessions[j].Swapping? ==> floor <= w.sessions[j].readAt)
      && |w.installs| > 0 && floor <= w.Current().readAt
    case Rejudging(_, _, _, floor, inst, _) => inst < |w.installs| && floor <= w.installs[inst].readAt
    case _ => true
  }

  predicate Floors(w: World) {
    forall i :: 0 <= i < |w.sessions| ==> FloorOk(w, i)
  }

  // How a step changes the reloads in flight and the installed policy.
  lemma StepReloads(cfg: Config, w: World, e: Event)
    requires Enabled(cfg, w, e)
    ensures
      var v := Next(cfg, w, e);
      && w.installs <= v.installs && |v.installs| <= |w.installs| + 1 && |w.sessions| <= |v.sessions|
      && (|v.installs| > |w.installs| ==>
            e.Run? && w.sessions[e.actor].Swapping? && v.Current().readAt == w.sessions[e.actor].readAt)
      && (forall j :: 0 <= j < |v.sessions| && v.sessions[j].Swapping? ==>
            || (j < |w.sessions| && v.sessions[j] == w.sessions[j])
            || v.sessions[j].readAt == w.Now())
  {
  }

  lemma FloorKept(cfg: Config, w: World, e: Event, i: nat)
    requires Enabled(cfg, w, e) && !RunBy(e, i) && FloorOk(w, i) && SessionOk(cfg, w, i)
    ensures FloorOk(Next(cfg, w, e), i)
  {
    StepReloads(cfg, w, e);
    var v := Next(cfg, w, e);
    assert v.sessions[i] == w.sessions[i];
    if w.sessions[i].Rejudging? {
      assert v.installs[w.sessions[i].inst] == w.installs[w.sessions[i].inst];
    }
  }

  lemma FloorSet(cfg: Config, w: World, e: Event)
    requires Enabled(cfg, w, e) && e.Run? && SessionOk(cfg, w, e.actor) && FloorOk(w, e.actor)
    ensures FloorOk(Next(cfg, w, e), e.actor)
  {
  }

  lemma {:induction false} RunFloors(cfg: Config, w: World, es: seq<Event>, v: World)
    requires Inv(cfg, w) && Floors(w) && Runs(cfg, w, es, v)
    ensures Inv(cfg, v) && Floors(v)
    decreases |es|
  {
    if es != [] {
      var next := Next(cfg, w, es[0]);
      NextInv(cfg, w, es[0]);
      forall i | 0 <= i < |next.sessions| ensures FloorOk(next, i) {
        if i < |w.sessions| { assert FloorOk(w, i) && SessionOk(cfg, w, i); }
        if es[0].Run? && es[0].actor == i { FloorSet(cfg, w, es[0]); }
        else if i < |w.sessions| { FloorKept(cfg, w, es[0], i); }
      }
      RunFloors(cfg, next, es[1..], v);
    }
  }

  lemma ReachableFloors(cfg: Config, w: World)
    requires Reachable(cfg, w)
    ensures Inv(cfg, w) && Floors(w)
  {
    var w0, es :| Initial(cfg, w0) && Runs(cfg, w0, es, w);
    InitialInv(cfg, w0);
    RunFloors(cfg, w0, es, w);
  }

  // The policy a re-check is about to use is one the file really held, at an instant no earlier
  // than the read of the oldest Reload in flight when this session's own Reload read the file; if
  // none was older, that instant is after the approving click.
  predicate PolicyAged(cfg: Config, w: World, i: nat) {
    i < |w.sessions| && w.sessions[i].Rejudging? &&
    var s := w.sessions[i];
    && s.inst < |w.installs| && w.installs[s.inst].readAt <= w.Now()
    && var used := w.installs[s.inst];
    && used.readAt >= s.floor
    && cfg.reader.parse(w.MomentAt(used.readAt).disk) == Some(used.policies)
    && s.t.clickAt < s.readAt
    && (s.floor == s.readAt ==> used.readAt > s.t.clickAt)
  }

  lemma RecheckPolicyAge(cfg: Config, w: World, i: nat)
    requires Reachable(cfg, w) && i < |w.sessions| && w.sessions[i].Rejudging?
    ensures PolicyAged(cfg, w, i)
  {
    ReachableFloors(cfg, w);
    assert FloorOk(w, i) && SessionOk(cfg, w, i);
    assert InstallOk(cfg, w, w.sessions[i].inst);
  }

  // ---- When the re-check is guaranteed to see the file as it is after the click ----

  // A Reload in flight whose read came before `clickAt`.
  predicate OlderReload(w: World, clickAt: nat) {
    exists j :: 0 <= j < |w.sessions| && w.sessions[j].Swapping? && w.sessions[j].readAt < clickAt
  }

  // Session `i` can no longer end up with a policy read before its click.
  predicate StaysFresh(w: World, i: nat, clickAt: nat) {
    i < |w.sessions| &&
    match w.sessions[i]
    case Reading(_, _) => clickAt < w.Now() && !OlderReload(w, clickAt)
    case Swapping(_, _, _, readAt, _) => clickAt < readAt && !OlderReload(w, clickAt)
    case Snapping(_, _, _, _) => |w.installs| > 0 && clickAt <= w.Current().readAt && !OlderReload(w, clickAt)
    case Rejudging(_, _, _, _, inst, _) => inst < |w.installs| && clickAt <= w.installs[inst].readAt
    case _ => !w.sessions[i].Clicking? && !w.sessions[i].Fetching?
  }

  lemma StaysFreshStep(cfg: Config, w: World, e: Event, i: nat, clickAt: nat)
    requires Inv(cfg, w) && Enabled(cfg, w, e) && clickAt <= w.Now() && StaysFresh(w, i, clickAt)
    ensures StaysFresh(Next(cfg, w, e), i, clickAt)
  {
    if !OlderReload(w, clickAt) { StepReloads(cfg, w, e); }
    assert SessionOk(cfg, w, i);
    if RunBy(e, i) {
      var s := w.sessions[e.actor];
      if !s.Reading? && !s.Swapping? && !s.Snapping? { PastReload(cfg, w, e); }
    } else {
      StaysFreshOtherStep(cfg, w, e, i, clickAt);
    }
  }

  lemma StaysFreshOtherStep(cfg: Config, w: World, e: Event, i: nat, clickAt: nat)
    requires Enabled(cfg, w, e) && !RunBy(e, i) && SessionOk(cfg, w, i)
    requires clickAt <= w.Now() && StaysFresh(w, i, clickAt)
    requires !OlderReload(w, clickAt) ==> !OlderReload(Next(cfg, w, e), clickAt)
    requires !OlderReload(w, clickAt) && |Next(cfg, w, e).installs| > |w.installs| ==> clickAt <= Next(cfg, w, e).Current().readAt
    ensures StaysFresh(Next(cfg, w, e), i, clickAt)
  {
    StepReloads(cfg, w, e);
    var v := Next(cfg, w, e);
    assert v.sessions[i] == w.sessions[i];
    if w.sessions[i].Rejudging? {
      assert v.installs[w.sessions[i].inst] == w.installs[w.sessions[i].inst];
    }
  }

  lemma PastReload(cfg: Config, w: World, e: Event)
    requires Enabled(cfg, w, e) && e.Run?
    requires
      var s := w.sessions[e.actor];
      !s.Clicking? && !s.Fetching? && !s.Reading? && !s.Swapping? && !s.Snapping?
    ensures
      var s := Next(cfg, w, e).sessions[e.actor];
      !s.Clicking? && !s.Fetching? && !s.Reading? && !s.Swapping? && !s.Snapping? && !s.Rejudging?
  {
  }

  lemma {:induction false} StaysFreshRun(cfg: Config, w: World, es: seq<Event>, v: World, i: nat, clickAt: nat)
    requires Inv(cfg, w) && Runs(cfg, w, es, v) && clickAt <= w.Now() && StaysFresh(w, i, clickAt)
    ensures StaysFresh(v, i, clickAt)
    decreases |es|
  {
    if es != [] {
      NextInv(cfg, w, es[0]);
      StaysFreshStep(cfg, w, es[0], i, clickAt);
      StaysFreshRun(cfg, Next(cfg, w, es[0]), es[1..], v, i, clickAt);
    }
  }

  // From `w` to `v` the policy file did not change.
  predicate SameDisk(w: World, v: World) {
    && w.past <= v.past && v.disk == w.disk
    && (forall t :: |w.past| <= t < |v.past| ==> v.past[t].disk == w.disk)
  }

  // `v` is a world in which session `i` is about to re-check with the policy that `reload` read.
  predicate Rechecks(w: World, v: World, i: nat, reload: Session) {
    && i < |w.sessions| && w.sessions[i].Reading? && reload.Swapping?
    && SameDisk(w, v) && |w.sessions| <= |v.sessions|
    && i < |v.sessions| && v.sessions[i].Rejudging? && v.sessions[i].t == w.sessions[i].t && v.sessions[i].c == w.sessions[i].c
    && v.sessions[i].inst < |v.installs|
    && v.installs[v.sessions[i].inst].text == reload.text && v.installs[v.sessions[i].inst].readAt == reload.readAt
  }

  // From a session about to reload, with an older Reload in flight: both swap, the older last,
  // and the re-check takes the older policy.
  lemma OlderReloadWins(cfg: Config, w: World, i: nat, j: nat) returns (v: World)
    requires i < |w.sessions| && j < |w.sessions| && w.sessions[i].Reading? && w.sessions[j].Swapping?
    requires cfg.reader.parse(w.disk).Some? && |w.installs| > 0
    ensures Leads(cfg, w, v) && Rechecks(w, v, i, w.sessions[j])
  {
    var d := Undrawn(w.log);
    var e := Run(i, Done, d);
    var read := Next(cfg, w, e);
    var swapped := Next(cfg, read, e);
    StepLeads(cfg, w, e);
    StepLeads(cfg, read, e);
    LeadsThen(cfg, w, read, swapped);
    v := LateSwapSnaps(cfg, swapped, i, j, d);
    LeadsThen(cfg, w, swapped, v);
  }

  lemma LateSwapSnaps(cfg: Config, w: World, i: nat, j: nat, d: TxId) returns (v: World)
    requires i < |w.sessions| && j < |w.sessions| && w.sessions[i].Snapping? && w.sessions[j].Swapping?
    requires |w.installs| > 0 && Fresh(w.log, d)
    ensures Leads(cfg, w, v) && SameDisk(w, v) && |w.sessions| <= |v.sessions|
    ensures i < |v.sessions| && v.sessions[i].Rejudging? && v.sessions[i].t == w.sessions[i].t && v.sessions[i].c == w.sessions[i].c
    ensures v.sessions[i].inst < |v.installs|
    ensures
      var used := v.installs[v.sessions[i].inst];
      used.text == w.sessions[j].text && used.readAt == w.sessions[j].readAt
  {
    var swapped := Next(cfg, w, Run(j, Done, d));
    v := Next(cfg, swapped, Run(i, Done, d));
    StepLeads(cfg, w, Run(j, Done, d));
    StepLeads(cfg, swapped, Run(i, Done, d));
    LeadsThen(cfg, w, swapped, v);
  }

  // The re-check of session `i`, once it has taken its snapshot, uses a policy read no earlier than the click.
  predicate FreshRecheck(v: World, i: nat, clickAt: nat) {
    i < |v.sessions| && v.sessions[i].Rejudging? ==>
      v.sessions[i].inst < |v.installs| && clickAt <= v.installs[v.sessions[i].inst].readAt
  }

  // The re-check is meant to see every policy edit made before the click. It does, in every
  // continuation, if and only if no Reload that read the file before the click is still in
  // flight when this session's own Reload is about to read it.
  lemma FreshIffNoOlderReload(cfg: Config, w: World, i: nat)
    requires Reachable(cfg, w) && i < |w.sessions| && w.sessions[i].Reading?
    ensures (forall es, v :: Runs(cfg, w, es, v) ==> FreshRecheck(v, i, w.sessions[i].t.clickAt))
            <==> !OlderReload(w, w.sessions[i].t.clickAt)
  {
    ReachableInv(cfg, w);
    var clickAt := w.sessions[i].t.clickAt;
    if OlderReload(w, clickAt) {
      OlderReloadIsStale(cfg, w, i, clickAt);
    } else {
      assert SessionOk(cfg, w, i);
      forall es, v | Runs(cfg, w, es, v) ensures FreshRecheck(v, i, clickAt) {
        StaysFreshRun(cfg, w, es, v, i, clickAt);
      }
    }
  }

  lemma OlderReloadIsStale(cfg: Config, w: World, i: nat, clickAt: nat)
    requires Inv(cfg, w) && i < |w.sessions| && w.sessions[i].Reading? && w.sessions[i].t.clickAt == clickAt
    requires OlderReload(w, clickAt)
    ensures exists es, v :: Runs(cfg, w, es, v) && !FreshRecheck(v, i, clickAt)
  {
    var j :| 0 <= j < |w.sessions| && w.sessions[j].Swapping? && w.sessions[j].readAt < clickAt;
    assert SessionOk(cfg, w, j);
    StaleRecheck(cfg, w, i, j);
  }

  lemma StaleRecheck(cfg: Config, w: World, i: nat, j: nat)
    requires |w.installs| > 0 && i < |w.sessions| && j < |w.sessions|
    requires w.sessions[i].Reading? && w.sessions[j].Swapping? && cfg.reader.parse(w.sessions[j].text).Some?
    requires w.sessions[j].readAt < w.sessions[i].t.clickAt
    ensures exists es, v :: Runs(cfg, w, es, v) && !FreshRecheck(v, i, w.sessions[i].t.clickAt)
  {
    var e := Edit(w.sessions[j].text);
    var u := Next(cfg, w, e);
    assert u.sessions == w.sessions && u.installs == w.installs && u.disk == w.sessions[j].text;
    StepLeads(cfg, w, e);
    var v := OlderReloadWins(cfg, u, i, j);
    LeadsThen(cfg, w, u, v);
  }
}
