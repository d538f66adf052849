/** What selectBest guarantees over whole runs: who is active, and how rarely that changes. */
module Stability {
  import opened Wrappers
  import opened Model
  import opened Selection
  import opened Lifecycle
  import opened Fleets
  import opened Protocol
  import opened Statuses

  // Whenever a selectBest completes, in any world at all: the pointer is resolved, and the choice
  // is right for the state it was made in.
  lemma EverySelectionIsRight(f: Fleet, a: Action)
    requires CanAct(f, a) && CompletesSelect(f, a)
    ensures Selected(f.s, Act(f, a).s) && Act(f, a).s.ActiveResolved()
  {
    FinishSelects(f.s, a.best);
  }

  // In every run from a fresh process that has not crashed: tiers, standbys, the active pointer
  // and every health verdict are in order.
  lemma EveryRunIsInOrder(now: int, ls: seq<Label>)
    requires CanRun(Init(now), ls) && !Run(Init(now), ls).f.crashed
    ensures var f := Run(Init(now), ls).f;
            && Shape(f.s, f.toStart)
            && PointerSafe(f)
            && HealthOk(f.s, f.pings)
  {
    RunKeepsFleet(Init(now), ls);
  }

  // So, with no Rebalance in progress, no tunnel is ever reported as disabled, and the entries
  // without a client are exactly the ones reported as standing by.
  lemma NothingIsDisabled(now: int, ls: seq<Label>, id: Id)
    requires CanRun(Init(now), ls) && !Run(Init(now), ls).f.crashed
    requires Run(Init(now), ls).f.toStart == multiset{} && id in Run(Init(now), ls).f.s.tunnels
    ensures var s := Run(Init(now), ls).f.s;
            && StatusOf(s.tunnels[id], id == s.activeID) != Disabled
            && (s.tunnels[id].client.None? <==> StatusOf(s.tunnels[id], id == s.activeID) == Standby)
  {
    EveryRunIsInOrder(now, ls);
  }

  // ---------------------------------------------------------------- where the pointer may point

  predicate GivesUp(w: World, l: Label) {
    l.FleetStep? && GivesUpActive(w.f, l.a)
  }

  // No startOne gives up on the active tunnel at any point of the run.
  ghost predicate NeverGivesUp(w: World, ls: seq<Label>)
    requires CanRun(w, ls)
    decreases |ls|
  {
    ls == [] || (!GivesUp(w, ls[0]) && NeverGivesUp(Step(w, ls[0]), ls[1..]))
  }

  ghost predicate AlwaysThreeCases(w: World, ls: seq<Label>)
    requires CanRun(w, ls)
    decreases |ls|
  {
    ThreeCases(w.f) && (ls == [] || AlwaysThreeCases(Step(w, ls[0]), ls[1..]))
  }

  lemma StepLosesPointerIff(w: World, l: Label)
    requires CanStep(w, l) && ThreeCases(w.f)
    ensures !ThreeCases(Step(w, l).f) <==> GivesUp(w, l)
  {
    hide Act, CanAct;
    if l.FleetStep? {
      LosesPointerIff(w.f, l.a);
    } else {
      OthersAreMigrationOnly(w, l);
    }
  }

  // The pointer is unset, in the map or under construction at every point of a run exactly when no
  // startOne of the run gives up on the active tunnel.
  lemma {:induction false} ThreeCasesIff(w: World, ls: seq<Label>)
    requires CanRun(w, ls) && ThreeCases(w.f)
    ensures AlwaysThreeCases(w, ls) <==> NeverGivesUp(w, ls)
    decreases |ls|
  {
    hide Step, CanStep, ThreeCases, GivesUp;
    if ls != [] {
      StepLosesPointerIff(w, ls[0]);
      if ThreeCases(Step(w, ls[0]).f) {
        ThreeCasesIff(Step(w, ls[0]), ls[1..]);
      }
    }
  }

  // In every run from a fresh process, that is.
  lemma PointerIff(now: int, ls: seq<Label>)
    requires CanRun(Init(now), ls)
    ensures AlwaysThreeCases(Init(now), ls) <==> NeverGivesUp(Init(now), ls)
  {
    ThreeCasesIff(Init(now), ls);
  }

  // ---------------------------------------------------------------- no flapping

  // Not a manual activation, a speed migration or a change of priorities.
  predicate Calm(l: Label) {
    !l.MovePointer? && !(l.FleetStep? && (l.a.Activate? || l.a.Sync?))
  }

  ghost predicate AllCalm(ls: seq<Label>) {
    forall i | 0 <= i < |ls| :: Calm(ls[i])
  }

  predicate Steady(w: World) {
    w.f.s.activeID != NO_TUNNEL && ActiveHealthy(w.f.s)
  }

  // The active tunnel keeps its good verdict at every point of the run.
  ghost predicate SteadyRun(w: World, ls: seq<Label>)
    requires CanRun(w, ls)
    decreases |ls|
  {
    Steady(w) && (ls == [] || SteadyRun(Step(w, ls[0]), ls[1..]))
  }

  function Tier(w: World): int
    requires Steady(w)
  {
    w.f.s.tunnels[w.f.s.activeID].priority
  }

  ghost function PointerChanges(w: World, ls: seq<Label>): nat
    requires CanRun(w, ls)
    decreases |ls|
  {
    if ls == [] then 0
    else (if Step(w, ls[0]).f.s.activeID != w.f.s.activeID then 1 else 0) + PointerChanges(Step(w, ls[0]), ls[1..])
  }

  lemma CalmStepClimbs(w: World, l: Label)
    requires CanStep(w, l) && Calm(l) && Steady(w) && Steady(Step(w, l))
    ensures if Step(w, l).f.s.activeID != w.f.s.activeID then Tier(Step(w, l)) < Tier(w)
            else Tier(Step(w, l)) == Tier(w)
  {
    match l
    case FleetStep(a) =>
      if a.SelectEnter? || a.SelectResume? {
        SelectClimbs(w.f.s, a.best);
      } else {
        OthersKeepActive(w.f, a);
      }
    case _ =>
  }

  lemma SelectClimbs(s: State, best: Id)
    requires MayPick(s, best) && s.activeID != NO_TUNNEL && ActiveHealthy(s)
    ensures var s' := Finish(s, best);
            && s' == s.(activeID := s'.activeID)
            && (s'.activeID != s.activeID && s'.activeID in s.tunnels && AliveSet(s) != {} ==>
                  s.tunnels[s'.activeID].priority < s.tunnels[s.activeID].priority)
            && (AliveSet(s) == {} ==> s'.activeID == NO_TUNNEL)
  {
  }

  lemma InPlaceKeepsTiers(f: Fleet, a: Action, id: Id)
    requires CanAct(f, a) && InPlace(a) && id in f.s.tunnels
    ensures Act(f, a).s.activeID == f.s.activeID
    ensures id in Act(f, a).s.tunnels && Act(f, a).s.tunnels[id].priority == f.s.tunnels[id].priority
  {
    hide MayPick, PingPanics, LaunchesBackups, Finish, QueuesTeardown, SyncAll;
  }

  lemma OthersKeepActive(f: Fleet, a: Action)
    requires CanAct(f, a) && !a.SelectEnter? && !a.SelectResume? && !a.Activate? && !a.Sync?
    requires ActiveHealthy(f.s) && f.s.activeID != NO_TUNNEL
    requires ActiveHealthy(Act(f, a).s) && Act(f, a).s.activeID != NO_TUNNEL
    ensures Act(f, a).s.activeID == f.s.activeID
    ensures Act(f, a).s.tunnels[f.s.activeID].priority == f.s.tunnels[f.s.activeID].priority
  {
    hide MayPick, PingPanics, LaunchesBackups, Finish, QueuesTeardown, SyncAll, PingState, DeadState, SpeedState;
    if InPlace(a) {
      InPlaceKeepsTiers(f, a, f.s.activeID);
      return;
    }
  }

  // Every change of the pointer strictly lowers the tier number.
  lemma {:induction false} CalmRunClimbs(w: World, ls: seq<Label>)
    requires CanRun(w, ls) && AllCalm(ls) && SteadyRun(w, ls)
    ensures Steady(Run(w, ls))
    ensures Tier(Run(w, ls)) + PointerChanges(w, ls) <= Tier(w)
    decreases |ls|
  {
    if ls != [] {
      assert Calm(ls[0]);
      CalmStepClimbs(w, ls[0]);
      CalmRunClimbs(Step(w, ls[0]), ls[1..]);
    }
  }

  // So, however long the run, the pointer moves at most twice.
  lemma NoFlapping(now: int, before: seq<Label>, ls: seq<Label>)
    requires CanRun(Init(now), before) && !Run(Init(now), before).f.crashed
    requires CanRun(Run(Init(now), before), ls) && !Run(Run(Init(now), before), ls).f.crashed
    requires AllCalm(ls) && SteadyRun(Run(Init(now), before), ls)
    ensures PointerChanges(Run(Init(now), before), ls) <= 2
  {
    var w := Run(Init(now), before);
    RunKeepsFleet(Init(now), before);
    RunKeepsFleet(w, ls);
    CalmRunClimbs(w, ls);
  }

  // The queued teardown, whenever it gets to run: as long as the run in between is calm and
  // steady, it does not touch the tunnel that is active by then.
  lemma LateTeardownSparesActive(w: World, best: Id, ls: seq<Label>)
    requires CanStep(w, FleetStep(SelectEnter(best)))
    requires !LaunchesBackups(w.f.s) && QueuesTeardown(w.f.s)
    requires CanRun(Step(w, FleetStep(SelectEnter(best))), ls) && AllCalm(ls)
    requires SteadyRun(Step(w, FleetStep(SelectEnter(best))), ls)
    requires CanStep(Run(Step(w, FleetStep(SelectEnter(best))), ls), FleetStep(StopBackups))
    ensures var w1 := Run(Step(w, FleetStep(SelectEnter(best))), ls);
            var w2 := Step(w1, FleetStep(StopBackups));
            && w2.f.s.activeID == w1.f.s.activeID && w1.f.s.ActiveKnown() && w2.f.s.ActiveKnown()
            && w2.f.s.tunnels[w2.f.s.activeID] == w1.f.s.tunnels[w1.f.s.activeID]
            && !BackupRunning(w2.f.s)
  {
    var w0 := Step(w, FleetStep(SelectEnter(best)));
    PrimaryAfterTeardownQueued(w.f.s, best);
    assert w0.f.s == Finish(w.f.s, best);
    CalmRunClimbs(w0, ls);
    var w1 := Run(w0, ls);
    assert Tier(w1) <= 2;
    StopPriority3Spares(w1.f.s);
    hide Finish, CanRun, Run, AllCalm, SteadyRun;
  }

  // A teardown takes the active tunnel out of service.
  predicate Hits(s: State, s': State) {
    s.ActiveKnown() && s.tunnels[s.activeID].Running() && Clientless(s', s.activeID)
  }

  // After any calm run, steady or not: it does so exactly when the tunnel active by then is a
  // running backup, and then the active tunnel has failed in between.
  lemma LateTeardownHitsIff(w: World, best: Id, ls: seq<Label>)
    requires CanStep(w, FleetStep(SelectEnter(best)))
    requires !LaunchesBackups(w.f.s) && QueuesTeardown(w.f.s)
    requires CanRun(Step(w, FleetStep(SelectEnter(best))), ls) && AllCalm(ls)
    requires CanStep(Run(Step(w, FleetStep(SelectEnter(best))), ls), FleetStep(StopBackups))
    ensures var w0 := Step(w, FleetStep(SelectEnter(best)));
            var w1 := Run(w0, ls);
            var s := w1.f.s;
            && (Hits(s, Step(w1, FleetStep(StopBackups)).f.s) <==>
                  s.ActiveKnown() && s.tunnels[s.activeID].Running() && s.tunnels[s.activeID].priority == 3)
            && (Hits(s, Step(w1, FleetStep(StopBackups)).f.s) ==> !SteadyRun(w0, ls))
  {
    var w0 := Step(w, FleetStep(SelectEnter(best)));
    var w1 := Run(w0, ls);
    TeardownHitsIff(w1);
    if SteadyRun(w0, ls) {
      LateTeardownSparesActive(w, best, ls);
    }
  }

  lemma TeardownHitsIff(w: World)
    requires CanStep(w, FleetStep(StopBackups))
    ensures var s := w.f.s;
            Hits(s, Step(w, FleetStep(StopBackups)).f.s) <==>
              s.ActiveKnown() && s.tunnels[s.activeID].Running() && s.tunnels[s.activeID].priority == 3
  {
  }

  lemma PrimaryAfterTeardownQueued(s: State, best: Id)
    requires MayPick(s, best) && QueuesTeardown(s)
    ensures Finish(s, best).ActiveKnown() && s.tunnels[Finish(s, best).activeID].priority <= 2
  {
    TeardownSparesActive(s, best);
    FinishSelects(s, best);
    var p :| p in AliveSet(s) && s.tunnels[p].priority <= 2;
  }

  lemma StopPriority3Spares(s: State)
    requires s.ActiveKnown() && s.tunnels[s.activeID].priority <= 2
    ensures var s' := StopPriority3(s);
            s'.activeID == s.activeID && s'.ActiveKnown() && s'.tunnels[s'.activeID] == s.tunnels[s.activeID]
            && !BackupRunning(s')
  {
  }

  // ---------------------------------------------------------------- backups without a ping loop

  ghost predicate PingFree(ls: seq<Label>) {
    forall i | 0 <= i < |ls| :: !(ls[i].FleetStep? && ls[i].a.PingEnd?)
  }

  lemma StepAliveNeedsPing(w: World, l: Label)
    requires CanStep(w, l) && !(l.FleetStep? && l.a.PingEnd?)
    ensures AliveSet(Step(w, l).f.s) <= AliveSet(w.f.s)
  {
    if l.FleetStep? {
      AliveNeedsPing(w.f, l.a);
    }
  }

  lemma {:induction false} RunAliveNeedsPing(w: World, ls: seq<Label>)
    requires CanRun(w, ls) && PingFree(ls)
    ensures AliveSet(Run(w, ls).f.s) <= AliveSet(w.f.s)
    decreases |ls|
  {
    if ls != [] {
      StepAliveNeedsPing(w, ls[0]);
      RunAliveNeedsPing(Step(w, ls[0]), ls[1..]);
    }
  }

  // When the caller that launches backups is the ping loop itself, no ping ends before it
  // resumes. Then no backup is ever seen connected, whatever was started meanwhile, and the
  // selection falls back to no active tunnel.
  lemma BackupsUnseenFromPingLoop(w: World, best: Id, ls: seq<Label>, again: Id)
    requires CanStep(w, FleetStep(SelectEnter(best))) && LaunchesBackups(w.f.s)
    requires CanRun(Step(w, FleetStep(SelectEnter(best))), ls) && PingFree(ls)
    requires CanStep(Run(Step(w, FleetStep(SelectEnter(best))), ls), FleetStep(SelectResume(again)))
    ensures var w1 := Run(Step(w, FleetStep(SelectEnter(best))), ls);
            && AliveSet(w1.f.s) == {}
            && Step(w1, FleetStep(SelectResume(again))).f.s.activeID == NO_TUNNEL
  {
    RunAliveNeedsPing(Step(w, FleetStep(SelectEnter(best))), ls);
  }

  // ---------------------------------------------------------------- an active tunnel whose process died

  // The process is gone, the last verdict was good, and no ping is on its way.
  predicate DeadButHealthy(w: World, id: Id) {
    && id in w.f.s.tunnels
    && !w.f.s.tunnels[id].Running()
    && w.f.s.tunnels[id].latency >= 0
    && w.f.s.tunnels[id].client.Some?
    && w.f.pinging != Some(id)
  }

  // Leaves the entry alone: nobody restarts, stops or re-tiers it, or moves the pointer by hand.
  predicate LeavesAlone(l: Label, id: Id) {
    && Calm(l)
    && (l.FleetStep? ==>
          match l.a
          case StartBegin(srv) => srv.id != id
          case StartFinish(srv, _) => srv.id != id
          case RebalanceStart(srv) => srv.id != id
          case StopTunnel(i) => i != id
          case ClearAll => false
          case _ => true)
  }

  // A selection completed here has another live tunnel to offer, but none of a better tier.
  predicate OffersPeersOnly(w: World, l: Label, id: Id) {
    l.FleetStep? && CompletesSelect(w.f, l.a) && id in w.f.s.tunnels ==>
      && AliveSet(w.f.s) != {}
      && forall c <- AliveSet(w.f.s) :: w.f.s.tunnels[c].priority >= w.f.s.tunnels[id].priority
  }

  ghost predicate PeersOnly(w: World, ls: seq<Label>, id: Id)
    requires CanRun(w, ls)
    decreases |ls|
  {
    ls == [] || (OffersPeersOnly(w, ls[0], id) && PeersOnly(Step(w, ls[0]), ls[1..], id))
  }

  lemma StepKeepsDead(w: World, l: Label, id: Id)
    requires CanStep(w, l) && LeavesAlone(l, id) && OffersPeersOnly(w, l, id)
    requires DeadButHealthy(w, id) && w.f.s.activeID == id && id != NO_TUNNEL
    ensures DeadButHealthy(Step(w, l), id) && Step(w, l).f.s.activeID == id
  {
    match l
    case FleetStep(a) =>
      if CompletesSelect(w.f, a) {
        SelectKeepsDead(w.f.s, a.best);
      } else if !a.SelectEnter? {
        OthersKeepDead(w.f, a, id);
      }
    case _ =>
  }

  lemma SelectKeepsDead(s: State, best: Id)
    requires MayPick(s, best) && s.activeID != NO_TUNNEL && ActiveHealthy(s)
    requires AliveSet(s) != {} && forall c <- AliveSet(s) :: s.tunnels[c].priority >= s.tunnels[s.activeID].priority
    ensures Finish(s, best) == s
  {
  }

  lemma InPlaceKeepsDead(f: Fleet, a: Action, id: Id)
    requires CanAct(f, a) && LeavesAlone(FleetStep(a), id) && InPlace(a)
    requires id in f.s.tunnels && !f.s.tunnels[id].Running() && f.s.tunnels[id].client.Some?
    requires f.pinging != Some(id) && f.s.activeID == id
    ensures var f' := Act(f, a);
            && id in f'.s.tunnels && f'.s.tunnels[id].latency == f.s.tunnels[id].latency
            && !f'.s.tunnels[id].Running() && f'.s.tunnels[id].client.Some?
            && f'.pinging != Some(id) && f'.s.activeID == f.s.activeID
  {
  }

  lemma OthersKeepDead(f: Fleet, a: Action, id: Id)
    requires CanAct(f, a) && LeavesAlone(FleetStep(a), id) && !a.SelectEnter? && !a.SelectResume?
    requires id in f.s.tunnels && !f.s.tunnels[id].Running() && f.s.tunnels[id].client.Some?
    requires f.pinging != Some(id) && f.s.activeID == id
    ensures var f' := Act(f, a);
            && id in f'.s.tunnels && f'.s.tunnels[id].latency == f.s.tunnels[id].latency
            && !f'.s.tunnels[id].Running() && f'.s.tunnels[id].client.Some?
            && f'.pinging != Some(id) && f'.s.activeID == f.s.activeID
  {
    hide MayPick, PingPanics, LaunchesBackups, Finish, QueuesTeardown, SyncAll, PingState, DeadState, SpeedState,
      StopPriority3;
    if InPlace(a) {
      InPlaceKeepsDead(f, a, id);
    }
  }

  // An active tunnel whose process has died with a good verdict stays active through any number
  // of pings and selections, with live tunnels of its own tier standing by.
  lemma {:induction false} DeadActiveSticks(w: World, ls: seq<Label>, id: Id)
    requires CanRun(w, ls) && PeersOnly(w, ls, id)
    requires forall i | 0 <= i < |ls| :: LeavesAlone(ls[i], id)
    requires DeadButHealthy(w, id) && w.f.s.activeID == id && id != NO_TUNNEL
    ensures DeadButHealthy(Run(w, ls), id) && Run(w, ls).f.s.activeID == id
    decreases |ls|
  {
    if ls != [] {
      assert LeavesAlone(ls[0], id);
      StepKeepsDead(w, ls[0], id);
      DeadActiveSticks(Step(w, ls[0]), ls[1..], id);
    }
  }
}
