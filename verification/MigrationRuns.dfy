/** What the migration protocol guarantees over whole runs, and where cancellation breaks it. */
module MigrationRuns {
  import opened Wrappers
  import opened Model
  import opened Fleets
  import opened Migrations
  import opened Idle
  import opened Protocol

  // ---------------------------------------------------------------- runs that cancel no live watcher

  ghost predicate CancelFree(ls: seq<Label>) {
    forall i | 0 <= i < |ls| :: !ls[i].Cancel?
  }

  // CancelMigration is only called while no watcher is live.
  ghost predicate HarmlessCancels(w: World, ls: seq<Label>)
    requires CanRun(w, ls)
    decreases |ls|
  {
    ls == [] || ((ls[0].Cancel? ==> w.watchers == map[]) && HarmlessCancels(Step(w, ls[0]), ls[1..]))
  }

  lemma {:induction false} CancelFreeIsHarmless(w: World, ls: seq<Label>)
    requires CanRun(w, ls) && CancelFree(ls)
    ensures HarmlessCancels(w, ls)
    decreases |ls|
  {
    if ls != [] {
      CancelFreeIsHarmless(Step(w, ls[0]), ls[1..]);
    }
  }

  // Consecutive switches are as far apart as the cooldown that the later one was checked against.
  ghost predicate Spaced(sw: seq<Switch>) {
    forall i | 0 <= i < |sw| - 1 :: sw[i + 1].at >= sw[i].at + sw[i + 1].cooldown
  }

  ghost predicate AtMostOneWatcher(w: World) {
    forall j, k | j in w.watchers && k in w.watchers :: j == k
  }

  ghost predicate Logged(w: World) {
    && Spaced(w.switches)
    && (w.f.s.lastSwitch.Some? <==> w.switches != [])
    && (w.switches != [] ==> w.f.s.lastSwitch.value == w.switches[|w.switches| - 1].at <= w.now)
  }

  // The earliest time that the watcher can still put down for its switch.
  function Earliest(wt: Watcher, now: int): int {
    if wt.phase.Routed? then wt.phase.since else now
  }

  // An undecided watcher has the cooldown behind it.
  ghost predicate Rested(w: World) {
    forall k <- w.watchers.Keys :: w.watchers[k].Undecided() && w.f.s.lastSwitch.Some? ==>
      Earliest(w.watchers[k], w.now) >= w.f.s.lastSwitch.value + w.watchers[k].cooldown
  }

  ghost predicate Single(w: World) {
    && AtMostOneWatcher(w)
    && (w.watchers != map[] ==> w.f.s.migration.Some?)
    && Logged(w)
    && Rested(w)
  }

  lemma StepKeepsSingle(w: World, l: Label)
    requires CanStep(w, l) && (l.Cancel? ==> w.watchers == map[]) && Single(w)
    ensures Single(Step(w, l))
  {
    hide Act, CanAct, LooksOn, Sample, Proposes, MayChoose;
    match l
    case FleetStep(a) => ActKeepsMigration(w.f, a);
    case CheckSpeed(k, cfg, best) => StepChecks(w, k, cfg, best);
    case RecordSwitch(k, cfg, at) => StepRecords(w, k, cfg, at);
    case ClearRecord(k) => assert forall j <- w.watchers.Keys :: j == k;
    case MovePointer(k) => assert forall j <- w.watchers.Keys :: j == k;
    case _ =>
  }

  lemma StepChecks(w: World, k: nat, cfg: BalancerConfig, best: Id)
    requires CanStep(w, CheckSpeed(k, cfg, best)) && Single(w)
    ensures Single(Step(w, CheckSpeed(k, cfg, best)))
  {
    if Proposes(w.f.s, w.now, cfg, best) {
      assert w.watchers == map[];
    }
  }

  lemma StepRecords(w: World, k: nat, cfg: BalancerConfig, at: int)
    requires CanStep(w, RecordSwitch(k, cfg, at)) && Single(w)
    ensures Single(Step(w, RecordSwitch(k, cfg, at)))
  {
    var w' := Step(w, RecordSwitch(k, cfg, at));
    var n := |w.switches|;
    assert w'.switches[n] == SwitchOf(w.watchers[k], at);
    assert forall i | 0 <= i < n :: w'.switches[i] == w.switches[i];
    assert w.watchers[k].Undecided();
  }

  lemma {:induction false} RunKeepsSingle(w: World, ls: seq<Label>)
    requires CanRun(w, ls) && HarmlessCancels(w, ls) && Single(w)
    ensures Single(Run(w, ls))
    decreases |ls|
  {
    if ls != [] {
      StepKeepsSingle(w, ls[0]);
      RunKeepsSingle(Step(w, ls[0]), ls[1..]);
    }
  }

  // In every run whose cancellations, if any, all find no live watcher: one idle watcher at a time,
  // none without a migration record, and switches spaced by the cooldown.
  lemma OneMigrationAtATime(now: int, ls: seq<Label>)
    requires CanRun(Init(now), ls) && HarmlessCancels(Init(now), ls)
    ensures var w := Run(Init(now), ls);
            && AtMostOneWatcher(w)
            && (w.f.s.migration.None? ==> w.watchers == map[])
            && Spaced(w.switches)
  {
    RunKeepsSingle(Init(now), ls);
  }

  // With one cooldown throughout, any two switches are that far apart, per switch in between.
  lemma {:induction false} FixedCooldownSpacing(sw: seq<Switch>, c: int, i: int, j: int)
    requires Spaced(sw) && 0 <= i <= j < |sw|
    requires forall k | 0 <= k < |sw| :: sw[k].cooldown == c
    ensures sw[j].at - sw[i].at >= (j - i) * c
    decreases j
  {
    if i < j {
      FixedCooldownSpacing(sw, c, i, j - 1);
      assert (j - i) * c == (j - 1 - i) * c + c;
      assert sw[(j - 1) + 1].at >= sw[j - 1].at + sw[j].cooldown;
    }
  }

  // Every check of the run reads the same cooldown.
  ghost predicate OneCooldown(ls: seq<Label>, seconds: int) {
    forall i | 0 <= i < |ls| :: ls[i].CheckSpeed? ==> ls[i].cfg.cooldown == seconds
  }

  ghost predicate Uniform(w: World, c: int) {
    && (forall k <- w.watchers.Keys :: w.watchers[k].cooldown == c)
    && (forall i | 0 <= i < |w.switches| :: w.switches[i].cooldown == c)
  }

  lemma {:induction false} RunKeepsUniform(w: World, ls: seq<Label>, seconds: int)
    requires CanRun(w, ls) && OneCooldown(ls, seconds) && Uniform(w, seconds * SECOND)
    ensures Uniform(Run(w, ls), seconds * SECOND)
    decreases |ls|
  {
    if ls != [] {
      StepKeepsUniform(w, ls[0], seconds);
      RunKeepsUniform(Step(w, ls[0]), ls[1..], seconds);
    }
  }

  lemma StepKeepsUniform(w: World, l: Label, seconds: int)
    requires CanStep(w, l) && (l.CheckSpeed? ==> l.cfg.cooldown == seconds) && Uniform(w, seconds * SECOND)
    ensures Uniform(Step(w, l), seconds * SECOND)
  {
    hide Act, CanAct, LooksOn, Sample, Proposes;
  }

  // In every such run with a fixed cooldown, any two switches are at least one cooldown apart, and
  // as many cooldowns as there are switches from one to the other.
  lemma SwitchesKeepTheCooldown(now: int, ls: seq<Label>, seconds: int, i: int, j: int)
    requires CanRun(Init(now), ls) && HarmlessCancels(Init(now), ls) && OneCooldown(ls, seconds)
    requires 0 <= i <= j < |Run(Init(now), ls).switches|
    ensures var sw := Run(Init(now), ls).switches;
            sw[j].at - sw[i].at >= (j - i) * (seconds * SECOND)
  {
    OneMigrationAtATime(now, ls);
    RunKeepsUniform(Init(now), ls, seconds);
    FixedCooldownSpacing(Run(Init(now), ls).switches, seconds * SECOND, i, j);
  }

  // ---------------------------------------------------------------- what the record says

  // The record still names the move that the check compared.
  ghost predicate NamesMove(m: Migration, d: Decision) {
    && m.from.Some? && m.from.value.id == d.from && m.from.value.speedMbps == d.fromSpeed
    && m.to.Some? && m.to.value.id == d.to && m.to.value.speedMbps == d.toSpeed
  }

  // The reported record fits where the watcher is: evaluating before its wait begins, waiting with its
  // start and deadline until it fires, switching until the switch is recorded, then completed or
  // cancelled.
  ghost predicate Tells(m: Migration, wt: Watcher) {
    match wt.phase
    case Spawned => m.state == Evaluating && NamesMove(m, wt.decision)
    case Routed(_) => m.state == Switching && NamesMove(m, wt.decision)
    case Winding(_) => m.state == Completed || m.state == Cancelled
    case _ =>
      && m.state == WaitingForIdle && NamesMove(m, wt.decision)
      && m.waitingSince == Some(wt.detector.start)
      && m.timeoutAt == Some(wt.detector.start + wt.timeout)
  }

  ghost predicate RecordFits(w: World) {
    forall k <- w.watchers.Keys :: w.f.s.migration.Some? && Tells(w.f.s.migration.value, w.watchers[k])
  }

  lemma StepKeepsRecord(w: World, l: Label)
    requires CanStep(w, l) && (l.Cancel? ==> w.watchers == map[]) && Single(w) && RecordFits(w)
    ensures RecordFits(Step(w, l))
  {
    hide Act, CanAct, LooksOn, Sample, TrafficRate, Proposes, MayChoose, Logged, Rested;
    match l
    case FleetStep(a) => ActKeepsMigration(w.f, a);
    case CheckSpeed(k, cfg, best) => CheckFits(w, k, cfg, best);
    case Take(k, bytes) => TakeFits(w, k, bytes);
    case ClearRecord(k) => assert forall j <- w.watchers.Keys :: j == k;
    case MovePointer(k) => assert forall j <- w.watchers.Keys :: j == k;
    case RecordSwitch(k, _, _) => assert forall j <- w.watchers.Keys :: j == k;
    case Begin(k, _) => assert forall j <- w.watchers.Keys :: j == k;
    case Expire(k) => assert forall j <- w.watchers.Keys :: j == k;
    case _ =>
  }

  lemma CheckFits(w: World, k: nat, cfg: BalancerConfig, best: Id)
    requires CanStep(w, CheckSpeed(k, cfg, best)) && Single(w) && RecordFits(w)
    ensures RecordFits(Step(w, CheckSpeed(k, cfg, best)))
  {
    if Proposes(w.f.s, w.now, cfg, best) {
      assert w.watchers == map[];
    }
  }

  lemma TakeFits(w: World, k: nat, bytes: int)
    requires CanStep(w, Take(k, bytes)) && AtMostOneWatcher(w) && RecordFits(w)
    ensures RecordFits(Step(w, Take(k, bytes)))
  {
    hide TrafficRate;
  }

  lemma {:induction false} RunKeepsRecord(w: World, ls: seq<Label>)
    requires CanRun(w, ls) && HarmlessCancels(w, ls) && Single(w) && RecordFits(w)
    ensures RecordFits(Run(w, ls))
    decreases |ls|
  {
    hide Single, RecordFits;
    if ls != [] {
      StepKeepsSingle(w, ls[0]);
      StepKeepsRecord(w, ls[0]);
      RunKeepsRecord(Step(w, ls[0]), ls[1..]);
    }
  }

  // So in every such run the migration that is reported is the one under way, in its true state.
  lemma RecordIsTrue(now: int, ls: seq<Label>)
    requires CanRun(Init(now), ls) && HarmlessCancels(Init(now), ls)
    ensures RecordFits(Run(Init(now), ls))
  {
    RunKeepsRecord(Init(now), ls);
  }

  // ---------------------------------------------------------------- a record left behind

  // A migration record with nobody to clear it.
  ghost predicate Orphaned(w: World) {
    w.f.s.migration.Some? && w.watchers == map[]
  }

  lemma StepKeepsOrphan(w: World, l: Label)
    requires CanStep(w, l) && !l.Cancel? && Orphaned(w)
    ensures var w' := Step(w, l);
            Orphaned(w') && w'.switches == w.switches && w'.f.s.migration == w.f.s.migration
  {
    if l.FleetStep? {
      ActKeepsMigration(w.f, l.a);
    }
  }

  // From then on, until someone cancels, no migration ever starts again.
  lemma {:induction false} OrphanBlocksForever(w: World, ls: seq<Label>)
    requires CanRun(w, ls) && CancelFree(ls) && Orphaned(w)
    ensures var w' := Run(w, ls);
            Orphaned(w') && w'.switches == w.switches && w'.f.s.migration == w.f.s.migration
    decreases |ls|
  {
    if ls != [] {
      StepKeepsOrphan(w, ls[0]);
      OrphanBlocksForever(Step(w, ls[0]), ls[1..]);
    }
  }

  // A cancel-free step orphans the record exactly when the watcher's look at the state finds no
  // active tunnel with a client.
  lemma OrphansIff(w: World, l: Label)
    requires CanStep(w, l) && !l.Cancel? && Single(w) && !Orphaned(w)
    ensures Orphaned(Step(w, l)) <==>
            && l.Look?
            && (|| w.f.s.activeID == NO_TUNNEL
                || !w.f.s.ActiveKnown()
                || w.f.s.tunnels[w.f.s.activeID].client.None?)
  {
    match l
    case FleetStep(a) => ActKeepsMigration(w.f, a);
    case Look(k) =>
      assert forall j <- w.watchers.Keys :: j == k;
      assert k in w.watchers;
    case CheckSpeed(k, cfg, best) =>
      if Proposes(w.f.s, w.now, cfg, best) {
        assert k in Step(w, l).watchers;
      }
    case Begin(k, _) => assert k in Step(w, l).watchers;
    case Pass(k) => assert k in Step(w, l).watchers;
    case Expire(k) => assert k in Step(w, l).watchers;
    case Take(k, _) => assert k in Step(w, l).watchers;
    case RecordSwitch(k, _, _) => assert k in Step(w, l).watchers;
    case MovePointer(k) =>
      assert k in w.watchers;
      if TargetUp(w.f.s, w.watchers[k].target) {
        assert k in Step(w, l).watchers;
      }
    case _ =>
  }

  // ---------------------------------------------------------------- CancelMigration

  // The watcher has seen enough to switch without looking at the migration record again.
  predicate PastRecall(wt: Watcher, now: int) {
    || wt.phase.Routed?
    || wt.phase.Firing?
    || (wt.phase.Passed? && wt.detector.idleCount >= IDLE_SAMPLES - 1)
    || (wt.phase.Gated? && wt.detector.idleCount >= IDLE_SAMPLES - 1 && now - wt.detector.start <= wt.timeout)
  }

  // The watcher, if any, can no longer reach doMigration before it looks at the record, and the
  // record is empty until the watcher itself has given up.
  ghost predicate Recalled(w: World) {
    && AtMostOneWatcher(w)
    && forall k <- w.watchers.Keys ::
         && !PastRecall(w.watchers[k], w.now)
         && (w.f.s.migration.Some? ==> w.watchers[k].phase.Winding?)
  }

  ghost predicate CheckFree(ls: seq<Label>) {
    forall i | 0 <= i < |ls| :: !ls[i].CheckSpeed?
  }

  lemma StepKeepsRecalled(w: World, l: Label)
    requires CanStep(w, l) && !l.CheckSpeed? && Recalled(w)
    ensures Step(w, l).switches == w.switches && Recalled(Step(w, l))
  {
    if l.FleetStep? {
      ActKeepsMigration(w.f, l.a);
    }
  }

  lemma {:induction false} RecalledNeverSwitches(w: World, ls: seq<Label>)
    requires CanRun(w, ls) && CheckFree(ls) && Recalled(w)
    ensures Run(w, ls).switches == w.switches
    decreases |ls|
  {
    if ls != [] {
      StepKeepsRecalled(w, ls[0]);
      RecalledNeverSwitches(Step(w, ls[0]), ls[1..]);
    }
  }

  ghost predicate Switches(w: World, ls: seq<Label>) {
    CheckFree(ls) && CanRun(w, ls) && |Run(w, ls).switches| > |w.switches|
  }

  lemma Prepend(w: World, l: Label, ls: seq<Label>)
    requires CanStep(w, l) && !l.CheckSpeed? && Switches(Step(w, l), ls)
    requires |Step(w, l).switches| == |w.switches|
    ensures Switches(w, [l] + ls)
  {
    RunCons(w, l, ls);
  }

  lemma RoutedSwitches(w: World, k: nat) returns (ls: seq<Label>)
    requires !w.f.crashed && k in w.watchers && w.watchers[k].phase.Routed?
    ensures Switches(w, ls)
    decreases w.watchers[k].phase.since > w.now
  {
    var since := w.watchers[k].phase.since;
    if since <= w.now {
      var l := RecordSwitch(k, BalancerConfig(0, 0, 0), w.now);
      RunCons(w, l, []);
      ls := [l] + [];
    } else {
      var wait := Label.Tick(since - w.now);
      ls := RoutedSwitches(Step(w, wait), k);
      Prepend(w, wait, ls);
      ls := [wait] + ls;
    }
  }

  lemma FiringSwitches(w: World, k: nat) returns (ls: seq<Label>)
    requires !w.f.crashed && At(w, k, Firing)
    ensures Switches(w, ls)
  {
    var srv := Server(w.watchers[k].target, "", true, 1);
    if TargetUp(w.f.s, srv.id) {
      ls := RoutedSwitches(Step(w, MovePointer(k)), k);
      Prepend(w, MovePointer(k), ls);
      ls := [MovePointer(k)] + ls;
    } else {
      // the target comes back before doMigration looks for it
      var begin, finish := FleetStep(StartBegin(srv)), FleetStep(StartFinish(srv, Client("", true)));
      var w1 := Step(w, begin);
      assert srv in w1.f.starting;
      var w2 := Step(w1, finish);
      ls := RoutedSwitches(Step(w2, MovePointer(k)), k);
      Prepend(w2, MovePointer(k), ls);
      Prepend(w1, finish, [MovePointer(k)] + ls);
      Prepend(w, begin, [finish] + ([MovePointer(k)] + ls));
      ls := [begin] + ([finish] + ([MovePointer(k)] + ls));
    }
  }

  lemma PassedSwitches(w: World, k: nat) returns (ls: seq<Label>)
    requires !w.f.crashed && At(w, k, Passed) && w.watchers[k].detector.idleCount >= IDLE_SAMPLES - 1
    ensures Switches(w, ls)
  {
    var d := w.watchers[k].detector;
    var l := Take(k, d.prevBytes);
    NoBytesNoRate(d.prevBytes, w.now - d.waitT);
    ls := FiringSwitches(Step(w, l), k);
    Prepend(w, l, ls);
    ls := [l] + ls;
  }

  lemma NoBytesNoRate(bytes: int, dt: int)
    ensures TrafficRate(bytes, bytes, dt) == 0.0
  {
  }

  // A cancellation of the only migration holds, as long as no new one is started, exactly when
  // the watcher was not yet past the point where it looks at the record.
  lemma CancelHoldsIff(w: World)
    requires !w.f.crashed && AtMostOneWatcher(w)
    ensures (forall ls | CheckFree(ls) && CanRun(Step(w, Cancel), ls) ::
               Run(Step(w, Cancel), ls).switches == w.switches)
            <==> (forall k <- w.watchers.Keys :: !PastRecall(w.watchers[k], w.now))
  {
    var c := Step(w, Cancel);
    if k: nat :| k in w.watchers && PastRecall(w.watchers[k], w.now) {
      var ls;
      match w.watchers[k].phase
      case Routed(_) => ls := RoutedSwitches(c, k);
      case Firing => ls := FiringSwitches(c, k);
      case Passed => ls := PassedSwitches(c, k);
      case Gated =>
        ls := PassedSwitches(Step(c, Pass(k)), k);
        Prepend(c, Pass(k), ls);
        ls := [Pass(k)] + ls;
      assert Switches(c, ls);
    } else {
      forall ls | CheckFree(ls) && CanRun(c, ls)
        ensures Run(c, ls).switches == w.switches
      {
        RecalledNeverSwitches(c, ls);
      }
    }
  }
}
