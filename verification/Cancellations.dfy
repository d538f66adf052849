/**
 What CancelMigration breaks. A cancellation is harmless exactly when it finds no live watcher: after
 any other one, some continuation without a further cancellation has two watchers, and some records
 two switches at the same instant.
 */
module Cancellations {
  import opened Wrappers
  import opened Model
  import opened Health
  import opened Fleets
  import opened Migrations
  import opened Idle
  import opened Protocol
  import opened MigrationRuns
  import opened Reachability

  // ---------------------------------------------------------------- clearing the ground

  // The steps in between drove no migration.
  ghost predicate Apart(w: World, w': World) {
    && w'.watchers == w.watchers
    && w'.switches == w.switches
    && w'.f.s.migration == w.f.s.migration
    && w'.f.s.lastSwitch == w.f.s.lastSwitch
    && !w'.f.crashed
  }

  // ---------------------------------------------------------------- two peers, one faster

  function Peer(id: Id): Server {
    Server(id, id, true, 1)
  }

  function PeerTunnel(id: Id, latency: int, speed: real): Tunnel {
    Tunnel(Some(UP), Peer(id), 1, latency, speed, 0)
  }

  // "a" is active at 1 Mbps, "b" healthy at 2 Mbps, and there is nothing else.
  predicate Peered(s: State) {
    && s.tunnels == map["a" := PeerTunnel("a", -1, 1.0), "b" := PeerTunnel("b", 1, 2.0)]
    && s.activeID == "a"
  }

  // Everything is stopped, and no ping is on its way.
  lemma ClearUp(w: World) returns (w': World)
    requires !w.f.crashed
    ensures Reaches(w, w') && Apart(w, w')
    ensures w'.now == w.now && w'.f.s.tunnels == map[] && w'.f.pinging.None?
  {
    ReachesSelf(w);
    w' := Step(w, FleetStep(Action.ClearAll));
    Then(w, w, FleetStep(Action.ClearAll));
    if w'.f.pinging.Some? {
      Then(w, w', FleetStep(PingEnd(Lost)));
      w' := Step(w', FleetStep(PingEnd(Lost)));
    }
  }

  lemma BringUp(w: World, id: Id) returns (w': World)
    requires !w.f.crashed && id !in w.f.s.tunnels
    ensures Reaches(w, w') && Apart(w, w')
    ensures w'.now == w.now && w'.f.pinging == w.f.pinging
    ensures w'.f.s.tunnels == w.f.s.tunnels[id := PeerTunnel(id, -1, 0.0)]
  {
    ReachesSelf(w);
    var begin, finish := FleetStep(StartBegin(Peer(id))), FleetStep(StartFinish(Peer(id), UP));
    var w1 := Step(w, begin);
    assert Peer(id) in w1.f.starting;
    Then(w, w, begin);
    Then(w, w1, finish);
    w' := Step(w1, finish);
    assert w1.f.s.tunnels == w.f.s.tunnels;
  }

  lemma Answer(w: World, id: Id) returns (w': World)
    requires !w.f.crashed && w.f.pinging.None? && id in w.f.s.tunnels
    requires w.f.s.tunnels[id] == PeerTunnel(id, -1, 0.0)
    ensures Reaches(w, w') && Apart(w, w')
    ensures w'.now == w.now
    ensures w'.f.s.tunnels == w.f.s.tunnels[id := PeerTunnel(id, 1, 0.0)]
  {
    ReachesSelf(w);
    var w1 := Step(w, FleetStep(PingStart(id)));
    Then(w, w, FleetStep(PingStart(id)));
    Then(w, w1, FleetStep(PingEnd(Reply(1))));
    w' := Step(w1, FleetStep(PingEnd(Reply(1))));
  }

  lemma Measure(w: World, id: Id, speed: real) returns (w': World)
    requires !w.f.crashed && id in w.f.s.tunnels
    ensures Reaches(w, w') && Apart(w, w')
    ensures w'.now == w.now
    ensures w'.f.s.tunnels == w.f.s.tunnels[id := w.f.s.tunnels[id].(speedMbps := speed)]
  {
    ReachesSelf(w);
    w' := Step(w, FleetStep(SpeedEnd(id, Some(speed))));
    Then(w, w, FleetStep(SpeedEnd(id, Some(speed))));
  }

  lemma Point(w: World, id: Id) returns (w': World)
    requires !w.f.crashed && id in w.f.s.tunnels && w.f.s.tunnels[id].Running()
    ensures Reaches(w, w') && Apart(w, w')
    ensures w'.now == w.now
    ensures w'.f.s.tunnels == w.f.s.tunnels && w'.f.s.activeID == id
  {
    ReachesSelf(w);
    w' := Step(w, FleetStep(Activate(id)));
    Then(w, w, FleetStep(Activate(id)));
  }

  // From any world that has not crashed.
  lemma Prepare(w: World) returns (w': World)
    requires !w.f.crashed
    ensures Reaches(w, w') && Apart(w, w') && Peered(w'.f.s)
  {
    hide Step, CanStep, Reaches;
    var w1 := ClearUp(w);
    var w2 := BringUp(w1, "a");
    Chain(w, w1, w2);
    var w3 := BringUp(w2, "b");
    Chain(w, w2, w3);
    var w4 := Answer(w3, "b");
    Chain(w, w3, w4);
    var w5 := Measure(w4, "a", 1.0);
    Chain(w, w4, w5);
    var w6 := Measure(w5, "b", 2.0);
    Chain(w, w5, w6);
    w' := Point(w6, "a");
    Chain(w, w6, w');
    assert w'.f.s.tunnels == map["a" := PeerTunnel("a", -1, 1.0), "b" := PeerTunnel("b", 1, 2.0)];
  }

  // ---------------------------------------------------------------- one more watcher

  const CFG: BalancerConfig := BalancerConfig(35, 1800, 600)

  function ChoiceB(): Decision {
    Decision("a", "b", 1.0, 2.0, 35)
  }

  function NewWatcher(now: int): Watcher {
    Watcher("b", ChoiceB(), 1800 * SECOND, 0, Detector(now, now, 0, 0), [], Spawned)
  }

  lemma PeersPropose(s: State, now: int)
    requires Peered(s) && s.migration.None? && CooledDown(s, now, CFG)
    ensures MayChoose(s, "b") && Proposes(s, now, CFG, "b")
    ensures DecisionOf(s, CFG, "b") == ChoiceB()
  {
    assert Rivals(s) == {"b"};
    assert (2.0 - 1.0) / 1.0 == 1.0;
  }

  lemma Wait(w: World, until: int) returns (w': World)
    requires !w.f.crashed
    ensures Reaches(w, w') && w' == w.(now := w'.now) && w'.now >= w.now && w'.now >= until
  {
    ReachesSelf(w);
    var l := Label.Tick(if until > w.now then until - w.now else 0);
    Then(w, w, l);
    w' := Step(w, l);
  }

  // With no record, a check after the cooldown starts a watcher, whoever else is still watching.
  lemma StartWatcher(w: World, k: nat) returns (w': World)
    requires !w.f.crashed && w.f.s.migration.None? && k !in w.watchers
    ensures Reaches(w, w') && !w'.f.crashed && Peered(w'.f.s) && w'.f.s.migration.Some?
    ensures w'.watchers == w.watchers[k := NewWatcher(w'.now)] && w'.switches == w.switches
  {
    hide Step, CanStep, Reaches;
    var w1 := Prepare(w);
    var w2 := Wait(w1, if w1.f.s.lastSwitch.Some? then w1.f.s.lastSwitch.value + 1800 * SECOND else 0);
    Chain(w, w1, w2);
    w' := CheckNow(w2, k);
    Chain(w, w2, w');
  }

  lemma CheckNow(w: World, k: nat) returns (w': World)
    requires !w.f.crashed && Peered(w.f.s) && w.f.s.migration.None? && CooledDown(w.f.s, w.now, CFG)
    requires k !in w.watchers
    ensures Reaches(w, w') && !w'.f.crashed && Peered(w'.f.s) && w'.f.s.migration.Some?
    ensures w'.watchers == w.watchers[k := NewWatcher(w'.now)] && w'.switches == w.switches
  {
    PeersPropose(w.f.s, w.now);
    ReachesSelf(w);
    Then(w, w, CheckSpeed(k, CFG, "b"));
    w' := Step(w, CheckSpeed(k, CFG, "b"));
  }

  // ---------------------------------------------------------------- a watcher to its end

  // The watcher is gone and has dropped the record; the others have not moved.
  ghost predicate Retired(w: World, w': World, k: nat) {
    && Reaches(w, w')
    && !w'.f.crashed
    && w'.watchers == w.watchers - {k}
    && w'.f.s.migration.None?
  }

  // Only the one watcher has moved.
  ghost predicate Onward(w: World, w': World, k: nat) {
    && Reaches(w, w')
    && !w'.f.crashed
    && k in w'.watchers
    && w'.watchers - {k} == w.watchers - {k}
  }

  lemma Later(w: World, w1: World, w': World, k: nat)
    requires Onward(w, w1, k) && Retired(w1, w', k)
    ensures Retired(w, w', k)
  {
    hide Reaches, LooksOn;
    Chain(w, w1, w');
  }

  // One step of the watcher itself.
  lemma Advance(w: World, k: nat, l: Label) returns (w': World)
    requires CanStep(w, l) && k in w.watchers
    requires || ((l.Begin? || l.Expire? || l.Take? || l.RecordSwitch?) && l.k == k)
             || (l.Look? && l.k == k && LooksOn(w.f.s))
             || (l.MovePointer? && l.k == k && TargetUp(w.f.s, w.watchers[k].target))
    ensures Onward(w, w', k) && w' == Step(w, l)
    ensures LooksOn(w.f.s) && !l.MovePointer? ==> LooksOn(w'.f.s)
  {
    hide Reaches, Act, CanAct;
    ReachesSelf(w);
    Then(w, w, l);
    w' := Step(w, l);
  }

  lemma AdvanceTime(w: World, k: nat, until: int) returns (w': World)
    requires !w.f.crashed && k in w.watchers
    ensures Onward(w, w', k) && w' == w.(now := w'.now) && w'.now >= until
  {
    hide Reaches, LooksOn;
    w' := Wait(w, until);
  }

  lemma RetireWinding(w: World, k: nat) returns (w': World)
    requires !w.f.crashed && k in w.watchers && w.watchers[k].phase.Winding?
    ensures Retired(w, w', k)
  {
    hide Reaches;
    var w1 := AdvanceTime(w, k, w.watchers[k].phase.until);
    ReachesSelf(w1);
    Then(w1, w1, ClearRecord(k));
    w' := Step(w1, ClearRecord(k));
    Later(w, w1, w', k);
  }

  lemma RetireGated(w: World, k: nat) returns (w': World)
    requires !w.f.crashed && k in w.watchers && w.watchers[k].phase.Gated?
    ensures Retired(w, w', k)
  {
    hide Onward, Retired, LooksOn, Act, CanAct;
    var w1 := AdvanceTime(w, k, w.watchers[k].detector.start + w.watchers[k].timeout + 1);
    OnwardMeans(w, w1, k);
    var w2 := Advance(w1, k, Expire(k));
    OnwardMeans(w1, w2, k);
    w' := RetireWinding(w2, k);
    Later(w1, w2, w', k);
    Later(w, w1, w', k);
  }

  lemma OnwardMeans(w: World, w': World, k: nat)
    requires Onward(w, w', k)
    ensures !w'.f.crashed && k in w'.watchers
  {
  }

  lemma RetireSleeping(w: World, k: nat) returns (w': World)
    requires !w.f.crashed && k in w.watchers && LooksOn(w.f.s) && w.watchers[k].phase.Sleeping?
    ensures Retired(w, w', k)
  {
    hide Onward, Retired, Act, CanAct;
    var w1 := AdvanceTime(w, k, w.watchers[k].phase.until);
    OnwardMeans(w, w1, k);
    var w2 := Advance(w1, k, Look(k));
    OnwardMeans(w1, w2, k);
    w' := RetireGated(w2, k);
    Later(w1, w2, w', k);
    Later(w, w1, w', k);
  }

  lemma RetireRouted(w: World, k: nat) returns (w': World)
    requires !w.f.crashed && k in w.watchers && w.watchers[k].phase.Routed?
    ensures Retired(w, w', k)
  {
    hide Onward, Retired, LooksOn, Act, CanAct;
    var w1 := AdvanceTime(w, k, w.watchers[k].phase.since);
    OnwardMeans(w, w1, k);
    var w2 := Advance(w1, k, RecordSwitch(k, CFG, w1.now));
    OnwardMeans(w1, w2, k);
    w' := RetireWinding(w2, k);
    Later(w1, w2, w', k);
    Later(w, w1, w', k);
  }

  lemma RetireFiring(w: World, k: nat) returns (w': World)
    requires !w.f.crashed && At(w, k, Firing)
    ensures Retired(w, w', k)
  {
    hide Onward, Reaches, LooksOn, Act, CanAct;
    if TargetUp(w.f.s, w.watchers[k].target) {
      var w1 := Advance(w, k, MovePointer(k));
      OnwardMeans(w, w1, k);
      w' := RetireRouted(w1, k);
      Later(w, w1, w', k);
    } else {
      ReachesSelf(w);
      Then(w, w, MovePointer(k));
      w' := Step(w, MovePointer(k));
    }
  }

  // Wherever a watcher stands, it can come to its end, and then the record is gone.
  lemma Retire(w: World, k: nat) returns (w': World)
    requires !w.f.crashed && k in w.watchers && LooksOn(w.f.s)
    ensures Retired(w, w', k)
  {
    hide Onward, Retired, LooksOn, Act, CanAct, Sample, TrafficRate, TargetUp;
    match w.watchers[k].phase
    case Spawned =>
      var w1 := Advance(w, k, Begin(k, CFG));
      OnwardMeans(w, w1, k);
      w' := RetireSleeping(w1, k);
      Later(w, w1, w', k);
    case Sleeping(_) => w' := RetireSleeping(w, k);
    case Gated => w' := RetireGated(w, k);
    case Passed =>
      var w1 := Advance(w, k, Take(k, 0));
      OnwardMeans(w, w1, k);
      if w1.watchers[k].phase.Firing? {
        w' := RetireFiring(w1, k);
      } else {
        w' := RetireSleeping(w1, k);
      }
      Later(w, w1, w', k);
    case Firing => w' := RetireFiring(w, k);
    case Routed(_) => w' := RetireRouted(w, k);
    case Winding(_) => w' := RetireWinding(w, k);
  }

  // ---------------------------------------------------------------- a watcher to its switch

  // A watcher that has taken n samples without traffic and sleeps until its next turn.
  ghost predicate Quiet(wt: Watcher, now: int, n: nat) {
    && wt.detector == Detector(wt.detector.start, now, 0, n)
    && now == wt.detector.start + n * SECOND
    && wt.timeout == CFG.waitTimeout * SECOND
    && wt.phase == if n >= IDLE_SAMPLES then Firing else Sleeping(now + SECOND)
  }

  // Nothing but this watcher's own wait, and the clock, has moved on.
  ghost predicate Sampled(w: World, w': World, k: nat) {
    && Onward(w, w', k)
    && LooksOn(w'.f.s)
    && w'.f.s.tunnels == w.f.s.tunnels
    && w'.switches == w.switches
    && k in w.watchers
    && w'.watchers[k].target == w.watchers[k].target
    && w'.watchers[k].cooldown == w.watchers[k].cooldown
  }

  lemma SampledOn(w: World, w1: World, w2: World, k: nat)
    requires Sampled(w, w1, k) && Sampled(w1, w2, k)
    ensures Sampled(w, w2, k)
  {
    hide Reaches, LooksOn;
    Chain(w, w1, w2);
  }

  lemma BeginWait(w: World, k: nat) returns (w': World)
    requires !w.f.crashed && LooksOn(w.f.s) && At(w, k, Spawned)
    ensures Sampled(w, w', k) && Quiet(w'.watchers[k], w'.now, 0)
  {
    hide Reaches, Onward;
    w' := Advance(w, k, Begin(k, CFG));
    OnwardMeans(w, w', k);
  }

  lemma TakeQuiet(w: World, k: nat, n: nat) returns (w': World)
    requires !w.f.crashed && LooksOn(w.f.s) && At(w, k, Passed)
    requires w.watchers[k].detector == Detector(w.now - (n + 1) * SECOND, w.now - SECOND, 0, n)
    requires w.watchers[k].timeout == CFG.waitTimeout * SECOND
    ensures Sampled(w, w', k) && Quiet(w'.watchers[k], w'.now, n + 1)
  {
    hide Reaches, Onward, LooksOn;
    NoBytesNoRate(0, SECOND);
    w' := Advance(w, k, Take(k, 0));
    OnwardMeans(w, w', k);
  }

  // One turn of the loop, a second long.
  lemma Turn(w: World, k: nat, n: nat) returns (w': World)
    requires !w.f.crashed && LooksOn(w.f.s) && k in w.watchers && n < IDLE_SAMPLES
    requires Quiet(w.watchers[k], w.now, n)
    ensures Sampled(w, w', k) && Quiet(w'.watchers[k], w'.now, n + 1)
  {
    hide Reaches, Onward, LooksOn, TrafficRate, Sample;
    ReachesSelf(w);
    var tick := Label.Tick(SECOND);
    Then(w, w, tick);
    var w1 := Step(w, tick);
    Then(w, w1, Look(k));
    var w2 := Step(w1, Look(k));
    Then(w, w2, Pass(k));
    var w3 := Step(w2, Pass(k));
    assert w3.watchers - {k} == w.watchers - {k};
    OnwardIs(w, w3, k);
    var w4 := TakeQuiet(w3, k, n);
    SampledOn(w, w3, w4, k);
    w' := w4;
  }

  lemma OnwardIs(w: World, w': World, k: nat)
    requires Reaches(w, w') && !w'.f.crashed && k in w'.watchers && w'.watchers - {k} == w.watchers - {k}
    ensures Onward(w, w', k)
  {
  }

  // Three turns without traffic.
  lemma Fire(w: World, k: nat) returns (w': World)
    requires !w.f.crashed && LooksOn(w.f.s) && At(w, k, Spawned)
    ensures Sampled(w, w', k) && At(w', k, Firing)
  {
    hide Reaches, LooksOn;
    var w0 := BeginWait(w, k);
    var w1 := Turn(w0, k, 0);
    SampledOn(w, w0, w1, k);
    var w2 := Turn(w1, k, 1);
    SampledOn(w, w1, w2, k);
    w' := Turn(w2, k, 2);
    SampledOn(w, w2, w', k);
  }

  lemma SwitchNow(w: World, k: nat) returns (w': World)
    requires !w.f.crashed && At(w, k, Firing) && TargetUp(w.f.s, w.watchers[k].target)
    ensures Reaches(w, w') && !w'.f.crashed && w'.now == w.now
    ensures w'.f.s.tunnels == w.f.s.tunnels && w'.watchers - {k} == w.watchers - {k}
    ensures w'.switches == w.switches + [SwitchOf(w.watchers[k], w.now)]
  {
    ReachesSelf(w);
    Then(w, w, MovePointer(k));
    var w1 := Step(w, MovePointer(k));
    Then(w, w1, RecordSwitch(k, CFG, w.now));
    w' := Step(w1, RecordSwitch(k, CFG, w.now));
  }

  // The last two switches fell at one instant, half an hour of cooldown notwithstanding.
  ghost predicate Clash(sw: seq<Switch>) {
    |sw| >= 2 && sw[|sw| - 1].at == sw[|sw| - 2].at && sw[|sw| - 1].cooldown == 1800 * SECOND
  }

  lemma ClashIsNotSpaced(sw: seq<Switch>)
    requires Clash(sw)
    ensures !Spaced(sw)
  {
    var i := |sw| - 2;
    assert sw[i + 1].at < sw[i].at + sw[i + 1].cooldown;
  }

  lemma Elsewhere(w: World, w': World, j: nat, k: nat)
    requires w'.watchers - {k} == w.watchers - {k} && j != k && j in w.watchers
    ensures j in w'.watchers && w'.watchers[j] == w.watchers[j]
  {
    assert j in w.watchers - {k};
    assert (w.watchers - {k})[j] == w.watchers[j];
    assert j in w'.watchers - {k};
  }

  // Two watchers that have just been started both switch, at one instant.
  lemma PairClashes(w: World, j: nat, k: nat) returns (w': World)
    requires !w.f.crashed && LooksOn(w.f.s) && TargetUp(w.f.s, "b") && j != k
    requires j in w.watchers && k in w.watchers
    requires w.watchers[j].phase.Spawned? && w.watchers[k].phase.Spawned?
    requires w.watchers[j].target == w.watchers[k].target == "b" && w.watchers[k].cooldown == 1800 * SECOND
    ensures Reaches(w, w') && Clash(w'.switches) && |w'.switches| == |w.switches| + 2
  {
    hide Reaches, LooksOn;
    var w1 := Fire(w, j);
    Elsewhere(w, w1, k, j);
    var w2 := Fire(w1, k);
    Elsewhere(w1, w2, j, k);
    Chain(w, w1, w2);
    var w3 := SwitchNow(w2, j);
    Elsewhere(w2, w3, k, j);
    Chain(w, w2, w3);
    w' := SwitchNow(w3, k);
    Chain(w, w3, w');
  }

  // ---------------------------------------------------------------- the exact condition

  // A live watcher, and no record: a new check makes a second one.
  lemma SecondWatcher(w: World, k: nat) returns (w': World)
    requires !w.f.crashed && w.f.s.migration.None? && w.watchers.Keys == {k}
    ensures Reaches(w, w') && !w'.f.crashed && Peered(w'.f.s) && w'.f.s.migration.Some?
    ensures w'.switches == w.switches && k in w'.watchers
    ensures w'.watchers == w.watchers[k + 1 := NewWatcher(w'.now)]
  {
    w' := StartWatcher(w, k + 1);
  }

  // The first of the two comes to its end and takes the record with it; one more check, and there
  // are two fresh watchers.
  lemma TwoFresh(w: World, k: nat) returns (w': World)
    requires !w.f.crashed && w.f.s.migration.None? && w.watchers.Keys == {k}
    ensures Reaches(w, w') && !w'.f.crashed && Peered(w'.f.s) && w'.f.s.migration.Some?
    ensures At(w', k, Spawned) && At(w', k + 1, Spawned)
    ensures w'.watchers[k] == NewWatcher(w'.now)
    ensures w'.watchers[k + 1] == NewWatcher(w'.watchers[k + 1].detector.start)
  {
    hide Reaches, Step, CanStep;
    var w1 := SecondWatcher(w, k);
    PeeredLooks(w1.f.s);
    var w2 := Retire(w1, k);
    Chain(w, w1, w2);
    assert k + 1 in w1.watchers - {k} && (w1.watchers - {k})[k + 1] == w1.watchers[k + 1];
    w' := StartWatcher(w2, k);
    Chain(w, w2, w');
  }

  lemma PeeredLooks(s: State)
    requires Peered(s)
    ensures s.migration.Some? ==> LooksOn(s)
    ensures TargetUp(s, "b")
  {
  }

  lemma CanClash(w: World, k: nat) returns (w': World)
    requires !w.f.crashed && w.f.s.migration.None? && w.watchers.Keys == {k}
    ensures Reaches(w, w') && Clash(w'.switches)
  {
    hide Reaches, Step, CanStep, Peered, LooksOn;
    var w1 := TwoFresh(w, k);
    PeeredLooks(w1.f.s);
    w' := PairClashes(w1, k + 1, k);
    Chain(w, w1, w');
  }

  // As long as nobody cancels again.
  ghost predicate StaysSingle(w: World) {
    forall ls | CancelFree(ls) && CanRun(w, ls) :: AtMostOneWatcher(Run(w, ls))
  }

  ghost predicate StaysSpaced(w: World) {
    forall ls | CancelFree(ls) && CanRun(w, ls) :: Spaced(Run(w, ls).switches)
  }

  // A cancellation leaves one watcher at a time for good, and switches spaced by the cooldown for
  // good, exactly when it finds no live watcher.
  lemma CancelIsSafeIff(w: World)
    requires !w.f.crashed && Single(w)
    ensures StaysSingle(Step(w, Cancel)) <==> w.watchers == map[]
    ensures StaysSpaced(Step(w, Cancel)) <==> w.watchers == map[]
  {
    if w.watchers == map[] {
      NoWatcherIsSafe(w);
    } else {
      var k :| k in w.watchers;
      assert w.watchers.Keys == {k};
      WatcherIsUnsafe(w, k);
    }
  }

  // In particular at the first cancellation of any run that finds a live watcher.
  lemma FirstHarmfulCancel(now: int, ls: seq<Label>)
    requires CanRun(Init(now), ls) && HarmlessCancels(Init(now), ls) && !Run(Init(now), ls).f.crashed
    ensures var w := Run(Init(now), ls);
            && (StaysSingle(Step(w, Cancel)) <==> w.watchers == map[])
            && (StaysSpaced(Step(w, Cancel)) <==> w.watchers == map[])
  {
    RunKeepsSingle(Init(now), ls);
    CancelIsSafeIff(Run(Init(now), ls));
  }

  lemma NoWatcherIsSafe(w: World)
    requires !w.f.crashed && Single(w) && w.watchers == map[]
    ensures StaysSingle(Step(w, Cancel)) && StaysSpaced(Step(w, Cancel))
  {
    var c := Step(w, Cancel);
    StepKeepsSingle(w, Cancel);
    forall ls | CancelFree(ls) && CanRun(c, ls)
      ensures Single(Run(c, ls))
    {
      CancelFreeIsHarmless(c, ls);
      RunKeepsSingle(c, ls);
    }
  }

  lemma WatcherIsUnsafe(w: World, k: nat)
    requires !w.f.crashed && w.watchers.Keys == {k}
    ensures !StaysSingle(Step(w, Cancel)) && !StaysSpaced(Step(w, Cancel))
  {
    var c := Step(w, Cancel);
    var two := SecondWatcher(c, k);
    var xs :| CancelFree(xs) && CanRun(c, xs) && Run(c, xs) == two;
    assert k in two.watchers && k + 1 in two.watchers;
    var clash := CanClash(c, k);
    var ys :| CancelFree(ys) && CanRun(c, ys) && Run(c, ys) == clash;
    ClashIsNotSpaced(clash.switches);
  }
}
