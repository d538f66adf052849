/**
 The whole balancer as a labelled transition system: the fleet steps, the clock, the periodic speed
 check, cancellation, and any number of idle watchers, each at its own place in idleWatcher or
 doMigration.
 */
module Protocol {
  import opened Wrappers
  import opened Model
  import opened Fleets
  import opened Migrations
  import opened Idle
  import opened Health

  // Where a watcher goroutine stands between two critical sections.
  datatype Phase =
    | Spawned                 // before the section that marks the migration as waiting
    | Sleeping(until: int)    // in the one-second sleep of a turn
    | Gated                   // past the locked look of this turn
    | Passed                  // past the timeout check of this turn
    | Firing                  // three idle samples seen, about to enter doMigration
    | Routed(since: int)      // pointer moved at that time, switch not yet recorded
    | Winding(until: int)     // record replaced, about to clear it after a pause

  datatype Watcher = Watcher(
    target: Id,
    decision: Decision,
    cooldown: int,            // the cooldown that the check enforced
    timeout: int,
    detector: Detector,
    readings: seq<Reading>,   // the samples taken since the wait began
    phase: Phase)
  {
    // It may still be ahead of recording a switch.
    predicate Undecided() {
      !phase.Winding?
    }
  }

  // A stored switch time, with what led up to it.
  datatype Switch = Switch(
    at: int, cooldown: int, decision: Decision, start: int, timeout: int, readings: seq<Reading>)

  function SwitchOf(wt: Watcher, at: int): Switch {
    Switch(at, wt.cooldown, wt.decision, wt.detector.start, wt.timeout, wt.readings)
  }

  datatype World = World(
    f: Fleet,
    now: int,
    watchers: map<nat, Watcher>,
    switches: seq<Switch>)          // every value ever stored in lastSwitch, oldest first

  datatype Label =
    | FleetStep(a: Action)
    | Tick(dt: nat)
    | CheckSpeed(k: nat, cfg: BalancerConfig, best: Id)
    | Cancel
    | Begin(k: nat, cfg: BalancerConfig)
    | Look(k: nat)
    | Expire(k: nat)
    | Pass(k: nat)
    | Take(k: nat, bytes: int)
    | MovePointer(k: nat)
    | RecordSwitch(k: nat, cfg: BalancerConfig, at: int)   // the clock was read at `at`
    | ClearRecord(k: nat)

  predicate At(w: World, k: nat, phase: Phase) {
    k in w.watchers && w.watchers[k].phase == phase
  }

  predicate CanStep(w: World, l: Label) {
    && !w.f.crashed
    && match l
       case FleetStep(a) => CanAct(w.f, a)
       case Tick(_) => true
       case CheckSpeed(k, _, best) => k !in w.watchers && MayChoose(w.f.s, best)
       case Cancel => true
       case Begin(k, _) => At(w, k, Spawned)
       case Look(k) => k in w.watchers && w.watchers[k].phase.Sleeping? && w.watchers[k].phase.until <= w.now
       case Expire(k) => At(w, k, Gated) && w.now - w.watchers[k].detector.start > w.watchers[k].timeout
       case Pass(k) => At(w, k, Gated) && w.now - w.watchers[k].detector.start <= w.watchers[k].timeout
       case Take(k, _) => At(w, k, Passed)
       case MovePointer(k) => At(w, k, Firing)
       case RecordSwitch(k, _, at) =>
         k in w.watchers && w.watchers[k].phase.Routed? && w.watchers[k].phase.since <= at <= w.now
       case ClearRecord(k) => k in w.watchers && w.watchers[k].phase.Winding? && w.watchers[k].phase.until <= w.now
  }

  function WithState(w: World, s: State): World {
    w.(f := w.f.(s := s))
  }

  function Moved(w: World, k: nat, phase: Phase): World
    requires k in w.watchers
  {
    w.(watchers := w.watchers[k := w.watchers[k].(phase := phase)])
  }

  function Gone(w: World, k: nat): World {
    w.(watchers := w.watchers - {k})
  }

  function Step(w: World, l: Label): World
    requires CanStep(w, l)
  {
    var s := w.f.s;
    match l
    case FleetStep(a) => w.(f := Act(w.f, a))
    case Tick(dt) => w.(now := w.now + dt)
    case CheckSpeed(k, cfg, best) =>
      if Proposes(s, w.now, cfg, best) then
        WithState(w, Check(s, w.now, cfg, best)).(
          watchers := w.watchers[k := Watcher(best, DecisionOf(s, cfg, best), cfg.cooldown * SECOND, 0,
                                              Detector(w.now, w.now, 0, 0), [], Spawned)])
      else w
    case Cancel => WithState(w, Clear(s))
    case Begin(k, cfg) =>
      WithState(w, WaitBegin(s, w.now, cfg)).(
        watchers := w.watchers[k := w.watchers[k].(
          timeout := cfg.waitTimeout * SECOND, detector := Detector(w.now, w.now, 0, 0), readings := [],
          phase := Sleeping(w.now + SECOND))])
    case Look(k) => if LooksOn(s) then Moved(w, k, Gated) else Gone(w, k)
    case Expire(k) => WithState(Moved(w, k, Winding(w.now + 5 * SECOND)), TimeOut(s))
    case Pass(k) => Moved(w, k, Passed)
    case Take(k, bytes) =>
      var d := w.watchers[k].detector;
      var d' := Sample(d, w.now, bytes);
      WithState(w, NoteRate(s, TrafficRate(d.prevBytes, bytes, w.now - d.waitT))).(
        watchers := w.watchers[k := w.watchers[k].(
          detector := d', readings := w.watchers[k].readings + [Reading(w.now, bytes)],
          phase := if d'.idleCount >= IDLE_SAMPLES then Firing else Sleeping(w.now + SECOND))])
    case MovePointer(k) =>
      var target := w.watchers[k].target;
      WithState(if TargetUp(s, target) then Moved(w, k, Routed(w.now)) else Gone(w, k), SwitchBegin(s, target))
    case RecordSwitch(k, cfg, at) =>
      WithState(Moved(w, k, Winding(w.now + 10 * SECOND)), SwitchEnd(s, at, cfg)).(
        switches := w.switches + [SwitchOf(w.watchers[k], at)])
    case ClearRecord(k) => WithState(Gone(w, k), Clear(s))
  }

  // ---------------------------------------------------------------- runs

  ghost predicate CanRun(w: World, ls: seq<Label>)
    decreases |ls|
  {
    ls == [] || (CanStep(w, ls[0]) && CanRun(Step(w, ls[0]), ls[1..]))
  }

  ghost function Run(w: World, ls: seq<Label>): World
    requires CanRun(w, ls)
    decreases |ls|
  {
    if ls == [] then w else Run(Step(w, ls[0]), ls[1..])
  }

  lemma RunCons(w: World, l: Label, ls: seq<Label>)
    requires CanStep(w, l) && CanRun(Step(w, l), ls)
    ensures CanRun(w, [l] + ls) && Run(w, [l] + ls) == Run(Step(w, l), ls)
  {
    assert ([l] + ls)[1..] == ls;
  }

  // A process that has just started, before any setup.
  function Init(now: int): World {
    World(
      Fleet(State(map[], NO_TUNNEL, None, None, false), multiset{}, {}, multiset{}, 0, 0, None, map[], false),
      now, map[], [])
  }

  lemma InitInOrder(now: int)
    ensures Inv(Init(now).f)
  {
  }

  // ---------------------------------------------------------------- the fleet invariant, everywhere

  // A migration section changes the migration record, the switch time and, to an entry of the
  // map, the pointer.
  ghost predicate MigrationOnly(f: Fleet, f': Fleet) {
    && f' == f.(s := f.s.(activeID := f'.s.activeID, migration := f'.s.migration, lastSwitch := f'.s.lastSwitch))
    && (f'.s.activeID == f.s.activeID || f'.s.activeID in f.s.tunnels)
  }

  lemma OthersAreMigrationOnly(w: World, l: Label)
    requires CanStep(w, l) && !l.FleetStep?
    ensures MigrationOnly(w.f, Step(w, l).f)
  {
    hide Proposes, MayChoose, LooksOn, TrafficRate, Sample;
  }

  lemma MigrationOnlyKeepsInv(f: Fleet, f': Fleet)
    requires Inv(f) && MigrationOnly(f, f')
    ensures Inv(f')
  {
    hide Tracks;
  }

  lemma StepKeepsFleet(w: World, l: Label)
    requires CanStep(w, l) && Inv(w.f)
    ensures Inv(Step(w, l).f)
  {
    if l.FleetStep? {
      ActKeepsInv(w.f, l.a);
    } else {
      OthersAreMigrationOnly(w, l);
      hide Step;
      MigrationOnlyKeepsInv(w.f, Step(w, l).f);
    }
  }

  lemma {:induction false} RunKeepsFleet(w: World, ls: seq<Label>)
    requires CanRun(w, ls) && Inv(w.f)
    ensures Inv(Run(w, ls).f)
    decreases |ls|
  {
    if ls != [] {
      StepKeepsFleet(w, ls[0]);
      RunKeepsFleet(Step(w, ls[0]), ls[1..]);
    }
  }
}
