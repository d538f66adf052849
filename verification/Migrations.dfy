/** The critical sections of a speed migration: checkSpeedMigration, idleWatcher, doMigration. */
module Migrations {
  import opened Wrappers
  import opened Model

  // The balancer configuration a section reads; times in seconds.
  datatype BalancerConfig = BalancerConfig(thresholdPct: int, cooldown: int, waitTimeout: int)

  // ---------------------------------------------------------------- checkSpeedMigration

  // The other measured, healthy tunnels of the active tunnel's tier.
  function Rivals(s: State): set<Id>
    requires s.ActiveKnown()
  {
    set id | id in s.tunnels && id != s.activeID && s.tunnels[id].latency >= 0
             && s.tunnels[id].speedMbps > 0.0 && s.tunnels[id].priority == s.tunnels[s.activeID].priority
  }

  predicate CooledDown(s: State, now: int, cfg: BalancerConfig) {
    s.lastSwitch.Some? ==> now - s.lastSwitch.value >= cfg.cooldown * SECOND
  }

  // The check gets as far as comparing speeds.
  predicate Compares(s: State, now: int, cfg: BalancerConfig) {
    && s.migration.None?
    && CooledDown(s, now, cfg)
    && s.activeID != NO_TUNNEL
    && s.ActiveKnown()
    && s.tunnels[s.activeID].speedMbps > 0.0
  }

  // A rival the search can end on: the strict comparison keeps the first of equals, in map order.
  predicate IsFastest(s: State, best: Id)
    requires s.ActiveKnown()
  {
    best in Rivals(s) && forall c <- Rivals(s) :: s.tunnels[c].speedMbps <= s.tunnels[best].speedMbps
  }

  predicate MayChoose(s: State, best: Id) {
    s.ActiveKnown() && Rivals(s) != {} ==> IsFastest(s, best)
  }

  // The relative gain reaches the configured threshold.
  predicate FasterBy(fromSpeed: real, toSpeed: real, pct: int)
    requires fromSpeed > 0.0
  {
    (toSpeed - fromSpeed) / fromSpeed >= pct as real / 100.0
  }

  predicate Proposes(s: State, now: int, cfg: BalancerConfig, best: Id)
    requires MayChoose(s, best)
  {
    && Compares(s, now, cfg)
    && Rivals(s) != {}
    && FasterBy(s.tunnels[s.activeID].speedMbps, s.tunnels[best].speedMbps, cfg.thresholdPct)
  }

  function EndpointOf(s: State, id: Id): Endpoint
    requires id in s.tunnels
  {
    Endpoint(id, s.tunnels[id].cfg.name, s.tunnels[id].speedMbps)
  }

  function Blank(state: MigrationState): Migration {
    Migration(state, None, None, 0, None, None, None, None)
  }

  function Check(s: State, now: int, cfg: BalancerConfig, best: Id): State
    requires MayChoose(s, best)
  {
    if Proposes(s, now, cfg, best) then
      s.(migration := Some(Blank(Evaluating).(
           from := Some(EndpointOf(s, s.activeID)), to := Some(EndpointOf(s, best)))))
    else s
  }

  // ---------------------------------------------------------------- idleWatcher

  function WaitBegin(s: State, start: int, cfg: BalancerConfig): State {
    match s.migration
    case None => s
    case Some(m) =>
      s.(migration := Some(m.(state := WaitingForIdle, waitingSince := Some(start),
                              timeoutAt := Some(start + cfg.waitTimeout * SECOND))))
  }

  // The look at the state that each turn of the loop begins with lets it go on.
  predicate LooksOn(s: State) {
    && s.migration.Some?
    && s.activeID != NO_TUNNEL
    && s.ActiveKnown()
    && s.tunnels[s.activeID].client.Some?
  }

  function TimeOut(s: State): State {
    s.(migration := Some(Blank(Cancelled)))
  }

  // Go's int() of a float drops the fraction.
  function Truncate(r: real): int {
    if r >= 0.0 then r.Floor else -((-r).Floor)
  }

  function NoteRate(s: State, kbps: real): State {
    match s.migration
    case None => s
    case Some(m) => s.(migration := Some(m.(activeConnections := Truncate(kbps))))
  }

  // ---------------------------------------------------------------- doMigration

  predicate TargetUp(s: State, target: Id) {
    target in s.tunnels && s.tunnels[target].Running()
  }

  function SwitchBegin(s: State, target: Id): State {
    if !TargetUp(s, target) then s.(migration := None)
    else
      match s.migration
      case None => s.(activeID := target)
      case Some(m) => s.(activeID := target, migration := Some(m.(state := Switching)))
  }

  function SwitchEnd(s: State, now: int, cfg: BalancerConfig): State {
    s.(lastSwitch := Some(now),
       migration := Some(Blank(Completed).(
         completedAt := Some(now), nextSwitchAt := Some(now + cfg.cooldown * SECOND))))
  }

  function Clear(s: State): State {
    s.(migration := None)
  }

  // ---------------------------------------------------------------- one decision

  // What a check that starts a migration has compared.
  datatype Decision = Decision(from: Id, to: Id, fromSpeed: real, toSpeed: real, thresholdPct: int)

  function Factor(pct: int): real {
    1.0 + pct as real / 100.0
  }

  ghost predicate Sound(d: Decision) {
    d.from != d.to && d.fromSpeed > 0.0 && d.toSpeed > 0.0 && d.toSpeed >= d.fromSpeed * Factor(d.thresholdPct)
  }

  function DecisionOf(s: State, cfg: BalancerConfig, best: Id): Decision
    requires s.ActiveKnown() && best in s.tunnels
  {
    Decision(s.activeID, best, s.tunnels[s.activeID].speedMbps, s.tunnels[best].speedMbps, cfg.thresholdPct)
  }

  lemma FasterByFactor(fromSpeed: real, toSpeed: real, pct: int)
    requires fromSpeed > 0.0
    ensures FasterBy(fromSpeed, toSpeed, pct) <==> toSpeed >= fromSpeed * Factor(pct)
  {
    var gain, t := (toSpeed - fromSpeed) / fromSpeed, pct as real / 100.0;
    ScaleOrder(gain, t, fromSpeed);
    Distribute(fromSpeed, t);
    assert gain * fromSpeed == toSpeed - fromSpeed;
  }

  lemma ScaleOrder(x: real, y: real, unit: real)
    requires unit > 0.0
    ensures x >= y <==> x * unit >= y * unit
  {
    if x >= y {
      assert (x - y) * unit >= 0.0;
    } else {
      assert (y - x) * unit > 0.0;
    }
  }

  lemma Distribute(x: real, t: real)
    ensures x * (1.0 + t) == x + t * x
  {
  }

  // A proposed move is to a different tunnel of the same tier, and to one of the fastest there.
  lemma ProposalIsSound(s: State, now: int, cfg: BalancerConfig, best: Id)
    requires MayChoose(s, best) && Proposes(s, now, cfg, best)
    ensures Sound(DecisionOf(s, cfg, best))
    ensures s.tunnels[best].priority == s.tunnels[s.activeID].priority
  {
    FasterByFactor(s.tunnels[s.activeID].speedMbps, s.tunnels[best].speedMbps, cfg.thresholdPct);
  }

  // A tunnel that a speed check may move to from the active one.
  predicate Candidate(s: State, c: Id)
    requires s.activeID in s.tunnels
  {
    && c in s.tunnels && c != s.activeID
    && s.tunnels[c].latency >= 0 && s.tunnels[c].speedMbps > 0.0
    && s.tunnels[c].priority == s.tunnels[s.activeID].priority
  }

  // The target of a proposal is a candidate, and no candidate is faster.
  ghost predicate FastestCandidate(s: State, best: Id)
    requires s.activeID in s.tunnels
  {
    && Candidate(s, best)
    && forall c <- s.tunnels.Keys | Candidate(s, c) :: s.tunnels[c].speedMbps <= s.tunnels[best].speedMbps
  }

  // Some candidate is faster than the active tunnel by the configured percentage.
  ghost predicate WorthMoving(s: State, pct: int)
    requires s.activeID in s.tunnels
  {
    exists c <- s.tunnels.Keys :: Candidate(s, c)
      && s.tunnels[c].speedMbps >= s.tunnels[s.activeID].speedMbps * (1.0 + pct as real / 100.0)
  }

  // When a check starts a migration.
  ghost predicate MustMove(s: State, now: int, cfg: BalancerConfig) {
    && s.migration.None?
    && (s.lastSwitch.Some? ==> now - s.lastSwitch.value >= cfg.cooldown * 1_000_000_000)
    && s.activeID != "" && s.activeID in s.tunnels
    && s.tunnels[s.activeID].speedMbps > 0.0
    && WorthMoving(s, cfg.thresholdPct)
  }

  lemma RivalsAreCandidates(s: State)
    requires s.activeID in s.tunnels
    ensures forall c :: c in Rivals(s) <==> Candidate(s, c)
  {
  }

  // The search ends on a fastest candidate.
  lemma FastestIsFastest(s: State, best: Id)
    requires s.activeID in s.tunnels
    ensures IsFastest(s, best) <==> FastestCandidate(s, best)
  {
    RivalsAreCandidates(s);
    if IsFastest(s, best) {
      forall c <- s.tunnels.Keys | Candidate(s, c)
        ensures s.tunnels[c].speedMbps <= s.tunnels[best].speedMbps
      {
        assert c in Rivals(s);
      }
    }
  }

  // A check starts a migration exactly when there is no record, the cooldown is over, the active
  // tunnel is measured, and some candidate reaches the threshold; the target is then a fastest one.
  lemma ProposesIff(s: State, now: int, cfg: BalancerConfig, best: Id)
    requires MayChoose(s, best)
    ensures Proposes(s, now, cfg, best) <==> MustMove(s, now, cfg)
    ensures Proposes(s, now, cfg, best) ==>
              FastestCandidate(s, best)
              && s.tunnels[best].speedMbps >= s.tunnels[s.activeID].speedMbps * (1.0 + cfg.thresholdPct as real / 100.0)
  {
    if s.activeID in s.tunnels && s.tunnels[s.activeID].speedMbps > 0.0 {
      RivalsAreCandidates(s);
      if Rivals(s) != {} {
        FastestIsFastest(s, best);
        FasterByFactor(s.tunnels[s.activeID].speedMbps, s.tunnels[best].speedMbps, cfg.thresholdPct);
      }
    }
  }

  // The whole part of a rate, towards zero.
  lemma TruncateMeans(r: real)
    ensures r >= 0.0 ==> 0 <= Truncate(r) && Truncate(r) as real <= r < Truncate(r) as real + 1.0
    ensures r < 0.0 ==> Truncate(r) <= 0 && Truncate(r) as real - 1.0 < r <= Truncate(r) as real
  {
  }

  // The search always has an answer to end on.
  lemma FastestExists(s: State, among: set<Id>) returns (b: Id)
    requires among != {} && among <= s.tunnels.Keys
    ensures b in among && forall c <- among :: s.tunnels[c].speedMbps <= s.tunnels[b].speedMbps
    decreases |among|
  {
    b :| b in among;
    var first := b;
    var rest := among - {b};
    if rest == {} {
      forall c <- among
        ensures s.tunnels[c].speedMbps <= s.tunnels[b].speedMbps
      {
        assert c == first || c in rest;
      }
    } else {
      var r := FastestExists(s, rest);
      if s.tunnels[r].speedMbps > s.tunnels[b].speedMbps {
        b := r;
      }
      forall c <- among
        ensures s.tunnels[c].speedMbps <= s.tunnels[b].speedMbps
      {
        assert c == first || c in rest;
      }
    }
  }
}
