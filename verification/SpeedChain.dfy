/** Speed migrations compound: what a chain of switches says about the speeds along it. */
module SpeedChain {
  import opened Model
  import opened Migrations
  import opened Protocol

  // ---------------------------------------------------------------- every recorded switch was justified

  ghost predicate AllSound(w: World) {
    && (forall k <- w.watchers.Keys ::
          Sound(w.watchers[k].decision) && w.watchers[k].target == w.watchers[k].decision.to)
    && (forall i | 0 <= i < |w.switches| :: Sound(w.switches[i].decision))
  }

  lemma StepKeepsSound(w: World, l: Label)
    requires CanStep(w, l) && AllSound(w)
    ensures AllSound(Step(w, l))
  {
    if l.CheckSpeed? && Proposes(w.f.s, w.now, l.cfg, l.best) {
      ProposalIsSound(w.f.s, w.now, l.cfg, l.best);
    }
  }

  // In every run, cancelled or not.
  lemma {:induction false} RunKeepsSound(w: World, ls: seq<Label>)
    requires CanRun(w, ls) && AllSound(w)
    ensures AllSound(Run(w, ls))
    decreases |ls|
  {
    if ls != [] {
      StepKeepsSound(w, ls[0]);
      RunKeepsSound(Step(w, ls[0]), ls[1..]);
    }
  }

  // ---------------------------------------------------------------- chains

  // Each migration leaves from the target of the one before.
  ghost predicate Chained(ds: seq<Decision>) {
    && (forall i | 0 <= i < |ds| :: Sound(ds[i]) && ds[i].thresholdPct >= -100)
    && (forall i | 0 <= i < |ds| - 1 :: ds[i + 1].from == ds[i].to)
  }

  // The product of the factors the thresholds ask for.
  ghost function Gain(ds: seq<Decision>): real {
    if ds == [] then 1.0 else Gain(ds[..|ds| - 1]) * Factor(ds[|ds| - 1].thresholdPct)
  }

  // The product of how each intermediate tunnel's measurement changed between arriving on it and
  // leaving it.
  ghost function Drift(ds: seq<Decision>): real
    requires Chained(ds)
  {
    if |ds| <= 1 then 1.0
    else Drift(ds[..|ds| - 1]) * (ds[|ds| - 1].fromSpeed / ds[|ds| - 2].toSpeed)
  }

  // A speed after a gain and a drift.
  function Scaled(speed: real, gain: real, drift: real): real {
    speed * gain * drift
  }

  lemma ChainStep(first: real, gain: real, drift: real, prev: real, from: real, to: real, factor: real)
    requires prev >= first * gain * drift && to >= from * factor
    requires prev > 0.0 && from > 0.0 && factor >= 0.0
    ensures to >= first * (gain * factor) * (drift * (from / prev))
  {
    var q := from / prev;
    assert q * prev == from;
    assert from >= first * gain * drift * q by {
      assert q > 0.0;
      assert prev * q >= (first * gain * drift) * q;
    }
    assert from * factor >= first * gain * drift * q * factor;
    assert first * gain * drift * q * factor == first * (gain * factor) * (drift * q);
  }

  // The last target's speed is the first tunnel's speed times all thresholds times all drift.
  lemma {:induction false} ChainMultiplies(ds: seq<Decision>)
    requires Chained(ds) && ds != []
    ensures ds[|ds| - 1].toSpeed >= Scaled(ds[0].fromSpeed, Gain(ds), Drift(ds))
  {
    var n := |ds| - 1;
    if n == 0 {
      assert Gain(ds) == Gain([]) * Factor(ds[0].thresholdPct) by {
        assert ds[..0] == [];
      }
    } else {
      ChainMultiplies(ds[..n]);
      ChainStep(ds[0].fromSpeed, Gain(ds[..n]), Drift(ds[..n]), ds[n - 1].toSpeed,
                ds[n].fromSpeed, ds[n].toSpeed, Factor(ds[n].thresholdPct));
    }
  }

  ghost function Power(x: real, n: nat): real {
    if n == 0 then 1.0 else Power(x, n - 1) * x
  }

  // With one threshold throughout, the compounded factor is its n-th power.
  lemma {:induction false} GainIsPower(ds: seq<Decision>, pct: int)
    requires forall i | 0 <= i < |ds| :: ds[i].thresholdPct == pct
    ensures Gain(ds) == Power(Factor(pct), |ds|)
  {
    if ds != [] {
      GainIsPower(ds[..|ds| - 1], pct);
    }
  }

  // A chain that ends on the tunnel it began on.
  ghost predicate Cyclic(ds: seq<Decision>) {
    Chained(ds) && ds != [] && ds[|ds| - 1].to == ds[0].from
  }

  function Ratio(x: real, y: real): real
    requires y > 0.0
  {
    x / y
  }

  // The product, over the tunnels in between, of the measurement on arriving over that on leaving.
  ghost function Between(ds: seq<Decision>): real
    requires Chained(ds)
  {
    if |ds| <= 1 then 1.0
    else Between(ds[..|ds| - 1]) * Ratio(ds[|ds| - 2].toSpeed, ds[|ds| - 1].fromSpeed)
  }

  // The same around the whole cycle, the first tunnel included: it was left first and reached last.
  ghost function CycleDrift(ds: seq<Decision>): real
    requires Cyclic(ds)
  {
    assert Sound(ds[0]);
    Between(ds) * Ratio(ds[|ds| - 1].toSpeed, ds[0].fromSpeed)
  }

  lemma FactorNotNegative(pct: int)
    requires pct >= -100
    ensures Factor(pct) >= 0.0
  {
  }

  lemma CycleStep(first: real, gain: real, between: real, prev: real, from: real, to: real, factor: real)
    requires first * gain <= between * prev && to >= from * factor
    requires between > 0.0 && prev > 0.0 && from > 0.0 && factor >= 0.0
    ensures first * (gain * factor) <= between * Ratio(prev, from) * to
    ensures between * Ratio(prev, from) > 0.0
  {
    var q, b := Ratio(prev, from), between * prev;
    assert q > 0.0 && q * from == prev;
    assert first * gain * factor <= b * factor;
    assert b == between * q * from;
    assert between * q > 0.0;
    assert between * q * (from * factor) <= between * q * to;
  }

  lemma {:induction false} ArrivalsMultiply(ds: seq<Decision>)
    requires Chained(ds) && ds != []
    ensures ds[0].fromSpeed * Gain(ds) <= Between(ds) * ds[|ds| - 1].toSpeed
    ensures Between(ds) > 0.0
  {
    hide Ratio, Factor;
    var n := |ds| - 1;
    if n == 0 {
      assert Gain(ds) == Gain([]) * Factor(ds[0].thresholdPct) by {
        assert ds[..0] == [];
      }
    } else {
      ArrivalsMultiply(ds[..n]);
      FactorNotNegative(ds[n].thresholdPct);
      CycleStep(ds[0].fromSpeed, Gain(ds[..n]), Between(ds[..n]), ds[n - 1].toSpeed,
                ds[n].fromSpeed, ds[n].toSpeed, Factor(ds[n].thresholdPct));
    }
  }

  lemma CloseCycle(first: real, gain: real, between: real, last: real)
    requires first > 0.0 && first * gain <= between * last
    ensures gain <= between * Ratio(last, first)
  {
    var q := Ratio(last, first);
    assert q * first == last;
    var x := between * q;
    assert between * last == x * first;
    if gain > x {
      assert (gain - x) * first > 0.0;
    }
  }

  // Coming back to the first tunnel takes as much drift around the cycle as the thresholds compound
  // to.
  lemma CycleNeedsDrift(ds: seq<Decision>)
    requires Cyclic(ds)
    ensures CycleDrift(ds) >= Gain(ds)
  {
    hide Gain, Between, Ratio, Factor;
    ArrivalsMultiply(ds);
    assert Sound(ds[0]);
    CloseCycle(ds[0].fromSpeed, Gain(ds), Between(ds), ds[|ds| - 1].toSpeed);
  }

  // With one threshold throughout that is (1 + threshold)^n for n migrations.
  lemma ReturnNeedsDrift(ds: seq<Decision>, pct: int)
    requires Cyclic(ds)
    requires forall i | 0 <= i < |ds| :: ds[i].thresholdPct == pct
    ensures CycleDrift(ds) >= Power(Factor(pct), |ds|)
  {
    hide CycleDrift, Gain, Power, Factor;
    CycleNeedsDrift(ds);
    GainIsPower(ds, pct);
  }

  // Every decision saw the same speeds.
  ghost predicate Measured(ds: seq<Decision>, speed: Id -> real) {
    forall i | 0 <= i < |ds| :: ds[i].fromSpeed == speed(ds[i].from) && ds[i].toSpeed == speed(ds[i].to)
  }

  lemma FactorClimbs(d: Decision)
    requires Sound(d) && d.thresholdPct > 0
    ensures d.toSpeed > d.fromSpeed
  {
    var gain := d.thresholdPct as real / 100.0;
    assert d.fromSpeed * Factor(d.thresholdPct) == d.fromSpeed + d.fromSpeed * gain;
    assert d.fromSpeed * gain > 0.0;
  }

  // With unchanged speeds and positive thresholds the chain only climbs, so it never comes back to
  // a tunnel it has left.
  lemma {:induction false} UnchangedSpeedsClimb(ds: seq<Decision>, speed: Id -> real, i: int, j: int)
    requires Chained(ds) && Measured(ds, speed) && 0 <= i <= j < |ds|
    requires forall k | 0 <= k < |ds| :: ds[k].thresholdPct > 0
    ensures ds[j].toSpeed > ds[i].fromSpeed && ds[j].to != ds[i].from
    decreases j
  {
    FactorClimbs(ds[j]);
    if i < j {
      UnchangedSpeedsClimb(ds, speed, i, j - 1);
      assert ds[(j - 1) + 1].from == ds[j - 1].to;
    }
  }

  ghost function Decisions(sw: seq<Switch>): (ds: seq<Decision>)
    ensures |ds| == |sw| && forall i | 0 <= i < |sw| :: ds[i] == sw[i].decision
  {
    seq(|sw|, i requires 0 <= i < |sw| => sw[i].decision)
  }

  // A stretch of the switch log of a run in which each migration left from the last target.
  ghost predicate Stretch(w: World, i: int, j: int) {
    && 0 <= i < j <= |w.switches|
    && var ds := Decisions(w.switches[i..j]);
       && (forall k | 0 <= k < |ds| - 1 :: ds[k + 1].from == ds[k].to)
       && (forall k | 0 <= k < |ds| :: ds[k].thresholdPct >= -100)
  }

  lemma StretchIsChained(now: int, ls: seq<Label>, i: int, j: int)
    requires CanRun(Init(now), ls) && Stretch(Run(Init(now), ls), i, j)
    ensures Chained(Decisions(Run(Init(now), ls).switches[i..j]))
  {
    RunKeepsSound(Init(now), ls);
    var sw := Run(Init(now), ls).switches[i..j];
    forall k | 0 <= k < |sw|
      ensures Sound(sw[k].decision)
    {
      assert sw[k] == Run(Init(now), ls).switches[i + k];
    }
  }

  // Over any run, and any such stretch of its switches: the thresholds compound.
  lemma SwitchesCompound(now: int, ls: seq<Label>, i: int, j: int)
    requires CanRun(Init(now), ls) && Stretch(Run(Init(now), ls), i, j)
    ensures var ds := Decisions(Run(Init(now), ls).switches[i..j]);
            Chained(ds) && ds[|ds| - 1].toSpeed >= Scaled(ds[0].fromSpeed, Gain(ds), Drift(ds))
  {
    StretchIsChained(now, ls, i, j);
    ChainMultiplies(Decisions(Run(Init(now), ls).switches[i..j]));
  }

  // A stretch that comes back to where it began drifted by (1 + threshold)^n.
  lemma SwitchesReturnByDrift(now: int, ls: seq<Label>, i: int, j: int, pct: int)
    requires CanRun(Init(now), ls) && Stretch(Run(Init(now), ls), i, j)
    requires var ds := Decisions(Run(Init(now), ls).switches[i..j]);
             ds[|ds| - 1].to == ds[0].from && forall k | 0 <= k < |ds| :: ds[k].thresholdPct == pct
    ensures var ds := Decisions(Run(Init(now), ls).switches[i..j]);
            Cyclic(ds) && CycleDrift(ds) >= Power(Factor(pct), j - i)
  {
    StretchIsChained(now, ls, i, j);
    ReturnNeedsDrift(Decisions(Run(Init(now), ls).switches[i..j]), pct);
  }

  // And while the measured speeds stand and thresholds are positive, no stretch comes back.
  lemma SwitchesNeverReturn(now: int, ls: seq<Label>, i: int, j: int, speed: Id -> real)
    requires CanRun(Init(now), ls) && Stretch(Run(Init(now), ls), i, j)
    requires var ds := Decisions(Run(Init(now), ls).switches[i..j]);
             Measured(ds, speed) && forall k | 0 <= k < |ds| :: ds[k].thresholdPct > 0
    ensures var ds := Decisions(Run(Init(now), ls).switches[i..j]);
            forall a, b | 0 <= a <= b < |ds| :: ds[b].to != ds[a].from
  {
    StretchIsChained(now, ls, i, j);
    var ds := Decisions(Run(Init(now), ls).switches[i..j]);
    forall a, b | 0 <= a <= b < |ds|
      ensures ds[b].to != ds[a].from
    {
      UnchangedSpeedsClimb(ds, speed, a, b);
    }
  }
}
