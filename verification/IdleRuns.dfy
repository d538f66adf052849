/**
 The idle detector in whole runs: the samples a watcher takes in the transition system form a stream
 of the idle loop, so every switch ever recorded came after three idle samples in a row.
 */
module IdleRuns {
  import opened Model
  import opened Fleets
  import opened Migrations
  import opened Idle
  import opened Protocol

  function LastAt(start: int, rs: seq<Reading>): int {
    if rs == [] then start else rs[|rs| - 1].at
  }

  // The samples as a stream of turns, continued at one empty sample a second.
  function Stream(start: int, rs: seq<Reading>): nat -> Tick {
    (k: nat) =>
      if k < |rs| then Tick.Tick(true, rs[k].at, rs[k].at, rs[k].bytes, 0)
      else
        var t := LastAt(start, rs) + (k - |rs| + 1) * SECOND;
        Tick.Tick(true, t, t, 0, 0)
  }

  // The samples are at least a second apart, the first one from the start of the wait.
  ghost predicate EverySecond(start: int, rs: seq<Reading>) {
    forall k | 0 <= k < |rs| :: rs[k].at >= LastAt(start, rs[..k]) + SECOND
  }

  // The detector after the first n samples.
  function Count(start: int, rs: seq<Reading>, n: nat): int {
    After(start, Stream(start, rs), n).idleCount
  }

  lemma {:induction false} AfterAgrees(start: int, s: nat -> Tick, t: nat -> Tick, n: nat)
    requires forall k: nat | k < n :: s(k) == t(k)
    ensures After(start, s, n) == After(start, t, n)
  {
    if n > 0 {
      AfterAgrees(start, s, t, n - 1);
    }
  }

  lemma OneMoreSample(start: int, rs: seq<Reading>, r: Reading)
    ensures var qs := rs + [r];
            && After(start, Stream(start, qs), |qs|) == Sample(After(start, Stream(start, rs), |rs|), r.at, r.bytes)
            && forall n: nat | n <= |rs| :: Count(start, qs, n) == Count(start, rs, n)
  {
    var qs := rs + [r];
    forall n: nat | n <= |rs|
      ensures After(start, Stream(start, qs), n) == After(start, Stream(start, rs), n)
    {
      AfterAgrees(start, Stream(start, qs), Stream(start, rs), n);
    }
  }

  lemma OneSecondMore(start: int, rs: seq<Reading>, r: Reading)
    requires EverySecond(start, rs) && r.at >= LastAt(start, rs) + SECOND
    ensures EverySecond(start, rs + [r]) && LastAt(start, rs + [r]) == r.at
  {
    var qs := rs + [r];
    forall k | 0 <= k < |qs|
      ensures qs[k].at >= LastAt(start, qs[..k]) + SECOND
    {
      assert k < |rs| ==> qs[..k] == rs[..k];
      assert k == |rs| ==> qs[..k] == rs;
    }
  }

  // So n samples take n seconds.
  lemma {:induction false} SamplesTakeSeconds(start: int, rs: seq<Reading>)
    requires EverySecond(start, rs)
    ensures LastAt(start, rs) >= start + |rs| * SECOND
  {
    if rs != [] {
      var n := |rs| - 1;
      assert forall k | 0 <= k < n :: rs[..n][..k] == rs[..k];
      SamplesTakeSeconds(start, rs[..n]);
    }
  }

  lemma SecondBetween(start: int, rs: seq<Reading>, k: nat)
    requires EverySecond(start, rs)
    ensures Stream(start, rs)(k + 1).checkAt >= Stream(start, rs)(k).sampleAt + SECOND
  {
    if k + 1 < |rs| {
      assert rs[..k + 1][k] == rs[k];
      assert rs[k + 1].at >= LastAt(start, rs[..k + 1]) + SECOND;
    } else if k + 1 == |rs| {
      assert Stream(start, rs)(k + 1).checkAt == LastAt(start, rs) + SECOND;
    } else {
      var n := k - |rs| + 1;
      assert (n + 1) * SECOND == n * SECOND + SECOND;
      assert Stream(start, rs)(k).sampleAt == LastAt(start, rs) + n * SECOND;
      assert Stream(start, rs)(k + 1).checkAt == LastAt(start, rs) + (n + 1) * SECOND;
    }
  }

  lemma StreamIsPaced(start: int, rs: seq<Reading>)
    requires EverySecond(start, rs)
    ensures Paced(start, Stream(start, rs))
  {
    forall k: nat
      ensures Stream(start, rs)(k + 1).checkAt >= Stream(start, rs)(k).sampleAt + SECOND
    {
      SecondBetween(start, rs, k);
    }
    if rs != [] {
      assert rs[0].at >= LastAt(start, rs[..0]) + SECOND;
    }
  }

  // ---------------------------------------------------------------- the invariant

  // No three idle samples in a row before the last of them.
  ghost predicate NoneBefore(start: int, rs: seq<Reading>) {
    forall n: nat | n < |rs| :: Count(start, rs, n) < IDLE_SAMPLES
  }

  // The samples of a wait that began at `start`.
  ghost predicate Sampling(start: int, timeout: int, rs: seq<Reading>) {
    EverySecond(start, rs) && NoneBefore(start, rs) && (rs != [] ==> |rs| * SECOND <= timeout)
  }

  // A watcher carries exactly what the loop carries after its samples, and is where the loop is.
  ghost predicate Traced(wt: Watcher, now: int) {
    var start, rs := wt.detector.start, wt.readings;
    && wt.detector == After(start, Stream(start, rs), |rs|)
    && Sampling(start, wt.timeout, rs)
    && LastAt(start, rs) <= now
    && match wt.phase
       case Spawned => rs == []
       case Sleeping(until) => wt.detector.idleCount < IDLE_SAMPLES && until >= LastAt(start, rs) + SECOND
       case Gated => wt.detector.idleCount < IDLE_SAMPLES && now >= LastAt(start, rs) + SECOND
       case Passed =>
         && wt.detector.idleCount < IDLE_SAMPLES
         && now >= LastAt(start, rs) + SECOND
         && (|rs| + 1) * SECOND <= wt.timeout
       case Firing => wt.detector.idleCount >= IDLE_SAMPLES
       case Routed(_) => wt.detector.idleCount >= IDLE_SAMPLES
       case Winding(_) => true
  }

  ghost predicate Earned(sw: Switch) {
    Sampling(sw.start, sw.timeout, sw.readings) && Count(sw.start, sw.readings, |sw.readings|) >= IDLE_SAMPLES
  }

  ghost predicate AllTraced(w: World) {
    && (forall k <- w.watchers.Keys :: Traced(w.watchers[k], w.now))
    && (forall i | 0 <= i < |w.switches| :: Earned(w.switches[i]))
  }

  lemma BeginsTraced(wt: Watcher, now: int)
    requires wt.readings == [] && wt.detector == Detector(now, now, 0, 0)
    requires wt.phase.Spawned? || wt.phase == Sleeping(now + SECOND)
    ensures Traced(wt, now)
  {
  }

  lemma PassesTraced(wt: Watcher, now: int)
    requires Traced(wt, now) && wt.phase.Gated? && now - wt.detector.start <= wt.timeout
    ensures Traced(wt.(phase := Passed), now)
  {
    hide After, EverySecond, NoneBefore;
    SamplesTakeSeconds(wt.detector.start, wt.readings);
  }

  lemma TakesTraced(wt: Watcher, now: int, bytes: int)
    requires Traced(wt, now) && wt.phase.Passed?
    ensures var d' := Sample(wt.detector, now, bytes);
            Traced(wt.(
              detector := d', readings := wt.readings + [Reading(now, bytes)],
              phase := if d'.idleCount >= IDLE_SAMPLES then Firing else Sleeping(now + SECOND)), now)
  {
    hide After, EverySecond, Count, Stream;
    var start, rs, r := wt.detector.start, wt.readings, Reading(now, bytes);
    OneMoreSample(start, rs, r);
    OneSecondMore(start, rs, r);
    CountIs(start, rs);
  }

  lemma CountIs(start: int, rs: seq<Reading>)
    ensures Count(start, rs, |rs|) == After(start, Stream(start, rs), |rs|).idleCount
  {
  }

  lemma LaterTraced(wt: Watcher, now: int, later: int)
    requires Traced(wt, now) && now <= later
    ensures Traced(wt, later)
  {
    hide After, EverySecond, NoneBefore, Stream;
  }

  // The other sections of the watcher itself.
  lemma MovesTraced(wt: Watcher, now: int, phase: Phase)
    requires Traced(wt, now)
    requires || (wt.phase.Sleeping? && wt.phase.until <= now && phase == Gated)
             || (wt.phase.Firing? && phase.Routed?)
             || phase.Winding?
    ensures Traced(wt.(phase := phase), now)
  {
    hide After, EverySecond, NoneBefore, Stream;
  }

  lemma RecordsEarned(wt: Watcher, now: int, at: int)
    requires Traced(wt, now) && wt.phase.Routed?
    ensures Earned(SwitchOf(wt, at))
  {
    hide After, EverySecond, NoneBefore, Stream;
    CountIs(wt.detector.start, wt.readings);
  }

  lemma StepKeepsTraced(w: World, l: Label)
    requires CanStep(w, l) && AllTraced(w)
    ensures AllTraced(Step(w, l))
  {
    hide Traced, Earned, Act, CanAct, MayChoose, Proposes, LooksOn, Sample, TrafficRate;
    match l
    case Tick(dt) =>
      forall k <- w.watchers.Keys
        ensures Traced(w.watchers[k], w.now + dt)
      {
        LaterTraced(w.watchers[k], w.now, w.now + dt);
      }
    case CheckSpeed(k, cfg, best) =>
      if k in Step(w, l).watchers {
        BeginsTraced(Step(w, l).watchers[k], w.now);
      }
    case Begin(k, _) => BeginsTraced(Step(w, l).watchers[k], w.now);
    case Look(k) => MovesTraced(w.watchers[k], w.now, Gated);
    case Expire(k) => MovesTraced(w.watchers[k], w.now, Winding(w.now + 5 * SECOND));
    case Pass(k) => PassesTraced(w.watchers[k], w.now);
    case Take(k, bytes) => TakesTraced(w.watchers[k], w.now, bytes);
    case MovePointer(k) => MovesTraced(w.watchers[k], w.now, Routed(w.now));
    case RecordSwitch(k, _, at) =>
      RecordsEarned(w.watchers[k], w.now, at);
      MovesTraced(w.watchers[k], w.now, Winding(w.now + 10 * SECOND));
    case _ =>
  }

  lemma {:induction false} RunKeepsTraced(w: World, ls: seq<Label>)
    requires CanRun(w, ls) && AllTraced(w)
    ensures AllTraced(Run(w, ls))
    decreases |ls|
  {
    if ls != [] {
      StepKeepsTraced(w, ls[0]);
      RunKeepsTraced(Step(w, ls[0]), ls[1..]);
    }
  }

  // ---------------------------------------------------------------- what it means

  // In every run, cancelled or not, every switch was recorded after three idle samples in a row of
  // its own watcher, the first three of its wait, with one sample a second at most and none past
  // the timeout.
  lemma EverySwitchWasIdle(now: int, ls: seq<Label>, i: nat)
    requires CanRun(Init(now), ls) && i < |Run(Init(now), ls).switches|
    ensures var sw := Run(Init(now), ls).switches[i];
            var ticks, n := Stream(sw.start, sw.readings), |sw.readings|;
            && Paced(sw.start, ticks)
            && ThreeLow(sw.start, ticks, n)
            && NotYetIdle(sw.start, ticks, n)
            && n * SECOND <= sw.timeout
  {
    RunKeepsTraced(Init(now), ls);
    EarnedMeansIdle(Run(Init(now), ls).switches[i]);
  }

  lemma EarnedMeansIdle(sw: Switch)
    requires Earned(sw)
    ensures var ticks, n := Stream(sw.start, sw.readings), |sw.readings|;
            && Paced(sw.start, ticks)
            && ThreeLow(sw.start, ticks, n)
            && NotYetIdle(sw.start, ticks, n)
            && n * SECOND <= sw.timeout
  {
    hide ThreeLow, Paced, EverySecond, Stream;
    var ticks, n := Stream(sw.start, sw.readings), |sw.readings|;
    StreamIsPaced(sw.start, sw.readings);
    CountMeansThreeLow(sw.start, ticks, n);
    forall j | 0 <= j < n
      ensures !ThreeLow(sw.start, ticks, j)
    {
      CountMeansThreeLow(sw.start, ticks, j);
      assert Count(sw.start, sw.readings, j) < IDLE_SAMPLES;
    }
  }

  // So, where the counters could be read, fewer than 10 * 1024 bytes per second had moved over the
  // last two intervals before any switch of any run.
  lemma EverySwitchWasQuiet(now: int, ls: seq<Label>, i: nat)
    requires CanRun(Init(now), ls) && i < |Run(Init(now), ls).switches|
    ensures var rs := Run(Init(now), ls).switches[i].readings;
            var n := |rs|;
            && n >= IDLE_SAMPLES
            && (rs[n - 3].bytes > 0 && rs[n - 2].bytes > 0 ==>
                  (rs[n - 1].bytes - rs[n - 3].bytes) as real * SECOND as real
                  < 10.0 * 1024.0 * (rs[n - 1].at - rs[n - 3].at) as real)
  {
    hide CanRun, Run;
    EverySwitchWasIdle(now, ls, i);
    QuietEnd(Run(Init(now), ls).switches[i]);
  }

  lemma QuietEnd(sw: Switch)
    requires var ticks := Stream(sw.start, sw.readings);
             Paced(sw.start, ticks) && ThreeLow(sw.start, ticks, |sw.readings|)
    ensures var rs, n := sw.readings, |sw.readings|;
            && n >= IDLE_SAMPLES
            && (rs[n - 3].bytes > 0 && rs[n - 2].bytes > 0 ==>
                  (rs[n - 1].bytes - rs[n - 3].bytes) as real * SECOND as real
                  < 10.0 * 1024.0 * (rs[n - 1].at - rs[n - 3].at) as real)
  {
    var rs, n := sw.readings, |sw.readings|;
    if rs[n - 3].bytes > 0 && rs[n - 2].bytes > 0 {
      FiredMeansQuiet(sw.start, Stream(sw.start, rs), n);
    }
  }

  // And no watcher, however it ends, ever takes more samples than its timeout has seconds.
  lemma SamplesFitTheTimeout(now: int, ls: seq<Label>, k: nat)
    requires CanRun(Init(now), ls) && k in Run(Init(now), ls).watchers
    ensures var wt := Run(Init(now), ls).watchers[k];
            wt.readings != [] ==> |wt.readings| * SECOND <= wt.timeout
  {
    RunKeepsTraced(Init(now), ls);
  }
}
