/**
 The idle detector of idleWatcher, and the rate arithmetic of pkg/healthcheck it samples with.
 Everything outside the loop (clock, byte counters, the state it looks at each second) arrives
 as a stream of ticks.
 */
module Idle {
  import opened Model

  const IDLE_THRESHOLD_KBPS: real := 10.0
  const IDLE_SAMPLES: int := 3

  // Kilobytes per second since the previous reading; 0 while there is no previous reading.
  function TrafficRate(prevBytes: int, currentBytes: int, interval: int): real {
    if prevBytes > 0 && interval > 0 then
      (currentBytes - prevBytes) as real / (interval as real / SECOND as real) / 1024.0
    else 0.0
  }

  // What the detector carries from one sample to the next.
  datatype Detector = Detector(start: int, waitT: int, prevBytes: int, idleCount: int)

  function Sample(d: Detector, now: int, bytes: int): Detector {
    var kbps := TrafficRate(d.prevBytes, bytes, now - d.waitT);
    Detector(d.start, now, bytes, if kbps < IDLE_THRESHOLD_KBPS then d.idleCount + 1 else 0)
  }

  // A sample as the watcher took it.
  datatype Reading = Reading(at: int, bytes: int)

  // One turn of the loop as the environment presents it: whether the locked look at the state
  // lets the loop go on, the clock at the timeout check and at the sample, and the counters.
  datatype Tick = Tick(proceed: bool, checkAt: int, sampleAt: int, rx: int, tx: int)
  {
    function Bytes(): int {
      rx + tx
    }
  }

  // Every turn begins by sleeping one second, and the clock never runs backwards.
  ghost predicate Paced(start: int, ticks: nat -> Tick) {
    && ticks(0).checkAt >= start + SECOND
    && (forall k: nat :: ticks(k).sampleAt >= ticks(k).checkAt)
    && (forall k: nat :: ticks(k + 1).checkAt >= ticks(k).sampleAt + SECOND)
  }

  function PrevBytes(ticks: nat -> Tick, k: nat): int {
    if k == 0 then 0 else ticks(k - 1).Bytes()
  }

  function PrevTime(start: int, ticks: nat -> Tick, k: nat): int {
    if k == 0 then start else ticks(k - 1).sampleAt
  }

  // The k-th sample counts as idle.
  predicate Low(start: int, ticks: nat -> Tick, k: nat) {
    TrafficRate(PrevBytes(ticks, k), ticks(k).Bytes(), ticks(k).sampleAt - PrevTime(start, ticks, k))
    < IDLE_THRESHOLD_KBPS
  }

  // Sample k - 1 completes three idle samples in a row.
  predicate ThreeLow(start: int, ticks: nat -> Tick, k: nat) {
    k >= 3 && Low(start, ticks, k - 1) && Low(start, ticks, k - 2) && Low(start, ticks, k - 3)
  }

  // The length of the idle run that ends the first n samples.
  function LowSuffix(start: int, ticks: nat -> Tick, n: nat): nat {
    if n == 0 || !Low(start, ticks, n - 1) then 0 else LowSuffix(start, ticks, n - 1) + 1
  }

  // The detector after n samples.
  function After(start: int, ticks: nat -> Tick, n: nat): Detector {
    if n == 0 then Detector(start, start, 0, 0)
    else Sample(After(start, ticks, n - 1), ticks(n - 1).sampleAt, ticks(n - 1).Bytes())
  }

  // The detector's fields in closed form: its counter is exactly the idle suffix.
  lemma {:induction false} DetectorIsSuffix(start: int, ticks: nat -> Tick, n: nat)
    ensures After(start, ticks, n) ==
            Detector(start, PrevTime(start, ticks, n), PrevBytes(ticks, n), LowSuffix(start, ticks, n))
  {
    if n > 0 {
      DetectorIsSuffix(start, ticks, n - 1);
    }
  }

  lemma SuffixReachesThree(start: int, ticks: nat -> Tick, n: nat)
    ensures LowSuffix(start, ticks, n) >= 3 <==> ThreeLow(start, ticks, n)
  {
    if n >= 3 {
      assert LowSuffix(start, ticks, n - 2) ==
             if Low(start, ticks, n - 3) then LowSuffix(start, ticks, n - 3) + 1 else 0;
      assert LowSuffix(start, ticks, n - 1) ==
             if Low(start, ticks, n - 2) then LowSuffix(start, ticks, n - 2) + 1 else 0;
    } else if n == 2 {
      assert LowSuffix(start, ticks, 1) <= 1;
    }
  }

  // The detector's counter reaches three exactly when three idle samples in a row are complete.
  lemma CountMeansThreeLow(start: int, ticks: nat -> Tick, n: nat)
    ensures After(start, ticks, n).idleCount >= IDLE_SAMPLES <==> ThreeLow(start, ticks, n)
  {
    DetectorIsSuffix(start, ticks, n);
    SuffixReachesThree(start, ticks, n);
  }

  // The k-th turn is at least k + 1 seconds after the start.
  lemma {:induction false} TurnsTakeSeconds(start: int, ticks: nat -> Tick, k: nat)
    requires Paced(start, ticks)
    ensures ticks(k).checkAt >= start + (k + 1) * SECOND
  {
    if k > 0 {
      TurnsTakeSeconds(start, ticks, k - 1);
      assert ticks((k - 1) + 1).checkAt >= ticks(k - 1).sampleAt + SECOND;
    }
  }

  // How the loop ends, with the number of samples taken by then.
  datatype Outcome = Quit(samples: nat) | TimedOut(samples: nat) | Fired(samples: nat)

  // The first k turns went on to take their sample.
  ghost predicate WentOn(start: int, waitTimeout: int, ticks: nat -> Tick, k: nat) {
    forall j | 0 <= j < k :: ticks(j).proceed && ticks(j).checkAt - start <= waitTimeout
  }

  ghost predicate NotYetIdle(start: int, ticks: nat -> Tick, k: nat) {
    forall j | 0 <= j < k :: !ThreeLow(start, ticks, j)
  }

  lemma NothingYet(start: int, waitTimeout: int, ticks: nat -> Tick)
    ensures WentOn(start, waitTimeout, ticks, 0) && NotYetIdle(start, ticks, 0)
  {
  }

  lemma OneMore(start: int, waitTimeout: int, ticks: nat -> Tick, k: nat)
    requires WentOn(start, waitTimeout, ticks, k) && NotYetIdle(start, ticks, k) && !ThreeLow(start, ticks, k)
    requires ticks(k).proceed && ticks(k).checkAt - start <= waitTimeout
    ensures WentOn(start, waitTimeout, ticks, k + 1) && NotYetIdle(start, ticks, k + 1)
  {
  }

  /** The loop of idleWatcher. The first tick whose look at the state fails ends it quietly, the
      first check past the timeout cancels, the first three idle samples in a row fire. A sample
      takes a second, so there are no more samples than seconds in the timeout. */
  method IdleLoop(start: int, waitTimeout: int, ticks: nat -> Tick) returns (o: Outcome)
    requires Paced(start, ticks)
    ensures WentOn(start, waitTimeout, ticks, o.samples) && NotYetIdle(start, ticks, o.samples)
    ensures o.Fired? <==> ThreeLow(start, ticks, o.samples)
    ensures o.Quit? ==> !ticks(o.samples).proceed
    ensures o.TimedOut? ==> ticks(o.samples).proceed && ticks(o.samples).checkAt - start > waitTimeout
    ensures o.samples > 0 ==> o.samples * SECOND <= waitTimeout
  {
    var waitT, prevBytes, idleCount := start, 0, 0;
    var k: nat := 0;
    hide ThreeLow, TrafficRate, Paced, WentOn, NotYetIdle;
    CountMeansThreeLow(start, ticks, 0);
    NothingYet(start, waitTimeout, ticks);
    while true
      invariant Detector(start, waitT, prevBytes, idleCount) == After(start, ticks, k)
      invariant k > 0 ==> k * SECOND <= waitTimeout
      invariant WentOn(start, waitTimeout, ticks, k)
      invariant NotYetIdle(start, ticks, k) && !ThreeLow(start, ticks, k)
      decreases waitTimeout - k * SECOND
    {
      TurnsTakeSeconds(start, ticks, k);
      var tick := ticks(k);
      if !tick.proceed {
        return Quit(k);
      }
      if tick.checkAt - start > waitTimeout {
        return TimedOut(k);
      }
      var kbps := TrafficRate(prevBytes, tick.Bytes(), tick.sampleAt - waitT);
      prevBytes := tick.Bytes();
      waitT := tick.sampleAt;
      idleCount := if kbps < IDLE_THRESHOLD_KBPS then idleCount + 1 else 0;
      OneMore(start, waitTimeout, ticks, k);
      k := k + 1;
      CountMeansThreeLow(start, ticks, k);
      if idleCount >= IDLE_SAMPLES {
        return Fired(k);
      }
    }
  }

  // ---------------------------------------------------------------- what an idle verdict means

  lemma LowMeansFewBytes(prev: int, cur: int, dt: int)
    requires prev > 0 && dt > 0
    ensures TrafficRate(prev, cur, dt) < IDLE_THRESHOLD_KBPS <==>
            (cur - prev) as real * SECOND as real < 10.0 * 1024.0 * dt as real
  {
    var diff, secs := (cur - prev) as real, dt as real / SECOND as real;
    assert secs * SECOND as real == dt as real;
    var rate := diff / secs;
    assert rate * secs == diff;
    if rate < 10240.0 {
      assert rate * secs < 10240.0 * secs;
    } else {
      assert rate * secs >= 10240.0 * secs;
    }
  }

  // A measured rate is the bytes moved, over 1024, over the seconds between the readings.
  lemma RateMeans(prev: int, cur: int, dt: int)
    ensures prev > 0 && dt > 0 ==>
              TrafficRate(prev, cur, dt) * 1024.0 * dt as real == (cur - prev) as real * 1_000_000_000.0
    ensures prev <= 0 || dt <= 0 ==> TrafficRate(prev, cur, dt) == 0.0
  {
    if prev > 0 && dt > 0 {
      var diff, secs := (cur - prev) as real, dt as real / SECOND as real;
      assert secs * SECOND as real == dt as real;
      var perSec := diff / secs;
      assert perSec * secs == diff;
      assert TrafficRate(prev, cur, dt) * 1024.0 == perSec;
    }
  }

  // A rate is idle exactly when there was no positive previous reading, no time passed, or fewer than
  // 10 * 1024 bytes per second moved.
  lemma IdleRateIff(prev: int, cur: int, dt: int)
    ensures TrafficRate(prev, cur, dt) < IDLE_THRESHOLD_KBPS <==>
            || prev <= 0
            || dt <= 0
            || (cur - prev) as real * SECOND as real < 10.0 * 1024.0 * dt as real
  {
    if prev > 0 && dt > 0 {
      LowMeansFewBytes(prev, cur, dt);
    }
  }

  // When the detector fires with readable counters, fewer than 10 * 1024 bytes per second have
  // moved over the last two measured intervals together.
  lemma FiredMeansQuiet(start: int, ticks: nat -> Tick, n: nat)
    requires Paced(start, ticks) && ThreeLow(start, ticks, n)
    requires ticks(n - 3).Bytes() > 0 && ticks(n - 2).Bytes() > 0
    ensures (ticks(n - 1).Bytes() - ticks(n - 3).Bytes()) as real * SECOND as real
            < 10.0 * 1024.0 * (ticks(n - 1).sampleAt - ticks(n - 3).sampleAt) as real
  {
    assert ticks((n - 3) + 1).checkAt >= ticks(n - 3).sampleAt + SECOND;
    assert ticks((n - 2) + 1).checkAt >= ticks(n - 2).sampleAt + SECOND;
    LowMeansFewBytes(ticks(n - 3).Bytes(), ticks(n - 2).Bytes(), ticks(n - 2).sampleAt - ticks(n - 3).sampleAt);
    LowMeansFewBytes(ticks(n - 2).Bytes(), ticks(n - 1).Bytes(), ticks(n - 1).sampleAt - ticks(n - 2).sampleAt);
  }

  // The first sample is always idle, and so is every sample that follows a reading that was not
  // positive: an interface whose counters cannot be read looks idle, and the loop fires on the
  // third sample however much traffic there is.
  lemma UnreadableLooksIdle(start: int, ticks: nat -> Tick)
    requires ticks(0).Bytes() <= 0 && ticks(1).Bytes() <= 0
    ensures Low(start, ticks, 0) && ThreeLow(start, ticks, 3)
  {
  }
}
