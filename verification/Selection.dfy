/**
 selectBest: tiered selection with stickiness.

 The function runs in one critical section, except that it releases the lock while backups
 are launched. `Enters` and `Finish` are the two sections.
 */
module Selection {
  import opened Model

  function AliveSet(s: State): set<Id> {
    set id | id in s.tunnels && s.tunnels[id].Alive()
  }

  // The order handed to the sort: priority number first, then latency.
  predicate Before(a: Tunnel, b: Tunnel) {
    if a.priority != b.priority then a.priority < b.priority else a.latency < b.latency
  }

  // `b` can be the first candidate after sorting: the sort is unstable and the candidates come
  // in map order, so any alive tunnel with nothing strictly before it can end up first.
  predicate IsBest(s: State, b: Id) {
    b in AliveSet(s) && forall c <- AliveSet(s) :: !Before(s.tunnels[c], s.tunnels[b])
  }

  // A candidate that selectBest may be left with: irrelevant when nothing is alive.
  predicate MayPick(s: State, b: Id) {
    AliveSet(s) != {} ==> IsBest(s, b)
  }

  predicate HasStandby(s: State) {
    exists id <- s.tunnels.Keys :: s.tunnels[id].priority == 3 && s.tunnels[id].client.None?
  }

  // Nothing alive, something was active, and a backup is left to try.
  predicate LaunchesBackups(s: State) {
    AliveSet(s) == {} && s.activeID != NO_TUNNEL && HasStandby(s)
  }

  predicate HasPrimary(s: State) {
    exists id <- AliveSet(s) :: s.tunnels[id].priority <= 2
  }

  predicate BackupRunning(s: State) {
    exists id <- s.tunnels.Keys :: s.tunnels[id].priority == 3 && s.tunnels[id].Running()
  }

  // selectBest starts a stopPriority3 goroutine.
  predicate QueuesTeardown(s: State) {
    HasPrimary(s) && BackupRunning(s)
  }

  // The active tunnel is in the map and its last health verdict was good, running or not.
  predicate ActiveHealthy(s: State) {
    s.ActiveKnown() && s.tunnels[s.activeID].latency >= 0
  }

  predicate KeepsActive(s: State, best: Id)
    requires best in s.tunnels
  {
    || s.activeID == best
    || (&& s.activeID != NO_TUNNEL
        && ActiveHealthy(s)
        && s.tunnels[best].priority >= s.tunnels[s.activeID].priority)
  }

  // The tail of selectBest, from the second look at the candidates on.
  function Finish(s: State, best: Id): State
    requires MayPick(s, best)
  {
    if AliveSet(s) == {} then s.(activeID := NO_TUNNEL)
    else if KeepsActive(s, best) then s
    else s.(activeID := best)
  }

  // ---------------------------------------------------------------- one selection

  // What any completed selection leaves behind.
  ghost predicate Selected(s: State, s': State) {
    && s' == s.(activeID := s'.activeID)
    && (AliveSet(s) == {} ==> s'.activeID == NO_TUNNEL)
    && (AliveSet(s) != {} ==>
          && ActiveHealthy(s')
          && forall c <- AliveSet(s) :: s.tunnels[s'.activeID].priority <= s.tunnels[c].priority)
    && (s'.activeID != s.activeID && AliveSet(s) != {} ==> IsBest(s, s'.activeID))
    && EndsRight(s, s'.activeID)
  }

  // A selection moves nothing but the pointer, and leaves it resolved.
  lemma FinishMovesPointer(s: State, best: Id)
    requires MayPick(s, best)
    ensures var s' := Finish(s, best);
            && s' == s.(activeID := s'.activeID)
            && s'.ActiveResolved()
            && (s'.activeID == s.activeID || s'.activeID == NO_TUNNEL || s'.activeID in s.tunnels)
  {
  }

  // In plain terms, the tunnel is up: its process runs and its last verdict was good.
  predicate IsUp(t: Tunnel) {
    t.client.Some? && t.client.value.running && t.latency >= 0
  }

  ghost predicate NoneUp(s: State) {
    forall id <- s.tunnels.Keys :: !IsUp(s.tunnels[id])
  }

  // It is up, and every tunnel that is up has a larger priority number, or the same one and no lower
  // latency.
  ghost predicate FirstOfUp(s: State, a: Id) {
    && a in s.tunnels && IsUp(s.tunnels[a])
    && forall c <- s.tunnels.Keys | IsUp(s.tunnels[c]) ::
         || s.tunnels[a].priority < s.tunnels[c].priority
         || (s.tunnels[a].priority == s.tunnels[c].priority && s.tunnels[a].latency <= s.tunnels[c].latency)
  }

  // The active tunnel had a good verdict, and nothing of a better tier is up.
  ghost predicate HoldsOn(s: State) {
    && s.activeID != "" && s.activeID in s.tunnels
    && s.tunnels[s.activeID].latency >= 0
    && forall c <- s.tunnels.Keys | IsUp(s.tunnels[c]) :: s.tunnels[c].priority >= s.tunnels[s.activeID].priority
  }

  // What a selection ends on: nothing when nothing is up, the active tunnel when it holds on, and
  // otherwise the first of those that are up, by tier and then by lowest latency.
  ghost predicate EndsRight(s: State, a: Id) {
    if NoneUp(s) then a == ""
    else if HoldsOn(s) then a == s.activeID
    else FirstOfUp(s, a)
  }

  lemma UpIsAliveSet(s: State)
    ensures forall id :: id in AliveSet(s) <==> id in s.tunnels && IsUp(s.tunnels[id])
    ensures NoneUp(s) <==> AliveSet(s) == {}
  {
    if AliveSet(s) != {} {
      var id :| id in AliveSet(s);
      assert IsUp(s.tunnels[id]);
    }
  }

  lemma FinishEndsRight(s: State, best: Id)
    requires MayPick(s, best)
    ensures EndsRight(s, Finish(s, best).activeID)
  {
    UpIsAliveSet(s);
    if !NoneUp(s) {
      forall c <- s.tunnels.Keys | IsUp(s.tunnels[c])
        ensures || s.tunnels[best].priority < s.tunnels[c].priority
                || (&& s.tunnels[best].priority == s.tunnels[c].priority
                    && s.tunnels[best].latency <= s.tunnels[c].latency)
      {
        assert c in AliveSet(s) && !Before(s.tunnels[c], s.tunnels[best]);
      }
      assert IsUp(s.tunnels[best]);
    }
  }

  // The two decisions of the first section, in plain terms: backups are launched when nothing is up,
  // something was active, and a tier 3 tunnel has no client; a teardown is queued when a tunnel of
  // tier 1 or 2 is up and the process of a tier 3 tunnel runs.
  lemma EntersWhen(s: State)
    ensures LaunchesBackups(s) <==>
            NoneUp(s) && s.activeID != ""
            && exists id <- s.tunnels.Keys :: s.tunnels[id].priority == 3 && s.tunnels[id].client.None?
    ensures QueuesTeardown(s) <==>
            && (exists id <- s.tunnels.Keys :: IsUp(s.tunnels[id]) && s.tunnels[id].priority <= 2)
            && (exists id <- s.tunnels.Keys ::
                  s.tunnels[id].priority == 3 && s.tunnels[id].client.Some? && s.tunnels[id].client.value.running)
  {
    UpIsAliveSet(s);
    if HasPrimary(s) {
      var id :| id in AliveSet(s) && s.tunnels[id].priority <= 2;
      assert id in s.tunnels.Keys && IsUp(s.tunnels[id]);
    }
    if id :| id in s.tunnels.Keys && IsUp(s.tunnels[id]) && s.tunnels[id].priority <= 2 {
      assert id in AliveSet(s);
    }
  }

  // With nothing alive there is nothing to choose.
  lemma NothingAliveEnds(s: State, best: Id)
    ensures NoneUp(s) <==> AliveSet(s) == {}
    ensures AliveSet(s) == {} ==> EndsRight(s, "") && Finish(s, best) == s.(activeID := NO_TUNNEL)
    ensures AliveSet(s) == {} ==> !QueuesTeardown(s)
  {
    UpIsAliveSet(s);
  }

  lemma FinishAllEndRight(s: State)
    ensures forall best | MayPick(s, best) :: EndsRight(s, Finish(s, best).activeID)
  {
    forall best | MayPick(s, best)
      ensures EndsRight(s, Finish(s, best).activeID)
    {
      FinishEndsRight(s, best);
    }
  }

  lemma FinishSelects(s: State, best: Id)
    requires MayPick(s, best)
    ensures Selected(s, Finish(s, best))
    ensures EndsRight(s, Finish(s, best).activeID)
    ensures var a := Finish(s, best).activeID;
            a != s.activeID && AliveSet(s) != {} ==>
              a in s.tunnels && forall c <- AliveSet(s) ::
                || s.tunnels[a].priority < s.tunnels[c].priority
                || (s.tunnels[a].priority == s.tunnels[c].priority && s.tunnels[a].latency <= s.tunnels[c].latency)
  {
    FinishEndsRight(s, best);
    UpIsAliveSet(s);
    if AliveSet(s) != {} && s.activeID != best && KeepsActive(s, best) {
      forall c <- AliveSet(s)
        ensures s.tunnels[s.activeID].priority <= s.tunnels[c].priority
      {
        assert !Before(s.tunnels[c], s.tunnels[best]);
      }
    }
  }

  // A fresh selection on an unchanged state never moves the pointer again, whatever the order
  // of ties was the first and the second time. (No tunnel carries the id that stands for none.)
  lemma SelectTwice(s: State, best: Id, again: Id)
    requires NO_TUNNEL !in s.tunnels
    requires MayPick(s, best)
    requires MayPick(Finish(s, best), again)
    ensures Finish(Finish(s, best), again) == Finish(s, best)
    ensures !LaunchesBackups(Finish(s, best))
  {
    FinishSelects(s, best);
    var s' := Finish(s, best);
    assert AliveSet(s') == AliveSet(s);
    if AliveSet(s) != {} {
      assert again in AliveSet(s);
    }
  }

  // From a healthy active tunnel the pointer moves exactly when nothing is alive at all, or a
  // strictly higher tier has an alive tunnel.
  lemma HealthyActiveMovesIff(s: State, best: Id)
    requires MayPick(s, best) && ActiveHealthy(s) && s.activeID != NO_TUNNEL
    ensures Finish(s, best).activeID != s.activeID <==>
            (|| AliveSet(s) == {}
             || exists c <- AliveSet(s) :: s.tunnels[c].priority < s.tunnels[s.activeID].priority)
  {
    if AliveSet(s) != {} {
      if Finish(s, best).activeID != s.activeID {
        assert s.tunnels[best].priority < s.tunnels[s.activeID].priority;
      } else {
        FinishSelects(s, best);
      }
    }
  }

  // The active tunnel's process is gone but its last verdict was good.
  predicate StaleActive(s: State) {
    ActiveHealthy(s) && !s.tunnels[s.activeID].Running()
  }

  // With something alive to choose from, a selection ends on a live tunnel unless the pointer is
  // on a dead process with a good verdict and no live tunnel is of a better tier.
  lemma EndsAliveIff(s: State, best: Id)
    requires MayPick(s, best) && AliveSet(s) != {} && NO_TUNNEL !in s.tunnels
    ensures Finish(s, best).activeID in AliveSet(s) <==>
            !(StaleActive(s) && forall c <- AliveSet(s) :: s.tunnels[c].priority >= s.tunnels[s.activeID].priority)
  {
    if StaleActive(s) {
      HealthyActiveMovesIff(s, best);
    }
  }

  // Some candidate is first after sorting, so the assign-such-that in SelectBest never fails.
  lemma BestExists(s: State, among: set<Id>) returns (b: Id)
    requires among != {} && among <= s.tunnels.Keys
    ensures b in among && forall c <- among :: !Before(s.tunnels[c], s.tunnels[b])
    decreases |among|
  {
    b :| b in among;
    var rest := among - {b};
    if rest == {} {
      forall c <- among
        ensures !Before(s.tunnels[c], s.tunnels[b])
      {
        assert c == b || c in rest;
      }
    } else {
      var r := BestExists(s, rest);
      var first := b;
      if Before(s.tunnels[r], s.tunnels[first]) {
        b := r;
      }
      forall c <- among
        ensures !Before(s.tunnels[c], s.tunnels[b])
      {
        if c != first {
          assert c in rest;
          assert !Before(s.tunnels[c], s.tunnels[r]);
        }
      }
    }
  }
}
