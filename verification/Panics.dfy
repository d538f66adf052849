/** When a ping ends in a panic, over whole runs: what came between its two sections. */
module Panics {
  import opened Wrappers
  import opened Model
  import opened Health
  import opened Fleets
  import opened Protocol

  ghost predicate AllConfigured(ls: seq<Label>) {
    forall i | 0 <= i < |ls| && ls[i].FleetStep? :: Configured(ls[i].a)
  }

  predicate Takes(w: World, l: Label, id: Id) {
    l.FleetStep? && TakesClient(w.f, l.a, id)
  }

  // The entry has no client at any point of the run.
  ghost predicate StaysClientless(w: World, ls: seq<Label>, id: Id)
    requires CanRun(w, ls)
    decreases |ls|
  {
    Clientless(w.f.s, id) && (ls == [] || StaysClientless(Step(w, ls[0]), ls[1..], id))
  }

  // Some section of the run takes the client from the entry, and it gets no new one after that.
  ghost predicate LeftWithout(w: World, ls: seq<Label>, id: Id)
    requires CanRun(w, ls)
    decreases |ls|
  {
    && ls != []
    && (|| (Takes(w, ls[0], id) && StaysClientless(Step(w, ls[0]), ls[1..], id))
        || LeftWithout(Step(w, ls[0]), ls[1..], id))
  }

  lemma StepClientlessIff(w: World, l: Label, id: Id)
    requires CanStep(w, l) && (l.FleetStep? ==> Configured(l.a)) && !Clientless(w.f.s, id)
    ensures Clientless(Step(w, l).f.s, id) <==> Takes(w, l, id)
  {
    hide Act, CanAct, TakesClient, Configured;
    if l.FleetStep? {
      ClientlessIff(w.f, l.a, id);
    } else {
      OthersAreMigrationOnly(w, l);
    }
  }

  lemma {:induction false} ClientlessAfterIff(w: World, ls: seq<Label>, id: Id)
    requires CanRun(w, ls) && AllConfigured(ls)
    ensures Clientless(Run(w, ls).f.s, id) <==>
            LeftWithout(w, ls, id) || (Clientless(w.f.s, id) && StaysClientless(w, ls, id))
    decreases |ls|
  {
    hide Step, CanStep, Clientless, TakesClient, Configured;
    if ls != [] {
      assert ls[0].FleetStep? ==> Configured(ls[0].a);
      if !Clientless(w.f.s, id) {
        StepClientlessIff(w, ls[0], id);
      }
      ClientlessAfterIff(Step(w, ls[0]), ls[1..], id);
      if Clientless(w.f.s, id) {
        TakesFromSomeone(w, ls[0], id);
      }
    }
  }

  lemma TakesFromSomeone(w: World, l: Label, id: Id)
    requires Clientless(w.f.s, id)
    ensures !Takes(w, l, id)
  {
  }

  // ---------------------------------------------------------------- a ping in flight

  ghost predicate EndsNoPing(ls: seq<Label>) {
    forall i | 0 <= i < |ls| :: !(ls[i].FleetStep? && ls[i].a.PingEnd?)
  }

  lemma StepKeepsPing(w: World, l: Label, id: Id)
    requires CanStep(w, l) && !(l.FleetStep? && l.a.PingEnd?) && w.f.pinging == Some(id)
    ensures Step(w, l).f.pinging == Some(id) && !Step(w, l).f.crashed
  {
    if !l.FleetStep? {
      OthersAreMigrationOnly(w, l);
    }
  }

  lemma {:induction false} RunKeepsPing(w: World, ls: seq<Label>, id: Id)
    requires CanRun(w, ls) && EndsNoPing(ls) && w.f.pinging == Some(id) && !w.f.crashed
    ensures Run(w, ls).f.pinging == Some(id) && !Run(w, ls).f.crashed
    decreases |ls|
  {
    hide Step, CanStep;
    if ls != [] {
      StepKeepsPing(w, ls[0], id);
      RunKeepsPing(Step(w, ls[0]), ls[1..], id);
    }
  }

  // A ping that began in a reachable state can end in a panic exactly when some section in between
  // takes the client from its entry and none gives it another. The outcome of the ping makes no
  // difference.
  lemma PanicsIff(now: int, before: seq<Label>, id: Id, ls: seq<Label>, p: Ping)
    requires CanRun(Init(now), before) && CanStep(Run(Init(now), before), FleetStep(PingStart(id)))
    requires CanRun(Step(Run(Init(now), before), FleetStep(PingStart(id))), ls)
    requires EndsNoPing(ls) && AllConfigured(ls)
    ensures var w := Step(Run(Init(now), before), FleetStep(PingStart(id)));
            var w1 := Run(w, ls);
            && CanStep(w1, FleetStep(PingEnd(p)))
            && (Step(w1, FleetStep(PingEnd(p))).f.crashed <==> LeftWithout(w, ls, id))
  {
    hide Shape, PointerSafe, HealthOk, TakesClient, Init;
    var w0 := Run(Init(now), before);
    InitInOrder(now);
    RunKeepsFleet(Init(now), before);
    var w := Step(w0, FleetStep(PingStart(id)));
    StepKeepsFleet(w0, FleetStep(PingStart(id)));
    RunKeepsFleet(w, ls);
    RunKeepsPing(w, ls, id);
    ClientlessAfterIff(w, ls, id);
    CrashesIff(Run(w, ls).f, PingEnd(p));
  }
}
