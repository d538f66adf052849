/**
 Backups in whole runs: which tunnels a selection finds alive when it resumes after launching backups,
 and what becomes of the active tunnel.
 */
module BackupRuns {
  import opened Wrappers
  import opened Model
  import opened Selection
  import opened Lifecycle
  import opened Health
  import opened Fleets
  import opened Protocol
  import opened MigrationRuns
  import opened Reachability
  import opened Stability
  import Backups

  // ---------------------------------------------------------------- coming to life

  // The step is an answered ping of that tunnel, while its process runs.
  predicate Answers(w: World, l: Label, id: Id) {
    && l.FleetStep?
    && l.a.PingEnd?
    && l.a.ping.Reply?
    && w.f.pinging == Some(id)
    && id in w.f.s.tunnels
    && w.f.s.tunnels[id].Running()
  }

  lemma StepRevivesIff(w: World, l: Label, id: Id)
    requires CanStep(w, l) && id !in AliveSet(w.f.s)
    ensures id in AliveSet(Step(w, l).f.s) <==> Answers(w, l, id)
  {
    if !(l.FleetStep? && l.a.PingEnd?) {
      StepAliveNeedsPing(w, l);
    }
  }

  ghost predicate StaysAlive(w: World, ls: seq<Label>, id: Id)
    requires CanRun(w, ls)
    decreases |ls|
  {
    id in AliveSet(w.f.s) && (ls == [] || StaysAlive(Step(w, ls[0]), ls[1..], id))
  }

  // The tunnel answers a ping in the run and is alive from then on.
  ghost predicate Answered(w: World, ls: seq<Label>, id: Id)
    requires CanRun(w, ls)
    decreases |ls|
  {
    && ls != []
    && (|| (Answers(w, ls[0], id) && StaysAlive(Step(w, ls[0]), ls[1..], id))
        || Answered(Step(w, ls[0]), ls[1..], id))
  }

  lemma {:induction false} AliveAfterIff(w: World, ls: seq<Label>, id: Id)
    requires CanRun(w, ls)
    ensures id in AliveSet(Run(w, ls).f.s) <==> Answered(w, ls, id) || StaysAlive(w, ls, id)
    decreases |ls|
  {
    hide Step, CanStep, AliveSet, Answers;
    if ls != [] {
      if id !in AliveSet(w.f.s) {
        StepRevivesIff(w, ls[0], id);
      }
      AliveAfterIff(Step(w, ls[0]), ls[1..], id);
    }
  }

  // A selection that launched backups, resumed after any run: it ends on a healthy tunnel exactly
  // when some tunnel has answered a ping in between and is still alive, and on no tunnel otherwise.
  lemma BackupsSeenIff(w: World, best: Id, ls: seq<Label>, again: Id)
    requires CanStep(w, FleetStep(SelectEnter(best))) && LaunchesBackups(w.f.s)
    requires CanRun(Step(w, FleetStep(SelectEnter(best))), ls)
    requires CanStep(Run(Step(w, FleetStep(SelectEnter(best))), ls), FleetStep(SelectResume(again)))
    ensures var w0 := Step(w, FleetStep(SelectEnter(best)));
            var end := Step(Run(w0, ls), FleetStep(SelectResume(again)));
            if exists id :: Answered(w0, ls, id) then ActiveHealthy(end.f.s) else end.f.s.activeID == NO_TUNNEL
  {
    var w0 := Step(w, FleetStep(SelectEnter(best)));
    var w1 := Run(w0, ls);
    forall id
      ensures id in AliveSet(w1.f.s) <==> Answered(w0, ls, id)
    {
      assert id !in AliveSet(w0.f.s);
      AliveAfterIff(w0, ls, id);
    }
    FinishSelects(w1.f.s, again);
  }

  // ---------------------------------------------------------------- both ends of the launch

  lemma EndPing(w: World) returns (w': World)
    requires !w.f.crashed && AliveSet(w.f.s) == {}
    requires w.f.pinging.Some? && !Clientless(w.f.s, w.f.pinging.value)
    ensures Reaches(w, w') && !w'.f.crashed && w'.f.pinging.None?
    ensures AliveSet(w'.f.s) == {} && w'.f.resuming == w.f.resuming
    ensures w'.f.s.tunnels.Keys == w.f.s.tunnels.Keys
    ensures forall id <- w.f.s.tunnels.Keys :: Clientless(w.f.s, id) ==> w'.f.s.tunnels[id] == w.f.s.tunnels[id]
  {
    ReachesSelf(w);
    Then(w, w, FleetStep(PingEnd(Lost)));
    w' := Step(w, FleetStep(PingEnd(Lost)));
  }

  // A new process for an entry that has none.
  lemma Restart(w: World, id: Id) returns (w': World)
    requires !w.f.crashed && Clientless(w.f.s, id)
    ensures Reaches(w, w') && !w'.f.crashed && w'.f.resuming == w.f.resuming && w'.f.pinging == w.f.pinging
    ensures var t := NewTunnel(Server(id, "", true, 3), UP);
            w'.f.s.tunnels == w.f.s.tunnels[id := t]
  {
    var srv := Server(id, "", true, 3);
    ReachesSelf(w);
    Then(w, w, FleetStep(StartBegin(srv)));
    var w1 := Step(w, FleetStep(StartBegin(srv)));
    assert srv in w1.f.starting;
    Then(w, w1, FleetStep(StartFinish(srv, UP)));
    w' := Step(w1, FleetStep(StartFinish(srv, UP)));
    assert (w.f.s.tunnels - {id})[id := NewTunnel(srv, UP)] == w.f.s.tunnels[id := NewTunnel(srv, UP)];
  }

  // The ping of a running tunnel, once it is answered.
  lemma AnswerInFlight(w: World, id: Id) returns (w': World)
    requires !w.f.crashed && w.f.pinging == Some(id) && id in w.f.s.tunnels && w.f.s.tunnels[id].Running()
    requires AliveSet(w.f.s) == {}
    ensures Reaches(w, w') && !w'.f.crashed && w'.f.resuming == w.f.resuming && AliveSet(w'.f.s) == {id}
  {
    ReachesSelf(w);
    Then(w, w, FleetStep(PingEnd(Reply(1))));
    w' := Step(w, FleetStep(PingEnd(Reply(1))));
    assert forall x :: x in AliveSet(w'.f.s) <==> x in AliveSet(w.f.s) || x == id;
  }

  lemma StartPing(w: World, id: Id) returns (w': World)
    requires !w.f.crashed && w.f.pinging.None? && id in w.f.s.tunnels && w.f.s.tunnels[id].Running()
    ensures Reaches(w, w') && w' == w.(f := w.f.(pinging := Some(id)))
  {
    ReachesSelf(w);
    Then(w, w, FleetStep(PingStart(id)));
    w' := Step(w, FleetStep(PingStart(id)));
  }

  lemma StillNoneAlive(s: State, s': State, id: Id)
    requires AliveSet(s) == {} && s'.tunnels == s.tunnels[id := NewTunnel(Server(id, "", true, 3), UP)]
    ensures AliveSet(s') == {} && id in s'.tunnels && s'.tunnels[id].Running()
  {
    forall x | x in AliveSet(s')
      ensures x in AliveSet(s)
    {
    }
  }

  lemma BringAlive(w: World, id: Id) returns (w': World)
    requires !w.f.crashed && AliveSet(w.f.s) == {} && Clientless(w.f.s, id)
    requires w.f.pinging.None? || w.f.pinging == Some(id)
    ensures Reaches(w, w') && !w'.f.crashed && w'.f.resuming == w.f.resuming && AliveSet(w'.f.s) == {id}
  {
    hide Step, CanStep, Reaches;
    var w1 := Restart(w, id);
    StillNoneAlive(w.f.s, w1.f.s, id);
    var w2 := w1;
    ReachesSelf(w1);
    if w1.f.pinging.None? {
      w2 := StartPing(w1, id);
    }
    Chain(w, w1, w2);
    w' := AnswerInFlight(w2, id);
    Chain(w, w2, w');
  }

  lemma SomeoneComesAlive(w: World) returns (w': World, id: Id)
    requires !w.f.crashed && AliveSet(w.f.s) == {} && HasStandby(w.f.s)
    ensures Reaches(w, w') && !w'.f.crashed && w'.f.resuming == w.f.resuming && AliveSet(w'.f.s) == {id}
  {
    hide Step, CanStep, Reaches, AliveSet;
    if w.f.pinging.Some? && Clientless(w.f.s, w.f.pinging.value) {
      id := w.f.pinging.value;
      w' := BringAlive(w, id);
    } else {
      id :| id in w.f.s.tunnels.Keys && w.f.s.tunnels[id].priority == 3 && w.f.s.tunnels[id].client.None?;
      var w1 := w;
      ReachesSelf(w);
      if w.f.pinging.Some? {
        w1 := EndPing(w);
      }
      w' := BringAlive(w1, id);
      Chain(w, w1, w');
    }
  }

  // Every launching selection can end on a healthy tunnel, when some ping ends before it resumes;
  // none does when no ping ends.
  lemma BackupsNeedAPing(w: World, best: Id)
    requires CanStep(w, FleetStep(SelectEnter(best))) && LaunchesBackups(w.f.s)
    ensures var w0 := Step(w, FleetStep(SelectEnter(best)));
            && (exists ls, id :: ComesBack(w0, ls, id))
            && (forall ls, id | ComesBack(w0, ls, id) :: !PingFree(ls))
  {
    var w0 := Step(w, FleetStep(SelectEnter(best)));
    var w1, id := SomeoneComesAlive(w0);
    var ls :| CancelFree(ls) && CanRun(w0, ls) && Run(w0, ls) == w1;
    ResumesOn(w1, id);
    assert ComesBack(w0, ls, id);
    forall ls, id | ComesBack(w0, ls, id)
      ensures !PingFree(ls)
    {
      if PingFree(ls) {
        RunAliveNeedsPing(w0, ls);
      }
    }
  }

  lemma ResumesOn(w: World, id: Id)
    requires !w.f.crashed && w.f.resuming > 0 && AliveSet(w.f.s) == {id}
    ensures CanStep(w, FleetStep(SelectResume(id))) && ActiveHealthy(Step(w, FleetStep(SelectResume(id))).f.s)
  {
    assert IsBest(w.f.s, id);
    FinishSelects(w.f.s, id);
  }

  // After the run the selection resumes with something alive and ends on a healthy tunnel.
  ghost predicate ComesBack(w: World, ls: seq<Label>, id: Id) {
    && CanRun(w, ls)
    && AliveSet(Run(w, ls).f.s) != {}
    && CanStep(Run(w, ls), FleetStep(SelectResume(id)))
    && ActiveHealthy(Step(Run(w, ls), FleetStep(SelectResume(id))).f.s)
  }

  // ---------------------------------------------------------------- the launch loop within a run

  // What the loop finds connected was alive at some point of the run.
  ghost predicate ReadsRun(w: World, ls: seq<Label>, connected: (nat, Id) -> bool) {
    forall b, id | connected(b, id) :: SeenAlive(w, ls, id)
  }

  ghost predicate SeenAlive(w: World, ls: seq<Label>, id: Id) {
    exists n | 0 <= n <= |ls| :: CanRun(w, ls[..n]) && id in AliveSet(Run(w, ls[..n]).f.s)
  }

  lemma NoneSeenAlive(w: World, ls: seq<Label>, id: Id)
    requires PingFree(ls) && AliveSet(w.f.s) == {}
    ensures !SeenAlive(w, ls, id)
  {
    forall n | 0 <= n <= |ls| && CanRun(w, ls[..n])
      ensures id !in AliveSet(Run(w, ls[..n]).f.s)
    {
      RunAliveNeedsPing(w, ls[..n]);
    }
  }

  /** The launch loop on behalf of the ping loop, during a run in which no ping ends: no batch is found
      connected, so every backup still in the map is started. */
  method LaunchUnseen(
    ghost w: World, ghost best: Id, ghost ls: seq<Label>, standby: seq<Id>, present: Id -> bool,
    connected: (nat, Id) -> bool)
    returns (launched: seq<Id>, batches: nat, up: bool)
    requires CanStep(w, FleetStep(SelectEnter(best))) && LaunchesBackups(w.f.s)
    requires PingFree(ls) && ReadsRun(Step(w, FleetStep(SelectEnter(best))), ls, connected)
    requires Backups.Distinct(standby)
    ensures !up && launched == Backups.Present(standby, present)
  {
    hide Backups.Present, Backups.Unconnected, Backups.Batch, Backups.Upto, SeenAlive;
    launched, batches, up := Backups.Launch(standby, present, connected);
    ghost var w0 := Step(w, FleetStep(SelectEnter(best)));
    if up {
      var id :| id in Backups.Batch(standby, 2 * (batches - 1)) && connected(batches - 1, id);
      NoneSeenAlive(w0, ls, id);
    }
  }
}
