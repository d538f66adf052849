/**
 Concrete runs from a fresh process that show where a promise one might expect does not hold.
 Two tunnels of tier 1 are brought up first: "a", active, at 1 Mbps, and "b" at 2 Mbps.
 */
module Witnesses {
  import opened Wrappers
  import opened Model
  import opened Selection
  import opened Lifecycle
  import opened Health
  import opened Fleets
  import opened Migrations
  import opened Idle
  import opened Protocol
  import opened MigrationRuns
  import opened Stability
  import opened Cancellations
  import opened Reachability

  const A: Server := Server("a", "A", true, 1)
  const B: Server := Server("b", "B", true, 1)

  function Measured(srv: Server, latency: int, speed: real): Tunnel {
    Tunnel(Some(UP), srv, 1, latency, speed, 0)
  }

  function PeersState(): State {
    State(map["a" := Measured(A, 5, 1.0), "b" := Measured(B, 9, 2.0)], "a", None, None, false)
  }

  function FleetOf(s: State, pings: map<Id, seq<Ping>>): Fleet {
    Fleet(s, multiset{}, {}, multiset{}, 0, 0, None, pings, false)
  }

  function Peers(): World {
    World(FleetOf(PeersState(), map["a" := [Reply(5)], "b" := [Reply(9)]]), 0, map[], [])
  }

  function OnlyA(active: Id): World {
    World(FleetOf(State(map["a" := Measured(A, 5, 0.0)], active, None, None, false), map["a" := [Reply(5)]]),
          0, map[], [])
  }

  // One labelled step of a run.
  predicate Follows(w: World, l: Label, w': World) {
    CanStep(w, l) && Step(w, l) == w'
  }

  // A run given with all its worlds.
  ghost predicate Path(ws: seq<World>, ls: seq<Label>) {
    |ws| == |ls| + 1 && forall i | 0 <= i < |ls| :: Follows(ws[i], ls[i], ws[i + 1])
  }

  lemma {:induction false} PathRuns(ws: seq<World>, ls: seq<Label>, rest: seq<Label>)
    requires Path(ws, ls) && CanRun(ws[|ls|], rest)
    ensures CanRun(ws[0], ls + rest) && Run(ws[0], ls + rest) == Run(ws[|ls|], rest)
  {
    hide Step, CanStep;
    if ls == [] {
      assert ls + rest == rest;
    } else {
      PathTail(ws, ls);
      PathRuns(ws[1..], ls[1..], rest);
      RunCons(ws[0], ls[0], ls[1..] + rest);
      assert ls + rest == [ls[0]] + (ls[1..] + rest);
    }
  }

  lemma PathTail(ws: seq<World>, ls: seq<Label>)
    requires Path(ws, ls) && ls != []
    ensures Path(ws[1..], ls[1..]) && Follows(ws[0], ls[0], ws[1])
  {
    forall i | 0 <= i < |ls| - 1
      ensures Follows(ws[1..][i], ls[1..][i], ws[1..][i + 1])
    {
      assert Follows(ws[i + 1], ls[i + 1], ws[i + 2]);
    }
  }

  // Start a tunnel in a world that does not know it, and answer its first ping.
  ghost function BringUp(srv: Server, ms: nat): seq<Label> {
    [FleetStep(StartBegin(srv)), FleetStep(StartFinish(srv, UP)), FleetStep(PingStart(srv.id)),
     FleetStep(PingEnd(Reply(ms)))]
  }

  ghost function Answered(w: World, srv: Server, ms: nat): World {
    var t := NewTunnel(srv, UP).(latency := ms);
    w.(f := w.f.(s := w.f.s.(tunnels := w.f.s.tunnels[srv.id := t]), pings := w.f.pings[srv.id := [Reply(ms)]]))
  }

  lemma StartSteps(w: World, srv: Server, ms: nat) returns (w1: World, w2: World, w3: World)
    requires !w.f.crashed && srv.id !in w.f.s.tunnels && w.f.starting == multiset{} && w.f.lost == {}
    requires w.f.pinging == None
    ensures Follows(w, FleetStep(StartBegin(srv)), w1) && Follows(w1, FleetStep(StartFinish(srv, UP)), w2)
    ensures Follows(w2, FleetStep(PingStart(srv.id)), w3)
    ensures w3 == w.(f := w.f.(
                       s := Lifecycle.StartFinish(w.f.s, srv, UP), pings := w.f.pings[srv.id := []],
                       pinging := Some(srv.id)))
  {
    w1 := Step(w, FleetStep(StartBegin(srv)));
    assert w1.f.s == w.f.s && srv in w1.f.starting;
    w2 := Step(w1, FleetStep(StartFinish(srv, UP)));
    assert w2.f.starting == multiset{} && w2.f.lost == {};
    w3 := Step(w2, FleetStep(PingStart(srv.id)));
  }

  lemma AnswerStep(w: World, srv: Server, ms: nat)
    requires !w.f.crashed && srv.id !in w.f.s.tunnels && w.f.pinging == None
    ensures Follows(
              w.(f := w.f.(
                 s := Lifecycle.StartFinish(w.f.s, srv, UP), pings := w.f.pings[srv.id := []],
                 pinging := Some(srv.id))),
              FleetStep(PingEnd(Reply(ms))), Answered(w, srv, ms))
  {
    assert [] + [Reply(ms)] == [Reply(ms)];
    var t := NewTunnel(srv, UP);
    assert w.f.s.tunnels[srv.id := t][srv.id := t.(latency := ms)] == w.f.s.tunnels[srv.id := t.(latency := ms)];
    assert w.f.pings[srv.id := []][srv.id := [Reply(ms)]] == w.f.pings[srv.id := [Reply(ms)]];
  }

  lemma Started(w: World, srv: Server, ms: nat, rest: seq<Label>)
    requires !w.f.crashed && srv.id !in w.f.s.tunnels && w.f.starting == multiset{} && w.f.lost == {}
    requires w.f.pinging == None && CanRun(Answered(w, srv, ms), rest)
    ensures CanRun(w, BringUp(srv, ms) + rest)
    ensures Run(w, BringUp(srv, ms) + rest) == Run(Answered(w, srv, ms), rest)
  {
    var w1, w2, w3 := StartSteps(w, srv, ms);
    AnswerStep(w, srv, ms);
    PathRuns([w, w1, w2, w3, Answered(w, srv, ms)], BringUp(srv, ms), rest);
  }

  ghost function SelectA(): Label {
    FleetStep(SelectEnter("a"))
  }

  // "a" up and selected.
  lemma ReachOnlyA(rest: seq<Label>) returns (ls: seq<Label>)
    requires CanRun(OnlyA("a"), rest)
    ensures CanRun(Init(0), ls) && Run(Init(0), ls) == Run(OnlyA("a"), rest)
    ensures ls == BringUp(A, 5) + ([SelectA()] + rest)
  {
    assert AliveSet(OnlyA(NO_TUNNEL).f.s) == {"a"};
    assert Step(OnlyA(NO_TUNNEL), SelectA()) == OnlyA("a");
    RunCons(OnlyA(NO_TUNNEL), SelectA(), rest);
    assert Answered(Init(0), A, 5) == OnlyA(NO_TUNNEL);
    Started(Init(0), A, 5, [SelectA()] + rest);
    ls := BringUp(A, 5) + ([SelectA()] + rest);
  }

  ghost function ToPeers(): seq<Label> {
    BringUp(A, 5) + ([SelectA()] + (BringUp(B, 9)
      + [FleetStep(SpeedEnd("a", Some(1.0))), FleetStep(SpeedEnd("b", Some(2.0)))]))
  }

  lemma SpeedSteps() returns (w1: World)
    ensures Follows(Answered(OnlyA("a"), B, 9), FleetStep(SpeedEnd("a", Some(1.0))), w1)
    ensures Follows(w1, FleetStep(SpeedEnd("b", Some(2.0))), Peers())
  {
    w1 := Step(Answered(OnlyA("a"), B, 9), FleetStep(SpeedEnd("a", Some(1.0))));
    var w2 := Step(w1, FleetStep(SpeedEnd("b", Some(2.0))));
    assert w2.f.s.tunnels == Peers().f.s.tunnels;
    assert w2.f.pings == Peers().f.pings;
  }

  lemma ReachPeers(rest: seq<Label>)
    requires CanRun(Peers(), rest)
    ensures CanRun(Init(0), ToPeers() + rest) && Run(Init(0), ToPeers() + rest) == Run(Peers(), rest)
  {
    hide Step, CanStep;
    var speeds := [FleetStep(SpeedEnd("a", Some(1.0))), FleetStep(SpeedEnd("b", Some(2.0)))];
    var w1 := SpeedSteps();
    PathRuns([Answered(OnlyA("a"), B, 9), w1, Peers()], speeds, rest);
    Started(OnlyA("a"), B, 9, speeds + rest);
    var ls := ReachOnlyA(BringUp(B, 9) + (speeds + rest));
    assert ls == ToPeers() + rest;
  }

  // A startOne on the active tunnel after its process died, whose new client does not start,
  // leaves the pointer naming nothing, with no startOne in flight.
  lemma PointerCanDangle() returns (ls: seq<Label>)
    ensures CanRun(Init(0), ls)
    ensures var f := Run(Init(0), ls).f;
            f.s.activeID == "a" && !f.s.ActiveResolved() && f.starting == multiset{}
  {
    var l1, l2, l3 := FleetStep(ClientDies("a")), FleetStep(StartBegin(A)), FleetStep(StartFail(A));
    var w1 := Step(OnlyA("a"), l1);
    var w2 := Step(w1, l2);
    var w3 := Step(w2, l3);
    PathRuns([OnlyA("a"), w1, w2, w3], [l1, l2, l3], []);
    ls := ReachOnlyA([l1, l2, l3] + []);
  }

  // The process of the active tunnel dies: the next selection keeps it, although "b" is alive in
  // the same tier.
  lemma DeadActiveIsKept() returns (ls: seq<Label>)
    ensures CanRun(Init(0), ls)
    ensures var w := Run(Init(0), ls);
            DeadButHealthy(w, "a") && w.f.s.activeID == "a" && AliveSet(w.f.s) == {"b"}
  {
    var l1, l2 := FleetStep(ClientDies("a")), FleetStep(SelectEnter("b"));
    var w1 := Step(Peers(), l1);
    assert AliveSet(w1.f.s) == {"b"};
    var w2 := Step(w1, l2);
    assert w2.f.s == w1.f.s;
    PathRuns([Peers(), w1, w2], [l1, l2], []);
    ReachPeers([l1, l2] + []);
    ls := ToPeers() + ([l1, l2] + []);
  }

  const C: Server := Server("c", "C", true, 3)

  ghost function BackupAndA(active: Id): World {
    var w := Answered(Answered(Init(0), C, 7), A, 5);
    w.(f := w.f.(s := w.f.s.(activeID := active), teardowns := if active == NO_TUNNEL then 0 else 1))
  }

  lemma PanicSteps() returns (w2: World, w3: World, w4: World)
    ensures Follows(BackupAndA(NO_TUNNEL), SelectA(), BackupAndA("a"))
    ensures Follows(BackupAndA("a"), FleetStep(PingStart("c")), w2)
    ensures Follows(w2, FleetStep(StopBackups), w3) && Follows(w3, FleetStep(PingEnd(Reply(1))), w4)
    ensures w4.f.crashed
  {
    var s := BackupAndA(NO_TUNNEL).f.s;
    assert AliveSet(s) == {"a", "c"};
    assert s.tunnels["a"].priority == 1 && "c" in s.tunnels && s.tunnels["c"].priority == 3;
    w2, w3, w4 := PanicTail();
  }

  lemma PanicTail() returns (w2: World, w3: World, w4: World)
    ensures Follows(BackupAndA("a"), FleetStep(PingStart("c")), w2)
    ensures Follows(w2, FleetStep(StopBackups), w3) && Follows(w3, FleetStep(PingEnd(Reply(1))), w4)
    ensures w4.f.crashed
  {
    w2 := Step(BackupAndA("a"), FleetStep(PingStart("c")));
    w3 := Step(w2, FleetStep(StopBackups));
    w4 := Step(w3, FleetStep(PingEnd(Reply(1))));
  }

  // A teardown that lands while the ping of a backup is under way takes the client from under it.
  lemma PingCanPanic() returns (ls: seq<Label>)
    ensures CanRun(Init(0), ls) && Run(Init(0), ls).f.crashed
  {
    hide Step, CanStep;
    var w2, w3, w4 := PanicSteps();
    assert Answered(Answered(Init(0), C, 7), A, 5) == BackupAndA(NO_TUNNEL);
    var steps := [SelectA(), FleetStep(PingStart("c")), FleetStep(StopBackups), FleetStep(PingEnd(Reply(1)))];
    PathRuns([BackupAndA(NO_TUNNEL), BackupAndA("a"), w2, w3, w4], steps, []);
    Started(Answered(Init(0), C, 7), A, 5, steps + []);
    Started(Init(0), C, 7, BringUp(A, 5) + (steps + []));
    ls := BringUp(C, 7) + (BringUp(A, 5) + (steps + []));
  }

  // ---------------------------------------------------------------- backups

  // A ping of a running tunnel that is lost.
  lemma LostOnce(w: World, id: Id) returns (w': World)
    requires !w.f.crashed && w.f.pinging.None? && id in w.f.s.tunnels && w.f.s.tunnels[id].Running()
    ensures Reaches(w, w') && !w'.f.crashed
    ensures w'.f == w.f.(s := PingState(w.f.s, id, Lost), pings := w'.f.pings)
  {
    ReachesSelf(w);
    Then(w, w, FleetStep(PingStart(id)));
    var w1 := Step(w, FleetStep(PingStart(id)));
    Then(w, w1, FleetStep(PingEnd(Lost)));
    w' := Step(w1, FleetStep(PingEnd(Lost)));
  }

  function DownTunnel(t: Tunnel): Tunnel {
    t.(failures := 3, latency := -1)
  }

  // Three in a row take a healthy tunnel down.
  lemma GoesDown(w: World, id: Id) returns (w': World)
    requires !w.f.crashed && w.f.pinging.None? && id in w.f.s.tunnels && w.f.s.tunnels[id].Running()
    requires w.f.s.tunnels[id].failures == 0 && w.f.s.tunnels[id].latency >= 0
    ensures Reaches(w, w') && !w'.f.crashed
    ensures var ts := w.f.s.tunnels;
            w'.f == w.f.(s := w.f.s.(tunnels := ts[id := DownTunnel(ts[id])]), pings := w'.f.pings)
  {
    hide Step, CanStep, Reaches;
    var w1 := LostOnce(w, id);
    var w2 := LostOnce(w1, id);
    Chain(w, w1, w2);
    w' := LostOnce(w2, id);
    Chain(w, w2, w');
    assert w'.f.s.tunnels == w.f.s.tunnels[id := DownTunnel(w.f.s.tunnels[id])];
  }

  lemma ReachesOnlyA()
    ensures Reaches(Init(0), OnlyA("a"))
  {
    hide Step, CanStep;
    var ls := ReachOnlyA([]);
    assert CancelFree(ls);
  }

  // The only running tunnel is down, and the ping loop is about to select.
  lemma ReachesDown() returns (w: World)
    ensures Reaches(Init(0), w) && !w.f.crashed && w.f.pinging.None? && w.f.resuming == 0
    ensures w.f.s.activeID == "a" && w.f.starting == multiset{} && w.f.lost == {}
    ensures w.f.s.tunnels == map["a" := DownTunnel(Measured(A, 5, 0.0)), "c" := Tunnel(None, C, 3, -1, 0.0, 0)]
  {
    ReachesOnlyA();
    var register := FleetStep(Action.Register(C));
    Then(Init(0), OnlyA("a"), register);
    var w1 := Step(OnlyA("a"), register);
    w := GoesDown(w1, "a");
    Chain(Init(0), w1, w);
    assert w.f.s.tunnels == map["a" := DownTunnel(Measured(A, 5, 0.0)), "c" := Tunnel(None, C, 3, -1, 0.0, 0)];
  }

  // The backup of a failed tunnel is started by the selection of the ping loop, which does not see
  // it connected: the backup runs, and nothing is active.
  lemma BackupGoesUnseen() returns (w: World, ls: seq<Label>)
    ensures Reaches(Init(0), w)
    ensures CanStep(w, FleetStep(SelectEnter("a"))) && LaunchesBackups(w.f.s)
    ensures CanRun(Step(w, FleetStep(SelectEnter("a"))), ls) && PingFree(ls)
    ensures var f := Run(Step(w, FleetStep(SelectEnter("a"))), ls).f;
            f.s.activeID == NO_TUNNEL && BackupRunning(f.s) && f.resuming == 0 && f.starting == multiset{}
  {
    hide Step, CanStep, Reaches;
    w := ReachesDown();
    var w0 := LaunchStep(w);
    var w1, w2 := StartC(w0);
    var w3 := ResumeStep(w2);
    ls := [FleetStep(StartBegin(C)), FleetStep(StartFinish(C, UP)), FleetStep(SelectResume("a"))];
    PathRuns([w0, w1, w2, w3], ls, []);
    assert ls + [] == ls;
  }

  lemma LaunchStep(w: World) returns (w0: World)
    requires !w.f.crashed && w.f.s.activeID == "a"
    requires w.f.s.tunnels == map["a" := DownTunnel(Measured(A, 5, 0.0)), "c" := Tunnel(None, C, 3, -1, 0.0, 0)]
    ensures CanStep(w, FleetStep(SelectEnter("a"))) && LaunchesBackups(w.f.s)
    ensures w0 == Step(w, FleetStep(SelectEnter("a"))) == w.(f := w.f.(resuming := w.f.resuming + 1))
  {
    assert "c" in w.f.s.tunnels.Keys && w.f.s.tunnels["c"].client.None?;
    assert AliveSet(w.f.s) == {};
    w0 := Step(w, FleetStep(SelectEnter("a")));
  }

  lemma StartC(w: World) returns (w1: World, w2: World)
    requires !w.f.crashed && w.f.starting == multiset{} && w.f.lost == {}
    requires "c" in w.f.s.tunnels && !w.f.s.tunnels["c"].Running()
    ensures Follows(w, FleetStep(StartBegin(C)), w1) && Follows(w1, FleetStep(StartFinish(C, UP)), w2)
    ensures w2.f == w.f.(s := w.f.s.(tunnels := w.f.s.tunnels["c" := NewTunnel(C, UP)]), pings := w2.f.pings)
  {
    w1 := Step(w, FleetStep(StartBegin(C)));
    assert C in w1.f.starting;
    w2 := Step(w1, FleetStep(StartFinish(C, UP)));
    assert w2.f.s.tunnels == w.f.s.tunnels["c" := NewTunnel(C, UP)];
    assert w2.f.starting == multiset{} && w2.f.lost == {};
  }

  lemma ResumeStep(w: World) returns (w': World)
    requires !w.f.crashed && w.f.resuming == 1
    requires w.f.s.tunnels == map["a" := DownTunnel(Measured(A, 5, 0.0)), "c" := Tunnel(None, C, 3, -1, 0.0, 0)]
                                 ["c" := NewTunnel(C, UP)]
    ensures Follows(w, FleetStep(SelectResume("a")), w')
    ensures w'.f.s.activeID == NO_TUNNEL && BackupRunning(w'.f.s) && w'.f.resuming == 0
    ensures w'.f.starting == w.f.starting
  {
    assert AliveSet(w.f.s) == {};
    w' := Step(w, FleetStep(SelectResume("a")));
    assert "c" in w'.f.s.tunnels.Keys && w'.f.s.tunnels["c"].priority == 3;
  }

  // A teardown that was queued while a primary was alive runs after the primary failed and the
  // backup was selected: it stops the active tunnel.
  lemma LateTeardownHitsActive() returns (w: World)
    ensures Reaches(Init(0), w)
    ensures w.f.s.activeID == "c" && Clientless(w.f.s, "c") && w.f.teardowns == 0
  {
    hide Step, CanStep, Reaches;
    var w1 := ReachesQueued();
    var w2 := GoesDown(w1, "a");
    Chain(Init(0), w1, w2);
    w := FailoverThenTeardown(w2);
    Chain(Init(0), w2, w);
  }

  // "a" is active, the backup "c" runs, and a teardown is queued.
  lemma ReachesQueued() returns (w: World)
    ensures Reaches(Init(0), w) && w == BackupAndA("a")
  {
    hide Step, CanStep;
    w := BackupAndA("a");
    var w2, w3, w4 := PanicSteps();
    PathRuns([BackupAndA(NO_TUNNEL), w], [SelectA()], []);
    assert Answered(Answered(Init(0), C, 7), A, 5) == BackupAndA(NO_TUNNEL);
    Started(Answered(Init(0), C, 7), A, 5, [SelectA()] + []);
    Started(Init(0), C, 7, BringUp(A, 5) + ([SelectA()] + []));
    var ls := BringUp(C, 7) + (BringUp(A, 5) + ([SelectA()] + []));
    assert CancelFree(ls);
  }

  lemma FailoverThenTeardown(w: World) returns (w': World)
    requires !w.f.crashed && w.f.teardowns == 1 && w.f.s.activeID == "a"
    requires w.f.s.tunnels == map["c" := NewTunnel(C, UP).(latency := 7), "a" := NewTunnel(A, UP).(latency := 5)]
                                 ["a" := DownTunnel(NewTunnel(A, UP).(latency := 5))]
    ensures Reaches(w, w') && w'.f.s.activeID == "c" && Clientless(w'.f.s, "c") && w'.f.teardowns == 0
  {
    hide Reaches;
    ReachesSelf(w);
    assert AliveSet(w.f.s) == {"c"};
    assert w.f.s.tunnels["c"].priority == 3;
    Then(w, w, FleetStep(SelectEnter("c")));
    var w1 := Step(w, FleetStep(SelectEnter("c")));
    Then(w, w1, FleetStep(StopBackups));
    w' := Step(w1, FleetStep(StopBackups));
  }

  // ---------------------------------------------------------------- migrations

  function CheckIt(k: nat): Label {
    CheckSpeed(k, CFG, "b")
  }

  lemma PeersPropose(w: World)
    requires w.f.s == PeersState()
    ensures MayChoose(w.f.s, "b") && Proposes(w.f.s, w.now, CFG, "b")
  {
    assert Rivals(w.f.s) == {"b"};
    assert (2.0 - 1.0) / 1.0 == 1.0;
  }

  function Checked(s: State): State {
    s.(migration := Some(Blank(Evaluating).(
         from := Some(Endpoint("a", "A", 1.0)), to := Some(Endpoint("b", "B", 2.0)))))
  }

  function NewWatcher(): Watcher {
    Watcher("b", Decision("a", "b", 1.0, 2.0, 35), 1800 * SECOND, 0, Detector(0, 0, 0, 0), [], Spawned)
  }

  function AfterCheck(): World {
    World(Peers().f.(s := Checked(PeersState())), 0, map[0 := NewWatcher()], [])
  }

  lemma CheckStep()
    ensures Follows(Peers(), CheckIt(0), AfterCheck())
  {
    PeersPropose(Peers());
  }

  lemma OrphanSteps() returns (w1: World, w2: World, w3: World, w4: World)
    ensures Follows(AfterCheck(), Begin(0, CFG), w1) && Follows(w1, FleetStep(Action.ClearAll), w2)
    ensures Follows(w2, Label.Tick(SECOND), w3) && Follows(w3, Look(0), w4)
    ensures Orphaned(w4)
  {
    w1 := Step(AfterCheck(), Begin(0, CFG));
    w2, w3, w4 := ClearedUnder(w1);
  }

  lemma ClearedUnder(w1: World) returns (w2: World, w3: World, w4: World)
    requires !w1.f.crashed && At(w1, 0, Sleeping(w1.now + SECOND)) && w1.watchers.Keys == {0}
    requires w1.f.s.migration.Some?
    ensures Follows(w1, FleetStep(Action.ClearAll), w2)
    ensures Follows(w2, Label.Tick(SECOND), w3) && Follows(w3, Look(0), w4)
    ensures Orphaned(w4)
  {
    w2 := Step(w1, FleetStep(Action.ClearAll));
    w3 := Step(w2, Label.Tick(SECOND));
    w4 := Step(w3, Look(0));
    assert w4.watchers == map[];
  }

  // The tunnels are cleared while a watcher sleeps: the record stays behind, and by
  // OrphanBlocksForever no migration ever starts again without a cancellation.
  lemma RecordCanBeOrphaned() returns (ls: seq<Label>)
    ensures CanRun(Init(0), ls) && CancelFree(ls) && Orphaned(Run(Init(0), ls))
  {
    hide Step, CanStep;
    CheckStep();
    var w1, w2, w3, w4 := OrphanSteps();
    var steps := [CheckIt(0), Begin(0, CFG), FleetStep(Action.ClearAll), Label.Tick(SECOND), Look(0)];
    PathRuns([Peers(), AfterCheck(), w1, w2, w3, w4], steps, []);
    ReachPeers(steps + []);
    ls := ToPeers() + (steps + []);
  }

  // ---------------------------------------------------------------- two watchers

  function TwoSpawned(): World {
    World(Peers().f.(s := Checked(PeersState())), 0, map[0 := NewWatcher(), 1 := NewWatcher()], [])
  }

  lemma CheckedAgain()
    ensures CanStep(AfterCheck(), Cancel) && Follows(Step(AfterCheck(), Cancel), CheckIt(1), TwoSpawned())
  {
    var w2 := Step(AfterCheck(), Cancel);
    assert w2.f.s == PeersState();
    PeersPropose(w2);
    assert map[0 := NewWatcher()][1 := NewWatcher()] == map[0 := NewWatcher(), 1 := NewWatcher()];
  }

  lemma ToPeersIsCancelFree()
    ensures CancelFree(ToPeers() + [CheckIt(0)])
  {
  }

  // One cancellation, followed by one more check, makes two watchers, and both switch at one instant.
  lemma CancelBreaksTheCooldown() returns (before: seq<Label>, after: seq<Label>)
    ensures CancelFree(before) && CancelFree(after)
    ensures CanRun(Init(0), before + ([Cancel] + after))
    ensures var sw := Run(Init(0), before + ([Cancel] + after)).switches;
            |sw| == 2 && Clash(sw) && !Spaced(sw)
  {
    hide Step, CanStep, CancelFree, LooksOn, TargetUp;
    before := ToPeers() + [CheckIt(0)];
    ToPeersIsCancelFree();
    CheckStep();
    CheckedAgain();
    TwoSpawnedLooks();
    var clash := PairClashes(TwoSpawned(), 0, 1);
    var rest :| CancelFree(rest) && CanRun(TwoSpawned(), rest) && Run(TwoSpawned(), rest) == clash;
    after := [CheckIt(1)] + rest;
    OneMoreIsCancelFree(CheckIt(1), rest);
    var w2 := Step(AfterCheck(), Cancel);
    PathRuns([Peers(), AfterCheck(), w2, TwoSpawned()], [CheckIt(0), Cancel, CheckIt(1)], rest);
    ReachPeers([CheckIt(0), Cancel, CheckIt(1)] + rest);
    assert before + ([Cancel] + after) == ToPeers() + ([CheckIt(0), Cancel, CheckIt(1)] + rest);
    ClashIsNotSpaced(clash.switches);
  }

  lemma OneMoreIsCancelFree(l: Label, ls: seq<Label>)
    requires CancelFree(ls) && !l.Cancel?
    ensures CancelFree([l] + ls)
  {
  }

  lemma TwoSpawnedLooks()
    ensures LooksOn(TwoSpawned().f.s) && TargetUp(TwoSpawned().f.s, "b")
  {
  }
}
