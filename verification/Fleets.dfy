/**
 Every interleaving of the critical sections that do not drive a migration, as labelled steps.

 A Fleet is the shared state plus what the goroutines in flight still have to do. An Action is one
 critical section, with the environment's choices in its arguments: which callers there are, whether
 a client starts, how a ping ends, how ties in the sort fall. `CanAct` says when it may run.
 */
module Fleets {
  import opened Wrappers
  import opened Model
  import opened Selection
  import opened Lifecycle
  import opened Health

  datatype Fleet = Fleet(
    s: State,
    starting: multiset<Server>,     // startOne calls between their two sections
    lost: set<Id>,                  // entries removed by a startOne whose client then failed
    toStart: multiset<Server>,      // servers Rebalance calls still have to start
    resuming: nat,                  // selectBest calls waiting for their backups
    teardowns: nat,                 // stopPriority3 goroutines not yet run
    pinging: Option<Id>,            // the ping loop is between its two sections for this id
    pings: map<Id, seq<Ping>>,      // outcomes recorded for the current incarnation of each id
    crashed: bool)                  // the ping loop has dereferenced a nil client

  datatype Action =
    | StartBegin(srv: Server)
    | StartFinish(srv: Server, client: Client)
    | StartFail(srv: Server)
    | RebalanceStart(srv: Server)
    | Register(srv: Server)
    | SelectEnter(best: Id)
    | SelectResume(best: Id)
    | StopBackups
    | Sync(servers: seq<Server>)
    | StopTunnel(id: Id)
    | Activate(id: Id)
    | ClearAll
    | PingStart(id: Id)
    | PingEnd(ping: Ping)
    | SpeedEnd(id: Id, speed: Option<real>)
    | SetNet(online: bool)
    | ClientDies(id: Id)

  predicate CanAct(f: Fleet, a: Action) {
    && !f.crashed
    && match a
       case StartFinish(srv, _) => srv in f.starting
       case StartFail(srv) => srv in f.starting
       case RebalanceStart(srv) => srv in f.toStart
       case SelectEnter(best) => MayPick(f.s, best)
       case SelectResume(best) => f.resuming > 0 && MayPick(f.s, best)
       case StopBackups => f.teardowns > 0
       case PingStart(id) => f.pinging.None? && id in f.s.tunnels && f.s.tunnels[id].Running()
       case PingEnd(_) => f.pinging.Some?
       case _ => true
  }

  function Began(f: Fleet, srv: Server): Fleet {
    if AlreadyRunning(f.s, srv.id) then f
    else f.(s := Lifecycle.StartBegin(f.s, srv.id), starting := f.starting + multiset{srv})
  }

  // The locked half of a health check; `ok` is false when reading the traffic counters of a nil
  // client panics. The path that reports the active tunnel down skips the counters.
  function PingState(s: State, id: Id, p: Ping): State {
    if id in s.tunnels then s.(tunnels := s.tunnels[id := OnPing(s.tunnels[id], p)]) else s
  }

  predicate PingPanics(s: State, id: Id, p: Ping) {
    && id in s.tunnels
    && s.tunnels[id].client.None?
    && !(s.activeID == id && EventOf(s.tunnels[id], p) == Some(Down))
  }

  function SpeedState(s: State, id: Id, speed: Option<real>): State {
    if id in s.tunnels && speed.Some? then
      s.(tunnels := s.tunnels[id := s.tunnels[id].(speedMbps := speed.value)])
    else s
  }

  function DeadState(s: State, id: Id): State {
    if id in s.tunnels && s.tunnels[id].client.Some? then
      var t := s.tunnels[id];
      s.(tunnels := s.tunnels[id := t.(client := Some(t.client.value.(running := false)))])
    else s
  }

  function Act(f: Fleet, a: Action): Fleet
    requires CanAct(f, a)
  {
    match a
    case StartBegin(srv) => Began(f, srv)
    case StartFinish(srv, client) =>
      f.(s := Lifecycle.StartFinish(f.s, srv, client), starting := f.starting - multiset{srv},
         lost := f.lost - {srv.id}, pings := f.pings[srv.id := []])
    case StartFail(srv) => f.(starting := f.starting - multiset{srv}, lost := f.lost + {srv.id})
    case RebalanceStart(srv) => Began(f.(toStart := f.toStart - multiset{srv}), srv)
    case Register(srv) => f.(s := Lifecycle.Register(f.s, srv))
    case SelectEnter(best) =>
      if LaunchesBackups(f.s) then f.(resuming := f.resuming + 1)
      else f.(s := Finish(f.s, best), teardowns := f.teardowns + if QueuesTeardown(f.s) then 1 else 0)
    case SelectResume(best) => f.(s := Finish(f.s, best), resuming := f.resuming - 1)
    case StopBackups => f.(s := StopPriority3(f.s), teardowns := f.teardowns - 1)
    case Sync(servers) =>
      var r := SyncAll(f.s, servers);
      f.(s := r.s, toStart := f.toStart + multiset(r.toStart))
    case StopTunnel(id) => f.(s := Lifecycle.StopTunnel(f.s, id))
    case Activate(id) => f.(s := Lifecycle.Activate(f.s, id))
    case ClearAll => f.(s := Lifecycle.ClearAll(f.s))
    case PingStart(id) => f.(pinging := Some(id))
    case PingEnd(p) =>
      var id := f.pinging.value;
      f.(s := PingState(f.s, id, p), pinging := None, crashed := PingPanics(f.s, id, p),
         pings := if id in f.pings then f.pings[id := f.pings[id] + [p]] else f.pings)
    case SpeedEnd(id, speed) => f.(s := SpeedState(f.s, id, speed))
    case SetNet(online) => f.(s := f.s.(hasNet := online))
    case ClientDies(id) => f.(s := DeadState(f.s, id))
  }

  // The section completes a selectBest call.
  predicate CompletesSelect(f: Fleet, a: Action) {
    a.SelectResume? || (a.SelectEnter? && !LaunchesBackups(f.s))
  }

  // No section of this kind touches the migration record or the switch time.
  lemma ActKeepsMigration(f: Fleet, a: Action)
    requires CanAct(f, a)
    ensures Act(f, a).s.migration == f.s.migration && Act(f, a).s.lastSwitch == f.s.lastSwitch
  {
    if a.Sync? {
      SyncFrame(f.s, a.servers);
    }
  }

  lemma {:induction false} SyncFrame(s: State, servers: seq<Server>)
    ensures var r := SyncAll(s, servers).s;
            r == s.(tunnels := r.tunnels) && r.tunnels.Keys == s.tunnels.Keys
  {
    if servers != [] {
      SyncFrame(s, servers[..|servers| - 1]);
    }
  }

  // ---------------------------------------------------------------- standby shape

  predicate Pending(toStart: multiset<Server>, id: Id) {
    exists srv <- toStart :: srv.id == id
  }

  // Tiers are 1..3; an entry without a client is a dead backup, or one a Rebalance in progress
  // has moved up and is about to start.
  ghost predicate Shape(s: State, toStart: multiset<Server>) {
    forall id <- s.tunnels.Keys ::
      && 1 <= s.tunnels[id].priority <= 3
      && (s.tunnels[id].client.None? ==>
            && s.tunnels[id].latency == -1
            && (s.tunnels[id].priority == 3 || Pending(toStart, id)))
  }

  lemma {:induction false} SyncShape(s: State, servers: seq<Server>, toStart: multiset<Server>)
    requires Shape(s, toStart)
    ensures var r := SyncAll(s, servers); Shape(r.s, toStart + multiset(r.toStart))
  {
    if servers != [] {
      var n := |servers| - 1;
      SyncShape(s, servers[..n], toStart);
      SyncOneShape(SyncAll(s, servers[..n]), servers[n], toStart);
    } else {
      assert toStart + multiset(SyncAll(s, servers).toStart) == toStart;
    }
  }

  lemma SyncOneShape(r: Synced, srv: Server, toStart: multiset<Server>)
    requires Shape(r.s, toStart + multiset(r.toStart))
    ensures var r' := SyncOne(r, srv); Shape(r'.s, toStart + multiset(r'.toStart))
  {
    var r' := SyncOne(r, srv);
    var before, after := toStart + multiset(r.toStart), toStart + multiset(r'.toStart);
    assert forall x <- before :: x in after;
    forall id <- r'.s.tunnels.Keys
      ensures 1 <= r'.s.tunnels[id].priority <= 3
      ensures r'.s.tunnels[id].client.None? ==>
                r'.s.tunnels[id].latency == -1 && (r'.s.tunnels[id].priority == 3 || Pending(after, id))
    {
      if Pending(before, id) {
        var x :| x in before && x.id == id;
        assert x in after;
      }
      if id == srv.id && NeedsStart(r.s.tunnels[id], srv) {
        assert srv in multiset(r'.toStart);
        assert srv in after;
      }
    }
  }

  // ---------------------------------------------------------------- active pointer

  predicate BeingStarted(starting: multiset<Server>, id: Id) {
    exists srv <- starting :: srv.id == id
  }

  // The pointer is unset, names an entry, or names one that a startOne is building again.
  ghost predicate ThreeCases(f: Fleet) {
    f.s.ActiveResolved() || BeingStarted(f.starting, f.s.activeID)
  }

  // The same, or it names one that a startOne has given up on.
  ghost predicate PointerSafe(f: Fleet) {
    ThreeCases(f) || f.s.activeID in f.lost
  }

  // ---------------------------------------------------------------- health

  // Every tunnel with a client carries the verdict of its own window.
  ghost predicate HealthOk(s: State, pings: map<Id, seq<Ping>>) {
    forall id <- s.tunnels.Keys :: s.tunnels[id].client.Some? ==>
      id in pings && Tracks(s.tunnels[id], pings[id])
  }

  lemma {:induction false} SyncHealth(s: State, servers: seq<Server>, pings: map<Id, seq<Ping>>)
    requires HealthOk(s, pings)
    ensures HealthOk(SyncAll(s, servers).s, pings)
  {
    if servers != [] {
      SyncHealth(s, servers[..|servers| - 1], pings);
    }
  }

  // ---------------------------------------------------------------- the invariant

  ghost predicate Inv(f: Fleet) {
    f.crashed || (Shape(f.s, f.toStart) && PointerSafe(f) && HealthOk(f.s, f.pings))
  }

  // The section updates entries in place.
  predicate InPlace(a: Action) {
    a.PingEnd? || a.SpeedEnd? || a.ClientDies? || a.StopBackups?
  }

  // The section may write entries, in place or new; any other section can only remove some.
  predicate Writes(a: Action) {
    InPlace(a) || a.Sync? || a.StartFinish? || a.Register?
  }

  ghost predicate OnlyRemoves(s: State, s': State) {
    forall id <- s'.tunnels.Keys :: id in s.tunnels && s'.tunnels[id] == s.tunnels[id]
  }

  lemma RestOnlyRemove(f: Fleet, a: Action)
    requires CanAct(f, a) && !Writes(a)
    ensures OnlyRemoves(f.s, Act(f, a).s) && Act(f, a).pings == f.pings
  {
    hide Act, CanAct, OnlyRemoves;
    if a.SelectEnter? || a.SelectResume? {
      SelectOnlyMoves(f, a);
    } else {
      StopsOnlyRemove(f, a);
    }
  }

  lemma SelectOnlyMoves(f: Fleet, a: Action)
    requires CanAct(f, a) && (a.SelectEnter? || a.SelectResume?)
    ensures OnlyRemoves(f.s, Act(f, a).s) && Act(f, a).pings == f.pings
  {
    hide Finish, MayPick, LaunchesBackups, QueuesTeardown;
    FinishMovesPointer(f.s, a.best);
  }

  lemma StopsOnlyRemove(f: Fleet, a: Action)
    requires CanAct(f, a) && !Writes(a) && !a.SelectEnter? && !a.SelectResume?
    ensures OnlyRemoves(f.s, Act(f, a).s) && Act(f, a).pings == f.pings
  {
    hide Finish, MayPick, LaunchesBackups, QueuesTeardown, SyncAll, PingState, PingPanics, DeadState, SpeedState,
      StopPriority3, Lifecycle.StartFinish, Lifecycle.Register, Began;
    match a
    case StartBegin(srv) => BeganOnlyRemoves(f, srv);
    case RebalanceStart(srv) => BeganOnlyRemoves(f.(toStart := f.toStart - multiset{srv}), srv);
    case _ =>
  }

  lemma BeganOnlyRemoves(f: Fleet, srv: Server)
    ensures OnlyRemoves(f.s, Began(f, srv).s) && Began(f, srv).pings == f.pings
  {
  }

  lemma InPlaceKeepsShape(f: Fleet, a: Action)
    requires CanAct(f, a) && InPlace(a) && Shape(f.s, f.toStart)
    ensures Act(f, a).crashed || Shape(Act(f, a).s, Act(f, a).toStart)
  {
  }

  lemma ActKeepsShape(f: Fleet, a: Action)
    requires CanAct(f, a) && Shape(f.s, f.toStart)
    ensures Act(f, a).crashed || Shape(Act(f, a).s, Act(f, a).toStart)
  {
    hide Finish, MayPick, LaunchesBackups, QueuesTeardown, SyncAll, Lifecycle.StartBegin, Lifecycle.StopTunnel,
      PingState, PingPanics, DeadState, SpeedState, StopPriority3, Shape, OnlyRemoves;
    if InPlace(a) {
      InPlaceKeepsShape(f, a);
    } else if a.Sync? {
      SyncShape(f.s, a.servers, f.toStart);
    } else if Writes(a) {
      AddedKeepsShape(f, a);
    } else {
      RestOnlyRemove(f, a);
      RemovingKeepsShape(f.s, Act(f, a).s, f.toStart);
      if a.RebalanceStart? {
        StartedIsNotPending(f.s, f.toStart, a.srv, Act(f, a).s);
      }
    }
  }

  lemma AddedKeepsShape(f: Fleet, a: Action)
    requires CanAct(f, a) && (a.StartFinish? || a.Register?) && Shape(f.s, f.toStart)
    ensures Shape(Act(f, a).s, Act(f, a).toStart)
  {
  }

  lemma RemovingKeepsShape(s: State, s': State, toStart: multiset<Server>)
    requires Shape(s, toStart) && OnlyRemoves(s, s')
    ensures Shape(s', toStart)
  {
  }

  // The entry that Rebalance begins to start is gone or running, so it is no longer waiting.
  lemma StartedIsNotPending(s: State, toStart: multiset<Server>, srv: Server, s': State)
    requires Shape(s, toStart)
    requires s' == if AlreadyRunning(s, srv.id) then s else Lifecycle.StartBegin(s, srv.id)
    ensures Shape(s', toStart - multiset{srv})
  {
    var rest := toStart - multiset{srv};
    forall id <- s'.tunnels.Keys | Pending(toStart, id) && s'.tunnels[id].client.None?
      ensures Pending(rest, id)
    {
      var x :| x in toStart && x.id == id;
      assert x != srv;
      assert x in rest;
    }
  }

  lemma ActKeepsPointer(f: Fleet, a: Action)
    requires CanAct(f, a) && PointerSafe(f)
    ensures PointerSafe(Act(f, a))
    ensures CompletesSelect(f, a) ==> Act(f, a).s.ActiveResolved()
  {
    hide Finish, MayPick, LaunchesBackups, QueuesTeardown, SyncAll, PingPanics;
    if a.SelectEnter? || a.SelectResume? {
      FinishMovesPointer(f.s, a.best);
    }
    match a
    case Sync(servers) => SyncFrame(f.s, servers);
    case StartBegin(srv) => StartKeepsPointer(f, srv);
    case RebalanceStart(srv) => StartKeepsPointer(f.(toStart := f.toStart - multiset{srv}), srv);
    case StartFinish(srv, _) => if srv.id != f.s.activeID { EndKeepsStarting(f, srv); }
    case StartFail(srv) => if srv.id != f.s.activeID { EndKeepsStarting(f, srv); }
    case _ =>
  }

  lemma StartKeepsCases(f: Fleet, srv: Server)
    requires ThreeCases(f)
    ensures ThreeCases(Began(f, srv))
  {
    var f' := Began(f, srv);
    if BeingStarted(f.starting, f.s.activeID) {
      var x :| x in f.starting && x.id == f.s.activeID;
      assert x in f'.starting;
    }
    assert srv in f'.starting || f' == f;
  }

  lemma StartKeepsPointer(f: Fleet, srv: Server)
    requires PointerSafe(f)
    ensures PointerSafe(Began(f, srv))
  {
    if ThreeCases(f) {
      StartKeepsCases(f, srv);
    }
  }

  lemma EndKeepsStarting(f: Fleet, srv: Server)
    requires srv in f.starting && srv.id != f.s.activeID
    ensures BeingStarted(f.starting, f.s.activeID) ==> BeingStarted(f.starting - multiset{srv}, f.s.activeID)
  {
    if BeingStarted(f.starting, f.s.activeID) {
      var x :| x in f.starting && x.id == f.s.activeID;
      assert x in f.starting - multiset{srv};
    }
  }

  lemma InPlaceKeepsHealth(f: Fleet, a: Action)
    requires CanAct(f, a) && InPlace(a) && HealthOk(f.s, f.pings)
    ensures Act(f, a).crashed || HealthOk(Act(f, a).s, Act(f, a).pings)
  {
    if a.PingEnd? {
      var id := f.pinging.value;
      if id in f.s.tunnels && f.s.tunnels[id].client.Some? {
        OnPingTracks(f.s.tunnels[id], f.pings[id], a.ping);
      }
    }
  }

  lemma AddedKeepsHealth(f: Fleet, a: Action)
    requires CanAct(f, a) && (a.StartFinish? || a.Register?) && HealthOk(f.s, f.pings)
    ensures HealthOk(Act(f, a).s, Act(f, a).pings)
  {
    if a.StartFinish? {
      assert Tracks(NewTunnel(a.srv, a.client), []);
    }
    hide Tracks;
  }

  lemma RemovingKeepsHealth(s: State, s': State, pings: map<Id, seq<Ping>>)
    requires HealthOk(s, pings) && OnlyRemoves(s, s')
    ensures HealthOk(s', pings)
  {
  }

  lemma ActKeepsHealth(f: Fleet, a: Action)
    requires CanAct(f, a) && HealthOk(f.s, f.pings)
    ensures Act(f, a).crashed || HealthOk(Act(f, a).s, Act(f, a).pings)
  {
    hide Finish, MayPick, LaunchesBackups, QueuesTeardown, SyncAll, Lifecycle.StartBegin, Lifecycle.StopTunnel,
      PingState, PingPanics, DeadState, SpeedState, StopPriority3, HealthOk, OnlyRemoves;
    if InPlace(a) {
      InPlaceKeepsHealth(f, a);
    } else if a.Sync? {
      SyncHealth(f.s, a.servers, f.pings);
    } else if Writes(a) {
      AddedKeepsHealth(f, a);
    } else {
      RestOnlyRemove(f, a);
      RemovingKeepsHealth(f.s, Act(f, a).s, f.pings);
    }
  }

  lemma ActKeepsInv(f: Fleet, a: Action)
    requires CanAct(f, a) && Inv(f)
    ensures Inv(Act(f, a))
  {
    ActKeepsShape(f, a);
    ActKeepsPointer(f, a);
    ActKeepsHealth(f, a);
  }

  // ---------------------------------------------------------------- exact failure points

  // A startOne gives up on the active tunnel, whose entry it removed, and no other is building it.
  predicate GivesUpActive(f: Fleet, a: Action) {
    && a.StartFail?
    && a.srv.id == f.s.activeID
    && !f.s.ActiveResolved()
    && !BeingStarted(f.starting - multiset{a.srv}, a.srv.id)
  }

  // That is the only way out of the three cases.
  lemma LosesPointerIff(f: Fleet, a: Action)
    requires CanAct(f, a) && ThreeCases(f)
    ensures !ThreeCases(Act(f, a)) <==> GivesUpActive(f, a)
  {
    hide Finish, MayPick, LaunchesBackups, QueuesTeardown, SyncAll, PingPanics;
    if a.SelectEnter? || a.SelectResume? {
      FinishMovesPointer(f.s, a.best);
    }
    match a
    case Sync(servers) => SyncFrame(f.s, servers);
    case StartBegin(srv) => StartKeepsCases(f, srv);
    case RebalanceStart(srv) => StartKeepsCases(f.(toStart := f.toStart - multiset{srv}), srv);
    case StartFinish(srv, _) => if srv.id != f.s.activeID { EndKeepsStarting(f, srv); }
    case StartFail(srv) => if srv.id != f.s.activeID { EndKeepsStarting(f, srv); }
    case _ =>
  }

  // The section is a startOne removing an entry.
  predicate Removes(f: Fleet, a: Action, id: Id) {
    && (a.StartBegin? || a.RebalanceStart?)
    && a.srv.id == id
    && id in f.s.tunnels
    && !f.s.tunnels[id].Running()
  }

  // A resolved pointer is left dangling exactly by a startOne on the active tunnel whose client
  // is no longer running.
  lemma DanglesIff(f: Fleet, a: Action)
    requires CanAct(f, a) && f.s.ActiveResolved()
    ensures !Act(f, a).s.ActiveResolved() <==>
            f.s.activeID != NO_TUNNEL && Removes(f, a, f.s.activeID)
  {
    hide Finish, MayPick, LaunchesBackups, QueuesTeardown, SyncAll, PingPanics;
    if a.Sync? {
      SyncFrame(f.s, a.servers);
    } else if a.SelectEnter? || a.SelectResume? {
      FinishMovesPointer(f.s, a.best);
    }
  }

  // With the standby shape, a section panics exactly when it ends a ping on an entry that has no
  // client by then.
  lemma CrashesIff(f: Fleet, a: Action)
    requires CanAct(f, a) && Shape(f.s, f.toStart)
    ensures Act(f, a).crashed <==>
            a.PingEnd? && f.pinging.value in f.s.tunnels && f.s.tunnels[f.pinging.value].client.None?
  {
  }

  // The id is in the map without a client.
  predicate Clientless(s: State, id: Id) {
    id in s.tunnels && s.tunnels[id].client.None?
  }

  // The section takes the client from the entry, or puts an entry without one in its place: a
  // teardown of a running backup, a demotion of a running tunnel that is not active, or a standby
  // registered where an entry was removed.
  predicate TakesClient(f: Fleet, a: Action, id: Id) {
    match a
    case StopBackups => id in f.s.tunnels && f.s.tunnels[id].priority == 3 && f.s.tunnels[id].Running()
    case Sync(servers) =>
      && id in f.s.tunnels
      && f.s.tunnels[id].priority <= 2
      && f.s.tunnels[id].Running()
      && id != f.s.activeID
      && exists srv <- servers :: srv.id == id && NormPriority(srv.priority) == 3
    case Register(srv) => srv.id == id && id !in f.s.tunnels
    case _ => false
  }

  // Rebalance is given servers with unique ids.
  predicate Configured(a: Action) {
    a.Sync? ==> UniqueIds(a.servers)
  }

  lemma ClientlessIff(f: Fleet, a: Action, id: Id)
    requires CanAct(f, a) && Configured(a) && !Clientless(f.s, id)
    ensures Clientless(Act(f, a).s, id) <==> TakesClient(f, a, id)
  {
    hide Finish, MayPick, LaunchesBackups, QueuesTeardown, SyncAll, Lifecycle.StartBegin, Lifecycle.StopTunnel,
      PingState, PingPanics, DeadState, SpeedState, StopPriority3;
    if InPlace(a) {
      InPlaceClientlessIff(f, a, id);
    } else if a.Sync? {
      SyncTakesIff(f.s, a.servers, id);
    } else if !Writes(a) {
      RestOnlyRemove(f, a);
    }
  }

  lemma InPlaceClientlessIff(f: Fleet, a: Action, id: Id)
    requires CanAct(f, a) && InPlace(a) && !Clientless(f.s, id)
    ensures Clientless(Act(f, a).s, id) <==> TakesClient(f, a, id)
  {
  }

  lemma SyncTakesIff(s: State, servers: seq<Server>, id: Id)
    requires UniqueIds(servers) && !Clientless(s, id)
    ensures Clientless(SyncAll(s, servers).s, id) <==>
            && id in s.tunnels
            && s.tunnels[id].priority <= 2
            && s.tunnels[id].Running()
            && id != s.activeID
            && exists srv <- servers :: srv.id == id && NormPriority(srv.priority) == 3
  {
    hide SyncAll;
    SyncIsPointwise(s, servers);
    if i :| 0 <= i < |servers| && servers[i].id == id {
      assert servers[i] in servers;
      assert forall srv <- servers | srv.id == id :: srv == servers[i];
    }
  }

  // Only a ping outcome brings a tunnel to life: without one, the alive set can only shrink.
  lemma AliveNeedsPing(f: Fleet, a: Action)
    requires CanAct(f, a) && !a.PingEnd?
    ensures AliveSet(Act(f, a).s) <= AliveSet(f.s)
  {
    hide Finish, MayPick, LaunchesBackups, QueuesTeardown, SyncAll, PingState, PingPanics, DeadState, SpeedState,
      StopPriority3;
    if InPlace(a) {
      InPlaceAlive(f, a);
    } else if a.Sync? {
      SyncAlive(f.s, a.servers);
    } else if !Writes(a) {
      RestOnlyRemove(f, a);
    }
  }

  lemma InPlaceAlive(f: Fleet, a: Action)
    requires CanAct(f, a) && InPlace(a) && !a.PingEnd?
    ensures AliveSet(Act(f, a).s) <= AliveSet(f.s)
  {
  }

  lemma {:induction false} SyncAlive(s: State, servers: seq<Server>)
    ensures AliveSet(SyncAll(s, servers).s) <= AliveSet(s)
  {
    if servers != [] {
      SyncAlive(s, servers[..|servers| - 1]);
    }
  }
}
