/**
 The balancer itself (internal/balancer/balancer.go): the mutable state behind its mutex, and one
 method per critical section. Each method is specified by the function on State that the
 transition system of module Protocol uses for the same section, so what is proved about whole
 runs there is proved about these methods.

 Map iteration is a loop over the keys in any order.
 */
module Balancers {
  import opened Wrappers
  import opened Model
  import opened Selection
  import Lifecycle
  import Health
  import Fleets
  import Migrations
  import Network
  import Statuses

  class TunnelState {
    const id: Id
    var client: Option<Client>
    var cfg: Server
    var priority: int
    var latency: int
    var speedMbps: real
    var failures: int

    constructor (id: Id, client: Option<Client>, cfg: Server, priority: int)
      ensures this.id == id
      ensures Snapshot() == Tunnel(client, cfg, priority, -1, 0.0, 0)
    {
      this.id, this.client, this.cfg, this.priority := id, client, cfg, priority;
      latency, speedMbps, failures := -1, 0.0, 0;
    }

    function Snapshot(): Tunnel
      reads this
    {
      Tunnel(client, cfg, priority, latency, speedMbps, failures)
    }

    predicate Running()
      reads this
    {
      client.Some? && client.value.running
    }

    // Stop the client and put the entry back into standby.
    method Shelve()
      modifies this
      ensures Snapshot() == Lifecycle.Shelved(old(Snapshot()))
    {
      client := None;
      latency := -1;
    }
  }

  datatype PingResult = Missing | Recorded | Reselect | Panics

  class Balancer {
    var tunnels: map<Id, TunnelState>
    var activeID: Id
    var migration: Option<Migration>
    var lastSwitch: Option<int>
    var hasNet: bool

    // Entries know their own key, so no two keys share an entry.
    ghost predicate Valid()
      reads this, tunnels.Values
    {
      forall id <- tunnels.Keys :: tunnels[id].id == id
    }

    ghost function View(): State
      reads this, tunnels.Values
    {
      State(map id | id in tunnels :: tunnels[id].Snapshot(), activeID, migration, lastSwitch, hasNet)
    }

    constructor ()
      ensures Valid() && View() == State(map[], NO_TUNNEL, None, None, false)
    {
      tunnels, activeID, migration, lastSwitch, hasNet := map[], NO_TUNNEL, None, None, false;
    }

    // ---------------------------------------------------------------- startOne, registerStandby

    method StartBegin(id: Id) returns (proceed: bool)
      requires Valid()
      modifies this
      ensures Valid() && fresh(tunnels.Values - old(tunnels.Values))
      ensures proceed == !Lifecycle.AlreadyRunning(old(View()), id)
      ensures View() == Lifecycle.StartBegin(old(View()), id)
      ensures proceed <==> !(id in old(tunnels) && old(tunnels[id].Running()))
      ensures tunnels == if proceed then old(tunnels) - {id} else old(tunnels)
    {
      if id in tunnels {
        if tunnels[id].Running() {
          return false;
        }
        tunnels := tunnels - {id};
      }
      return true;
    }

    method StartFinish(srv: Server, client: Client)
      requires Valid()
      modifies this
      ensures Valid() && fresh(tunnels.Values - old(tunnels.Values))
      ensures View() == Lifecycle.StartFinish(old(View()), srv, client)
      ensures tunnels.Keys == old(tunnels).Keys + {srv.id}
      ensures tunnels[srv.id].Snapshot() ==
              Tunnel(Some(client), srv, if 1 <= srv.priority <= 3 then srv.priority else 2, -1, 0.0, 0)
    {
      var ts := new TunnelState(srv.id, Some(client), srv, NormPriority(srv.priority));
      tunnels := tunnels[srv.id := ts];
    }

    method RegisterStandby(srv: Server)
      requires Valid()
      modifies this
      ensures Valid() && fresh(tunnels.Values - old(tunnels.Values))
      ensures View() == Lifecycle.Register(old(View()), srv)
      ensures srv.id in old(tunnels) ==> tunnels == old(tunnels)
      ensures tunnels.Keys == old(tunnels).Keys + {srv.id}
      ensures srv.id !in old(tunnels) ==> tunnels[srv.id].Snapshot() == Tunnel(None, srv, 3, -1, 0.0, 0)
    {
      if srv.id !in tunnels {
        var ts := new TunnelState(srv.id, None, srv, 3);
        tunnels := tunnels[srv.id := ts];
      }
    }

    // ---------------------------------------------------------------- stopping

    method StopPriority3()
      requires Valid()
      modifies tunnels.Values
      ensures Valid() && View() == Lifecycle.StopPriority3(old(View()))
      ensures tunnels == old(tunnels)
      ensures forall id <- tunnels.Keys :: tunnels[id].Snapshot() ==
                var t := old(tunnels[id].Snapshot());
                if t.priority == 3 && t.Running() then t.(client := None, latency := -1) else t
    {
      var todo := tunnels.Keys;
      while todo != {}
        invariant todo <= tunnels.Keys
        invariant forall id <- tunnels.Keys :: tunnels[id].Snapshot() ==
                    if id in todo then old(View()).tunnels[id]
                    else Lifecycle.StopPriority3(old(View())).tunnels[id]
        decreases |todo|
      {
        var id :| id in todo;
        var ts := tunnels[id];
        if ts.priority == 3 && ts.Running() {
          ts.Shelve();
        }
        todo := todo - {id};
      }
    }

    method StopTunnel(id: Id) returns (found: bool)
      requires Valid()
      modifies this
      ensures Valid() && fresh(tunnels.Values - old(tunnels.Values))
      ensures found == (id in old(tunnels))
      ensures View() == Lifecycle.StopTunnel(old(View()), id)
      ensures found && old(tunnels[id].client).Some? ==>
                tunnels == old(tunnels) - {id} && activeID == if old(activeID) == id then "" else old(activeID)
      ensures !(found && old(tunnels[id].client).Some?) ==> tunnels == old(tunnels) && activeID == old(activeID)
    {
      found := id in tunnels;
      if found && tunnels[id].client.Some? {
        tunnels := tunnels - {id};
        if activeID == id {
          activeID := NO_TUNNEL;
        }
      }
    }

    method ClearAll()
      modifies this
      ensures Valid() && View() == Lifecycle.ClearAll(old(View()))
      ensures tunnels == map[] && activeID == ""
    {
      tunnels := map[];
      activeID := NO_TUNNEL;
    }

    // ---------------------------------------------------------------- ActivateTunnel

    method ActivateTunnel(id: Id) returns (routed: bool)
      requires Valid()
      modifies this`activeID
      ensures Valid() && View() == Lifecycle.Activate(old(View()), id)
      ensures routed <==> id in tunnels && tunnels[id].Running()
      ensures activeID == if routed then id else old(activeID)
    {
      if id !in tunnels || tunnels[id].client.None? || !tunnels[id].Running() {
        return false;
      }
      activeID := id;
      return true;
    }

    // ---------------------------------------------------------------- Rebalance

    method SyncOne(srv: Server) returns (start: bool)
      requires Valid()
      modifies tunnels.Values
      ensures Valid()
      ensures forall acc :: Lifecycle.SyncOne(Lifecycle.Synced(old(View()), acc), srv)
                            == Lifecycle.Synced(View(), if start then acc + [srv] else acc)
    {
      start := false;
      if srv.id in tunnels {
        var ts := tunnels[srv.id];
        var oldPriority := ts.priority;
        var p := NormPriority(srv.priority);
        ts.priority := p;
        ts.cfg := srv;
        start := oldPriority == 3 && p <= 2 && ts.client.None?;
        if oldPriority <= 2 && p == 3 && ts.id != activeID && ts.Running() {
          ts.Shelve();
        }
      }
    }

    method RebalanceSync(servers: seq<Server>) returns (toStart: seq<Server>)
      requires Valid()
      modifies tunnels.Values
      ensures Valid()
      ensures Lifecycle.SyncAll(old(View()), servers) == Lifecycle.Synced(View(), toStart)
    {
      toStart := [];
      for i := 0 to |servers|
        invariant Valid() && tunnels == old(tunnels)
        invariant Lifecycle.SyncAll(old(View()), servers[..i]) == Lifecycle.Synced(View(), toStart)
      {
        var start := SyncOne(servers[i]);
        assert servers[..i + 1][..i] == servers[..i];
        if start {
          toStart := toStart + [servers[i]];
        }
      }
      assert servers[..|servers|] == servers;
    }

    // ---------------------------------------------------------------- selectBest

    // The candidates, collected entry by entry.
    method CollectAlive() returns (alive: set<Id>)
      requires Valid()
      ensures alive == AliveSet(View())
    {
      alive := {};
      var todo := tunnels.Keys;
      while todo != {}
        invariant todo <= tunnels.Keys
        invariant forall id :: id in alive <==> id in tunnels && id !in todo && View().tunnels[id].Alive()
        decreases |todo|
      {
        var id :| id in todo;
        var ts := tunnels[id];
        if ts.Running() && ts.latency >= 0 {
          alive := alive + {id};
        }
        todo := todo - {id};
      }
    }

    predicate SortsBefore(a: Id, b: Id)
      requires a in tunnels && b in tunnels
      reads this, tunnels.Values
    {
      Before(tunnels[a].Snapshot(), tunnels[b].Snapshot())
    }

    // The head of the sorted candidates, then the stickiness rule.
    method Choose(alive: set<Id>) returns (best: Id)
      requires Valid() && alive == AliveSet(View()) && alive != {}
      modifies this`activeID
      ensures Valid() && IsBest(old(View()), best) && View() == Finish(old(View()), best)
      ensures EndsRight(old(View()), activeID)
    {
      hide EndsRight;
      FinishAllEndRight(View());
      ghost var b := BestExists(View(), alive);
      assert b in alive && forall c <- alive :: !SortsBefore(c, b);
      best :| best in alive && forall c <- alive :: !SortsBefore(c, best);
      assert forall c <- alive :: Before(View().tunnels[c], View().tunnels[best]) ==> SortsBefore(c, best);
      if activeID == best {
        return;
      }
      if activeID != NO_TUNNEL {
        if activeID in tunnels && tunnels[activeID].latency >= 0 {
          if tunnels[best].priority >= tunnels[activeID].priority {
            return;
          }
        }
      }
      activeID := best;
    }

    // The searches for a backup to launch, and for one to tear down.
    method StandbyLeft() returns (left: bool)
      requires Valid()
      ensures left == HasStandby(View())
    {
      left := exists id <- tunnels.Keys :: tunnels[id].priority == 3 && tunnels[id].client.None?;
      assert forall id <- tunnels.Keys :: View().tunnels[id] == tunnels[id].Snapshot();
    }

    method BackupsInTheWay(alive: set<Id>) returns (found: bool)
      requires Valid() && alive == AliveSet(View())
      ensures found == QueuesTeardown(View())
    {
      found := false;
      assert forall id <- tunnels.Keys :: View().tunnels[id] == tunnels[id].Snapshot();
      var hasP1P2 := exists id <- alive :: tunnels[id].priority <= 2;
      if hasP1P2 {
        found := exists id <- tunnels.Keys :: tunnels[id].priority == 3 && tunnels[id].Running();
      }
    }

    // The section before backups are launched. Without a launch it is the whole of selectBest,
    // and `teardown` says whether a stopPriority3 is started.
    method SelectEnter() returns (launch: bool, teardown: bool, best: Id)
      requires Valid()
      modifies this`activeID
      ensures Valid() && MayPick(old(View()), best)
      ensures launch == LaunchesBackups(old(View()))
      ensures teardown == QueuesTeardown(old(View()))
      ensures View() == if launch then old(View()) else Finish(old(View()), best)
      ensures !launch ==> EndsRight(old(View()), activeID)
    {
      hide EndsRight, NoneUp, Finish, IsBest, HasStandby, HasPrimary, BackupRunning;
      NothingAliveEnds(View(), NO_TUNNEL);
      launch, teardown, best := false, false, NO_TUNNEL;
      var alive := CollectAlive();
      if alive == {} {
        if activeID != NO_TUNNEL {
          launch := StandbyLeft();
          if !launch {
            activeID := NO_TUNNEL;
          }
        }
        return;
      }
      teardown := BackupsInTheWay(alive);
      best := Choose(alive);
    }

    // The section after backups were launched: the candidates are collected again, the teardown
    // is not reconsidered.
    method SelectResume() returns (best: Id)
      requires Valid()
      modifies this`activeID
      ensures Valid() && MayPick(old(View()), best) && View() == Finish(old(View()), best)
      ensures EndsRight(old(View()), activeID)
    {
      hide EndsRight, NoneUp, Finish, IsBest;
      NothingAliveEnds(View(), NO_TUNNEL);
      best := NO_TUNNEL;
      var alive := CollectAlive();
      if alive == {} {
        activeID := NO_TUNNEL;
      } else {
        best := Choose(alive);
      }
    }

    // The list startPriority3 works through.
    method CollectStandby() returns (standby: seq<Id>)
      requires Valid()
      ensures forall id :: id in standby <==> id in tunnels && tunnels[id].priority == 3 && tunnels[id].client.None?
      ensures forall i, j | 0 <= i < j < |standby| :: standby[i] != standby[j]
    {
      standby := [];
      var todo := tunnels.Keys;
      while todo != {}
        invariant todo <= tunnels.Keys
        invariant forall id :: id in standby <==>
                    id in tunnels && id !in todo && tunnels[id].priority == 3 && tunnels[id].client.None?
        invariant forall i, j | 0 <= i < j < |standby| :: standby[i] != standby[j]
        decreases |todo|
      {
        var id :| id in todo;
        if tunnels[id].priority == 3 && tunnels[id].client.None? {
          standby := standby + [id];
        }
        todo := todo - {id};
      }
    }

    // ---------------------------------------------------------------- pingLoop, speedTestLoop

    // The section after a ping. A nil client panics when its counters are read, which the path
    // that reports the active tunnel down does not get to.
    method PingEnd(id: Id, ping: Health.Ping) returns (r: PingResult, event: Option<Health.Event>)
      requires Valid()
      modifies tunnels.Values
      ensures Valid() && View() == Fleets.PingState(old(View()), id, ping)
      ensures r.Missing? <==> id !in tunnels
      ensures r.Panics? <==> Fleets.PingPanics(old(View()), id, ping)
      ensures r.Reselect? <==> id in tunnels && activeID == id && event == Some(Health.Down)
      ensures event == if id in tunnels then Health.EventOf(old(View()).tunnels[id], ping) else None
    {
      r, event := Recorded, None;
      if id !in tunnels {
        return Missing, None;
      }
      var ts := tunnels[id];
      match ping {
      case Lost =>
        ts.failures := ts.failures + 1;
        if ts.failures >= MAX_FAILURES && ts.latency >= 0 {
          ts.latency := -1;
          event := Some(Health.Down);
          if activeID == id {
            return Reselect, event;
          }
        }
      case Reply(ms) =>
        if ts.latency < 0 {
          event := Some(Health.Up);
        }
        ts.failures := 0;
        ts.latency := ms;
      }
      if ts.client.None? {
        r := Panics;
      }
    }

    method SpeedEnd(id: Id, speed: Option<real>)
      requires Valid()
      modifies tunnels.Values
      ensures Valid() && View() == Fleets.SpeedState(old(View()), id, speed)
    {
      if id in tunnels && speed.Some? {
        tunnels[id].speedMbps := speed.value;
      }
    }

    // ---------------------------------------------------------------- networkWatcher

    // The watcher over a stretch of observations; starting and stopping the tunnels is recorded,
    // not performed. A first loss is written to the flag and taken back.
    method NetworkWatcher(obs: seq<bool>) returns (calls: seq<Network.Call>)
      modifies this`hasNet
      ensures hasNet == Network.Watch(old(hasNet), obs).hasNet
      ensures calls == Network.Calls(old(hasNet), obs)
    {
      calls := [];
      var downCount := 0;
      for i := 0 to |obs|
        invariant Network.Net(hasNet, downCount) == Network.Watch(old(hasNet), obs[..i])
        invariant calls == Network.Calls(old(hasNet), obs[..i])
      {
        assert obs[..i + 1][..i] == obs[..i];
        var internet := obs[i];
        var wasOnline := hasNet;
        hasNet := internet;
        if internet && !wasOnline {
          downCount := 0;
          calls := calls + [Network.StartAll];
        } else if !internet && wasOnline {
          downCount := downCount + 1;
          if downCount < 2 {
            hasNet := true;
          } else {
            downCount := 0;
            calls := calls + [Network.StopAll];
          }
        } else {
          downCount := 0;
        }
      }
      assert obs[..|obs|] == obs;
    }

    // ---------------------------------------------------------------- migrations

    // The search of checkSpeedMigration, entry by entry.
    method FindFastest() returns (best: Option<Id>)
      requires Valid() && activeID in tunnels
      ensures best.None? <==> Migrations.Rivals(View()) == {}
      ensures best.Some? ==> Migrations.IsFastest(View(), best.value)
      ensures best.Some? ==> Migrations.FastestCandidate(View(), best.value)
    {
      best := None;
      var bestSpeed := 0.0;
      var todo := tunnels.Keys;
      ghost var rivals := Migrations.Rivals(View());
      while todo != {}
        invariant todo <= tunnels.Keys
        invariant best.None? ==> bestSpeed == 0.0 && rivals <= todo
        invariant best.Some? ==> best.value in rivals && tunnels[best.value].speedMbps == bestSpeed
        invariant forall id | id in rivals && id !in todo :: tunnels[id].speedMbps <= bestSpeed
        decreases |todo|
      {
        var id :| id in todo;
        var ts := tunnels[id];
        if id != activeID && ts.latency >= 0 && ts.speedMbps > 0.0 && ts.priority == tunnels[activeID].priority {
          assert id in rivals;
          if ts.speedMbps > bestSpeed {
            bestSpeed := ts.speedMbps;
            best := Some(id);
          }
        }
        todo := todo - {id};
      }
      if best.Some? {
        Migrations.FastestIsFastest(View(), best.value);
      }
    }

    method CheckSpeedMigration(now: int, cfg: Migrations.BalancerConfig) returns (started: bool, best: Id)
      requires Valid()
      modifies this`migration
      ensures Valid() && Migrations.MayChoose(old(View()), best)
      ensures started == Migrations.Proposes(old(View()), now, cfg, best)
      ensures View() == Migrations.Check(old(View()), now, cfg, best)
      ensures started <==> Migrations.MustMove(old(View()), now, cfg)
      ensures started ==> Migrations.FastestCandidate(old(View()), best)
      ensures started ==> migration == Some(Migration(
                Evaluating,
                Some(Endpoint(activeID, tunnels[activeID].cfg.name, tunnels[activeID].speedMbps)),
                Some(Endpoint(best, tunnels[best].cfg.name, tunnels[best].speedMbps)), 0, None, None, None, None))
    {
      started, best := false, NO_TUNNEL;
      if activeID in tunnels {
        var found := FindFastest();
        if found.Some? {
          best := found.value;
        }
        Migrations.ProposesIff(View(), now, cfg, best);
        if migration.Some? {
          return;
        }
        if lastSwitch.Some? && now - lastSwitch.value < cfg.cooldown * SECOND {
          return;
        }
        if activeID == NO_TUNNEL {
          return;
        }
        var current := tunnels[activeID];
        if current.speedMbps <= 0.0 || found.None? {
          return;
        }
        var target := tunnels[best];
        if (target.speedMbps - current.speedMbps) / current.speedMbps < cfg.thresholdPct as real / 100.0 {
          return;
        }
        migration := Some(Migrations.Blank(Evaluating).(
          from := Some(Endpoint(activeID, current.cfg.name, current.speedMbps)),
          to := Some(Endpoint(best, target.cfg.name, target.speedMbps))));
        started := true;
      }
    }

    method WaitBegin(start: int, cfg: Migrations.BalancerConfig)
      modifies this`migration
      ensures View() == Migrations.WaitBegin(old(View()), start, cfg)
      ensures old(migration).Some? ==> migration == Some(old(migration).value.(
                state := WaitingForIdle, waitingSince := Some(start),
                timeoutAt := Some(start + cfg.waitTimeout * 1_000_000_000)))
    {
      if migration.Some? {
        migration := Some(migration.value.(
          state := WaitingForIdle,
          waitingSince := Some(start),
          timeoutAt := Some(start + cfg.waitTimeout * SECOND)));
      }
    }

    // The look that begins each turn of idleWatcher, and the interface it will sample.
    method LookOn() returns (iface: Option<string>)
      requires Valid()
      ensures iface.Some? <==> Migrations.LooksOn(View())
      ensures iface.Some? <==>
                migration.Some? && activeID != "" && activeID in tunnels && tunnels[activeID].client.Some?
      ensures iface.Some? ==> iface.value == tunnels[activeID].client.value.iface
    {
      if migration.None? || activeID == NO_TUNNEL {
        return None;
      }
      if activeID !in tunnels || tunnels[activeID].client.None? {
        return None;
      }
      return Some(tunnels[activeID].client.value.iface);
    }

    method TimeOut()
      modifies this`migration
      ensures View() == Migrations.TimeOut(old(View()))
      ensures migration == Some(Migration(Cancelled, None, None, 0, None, None, None, None))
    {
      migration := Some(Migrations.Blank(Cancelled));
    }

    method NoteRate(kbps: real)
      modifies this`migration
      ensures View() == Migrations.NoteRate(old(View()), kbps)
    {
      if migration.Some? {
        migration := Some(migration.value.(activeConnections := Migrations.Truncate(kbps)));
      }
    }

    method MigrationBegin(target: Id) returns (ok: bool)
      requires Valid()
      modifies this`migration, this`activeID
      ensures Valid() && ok == Migrations.TargetUp(old(View()), target)
      ensures View() == Migrations.SwitchBegin(old(View()), target)
      ensures ok <==> target in tunnels && tunnels[target].Running()
      ensures activeID == if ok then target else old(activeID)
      ensures ok && old(migration).Some? ==> migration == Some(old(migration).value.(state := Switching))
      ensures !ok || old(migration).None? ==> migration.None?
    {
      if target !in tunnels || tunnels[target].client.None? || !tunnels[target].Running() {
        migration := None;
        return false;
      }
      if migration.Some? {
        migration := Some(migration.value.(state := Switching));
      }
      activeID := target;
      return true;
    }

    method MigrationEnd(now: int, cfg: Migrations.BalancerConfig)
      modifies this`migration, this`lastSwitch
      ensures View() == Migrations.SwitchEnd(old(View()), now, cfg)
      ensures lastSwitch == Some(now)
      ensures migration == Some(Migration(
                Completed, None, None, 0, None, None, Some(now), Some(now + cfg.cooldown * 1_000_000_000)))
    {
      lastSwitch := Some(now);
      migration := Some(Migrations.Blank(Completed).(
        completedAt := Some(now), nextSwitchAt := Some(now + cfg.cooldown * SECOND)));
    }

    // CancelMigration, and the last section of every migration.
    method ClearMigration()
      modifies this`migration
      ensures View() == Migrations.Clear(old(View()))
    {
      migration := None;
    }

    // ---------------------------------------------------------------- status reports

    // The counting loop of GetState, for the two sets it tells apart.
    method CountInto(ghost ups: set<Id>, ghost downs: set<Id>) returns (up: nat, down: nat)
      requires ups <= tunnels.Keys && downs <= tunnels.Keys
      requires forall id <- tunnels.Keys ::
                 var t := tunnels[id].Snapshot();
                 && (id in ups <==> !Statuses.Uncounted(t) && t.Alive())
                 && (id in downs <==> !Statuses.Uncounted(t) && !t.Alive())
      ensures up == |ups| && down == |downs|
    {
      up, down := 0, 0;
      var todo := tunnels.Keys;
      Statuses.SeenEnds(ups, todo);
      Statuses.SeenEnds(downs, todo);
      hide Statuses.Seen;
      while todo != {}
        invariant todo <= tunnels.Keys
        invariant up == Statuses.Seen(ups, todo) && down == Statuses.Seen(downs, todo)
        decreases |todo|
      {
        var id :| id in todo;
        var ts := tunnels[id];
        Statuses.SeenNext(ups, todo, id);
        Statuses.SeenNext(downs, todo, id);
        if ts.priority == 3 && !ts.Running() {
        } else if ts.Running() && ts.latency >= 0 {
          up := up + 1;
        } else {
          down := down + 1;
        }
        todo := todo - {id};
      }
    }

    method CountTunnels() returns (up: nat, down: nat)
      requires Valid()
      ensures up == |Statuses.UpSet(View())| && down == |Statuses.DownSet(View())|
      ensures up == |set id | id in View().tunnels && IsUp(View().tunnels[id])|
    {
      Statuses.CountsMean(View());
      assert forall id <- tunnels.Keys :: View().tunnels[id] == tunnels[id].Snapshot();
      up, down := CountInto(Statuses.UpSet(View()), Statuses.DownSet(View()));
    }

    // The state string of one tunnel.
    method StateOf(id: Id) returns (st: Statuses.Status)
      requires Valid() && id in tunnels
      ensures st == Statuses.StatusOf(View().tunnels[id], id == activeID)
    {
      var ts := tunnels[id];
      if ts.client.None? {
        if ts.priority == 3 {
          return Statuses.Standby;
        }
        return Statuses.Disabled;
      }
      if !ts.Running() {
        return Statuses.Connecting;
      }
      if ts.latency < 0 {
        return Statuses.Down;
      }
      if ts.id == activeID {
        return Statuses.Active;
      }
      return Statuses.Ready;
    }

    // The list that GetTunnelStatuses builds, by id: its order is that of the map.
    method TunnelStatuses() returns (result: map<Id, Statuses.Report>)
      requires Valid()
      ensures result == map id | id in tunnels :: Statuses.ReportOf(View().tunnels[id], id == activeID)
    {
      hide Statuses.StatusOf;
      result := map[];
      var todo := tunnels.Keys;
      while todo != {}
        invariant todo <= tunnels.Keys && result.Keys == tunnels.Keys - todo
        invariant forall id <- result.Keys :: result[id] == Statuses.ReportOf(View().tunnels[id], id == activeID)
        decreases |todo|
      {
        var id :| id in todo;
        var ts := tunnels[id];
        var st := StateOf(id);
        var latency, speed, iface := None, None, None;
        if ts.latency >= 0 {
          latency := Some(ts.latency);
        }
        if ts.speedMbps > 0.0 {
          speed := Some(ts.speedMbps);
        }
        if ts.client.Some? {
          iface := Some(ts.client.value.iface);
        }
        result := result[id := Statuses.Report(ts.cfg.name, ts.cfg.enabled, ts.priority, st, latency, speed, iface)];
        todo := todo - {id};
      }
    }
  }
}
