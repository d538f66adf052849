/** The critical sections that create, stop, register and re-tier tunnels. */
module Lifecycle {
  import opened Wrappers
  import opened Model
  import opened Selection

  // ---------------------------------------------------------------- startOne, registerStandby

  predicate AlreadyRunning(s: State, id: Id) {
    id in s.tunnels && s.tunnels[id].Running()
  }

  // First section: an entry that is not running is removed, to be built again.
  function StartBegin(s: State, id: Id): State {
    if AlreadyRunning(s, id) then s else s.(tunnels := s.tunnels - {id})
  }

  function NewTunnel(srv: Server, client: Client): Tunnel {
    Tunnel(Some(client), srv, NormPriority(srv.priority), -1, 0.0, 0)
  }

  // Second section, after the client has started.
  function StartFinish(s: State, srv: Server, client: Client): State {
    s.(tunnels := s.tunnels[srv.id := NewTunnel(srv, client)])
  }

  function Register(s: State, srv: Server): State {
    if srv.id in s.tunnels then s
    else s.(tunnels := s.tunnels[srv.id := Tunnel(None, srv, 3, -1, 0.0, 0)])
  }

  // ---------------------------------------------------------------- stopping

  function Shelved(t: Tunnel): Tunnel {
    t.(client := None, latency := -1)
  }

  function StopPriority3(s: State): State {
    s.(tunnels := map id | id in s.tunnels ::
         if s.tunnels[id].priority == 3 && s.tunnels[id].Running() then Shelved(s.tunnels[id])
         else s.tunnels[id])
  }

  function StopTunnel(s: State, id: Id): State {
    if id in s.tunnels && s.tunnels[id].client.Some? then
      s.(tunnels := s.tunnels - {id}, activeID := if s.activeID == id then NO_TUNNEL else s.activeID)
    else s
  }

  // stopAllTunnels and the first half of Reload.
  function ClearAll(s: State): State {
    s.(tunnels := map[], activeID := NO_TUNNEL)
  }

  // ---------------------------------------------------------------- ActivateTunnel

  function Activate(s: State, id: Id): State {
    if id in s.tunnels && s.tunnels[id].Running() then s.(activeID := id) else s
  }

  // ---------------------------------------------------------------- Rebalance

  // The locked pass of Rebalance: the re-tiered state and the servers it has to start.
  datatype Synced = Synced(s: State, toStart: seq<Server>)

  function Retiered(t: Tunnel, srv: Server, isActive: bool): Tunnel {
    var p := NormPriority(srv.priority);
    var u := t.(priority := p, cfg := srv);
    if t.priority <= 2 && p == 3 && !isActive && t.Running() then Shelved(u) else u
  }

  predicate NeedsStart(t: Tunnel, srv: Server) {
    t.priority == 3 && NormPriority(srv.priority) <= 2 && t.client.None?
  }

  function SyncOne(r: Synced, srv: Server): Synced {
    if srv.id !in r.s.tunnels then r
    else
      var t := r.s.tunnels[srv.id];
      Synced(
        r.s.(tunnels := r.s.tunnels[srv.id := Retiered(t, srv, srv.id == r.s.activeID)]),
        if NeedsStart(t, srv) then r.toStart + [srv] else r.toStart)
  }

  function SyncAll(s: State, servers: seq<Server>): Synced {
    if servers == [] then Synced(s, [])
    else SyncOne(SyncAll(s, servers[..|servers| - 1]), servers[|servers| - 1])
  }

  predicate UniqueIds(servers: seq<Server>) {
    forall i, j | 0 <= i < j < |servers| :: servers[i].id != servers[j].id
  }

  lemma SyncOneTouches(r: Synced, srv: Server, id: Id)
    ensures var t := SyncOne(r, srv).s;
            && t == r.s.(tunnels := t.tunnels)
            && t.tunnels.Keys == r.s.tunnels.Keys
            && (id in r.s.tunnels && id != srv.id ==> t.tunnels[id] == r.s.tunnels[id])
            && (srv.id in r.s.tunnels ==>
                  t.tunnels[srv.id] == Retiered(r.s.tunnels[srv.id], srv, srv.id == r.s.activeID))
  {
    hide Retiered, NeedsStart;
  }

  // With unique ids each entry is re-tiered once, from its own configuration; everything else,
  // the pointer included, is left alone.
  lemma {:induction false} SyncEntry(s: State, servers: seq<Server>, id: Id)
    requires UniqueIds(servers)
    ensures var r := SyncAll(s, servers);
            && r.s == s.(tunnels := r.s.tunnels)
            && r.s.tunnels.Keys == s.tunnels.Keys
            && (id in s.tunnels ==>
                  && (forall i | 0 <= i < |servers| && servers[i].id == id ::
                        r.s.tunnels[id] == Retiered(s.tunnels[id], servers[i], id == s.activeID))
                  && ((forall i | 0 <= i < |servers| :: servers[i].id != id) ==> r.s.tunnels[id] == s.tunnels[id]))
  {
    hide Retiered, NeedsStart, SyncOne;
    if servers != [] {
      var n := |servers| - 1;
      SyncEntry(s, servers[..n], id);
      SyncOneTouches(SyncAll(s, servers[..n]), servers[n], id);
    }
  }

  lemma {:induction false} SyncStarts(s: State, servers: seq<Server>, srv: Server)
    requires UniqueIds(servers)
    ensures srv in SyncAll(s, servers).toStart <==>
            srv in servers && srv.id in s.tunnels && NeedsStart(s.tunnels[srv.id], srv)
  {
    hide Retiered, NeedsStart;
    if servers != [] {
      var n := |servers| - 1;
      SyncStarts(s, servers[..n], srv);
      SyncEntry(s, servers[..n], servers[n].id);
      assert servers == servers[..n] + [servers[n]];
    }
  }

  lemma SyncIsPointwise(s: State, servers: seq<Server>)
    requires UniqueIds(servers)
    ensures var r := SyncAll(s, servers);
            && r.s == s.(tunnels := r.s.tunnels)
            && r.s.tunnels.Keys == s.tunnels.Keys
            && (forall i | 0 <= i < |servers| && servers[i].id in s.tunnels ::
                  r.s.tunnels[servers[i].id]
                  == Retiered(s.tunnels[servers[i].id], servers[i], servers[i].id == s.activeID))
            && (forall id | id in s.tunnels && (forall i | 0 <= i < |servers| :: servers[i].id != id) ::
                  r.s.tunnels[id] == s.tunnels[id])
            && (forall srv :: srv in r.toStart <==>
                              srv in servers && srv.id in s.tunnels && NeedsStart(s.tunnels[srv.id], srv))
  {
    hide Retiered, NeedsStart, SyncAll, UniqueIds;
    SyncEntry(s, servers, NO_TUNNEL);
    forall i | 0 <= i < |servers| && servers[i].id in s.tunnels
      ensures SyncAll(s, servers).s.tunnels[servers[i].id]
              == Retiered(s.tunnels[servers[i].id], servers[i], servers[i].id == s.activeID)
    {
      SyncEntry(s, servers, servers[i].id);
    }
    forall id | id in s.tunnels && (forall i | 0 <= i < |servers| :: servers[i].id != id)
      ensures SyncAll(s, servers).s.tunnels[id] == s.tunnels[id]
    {
      SyncEntry(s, servers, id);
    }
    forall srv: Server
      ensures srv in SyncAll(s, servers).toStart <==>
              srv in servers && srv.id in s.tunnels && NeedsStart(s.tunnels[srv.id], srv)
    {
      SyncStarts(s, servers, srv);
    }
  }

  // The same in plain terms: each listed tunnel takes on its configured tier (2 when that is none of
  // 1, 2 and 3) and configuration; its process is stopped exactly when it runs, is not active, and
  // falls from tier 1 or 2 to tier 3; and it is to be started exactly when it rises from tier 3 and
  // has no client.
  lemma TiersFollowConfig(s: State, servers: seq<Server>, i: nat)
    requires UniqueIds(servers) && i < |servers| && servers[i].id in s.tunnels
    ensures var id := servers[i].id;
            var p := if 1 <= servers[i].priority <= 3 then servers[i].priority else 2;
            var t, r := s.tunnels[id], SyncAll(s, servers);
            && id in r.s.tunnels
            && var u := r.s.tunnels[id];
            && u.priority == p && u.cfg == servers[i]
            && u.speedMbps == t.speedMbps && u.failures == t.failures
            && (if t.client.Some? && t.client.value.running && id != s.activeID && t.priority <= 2 && p == 3
                then u.client.None? && u.latency == -1
                else u.client == t.client && u.latency == t.latency)
            && (servers[i] in r.toStart <==> t.priority == 3 && p <= 2 && t.client.None?)
  {
    hide SyncAll;
    SyncIsPointwise(s, servers);
    assert servers[i] in servers;
  }

  // Nothing is to be started twice.
  lemma {:induction false} StartsOnce(s: State, servers: seq<Server>)
    requires UniqueIds(servers)
    ensures var starts := SyncAll(s, servers).toStart;
            && (forall srv <- starts :: srv in servers)
            && forall i, j | 0 <= i < j < |starts| :: starts[i] != starts[j]
  {
    hide Retiered, NeedsStart;
    if servers != [] {
      var n := |servers| - 1;
      StartsOnce(s, servers[..n]);
      assert servers == servers[..n] + [servers[n]];
      assert servers[n] !in servers[..n];
    }
  }

  // ---------------------------------------------------------------- handover before teardown

  // A queued stopPriority3 that runs right after the selection spares the active tunnel and
  // leaves no backup running.
  lemma TeardownSparesActive(s: State, best: Id)
    requires MayPick(s, best) && HasPrimary(s)
    ensures var s1 := Finish(s, best);
            var s2 := if QueuesTeardown(s) then StopPriority3(s1) else s1;
            && s1.ActiveKnown()
            && s2 == s1.(tunnels := s2.tunnels)
            && s2.tunnels.Keys == s1.tunnels.Keys
            && s2.tunnels[s2.activeID] == s1.tunnels[s1.activeID]
            && !BackupRunning(s2)
  {
    FinishSelects(s, best);
    var p :| p in AliveSet(s) && s.tunnels[p].priority <= 2;
    assert Finish(s, best).tunnels[Finish(s, best).activeID].priority <= 2;
  }

  // The startOne calls of Rebalance, one after the other; None is a client that failed to start.
  function StartEach(s: State, servers: seq<Server>, clients: seq<Option<Client>>): State
    requires |clients| == |servers|
  {
    if servers == [] then s
    else
      var n := |servers| - 1;
      var r := StartEach(s, servers[..n], clients[..n]);
      if AlreadyRunning(r, servers[n].id) then r
      else if clients[n].None? then StartBegin(r, servers[n].id)
      else StartFinish(StartBegin(r, servers[n].id), servers[n], clients[n].value)
  }

  lemma {:induction false} StartEachTouchesOnly(s: State, servers: seq<Server>, clients: seq<Option<Client>>, id: Id)
    requires |clients| == |servers|
    requires forall i | 0 <= i < |servers| :: servers[i].id != id
    ensures var r := StartEach(s, servers, clients);
            && r == s.(tunnels := r.tunnels)
            && (id in r.tunnels <==> id in s.tunnels)
            && (id in s.tunnels ==> r.tunnels[id] == s.tunnels[id])
  {
    if servers != [] {
      var n := |servers| - 1;
      StartEachTouchesOnly(s, servers[..n], clients[..n], id);
    }
  }

  // One server of a list that has each id once: a running tunnel is left as it is, any other is
  // replaced by a fresh one, or gone when its client did not start.
  lemma {:induction false} StartEachStarts(s: State, servers: seq<Server>, clients: seq<Option<Client>>, i: nat)
    requires |clients| == |servers| && UniqueIds(servers) && i < |servers|
    ensures var r, id := StartEach(s, servers, clients), servers[i].id;
            if id in s.tunnels && s.tunnels[id].client.Some? && s.tunnels[id].client.value.running
            then id in r.tunnels && r.tunnels[id] == s.tunnels[id]
            else if clients[i].None? then id !in r.tunnels
            else
              && id in r.tunnels
              && r.tunnels[id] == Tunnel(
                   clients[i], servers[i], if 1 <= servers[i].priority <= 3 then servers[i].priority else 2, -1, 0.0, 0)
  {
    var n := |servers| - 1;
    if i < n {
      StartEachStarts(s, servers[..n], clients[..n], i);
      assert servers[i].id != servers[n].id;
    } else {
      StartEachTouchesOnly(s, servers[..n], clients[..n], servers[n].id);
    }
  }

  predicate StoppedBySync(s: State, s': State, id: Id) {
    id in s.tunnels && s.tunnels[id].Running() && id in s'.tunnels && !s'.tunnels[id].Running()
  }

  // Rebalance followed by the teardown it may queue: no tunnel it took out of service is the one
  // left active, the active one is healthy and untouched by the teardown, and when a primary is
  // alive no backup keeps running. With nothing alive there is no teardown: the selection ends on no
  // tunnel, at once or, when it launches backups, in the state it resumes in if nothing is alive
  // there either.
  lemma RebalanceHandsOver(s: State, servers: seq<Server>, clients: seq<Option<Client>>, best: Id)
    requires UniqueIds(servers)
    requires |clients| == |SyncAll(s, servers).toStart|
    requires MayPick(StartEach(SyncAll(s, servers).s, SyncAll(s, servers).toStart, clients), best)
    ensures var r := SyncAll(s, servers);
            var s2 := StartEach(r.s, r.toStart, clients);
            var s3 := Finish(s2, best);
            var s4 := if QueuesTeardown(s2) then StopPriority3(s3) else s3;
            && (AliveSet(s2) != {} ==> ActiveHealthy(s3) && s4.ActiveKnown())
            && (AliveSet(s2) != {} ==> s4.tunnels[s4.activeID] == s3.tunnels[s3.activeID])
            && (HasPrimary(s2) ==> !BackupRunning(s4))
            && (forall id | StoppedBySync(s, r.s, id) ::
                  AliveSet(s2) != {} ==> s4.activeID != id)
            && (AliveSet(s2) == {} ==> !QueuesTeardown(s2) && s4 == s2.(activeID := NO_TUNNEL))
            && (LaunchesBackups(s2) ==> AliveSet(s2) == {})
    ensures forall t, again | MayPick(t, again) ::
              if AliveSet(t) == {} then Finish(t, again).activeID == NO_TUNNEL else ActiveHealthy(Finish(t, again))
  {
    forall t, again | MayPick(t, again)
      ensures if AliveSet(t) == {} then Finish(t, again).activeID == NO_TUNNEL else ActiveHealthy(Finish(t, again))
    {
      FinishSelects(t, again);
    }
    var r := SyncAll(s, servers);
    var s2 := StartEach(r.s, r.toStart, clients);
    SyncIsPointwise(s, servers);
    FinishSelects(s2, best);
    if HasPrimary(s2) {
      TeardownSparesActive(s2, best);
    }
    forall id | StoppedBySync(s, r.s, id) && AliveSet(s2) != {}
      ensures Finish(s2, best).activeID != id
    {
      StoppedStaysOut(s, servers, clients, best, id);
    }
  }

  lemma StoppedStaysOut(s: State, servers: seq<Server>, clients: seq<Option<Client>>, best: Id, id: Id)
    requires UniqueIds(servers)
    requires |clients| == |SyncAll(s, servers).toStart|
    requires StoppedBySync(s, SyncAll(s, servers).s, id)
    requires var s2 := StartEach(SyncAll(s, servers).s, SyncAll(s, servers).toStart, clients);
             AliveSet(s2) != {} && IsBest(s2, best)
    ensures Finish(StartEach(SyncAll(s, servers).s, SyncAll(s, servers).toStart, clients), best).activeID != id
  {
    var r := SyncAll(s, servers);
    SyncIsPointwise(s, servers);
    var i :| 0 <= i < |servers| && servers[i].id == id;
    assert r.s.tunnels[id] == Shelved(s.tunnels[id].(priority := 3, cfg := servers[i]));
    assert id != s.activeID;
    forall k | 0 <= k < |r.toStart|
      ensures r.toStart[k].id != id
    {
      assert r.toStart[k] in r.toStart;
    }
    StartEachTouchesOnly(r.s, r.toStart, clients, id);
  }
}
