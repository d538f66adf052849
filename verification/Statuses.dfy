/** The two status reports of the API, and how their counts fit together. */
module Statuses {
  import opened Wrappers
  import opened Model
  import opened Selection

  datatype Status = Disabled | Standby | Connecting | Down | Active | Ready

  // The state string that GetTunnelStatuses reports.
  function StatusOf(t: Tunnel, isActive: bool): Status {
    if t.client.None? then
      if t.priority == 3 then Standby else Disabled
    else if !t.Running() then Connecting
    else if t.latency < 0 then Down
    else if isActive then Active
    else Ready
  }

  // One entry of that list, as far as the model keeps its fields.
  datatype Report = Report(
    name: string,
    enabled: bool,
    priority: int,
    state: Status,
    latency: Option<int>,
    speedMbps: Option<real>,
    iface: Option<string>)

  function ReportOf(t: Tunnel, isActive: bool): Report {
    Report(
      t.cfg.name, t.cfg.enabled, t.priority, StatusOf(t, isActive),
      if t.latency >= 0 then Some(t.latency) else None,
      if t.speedMbps > 0.0 then Some(t.speedMbps) else None,
      if t.client.Some? then Some(t.client.value.iface) else None)
  }

  // A tunnel reported active or ready is alive and comes with its latency; one reported down has
  // none; an interface comes with every tunnel but the idle backups and disabled ones.
  lemma ReportsFit(t: Tunnel, isActive: bool)
    ensures var r := ReportOf(t, isActive);
            && (r.state.Active? || r.state.Ready? <==> t.Alive())
            && (t.Alive() ==> r.latency == Some(t.latency))
            && (r.state.Down? <==> t.Running() && r.latency.None?)
            && (r.iface.None? <==> r.state.Standby? || r.state.Disabled?)
  {
  }

  // Each state string in plain terms.
  lemma StatusMeans(t: Tunnel, isActive: bool)
    ensures var st, running := StatusOf(t, isActive), t.client.Some? && t.client.value.running;
            && (st.Standby? <==> t.client.None? && t.priority == 3)
            && (st.Disabled? <==> t.client.None? && t.priority != 3)
            && (st.Connecting? <==> t.client.Some? && !running)
            && (st.Down? <==> running && t.latency < 0)
            && (st.Active? <==> running && t.latency >= 0 && isActive)
            && (st.Ready? <==> running && t.latency >= 0 && !isActive)
  {
  }

  function WithStatus(s: State, st: Status): set<Id> {
    set id | id in s.tunnels && StatusOf(s.tunnels[id], id == s.activeID) == st
  }

  // Backups that are not running are neither up nor down for GetState.
  predicate Uncounted(t: Tunnel) {
    t.priority == 3 && !t.Running()
  }

  function UpSet(s: State): set<Id> {
    set id | id in s.tunnels && !Uncounted(s.tunnels[id]) && s.tunnels[id].Alive()
  }

  function DownSet(s: State): set<Id> {
    set id | id in s.tunnels && !Uncounted(s.tunnels[id]) && !s.tunnels[id].Alive()
  }

  function UncountedSet(s: State): set<Id> {
    set id | id in s.tunnels && Uncounted(s.tunnels[id])
  }

  // The two counts in plain terms: up is up, and down is what is not up and no idle backup.
  lemma CountsMean(s: State)
    ensures UpSet(s) == set id | id in s.tunnels && Selection.IsUp(s.tunnels[id])
    ensures DownSet(s) == set id | id in s.tunnels && !Selection.IsUp(s.tunnels[id])
                                   && (s.tunnels[id].priority != 3 || s.tunnels[id].Running())
  {
  }

  // How many of a set a loop has passed with these keys still to go.
  ghost function Seen(s: set<Id>, todo: set<Id>): nat {
    |s - todo|
  }

  lemma SeenEnds(s: set<Id>, keys: set<Id>)
    requires s <= keys
    ensures Seen(s, keys) == 0 && Seen(s, {}) == |s|
  {
    assert s - keys == {} && s - {} == s;
  }

  lemma SeenNext(s: set<Id>, todo: set<Id>, id: Id)
    requires id in todo
    ensures Seen(s, todo - {id}) == Seen(s, todo) + if id in s then 1 else 0
  {
    if id in s {
      assert s - (todo - {id}) == (s - todo) + {id};
    } else {
      assert s - (todo - {id}) == s - todo;
    }
  }

  lemma CountSplit<T>(a: set<T>, b: set<T>, c: set<T>)
    requires a !! b && a + b == c
    ensures |a| + |b| == |c|
  {
  }

  lemma UpIsAlive(s: State)
    ensures UpSet(s) == AliveSet(s) == WithStatus(s, Active) + WithStatus(s, Ready)
    ensures WithStatus(s, Active) <= {s.activeID}
  {
    forall id
      ensures id in UpSet(s) <==> id in AliveSet(s)
      ensures id in AliveSet(s) <==> id in WithStatus(s, Active) + WithStatus(s, Ready)
    {
    }
  }

  lemma EveryTunnelCounted(s: State)
    ensures UpSet(s) !! DownSet(s) && (UpSet(s) + DownSet(s)) !! UncountedSet(s)
    ensures UpSet(s) + DownSet(s) + UncountedSet(s) == s.tunnels.Keys
  {
    forall id
      ensures id in UpSet(s) + DownSet(s) + UncountedSet(s) <==> id in s.tunnels.Keys
    {
    }
  }

  lemma AtMostOneActive(s: State)
    ensures |WithStatus(s, Active)| <= 1
    ensures WithStatus(s, Active) !! WithStatus(s, Ready)
  {
    var rest := {s.activeID} - WithStatus(s, Active);
    UpIsAlive(s);
    CountSplit(WithStatus(s, Active), rest, {s.activeID});
  }

  // The per-tunnel report and the summary agree with each other and with what selectBest sees:
  // active plus ready is the number up, which is the number of candidates; everything else is
  // down or an idle backup.
  lemma ReportsAgree(s: State)
    ensures |WithStatus(s, Active)| + |WithStatus(s, Ready)| == |UpSet(s)| == |AliveSet(s)|
    ensures |UpSet(s)| + |DownSet(s)| + |UncountedSet(s)| == |s.tunnels|
    ensures |WithStatus(s, Active)| <= 1
  {
    UpIsAlive(s);
    AtMostOneActive(s);
    EveryTunnelCounted(s);
    CountSplit(WithStatus(s, Active), WithStatus(s, Ready), AliveSet(s));
    CountSplit(UpSet(s), DownSet(s), UpSet(s) + DownSet(s));
    CountSplit(UpSet(s) + DownSet(s), UncountedSet(s), s.tunnels.Keys);
  }
}
