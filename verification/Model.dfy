/**
 The shared state of the balancer (internal/balancer/balancer.go), as a value.
 The class Balancer holds the same state in mutable fields; every critical section is
 specified by a function on this value.
 */
module Model {
  import opened Wrappers

  type Id = string

  // The empty string is the balancer's "no active tunnel".
  const NO_TUNNEL: Id := ""

  // time.Duration and the clock count nanoseconds.
  const SECOND: int := 1_000_000_000

  const MAX_FAILURES: int := 3

  datatype Server = Server(id: Id, name: string, enabled: bool, priority: int)

  // A started tunnel process. `running` is what Running() reports: Stop() and a dying
  // process clear it, and nothing sets it again (a restart builds a new client).
  datatype Client = Client(iface: string, running: bool)

  datatype Tunnel = Tunnel(
    client: Option<Client>,
    cfg: Server,
    priority: int,
    latency: int,
    speedMbps: real,
    failures: int)
  {
    predicate Running() {
      client.Some? && client.value.running
    }

    // The test selectBest applies when it collects its candidates.
    predicate Alive() {
      Running() && latency >= 0
    }
  }

  datatype MigrationState = Evaluating | WaitingForIdle | Cancelled | Switching | Completed

  datatype Endpoint = Endpoint(id: Id, name: string, speedMbps: real)

  datatype Migration = Migration(
    state: MigrationState,
    from: Option<Endpoint>,
    to: Option<Endpoint>,
    activeConnections: int,
    waitingSince: Option<int>,
    timeoutAt: Option<int>,
    completedAt: Option<int>,
    nextSwitchAt: Option<int>)

  datatype State = State(
    tunnels: map<Id, Tunnel>,
    activeID: Id,
    migration: Option<Migration>,
    lastSwitch: Option<int>,
    hasNet: bool)
  {
    // The active pointer names an entry of the map.
    predicate ActiveKnown() {
      activeID in tunnels
    }

    // The active pointer is unset or names an entry of the map.
    predicate ActiveResolved() {
      activeID == NO_TUNNEL || ActiveKnown()
    }
  }

  // A priority outside 1..3 counts as 2.
  function NormPriority(p: int): (n: int)
    ensures 1 <= n <= 3
    ensures 1 <= p <= 3 ==> n == p
    ensures p < 1 || p > 3 ==> n == 2
  {
    if p < 1 || p > 3 then 2 else p
  }
}
