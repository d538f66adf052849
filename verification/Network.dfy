/** networkWatcher: one immediate and one debounced edge on the observed connectivity. */
module Network {
  datatype Call = StartAll | StopAll

  // The watcher's view: the shared flag and its own counter.
  datatype Net = Net(hasNet: bool, downCount: int)

  function Observe(n: Net, internet: bool): Net {
    if internet && !n.hasNet then Net(true, 0)
    else if !internet && n.hasNet then
      if n.downCount + 1 < 2 then Net(true, n.downCount + 1) else Net(false, 0)
    else Net(internet, 0)
  }

  function CallOf(n: Net, internet: bool): seq<Call> {
    if internet && !n.hasNet then [StartAll]
    else if !internet && n.hasNet && n.downCount + 1 >= 2 then [StopAll]
    else []
  }

  function Watch(hasNet: bool, obs: seq<bool>): Net {
    if obs == [] then Net(hasNet, 0) else Observe(Watch(hasNet, obs[..|obs| - 1]), obs[|obs| - 1])
  }

  function Calls(hasNet: bool, obs: seq<bool>): seq<Call> {
    if obs == [] then []
    else Calls(hasNet, obs[..|obs| - 1]) + CallOf(Watch(hasNet, obs[..|obs| - 1]), obs[|obs| - 1])
  }

  predicate TwoLosses(obs: seq<bool>) {
    |obs| >= 2 && !obs[|obs| - 1] && !obs[|obs| - 2]
  }

  predicate NeverSeen(hasNet: bool, obs: seq<bool>) {
    !hasNet && forall i | 0 <= i < |obs| :: !obs[i]
  }

  // Offline exactly after two losses in a row, or when the network was never there.
  lemma {:induction false} OfflineIff(hasNet: bool, obs: seq<bool>)
    ensures !Watch(hasNet, obs).hasNet <==> TwoLosses(obs) || NeverSeen(hasNet, obs)
    ensures Watch(hasNet, obs).downCount ==
            if obs != [] && !obs[|obs| - 1] && Watch(hasNet, obs).hasNet then 1 else 0
  {
    if obs != [] {
      var n := |obs| - 1;
      OfflineIff(hasNet, obs[..n]);
      assert NeverSeen(hasNet, obs[..n]) && !obs[n] ==> NeverSeen(hasNet, obs);
    }
  }

  // Start-all and stop-all strictly alternate, beginning with the one the initial flag asks for.
  lemma {:induction false} CallsAlternate(hasNet: bool, obs: seq<bool>)
    ensures forall i | 0 <= i < |Calls(hasNet, obs)| ::
              Calls(hasNet, obs)[i] == if (i % 2 == 0) == hasNet then StopAll else StartAll
    ensures Watch(hasNet, obs).hasNet == (hasNet == (|Calls(hasNet, obs)| % 2 == 0))
  {
    if obs != [] {
      CallsAlternate(hasNet, obs[..|obs| - 1]);
    }
  }

  // Tunnels are stopped by an observation exactly when it is the second loss in a row seen while
  // online, so a loss with a success on either side of it never stops anything.
  lemma StopNeedsTwoLosses(hasNet: bool, obs: seq<bool>, internet: bool)
    ensures CallOf(Watch(hasNet, obs), internet) == [StopAll] <==>
            Watch(hasNet, obs).hasNet && TwoLosses(obs + [internet])
  {
    OfflineIff(hasNet, obs);
  }
}
