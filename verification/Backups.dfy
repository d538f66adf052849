/** startPriority3: backups are launched two at a time until one of a batch connects. */
module Backups {
  import opened Model

  function Clip(i: int, n: nat): nat {
    if i < 0 then 0 else if i <= n then i else n
  }

  // The batch that starts at offset i.
  function Batch(standby: seq<Id>, i: nat): seq<Id>
    requires i <= |standby|
  {
    standby[i..Clip(i + 2, |standby|)]
  }

  function Upto(standby: seq<Id>, i: nat): seq<Id> {
    standby[..Clip(i, |standby|)]
  }

  // The ids still in the map when their batch comes up, in order.
  function Present(ids: seq<Id>, present: Id -> bool): seq<Id> {
    if ids == [] then []
    else Present(ids[..|ids| - 1], present) + (if present(ids[|ids| - 1]) then [ids[|ids| - 1]] else [])
  }

  lemma {:induction false} PresentConcat(xs: seq<Id>, ys: seq<Id>, present: Id -> bool)
    ensures Present(xs + ys, present) == Present(xs, present) + Present(ys, present)
    decreases |ys|
  {
    if ys == [] {
      assert xs + ys == xs;
    } else {
      var n := |ys| - 1;
      assert (xs + ys)[..|xs + ys| - 1] == xs + ys[..n];
      PresentConcat(xs, ys[..n], present);
    }
  }

  predicate Distinct(ids: seq<Id>) {
    forall i, j | 0 <= i < j < |ids| :: ids[i] != ids[j]
  }

  lemma {:induction false} PresentDistinct(ids: seq<Id>, present: Id -> bool)
    requires Distinct(ids)
    ensures Distinct(Present(ids, present))
    ensures forall id :: id in Present(ids, present) <==> id in ids && present(id)
  {
    if ids != [] {
      var n := |ids| - 1;
      PresentDistinct(ids[..n], present);
      assert ids[n] !in ids[..n];
      assert ids == ids[..n] + [ids[n]];
    }
  }

  // Some id of a batch is up when the batch is checked, b being the batch's number.
  predicate Connects(ids: seq<Id>, b: nat, connected: (nat, Id) -> bool) {
    exists id <- ids :: connected(b, id)
  }

  // No id of the first n batches was up when its batch was checked.
  predicate Unconnected(standby: seq<Id>, n: nat, connected: (nat, Id) -> bool) {
    n == 0
    || (&& Unconnected(standby, n - 1, connected)
        && (2 * n - 2 <= |standby| ==> !Connects(Batch(standby, 2 * n - 2), n - 1, connected)))
  }

  // The inner loop: a batch is launched id by id, skipping those no longer in the map.
  method LaunchBatch(batch: seq<Id>, present: Id -> bool) returns (started: seq<Id>)
    ensures started == Present(batch, present)
  {
    started := [];
    for j := 0 to |batch|
      invariant started == Present(batch[..j], present)
    {
      assert batch[..j + 1][..j] == batch[..j];
      if present(batch[j]) {
        started := started + [batch[j]];
      }
    }
    assert batch[..|batch|] == batch;
  }

  method NextBatch(standby: seq<Id>, i: nat) returns (batch: seq<Id>)
    requires i < |standby|
    ensures batch == Batch(standby, i)
  {
    batch := standby[i..];
    if |batch| > 2 {
      batch := batch[..2];
    }
  }

  lemma UptoNext(standby: seq<Id>, i: nat, present: Id -> bool)
    requires i < |standby|
    ensures Present(Upto(standby, i + 2), present)
            == Present(Upto(standby, i), present) + Present(Batch(standby, i), present)
  {
    assert Upto(standby, i) + Batch(standby, i) == Upto(standby, i + 2);
    PresentConcat(Upto(standby, i), Batch(standby, i), present);
  }

  lemma UptoEnds(standby: seq<Id>, i: nat, present: Id -> bool)
    ensures Present(Upto(standby, 0), present) == []
    ensures i >= |standby| ==> Upto(standby, i) == standby
  {
  }

  lemma UptoDistinct(standby: seq<Id>, i: nat, present: Id -> bool)
    requires Distinct(standby)
    ensures Distinct(Present(Upto(standby, i), present))
  {
    PresentDistinct(Upto(standby, i), present);
  }

  lemma NoneLaunched(standby: seq<Id>, connected: (nat, Id) -> bool)
    ensures Unconnected(standby, 0, connected)
  {
  }

  lemma UnconnectedNext(standby: seq<Id>, n: nat, connected: (nat, Id) -> bool)
    requires 2 * n <= |standby|
    requires Unconnected(standby, n, connected)
    requires !Connects(Batch(standby, 2 * n), n, connected)
    ensures Unconnected(standby, n + 1, connected)
  {
  }

  // The ids of batch b are those at 2b and 2b + 1.
  lemma ConnectsMeans(standby: seq<Id>, b: nat, connected: (nat, Id) -> bool)
    requires 2 * b <= |standby|
    ensures Connects(Batch(standby, 2 * b), b, connected) <==>
            exists j | 0 <= j < |standby| :: j / 2 == b && connected(b, standby[j])
  {
    var ids := Batch(standby, 2 * b);
    assert forall k | 0 <= k < |ids| :: ids[k] == standby[2 * b + k] && (2 * b + k) / 2 == b;
    if j :| 0 <= j < |standby| && j / 2 == b && connected(b, standby[j]) {
      assert ids[j - 2 * b] == standby[j];
    }
  }

  lemma {:induction false} UnconnectedMeans(standby: seq<Id>, n: nat, connected: (nat, Id) -> bool)
    requires Unconnected(standby, n, connected)
    ensures forall j | 0 <= j < |standby| && j / 2 < n :: !connected(j / 2, standby[j])
  {
    if n > 0 {
      UnconnectedMeans(standby, n - 1, connected);
      if 2 * n - 2 <= |standby| {
        ConnectsMeans(standby, n - 1, connected);
      }
    }
  }

  /** The loop of startPriority3. `standby` lists the candidates in map order; `present` and
      `connected` are what the lookups find when a batch is launched and ten seconds later. */
  method Launch(standby: seq<Id>, present: Id -> bool, connected: (nat, Id) -> bool)
    returns (launched: seq<Id>, batches: nat, up: bool)
    requires Distinct(standby)
    ensures batches <= (|standby| + 1) / 2
    ensures launched == Present(Upto(standby, 2 * batches), present)
    ensures Distinct(launched)
    ensures up ==> 0 < batches && Connects(Batch(standby, 2 * (batches - 1)), batches - 1, connected)
    ensures Unconnected(standby, if up then batches - 1 else batches, connected)
    ensures !up ==> Upto(standby, 2 * batches) == standby
    ensures forall j | 0 <= j < |standby| && j / 2 < (if up then batches - 1 else batches) ::
              !connected(j / 2, standby[j])
    ensures up ==> exists j | 0 <= j < |standby| :: j / 2 == batches - 1 && connected(batches - 1, standby[j])
  {
    hide *;
    launched, batches, up := [], 0, false;
    var i: nat := 0;
    UptoEnds(standby, 0, present);
    NoneLaunched(standby, connected);
    while i < |standby|
      invariant !up && i == 2 * batches <= |standby| + 1
      invariant launched == Present(Upto(standby, i), present)
      invariant Unconnected(standby, batches, connected)
      decreases |standby| - i
    {
      var batch := NextBatch(standby, i);
      var started := LaunchBatch(batch, present);
      UptoNext(standby, i, present);
      launched := launched + started;
      batches := batches + 1;
      up := Connects(batch, batches - 1, connected);
      if up {
        break;
      }
      UnconnectedNext(standby, batches - 1, connected);
      i := i + 2;
    }
    UptoEnds(standby, 2 * batches, present);
    UptoDistinct(standby, 2 * batches, present);
    UnconnectedMeans(standby, if up then batches - 1 else batches, connected);
    if up {
      ConnectsMeans(standby, batches - 1, connected);
    }
  }
}
