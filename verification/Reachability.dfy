/** Worlds that runs without a cancellation lead to, and how such runs are put together. */
module Reachability {
  import opened Model
  import opened Protocol
  import opened MigrationRuns

  // A client as it is just after it has started.
  const UP: Client := Client("tun", true)

  // Some run without a cancellation leads from one world to the other.
  ghost predicate Reaches(w: World, w': World) {
    exists ls: seq<Label> :: CancelFree(ls) && CanRun(w, ls) && Run(w, ls) == w'
  }

  lemma {:induction false} RunConcat(w: World, xs: seq<Label>, ys: seq<Label>)
    requires CanRun(w, xs) && CanRun(Run(w, xs), ys)
    ensures CanRun(w, xs + ys) && Run(w, xs + ys) == Run(Run(w, xs), ys)
    decreases |xs|
  {
    hide Step, CanStep;
    if xs == [] {
      assert xs + ys == ys;
    } else {
      RunConcat(Step(w, xs[0]), xs[1..], ys);
      RunCons(w, xs[0], xs[1..] + ys);
      assert xs + ys == [xs[0]] + (xs[1..] + ys);
    }
  }

  lemma ReachesSelf(w: World)
    ensures Reaches(w, w)
  {
    assert CancelFree([]) && CanRun(w, []) && Run(w, []) == w;
  }

  lemma Chain(w: World, w1: World, w2: World)
    requires Reaches(w, w1) && Reaches(w1, w2)
    ensures Reaches(w, w2)
  {
    hide Step, CanStep;
    var xs :| CancelFree(xs) && CanRun(w, xs) && Run(w, xs) == w1;
    var ys :| CancelFree(ys) && CanRun(w1, ys) && Run(w1, ys) == w2;
    RunConcat(w, xs, ys);
    assert CancelFree(xs + ys);
  }

  // One more step of a run under way.
  lemma Then(w: World, w1: World, l: Label)
    requires Reaches(w, w1) && CanStep(w1, l) && !l.Cancel?
    ensures Reaches(w, Step(w1, l))
  {
    hide Step, CanStep;
    assert CanRun(Step(w1, l), []);
    RunCons(w1, l, []);
    assert [l] + [] == [l];
    assert CancelFree([l]);
    Chain(w, w1, Step(w1, l));
  }
}
