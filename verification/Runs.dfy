/** Runs put together and taken apart. */
module Runs {
  import opened RingModel

  ghost predicate RunsFrom(s: State, acts: seq<Action>, s': State) {
    Run(s, acts) && After(s, acts) == s'
  }

  /** A run of which nothing is assumed: every step is one that the code can take. */
  ghost predicate FreeRun(s: State, acts: seq<Action>)
    decreases |acts|
  {
    acts == [] || (Enabled(s, acts[0]) && FreeRun(Apply(s, acts[0]), acts[1..]))
  }

  ghost function FreeAfter(s: State, acts: seq<Action>): State
    requires FreeRun(s, acts)
    decreases |acts|
  {
    if acts == [] then s else FreeAfter(Apply(s, acts[0]), acts[1..])
  }

  lemma {:induction false} FreeExtend(s: State, acts: seq<Action>, a: Action)
    requires FreeRun(s, acts) && Enabled(FreeAfter(s, acts), a)
    ensures FreeRun(s, acts + [a]) && FreeAfter(s, acts + [a]) == Apply(FreeAfter(s, acts), a)
    decreases |acts|
  {
    hide Enabled, Apply;
    if acts == [] {
      assert acts + [a] == [a];
      assert [a][1..] == [];
    } else {
      assert (acts + [a])[1..] == acts[1..] + [a];
      FreeExtend(Apply(s, acts[0]), acts[1..], a);
    }
  }

  /** A run that meets its assumptions is a run. */
  lemma {:induction false} RunIsFree(s: State, acts: seq<Action>)
    requires Run(s, acts)
    ensures FreeRun(s, acts) && FreeAfter(s, acts) == After(s, acts)
    decreases |acts|
  {
    hide Enabled, Assumed, Apply;
    if acts != [] { RunIsFree(Apply(s, acts[0]), acts[1..]); }
  }

  lemma NoRun(s: State)
    ensures RunsFrom(s, [], s)
  {
  }

  lemma RunOne(s: State, a: Action)
    requires Enabled(s, a) && Assumed(s, a)
    ensures RunsFrom(s, [a], Apply(s, a))
  {
    hide Enabled, Assumed, Apply;
    var acts := [a];
    assert acts[1..] == [];
    assert Run(s, acts);
    assert After(s, acts) == After(Apply(s, a), []);
  }

  lemma RunCons(s: State, a: Action, acts: seq<Action>)
    requires Run(s, [a] + acts)
    ensures Enabled(s, a) && Assumed(s, a) && Run(Apply(s, a), acts)
    ensures After(s, [a] + acts) == After(Apply(s, a), acts)
  {
    hide Enabled, Assumed, Apply;
    assert ([a] + acts)[1..] == acts;
  }

  lemma {:induction false} RunAppend(s: State, a: seq<Action>, s1: State, b: seq<Action>, s2: State)
    requires RunsFrom(s, a, s1) && RunsFrom(s1, b, s2)
    ensures RunsFrom(s, a + b, s2)
    decreases |a|
  {
    hide Enabled, Assumed, Apply;
    if a == [] {
      assert a + b == b;
    } else {
      RunAppend(Apply(s, a[0]), a[1..], s1, b, s2);
      assert (a + b)[1..] == a[1..] + b;
    }
  }

  lemma {:induction false} RunParts(s: State, a: seq<Action>, b: seq<Action>)
    requires Run(s, a + b)
    ensures Run(s, a) && Run(After(s, a), b) && After(After(s, a), b) == After(s, a + b)
    decreases |a|
  {
    hide Enabled, Assumed, Apply;
    if a == [] {
      assert a + b == b;
    } else {
      assert (a + b)[1..] == a[1..] + b;
      RunParts(Apply(s, a[0]), a[1..], b);
    }
  }

  lemma ExtendRun(s: State, acts: seq<Action>, s1: State, a: Action)
    requires RunsFrom(s, acts, s1) && Enabled(s1, a) && Assumed(s1, a)
    ensures RunsFrom(s, acts + [a], Apply(s1, a))
  {
    hide Enabled, Assumed, Apply, Run, After;
    RunOne(s1, a);
    RunAppend(s, acts, s1, [a], Apply(s1, a));
  }
}
