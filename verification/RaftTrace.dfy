/** Building runs of a cluster one step at a time, for the lemmas that exhibit one. */
module RaftTrace {
  import opened RaftCluster

  /** A run in progress. */
  datatype Trace = Trace(states: seq<Cluster>, actions: seq<Action>)

  ghost predicate IsTrace(n: nat, t: Trace) {
    t.states != [] && IsRun(n, t.states, t.actions)
  }

  function Now(t: Trace): Cluster
    requires t.states != []
  {
    t.states[|t.states| - 1]
  }

  function Then(t: Trace, a: Action): Trace
    requires t.states != [] && Shaped(Now(t)) && Enabled(Now(t), a)
  {
    Trace(t.states + [Effect(Now(t), a)], t.actions + [a])
  }

  lemma ThenIsTrace(n: nat, t: Trace, a: Action)
    requires IsTrace(n, t) && Shaped(Now(t)) && Enabled(Now(t), a)
    ensures IsTrace(n, Then(t, a)) && Now(Then(t, a)) == Effect(Now(t), a) && Shaped(Now(Then(t, a)))
  {
    hide Effect, Enabled, Shaped, Init;
    var t' := Then(t, a);
    forall k | 0 <= k < |t'.actions|
      ensures IsStep(t'.states[k], t'.actions[k], t'.states[k + 1])
    {
      if k < |t.actions| {
        assert IsStep(t.states[k], t.actions[k], t.states[k + 1]);
      }
    }
  }
}
