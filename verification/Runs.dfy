/** Finite runs of a step relation. */
module Runs {

  ghost predicate Run<S(!new)>(step: (S, S) -> bool, states: seq<S>) {
    states != [] && forall i :: 0 < i < |states| ==> step(states[i - 1], states[i])
  }

  /** Some run leads from the one state to the other. */
  ghost predicate Leads<S(!new)>(step: (S, S) -> bool, a: S, b: S) {
    exists states: seq<S> :: Run(step, states) && states[0] == a && states[|states| - 1] == b
  }

  lemma LeadsSelf<S(!new)>(step: (S, S) -> bool, a: S)
    ensures Leads(step, a, a)
  {
    assert Run(step, [a]);
  }

  lemma LeadsOn<S(!new)>(step: (S, S) -> bool, a: S, b: S, c: S)
    requires Leads(step, a, b) && step(b, c)
    ensures Leads(step, a, c)
  {
    var states: seq<S> :| Run(step, states) && states[0] == a && states[|states| - 1] == b;
    assert Run(step, states + [c]);
  }

  lemma LeadsTrans<S(!new)>(step: (S, S) -> bool, a: S, b: S, c: S)
    requires Leads(step, a, b) && Leads(step, b, c)
    ensures Leads(step, a, c)
  {
    var front: seq<S> :| Run(step, front) && front[0] == a && front[|front| - 1] == b;
    var back: seq<S> :| Run(step, back) && back[0] == b && back[|back| - 1] == c;
    var states := front + back[1..];
    forall i | 0 < i < |states| ensures step(states[i - 1], states[i]) {
      if i >= |front| {
        assert states[i] == back[i - |front| + 1] && states[i - 1] == back[i - |front|];
      }
    }
    assert Run(step, states);
  }

  /** What every step keeps, every run keeps. */
  lemma {:induction false} RunKeeps<S(!new)>(step: (S, S) -> bool, inv: S -> bool, states: seq<S>, n: nat)
    requires Run(step, states) && n < |states| && inv(states[0])
    requires forall a, b :: inv(a) && step(a, b) ==> inv(b)
    ensures inv(states[n])
  {
    if n > 0 {
      RunKeeps(step, inv, states, n - 1);
      assert step(states[n - 1], states[n]);
    }
  }

  lemma LeadsKeeps<S(!new)>(step: (S, S) -> bool, inv: S -> bool, a: S, b: S)
    requires Leads(step, a, b) && inv(a)
    requires forall x, y :: inv(x) && step(x, y) ==> inv(y)
    ensures inv(b)
  {
    var states: seq<S> :| Run(step, states) && states[0] == a && states[|states| - 1] == b;
    RunKeeps(step, inv, states, |states| - 1);
  }
}
