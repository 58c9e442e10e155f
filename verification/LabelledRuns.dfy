/** Runs of any deterministic labelled system: doing one run after another is a run. */
module LabelledRuns {

  ghost predicate Possible<S(!new), A(!new)>(ok: (S, A) -> bool, step: (S, A) -> S, s: S, actions: seq<A>)
    decreases |actions|
  {
    actions != [] ==> ok(s, actions[0]) && Possible(ok, step, step(s, actions[0]), actions[1..])
  }

  ghost function After<S(!new), A(!new)>(step: (S, A) -> S, s: S, actions: seq<A>): S
    decreases |actions|
  {
    if actions == [] then s else After(step, step(s, actions[0]), actions[1..])
  }

  lemma {:induction false} Concat<S(!new), A(!new)>(ok: (S, A) -> bool, step: (S, A) -> S, s: S,
                                                    first: seq<A>, second: seq<A>)
    requires Possible(ok, step, s, first) && Possible(ok, step, After(step, s, first), second)
    ensures Possible(ok, step, s, first + second)
    ensures After(step, s, first + second) == After(step, After(step, s, first), second)
    decreases |first|
  {
    if first == [] {
      assert first + second == second;
    } else {
      Concat(ok, step, step(s, first[0]), first[1..], second);
      assert (first + second)[1..] == first[1..] + second;
    }
  }
}
