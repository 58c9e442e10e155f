/** Runs of the protocol put together from pieces. */
module ProtocolRuns {
  import opened Refresh
  import opened Protocol
  import LabelledRuns

  ghost function Allows(): (World, Action) -> bool {
    (w: World, a: Action) => w.Shape() && Enabled(w, a)
  }

  ghost function Stepper(settings: Settings): (World, Action) -> World {
    (w: World, a: Action) => if w.Shape() && Enabled(w, a) then Next(settings, w, a) else w
  }

  // A run from w that ends in w'.
  ghost predicate LeadsTo(settings: Settings, w: World, actions: seq<Action>, w': World) {
    && w.Shape() && w'.Shape()
    && LabelledRuns.Possible(Allows(), Stepper(settings), w, actions)
    && LabelledRuns.After(Stepper(settings), w, actions) == w'
  }

  lemma {:induction false} LeadsIsRun(settings: Settings, w: World, actions: seq<Action>, w': World)
    requires LeadsTo(settings, w, actions, w')
    ensures Runs(settings, w, actions) && Exec(settings, w, actions) == w'
    decreases |actions|
  {
    if actions != [] {
      LeadsIsRun(settings, Next(settings, w, actions[0]), actions[1..], w');
    }
  }

  lemma StepLeads(settings: Settings, w: World, a: Action)
    requires w.Shape() && Enabled(w, a)
    ensures LeadsTo(settings, w, [a], Next(settings, w, a))
  {
    var w' := Stepper(settings)(w, a);
    assert [a][1..] == [];
    assert LabelledRuns.Possible(Allows(), Stepper(settings), w', []);
    assert LabelledRuns.After(Stepper(settings), w', []) == w';
  }

  lemma LeadsOn(settings: Settings, w: World, first: seq<Action>, mid: World, second: seq<Action>, w': World)
    requires LeadsTo(settings, w, first, mid) && LeadsTo(settings, mid, second, w')
    ensures LeadsTo(settings, w, first + second, w')
  {
    LabelledRuns.Concat(Allows(), Stepper(settings), w, first, second);
  }

  lemma {:induction false} RunLeads(settings: Settings, w: World, actions: seq<Action>)
    requires w.Shape() && Runs(settings, w, actions)
    ensures LeadsTo(settings, w, actions, Exec(settings, w, actions))
    decreases |actions|
  {
    if actions != [] {
      RunLeads(settings, Next(settings, w, actions[0]), actions[1..]);
    }
  }
}
