/** The fate of a data-plane wait that another operation's timeout has cancelled. */
module RevokedWaits {
  import opened Messages
  import opened StoreModel
  import opened Refresh
  import opened Protocol
  import opened ProtocolInvariant
  import opened ProtocolSteps
  import opened ProtocolTheorems
  import opened ProtocolProgress
  import opened ProtocolRuns
  import opened FreshNames
  import opened DataPlaneOverlap

  // The first step of a run that is operation j's own.
  function FirstOwn(actions: seq<Action>, j: nat): Option<Action> {
    if actions == [] then None
    else if Moves(actions[0], j) then Some(actions[0])
    else FirstOwn(actions[1..], j)
  }

  // Its task resumes on the cancelled future before its own timer fires.
  predicate WokenFirst(actions: seq<Action>, j: nat) {
    FirstOwn(actions, j).Some? && FirstOwn(actions, j).value.Woken?
  }

  // Operation j waits on a cancelled future.
  ghost predicate CutOff(w: World, j: nat)
    requires w.Shape()
  {
    && j < |w.operations| && w.operations[j].phase.AwaitingDataPlane?
    && w.store.futures[w.operations[j].phase.future] == Cancelled
  }

  // The wait is over and the task on its way to an outcome.
  predicate PastWaiting(p: Phase) {
    p.QueryingNotifications? || p.Delivering? || p.Finished?
  }

  lemma CutOffStays(settings: Settings, w: World, a: Action, j: nat)
    requires Inv(w) && Enabled(w, a) && CutOff(w, j) && !Moves(a, j)
    ensures CutOff(Next(settings, w, a), j)
  {
    hide Next, FuturesOk, AdoptionOk, ReportsOk, InFlightOk, OpsOkExcept;
    NextKeeps(settings, w, a);
    OtherStepLeaves(settings, w, a, j);
  }

  lemma CutOffMoves(settings: Settings, w: World, a: Action, j: nat)
    requires w.Shape() && Enabled(w, a) && CutOff(w, j) && Moves(a, j)
    ensures a.Woken? || a.Expired?
    ensures var p := Next(settings, w, a).operations[j].phase;
            if a.Woken? then p.Aborted? else p.QueryingNotifications?
  {
  }

  lemma PastStays(settings: Settings, w: World, a: Action, j: nat)
    requires w.Shape() && Enabled(w, a) && j < |w.operations| && PastWaiting(w.operations[j].phase)
    ensures j < |Next(settings, w, a).operations| && PastWaiting(Next(settings, w, a).operations[j].phase)
  {
    if Moves(a, j) {
      PastMoves(settings, w, a, j);
    } else {
      OtherStepLeaves(settings, w, a, j);
    }
  }

  lemma PastMoves(settings: Settings, w: World, a: Action, j: nat)
    requires w.Shape() && Enabled(w, a) && Moves(a, j) && PastWaiting(w.operations[j].phase)
    ensures PastWaiting(Next(settings, w, a).operations[j].phase)
  {
  }

  lemma {:induction false} PastForGood(settings: Settings, w: World, rest: seq<Action>, j: nat)
    requires w.Shape() && Runs(settings, w, rest) && j < |w.operations| && PastWaiting(w.operations[j].phase)
    ensures j < |Exec(settings, w, rest).operations| && PastWaiting(Exec(settings, w, rest).operations[j].phase)
    decreases |rest|
  {
    hide Next, PastWaiting;
    if rest != [] {
      PastStays(settings, w, rest[0], j);
      PastForGood(settings, Next(settings, w, rest[0]), rest[1..], j);
    }
  }

  // What becomes of operation j in a continuation: nothing before its own first step, and then either
  // it is aborted for ever, or it never is.
  ghost predicate Fate(w': World, rest: seq<Action>, j: nat)
    requires w'.Shape()
  {
    && j < |w'.operations|
    && (FirstOwn(rest, j).None? ==> CutOff(w', j))
    && (FirstOwn(rest, j).Some? ==>
          if FirstOwn(rest, j).value.Woken? then w'.operations[j].phase.Aborted?
          else FirstOwn(rest, j).value.Expired? && PastWaiting(w'.operations[j].phase))
  }

  lemma {:induction false} CutOffFate(settings: Settings, w: World, rest: seq<Action>, j: nat)
    requires Inv(w) && CutOff(w, j) && Runs(settings, w, rest)
    ensures Fate(Exec(settings, w, rest), rest, j)
    decreases |rest|
  {
    hide Next, FuturesOk, AdoptionOk, ReportsOk, InFlightOk, OpsOkExcept;
    if rest != [] {
      var a, next := rest[0], Next(settings, w, rest[0]);
      if Moves(a, j) {
        CutOffMoves(settings, w, a, j);
        OwnStepTouchesOne(settings, w, a, j);
        if a.Woken? {
          EndedForGood(settings, next, rest[1..], j);
        } else {
          PastForGood(settings, next, rest[1..], j);
        }
      } else {
        CutOffStays(settings, w, a, j);
        NextKeeps(settings, w, a);
        CutOffFate(settings, next, rest[1..], j);
      }
    }
  }

  lemma RevokedIsCutOff(w: World, i: nat)
    requires Inv(w) && WaitersOk(w) && i < |w.operations| && w.operations[i].phase.AwaitingDataPlane?
    requires Victim(w, i).Some?
    ensures Inv(Expire(w, i)) && CutOff(Expire(w, i), Victim(w, i).value)
  {
    hide FuturesOk, AdoptionOk, ReportsOk, InFlightOk, OpsOkExcept, Expire;
    TimeoutRevokesOnlyOverlaps(w, i);
    ExpireKeeps(w, i);
  }

  lemma BothStepsPossible(w: World, j: nat, id: string)
    requires w.Shape() && CutOff(w, j)
    ensures Enabled(w, Expired(j)) && (id !in w.issued ==> Enabled(w, Woken(j, NoFault, id, true)))
  {
  }

  lemma FateDecides(settings: Settings, w: World, rest: seq<Action>, j: nat)
    requires Inv(w) && Runs(settings, w, rest) && Fate(Exec(settings, w, rest), rest, j)
    ensures var w' := Exec(settings, w, rest);
      && (w'.operations[j].phase.Aborted? <==> WokenFirst(rest, j))
      && (WokenFirst(rest, j) ==> Reports(w'.history, j) == [])
  {
    hide Next, FuturesOk, AdoptionOk, ReportsOk, InFlightOk, OpsOkExcept;
    RunsKeep(settings, w, rest);
    if WokenFirst(rest, j) {
      AbortedHasNone(Exec(settings, w, rest), j);
    }
  }

  // After a timeout has revoked operation j's wait, in every continuation: j is aborted, without an
  // outcome and for ever, iff its first own step is its wake-up. If it is its own timeout instead, j
  // goes on to an outcome as if nothing had happened. Both steps are possible at once.
  lemma RevokedWaitFate(settings: Settings, w: World, i: nat, rest: seq<Action>, id: string)
    requires Inv(w) && WaitersOk(w) && i < |w.operations| && w.operations[i].phase.AwaitingDataPlane?
    requires Victim(w, i).Some? && Runs(settings, Expire(w, i), rest)
    ensures var j, w' := Victim(w, i).value, Exec(settings, Expire(w, i), rest);
      && Fate(w', rest, j)
      && (w'.operations[j].phase.Aborted? <==> WokenFirst(rest, j))
      && (WokenFirst(rest, j) ==> Reports(w'.history, j) == [])
    ensures var j, w1 := Victim(w, i).value, Expire(w, i);
      Enabled(w1, Expired(j)) && (id !in w1.issued ==> Enabled(w1, Woken(j, NoFault, id, true)))
  {
    hide FuturesOk, AdoptionOk, ReportsOk, InFlightOk, OpsOkExcept, Expire, Next, Enabled, Fate, CutOff, WaiterOk;
    var j, w1 := Victim(w, i).value, Expire(w, i);
    RevokedIsCutOff(w, i);
    CutOffFate(settings, w1, rest, j);
    FateDecides(settings, w1, rest, j);
    BothStepsPossible(w1, j, id);
  }

  lemma AbortedHasNone(w: World, j: nat)
    requires Inv(w) && j < |w.operations| && w.operations[j].phase.Aborted?
    ensures Reports(w.history, j) == []
  {
    assert OpOk(w, j);
  }

  // ---------------------------------------------------------------- exactly when a task ends unreported

  ghost predicate Revokes(w: World, a: Action, j: nat)
    requires w.Shape() && Enabled(w, a)
  {
    a.Expired? && w.operations[a.op].phase.AwaitingDataPlane? && Victim(w, a.op) == Some(j)
  }

  // Somewhere in the run a timeout revokes j's wait, and the next own step of j is its wake-up.
  ghost predicate RevokedThenWoken(settings: Settings, w: World, actions: seq<Action>, j: nat)
    requires w.Shape() && Runs(settings, w, actions)
    decreases |actions|
  {
    actions != [] &&
      ((Revokes(w, actions[0], j) && WokenFirst(actions[1..], j))
        || RevokedThenWoken(settings, Next(settings, w, actions[0]), actions[1..], j))
  }

  lemma RevokedOnlyBy(settings: Settings, w: World, a: Action, j: nat)
    requires w.Shape() && Enabled(w, a) && !WasRevoked(w.history, j) && !Revokes(w, a, j)
    ensures !WasRevoked(Next(settings, w, a).history, j)
  {
    hide Next;
    var w' := Next(settings, w, a);
    if a.Expired? {
      ExpireIsNext(settings, w, a);
      ExpireHistory(w, a.op);
    } else if MovesNone(a) {
      RequestOrdinary(settings, w, a);
    } else {
      OwnStepOrdinary(settings, w, a);
    }
    forall p | 0 <= p < |w'.history| && w'.history[p].Revoked? && w'.history[p].victim == j
      ensures w'.history[p].expired == j
    {
      if p < |w.history| { assert w'.history[p] == w.history[p]; }
    }
  }

  lemma ExpireIsNext(settings: Settings, w: World, a: Action)
    requires w.Shape() && Enabled(w, a) && a.Expired?
    ensures Next(settings, w, a) == Expire(w, a.op)
  {
  }

  lemma {:induction false} AbortedIff(settings: Settings, w: World, actions: seq<Action>, j: nat)
    requires Inv(w) && WaitersOk(w) && !WasRevoked(w.history, j) && Runs(settings, w, actions)
    ensures var w' := Exec(settings, w, actions);
            (j < |w'.operations| && w'.operations[j].phase.Aborted?) <==> RevokedThenWoken(settings, w, actions, j)
    decreases |actions|
  {
    hide Next, FuturesOk, AdoptionOk, ReportsOk, InFlightOk, WaiterOk, HeardOk, FutureMine;
    if actions == [] {
      if j < |w.operations| { assert OpOk(w, j); }
    } else {
      var a, next, rest := actions[0], Next(settings, w, actions[0]), actions[1..];
      NextKeeps(settings, w, a);
      WaitersKept(settings, w, a);
      if Revokes(w, a, j) {
        ExpireIsNext(settings, w, a);
        RevokedIsCutOff(w, a.op);
        CutOffFate(settings, next, rest, j);
        if RevokedThenWoken(settings, next, rest, j) { LaterRevocationsAbort(settings, next, rest, j); }
      } else {
        RevokedOnlyBy(settings, w, a, j);
        AbortedIff(settings, next, rest, j);
      }
    }
  }

  lemma {:induction false} LaterRevocationsAbort(settings: Settings, w: World, actions: seq<Action>, j: nat)
    requires Inv(w) && WaitersOk(w) && Runs(settings, w, actions) && RevokedThenWoken(settings, w, actions, j)
    ensures var w' := Exec(settings, w, actions); j < |w'.operations| && w'.operations[j].phase.Aborted?
    decreases |actions|
  {
    hide Next, FuturesOk, AdoptionOk, ReportsOk, InFlightOk, OpsOkExcept, WaiterOk;
    var a, next, rest := actions[0], Next(settings, w, actions[0]), actions[1..];
    NextKeeps(settings, w, a);
    WaitersKept(settings, w, a);
    if Revokes(w, a, j) && WokenFirst(rest, j) {
      ExpireIsNext(settings, w, a);
      RevokedIsCutOff(w, a.op);
      CutOffFate(settings, next, rest, j);
    } else {
      LaterRevocationsAbort(settings, next, rest, j);
    }
  }

  // Over every run: a task ends without having reported exactly if another operation's timeout revoked
  // its data-plane wait and its task woke before its own timer fired. Any other that ends has reported
  // exactly once.
  lemma UnreportedIffRevokedThenWoken(settings: Settings, actions: seq<Action>, j: nat)
    requires Runs(settings, INIT, actions) && j < |Exec(settings, INIT, actions).operations|
    ensures var w' := Exec(settings, INIT, actions);
      && (Ended(w'.operations[j].phase) && Reports(w'.history, j) == []
          <==> RevokedThenWoken(settings, INIT, actions, j))
      && (Ended(w'.operations[j].phase) && Reports(w'.history, j) != [] ==> |Reports(w'.history, j)| == 1)
  {
    hide Next, Base, OpsOkExcept;
    InitInv();
    AbortedIff(settings, INIT, actions, j);
    OneOutcomePerTask(settings, actions, j);
  }

  ghost predicate EndsAborted(settings: Settings, actions: seq<Action>, j: nat) {
    && Runs(settings, INIT, actions)
    && j < |Exec(settings, INIT, actions).operations| && Exec(settings, INIT, actions).operations[j].phase.Aborted?
  }

  // Such a run exists: overlapping waits, the first one's timeout, and the second one's wake-up.
  lemma AbortIsReachable(settings: Settings, provisionable: Answer, releasable: Answer, url: string)
    requires settings.dataplaneTimeout > 0 && provisionable.Resolved? && releasable.Resolved?
    requires provisionable.qr.connectionId == releasable.qr.connectionId
    requires provisionable.Derived(settings).status == RESERVED && releasable.Derived(settings).status == ACTIVATED
    ensures exists actions :: EndsAborted(settings, actions, 1)
  {
    OverlapIsReachable(settings, provisionable, releasable, url);
    var actions :| EndsInOverlap(settings, actions);
    OverlapCanAbort(settings, actions);
  }

  lemma OverlapCanAbort(settings: Settings, actions: seq<Action>)
    requires EndsInOverlap(settings, actions)
    ensures exists more :: EndsAborted(settings, more, 1)
  {
    hide Next, Enabled, FuturesOk, AdoptionOk, ReportsOk, InFlightOk, OpsOkExcept, WaiterOk, Expire;
    var w := Exec(settings, INIT, actions);
    InitInv();
    RunsKeep(settings, INIT, actions);
    var id := FreshId(Expire(w, 0).issued);
    var w2 := RevokeAndWake(settings, w, id);
    RunLeads(settings, INIT, actions);
    LeadsOn(settings, INIT, actions, w, [Expired(0)] + [Woken(1, NoFault, id, true)], w2);
    LeadsIsRun(settings, INIT, actions + ([Expired(0)] + [Woken(1, NoFault, id, true)]), w2);
    assert EndsAborted(settings, actions + ([Expired(0)] + [Woken(1, NoFault, id, true)]), 1);
  }

  lemma RevokeAndWake(settings: Settings, w: World, id: string) returns (w2: World)
    requires Inv(w) && WaitersOk(w) && Overlap(w, 0, 1) && Victim(w, 0) == Some(1) && id !in Expire(w, 0).issued
    ensures LeadsTo(settings, w, [Expired(0)] + [Woken(1, NoFault, id, true)], w2)
    ensures |w2.operations| > 1 && w2.operations[1].phase.Aborted?
  {
    hide FuturesOk, AdoptionOk, ReportsOk, InFlightOk, OpsOkExcept, WaiterOk, Expire;
    var a, b := Expired(0), Woken(1, NoFault, id, true);
    var w1 := Expire(w, 0);
    RevokedIsCutOff(w, 0);
    StepLeads(settings, w, a);
    w2 := Next(settings, w1, b);
    StepLeads(settings, w1, b);
    CutOffMoves(settings, w1, b, 1);
    OwnStepTouchesOne(settings, w1, b, 1);
    LeadsOn(settings, w, [a], w1, [b], w2);
  }
}
