/** What every run of the protocol guarantees: one outcome per task, successes that are earned, replies
    that reach their waiter and nobody else, and where these guarantees stop. */
module ProtocolTheorems {
  import opened Messages
  import opened StateMapping
  import opened StoreModel
  import opened ExceptionTrees
  import opened Refresh
  import opened Protocol
  import opened ProtocolInvariant
  import opened ProtocolSteps

  // ---------------------------------------------------------------- one outcome per task

  // The statuses a task may end in.
  predicate MayEndIn(kind: Kind, status: ReservationStatus) {
    match kind
    case Reserve => status == RESERVED || status == FAILED
    case Provision => status == ACTIVATED || status == FAILED
    case Release => status == RESERVED || status == FAILED
    case Terminate => status == TERMINATED
  }

  // Outcome o is the final write of operation i: a status it may end in, and one callback that carries
  // this status to the URL most recently adopted when the write was made.
  ghost predicate IsOutcome(w: World, i: nat, o: Outcome)
    requires i < |w.operations|
  {
    var op := w.operations[i];
    && MayEndIn(op.kind, o.status)
    && o.payload.status == o.status && o.payload.connectionId == op.connectionId
    && o.at < |w.history| && w.history[o.at] == Reported(i, o)
    && o.url == LastAdopted(w.history[..o.at], op.connectionId)
    && (o.status == FAILED ==> o.payload.lastError.Some?)
    && (o.status == RESERVED || o.status == ACTIVATED ==> o.payload.lastError.None?)
  }

  // A task that has settled has exactly one outcome; any other has none, and only a data-plane wait
  // that another operation revoked can end that way.
  ghost predicate OutcomeRecord(w: World, i: nat)
    requires i < |w.operations|
  {
    var op, reports := w.operations[i], Reports(w.history, i);
    && (op.phase.Delivering? || op.phase.Finished? ==> |reports| == 1 && IsOutcome(w, i, reports[0]))
    && (!op.phase.Delivering? && !op.phase.Finished? ==> reports == [])
    && (op.phase.Aborted? ==> WasRevoked(w.history, i) && (op.kind == Provision || op.kind == Release))
  }

  lemma OneOutcomePerTask(settings: Settings, actions: seq<Action>, i: nat)
    requires Runs(settings, INIT, actions) && i < |Exec(settings, INIT, actions).operations|
    ensures OutcomeRecord(Exec(settings, INIT, actions), i)
  {
    InitInv();
    RunsKeep(settings, INIT, actions);
    OutcomeOf(Exec(settings, INIT, actions), i);
    OutcomeRecorded(Exec(settings, INIT, actions), i);
  }

  lemma OutcomeRecorded(w: World, i: nat)
    requires i < |w.operations| && OpOk(w, i)
    requires Reports(w.history, i) == if w.operations[i].outcome.Some? then [w.operations[i].outcome.value] else []
    ensures OutcomeRecord(w, i)
  {
  }

  lemma OutcomeOf(w: World, i: nat)
    requires Inv(w) && i < |w.operations|
    ensures OpOk(w, i)
    ensures Reports(w.history, i) == if w.operations[i].outcome.Some? then [w.operations[i].outcome.value] else []
  {
    assert OpOk(w, i);
  }

  // ---------------------------------------------------------------- success is earned

  ghost predicate WasHeard(w: World, h: Hearing)
    requires h.at < |w.history|
  {
    w.history[h.at].Delivered? && w.history[h.at].message == h.message
  }

  predicate ConcernsConnection(m: NsiMessage, connectionId: string) {
    (m.DataPlaneStateChange? || m.ErrorEvent?) && m.connectionId == connectionId
  }

  // The task's first message came under its own correlation id; every later one is a notification for its
  // connection, delivered afterwards, in order. All but the last report the data plane in the other
  // state, none is an error event, and the last reports it up, or down, as the task waited for.
  ghost predicate WaitEarned(w: World, i: nat, o: Outcome, up: bool)
    requires i < |w.operations|
  {
    var op := w.operations[i];
    var n := |op.heard|;
    && n >= 2
    && op.heard[n - 1].at < o.at <= |w.history|
    && (forall j, k :: 0 <= j < k < n ==> op.heard[j].at < op.heard[k].at)
    && (forall k :: 0 <= k < n ==> op.heard[k].at < |w.history| && WasHeard(w, op.heard[k]))
    && w.history[op.heard[0].at].correlationId == op.correlationId
    && (forall k :: 1 <= k < n ==> ConcernsConnection(op.heard[k].message, op.connectionId))
    && (forall k :: 1 <= k < n - 1 ==>
          op.heard[k].message.DataPlaneStateChange? && op.heard[k].message.active != up)
    && op.heard[n - 1].message.DataPlaneStateChange? && op.heard[n - 1].message.active == up
  }

  // A provision ends ACTIVATED only after ProvisionConfirmed and then a report that the data plane is up;
  // a release ends RESERVED only after ReleaseConfirmed and then a report that it is down. Else they fail.
  lemma DataPlaneSuccessIsEarned(settings: Settings, actions: seq<Action>, i: nat, o: Outcome)
    requires Runs(settings, INIT, actions) && i < |Exec(settings, INIT, actions).operations|
    requires o in Reports(Exec(settings, INIT, actions).history, i)
    ensures var w := Exec(settings, INIT, actions); var op := w.operations[i];
      && (op.kind == Provision ==>
            && (o.status == ACTIVATED || o.status == FAILED)
            && (o.status == ACTIVATED ==> WaitEarned(w, i, o, true) && op.heard[0].message.ProvisionConfirmed?))
      && (op.kind == Release ==>
            && (o.status == RESERVED || o.status == FAILED)
            && (o.status == RESERVED ==> WaitEarned(w, i, o, false) && op.heard[0].message.ReleaseConfirmed?))
  {
    InitInv();
    RunsKeep(settings, INIT, actions);
    OutcomeOf(Exec(settings, INIT, actions), i);
    WaitEarnedFrom(Exec(settings, INIT, actions), i, o);
  }

  lemma WaitEarnedFrom(w: World, i: nat, o: Outcome)
    requires i < |w.operations| && OpOk(w, i) && w.operations[i].outcome == Some(o)
    ensures var op := w.operations[i];
      && (op.kind == Provision ==>
            && (o.status == ACTIVATED || o.status == FAILED)
            && (o.status == ACTIVATED ==> WaitEarned(w, i, o, true) && op.heard[0].message.ProvisionConfirmed?))
      && (op.kind == Release ==>
            && (o.status == RESERVED || o.status == FAILED)
            && (o.status == RESERVED ==> WaitEarned(w, i, o, false) && op.heard[0].message.ReleaseConfirmed?))
  {
    hide LastAdopted, FutureMine;
    var op := w.operations[i];
    forall k | 0 <= k < |op.heard|
      ensures op.heard[k].at < |w.history| && WasHeard(w, op.heard[k])
      ensures k == 0 ==> w.history[op.heard[0].at].correlationId == op.correlationId
      ensures k >= 1 && op.kind != Reserve ==> ConcernsConnection(op.heard[k].message, op.connectionId)
    {
      assert HeardAt(w, op, k);
    }
  }

  // RESERVED follows ReserveConfirmed under the request's id, the post of reserveCommit, its
  // successful answer, and ReserveCommitConfirmed under the commit's id.
  ghost predicate ReserveEarned(w: World, i: nat, o: Outcome)
    requires i < |w.operations|
  {
    var op := w.operations[i];
    && |op.heard| == 2
    && op.heard[0].at < op.commitPosted < op.commitAccepted < o.at < |w.history|
    && op.commitPosted < op.heard[1].at < o.at
    && w.history[op.heard[0].at] == Delivered(op.correlationId, op.heard[0].message)
    && op.heard[0].message.ReserveConfirmed?
    && w.history[op.commitPosted] == CommitPosted(i)
    && w.history[op.commitAccepted] == CommitAccepted(i)
    && w.history[op.heard[1].at] == Delivered(op.commitId, op.heard[1].message)
    && op.heard[1].message.ReserveCommitConfirmed?
  }

  lemma ReserveSuccessIsEarned(settings: Settings, actions: seq<Action>, i: nat, o: Outcome)
    requires Runs(settings, INIT, actions) && i < |Exec(settings, INIT, actions).operations|
    requires Exec(settings, INIT, actions).operations[i].kind == Reserve
    requires o in Reports(Exec(settings, INIT, actions).history, i) && o.status == RESERVED
    ensures ReserveEarned(Exec(settings, INIT, actions), i, o)
  {
    InitInv();
    RunsKeep(settings, INIT, actions);
    OutcomeOf(Exec(settings, INIT, actions), i);
    ReserveEarnedFrom(Exec(settings, INIT, actions), i, o);
  }

  lemma ReserveEarnedFrom(w: World, i: nat, o: Outcome)
    requires i < |w.operations| && OpOk(w, i) && w.operations[i].outcome == Some(o)
    requires w.operations[i].kind == Reserve && o.status == RESERVED
    ensures ReserveEarned(w, i, o)
  {
    var op := w.operations[i];
    assert HeardAt(w, op, 0) && HeardAt(w, op, 1);
  }

  // ---------------------------------------------------------------- correlation isolation

  // A delivery touches no reservation and no operation. It resolves undone futures only, only under
  // its own correlation id or, for a notification, its own connection, at most one of each kind. Whoever
  // waits undone for this id is resolved, and so is, by a notification, the undone wait filed under its
  // connection.
  lemma DeliveryReachesItsWaiter(w: World, correlationId: string, m: NsiMessage)
    requires Inv(w)
    ensures var w' := Dispatched(w, correlationId, m);
      && w'.store.reservations == w.store.reservations && w'.operations == w.operations
      && w'.store.reservesInFlight == w.store.reservesInFlight
      && (forall f :: 0 <= f < |w.store.futures| && w'.store.futures[f] != w.store.futures[f] ==>
            && w.store.futures[f] == Pending && w'.store.futures[f] == Done(m)
            && (w.origins[f].key == ByCorrelation(correlationId)
                || ((m.DataPlaneStateChange? || m.ErrorEvent?) && w.origins[f].key == ByConnection(m.connectionId))))
      && (forall f :: (0 <= f < |w.store.futures| && w.store.futures[f] == Pending
                       && w.origins[f].key == ByCorrelation(correlationId)) ==> w'.store.futures[f] == Done(m))
      && ((m.DataPlaneStateChange? || m.ErrorEvent?) && m.connectionId in w.store.pendingByConnection ==>
            var f := w.store.pendingByConnection[m.connectionId];
            w.store.futures[f] == Pending ==> w'.store.futures[f] == Done(m))
  {
    var w' := Dispatched(w, correlationId, m);
    DispatchEntries(w, correlationId, m);
    forall f | 0 <= f < |w.store.futures| && w'.store.futures[f] != w.store.futures[f]
      ensures w.store.futures[f] == Pending && w'.store.futures[f] == Done(m)
        && (w.origins[f].key == ByCorrelation(correlationId)
            || (IsNotification(m) && w.origins[f].key == ByConnection(m.connectionId)))
    {
      DispatchRoutes(w, correlationId, m, f);
    }
    forall f | 0 <= f < |w.store.futures| && w.store.futures[f] == Pending
               && w.origins[f].key == ByCorrelation(correlationId)
      ensures w'.store.futures[f] == Done(m)
    {
      assert FiledOk(w, f);
      DispatchRoutes(w, correlationId, m, f);
    }
    NotificationWakes(w.store, correlationId, m);
  }

  lemma NotificationWakes(s: StoreState, correlationId: string, m: NsiMessage)
    requires s.Valid()
    ensures (m.DataPlaneStateChange? || m.ErrorEvent?) && m.connectionId in s.pendingByConnection ==>
      var f := s.pendingByConnection[m.connectionId];
      f < |s.Dispatch(correlationId, m).futures|
      && (s.futures[f] == Pending ==> s.Dispatch(correlationId, m).futures[f] == Done(m))
  {
  }

  // No entry ever leads to a done future: set_result is never called twice.
  lemma EntriesAreUndone(settings: Settings, actions: seq<Action>, key: string)
    requires Runs(settings, INIT, actions)
    ensures var s := Exec(settings, INIT, actions).store;
      && (key in s.pending ==> !s.futures[s.pending[key]].Done?)
      && (key in s.pendingByConnection ==> !s.futures[s.pendingByConnection[key]].Done?)
  {
    InitInv();
    RunsKeep(settings, INIT, actions);
    var w := Exec(settings, INIT, actions);
    if key in w.store.pending { assert EntryOk(w, ByCorrelation(key), w.store.pending[key]); }
    if key in w.store.pendingByConnection { assert EntryOk(w, ByConnection(key), w.store.pendingByConnection[key]); }
  }

  // A reply id that is settled in w: no undone future is registered under it.
  ghost predicate Spent(w: World, correlationId: string)
    requires w.Shape()
  {
    && correlationId in w.issued
    && forall f :: 0 <= f < |w.store.futures| && w.origins[f].key == ByCorrelation(correlationId) ==>
         w.store.futures[f] != Pending
  }

  lemma SpentStays(w: World, w': World, correlationId: string)
    requires Inv(w) && Inv(w') && Grows(w, w') && Spent(w, correlationId)
    requires forall f :: |w.origins| <= f < |w'.origins| ==> w'.origins[f].key != ByCorrelation(correlationId)
    ensures Spent(w', correlationId)
  {
  }

  // At most one future is registered by a step, and a reply future under an unissued id.
  ghost predicate FreshOrigins(w: World, w': World) {
    w'.origins == w.origins
    || (|w'.origins| == |w.origins| + 1 && w.origins <= w'.origins
        && (w'.origins[|w.origins|].key.ByCorrelation? ==> w'.origins[|w.origins|].key.id !in w.issued))
  }

  lemma WakeOrigins(settings: Settings, w: World, i: nat, fault: Fault, commitId: string, timeLeft: bool)
    requires w.Shape() && i < |w.operations| && Waiting(w.operations[i].phase)
    requires w.store.futures[w.operations[i].phase.future] != Pending && commitId !in w.issued
    ensures FreshOrigins(w, Wake(settings, w, i, fault, commitId, timeLeft))
  {
    hide Interrupted;
    if w.store.futures[w.operations[i].phase.future].Done? {
      var v, m := Hears(w, i), w.store.futures[w.operations[i].phase.future].message;
      assert v.origins == w.origins && v.issued == w.issued;
      if fault != NoFault {
        InterruptedOrigins(v, i, m, fault, commitId);
      } else if w.operations[i].phase.AwaitingReply? {
        assert FreshOrigins(v, HandleReply(settings, v, i, m, commitId));
      } else if w.operations[i].phase.AwaitingCommit? {
        assert FreshOrigins(v, HandleCommit(v, i, m));
      } else {
        assert FreshOrigins(v, HandleNotification(v, i, m, timeLeft));
      }
    }
  }

  lemma InterruptedOrigins(w: World, i: nat, m: NsiMessage, fault: Fault, commitId: string)
    requires w.Shape() && i < |w.operations| && Attached(w.operations[i]) && fault != NoFault
    requires commitId !in w.issued
    ensures FreshOrigins(w, GiveUp(Interrupted(w, i, m, fault, commitId), i, InternalError))
  {
  }

  lemma RespondOrigins(w: World, i: nat, reply: SyncReply)
    requires w.Shape() && i < |w.operations| && w.operations[i].phase.Sending?
    ensures Respond(w, i, reply).origins == w.origins
  {
  }

  lemma ExpireOrigins(w: World, i: nat)
    requires w.Shape() && i < |w.operations| && Waiting(w.operations[i].phase)
    ensures Expire(w, i).origins == w.origins
  {
  }

  lemma AnswerCommitOrigins(w: World, i: nat, reply: CommitReply)
    requires w.Shape() && i < |w.operations| && w.operations[i].phase.SendingCommit?
    ensures AnswerCommit(w, i, reply).origins == w.origins
  {
  }

  lemma NewRepliesAreFresh(settings: Settings, w: World, a: Action)
    requires w.Shape() && Enabled(w, a)
    ensures FreshOrigins(w, Next(settings, w, a))
  {
    hide Apply, VerdictOn, Wake, Expire, AnswerCommit, Respond;
    match a
    case Woken(i, fault, commitId, timeLeft) => WakeOrigins(settings, w, i, fault, commitId, timeLeft);
    case Answered(i, reply) => RespondOrigins(w, i, reply);
    case Expired(i) => ExpireOrigins(w, i);
    case CommitAnswered(i, reply) => AnswerCommitOrigins(w, i, reply);
    case _ =>
  }

  lemma {:induction false} SpentForever(settings: Settings, w: World, actions: seq<Action>, correlationId: string)
    requires Inv(w) && Runs(settings, w, actions) && Spent(w, correlationId)
    ensures Inv(Exec(settings, w, actions)) && Spent(Exec(settings, w, actions), correlationId)
    decreases |actions|
  {
    if actions != [] {
      var next := Next(settings, w, actions[0]);
      NextKeeps(settings, w, actions[0]);
      NewRepliesAreFresh(settings, w, actions[0]);
      SpentStays(w, next, correlationId);
      SpentForever(settings, next, actions[1..], correlationId);
    }
  }

  lemma SpentDelivery(v: World, correlationId: string, again: NsiMessage)
    requires v.Shape() && FuturesOk(v) && Spent(v, correlationId) && !IsNotification(again)
    ensures var v' := Dispatched(v, correlationId, again);
      && v'.store == v.store.(pending := v'.store.pending)
      && v'.operations == v.operations && v'.landed == v.landed
  {
    if correlationId in v.store.pending {
      assert EntryOk(v, ByCorrelation(correlationId), v.store.pending[correlationId]);
    }
    assert Landing(v, correlationId, again) == map[];
  }

  // A duplicate reply is inert, however much later it comes: it resolves nothing, and changes no
  // reservation and no operation.
  lemma DuplicateReplyIsInert(settings: Settings, w: World, correlationId: string, first: NsiMessage,
                              between: seq<Action>, again: NsiMessage)
    requires Inv(w) && correlationId in w.issued && !IsNotification(again)
    requires Runs(settings, Dispatched(w, correlationId, first), between)
    ensures var v := Exec(settings, Dispatched(w, correlationId, first), between);
      var v' := Dispatched(v, correlationId, again);
      && v'.store == v.store.(pending := v'.store.pending)
      && v'.operations == v.operations && v'.landed == v.landed
  {
    var w1 := Dispatched(w, correlationId, first);
    DeliverKeeps(w, correlationId, first);
    FirstReplySpends(w, correlationId, first);
    SpentForever(settings, w1, between, correlationId);
    SpentDelivery(Exec(settings, w1, between), correlationId, again);
  }

  lemma FirstReplySpends(w: World, correlationId: string, first: NsiMessage)
    requires Inv(w) && correlationId in w.issued
    ensures Spent(Dispatched(w, correlationId, first), correlationId)
  {
    DeliveryReachesItsWaiter(w, correlationId, first);
    DeliverKeeps(w, correlationId, first);
  }

  // So is a reply that comes only after its wait has timed out.
  lemma LateReplyIsInert(settings: Settings, w: World, i: nat, between: seq<Action>, late: NsiMessage)
    requires Inv(w) && i < |w.operations| && !IsNotification(late)
    requires w.operations[i].phase.AwaitingReply? || w.operations[i].phase.AwaitingCommit?
    requires Runs(settings, Expire(w, i), between)
    ensures var v := Exec(settings, Expire(w, i), between);
      var v' := Dispatched(v, AwaitedKey(w.operations[i]).id, late);
      && v'.store == v.store.(pending := v'.store.pending)
      && v'.operations == v.operations && v'.landed == v.landed
  {
    hide Expire, AdoptionOk, ReportsOk, InFlightOk, HeardOk, Story;
    var id, w1 := AwaitedKey(w.operations[i]).id, Expire(w, i);
    ExpireKeeps(w, i);
    TimeoutSpends(w, i);
    SpentForever(settings, w1, between, id);
    SpentDelivery(Exec(settings, w1, between), id, late);
  }

  lemma ExpiredReply(w: World, i: nat)
    requires w.Shape() && i < |w.operations|
    requires w.operations[i].phase.AwaitingReply? || w.operations[i].phase.AwaitingCommit?
    ensures var w1 := Expire(w, i);
      && w1.issued == w.issued && w1.origins == w.origins
      && w1.store.futures == Settled(w.store.futures, w.operations[i].phase.future, Cancelled)
  {
  }

  lemma TimeoutSpends(w: World, i: nat)
    requires Inv(w) && i < |w.operations|
    requires w.operations[i].phase.AwaitingReply? || w.operations[i].phase.AwaitingCommit?
    ensures Spent(Expire(w, i), AwaitedKey(w.operations[i]).id)
  {
    hide Expire, AdoptionOk, ReportsOk, InFlightOk, HeardOk, Story;
    assert OpOk(w, i);
    assert OriginOk(w, w.operations[i].phase.future);
    ExpiredReply(w, i);
  }
}
