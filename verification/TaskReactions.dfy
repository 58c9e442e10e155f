/** What each background task does with each message, timeout and answer, down to the record it leaves
    and the callback it posts. */
module TaskReactions {
  import opened Messages
  import opened StateMapping
  import opened ExceptionTrees
  import opened StoreModel
  import opened Refresh
  import opened StatusMeaning
  import opened Protocol

  // ---------------------------------------------------------------- what a step leaves

  // The task of operation i makes its final write on reservation r: status and error; and the reservation
  // as it then is goes to the URL it then holds.
  ghost predicate Settles(w: World, w': World, i: nat, r: Reservation, status: ReservationStatus,
                          error: Option<Reason>)
    requires i < |w.operations|
  {
    var payload := ReservationDetail(r.globalReservationId, r.connectionId, r.description, r.criteria, status, error);
    var outcome := Outcome(status, r.callbackUrl, payload, |w.history|);
    && w'.store.reservations
         == w.store.reservations[w.operations[i].connectionId := r.(status := status, lastError := error)]
    && w'.history == w.history + [Reported(i, outcome)]
    && i < |w'.operations| && w'.operations[i].phase == Delivering && w'.operations[i].outcome == Some(outcome)
  }

  ghost predicate Ends(w: World, w': World, i: nat, status: ReservationStatus, error: Option<Reason>)
    requires i < |w.operations| && w.operations[i].connectionId in w.store.reservations
  {
    Settles(w, w', i, w.store.reservations[w.operations[i].connectionId], status, error)
  }

  ghost predicate FailsWith(w: World, w': World, i: nat, reason: Reason)
    requires i < |w.operations| && w.operations[i].connectionId in w.store.reservations
  {
    Ends(w, w', i, FAILED, Some(reason))
  }

  // The task goes on in phase p, without an outcome or any other write.
  ghost predicate GoesOn(w: World, w': World, i: nat, p: Phase)
    requires i < |w.operations|
  {
    && i < |w'.operations| && w'.operations[i].phase == p && w'.operations[i].outcome == w.operations[i].outcome
    && w'.store.reservations == w.store.reservations && w'.history == w.history
  }

  // Nothing is filed, taken out, resolved or cancelled.
  ghost predicate LeavesFutures(w: World, w': World) {
    && w'.store.futures == w.store.futures && w'.origins == w.origins
    && w'.store.pending == w.store.pending && w'.store.pendingByConnection == w.store.pendingByConnection
  }

  ghost predicate FilesReply(w: World, w': World, i: nat, id: string) {
    && w'.store.futures == w.store.futures + [Pending]
    && w'.origins == w.origins + [Origin(ByCorrelation(id), i, |w.history|)]
    && w'.store.pending == w.store.pending[id := |w.store.futures|]
    && w'.store.pendingByConnection == w.store.pendingByConnection
  }

  ghost predicate FilesWait(w: World, w': World, i: nat)
    requires i < |w.operations|
  {
    var c := w.operations[i].connectionId;
    && w'.store.futures == w.store.futures + [Pending]
    && w'.origins == w.origins + [Origin(ByConnection(c), i, |w.history|)]
    && w'.store.pendingByConnection == w.store.pendingByConnection[c := |w.store.futures|]
    && w'.store.pending == w.store.pending
  }

  // The data-plane wait begins, or begins its next turn, if there is time left for it.
  ghost predicate Waits(w: World, w': World, i: nat, timeLeft: bool)
    requires i < |w.operations|
  {
    if timeLeft then GoesOn(w, w', i, AwaitingDataPlane(|w.store.futures|)) && FilesWait(w, w', i)
    else GoesOn(w, w', i, QueryingNotifications) && LeavesFutures(w, w')
  }

  // ---------------------------------------------------------------- messages

  // Operation i, of this kind, has heard m and handles it without a fault.
  ghost predicate Hears(w: World, i: nat, kind: Kind, m: NsiMessage) {
    && w.Shape() && i < |w.operations| && w.operations[i].kind == kind && Waiting(w.operations[i].phase)
    && w.store.futures[w.operations[i].phase.future] == Done(m)
  }

  lemma HandledInPlace(settings: Settings, w: World, i: nat, kind: Kind, m: NsiMessage, fault: Fault,
                       commitId: string, timeLeft: bool)
    returns (v: World)
    requires Hears(w, i, kind, m)
    ensures v.Shape() && v == w.(operations := v.operations) && |v.operations| == |w.operations|
    ensures var op := w.operations[i];
      && op.phase.future in w.landed
      && v.operations[i] == op.(heard := op.heard + [Hearing(m, w.landed[op.phase.future])])
      && Wake(settings, w, i, fault, commitId, timeLeft) == Handle(settings, v, i, m, fault, commitId, timeLeft)
  {
    hide Handle;
    var op := w.operations[i];
    v := w.Put(i, op.(heard := op.heard + [Hearing(m, w.landed[op.phase.future])]));
  }

  // A reserve that is confirmed records the confirmed criteria and posts its commit; anything else fails it.
  lemma ReserveReacts(settings: Settings, w: World, i: nat, m: NsiMessage, commitId: string, timeLeft: bool)
    requires Hears(w, i, Reserve, m) && w.operations[i].phase.AwaitingReply?
    ensures var w', c := Wake(settings, w, i, NoFault, commitId, timeLeft), w.operations[i].connectionId;
      && (m.ReserveConfirmed? ==>
            && w'.store.reservations
                 == w.store.reservations[c := w.store.reservations[c].(criteria :=
                      Some(Criteria(m.criteriaVersion, Some(m.serviceType),
                                    P2ps(m.capacity, m.sourceStp, m.destStp))))]
            && w'.operations[i].phase == SendingCommit(|w.store.futures|) && w'.operations[i].commitId == commitId
            && FilesReply(w, w', i, commitId) && w'.history == w.history + [CommitPosted(i)])
      && (m.ReserveFailed? ==> FailsWith(w, w', i, RejectedByAggregator(m.serviceException)))
      && (m.ReserveTimeout? ==> FailsWith(w, w', i, ReserveTimedOutAtAggregator))
      && (!m.ReserveConfirmed? && !m.ReserveFailed? && !m.ReserveTimeout? ==>
            FailsWith(w, w', i, UnexpectedMessage))
  {
    var v := HandledInPlace(settings, w, i, Reserve, m, NoFault, commitId, timeLeft);
    hide Wake, World.Shape;
  }

  lemma CommitReacts(settings: Settings, w: World, i: nat, m: NsiMessage, commitId: string, timeLeft: bool)
    requires Hears(w, i, Reserve, m) && w.operations[i].phase.AwaitingCommit?
    ensures var w' := Wake(settings, w, i, NoFault, commitId, timeLeft);
      && (m.ReserveCommitConfirmed? ==> Ends(w, w', i, RESERVED, None))
      && (m.ReserveCommitFailed? ==> FailsWith(w, w', i, RejectedByAggregator(m.serviceException)))
      && (!m.ReserveCommitConfirmed? && !m.ReserveCommitFailed? ==> FailsWith(w, w', i, UnexpectedMessage))
  {
    var v := HandledInPlace(settings, w, i, Reserve, m, NoFault, commitId, timeLeft);
    hide Wake, World.Shape;
  }

  // A provision or release that is confirmed starts to wait for the data plane.
  lemma ConfirmationReacts(settings: Settings, w: World, i: nat, kind: Kind, m: NsiMessage, commitId: string,
                           timeLeft: bool)
    requires Hears(w, i, kind, m) && w.operations[i].phase.AwaitingReply? && (kind == Provision || kind == Release)
    ensures var w' := Wake(settings, w, i, NoFault, commitId, timeLeft);
      if (kind == Provision && m.ProvisionConfirmed?) || (kind == Release && m.ReleaseConfirmed?)
      then Waits(w, w', i, settings.dataplaneTimeout > 0)
      else FailsWith(w, w', i, UnexpectedMessage)
  {
    var v := HandledInPlace(settings, w, i, kind, m, NoFault, commitId, timeLeft);
    hide Wake, World.Shape;
  }

  // The data plane coming up ends a provision ACTIVATED, going down a release RESERVED; an error event
  // fails both with its reason; anything else is waited out.
  lemma DataPlaneReacts(settings: Settings, w: World, i: nat, kind: Kind, m: NsiMessage, commitId: string,
                        timeLeft: bool)
    requires Hears(w, i, kind, m) && w.operations[i].phase.AwaitingDataPlane? && (kind == Provision || kind == Release)
    ensures var w' := Wake(settings, w, i, NoFault, commitId, timeLeft);
      if m.DataPlaneStateChange? && kind == Provision && m.active then Ends(w, w', i, ACTIVATED, None)
      else if m.DataPlaneStateChange? && kind == Release && !m.active then Ends(w, w', i, RESERVED, None)
      else if m.ErrorEvent? then
        match m.cause
        case Some(exc) => FailsWith(w, w', i, ErrorFrom(m.event, RootCauses(exc)))
        case None => FailsWith(w, w', i, ErrorAt(m.event, m.originatingNsa))
      else Waits(w, w', i, timeLeft)
  {
    var v := HandledInPlace(settings, w, i, kind, m, NoFault, commitId, timeLeft);
    hide Wake, World.Shape;
  }

  // Whatever a terminate hears, it ends TERMINATED and keeps the last error.
  lemma TerminateReacts(settings: Settings, w: World, i: nat, m: NsiMessage, commitId: string, timeLeft: bool)
    requires Hears(w, i, Terminate, m) && w.operations[i].phase.AwaitingReply?
    ensures var r := w.store.reservations[w.operations[i].connectionId];
      Ends(w, Wake(settings, w, i, NoFault, commitId, timeLeft), i, TERMINATED, r.lastError)
  {
    var v := HandledInPlace(settings, w, i, Terminate, m, NoFault, commitId, timeLeft);
    hide Wake, World.Shape;
  }

  // ---------------------------------------------------------------- faults and cancellations

  // Operation i has heard the confirmation of its reserve.
  ghost predicate HearsConfirmation(w: World, i: nat, m: NsiMessage) {
    Hears(w, i, Reserve, m) && w.operations[i].phase.AwaitingReply? && m.ReserveConfirmed?
  }

  // When handling a message raises, a terminate ends TERMINATED with the error it had, and any other task
  // FAILED; but for the confirmation of a reserve, nothing else has happened by then.
  lemma FaultReacts(settings: Settings, w: World, i: nat, kind: Kind, m: NsiMessage, fault: Fault, commitId: string,
                    timeLeft: bool)
    requires Hears(w, i, kind, m) && (fault == AtOnce || (fault != NoFault && !HearsConfirmation(w, i, m)))
    ensures var w' := Wake(settings, w, i, fault, commitId, timeLeft);
      var r := w.store.reservations[w.operations[i].connectionId];
      && LeavesFutures(w, w')
      && if kind == Terminate then Ends(w, w', i, TERMINATED, r.lastError) else FailsWith(w, w', i, InternalError)
  {
    var v := HandledInPlace(settings, w, i, kind, m, fault, commitId, timeLeft);
    hide Wake, World.Shape;
  }

  // A confirmed reserve may have written its criteria, and filed its commit's future, which nobody will
  // take out.
  lemma FaultAfterConfirmation(settings: Settings, w: World, i: nat, m: NsiMessage, fault: Fault, commitId: string,
                               timeLeft: bool)
    requires HearsConfirmation(w, i, m) && (fault == AfterCriteria || fault == AfterRegistration)
    ensures var w' := Wake(settings, w, i, fault, commitId, timeLeft);
      var r := w.store.reservations[w.operations[i].connectionId];
      var criteria := Criteria(m.criteriaVersion, Some(m.serviceType), P2ps(m.capacity, m.sourceStp, m.destStp));
      && Settles(w, w', i, r.(criteria := Some(criteria)), FAILED, Some(InternalError))
      && (fault == AfterCriteria ==> LeavesFutures(w, w'))
      && (fault == AfterRegistration ==> FilesReply(w, w', i, commitId))
  {
    var v := HandledInPlace(settings, w, i, Reserve, m, fault, commitId, timeLeft);
    FaultMidway(settings, v, i, m, fault, commitId, timeLeft);
    hide Wake, Handle, World.Fits;
  }

  lemma FaultMidway(settings: Settings, v: World, i: nat, m: NsiMessage, fault: Fault, commitId: string,
                    timeLeft: bool)
    requires v.Shape() && i < |v.operations| && v.operations[i].kind == Reserve && v.operations[i].phase.AwaitingReply?
    requires m.ReserveConfirmed? && (fault == AfterCriteria || fault == AfterRegistration)
    ensures var v' := Handle(settings, v, i, m, fault, commitId, timeLeft);
      var r := v.store.reservations[v.operations[i].connectionId];
      var criteria := Criteria(m.criteriaVersion, Some(m.serviceType), P2ps(m.capacity, m.sourceStp, m.destStp));
      && Settles(v, v', i, r.(criteria := Some(criteria)), FAILED, Some(InternalError))
      && (fault == AfterCriteria ==> LeavesFutures(v, v'))
      && (fault == AfterRegistration ==> FilesReply(v, v', i, commitId))
  {
    InterruptedMidway(v, i, m, fault, commitId);
    GivingUpFails(Interrupted(v, i, m, fault, commitId), i, InternalError);
    hide Interrupted, GiveUp, World.Shape;
  }

  lemma InterruptedMidway(v: World, i: nat, m: NsiMessage, fault: Fault, commitId: string)
    requires v.Shape() && i < |v.operations| && v.operations[i].kind == Reserve && v.operations[i].phase.AwaitingReply?
    requires m.ReserveConfirmed? && (fault == AfterCriteria || fault == AfterRegistration)
    ensures var v', c := Interrupted(v, i, m, fault, commitId), v.operations[i].connectionId;
      var criteria := Criteria(m.criteriaVersion, Some(m.serviceType), P2ps(m.capacity, m.sourceStp, m.destStp));
      && v'.store.reservations == v.store.reservations[c := v.store.reservations[c].(criteria := Some(criteria))]
      && (fault == AfterCriteria ==> LeavesFutures(v, v'))
      && (fault == AfterRegistration ==> FilesReply(v, v', i, commitId))
  {
  }

  lemma GivingUpFails(w: World, i: nat, reason: Reason)
    requires w.Shape() && i < |w.operations| && Attached(w.operations[i]) && w.operations[i].kind != Terminate
    ensures FailsWith(w, GiveUp(w, i, reason), i, reason) && LeavesFutures(w, GiveUp(w, i, reason))
  {
    hide World.Shape;
  }

  // A cancelled wait ends its task without a word.
  lemma CancelledReacts(settings: Settings, w: World, i: nat, fault: Fault, commitId: string, timeLeft: bool)
    requires w.Shape() && i < |w.operations| && Waiting(w.operations[i].phase)
    requires w.store.futures[w.operations[i].phase.future] == Cancelled
    ensures var w' := Wake(settings, w, i, fault, commitId, timeLeft);
      && GoesOn(w, w', i, Aborted) && LeavesFutures(w, w')
  {
  }

  // ---------------------------------------------------------------- timeouts

  // Exactly the undone futures of this set are cancelled.
  ghost predicate Cancels(before: seq<FutureState>, after: seq<FutureState>, fs: set<nat>) {
    && |after| == |before|
    && forall f :: 0 <= f < |before| ==>
         after[f] == if before[f].Pending? && f in fs then Cancelled else before[f]
  }

  // What is filed under a key.
  function Filed(entries: map<string, nat>, key: string): set<nat> {
    if key in entries then {entries[key]} else {}
  }

  lemma WithdrawalCancels(s: StoreState, id: string)
    requires s.Valid()
    ensures var s' := s.CancelPending(id);
      && s' == s.(futures := s'.futures, pending := s.pending - {id})
      && Cancels(s.futures, s'.futures, Filed(s.pending, id))
  {
    assert id !in s.pending ==> s.pending - {id} == s.pending;
  }

  lemma RevocationCancels(s: StoreState, f: nat, c: string)
    requires s.Valid() && f < |s.futures|
    ensures var s' := s.Abandon(f).CancelPendingByConnection(c);
      && s' == s.(futures := s'.futures, pendingByConnection := s.pendingByConnection - {c})
      && Cancels(s.futures, s'.futures, {f} + Filed(s.pendingByConnection, c))
  {
    assert c !in s.pendingByConnection ==> s.pendingByConnection - {c} == s.pendingByConnection;
  }

  // Without a reply in time a terminate ends TERMINATED with the error it had, and any other task FAILED;
  // the entry stays filed.
  lemma ReplyTimeoutReacts(w: World, i: nat)
    requires w.Shape() && i < |w.operations|
    requires w.operations[i].phase.AwaitingReply? || w.operations[i].phase.AwaitingCommit?
    ensures var w', r := Expire(w, i), w.store.reservations[w.operations[i].connectionId];
      && (if w.operations[i].kind == Terminate then Ends(w, w', i, TERMINATED, r.lastError)
          else FailsWith(w, w', i, NoReplyInTime))
      && Cancels(w.store.futures, w'.store.futures, {w.operations[i].phase.future})
      && w'.store.pending == w.store.pending && w'.store.pendingByConnection == w.store.pendingByConnection
  {
    assert Attached(w.operations[i]);
  }

  // A data-plane wait that runs out asks for the notifications. Its own future, and whatever future is
  // filed under its connection, are cancelled if undone, and that entry is gone.
  lemma DataPlaneTimeoutReacts(w: World, i: nat)
    requires w.Shape() && i < |w.operations| && w.operations[i].phase.AwaitingDataPlane?
    ensures var w', s, c := Expire(w, i), w.store, w.operations[i].connectionId;
      && w'.operations[i].phase == QueryingNotifications && w'.operations[i].outcome == w.operations[i].outcome
      && w'.store == s.(futures := w'.store.futures, pendingByConnection := s.pendingByConnection - {c})
      && Cancels(s.futures, w'.store.futures, {w.operations[i].phase.future} + Filed(s.pendingByConnection, c))
  {
    hide Cancels, StoreState.Abandon, StoreState.CancelPendingByConnection;
    RevocationCancels(w.store, w.operations[i].phase.future, w.operations[i].connectionId);
  }

  // ---------------------------------------------------------------- answers from the aggregator

  // An accepted commit is waited for; one that was not sent withdraws its entry and fails the reserve; and
  // one whose handling breaks fails it and leaves the entry.
  lemma CommitAnswerReacts(w: World, i: nat, reply: CommitReply)
    requires w.Shape() && i < |w.operations| && w.operations[i].phase.SendingCommit?
    ensures var w', op := AnswerCommit(w, i, reply), w.operations[i];
      && (reply == CommitTaken ==>
            && w'.operations[i].phase == AwaitingCommit(op.phase.future) && w'.operations[i].outcome == op.outcome
            && w'.store == w.store && w'.history == w.history + [CommitAccepted(i)])
      && (reply == CommitFailed ==> FailsWith(w, w', i, CommitNotSent) && Withdraws(w, w', op.commitId))
      && (reply == CommitBroken ==> FailsWith(w, w', i, InternalError) && LeavesFutures(w, w'))
  {
    hide Cancels, StoreState.CancelPending;
    WithdrawalCancels(w.store, w.operations[i].commitId);
  }

  // The entry of this id is gone, and its future cancelled if undone.
  ghost predicate Withdraws(w: World, w': World, id: string) {
    && w'.store.pending == w.store.pending - {id}
    && Cancels(w.store.futures, w'.store.futures, Filed(w.store.pending, id))
    && w'.store.pendingByConnection == w.store.pendingByConnection && w'.origins == w.origins
  }

  // After a wait that ran out, the newest error event is the reason; without any, the silence is.
  lemma NotificationsReact(w: World, i: nat, events: seq<ErrorNotice>, k: nat)
    requires w.Shape() && i < |w.operations| && w.operations[i].phase.QueryingNotifications?
    ensures var w' := AnswerNotifications(w, i, events);
      && (IsNewest(events, k) ==>
            match events[k].cause
            case Some(exc) => FailsWith(w, w', i, ErrorFrom(events[k].event, RootCauses(exc)))
            case None => FailsWith(w, w', i, ErrorAt(events[k].event, events[k].originatingNsa)))
      && (events == [] && w.operations[i].kind == Provision ==> FailsWith(w, w', i, DataPlaneSilent(true)))
      && (events == [] && w.operations[i].kind == Release ==> FailsWith(w, w', i, DataPlaneSilent(false)))
  {
    hide World.Shape;
    if IsNewest(events, k) { NewestIsFirstOfGreatest(events, k); }
  }

  // ---------------------------------------------------------------- requests

  // An acknowledged request moves the reservation to the transient status of its kind, or creates it.
  // A request that was not sent, or was answered by anything else, takes its entry back; a response
  // that cannot be read leaves the entry filed.
  lemma ResponseReacts(w: World, i: nat, reply: SyncReply)
    requires w.Shape() && i < |w.operations| && w.operations[i].phase.Sending?
    ensures var w', op := Respond(w, i, reply), w.operations[i]; var rs := w.store.reservations;
      && (reply.Unparsable? ==> GoesOn(w, w', i, Refused) && LeavesFutures(w, w'))
      && (reply.SendFailed? || reply.Unexpected? ==>
            GoesOn(w, w', i, Refused) && Withdraws(w, w', op.correlationId))
      && (reply.Accepted? ==>
            && w'.operations[i].phase == AwaitingReply(op.phase.future) && LeavesFutures(w, w')
            && w'.operations[i].heard == op.heard && w'.operations[i].outcome == op.outcome
            && w'.history == w.history + (if op.kind == Reserve then [Adopted(reply.connectionId, op.draft.callbackUrl)]
                                          else [])
            && (op.kind == Provision ==>
                  w'.store.reservations == rs[op.connectionId := rs[op.connectionId].(status := ACTIVATING)])
            && (op.kind == Release ==>
                  w'.store.reservations == rs[op.connectionId := rs[op.connectionId].(status := DEACTIVATING)])
            && (op.kind == Terminate ==> w'.store.reservations == rs)
            && (op.kind == Reserve ==>
                  && w'.operations[i].connectionId == reply.connectionId
                  && w'.accepted == w.accepted[reply.connectionId := i]
                  && w'.store.reservations == rs[reply.connectionId :=
                       op.draft.(connectionId := reply.connectionId, status := RESERVING)]
                  && w'.store.reservesInFlight == w.store.reservesInFlight + {reply.connectionId}))
  {
    hide Cancels, StoreState.CancelPending;
    WithdrawalCancels(w.store, w.operations[i].correlationId);
  }

  // A reserve is posted with the request's own values, under criteria version 1.
  lemma PostingDrafts(w: World, correlationId: string, globalReservationId: Option<string>, description: string,
                      serviceType: Option<string>, p2ps: P2ps, requesterNsa: string, url: string)
    requires w.Shape()
    ensures var w' := PostReserve(w, correlationId, globalReservationId, description, serviceType, p2ps,
                                  requesterNsa, url);
      var n := |w.operations|;
      && |w'.operations| == n + 1 && w'.operations[..n] == w.operations
      && FilesReply(w, w', n, correlationId)
      && var op := w'.operations[n]; var draft := op.draft;
      && op.kind == Reserve && op.correlationId == correlationId && op.phase == Sending(|w.store.futures|)
      && draft.globalReservationId == globalReservationId && draft.description == description
      && draft.criteria == Some(Criteria(1, serviceType, p2ps)) && draft.requesterNsa == requesterNsa
      && draft.callbackUrl == url && draft.lastError == None && draft.seenErrorIds == None
      && w'.store.reservations == w.store.reservations && w'.history == w.history
  {
  }

  // After its callback a task is finished; a reserve is then in flight no more.
  lemma CallbackEnds(w: World, i: nat)
    requires w.Shape() && i < |w.operations| && w.operations[i].phase.Delivering?
    ensures var w', op := Finish(w, i), w.operations[i];
      && GoesOn(w, w', i, Finished) && LeavesFutures(w, w')
      && w'.store.reservesInFlight == w.store.reservesInFlight - (if op.kind == Reserve then {op.connectionId} else {})
  {
  }
}
