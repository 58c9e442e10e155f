/** A stored error should mean that the reservation has failed or is terminated. Which steps keep that,
    and the one that may not. */
module ErrorConsistency {
  import opened Messages
  import opened StateMapping
  import opened StoreModel
  import opened ExceptionTrees
  import opened Refresh
  import opened RefreshProofs
  import opened Protocol
  import opened ProtocolInvariant
  import opened ProtocolSteps
  import opened ProtocolProgress

  predicate ErrorFits(r: Reservation) {
    r.lastError.Some? ==> IsTerminal(r.status)
  }

  ghost predicate ErrorsFit(s: StoreState) {
    forall c <- s.reservations :: ErrorFits(s.reservations[c])
  }

  // The acceptance of a provision or a release writes the status but not the error.
  ghost predicate StartsActivation(w: World, a: Action)
    requires w.Shape() && Enabled(w, a)
  {
    a.Answered? && a.reply.Accepted? && (w.operations[a.op].kind == Provision || w.operations[a.op].kind == Release)
  }

  lemma ReportErrorFits(w: World, i: nat, status: ReservationStatus, lastError: Option<Reason>)
    requires w.Shape() && i < |w.operations| && Attached(w.operations[i]) && ErrorsFit(w.store)
    requires lastError.Some? ==> IsTerminal(status)
    ensures ErrorsFit(Report(w, i, status, lastError).store)
  {
  }

  lemma GiveUpErrorFits(w: World, i: nat, reason: Reason)
    requires w.Shape() && i < |w.operations| && Attached(w.operations[i]) && ErrorsFit(w.store)
    ensures ErrorsFit(GiveUp(w, i, reason).store) && ErrorsFit(Fail(w, i, reason).store)
  {
    ReportErrorFits(w, i, FAILED, Some(reason));
    ReportErrorFits(w, i, TERMINATED, w.store.reservations[w.operations[i].connectionId].lastError);
  }

  lemma WakeErrorFits(settings: Settings, w: World, i: nat, fault: Fault, commitId: string, timeLeft: bool)
    requires w.Shape() && i < |w.operations| && Waiting(w.operations[i].phase) && ErrorsFit(w.store)
    requires w.store.futures[w.operations[i].phase.future] != Pending
    ensures ErrorsFit(Wake(settings, w, i, fault, commitId, timeLeft).store)
  {
    if w.store.futures[w.operations[i].phase.future].Done? {
      var v, m := Hears(w, i), w.store.futures[w.operations[i].phase.future].message;
      if fault != NoFault { InterruptedErrorFits(v, i, m, fault, commitId); }
      else if w.operations[i].phase.AwaitingReply? { HandleReplyErrorFits(settings, v, i, m, commitId); }
      else if w.operations[i].phase.AwaitingCommit? { HandleCommitErrorFits(v, i, m); }
      else { HandleNotificationErrorFits(v, i, m, timeLeft); }
    }
  }

  lemma InterruptedErrorFits(w: World, i: nat, m: NsiMessage, fault: Fault, commitId: string)
    requires w.Shape() && i < |w.operations| && Attached(w.operations[i]) && ErrorsFit(w.store) && fault != NoFault
    ensures ErrorsFit(GiveUp(Interrupted(w, i, m, fault, commitId), i, InternalError).store)
  {
    if m.ReserveConfirmed? { CriteriaErrorFits(w.store, w.operations[i].connectionId, m); }
    GiveUpErrorFits(Interrupted(w, i, m, fault, commitId), i, InternalError);
  }

  lemma HandleReplyErrorFits(settings: Settings, w: World, i: nat, m: NsiMessage, commitId: string)
    requires w.Shape() && i < |w.operations| && Attached(w.operations[i]) && ErrorsFit(w.store)
    ensures ErrorsFit(HandleReply(settings, w, i, m, commitId).store)
  {
    if w.operations[i].kind == Reserve && m.ReserveConfirmed? {
      CriteriaErrorFits(w.store, w.operations[i].connectionId, m);
    } else {
      GiveUpErrorFits(w, i,
        if w.operations[i].kind == Reserve && m.ReserveFailed? then RejectedByAggregator(m.serviceException)
        else if w.operations[i].kind == Reserve && m.ReserveTimeout? then ReserveTimedOutAtAggregator
        else UnexpectedMessage);
    }
  }

  lemma CriteriaErrorFits(s: StoreState, c: string, m: NsiMessage)
    requires ErrorsFit(s) && c in s.reservations && m.ReserveConfirmed?
    ensures ErrorsFit(s.SetCriteria(c, m))
  {
  }

  lemma HandleCommitErrorFits(w: World, i: nat, m: NsiMessage)
    requires w.Shape() && i < |w.operations| && Attached(w.operations[i]) && ErrorsFit(w.store)
    ensures ErrorsFit(HandleCommit(w, i, m).store)
  {
  }

  lemma HandleNotificationErrorFits(w: World, i: nat, m: NsiMessage, timeLeft: bool)
    requires w.Shape() && i < |w.operations| && Attached(w.operations[i]) && ErrorsFit(w.store)
    ensures ErrorsFit(HandleNotification(w, i, m, timeLeft).store)
  {
  }

  lemma ApplyErrorFits(settings: Settings, s: StoreState, answer: Answer)
    requires ErrorsFit(s)
    ensures ErrorsFit(Apply(settings, s, answer))
  {
    RefreshedErrorMeansFailed(settings, Stored(s, answer.qr.connectionId), answer);
  }

  lemma RespondErrorFits(w: World, i: nat, reply: SyncReply)
    requires w.Shape() && i < |w.operations| && w.operations[i].phase.Sending? && ErrorsFit(w.store)
    requires w.operations[i].kind == Reserve ==> w.operations[i].draft.lastError.None?
    ensures var op := w.operations[i];
      ErrorsFit(Respond(w, i, reply).store)
      <==> !(reply.Accepted? && (op.kind == Provision || op.kind == Release)
             && w.store.reservations[op.connectionId].lastError.Some?)
  {
    var op, s' := w.operations[i], Respond(w, i, reply).store;
    if reply.Accepted? && (op.kind == Provision || op.kind == Release) {
      assert ErrorFits(s'.reservations[op.connectionId]) <==> w.store.reservations[op.connectionId].lastError.None?;
    }
  }

  lemma AnswerCommitErrorFits(w: World, i: nat, reply: CommitReply)
    requires w.Shape() && i < |w.operations| && w.operations[i].phase.SendingCommit? && ErrorsFit(w.store)
    ensures ErrorsFit(AnswerCommit(w, i, reply).store)
  {
    GiveUpErrorFits(w.(store := w.store.CancelPending(w.operations[i].commitId)), i, CommitNotSent);
    GiveUpErrorFits(w, i, InternalError);
  }

  lemma AnswerNotificationsErrorFits(w: World, i: nat, events: seq<ErrorNotice>)
    requires w.Shape() && i < |w.operations| && w.operations[i].phase.QueryingNotifications? && ErrorsFit(w.store)
    ensures ErrorsFit(AnswerNotifications(w, i, events).store)
  {
    var found := LastErrorOf(events);
    GiveUpErrorFits(w, i, if found.Some? then found.value else DataPlaneSilent(Target(w.operations[i].kind)));
  }

  lemma AdoptErrorFits(s: StoreState, c: string, url: string)
    requires ErrorsFit(s) && c in s.reservations
    ensures ErrorsFit(s.Adopt(c, url))
  {
  }

  // ---------------------------------------------------------------- drafts

  // What a waiting request knew: a reserve starts without an error, and a provision or release is
  // only sent for a reservation that its refresh left without one.
  ghost predicate DraftsClean(w: World) {
    forall i :: 0 <= i < |w.operations| ==> w.operations[i].draft.lastError.None? || w.operations[i].kind == Terminate
  }

  lemma ProceedIsClean(settings: Settings, w: World, kind: Kind, answer: Answer, url: string)
    requires w.Shape() && (kind == Provision || kind == Release) && VerdictOn(settings, w, kind, answer) == Proceed
    ensures Received(settings, w, kind, answer, url).store.reservations[answer.qr.connectionId].lastError.None?
  {
    RefreshedErrorMeansFailed(settings, Stored(w.store, answer.qr.connectionId), answer);
  }

  // ---------------------------------------------------------------- steps and runs

  // One step from a consistent store stays consistent except in one case: a provision or release is
  // accepted while an error is stored, which can only have been written since its own refresh.
  lemma StepKeepsErrorsFitIff(settings: Settings, w: World, a: Action)
    requires w.Shape() && Enabled(w, a) && ErrorsFit(w.store) && DraftsClean(w)
    ensures ErrorsFit(Next(settings, w, a).store)
      <==> !(StartsActivation(w, a) && w.store.reservations[w.operations[a.op].connectionId].lastError.Some?)
  {
    hide Ask, Respond, Wake, Expire, AnswerNotifications, AnswerCommit, Apply;
    match a
    case Look(answer) => ApplyErrorFits(settings, w.store, answer);
    case AskFor(kind, answer, url, id) => AskErrorFits(settings, w, kind, answer, url, id);
    case Answered(i, reply) => RespondErrorFits(w, i, reply);
    case Woken(i, fault, commitId, timeLeft) => WakeErrorFits(settings, w, i, fault, commitId, timeLeft);
    case Expired(i) => ExpireErrorFits(w, i);
    case CommitAnswered(i, reply) => AnswerCommitErrorFits(w, i, reply);
    case NotificationsAnswered(i, events) => AnswerNotificationsErrorFits(w, i, events);
    case Reuse(c, url) => AdoptErrorFits(w.store, c, url);
    case _ =>
  }

  lemma AskErrorFits(settings: Settings, w: World, kind: Kind, answer: Answer, url: string, id: string)
    requires w.Shape() && kind != Reserve && ErrorsFit(w.store)
    ensures ErrorsFit(Ask(settings, w, kind, answer, url, id).store)
  {
    ApplyErrorFits(settings, w.store, answer);
    ReceivedErrorFits(settings, w, kind, answer, url);
  }

  lemma ReceivedErrorFits(settings: Settings, w: World, kind: Kind, answer: Answer, url: string)
    requires w.Shape() && kind != Reserve && ErrorsFit(Apply(settings, w.store, answer))
    ensures ErrorsFit(Received(settings, w, kind, answer, url).store)
  {
  }

  lemma ExpireErrorFits(w: World, i: nat)
    requires w.Shape() && i < |w.operations| && Waiting(w.operations[i].phase) && ErrorsFit(w.store)
    ensures ErrorsFit(Expire(w, i).store)
  {
    if !w.operations[i].phase.AwaitingDataPlane? {
      GiveUpErrorFits(w.(store := w.store.Abandon(w.operations[i].phase.future)), i, NoReplyInTime);
    }
  }

  lemma DraftsStayClean(settings: Settings, w: World, a: Action)
    requires w.Shape() && Enabled(w, a) && DraftsClean(w)
    ensures DraftsClean(Next(settings, w, a))
  {
    if MovesNone(a) {
      if a.AskFor? && (a.kind == Provision || a.kind == Release)
         && VerdictOn(settings, w, a.kind, a.answer) == Proceed {
        ProceedIsClean(settings, w, a.kind, a.answer, a.url);
      }
      NewDraft(settings, w, a);
    } else {
      OwnStepTouchesOne(settings, w, a, OperationOf(a));
    }
  }

  // The only draft a request adds is the reservation as its refresh left it.
  lemma AskDraft(settings: Settings, w: World, kind: Kind, answer: Answer, url: string, id: string)
    requires w.Shape() && kind != Reserve
    ensures var w' := Ask(settings, w, kind, answer, url, id);
      && w.operations <= w'.operations
      && forall i :: |w.operations| <= i < |w'.operations| ==>
           && VerdictOn(settings, w, kind, answer) == Proceed && w'.operations[i].kind == kind
           && w'.operations[i].draft
              == Received(settings, w, kind, answer, url).store.reservations[answer.qr.connectionId]
  {
    hide Received, VerdictOn, Apply;
    ReceivedAddsNone(settings, w, kind, answer, url);
  }

  lemma NewDraft(settings: Settings, w: World, a: Action)
    requires w.Shape() && Enabled(w, a) && MovesNone(a)
    ensures var w' := Next(settings, w, a); w.operations <= w'.operations
    ensures var w' := Next(settings, w, a); forall i :: |w.operations| <= i < |w'.operations| ==>
      if a.AskFor?
      then && VerdictOn(settings, w, a.kind, a.answer) == Proceed && w'.operations[i].kind == a.kind
           && w'.operations[i].draft
              == Received(settings, w, a.kind, a.answer, a.url).store.reservations[a.answer.qr.connectionId]
      else w'.operations[i].draft.lastError.None?
  {
    hide Apply, Ask, Received, VerdictOn;
    if a.AskFor? { AskDraft(settings, w, a.kind, a.answer, a.url, a.correlationId); }
  }

  // In this run nobody writes an error between the refresh of a provision or release and its
  // acceptance: the error stored is still the one its handler saw.
  ghost predicate Undisturbed(settings: Settings, w: World, actions: seq<Action>)
    requires w.Shape() && Runs(settings, w, actions)
    decreases |actions|
  {
    actions != [] ==>
      && (StartsActivation(w, actions[0]) ==>
            var op := w.operations[actions[0].op];
            w.store.reservations[op.connectionId].lastError == op.draft.lastError)
      && Undisturbed(settings, Next(settings, w, actions[0]), actions[1..])
  }

  // In every state the run passes through, a stored error means FAILED or TERMINATED.
  ghost predicate ErrorsFitAllAlong(settings: Settings, w: World, actions: seq<Action>)
    requires w.Shape() && Runs(settings, w, actions)
    decreases |actions|
  {
    && ErrorsFit(w.store)
    && (actions != [] ==> ErrorsFitAllAlong(settings, Next(settings, w, actions[0]), actions[1..]))
  }

  // It does so exactly if the run is undisturbed.
  lemma {:induction false} ErrorsFitThroughoutIff(settings: Settings, w: World, actions: seq<Action>)
    requires w.Shape() && ErrorsFit(w.store) && DraftsClean(w) && Runs(settings, w, actions)
    ensures ErrorsFitAllAlong(settings, w, actions) <==> Undisturbed(settings, w, actions)
    decreases |actions|
  {
    hide Next, ErrorsFit;
    if actions != [] {
      var a, next := actions[0], Next(settings, w, actions[0]);
      StepKeepsErrorsFitIff(settings, w, a);
      DraftsStayClean(settings, w, a);
      if ErrorsFit(next.store) {
        ErrorsFitThroughoutIff(settings, next, actions[1..]);
      }
    }
  }

  // Disturbed, it fails: a read of the reservation that finds an error event while a provision or
  // release is under way leaves the error behind the new ACTIVATING or DEACTIVATING status.
  lemma DisturbedAcceptanceMisleads(settings: Settings, w: World, i: nat, answer: Answer, c: string)
    returns (seen: World, misled: World)
    requires w.Shape() && i < |w.operations| && w.operations[i].phase.Sending?
    requires w.operations[i].kind == Provision || w.operations[i].kind == Release
    requires answer.Resolved? && answer.notifications.errorEvents != []
    requires answer.qr.connectionId == w.operations[i].connectionId
    ensures Enabled(w, Look(answer)) && seen == Next(settings, w, Look(answer))
    ensures Enabled(seen, Answered(i, Accepted(c))) && misled == Next(settings, seen, Answered(i, Accepted(c)))
    ensures answer.qr.connectionId in misled.store.reservations
    ensures var r := misled.store.reservations[answer.qr.connectionId];
      r.lastError.Some? && r.status in {ACTIVATING, DEACTIVATING} && !ErrorsFit(misled.store)
  {
    seen := SeenWithError(settings, w, answer);
    misled := Respond(seen, i, Accepted(c));
    assert !ErrorFits(misled.store.reservations[answer.qr.connectionId]);
  }

  lemma SeenWithError(settings: Settings, w: World, answer: Answer) returns (seen: World)
    requires w.Shape() && answer.Resolved? && answer.notifications.errorEvents != []
    ensures Enabled(w, Look(answer)) && seen == Next(settings, w, Look(answer)) && seen.operations == w.operations
    ensures answer.qr.connectionId in seen.store.reservations
    ensures seen.store.reservations[answer.qr.connectionId].lastError.Some?
  {
    seen := Next(settings, w, Look(answer));
  }
}
