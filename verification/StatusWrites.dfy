/** Who writes a reservation, and what status it gets. */
module StatusWrites {
  import opened Messages
  import opened StateMapping
  import opened StoreModel
  import opened ExceptionTrees
  import opened Refresh
  import opened Protocol
  import opened ProtocolInvariant
  import opened ProtocolSteps
  import opened ProtocolProgress

  // The one connection whose reservation a step may write, if any.
  ghost function Subject(w: World, a: Action): Option<string>
    requires w.Shape() && Enabled(w, a)
  {
    match a
    case Deliver(_, _) => None
    case Look(answer) => Some(answer.qr.connectionId)
    case AskReserve(_, _, _, _, _, _, _) => None
    case Reuse(connectionId, _) => Some(connectionId)
    case AskFor(_, answer, _, _) => Some(answer.qr.connectionId)
    case Answered(i, reply) =>
      if reply.Accepted? && w.operations[i].kind == Reserve then Some(reply.connectionId)
      else if reply.Accepted? then Some(w.operations[i].connectionId)
      else None
    case CallbackDone(_) => None
    case _ => Some(w.operations[OperationOf(a)].connectionId)
  }

  // The status that a step gives its subject, if it writes one.
  ghost function Written(settings: Settings, w: World, a: Action): Option<ReservationStatus>
    requires w.Shape() && Enabled(w, a)
  {
    match a
    case Look(answer) => Some(answer.Derived(settings).status)
    case AskFor(_, answer, _, _) => Some(answer.Derived(settings).status)
    case Answered(i, reply) =>
      if !reply.Accepted? then None
      else
        (match w.operations[i].kind
         case Reserve => Some(RESERVING)
         case Provision => Some(ACTIVATING)
         case Release => Some(DEACTIVATING)
         case Terminate => None)
    case Reuse(_, _) => None
    case CallbackDone(_) => None
    case _ => if MovesNone(a) then None else SettledStatus(w, Next(settings, w, a), OperationOf(a))
  }

  // The final status that operation i reports between w and w'.
  function SettledStatus(w: World, w': World, i: nat): Option<ReservationStatus> {
    if i < |w.operations| && i < |w'.operations| && w.operations[i].outcome.None? && w'.operations[i].outcome.Some?
    then Some(w'.operations[i].outcome.value.status)
    else None
  }

  ghost predicate OnlyTouches(w: World, w': World, subject: Option<string>) {
    forall c :: Some(c) != subject ==> Stored(w'.store, c) == Stored(w.store, c)
  }

  function StatusOf(s: StoreState, c: string): Option<ReservationStatus> {
    if c in s.reservations then Some(s.reservations[c].status) else None
  }

  // w' is w with at most the subject's reservation written, and its status only as said.
  ghost predicate Writes(w: World, w': World, subject: Option<string>, written: Option<ReservationStatus>) {
    && OnlyTouches(w, w', subject)
    && (subject.Some? ==>
          StatusOf(w'.store, subject.value) == if written.Some? then written else StatusOf(w.store, subject.value))
  }

  // ---------------------------------------------------------------- task steps

  // Operation i, whose connection is c, has no outcome yet.
  ghost predicate Open(w: World, i: nat, c: string)
    requires w.Shape()
  {
    && i < |w.operations| && Attached(w.operations[i])
    && w.operations[i].connectionId == c && w.operations[i].outcome.None?
  }

  // A step of operation i that starts from w's store: it writes c only, and a status only with an outcome.
  ghost predicate TaskWrites(w: World, w': World, i: nat, c: string)
    requires w.Shape() && w'.Shape()
  {
    Writes(w, w', Some(c), SettledStatus(w, w', i))
  }

  lemma ReportWrites(w: World, i: nat, c: string, status: ReservationStatus, lastError: Option<Reason>)
    requires w.Shape() && Open(w, i, c)
    ensures TaskWrites(w, Report(w, i, status, lastError), i, c)
    ensures SettledStatus(w, Report(w, i, status, lastError), i) == Some(status)
  {
  }

  lemma GiveUpWrites(w: World, i: nat, c: string, reason: Reason)
    requires w.Shape() && Open(w, i, c)
    ensures TaskWrites(w, Fail(w, i, reason), i, c) && TaskWrites(w, GiveUp(w, i, reason), i, c)
  {
    hide TaskWrites;
    ReportWrites(w, i, c, FAILED, Some(reason));
    ReportWrites(w, i, c, TERMINATED, w.store.reservations[c].lastError);
  }

  lemma GoesOnWrites(w: World, i: nat, c: string, m: NsiMessage, commitId: string, timeLeft: bool)
    requires w.Shape() && Open(w, i, c)
    ensures TaskWrites(w, AwaitDataPlane(w, i, timeLeft), i, c)
    ensures m.ReserveConfirmed? ==> TaskWrites(w, PostCommit(w, i, m, commitId), i, c)
  {
  }

  lemma HandleReplyWrites(settings: Settings, w: World, i: nat, c: string, m: NsiMessage, commitId: string)
    requires w.Shape() && Open(w, i, c)
    ensures TaskWrites(w, HandleReply(settings, w, i, m, commitId), i, c)
  {
    hide TaskWrites, Fail, GiveUp, AwaitDataPlane, PostCommit;
    GoesOnWrites(w, i, c, m, commitId, settings.dataplaneTimeout > 0);
    GiveUpWrites(w, i, c, UnexpectedMessage);
    GiveUpWrites(w, i, c, ReserveTimedOutAtAggregator);
    if m.ReserveFailed? { GiveUpWrites(w, i, c, RejectedByAggregator(m.serviceException)); }
  }

  lemma HandleCommitWrites(w: World, i: nat, c: string, m: NsiMessage)
    requires w.Shape() && Open(w, i, c)
    ensures TaskWrites(w, HandleCommit(w, i, m), i, c)
  {
    hide TaskWrites, Fail, Report;
    GiveUpWrites(w, i, c, UnexpectedMessage);
    if m.ReserveCommitFailed? { GiveUpWrites(w, i, c, RejectedByAggregator(m.serviceException)); }
    ReportWrites(w, i, c, RESERVED, None);
  }

  lemma HandleNotificationWrites(w: World, i: nat, c: string, m: NsiMessage, timeLeft: bool)
    requires w.Shape() && Open(w, i, c)
    ensures TaskWrites(w, HandleNotification(w, i, m, timeLeft), i, c)
  {
    hide TaskWrites, Fail, Report, AwaitDataPlane;
    GoesOnWrites(w, i, c, m, "", timeLeft);
    if m.ErrorEvent? { GiveUpWrites(w, i, c, ErrorReason(m)); }
    ReportWrites(w, i, c, SuccessStatus(w.operations[i].kind), None);
  }

  // A step may be seen from a world that differs from w in futures and in what operation i has heard.
  lemma TaskWritesFrom(w: World, v: World, w': World, i: nat, c: string)
    requires w.Shape() && v.Shape() && w'.Shape() && v.store.reservations == w.store.reservations
    requires i < |w.operations| && i < |v.operations| && v.operations[i].outcome == w.operations[i].outcome
    requires TaskWrites(v, w', i, c)
    ensures TaskWrites(w, w', i, c)
  {
  }

  lemma InterruptedWrites(w: World, i: nat, c: string, m: NsiMessage, fault: Fault, commitId: string)
    requires w.Shape() && Open(w, i, c) && fault != NoFault
    ensures TaskWrites(w, GiveUp(Interrupted(w, i, m, fault, commitId), i, InternalError), i, c)
  {
    hide GiveUp;
    var v := Interrupted(w, i, m, fault, commitId);
    GiveUpWrites(v, i, c, InternalError);
  }

  lemma WakeWrites(settings: Settings, w: World, i: nat, c: string, fault: Fault, commitId: string, timeLeft: bool)
    requires w.Shape() && Open(w, i, c) && Waiting(w.operations[i].phase)
    requires w.store.futures[w.operations[i].phase.future] != Pending
    ensures TaskWrites(w, Wake(settings, w, i, fault, commitId, timeLeft), i, c)
  {
    if w.store.futures[w.operations[i].phase.future].Done? {
      var v, m := Hears(w, i), w.store.futures[w.operations[i].phase.future].message;
      HeardWrites(settings, w, v, i, c, m, fault, commitId, timeLeft);
    }
  }

  lemma HeardWrites(settings: Settings, w: World, v: World, i: nat, c: string, m: NsiMessage, fault: Fault,
                    commitId: string, timeLeft: bool)
    requires w.Shape() && Open(w, i, c) && Waiting(w.operations[i].phase)
    requires w.store.futures[w.operations[i].phase.future] == Done(m) && v == Hears(w, i)
    ensures TaskWrites(w, Wake(settings, w, i, fault, commitId, timeLeft), i, c)
  {
    hide TaskWrites, GiveUp, Interrupted, HandleReply, HandleCommit, HandleNotification;
    HandleReplyWrites(settings, v, i, c, m, commitId);
    HandleCommitWrites(v, i, c, m);
    HandleNotificationWrites(v, i, c, m, timeLeft);
    if fault != NoFault { InterruptedWrites(v, i, c, m, fault, commitId); }
    TaskWritesFrom(w, v, Wake(settings, w, i, fault, commitId, timeLeft), i, c);
  }

  lemma ExpireWrites(w: World, i: nat, c: string)
    requires w.Shape() && Open(w, i, c) && Waiting(w.operations[i].phase)
    ensures TaskWrites(w, Expire(w, i), i, c)
  {
    var v := w.(store := w.store.Abandon(w.operations[i].phase.future));
    if !w.operations[i].phase.AwaitingDataPlane? {
      GiveUpWrites(v, i, c, NoReplyInTime);
      TaskWritesFrom(w, v, Expire(w, i), i, c);
    }
  }

  lemma CommitAnswerWrites(w: World, i: nat, c: string, reply: CommitReply)
    requires w.Shape() && Open(w, i, c) && w.operations[i].phase.SendingCommit?
    ensures TaskWrites(w, AnswerCommit(w, i, reply), i, c)
  {
    hide Fail;
    if reply.CommitFailed? {
      var v := w.(store := w.store.CancelPending(w.operations[i].commitId));
      GiveUpWrites(v, i, c, CommitNotSent);
      TaskWritesFrom(w, v, Fail(v, i, CommitNotSent), i, c);
    }
    GiveUpWrites(w, i, c, InternalError);
  }

  lemma NotificationsAnswerWrites(w: World, i: nat, c: string, events: seq<ErrorNotice>)
    requires w.Shape() && Open(w, i, c) && w.operations[i].phase.QueryingNotifications?
    ensures TaskWrites(w, AnswerNotifications(w, i, events), i, c)
  {
    hide Fail, TaskWrites;
    var found := LastErrorOf(events);
    GiveUpWrites(w, i, c, if found.Some? then found.value else DataPlaneSilent(Target(w.operations[i].kind)));
  }

  // ---------------------------------------------------------------- requests and responses

  lemma ReceivedWrites(settings: Settings, w: World, kind: Kind, answer: Answer, url: string)
    requires w.Shape() && kind != Reserve
    ensures Writes(w, Received(settings, w, kind, answer, url), Some(answer.qr.connectionId),
                   Some(answer.Derived(settings).status))
  {
    hide VerdictOn;
  }

  lemma AskWrites(settings: Settings, w: World, kind: Kind, answer: Answer, url: string, id: string)
    requires w.Shape() && kind != Reserve
    ensures Writes(w, Ask(settings, w, kind, answer, url, id), Some(answer.qr.connectionId),
                   Some(answer.Derived(settings).status))
  {
    hide VerdictOn, Received;
    var c, received := answer.qr.connectionId, Received(settings, w, kind, answer, url);
    ReceivedWrites(settings, w, kind, answer, url);
    BeginWritesNothing(received, kind, c, id, received.store.reservations[c]);
  }

  lemma BeginWritesNothing(w: World, kind: Kind, c: string, id: string, draft: Reservation)
    requires w.Shape() && (kind != Reserve ==> c in w.store.reservations)
    ensures Begin(w, kind, c, id, draft).store.reservations == w.store.reservations
  {
  }

  lemma RespondWrites(settings: Settings, w: World, i: nat, reply: SyncReply)
    requires w.Shape() && i < |w.operations| && w.operations[i].phase.Sending?
    requires Enabled(w, Answered(i, reply))
    ensures Writes(w, Respond(w, i, reply), Subject(w, Answered(i, reply)), Written(settings, w, Answered(i, reply)))
  {
  }

  lemma OpenWhileRunning(w: World, i: nat)
    requires Inv(w) && i < |w.operations|
    requires var p := w.operations[i].phase; Waiting(p) || p.SendingCommit? || p.QueryingNotifications?
    ensures Open(w, i, w.operations[i].connectionId)
  {
    assert OpOk(w, i);
  }

  lemma RequestExplained(settings: Settings, w: World, a: Action)
    requires w.Shape() && Enabled(w, a) && MovesNone(a)
    ensures Writes(w, Next(settings, w, a), Subject(w, a), Written(settings, w, a))
  {
    hide Ask;
    match a
    case AskFor(kind, answer, url, id) => AskWrites(settings, w, kind, answer, url, id);
    case _ =>
  }

  lemma OwnStepExplained(settings: Settings, w: World, a: Action)
    requires Inv(w) && Enabled(w, a) && !MovesNone(a)
    ensures Writes(w, Next(settings, w, a), Subject(w, a), Written(settings, w, a))
  {
    hide FuturesOk, AdoptionOk, ReportsOk, InFlightOk, OpOk, Open, Respond, Wake, Expire, AnswerCommit,
         AnswerNotifications;
    match a
    case Answered(i, reply) => RespondWrites(settings, w, i, reply);
    case Woken(i, fault, commitId, timeLeft) =>
      OpenWhileRunning(w, i);
      WakeWrites(settings, w, i, w.operations[i].connectionId, fault, commitId, timeLeft);
    case Expired(i) =>
      OpenWhileRunning(w, i);
      ExpireWrites(w, i, w.operations[i].connectionId);
    case CommitAnswered(i, reply) =>
      OpenWhileRunning(w, i);
      CommitAnswerWrites(w, i, w.operations[i].connectionId, reply);
    case NotificationsAnswered(i, events) =>
      OpenWhileRunning(w, i);
      NotificationsAnswerWrites(w, i, w.operations[i].connectionId, events);
    case CallbackDone(i) => FinishWritesNothing(w, i);
  }

  lemma FinishWritesNothing(w: World, i: nat)
    requires w.Shape() && i < |w.operations| && w.operations[i].phase.Delivering?
    ensures Finish(w, i).store.reservations == w.store.reservations
  {
  }

  // Every step writes at most one reservation. Its status afterwards is the derived one after a
  // refresh, the transient one of its kind after an acceptance, the outcome's after a task's final
  // write, and the same as before otherwise.
  lemma StatusChangesAreExplained(settings: Settings, w: World, a: Action)
    requires Inv(w) && Enabled(w, a)
    ensures Writes(w, Next(settings, w, a), Subject(w, a), Written(settings, w, a))
  {
    hide Next, Writes, Subject, Written;
    if MovesNone(a) { RequestExplained(settings, w, a); } else { OwnStepExplained(settings, w, a); }
  }
}
