/** Where the promise of one callback per task stops: two data-plane waits on one connection. The later
    wait takes over the entry of the earlier, and the earlier one's timeout cancels it. */
module DataPlaneOverlap {
  import opened Messages
  import opened StateMapping
  import opened StoreModel
  import opened Refresh
  import opened Protocol
  import opened ProtocolInvariant
  import opened ProtocolSteps
  import opened ProtocolProgress
  import opened ProtocolRuns

  // An undone data-plane future is still awaited by the operation that registered it.
  ghost predicate WaiterOk(w: World, f: nat)
    requires w.Shape() && f < |w.store.futures|
  {
    w.store.futures[f] == Pending && w.origins[f].key.ByConnection? ==>
      var j := w.origins[f].owner;
      j < |w.operations| && w.operations[j].phase == AwaitingDataPlane(f)
  }

  ghost predicate WaitersOk(w: World)
    requires w.Shape()
  {
    forall f :: 0 <= f < |w.store.futures| ==> WaiterOk(w, f)
  }

  // What every step but a data-plane timeout does: at most register futures that are awaited from now
  // on, let others leave Pending, and revoke nobody.
  ghost predicate Ordinary(w: World, w': World)
    requires w.Shape() && w'.Shape()
  {
    && w.origins <= w'.origins && w.history <= w'.history
    && (forall f :: 0 <= f < |w.store.futures| && w'.store.futures[f] == Pending ==> w.store.futures[f] == Pending)
    && (forall f :: |w.store.futures| <= f < |w'.store.futures| ==> WaiterOk(w', f))
    && (forall p :: |w.history| <= p < |w'.history| ==> !w'.history[p].Revoked?)
  }

  ghost predicate KeepsFutures(w: World, w': World) {
    w.store.futures <= w'.store.futures
  }

  lemma ReportOrdinary(w: World, i: nat, status: ReservationStatus, lastError: Option<Reason>)
    requires w.Shape() && i < |w.operations| && Attached(w.operations[i])
    ensures var w' := Report(w, i, status, lastError); Ordinary(w, w') && KeepsFutures(w, w')
  {
  }

  lemma AwaitDataPlaneOrdinary(w: World, i: nat, timeLeft: bool)
    requires w.Shape() && i < |w.operations| && Attached(w.operations[i])
    ensures var w' := AwaitDataPlane(w, i, timeLeft); Ordinary(w, w') && KeepsFutures(w, w')
  {
  }

  lemma PostCommitOrdinary(w: World, i: nat, m: NsiMessage, commitId: string)
    requires w.Shape() && i < |w.operations| && Attached(w.operations[i]) && m.ReserveConfirmed?
    ensures var w' := PostCommit(w, i, m, commitId); Ordinary(w, w') && KeepsFutures(w, w')
  {
  }

  lemma HandleReplyOrdinary(settings: Settings, w: World, i: nat, m: NsiMessage, commitId: string)
    requires w.Shape() && i < |w.operations| && Attached(w.operations[i])
    ensures var w' := HandleReply(settings, w, i, m, commitId); Ordinary(w, w') && KeepsFutures(w, w')
  {
    hide Report, PostCommit, AwaitDataPlane, Ordinary, KeepsFutures;
    var op := w.operations[i];
    if op.kind == Reserve && m.ReserveConfirmed? {
      PostCommitOrdinary(w, i, m, commitId);
    } else if (op.kind == Provision || op.kind == Release) && Confirms(op.kind, m) {
      AwaitDataPlaneOrdinary(w, i, settings.dataplaneTimeout > 0);
    } else if op.kind == Terminate {
      ReportOrdinary(w, i, TERMINATED, w.store.reservations[op.connectionId].lastError);
    } else {
      var reason := if op.kind == Reserve && m.ReserveFailed? then RejectedByAggregator(m.serviceException)
                    else if op.kind == Reserve && m.ReserveTimeout? then ReserveTimedOutAtAggregator
                    else UnexpectedMessage;
      ReportOrdinary(w, i, FAILED, Some(reason));
    }
  }

  lemma HandleCommitOrdinary(w: World, i: nat, m: NsiMessage)
    requires w.Shape() && i < |w.operations| && Attached(w.operations[i])
    ensures var w' := HandleCommit(w, i, m); Ordinary(w, w') && KeepsFutures(w, w')
  {
  }

  lemma HandleNotificationOrdinary(w: World, i: nat, m: NsiMessage, timeLeft: bool)
    requires w.Shape() && i < |w.operations| && Attached(w.operations[i])
    ensures var w' := HandleNotification(w, i, m, timeLeft); Ordinary(w, w') && KeepsFutures(w, w')
  {
  }

  lemma WakeOrdinary(settings: Settings, w: World, i: nat, fault: Fault, commitId: string, timeLeft: bool)
    requires w.Shape() && i < |w.operations| && Waiting(w.operations[i].phase)
    requires w.store.futures[w.operations[i].phase.future] != Pending
    ensures var w' := Wake(settings, w, i, fault, commitId, timeLeft); Ordinary(w, w') && KeepsFutures(w, w')
  {
    if w.store.futures[w.operations[i].phase.future].Done? {
      var v, m := Hears(w, i), w.store.futures[w.operations[i].phase.future].message;
      assert v.store == w.store && v.origins == w.origins && v.history == w.history;
      if fault != NoFault { InterruptedOrdinary(v, i, m, fault, commitId); }
      else if w.operations[i].phase.AwaitingReply? { HandleReplyOrdinary(settings, v, i, m, commitId); }
      else if w.operations[i].phase.AwaitingCommit? { HandleCommitOrdinary(v, i, m); }
      else { HandleNotificationOrdinary(v, i, m, timeLeft); }
    }
  }

  lemma InterruptedOrdinary(w: World, i: nat, m: NsiMessage, fault: Fault, commitId: string)
    requires w.Shape() && i < |w.operations| && Attached(w.operations[i]) && fault != NoFault
    ensures var w' := GiveUp(Interrupted(w, i, m, fault, commitId), i, InternalError);
            Ordinary(w, w') && KeepsFutures(w, w')
  {
  }

  lemma ReceivedOrdinary(settings: Settings, w: World, kind: Kind, answer: Answer, url: string)
    requires w.Shape() && kind != Reserve
    ensures var w' := Received(settings, w, kind, answer, url);
            Ordinary(w, w') && w'.store.futures == w.store.futures && w'.operations == w.operations
  {
  }

  lemma BeginOrdinary(w: World, kind: Kind, c: string, correlationId: string, draft: Reservation)
    requires w.Shape() && (kind != Reserve ==> c in w.store.reservations)
    ensures Ordinary(w, Begin(w, kind, c, correlationId, draft))
  {
  }

  lemma AskOrdinary(settings: Settings, w: World, kind: Kind, answer: Answer, url: string, correlationId: string)
    requires w.Shape() && kind != Reserve
    ensures Ordinary(w, Ask(settings, w, kind, answer, url, correlationId))
  {
    var c := answer.qr.connectionId;
    var received := Received(settings, w, kind, answer, url);
    ReceivedOrdinary(settings, w, kind, answer, url);
    BeginOrdinary(received, kind, c, correlationId, received.store.reservations[c]);
  }

  lemma DispatchOrdinary(w: World, correlationId: string, m: NsiMessage)
    requires w.Shape()
    ensures Ordinary(w, Dispatched(w, correlationId, m))
  {
  }

  lemma RequestOrdinary(settings: Settings, w: World, a: Action)
    requires w.Shape() && Enabled(w, a) && MovesNone(a)
    ensures Ordinary(w, Next(settings, w, a))
  {
    match a
    case Deliver(correlationId, m) => DispatchOrdinary(w, correlationId, m);
    case AskFor(kind, answer, url, correlationId) => AskOrdinary(settings, w, kind, answer, url, correlationId);
    case _ =>
  }

  lemma RespondOrdinary(w: World, i: nat, reply: SyncReply)
    requires w.Shape() && i < |w.operations| && w.operations[i].phase.Sending?
    ensures Ordinary(w, Respond(w, i, reply))
  {
  }

  lemma AnswerCommitOrdinary(w: World, i: nat, reply: CommitReply)
    requires w.Shape() && i < |w.operations| && w.operations[i].phase.SendingCommit?
    ensures Ordinary(w, AnswerCommit(w, i, reply))
  {
  }

  lemma LastStepsOrdinary(w: World, i: nat, events: seq<ErrorNotice>)
    requires w.Shape() && i < |w.operations|
    ensures w.operations[i].phase.QueryingNotifications? ==> Ordinary(w, AnswerNotifications(w, i, events))
    ensures w.operations[i].phase.Delivering? ==> Ordinary(w, Finish(w, i))
  {
  }

  lemma OwnStepOrdinary(settings: Settings, w: World, a: Action)
    requires w.Shape() && Enabled(w, a) && !MovesNone(a) && !a.Expired?
    ensures Ordinary(w, Next(settings, w, a))
  {
    hide Respond, Wake, AnswerCommit, AnswerNotifications, Finish, Ordinary;
    match a
    case Answered(i, reply) => RespondOrdinary(w, i, reply);
    case Woken(i, fault, commitId, timeLeft) => WakeOrdinary(settings, w, i, fault, commitId, timeLeft);
    case CommitAnswered(i, reply) => AnswerCommitOrdinary(w, i, reply);
    case NotificationsAnswered(i, events) => LastStepsOrdinary(w, i, events);
    case CallbackDone(i) => LastStepsOrdinary(w, i, []);
  }

  // A timeout differs in one thing: it may log the operation it revokes.
  lemma GiveUpFutures(w: World, i: nat, reason: Reason)
    requires w.Shape() && i < |w.operations| && Attached(w.operations[i])
    ensures GiveUp(w, i, reason).store.futures == w.store.futures && GiveUp(w, i, reason).origins == w.origins
  {
  }

  lemma ExpireFutures(w: World, i: nat)
    requires w.Shape() && i < |w.operations| && Waiting(w.operations[i].phase)
    ensures var w' := Expire(w, i);
      && w'.origins == w.origins && |w'.store.futures| == |w.store.futures|
      && (forall f :: 0 <= f < |w.store.futures| && w'.store.futures[f] == Pending ==> w.store.futures[f] == Pending)
      && w'.store.futures[w.operations[i].phase.future] != Pending
  {
    hide GiveUp;
    var v := w.(store := w.store.Abandon(w.operations[i].phase.future));
    if !w.operations[i].phase.AwaitingDataPlane? { GiveUpFutures(v, i, NoReplyInTime); }
  }

  lemma ExpireHistory(w: World, i: nat)
    requires w.Shape() && i < |w.operations| && Waiting(w.operations[i].phase)
    ensures w.history <= Expire(w, i).history
    ensures forall p :: |w.history| <= p < |Expire(w, i).history| && Expire(w, i).history[p].Revoked? ==>
      w.operations[i].phase.AwaitingDataPlane? && Victim(w, i) == Some(Expire(w, i).history[p].victim)
  {
  }

  lemma WaitersAfterOwnStep(w: World, w': World, i: nat)
    requires w.Shape() && w'.Shape() && WaitersOk(w) && MovesOnly(w, w', i)
    requires w.origins <= w'.origins
    requires forall f :: 0 <= f < |w.store.futures| && w'.store.futures[f] == Pending ==> w.store.futures[f] == Pending
    requires forall f :: |w.store.futures| <= f < |w'.store.futures| ==> WaiterOk(w', f)
    requires w.operations[i].phase.AwaitingDataPlane? ==> w'.store.futures[w.operations[i].phase.future] != Pending
    ensures WaitersOk(w')
  {
    forall f | 0 <= f < |w'.store.futures| ensures WaiterOk(w', f) {
      if f < |w.store.futures| { assert WaiterOk(w, f); }
    }
  }

  lemma WaitersAfterRequest(w: World, w': World)
    requires w.Shape() && w'.Shape() && WaitersOk(w) && Ordinary(w, w') && w.operations <= w'.operations
    ensures WaitersOk(w')
  {
    forall f | 0 <= f < |w'.store.futures| ensures WaiterOk(w', f) {
      if f < |w.store.futures| { assert WaiterOk(w, f); }
    }
  }

  lemma AwaitedIsNotPending(settings: Settings, w: World, a: Action)
    requires w.Shape() && Enabled(w, a) && !MovesNone(a) && !a.Expired?
    requires w.operations[OperationOf(a)].phase.AwaitingDataPlane?
    ensures Next(settings, w, a).store.futures[w.operations[OperationOf(a)].phase.future] != Pending
  {
    match a
    case Woken(i, fault, commitId, timeLeft) => WakeOrdinary(settings, w, i, fault, commitId, timeLeft);
  }

  lemma WaitersKept(settings: Settings, w: World, a: Action)
    requires w.Shape() && Enabled(w, a) && WaitersOk(w)
    ensures WaitersOk(Next(settings, w, a))
  {
    if MovesNone(a) {
      NoOwnStepAddsOne(settings, w, a);
      RequestOrdinary(settings, w, a);
      WaitersAfterRequest(w, Next(settings, w, a));
    } else {
      var i := OperationOf(a);
      OwnStepTouchesOne(settings, w, a, i);
      if a.Expired? { ExpireFutures(w, i); } else {
        OwnStepOrdinary(settings, w, a);
        if w.operations[i].phase.AwaitingDataPlane? { AwaitedIsNotPending(settings, w, a); }
      }
      WaitersAfterOwnStep(w, Next(settings, w, a), i);
    }
  }

  lemma {:induction false} WaitersAlways(settings: Settings, w: World, actions: seq<Action>)
    requires w.Shape() && WaitersOk(w) && Runs(settings, w, actions)
    ensures WaitersOk(Exec(settings, w, actions))
    decreases |actions|
  {
    if actions != [] {
      WaitersKept(settings, w, actions[0]);
      WaitersAlways(settings, Next(settings, w, actions[0]), actions[1..]);
    }
  }

  // Two operations wait for the data plane of one connection.
  ghost predicate Overlap(w: World, i: nat, j: nat) {
    && i < |w.operations| && j < |w.operations| && i != j
    && w.operations[i].phase.AwaitingDataPlane? && w.operations[j].phase.AwaitingDataPlane?
    && w.operations[i].connectionId == w.operations[j].connectionId
  }

  // A timeout revokes another wait exactly when the entry filed under its connection is another
  // operation's undone future; then the two waits overlap, and the other's future is cancelled.
  lemma TimeoutRevokesOnlyOverlaps(w: World, i: nat)
    requires Inv(w) && WaitersOk(w) && i < |w.operations| && w.operations[i].phase.AwaitingDataPlane?
    requires Victim(w, i).Some?
    ensures var j := Victim(w, i).value;
      && Overlap(w, i, j)
      && Expire(w, i).operations[j] == w.operations[j]
      && Expire(w, i).store.futures[w.operations[j].phase.future] == Cancelled
  {
    var c := w.operations[i].connectionId;
    var g := w.store.pendingByConnection[c];
    assert EntryOk(w, ByConnection(c), g) && WaiterOk(w, g);
    assert OpOk(w, i) && OpOk(w, Victim(w, i).value);
  }

  lemma TimeoutSparesTheRest(w: World, i: nat, j: nat)
    requires Inv(w) && i < |w.operations| && w.operations[i].phase.AwaitingDataPlane?
    requires j < |w.operations| && j != i && HasFuture(w.operations[j].phase)
    ensures w.store.futures[w.operations[j].phase.future] != Expire(w, i).store.futures[w.operations[j].phase.future]
        <==> Victim(w, i) == Some(j)
             && w.store.pendingByConnection[w.operations[i].connectionId] == w.operations[j].phase.future
  {
    hide FuturesOk, AdoptionOk, ReportsOk, InFlightOk, HeardOk, Story;
    assert OpOk(w, i) && OpOk(w, j);
  }

  ghost predicate NoOverlap(w: World) {
    forall i, j :: !Overlap(w, i, j)
  }

  // At most one live data-plane wait for each connection, in every state the run passes through.
  ghost predicate NeverOverlaps(settings: Settings, w: World, actions: seq<Action>)
    requires w.Shape() && Runs(settings, w, actions)
    decreases |actions|
  {
    NoOverlap(w) && (actions != [] ==> NeverOverlaps(settings, Next(settings, w, actions[0]), actions[1..]))
  }

  ghost predicate NobodyRevoked(w: World) {
    forall p :: 0 <= p < |w.history| ==> !w.history[p].Revoked?
  }

  lemma StepRevokesNobody(settings: Settings, w: World, a: Action)
    requires Inv(w) && WaitersOk(w) && Enabled(w, a) && NoOverlap(w) && NobodyRevoked(w)
    ensures NobodyRevoked(Next(settings, w, a))
  {
    var w' := Next(settings, w, a);
    if MovesNone(a) {
      RequestOrdinary(settings, w, a);
    } else if !a.Expired? {
      OwnStepOrdinary(settings, w, a);
    } else {
      ExpireHistory(w, a.op);
      if w.operations[a.op].phase.AwaitingDataPlane? && Victim(w, a.op).Some? {
        TimeoutRevokesOnlyOverlaps(w, a.op);
        assert false;
      }
    }
    forall p | 0 <= p < |w'.history| ensures !w'.history[p].Revoked? {
      assert p < |w.history| ==> w'.history[p] == w.history[p];
    }
  }

  lemma {:induction false} RunRevokesNobody(settings: Settings, w: World, actions: seq<Action>)
    requires Inv(w) && WaitersOk(w) && NobodyRevoked(w)
    requires Runs(settings, w, actions) && NeverOverlaps(settings, w, actions)
    ensures NobodyRevoked(Exec(settings, w, actions)) && Inv(Exec(settings, w, actions))
    decreases |actions|
  {
    if actions != [] {
      NextKeeps(settings, w, actions[0]);
      WaitersKept(settings, w, actions[0]);
      StepRevokesNobody(settings, w, actions[0]);
      RunRevokesNobody(settings, Next(settings, w, actions[0]), actions[1..]);
    }
  }

  // If data-plane waits never overlap on a connection, no task is ever aborted: every task that ends
  // has reported.
  lemma WithoutOverlapNobodyAborts(settings: Settings, actions: seq<Action>, i: nat)
    requires Runs(settings, INIT, actions) && NeverOverlaps(settings, INIT, actions)
    requires i < |Exec(settings, INIT, actions).operations|
    ensures var w := Exec(settings, INIT, actions);
      && !w.operations[i].phase.Aborted?
      && (Ended(w.operations[i].phase) ==> |Reports(w.history, i)| == 1)
  {
    InitInv();
    RunRevokesNobody(settings, INIT, actions);
    assert OpOk(Exec(settings, INIT, actions), i);
    NotAborted(Exec(settings, INIT, actions), i);
  }

  lemma NotAborted(w: World, i: nat)
    requires i < |w.operations| && OpOk(w, i) && NobodyRevoked(w) && ReportsOk(w)
    ensures !w.operations[i].phase.Aborted?
    ensures Ended(w.operations[i].phase) ==> |Reports(w.history, i)| == 1
  {
  }

  // ---------------------------------------------------------------- the overlap is reachable

  function Confirmation(kind: Kind, c: string): NsiMessage {
    if kind == Provision then ProvisionConfirmed(c) else ReleaseConfirmed(c)
  }

  // The newest operation waits for the data plane of c, and its undone future is filed under c.
  ghost predicate NewestWaits(w: World, n: nat, c: string)
    requires w.Shape()
  {
    && |w.operations| == n + 1
    && w.operations[n].connectionId == c
    && c in w.store.pendingByConnection
    && w.operations[n].phase == AwaitingDataPlane(w.store.pendingByConnection[c])
    && w.store.futures[w.store.pendingByConnection[c]] == Pending
    && w.origins[w.store.pendingByConnection[c]].owner == n
  }

  // Operation n, a provision or release, awaits its confirmation under id, which is undone and filed.
  ghost predicate AwaitsConfirmation(w: World, n: nat, kind: Kind, c: string, id: string)
    requires w.Shape()
  {
    && |w.operations| == n + 1 && w.operations[n].kind == kind && w.operations[n].connectionId == c
    && id in w.store.pending && w.operations[n].phase == AwaitingReply(w.store.pending[id])
    && w.store.futures[w.store.pending[id]] == Pending
  }

  lemma DriveStart(settings: Settings, w: World, kind: Kind, answer: Answer, url: string, id: string)
    returns (w': World, actions: seq<Action>)
    requires w.Shape() && (kind == Provision || kind == Release) && answer.Resolved? && id !in w.issued
    requires VerdictOn(settings, w, kind, answer) == Proceed
    ensures LeadsTo(settings, w, actions, w')
    ensures AwaitsConfirmation(w', |w.operations|, kind, answer.qr.connectionId, id)
    ensures w.operations <= w'.operations && w'.issued == w.issued + {id}
  {
    var n := |w.operations|;
    var w1 := DriveAsk(settings, w, kind, answer, url, id);
    w' := DriveAccept(settings, w1, n);
    LeadsOn(settings, w, [AskFor(kind, answer, url, id)], w1, [Answered(n, Accepted(""))], w');
    actions := [AskFor(kind, answer, url, id)] + [Answered(n, Accepted(""))];
  }

  lemma DriveEnd(settings: Settings, w: World, n: nat, kind: Kind, c: string, id: string)
    returns (w': World, actions: seq<Action>)
    requires w.Shape() && (kind == Provision || kind == Release) && settings.dataplaneTimeout > 0
    requires AwaitsConfirmation(w, n, kind, c, id) && "u" !in w.issued
    ensures LeadsTo(settings, w, actions, w') && NewestWaits(w', n, c)
    ensures w'.operations[..n] == w.operations[..n] && w'.issued == w.issued
  {
    var m := Confirmation(kind, c);
    var w1 := DriveConfirm(settings, w, id, m, w.store.pending[id]);
    w' := DriveWake(settings, w1, n, m);
    LeadsOn(settings, w, [Deliver(id, m)], w1, [Woken(n, NoFault, "u", true)], w');
    actions := [Deliver(id, m)] + [Woken(n, NoFault, "u", true)];
  }

  // A request that is let through, accepted and confirmed, up to its data-plane wait.
  lemma DriveToWait(settings: Settings, w: World, kind: Kind, answer: Answer, url: string, id: string)
    returns (w': World, actions: seq<Action>)
    requires w.Shape() && (kind == Provision || kind == Release) && answer.Resolved? && settings.dataplaneTimeout > 0
    requires VerdictOn(settings, w, kind, answer) == Proceed
    requires id !in w.issued && "u" !in w.issued && id != "u"
    ensures LeadsTo(settings, w, actions, w')
    ensures NewestWaits(w', |w.operations|, answer.qr.connectionId)
    ensures w.operations <= w'.operations && w'.issued == w.issued + {id}
  {
    var n, c := |w.operations|, answer.qr.connectionId;
    var mid, first := DriveStart(settings, w, kind, answer, url, id);
    var end, second := DriveEnd(settings, mid, n, kind, c, id);
    w', actions := end, first + second;
    LeadsOn(settings, w, first, mid, second, w');
    assert w'.operations[..n] == mid.operations[..n] == w.operations;
  }

  lemma DriveAsk(settings: Settings, w: World, kind: Kind, answer: Answer, url: string, id: string)
    returns (w': World)
    requires w.Shape() && (kind == Provision || kind == Release) && answer.Resolved? && id !in w.issued
    requires VerdictOn(settings, w, kind, answer) == Proceed
    ensures LeadsTo(settings, w, [AskFor(kind, answer, url, id)], w')
    ensures var n := |w.operations|;
      && |w'.operations| == n + 1 && w.operations <= w'.operations
      && w'.operations[n].kind == kind && w'.operations[n].connectionId == answer.qr.connectionId
      && w'.operations[n].phase == Sending(|w.store.futures|) && w'.issued == w.issued + {id}
      && id in w'.store.pending && w'.store.pending[id] == |w.store.futures| == |w'.store.futures| - 1
      && w'.store.futures[|w.store.futures|] == Pending
  {
    w' := Ask(settings, w, kind, answer, url, id);
    StepLeads(settings, w, AskFor(kind, answer, url, id));
  }

  lemma DriveAccept(settings: Settings, w: World, n: nat) returns (w': World)
    requires w.Shape() && |w.operations| == n + 1 && w.operations[n].phase.Sending?
    requires w.operations[n].kind == Provision || w.operations[n].kind == Release
    ensures LeadsTo(settings, w, [Answered(n, Accepted(""))], w')
    ensures w'.operations == w.operations[n := w.operations[n].(phase := AwaitingReply(w.operations[n].phase.future))]
    ensures w'.store.pending == w.store.pending && w'.store.futures == w.store.futures && w'.issued == w.issued
  {
    w' := Respond(w, n, Accepted(""));
    StepLeads(settings, w, Answered(n, Accepted("")));
  }

  lemma DriveConfirm(settings: Settings, w: World, id: string, m: NsiMessage, f: nat) returns (w': World)
    requires w.Shape() && id in w.store.pending && w.store.pending[id] == f && w.store.futures[f] == Pending
    requires !IsNotification(m)
    ensures LeadsTo(settings, w, [Deliver(id, m)], w')
    ensures |w'.store.futures| == |w.store.futures| && w'.store.futures[f] == Done(m)
    ensures w'.operations == w.operations && w'.issued == w.issued
  {
    w' := Dispatched(w, id, m);
    StepLeads(settings, w, Deliver(id, m));
  }

  lemma DriveWake(settings: Settings, w: World, n: nat, m: NsiMessage) returns (w': World)
    requires w.Shape() && |w.operations| == n + 1 && w.operations[n].phase.AwaitingReply? && "u" !in w.issued
    requires w.operations[n].kind == Provision || w.operations[n].kind == Release
    requires w.store.futures[w.operations[n].phase.future] == Done(m) && Confirms(w.operations[n].kind, m)
    requires settings.dataplaneTimeout > 0
    ensures LeadsTo(settings, w, [Woken(n, NoFault, "u", true)], w')
    ensures NewestWaits(w', n, w.operations[n].connectionId)
    ensures w'.operations[..n] == w.operations[..n] && w'.issued == w.issued
  {
    w' := Wake(settings, w, n, NoFault, "u", true);
    StepLeads(settings, w, Woken(n, NoFault, "u", true));
  }

  // After this run two waits overlap, and the first one's timeout would revoke the second.
  ghost predicate EndsInOverlap(settings: Settings, actions: seq<Action>) {
    && Runs(settings, INIT, actions)
    && var w := Exec(settings, INIT, actions);
       WaitersOk(w) && Overlap(w, 0, 1) && Victim(w, 0) == Some(1)
  }

  // Provision a connection, let its data-plane report get lost; the aggregator shows it active, so a
  // release is let through and waits too. The provision's timeout then revokes the release's wait.
  lemma OverlapIsReachable(settings: Settings, provisionable: Answer, releasable: Answer, url: string)
    requires settings.dataplaneTimeout > 0 && provisionable.Resolved? && releasable.Resolved?
    requires provisionable.qr.connectionId == releasable.qr.connectionId
    requires provisionable.Derived(settings).status == RESERVED && releasable.Derived(settings).status == ACTIVATED
    ensures exists actions :: EndsInOverlap(settings, actions)
  {
    var w, first := DriveToWait(settings, INIT, Provision, provisionable, url, "p");
    var w', second := DriveToWait(settings, w, Release, releasable, url, "r");
    LeadsOn(settings, INIT, first, w, second, w');
    LeadsIsRun(settings, INIT, first + second, w');
    BothWait(w, w', releasable.qr.connectionId);
    WaitersAlways(settings, INIT, first + second);
    assert EndsInOverlap(settings, first + second);
  }

  lemma BothWait(w: World, w': World, c: string)
    requires w.Shape() && w'.Shape() && NewestWaits(w, 0, c) && NewestWaits(w', 1, c) && w.operations <= w'.operations
    ensures Overlap(w', 0, 1) && Victim(w', 0) == Some(1)
  {
    assert w'.operations[0] == w.operations[0];
  }
}
