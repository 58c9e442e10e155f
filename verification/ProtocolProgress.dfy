/** Every task comes to an end: each of its own steps brings it closer, unless it consumes one more
    delivered message, and it can always take one. */
module ProtocolProgress {
  import opened Messages
  import opened StateMapping
  import opened StoreModel
  import opened ExceptionTrees
  import opened Refresh
  import opened Protocol
  import opened ProtocolInvariant
  import opened ProtocolSteps

  function Rank(p: Phase): nat {
    match p
    case Sending(_) => 6
    case AwaitingReply(_) => 5
    case SendingCommit(_) => 4
    case AwaitingCommit(_) => 3
    case AwaitingDataPlane(_) => 3
    case QueryingNotifications => 2
    case Delivering => 1
    case Finished => 0
    case Aborted => 0
    case Refused => 0
  }

  function HeardBy(w: World, i: nat): nat {
    if i < |w.operations| then |w.operations[i].heard| else 0
  }

  function RankOf(w: World, i: nat): nat {
    if i < |w.operations| then Rank(w.operations[i].phase) else 6
  }

  // Operation i came closer to its end, or consumed a notification.
  ghost predicate Advanced(w: World, w': World, i: nat) {
    && i < |w'.operations|
    && RankOf(w', i) + 1 + HeardBy(w, i) <= RankOf(w, i) + HeardBy(w', i)
    && HeardBy(w, i) <= HeardBy(w', i)
  }

  // A handler leaves what was heard alone and puts the operation at this rank or lower.
  ghost predicate Lands(w: World, w': World, i: nat, rank: nat) {
    && i < |w.operations| && i < |w'.operations|
    && w'.operations[i].heard == w.operations[i].heard && Rank(w'.operations[i].phase) <= rank
  }

  lemma ReportLands(w: World, i: nat, reason: Reason)
    requires w.Shape() && i < |w.operations| && Attached(w.operations[i])
    ensures Lands(w, GiveUp(w, i, reason), i, 1) && Lands(w, Fail(w, i, reason), i, 1)
  {
  }

  lemma MovesOnLands(w: World, i: nat, m: NsiMessage, commitId: string, timeLeft: bool)
    requires w.Shape() && i < |w.operations| && Attached(w.operations[i])
    ensures Lands(w, AwaitDataPlane(w, i, timeLeft), i, 3)
    ensures m.ReserveConfirmed? ==> Lands(w, PostCommit(w, i, m, commitId), i, 4)
  {
  }

  lemma HandleReplyLands(settings: Settings, w: World, i: nat, m: NsiMessage, commitId: string)
    requires w.Shape() && i < |w.operations| && Attached(w.operations[i])
    ensures Lands(w, HandleReply(settings, w, i, m, commitId), i, 4)
  {
    hide Fail, GiveUp, AwaitDataPlane, PostCommit;
    MovesOnLands(w, i, m, commitId, settings.dataplaneTimeout > 0);
    ReportLands(w, i, UnexpectedMessage);
    ReportLands(w, i, ReserveTimedOutAtAggregator);
    if m.ReserveFailed? { ReportLands(w, i, RejectedByAggregator(m.serviceException)); }
  }

  lemma HandleCommitLands(w: World, i: nat, m: NsiMessage)
    requires w.Shape() && i < |w.operations| && Attached(w.operations[i])
    ensures Lands(w, HandleCommit(w, i, m), i, 1)
  {
  }

  lemma HandleNotificationLands(w: World, i: nat, m: NsiMessage, timeLeft: bool)
    requires w.Shape() && i < |w.operations| && Attached(w.operations[i])
    ensures Lands(w, HandleNotification(w, i, m, timeLeft), i, 3)
  {
  }

  lemma HearsMore(w: World, v: World, i: nat)
    requires w.Shape() && i < |w.operations| && Waiting(w.operations[i].phase)
    requires w.store.futures[w.operations[i].phase.future].Done? && v == Hears(w, i)
    ensures v.Shape() && i < |v.operations| && HeardBy(v, i) == HeardBy(w, i) + 1
    ensures v.operations[i].phase == w.operations[i].phase && Attached(v.operations[i])
  {
  }

  lemma WakeAdvances(settings: Settings, w: World, i: nat, fault: Fault, commitId: string, timeLeft: bool)
    requires w.Shape() && i < |w.operations| && Waiting(w.operations[i].phase)
    requires w.store.futures[w.operations[i].phase.future] != Pending
    ensures Advanced(w, Wake(settings, w, i, fault, commitId, timeLeft), i)
  {
    if w.store.futures[w.operations[i].phase.future].Done? {
      var v, m := Hears(w, i), w.store.futures[w.operations[i].phase.future].message;
      HearsMore(w, v, i);
      if fault != NoFault { ReportLands(Interrupted(v, i, m, fault, commitId), i, InternalError); }
      else if w.operations[i].phase.AwaitingReply? { HandleReplyLands(settings, v, i, m, commitId); }
      else if w.operations[i].phase.AwaitingCommit? { HandleCommitLands(v, i, m); }
      else { HandleNotificationLands(v, i, m, timeLeft); }
    }
  }

  lemma RespondAdvances(w: World, i: nat, reply: SyncReply)
    requires w.Shape() && i < |w.operations| && w.operations[i].phase.Sending?
    ensures Advanced(w, Respond(w, i, reply), i)
  {
  }

  lemma ExpireAdvances(w: World, i: nat)
    requires w.Shape() && i < |w.operations| && Waiting(w.operations[i].phase)
    ensures Advanced(w, Expire(w, i), i)
  {
    hide GiveUp, ExpireDataPlane;
    if w.operations[i].phase.AwaitingDataPlane? {
      DataPlaneTimeoutLands(w, i);
    } else {
      ReportLands(w.(store := w.store.Abandon(w.operations[i].phase.future)), i, NoReplyInTime);
    }
  }

  lemma DataPlaneTimeoutLands(w: World, i: nat)
    requires w.Shape() && i < |w.operations| && w.operations[i].phase.AwaitingDataPlane?
    ensures Lands(w, ExpireDataPlane(w, i), i, 2)
  {
  }

  lemma AnswerCommitAdvances(w: World, i: nat, reply: CommitReply)
    requires w.Shape() && i < |w.operations| && w.operations[i].phase.SendingCommit?
    ensures Advanced(w, AnswerCommit(w, i, reply), i)
  {
    hide Fail, Report;
    ReportLands(w.(store := w.store.CancelPending(w.operations[i].commitId)), i, CommitNotSent);
    ReportLands(w, i, InternalError);
  }

  lemma LastStepsAdvance(w: World, i: nat, events: seq<ErrorNotice>)
    requires w.Shape() && i < |w.operations|
    ensures w.operations[i].phase.QueryingNotifications? ==> Advanced(w, AnswerNotifications(w, i, events), i)
    ensures w.operations[i].phase.Delivering? ==> Advanced(w, Finish(w, i), i)
  {
  }

  // A step of the operation's own brings it closer to its end, or consumes a notification.
  lemma OwnStepAdvances(settings: Settings, w: World, a: Action, i: nat)
    requires w.Shape() && Enabled(w, a) && Moves(a, i)
    ensures Advanced(w, Next(settings, w, a), i)
  {
    hide Respond, Wake, Expire, AnswerCommit, AnswerNotifications, Finish, Advanced;
    match a
    case Answered(_, reply) => RespondAdvances(w, i, reply);
    case Woken(_, fault, commitId, timeLeft) => WakeAdvances(settings, w, i, fault, commitId, timeLeft);
    case Expired(_) => ExpireAdvances(w, i);
    case CommitAnswered(_, reply) => AnswerCommitAdvances(w, i, reply);
    case NotificationsAnswered(_, events) => LastStepsAdvance(w, i, events);
    case CallbackDone(_) => LastStepsAdvance(w, i, []);
  }

  lemma OwnStepTouchesOne(settings: Settings, w: World, a: Action, k: nat)
    requires w.Shape() && Enabled(w, a) && Moves(a, k)
    ensures MovesOnly(w, Next(settings, w, a), k)
  {
    match a
    case Answered(_, reply) => assert MovesOnly(w, Respond(w, k, reply), k);
    case Woken(_, fault, commitId, timeLeft) =>
      assert MovesOnly(w, Wake(settings, w, k, fault, commitId, timeLeft), k);
    case Expired(_) => assert MovesOnly(w, Expire(w, k), k);
    case CommitAnswered(_, reply) => assert MovesOnly(w, AnswerCommit(w, k, reply), k);
    case NotificationsAnswered(_, events) => assert MovesOnly(w, AnswerNotifications(w, k, events), k);
    case CallbackDone(_) => assert MovesOnly(w, Finish(w, k), k);
  }

  predicate MovesNone(a: Action) {
    a.Deliver? || a.Look? || a.AskReserve? || a.Reuse? || a.AskFor?
  }

  // A step that is no operation's own adds at most one operation, which has just been sent.
  lemma NoOwnStepAddsOne(settings: Settings, w: World, a: Action)
    requires w.Shape() && Enabled(w, a) && MovesNone(a)
    ensures AddsAtMostOne(w, Next(settings, w, a))
  {
    match a
    case AskFor(kind, answer, url, correlationId) => AskAddsOne(settings, w, kind, answer, url, correlationId);
    case _ =>
  }

  ghost predicate AddsAtMostOne(w: World, w': World) {
    && w.operations <= w'.operations && |w'.operations| <= |w.operations| + 1
    && (|w'.operations| == |w.operations| + 1 ==>
          w'.operations[|w.operations|].phase.Sending? && w'.operations[|w.operations|].heard == [])
  }

  lemma AskAddsOne(settings: Settings, w: World, kind: Kind, answer: Answer, url: string, correlationId: string)
    requires w.Shape() && kind != Reserve
    ensures AddsAtMostOne(w, Ask(settings, w, kind, answer, url, correlationId))
  {
    hide Received, VerdictOn, Apply;
    ReceivedAddsNone(settings, w, kind, answer, url);
  }

  lemma ReceivedAddsNone(settings: Settings, w: World, kind: Kind, answer: Answer, url: string)
    requires w.Shape() && kind != Reserve
    ensures Received(settings, w, kind, answer, url).operations == w.operations
  {
    hide VerdictOn, Apply;
  }

  function OperationOf(a: Action): nat
    requires !MovesNone(a)
    ensures Moves(a, OperationOf(a)) && forall i :: Moves(a, i) ==> i == OperationOf(a)
  {
    match a
    case Answered(k, _) => k
    case Woken(k, _, _, _) => k
    case Expired(k) => k
    case CommitAnswered(k, _) => k
    case NotificationsAnswered(k, _) => k
    case CallbackDone(k) => k
  }

  // No other step moves it at all.
  lemma OtherStepLeaves(settings: Settings, w: World, a: Action, i: nat)
    requires w.Shape() && Enabled(w, a) && !Moves(a, i) && i < |w.operations|
    ensures var w' := Next(settings, w, a); i < |w'.operations| && w'.operations[i] == w.operations[i]
  {
    hide Next;
    if MovesNone(a) { NoOwnStepAddsOne(settings, w, a); } else { OwnStepTouchesOne(settings, w, a, OperationOf(a)); }
  }

  // The steps of a run that are the operation's own.
  function OwnSteps(actions: seq<Action>, i: nat): nat {
    if actions == [] then 0 else (if Moves(actions[0], i) then 1 else 0) + OwnSteps(actions[1..], i)
  }

  lemma {:induction false} OwnStepsBounded(settings: Settings, w: World, actions: seq<Action>, i: nat)
    requires w.Shape() && Runs(settings, w, actions)
    ensures var w' := Exec(settings, w, actions);
            RankOf(w', i) + OwnSteps(actions, i) + HeardBy(w, i) <= RankOf(w, i) + HeardBy(w', i)
    decreases |actions|
  {
    hide Next;
    if actions != [] {
      var a, next := actions[0], Next(settings, w, actions[0]);
      if Moves(a, i) {
        OwnStepAdvances(settings, w, a, i);
      } else if i < |w.operations| {
        OtherStepLeaves(settings, w, a, i);
      } else {
        NewOperationsStart(settings, w, a, i);
      }
      OwnStepsBounded(settings, next, actions[1..], i);
    }
  }

  lemma NewOperationsStart(settings: Settings, w: World, a: Action, i: nat)
    requires w.Shape() && Enabled(w, a) && i >= |w.operations|
    ensures RankOf(Next(settings, w, a), i) == 6 && HeardBy(Next(settings, w, a), i) == 0
  {
    hide Next;
    if MovesNone(a) { NoOwnStepAddsOne(settings, w, a); } else { OwnStepTouchesOne(settings, w, a, OperationOf(a)); }
  }

  // How many messages the aggregator delivered.
  function Deliveries(history: seq<Event>): nat {
    if history == [] then 0
    else Deliveries(history[..|history| - 1]) + (if history[|history| - 1].Delivered? then 1 else 0)
  }

  lemma {:induction false} DeliveriesGrow(h: seq<Event>, n: nat)
    requires n <= |h|
    ensures Deliveries(h[..n]) <= Deliveries(h)
    decreases |h|
  {
    if n < |h| {
      assert h[..|h| - 1][..n] == h[..n];
      DeliveriesGrow(h[..|h| - 1], n);
    } else {
      assert h[..n] == h;
    }
  }

  // An operation hears no more messages than were delivered.
  lemma {:induction false} HeardWereDelivered(h: seq<Event>, heard: seq<Hearing>)
    requires forall k :: 0 <= k < |heard| ==> heard[k].at < |h| && h[heard[k].at].Delivered?
    requires forall j, k :: 0 <= j < k < |heard| ==> heard[j].at < heard[k].at
    ensures |heard| <= Deliveries(h)
    decreases |heard|
  {
    if heard != [] {
      var last := heard[|heard| - 1].at;
      HeardWereDelivered(h[..last], heard[..|heard| - 1]);
      assert h[..last + 1][..last] == h[..last];
      DeliveriesGrow(h, last + 1);
    }
  }

  // In any run an operation takes at most six steps of its own, plus one for each message delivered:
  // it cannot loop, however the data-plane wait is fed.
  lemma TasksAreBounded(settings: Settings, actions: seq<Action>, i: nat)
    requires Runs(settings, INIT, actions)
    ensures OwnSteps(actions, i) + RankOf(Exec(settings, INIT, actions), i)
         <= 6 + Deliveries(Exec(settings, INIT, actions).history)
  {
    OwnStepsBounded(settings, INIT, actions, i);
    InitInv();
    RunsKeep(settings, INIT, actions);
    HeardBounded(Exec(settings, INIT, actions), i);
  }

  lemma HeardBounded(w: World, i: nat)
    requires Inv(w)
    ensures HeardBy(w, i) <= Deliveries(w.history)
  {
    if i < |w.operations| {
      assert OpOk(w, i);
      var op := w.operations[i];
      forall k | 0 <= k < |op.heard| ensures op.heard[k].at < |w.history| && w.history[op.heard[k].at].Delivered? {
        assert HeardAt(w, op, k);
      }
      HeardWereDelivered(w.history, op.heard);
    }
  }

  // And it is never stuck: while it has not ended, some step of its own is possible that lowers its
  // rank, whatever the aggregator does or does not send.
  lemma TasksCanAlwaysLeave(settings: Settings, w: World, i: nat)
    requires w.Shape() && i < |w.operations| && RankOf(w, i) > 0
    ensures exists a :: Enabled(w, a) && Moves(a, i) && RankOf(Next(settings, w, a), i) < RankOf(w, i)
  {
    hide Expire;
    var a := match w.operations[i].phase
      case Sending(_) => Answered(i, SendFailed)
      case AwaitingReply(_) => Expired(i)
      case SendingCommit(_) => CommitAnswered(i, CommitFailed)
      case AwaitingCommit(_) => Expired(i)
      case AwaitingDataPlane(_) => Expired(i)
      case QueryingNotifications => NotificationsAnswered(i, [])
      case _ => CallbackDone(i);
    assert Enabled(w, a) && Moves(a, i);
    if Waiting(w.operations[i].phase) { ExpireLowers(w, i); }
    assert RankOf(Next(settings, w, a), i) < RankOf(w, i);
  }

  lemma ExpireLowers(w: World, i: nat)
    requires w.Shape() && i < |w.operations| && Waiting(w.operations[i].phase)
    ensures RankOf(Expire(w, i), i) < RankOf(w, i)
  {
    hide GiveUp, ExpireDataPlane;
    if w.operations[i].phase.AwaitingDataPlane? {
      DataPlaneTimeoutLands(w, i);
    } else {
      ReportLands(w.(store := w.store.Abandon(w.operations[i].phase.future)), i, NoReplyInTime);
    }
  }

  // Once ended, for ever the same.
  lemma {:induction false} EndedForGood(settings: Settings, w: World, actions: seq<Action>, i: nat)
    requires w.Shape() && Runs(settings, w, actions) && i < |w.operations| && Ended(w.operations[i].phase)
    ensures var w' := Exec(settings, w, actions); i < |w'.operations| && w'.operations[i] == w.operations[i]
    decreases |actions|
  {
    hide Next;
    if actions != [] {
      OtherStepLeaves(settings, w, actions[0], i);
      EndedForGood(settings, Next(settings, w, actions[0]), actions[1..], i);
    }
  }
}
