/** Terminating while a reserve may still be under way: what the in-flight flag guarantees, and for
    which connections it does not. */
module TerminateSafety {
  import opened Messages
  import opened StateMapping
  import opened StoreModel
  import opened Refresh
  import opened RefreshProofs
  import opened Protocol
  import opened ProtocolInvariant
  import opened ProtocolSteps
  import opened ProtocolProgress
  import opened StatusWrites
  import opened ProtocolRuns
  import opened FreshNames
  import opened HandlerVerdicts

  // At every suspension point the flag is set exactly while the connection's reserve task, of which
  // there is at most one, has not ended.
  lemma FlagMeansRunningReserve(settings: Settings, actions: seq<Action>, c: string)
    requires Runs(settings, INIT, actions)
    ensures var w := Exec(settings, INIT, actions);
      && (c in w.store.reservesInFlight <==> exists i :: RunsReserve(w, i, c))
      && (forall i, j :: ServesReserve(w, i, c) && ServesReserve(w, j, c) ==> i == j)
  {
    InitInv();
    RunsKeep(settings, INIT, actions);
    FlagMeaning(Exec(settings, INIT, actions), c);
  }

  // Operation i is the reserve task that was started for connection c.
  ghost predicate ServesReserve(w: World, i: nat, c: string) {
    && i < |w.operations| && w.operations[i].kind == Reserve && Started(w.operations[i].phase)
    && w.operations[i].connectionId == c
  }

  ghost predicate RunsReserve(w: World, i: nat, c: string) {
    ServesReserve(w, i, c) && !Ended(w.operations[i].phase)
  }

  lemma FlagMeaning(w: World, c: string)
    requires InFlightOk(w)
    ensures c in w.store.reservesInFlight <==> exists i :: RunsReserve(w, i, c)
    ensures forall i, j :: ServesReserve(w, i, c) && ServesReserve(w, j, c) ==> i == j
  {
    if c in w.store.reservesInFlight {
      assert ReserverOk(w, c);
      assert RunsReserve(w, w.accepted[c], c);
    }
  }

  // A terminate that is let through in any state but RESERVED and FAILED saw no reserve in flight.
  lemma TerminateSawNoReserve(settings: Settings, w: World, answer: Answer)
    requires VerdictOn(settings, w, Terminate, answer) == Proceed
    ensures answer.Derived(settings).status in {RESERVED, FAILED}
         || answer.qr.connectionId !in w.store.reservesInFlight
  {
  }

  // ---------------------------------------------------------------- reserves that write no more

  // Reserve tasks write nothing more for c than they had in w.
  ghost predicate ReservesSilent(w: World, w': World, c: string) {
    forall i :: ServesReserve(w', i, c) ==> Reports(w'.history, i) == Reports(w.history, i)
  }

  // The reserve of c was accepted by the aggregator, and its task has made its final write.
  ghost predicate ReserveConcluded(w: World, c: string) {
    c in w.accepted && w.accepted[c] < |w.operations| && w.operations[w.accepted[c]].outcome.Some?
  }

  lemma {:induction false} ReportsGrow(h: seq<Event>, h': seq<Event>, i: nat)
    requires h <= h'
    ensures Reports(h, i) <= Reports(h', i)
    decreases |h'|
  {
    if |h| == |h'| {
      assert h == h';
    } else {
      assert h <= h'[..|h'| - 1];
      ReportsGrow(h, h'[..|h'| - 1], i);
    }
  }

  lemma ConcludedReserveIsSilent(settings: Settings, w: World, c: string, actions: seq<Action>)
    requires Inv(w) && ReserveConcluded(w, c) && Runs(settings, w, actions)
    ensures ReservesSilent(w, Exec(settings, w, actions), c)
  {
    var w' := Exec(settings, w, actions);
    RunsKeep(settings, w, actions);
    SilentAfterReport(w, w', c);
  }

  lemma SilentAfterReport(w: World, w': World, c: string)
    requires ReportsOk(w) && ReportsOk(w') && InFlightOk(w') && ReserveConcluded(w, c)
    requires w.history <= w'.history && |w.operations| <= |w'.operations|
    requires c in w'.accepted && w'.accepted[c] == w.accepted[c]
    ensures ReservesSilent(w, w', c)
  {
    var k := w.accepted[c];
    ReportsGrow(w.history, w'.history, k);
    forall i | ServesReserve(w', i, c) ensures Reports(w'.history, i) == Reports(w.history, i) {
      assert i == k;
    }
  }

  // A reserve task that has not reported yet still can: its next wait may end at once.
  lemma RunningReserveMayWrite(settings: Settings, w: World, c: string)
    requires Inv(w) && c in w.accepted && !ReserveConcluded(w, c)
    ensures exists actions :: Runs(settings, w, actions) && !ReservesSilent(w, Exec(settings, w, actions), c)
  {
    hide Next, FuturesOk, AdoptionOk, ReportsOk, OpOk, LiveOk;
    var i := w.accepted[c];
    assert ReserverOk(w, c);
    RunningReservePhase(w, i);
    var a := if w.operations[i].phase.SendingCommit? then CommitAnswered(i, CommitFailed) else Expired(i);
    EndsAtOnce(settings, w, i, a);
    NextKeeps(settings, w, a);
    StepLeads(settings, w, a);
    LeadsIsRun(settings, w, [a], Next(settings, w, a));
    NewReport(w, Next(settings, w, a), i, c);
    assert !ReservesSilent(w, Exec(settings, w, [a]), c);
  }

  lemma RunningReservePhase(w: World, i: nat)
    requires i < |w.operations| && OpOk(w, i)
    requires w.operations[i].kind == Reserve && Started(w.operations[i].phase) && w.operations[i].outcome.None?
    ensures var p := w.operations[i].phase; p.AwaitingReply? || p.SendingCommit? || p.AwaitingCommit?
  {
  }

  lemma NewReport(w: World, w': World, i: nat, c: string)
    requires ReportsOk(w) && ReportsOk(w') && i < |w.operations| && i < |w'.operations|
    requires w.operations[i].outcome.None? && w'.operations[i].outcome.Some? && ServesReserve(w', i, c)
    ensures !ReservesSilent(w, w', c)
  {
    assert Reports(w'.history, i) != Reports(w.history, i);
  }

  lemma EndsAtOnce(settings: Settings, w: World, i: nat, a: Action)
    requires w.Shape() && Enabled(w, a) && i < |w.operations| && w.operations[i].kind == Reserve
    requires var p := w.operations[i].phase;
      if p.SendingCommit? then a == CommitAnswered(i, CommitFailed)
      else (p.AwaitingReply? || p.AwaitingCommit?) && a == Expired(i)
    ensures var w' := Next(settings, w, a);
      && i < |w'.operations| && w'.operations[i].outcome.Some?
      && w'.operations[i].kind == Reserve && Started(w'.operations[i].phase)
      && w'.operations[i].connectionId == w.operations[i].connectionId
  {
  }

  // ---------------------------------------------------------------- reserves that are still to be answered

  // Operation i is a reserve that awaits its HTTP response, and that response may still name c.
  ghost predicate MayStillBeGiven(w: World, i: nat, c: string) {
    && i < |w.operations| && w.operations[i].kind == Reserve && w.operations[i].phase.Sending?
    && MayGive(w, i, c)
  }

  // The response creates the reservation, and the task writes it.
  lemma UnacceptedReserveMayWrite(settings: Settings, w: World, i: nat, c: string)
    requires w.Shape() && MayStillBeGiven(w, i, c) && Reports(w.history, i) == []
    ensures exists actions :: Runs(settings, w, actions) && !ReservesSilent(w, Exec(settings, w, actions), c)
  {
    hide Next, Enabled, LeadsTo, Reports;
    var w1 := AnswerReserve(settings, w, i, c);
    var w2 := TimeOutReserve(settings, w1, i);
    LeadsOn(settings, w, [Answered(i, Accepted(c))], w1, [Expired(i)], w2);
    LeadsIsRun(settings, w, [Answered(i, Accepted(c))] + [Expired(i)], w2);
    assert !ReservesSilent(w, w2, c);
  }

  // A connection that was never listed may be given to a reserve that is yet to be posted.
  lemma UnlistedReserveMayWrite(settings: Settings, w: World, c: string)
    requires w.Shape() && c !in w.accepted && c !in w.listed && Reports(w.history, |w.operations|) == []
    ensures exists actions :: Runs(settings, w, actions) && !ReservesSilent(w, Exec(settings, w, actions), c)
  {
    hide Next, Enabled, LeadsTo, Reports;
    var n := |w.operations|;
    var id := FreshId(w.issued);
    var w1 := AskForReserve(settings, w, id);
    var w2 := AnswerReserve(settings, w1, n, c);
    var w3 := TimeOutReserve(settings, w2, n);
    var a1, a2 := [AskReserve(id, None, "", None, P2ps(1, "", ""), "", "")], [Answered(n, Accepted(c))];
    LeadsOn(settings, w, a1, w1, a2, w2);
    LeadsOn(settings, w, a1 + a2, w2, [Expired(n)], w3);
    LeadsIsRun(settings, w, a1 + a2 + [Expired(n)], w3);
    assert !ReservesSilent(w, w3, c);
  }

  lemma AskForReserve(settings: Settings, w: World, id: string) returns (w': World)
    requires w.Shape() && id !in w.issued
    ensures LeadsTo(settings, w, [AskReserve(id, None, "", None, P2ps(1, "", ""), "", "")], w')
    ensures |w'.operations| == |w.operations| + 1 && w'.accepted == w.accepted && w'.listed == w.listed
    ensures w'.operations[|w.operations|].phase.Sending? && w'.operations[|w.operations|].kind == Reserve
  {
    w' := PostReserve(w, id, None, "", None, P2ps(1, "", ""), "", "");
    StepLeads(settings, w, AskReserve(id, None, "", None, P2ps(1, "", ""), "", ""));
  }

  lemma AnswerReserve(settings: Settings, w: World, n: nat, c: string) returns (w': World)
    requires w.Shape() && MayStillBeGiven(w, n, c)
    ensures LeadsTo(settings, w, [Answered(n, Accepted(c))], w')
    ensures n < |w'.operations| && w'.operations[n].phase.AwaitingReply? && w'.operations[n].kind == Reserve
    ensures w'.operations[n].connectionId == c
  {
    w' := Respond(w, n, Accepted(c));
    StepLeads(settings, w, Answered(n, Accepted(c)));
  }

  lemma TimeOutReserve(settings: Settings, w: World, n: nat) returns (w': World)
    requires w.Shape() && n < |w.operations| && w.operations[n].phase.AwaitingReply? && w.operations[n].kind == Reserve
    ensures LeadsTo(settings, w, [Expired(n)], w')
    ensures Reports(w'.history, n) != [] && ServesReserve(w', n, w.operations[n].connectionId)
  {
    w' := Expire(w, n);
    StepLeads(settings, w, Expired(n));
    ReportedOnce(w, n);
  }

  lemma ReportedOnce(w: World, n: nat)
    requires w.Shape() && n < |w.operations| && w.operations[n].phase.AwaitingReply? && w.operations[n].kind == Reserve
    ensures var w' := Expire(w, n);
      && Reports(w'.history, n) != [] && n < |w'.operations| && w'.operations[n].phase.Delivering?
      && w'.operations[n].kind == Reserve && w'.operations[n].connectionId == w.operations[n].connectionId
  {
    var w' := Expire(w, n);
    ReportsSnoc(w.history, w'.history[|w.history|], n);
    assert w'.history == w.history + [w'.history[|w.history|]];
  }

  // ---------------------------------------------------------------- reserves that will never be given c

  ghost predicate ListedOk(w: World) {
    forall c <- w.listed :: w.listed[c] <= |w.operations|
  }

  lemma ListedStays(settings: Settings, w: World, a: Action)
    requires w.Shape() && Enabled(w, a) && ListedOk(w)
    ensures var w' := Next(settings, w, a);
      ListedOk(w') && forall c <- w.listed :: c in w'.listed && w'.listed[c] == w.listed[c]
  {
    hide Next;
    if MovesNone(a) { NoOwnStepAddsOne(settings, w, a); } else { OwnStepTouchesOne(settings, w, a, OperationOf(a)); }
    ListedChange(settings, w, a);
  }

  lemma ListedChange(settings: Settings, w: World, a: Action)
    requires w.Shape() && Enabled(w, a)
    ensures var w' := Next(settings, w, a);
      w'.listed == w.listed
      || ((a.Look? || a.AskFor?) && w'.listed == w.List(a.answer.qr.connectionId).listed)
  {
    if MovesNone(a) {
      RequestLists(settings, w, a);
    } else {
      OwnStepTouchesOne(settings, w, a, OperationOf(a));
    }
  }

  // w' lists what w does, or c besides, and no acceptance is new.
  ghost predicate ListsAtMost(w: World, w': World, c: string) {
    w'.accepted == w.accepted && (w'.listed == w.listed || w'.listed == w.List(c).listed)
  }

  lemma AskLists(settings: Settings, w: World, kind: Kind, answer: Answer, url: string, id: string)
    requires w.Shape() && kind != Reserve
    ensures ListsAtMost(w, Ask(settings, w, kind, answer, url, id), answer.qr.connectionId)
  {
    hide Received, VerdictOn;
    ReceivedLists(settings, w, kind, answer, url);
  }

  lemma ReceivedLists(settings: Settings, w: World, kind: Kind, answer: Answer, url: string)
    requires w.Shape() && kind != Reserve
    ensures ListsAtMost(w, Received(settings, w, kind, answer, url), answer.qr.connectionId)
  {
    hide Apply, VerdictOn;
  }

  lemma RequestLists(settings: Settings, w: World, a: Action)
    requires w.Shape() && Enabled(w, a) && MovesNone(a)
    ensures if a.Look? || a.AskFor? then ListsAtMost(w, Next(settings, w, a), a.answer.qr.connectionId)
            else Next(settings, w, a).accepted == w.accepted && Next(settings, w, a).listed == w.listed
  {
    hide Apply, Ask;
    if a.AskFor? { AskLists(settings, w, a.kind, a.answer, a.url, a.correlationId); }
  }

  // The aggregator has listed c, the proxy knows of no acceptance of it, and no reserve is left that it
  // could still be given to.
  ghost predicate NeverToBeGiven(w: World, c: string) {
    c !in w.accepted && c in w.listed && forall i :: !MayStillBeGiven(w, i, c)
  }

  lemma AcceptedChange(settings: Settings, w: World, a: Action, c: string)
    requires w.Shape() && Enabled(w, a) && c !in w.accepted && c in Next(settings, w, a).accepted
    ensures a.Answered? && MayStillBeGiven(w, a.op, c)
  {
    hide Next;
    if MovesNone(a) {
      RequestLists(settings, w, a);
    } else {
      OwnStepTouchesOne(settings, w, a, OperationOf(a));
      AcceptedName(settings, w, a);
    }
  }

  lemma AcceptedName(settings: Settings, w: World, a: Action)
    requires w.Shape() && Enabled(w, a) && a.Answered? && w.operations[a.op].kind == Reserve
    ensures var w' := Next(settings, w, a);
      if a.reply.Accepted? then w'.operations[a.op].connectionId == a.reply.connectionId
      else w'.accepted == w.accepted
  {
  }

  lemma NeverToBeGivenStays(settings: Settings, w: World, a: Action, c: string)
    requires Inv(w) && ListedOk(w) && Enabled(w, a) && NeverToBeGiven(w, c)
    ensures NeverToBeGiven(Next(settings, w, a), c)
  {
    hide Next, FuturesOk, AdoptionOk, ReportsOk, InFlightOk, HeardOk, FutureMine;
    var w' := Next(settings, w, a);
    NextKeeps(settings, w, a);
    ListedStays(settings, w, a);
    if c in w'.accepted { AcceptedChange(settings, w, a, c); }
    forall i ensures !MayStillBeGiven(w', i, c) {
      if MayStillBeGiven(w', i, c) { WasAlreadyToBeGiven(settings, w, a, i, c); }
    }
  }

  // No reserve comes to await a response that may name a listed connection.
  lemma WasAlreadyToBeGiven(settings: Settings, w: World, a: Action, i: nat, c: string)
    requires Inv(w) && ListedOk(w) && Enabled(w, a) && c !in w.accepted && c in w.listed
    requires MayStillBeGiven(Next(settings, w, a), i, c)
    ensures MayStillBeGiven(w, i, c)
  {
    hide Next, FuturesOk, AdoptionOk, ReportsOk, InFlightOk, HeardOk, FutureMine;
    NextKeeps(settings, w, a);
    ListedStays(settings, w, a);
    assert OpOk(Next(settings, w, a), i);
    if Moves(a, i) {
      OwnStepAdvances(settings, w, a, i);
    } else {
      OtherStepLeaves(settings, w, a, i);
    }
  }

  lemma {:induction false} NeverGiven(settings: Settings, w: World, actions: seq<Action>, c: string)
    requires Inv(w) && ListedOk(w) && NeverToBeGiven(w, c) && Runs(settings, w, actions)
    ensures NeverToBeGiven(Exec(settings, w, actions), c) && Inv(Exec(settings, w, actions))
    decreases |actions|
  {
    hide Next, FuturesOk, AdoptionOk, ReportsOk, InFlightOk, OpsOkExcept, NeverToBeGiven, ListedOk;
    if actions != [] {
      NextKeeps(settings, w, actions[0]);
      ListedStays(settings, w, actions[0]);
      NeverToBeGivenStays(settings, w, actions[0], c);
      NeverGiven(settings, Next(settings, w, actions[0]), actions[1..], c);
    }
  }

  lemma {:induction false} ListedOkAlways(settings: Settings, w: World, actions: seq<Action>)
    requires w.Shape() && ListedOk(w) && Runs(settings, w, actions)
    ensures ListedOk(Exec(settings, w, actions))
    decreases |actions|
  {
    hide Next, ListedOk;
    if actions != [] {
      ListedStays(settings, w, actions[0]);
      ListedOkAlways(settings, Next(settings, w, actions[0]), actions[1..]);
    }
  }

  lemma NotAcceptedNotServed(w: World, c: string)
    requires InFlightOk(w) && c !in w.accepted
    ensures forall i :: !ServesReserve(w, i, c)
  {
  }

  // A proxy that posted no reserve for c, as after a restart, never writes it on a reserve's behalf.
  lemma NeverGivenIsSilent(settings: Settings, w: World, c: string, actions: seq<Action>)
    requires Inv(w) && ListedOk(w) && NeverToBeGiven(w, c) && Runs(settings, w, actions)
    ensures ReservesSilent(w, Exec(settings, w, actions), c)
  {
    var w' := Exec(settings, w, actions);
    NeverGiven(settings, w, actions, c);
    NotAcceptedNotServed(w', c);
  }

  // No reserve task writes c in any continuation exactly when either the proxy has processed the
  // acceptance of its reserve and that reserve's task has made its final write, or the aggregator has
  // listed c and no reserve is left that it could be given to.
  lemma SilencedIff(settings: Settings, w: World, c: string)
    requires Inv(w) && ListedOk(w)
    ensures (forall actions | Runs(settings, w, actions) :: ReservesSilent(w, Exec(settings, w, actions), c))
      <==> ReserveConcluded(w, c) || NeverToBeGiven(w, c)
  {
    if ReserveConcluded(w, c) {
      forall actions | Runs(settings, w, actions) ensures ReservesSilent(w, Exec(settings, w, actions), c) {
        ConcludedReserveIsSilent(settings, w, c, actions);
      }
    } else if NeverToBeGiven(w, c) {
      forall actions | Runs(settings, w, actions) ensures ReservesSilent(w, Exec(settings, w, actions), c) {
        NeverGivenIsSilent(settings, w, c, actions);
      }
    } else if c in w.accepted {
      RunningReserveMayWrite(settings, w, c);
    } else if i :| MayStillBeGiven(w, i, c) {
      assert OpOk(w, i);
      UnacceptedReserveMayWrite(settings, w, i, c);
    } else {
      UnlistedReserveMayWrite(settings, w, c);
    }
  }

  // ---------------------------------------------------------------- a terminate that is let through

  // With the flag down, an accepted reserve has concluded.
  lemma FlagDownMeansConcluded(w: World, c: string)
    requires Inv(w) && c in w.accepted && c !in w.store.reservesInFlight
    ensures ReserveConcluded(w, c)
  {
    assert ReserverOk(w, c) && OpOk(w, w.accepted[c]);
  }

  lemma TerminateAskKeeps(settings: Settings, w: World, answer: Answer, url: string, id: string)
    requires w.Shape()
    ensures var w' := Ask(settings, w, Terminate, answer, url, id);
      && w'.accepted == w.accepted && w.operations <= w'.operations && answer.qr.connectionId in w'.listed
  {
    hide Received, VerdictOn;
    ReceivedLists(settings, w, Terminate, answer, url);
    ReceivedAddsNone(settings, w, Terminate, answer, url);
    ReceivedListsIt(settings, w, Terminate, answer, url);
  }

  lemma ReceivedListsIt(settings: Settings, w: World, kind: Kind, answer: Answer, url: string)
    requires w.Shape() && kind != Reserve
    ensures answer.qr.connectionId in Received(settings, w, kind, answer, url).listed
  {
    hide Apply, VerdictOn;
  }

  // A terminate is sent in some reachable state. In every continuation no reserve task writes its
  // connection again, exactly if either the proxy has processed the acceptance of the connection's reserve
  // and, unless the RESERVING or the still-terminating arm let it through, that reserve's task had made
  // its final write; or it knows of no acceptance, and no reserve posted before the aggregator listed the
  // connection still awaits its HTTP response. The two arms look at the flag, the RESERVED and FAILED arms
  // do not; and after a restart there is no such reserve.
  lemma TerminateSilencesReserveIff(settings: Settings, before: seq<Action>, answer: Answer, url: string, id: string)
    requires Runs(settings, INIT, before)
    requires Enabled(Exec(settings, INIT, before), AskFor(Terminate, answer, url, id))
    requires Sends(Exec(settings, INIT, before),
                   Next(settings, Exec(settings, INIT, before), AskFor(Terminate, answer, url, id)),
                   Terminate, answer.qr.connectionId, id)
    ensures var w := Exec(settings, INIT, before);
      var w1 := Next(settings, w, AskFor(Terminate, answer, url, id));
      var c := answer.qr.connectionId;
      (forall rest | Runs(settings, w1, rest) :: ReservesSilent(w1, Exec(settings, w1, rest), c))
      <==> if c in w.accepted
           then answer.Derived(settings).status !in {RESERVED, FAILED} || ReserveConcluded(w, c)
           else forall i :: !MayStillBeGiven(w1, i, c)
  {
    var w, c := Exec(settings, INIT, before), answer.qr.connectionId;
    InitInv();
    RunsKeep(settings, INIT, before);
    ListedOkAlways(settings, INIT, before);
    var a := AskFor(Terminate, answer, url, id);
    SentMeansProceed(settings, w, Terminate, answer, url, id);
    NextKeeps(settings, w, a);
    ListedStays(settings, w, a);
    SilencedIff(settings, Next(settings, w, a), c);
    TerminateAskKeeps(settings, w, answer, url, id);
    TerminateSawNoReserve(settings, w, answer);
    if c in w.accepted {
      assert ReserverOk(w, c);
      if c !in w.store.reservesInFlight { FlagDownMeansConcluded(w, c); }
    }
  }

  // ---------------------------------------------------------------- who adopts the callbackURL

  // A request answered 409 sends nothing. Only a terminate then leaves the callbackURL alone; a
  // provision or release has adopted it already.
  lemma ConflictAdoption(settings: Settings, w: World, kind: Kind, answer: Answer, url: string, id: string)
    requires w.Shape() && kind != Reserve && VerdictOn(settings, w, kind, answer) == Conflict
    ensures var w' := Ask(settings, w, kind, answer, url, id); var c := answer.qr.connectionId;
      && w'.operations == w.operations && w'.store.futures == w.store.futures
      && UrlOf(w'.store, c) == (if kind == Terminate then UrlOf(w.store, c) else url)
      && (forall d :: d != c ==> UrlOf(w'.store, d) == UrlOf(w.store, d))
  {
    hide VerdictOn, QueriedCriteria, RecordSeen, ResolveLastError, Answer.Derived;
  }

  // ---------------------------------------------------------------- how long TERMINATED lasts

  // A message that a task in this phase ends on.
  predicate Conclusive(op: Operation, m: NsiMessage) {
    if op.phase.AwaitingReply? then op.kind == Terminate || !Confirms(op.kind, m)
    else op.phase.AwaitingDataPlane? ==> !Idle(op.kind, m)
  }

  // The step is a task's last: it handles a conclusive message, or fails to handle one, a reply did not
  // come in time, the reserveCommit was not taken, or the history was consulted in vain.
  ghost predicate IsFinal(w: World, a: Action)
    requires w.Shape() && Enabled(w, a) && !MovesNone(a)
  {
    match a
    case Woken(i, fault, _, _) =>
      var f := w.store.futures[w.operations[i].phase.future];
      f.Done? && (fault != NoFault || Conclusive(w.operations[i], f.message))
    case Expired(i) => !w.operations[i].phase.AwaitingDataPlane?
    case CommitAnswered(_, reply) => reply != CommitTaken
    case NotificationsAnswered(_, _) => true
    case Answered(_, _) => false
    case CallbackDone(_) => false
  }

  lemma ReplyIsFinalIff(settings: Settings, v: World, i: nat, m: NsiMessage, commitId: string)
    requires v.Shape() && i < |v.operations| && v.operations[i].phase.AwaitingReply? && v.operations[i].outcome.None?
    ensures SettledStatus(v, HandleReply(settings, v, i, m, commitId), i).Some? <==> Conclusive(v.operations[i], m)
  {
  }

  lemma CommitIsFinal(v: World, i: nat, m: NsiMessage)
    requires v.Shape() && i < |v.operations| && v.operations[i].phase.AwaitingCommit? && v.operations[i].outcome.None?
    ensures SettledStatus(v, HandleCommit(v, i, m), i).Some?
  {
  }

  lemma NotificationIsFinalIff(v: World, i: nat, m: NsiMessage, timeLeft: bool)
    requires v.Shape() && i < |v.operations| && v.operations[i].phase.AwaitingDataPlane?
    requires v.operations[i].outcome.None?
    ensures SettledStatus(v, HandleNotification(v, i, m, timeLeft), i).Some? <==> Conclusive(v.operations[i], m)
  {
  }

  lemma FaultIsFinal(v: World, i: nat, m: NsiMessage, fault: Fault, commitId: string)
    requires v.Shape() && i < |v.operations| && Attached(v.operations[i]) && v.operations[i].outcome.None?
    requires fault != NoFault
    ensures SettledStatus(v, GiveUp(Interrupted(v, i, m, fault, commitId), i, InternalError), i).Some?
  {
    hide Interrupted;
  }

  lemma WokenIsFinalIff(settings: Settings, w: World, i: nat, fault: Fault, commitId: string, timeLeft: bool)
    requires w.Shape() && i < |w.operations| && Waiting(w.operations[i].phase) && w.operations[i].outcome.None?
    requires Enabled(w, Woken(i, fault, commitId, timeLeft))
    ensures SettledStatus(w, Wake(settings, w, i, fault, commitId, timeLeft), i).Some?
      <==> IsFinal(w, Woken(i, fault, commitId, timeLeft))
  {
    hide HandleReply, HandleCommit, HandleNotification, Interrupted, GiveUp, Idle, Confirms;
    if w.store.futures[w.operations[i].phase.future].Done? {
      var v, m := Hears(w, i), w.store.futures[w.operations[i].phase.future].message;
      if fault != NoFault { FaultIsFinal(v, i, m, fault, commitId); }
      else if w.operations[i].phase.AwaitingReply? { ReplyIsFinalIff(settings, v, i, m, commitId); }
      else if w.operations[i].phase.AwaitingCommit? { CommitIsFinal(v, i, m); }
      else { NotificationIsFinalIff(v, i, m, timeLeft); }
      assert Conclusive(v.operations[i], m) == Conclusive(w.operations[i], m);
    }
  }

  lemma OthersFinalIff(settings: Settings, w: World, a: Action)
    requires w.Shape() && Enabled(w, a) && !MovesNone(a) && !a.Woken?
    requires w.operations[OperationOf(a)].outcome.None? || a.CallbackDone?
    ensures SettledStatus(w, Next(settings, w, a), OperationOf(a)).Some? ==> IsFinal(w, a)
    ensures IsFinal(w, a) ==> SettledStatus(w, Next(settings, w, a), OperationOf(a)).Some?
  {
  }

  lemma SettlesIffFinal(settings: Settings, w: World, a: Action)
    requires Inv(w) && Enabled(w, a) && !MovesNone(a)
    ensures SettledStatus(w, Next(settings, w, a), OperationOf(a)).Some? <==> IsFinal(w, a)
  {
    hide FuturesOk, AdoptionOk, ReportsOk, InFlightOk, HeardOk, FutureMine, Wake;
    var i := OperationOf(a);
    assert OpOk(w, i);
    if a.Woken? {
      WokenIsFinalIff(settings, w, i, a.fault, a.commitId, a.timeLeft);
    } else {
      OthersFinalIff(settings, w, a);
    }
  }

  // The steps that take TERMINATED back for c: a refresh that is not told of the end of its life, the
  // acceptance of another request, and the final write of a task that is not a terminate.
  ghost predicate Revives(w: World, a: Action, c: string)
    requires w.Shape() && Enabled(w, a)
  {
    match a
    case Deliver(_, _) => false
    case AskReserve(_, _, _, _, _, _, _) => false
    case Reuse(_, _) => false
    case CallbackDone(_) => false
    case Look(answer) => answer.qr.connectionId == c && !Over(answer.qr.connectionStates.lifecycleState)
    case AskFor(_, answer, _, _) =>
      answer.qr.connectionId == c && !Over(answer.qr.connectionStates.lifecycleState)
    case Answered(i, reply) =>
      && reply.Accepted? && w.operations[i].kind != Terminate
      && c == if w.operations[i].kind == Reserve then reply.connectionId else w.operations[i].connectionId
    case _ =>
      var op := w.operations[OperationOf(a)];
      op.connectionId == c && op.kind != Terminate && IsFinal(w, a)
  }

  lemma SettledTerminatedIff(settings: Settings, w: World, a: Action)
    requires Inv(w) && Enabled(w, a) && !MovesNone(a)
    requires SettledStatus(w, Next(settings, w, a), OperationOf(a)).Some?
    ensures SettledStatus(w, Next(settings, w, a), OperationOf(a)) == Some(TERMINATED)
      <==> w.operations[OperationOf(a)].kind == Terminate
  {
    hide Next, FuturesOk, AdoptionOk, ReportsOk, InFlightOk, HeardOk, FutureMine, LastAdopted;
    var i := OperationOf(a);
    NextKeeps(settings, w, a);
    OwnStepTouchesOne(settings, w, a, i);
    assert OpOk(Next(settings, w, a), i);
  }

  // TERMINATED survives a step exactly if the step is not one of these.
  lemma TerminatedStaysIff(settings: Settings, w: World, a: Action, c: string)
    requires Inv(w) && Enabled(w, a) && StatusOf(w.store, c) == Some(TERMINATED)
    ensures StatusOf(Next(settings, w, a).store, c) == Some(TERMINATED) <==> !Revives(w, a, c)
  {
    hide Next, FuturesOk, AdoptionOk, ReportsOk, InFlightOk, OpsOkExcept, Apply;
    StatusChangesAreExplained(settings, w, a);
    if a.Look? || a.AskFor? { TerminatedIffOver(settings, a.answer); }
    if !MovesNone(a) {
      SettlesIffFinal(settings, w, a);
      if IsFinal(w, a) { SettledTerminatedIff(settings, w, a); }
    }
    if Subject(w, a) != Some(c) {
      assert Stored(Next(settings, w, a).store, c) == Stored(w.store, c);
    }
  }

  ghost predicate TerminatedThroughout(settings: Settings, w: World, actions: seq<Action>, c: string)
    requires w.Shape() && Runs(settings, w, actions)
    decreases |actions|
  {
    && StatusOf(w.store, c) == Some(TERMINATED)
    && (actions != [] ==> TerminatedThroughout(settings, Next(settings, w, actions[0]), actions[1..], c))
  }

  ghost predicate NeverRevived(settings: Settings, w: World, actions: seq<Action>, c: string)
    requires w.Shape() && Runs(settings, w, actions)
    decreases |actions|
  {
    actions != [] ==>
      && !Revives(w, actions[0], c)
      && NeverRevived(settings, Next(settings, w, actions[0]), actions[1..], c)
  }

  // Over every run from a state in which c is TERMINATED: it is so in every state the run passes
  // through exactly if none of its steps revives it.
  lemma {:induction false} TerminatedThroughoutIff(settings: Settings, w: World, actions: seq<Action>, c: string)
    requires Inv(w) && Runs(settings, w, actions) && StatusOf(w.store, c) == Some(TERMINATED)
    ensures TerminatedThroughout(settings, w, actions, c) <==> NeverRevived(settings, w, actions, c)
    decreases |actions|
  {
    hide Next, FuturesOk, AdoptionOk, ReportsOk, InFlightOk, OpsOkExcept, Revives;
    if actions != [] {
      TerminatedStaysIff(settings, w, actions[0], c);
      if !Revives(w, actions[0], c) {
        NextKeeps(settings, w, actions[0]);
        TerminatedThroughoutIff(settings, Next(settings, w, actions[0]), actions[1..], c);
      }
    }
  }
}
