/** Every step keeps the invariant, and only lets the world grow. */
module ProtocolSteps {
  import opened Messages
  import opened StateMapping
  import opened StoreModel
  import opened ExceptionTrees
  import opened Refresh
  import opened Protocol
  import opened ProtocolInvariant

  // ---------------------------------------------------------------- histories, one event longer

  lemma ReportsSnoc(h: seq<Event>, e: Event, i: nat)
    ensures Reports(h + [e], i) == Reports(h, i) + (if e.Reported? && e.op == i then [e.outcome] else [])
  {
    assert (h + [e])[..|h|] == h;
  }

  lemma LastAdoptedSnoc(h: seq<Event>, e: Event, c: string)
    ensures LastAdopted(h + [e], c)
         == if e.Adopted? && e.connectionId == c then e.url else LastAdopted(h, c)
  {
    assert (h + [e])[..|h|] == h;
  }

  // The history stays, or grows by one event.
  ghost predicate Extended(h: seq<Event>, h': seq<Event>) {
    h' == h || (|h'| == |h| + 1 && h' == h + [h'[|h|]])
  }

  // ---------------------------------------------------------------- futures

  ghost predicate SameFutures(w: World, w': World) {
    && w'.store.futures == w.store.futures && w'.store.pending == w.store.pending
    && w'.store.pendingByConnection == w.store.pendingByConnection
    && w'.origins == w.origins && w'.landed == w.landed && w'.issued == w.issued
  }

  lemma FuturesUntouched(w: World, w': World)
    requires w.Shape() && w'.Shape() && FuturesOk(w)
    requires SameFutures(w, w') && w.history <= w'.history && |w.operations| <= |w'.operations|
    ensures FuturesOk(w')
  {
    forall f | 0 <= f < |w'.origins| ensures OriginOk(w', f) && LandedOk(w', f) && FiledOk(w', f) {
      assert OriginOk(w, f) && LandedOk(w, f) && FiledOk(w, f);
      if w.store.futures[f].Done? { assert w'.history[w.landed[f]] == w.history[w.landed[f]]; }
    }
    forall c | c in w'.store.pending ensures EntryOk(w', ByCorrelation(c), w'.store.pending[c]) {
      assert EntryOk(w, ByCorrelation(c), w.store.pending[c]);
    }
    forall c | c in w'.store.pendingByConnection
      ensures EntryOk(w', ByConnection(c), w'.store.pendingByConnection[c])
    {
      assert EntryOk(w, ByConnection(c), w.store.pendingByConnection[c]);
    }
  }

  // A registration: one more future, filed under a key that no earlier reply future has.
  ghost predicate Registered(w: World, w': World, key: Key, owner: nat) {
    && w'.store.futures == w.store.futures + [Pending]
    && w'.origins == w.origins + [Origin(key, owner, |w.history|)]
    && w'.landed == w.landed
    && w'.issued == (if key.ByCorrelation? then w.issued + {key.id} else w.issued)
    && w'.store.pending
       == (if key.ByCorrelation? then w.store.pending[key.id := |w.store.futures|] else w.store.pending)
    && w'.store.pendingByConnection
       == (if key.ByConnection? then w.store.pendingByConnection[key.id := |w.store.futures|]
           else w.store.pendingByConnection)
  }

  lemma FuturesRegistered(w: World, w': World, key: Key, owner: nat)
    requires w.Shape() && w'.Shape() && FuturesOk(w)
    requires Registered(w, w', key, owner)
    requires key.ByCorrelation? ==> key.id !in w.issued
    requires w.history <= w'.history && |w.operations| <= |w'.operations| && owner < |w'.operations|
    ensures FuturesOk(w')
  {
    var n := |w.store.futures|;
    forall f | 0 <= f < |w'.origins| ensures OriginOk(w', f) && LandedOk(w', f) && FiledOk(w', f) {
      if f < n {
        assert OriginOk(w, f) && LandedOk(w, f) && FiledOk(w, f);
        if w.store.futures[f].Done? { assert w'.history[w.landed[f]] == w.history[w.landed[f]]; }
      }
    }
    forall c | c in w'.store.pending ensures EntryOk(w', ByCorrelation(c), w'.store.pending[c]) {
      if w'.store.pending[c] != n { assert EntryOk(w, ByCorrelation(c), w.store.pending[c]); }
    }
    forall c | c in w'.store.pendingByConnection
      ensures EntryOk(w', ByConnection(c), w'.store.pendingByConnection[c])
    {
      if w'.store.pendingByConnection[c] != n { assert EntryOk(w, ByConnection(c), w.store.pendingByConnection[c]); }
    }
    forall f, g | 0 <= f < |w'.origins| && 0 <= g < |w'.origins|
                  && w'.origins[f].key.ByCorrelation? && w'.origins[f].key == w'.origins[g].key
      ensures f == g
    {
      assert f < n ==> OriginOk(w, f);
      assert g < n ==> OriginOk(w, g);
    }
  }

  // A cancellation of future g, together with removing entries that lead to it.
  ghost predicate CancelledAt(w: World, w': World, g: nat) {
    && g < |w.store.futures|
    && w'.store.futures == Settled(w.store.futures, g, Cancelled)
    && w'.origins == w.origins && w'.landed == w.landed && w'.issued == w.issued
    && (forall c <- w'.store.pending :: c in w.store.pending && w'.store.pending[c] == w.store.pending[c])
    && (forall c <- w.store.pending :: c in w'.store.pending || w.store.pending[c] == g)
    && (forall c <- w'.store.pendingByConnection :: c in w.store.pendingByConnection
          && w'.store.pendingByConnection[c] == w.store.pendingByConnection[c])
  }

  lemma FuturesCancelled(w: World, w': World, g: nat)
    requires w.Shape() && w'.Shape() && FuturesOk(w)
    requires CancelledAt(w, w', g)
    requires w.history <= w'.history && |w.operations| <= |w'.operations|
    ensures FuturesOk(w')
  {
    forall f | 0 <= f < |w'.origins| ensures OriginOk(w', f) && LandedOk(w', f) && FiledOk(w', f) {
      assert OriginOk(w, f) && LandedOk(w, f) && FiledOk(w, f);
      if w.store.futures[f].Done? { assert w'.history[w.landed[f]] == w.history[w.landed[f]]; }
    }
    forall c | c in w'.store.pending ensures EntryOk(w', ByCorrelation(c), w'.store.pending[c]) {
      assert EntryOk(w, ByCorrelation(c), w.store.pending[c]);
    }
    forall c | c in w'.store.pendingByConnection
      ensures EntryOk(w', ByConnection(c), w'.store.pendingByConnection[c])
    {
      assert EntryOk(w, ByConnection(c), w.store.pendingByConnection[c]);
    }
  }

  // ---------------------------------------------------------------- adoption, outcomes, reserves in flight

  lemma AdoptionUntouched(w: World, w': World)
    requires AdoptionOk(w) && Extended(w.history, w'.history)
    requires w'.history != w.history ==> !w'.history[|w.history|].Adopted?
    requires forall c :: UrlOf(w'.store, c) == UrlOf(w.store, c)
    ensures AdoptionOk(w')
  {
    forall c ensures UrlOf(w'.store, c) == LastAdopted(w'.history, c) {
      if w'.history != w.history { LastAdoptedSnoc(w.history, w'.history[|w.history|], c); }
    }
  }

  lemma AdoptionLogged(w: World, w': World, c: string, url: string)
    requires AdoptionOk(w) && w'.history == w.history + [Adopted(c, url)]
    requires UrlOf(w'.store, c) == url && forall d :: d != c ==> UrlOf(w'.store, d) == UrlOf(w.store, d)
    ensures AdoptionOk(w')
  {
    forall d ensures UrlOf(w'.store, d) == LastAdopted(w'.history, d) {
      LastAdoptedSnoc(w.history, Adopted(c, url), d);
    }
  }

  // No operation reports: outcomes are as before, new operations have none.
  lemma ReportsUntouched(w: World, w': World)
    requires ReportsOk(w) && |w.operations| <= |w'.operations|
    requires Extended(w.history, w'.history)
    requires w'.history != w.history ==> !w'.history[|w.history|].Reported?
    requires forall i :: 0 <= i < |w.operations| ==> w'.operations[i].outcome == w.operations[i].outcome
    requires forall i :: |w.operations| <= i < |w'.operations| ==> w'.operations[i].outcome.None?
    ensures ReportsOk(w')
  {
    forall i: nat ensures Reports(w'.history, i) == Reports(w.history, i) {
      if w'.history != w.history { ReportsSnoc(w.history, w'.history[|w.history|], i); }
    }
  }

  // Reserves keep their connection and stay on the same side of started and ended.
  ghost predicate SameReserves(w: World, w': World) {
    && w'.accepted == w.accepted && w'.store.reservesInFlight == w.store.reservesInFlight
    && |w.operations| <= |w'.operations|
    && (forall i :: 0 <= i < |w.operations| ==>
          && w'.operations[i].kind == w.operations[i].kind
          && w'.operations[i].connectionId == w.operations[i].connectionId
          && (w.operations[i].kind == Reserve ==>
                && Started(w'.operations[i].phase) == Started(w.operations[i].phase)
                && Ended(w'.operations[i].phase) == Ended(w.operations[i].phase)))
    && (forall i :: |w.operations| <= i < |w'.operations| ==>
          w'.operations[i].kind == Reserve ==> !Started(w'.operations[i].phase))
  }

  lemma InFlightUntouched(w: World, w': World)
    requires InFlightOk(w) && SameReserves(w, w')
    ensures InFlightOk(w')
  {
    forall c | c in w'.accepted ensures ReserverOk(w', c) { assert ReserverOk(w, c); }
    forall c ensures c in w'.store.reservesInFlight
      <==> c in w'.accepted && !Ended(w'.operations[w'.accepted[c]].phase)
    {
      if c in w.accepted { assert ReserverOk(w, c); }
    }
  }

  // ---------------------------------------------------------------- the other operations

  // A step that cancels this operation's future is the timeout that revokes its data-plane wait.
  ghost predicate SparedOrRevoked(w: World, w': World, j: nat)
    requires w.Shape() && w'.Shape() && Grows(w, w') && j < |w.operations|
  {
    var p := w.operations[j].phase;
    HasFuture(p) && w'.store.futures[p.future] == Cancelled && w.store.futures[p.future] != Cancelled ==>
      p.AwaitingDataPlane? && WasRevoked(w'.history, j)
  }

  // The others are as they were, and none of their reply futures was cancelled.
  lemma OthersUntouched(w: World, w': World, i: int)
    requires w.Shape() && w'.Shape() && Grows(w, w') && OpsOkExcept(w, i)
    requires forall j :: 0 <= j < |w.operations| && j != i ==> w'.operations[j] == w.operations[j]
    requires |w'.operations| == |w.operations| || (i == |w.operations| && |w'.operations| == i + 1)
    requires forall j :: 0 <= j < |w.operations| && j != i ==> SparedOrRevoked(w, w', j)
    ensures OpsOkExcept(w', i)
  {
    forall j | 0 <= j < |w'.operations| && j != i ensures OpOk(w', j) && LiveOk(w', j) {
      assert OpOk(w, j) && LiveOk(w, j) && SparedOrRevoked(w, w', j);
      OpOkStays(w, w', j);
      var p := w.operations[j].phase;
      if HasFuture(p) && w.store.futures[p.future] == Cancelled {
        RevokedStays(w.history, w'.history, j);
      }
    }
  }

  // ---------------------------------------------------------------- the ends of a task

  // All is well except that operation i, still running, is about to move on.
  ghost predicate Poised(w: World, i: nat) {
    && Base(w) && OpsOkExcept(w, i) && i < |w.operations|
    && var op := w.operations[i];
       Started(op.phase) && !Ended(op.phase) && op.outcome.None? && HeardOk(w, op)
  }

  lemma HeardIsPast(w: World, op: Operation)
    requires HeardOk(w, op)
    ensures HeardBefore(op, |w.history|)
  {
    forall k | 0 <= k < |op.heard| ensures op.heard[k].at < |w.history| { assert HeardAt(w, op, k); }
  }

  // The facts a final write needs: an allowed status, and for a success what it stands on.
  ghost predicate Justified(w: World, i: nat, status: ReservationStatus, lastError: Option<Reason>)
    requires i < |w.operations|
  {
    var op := w.operations[i];
    && Allowed(op.kind, status)
    && (status == FAILED ==> lastError.Some?)
    && (status == SuccessStatus(op.kind) ==> Earned(w, i, op))
    && (status == SuccessStatus(op.kind) && op.kind != Terminate ==> lastError.None?)
  }

  lemma ReportBase(w: World, i: nat, status: ReservationStatus, lastError: Option<Reason>)
    requires Poised(w, i)
    ensures Base(Report(w, i, status, lastError)) && Grows(w, Report(w, i, status, lastError))
  {
    hide FuturesOk, AdoptionOk, ReportsOk, InFlightOk, HeardOk, OpOk, LiveOk;
    var w' := Report(w, i, status, lastError);
    FuturesUntouched(w, w');
    AdoptionUntouched(w, w');
    ReportsReported(w, w', i, w'.operations[i].outcome.value);
    InFlightUntouched(w, w');
  }

  lemma ReportConcludes(w: World, i: nat, status: ReservationStatus, lastError: Option<Reason>)
    requires Poised(w, i) && Justified(w, i, status, lastError)
    ensures var w' := Report(w, i, status, lastError); OpOk(w', i) && LiveOk(w', i)
  {
    var op, w' := w.operations[i], Report(w, i, status, lastError);
    var op' := w'.operations[i];
    HeardStays(w, w', op);
    SameHeard(w', op, op');
    ReportConcluded(w, w', i, status, lastError);
  }

  lemma ReportConcluded(w: World, w': World, i: nat, status: ReservationStatus, lastError: Option<Reason>)
    requires w.Shape() && i < |w.operations| && Attached(w.operations[i]) && Justified(w, i, status, lastError)
    requires HeardOk(w, w.operations[i]) && w' == Report(w, i, status, lastError)
    requires UrlOf(w.store, w.operations[i].connectionId) == LastAdopted(w.history, w.operations[i].connectionId)
    ensures var op' := w'.operations[i]; op'.outcome.Some? && Concluded(w', i, op', op'.outcome.value)
  {
    var op, op' := w.operations[i], w'.operations[i];
    HeardIsPast(w, op);
    assert w'.history[..|w.history|] == w.history;
    EarnedStays(w, w', i, op, op');
  }

  lemma ReportKeeps(w: World, i: nat, status: ReservationStatus, lastError: Option<Reason>)
    requires Poised(w, i) && Justified(w, i, status, lastError)
    ensures Inv(Report(w, i, status, lastError)) && Grows(w, Report(w, i, status, lastError))
  {
    var w' := Report(w, i, status, lastError);
    ReportBase(w, i, status, lastError);
    ReportConcludes(w, i, status, lastError);
    OthersUntouched(w, w', i);
  }

  lemma EarnedStays(w: World, w': World, i: nat, op: Operation, op': Operation)
    requires w.history <= w'.history && op' == op.(phase := op'.phase, outcome := op'.outcome)
    ensures Earned(w, i, op) ==> Earned(w', i, op')
  {
  }

  lemma ReportsReported(w: World, w': World, i: nat, o: Outcome)
    requires ReportsOk(w) && i < |w.operations| == |w'.operations| && w.operations[i].outcome.None?
    requires w'.history == w.history + [Reported(i, o)]
    requires w'.operations == w.operations[i := w'.operations[i]] && w'.operations[i].outcome == Some(o)
    ensures ReportsOk(w')
  {
    forall j: nat ensures Reports(w'.history, j) == Reports(w.history, j) + (if j == i then [o] else []) {
      ReportsSnoc(w.history, Reported(i, o), j);
    }
  }

  lemma FailKeeps(w: World, i: nat, reason: Reason)
    requires Poised(w, i) && w.operations[i].kind != Terminate
    ensures Inv(Fail(w, i, reason)) && Grows(w, Fail(w, i, reason))
  {
    ReportKeeps(w, i, FAILED, Some(reason));
  }

  lemma GiveUpKeeps(w: World, i: nat, reason: Reason)
    requires Poised(w, i)
    ensures Inv(GiveUp(w, i, reason)) && Grows(w, GiveUp(w, i, reason))
  {
    if w.operations[i].kind == Terminate {
      ReportKeeps(w, i, TERMINATED, w.store.reservations[w.operations[i].connectionId].lastError);
    } else {
      FailKeeps(w, i, reason);
    }
  }

  // ---------------------------------------------------------------- callbacks

  // A dispatch changes an undone future only, only under a key that routes the message, and removes
  // only the entries it used.
  lemma DispatchRoutes(w: World, correlationId: string, m: NsiMessage, f: nat)
    requires w.Shape() && FuturesOk(w) && f < |w.store.futures|
    ensures var s' := w.store.Dispatch(correlationId, m);
      && |s'.futures| == |w.store.futures|
      && (s'.futures[f] != w.store.futures[f] ==>
            && w.store.futures[f] == Pending && s'.futures[f] == Done(m)
            && Routes(w.origins[f].key, Delivered(correlationId, m)))
  {
    if correlationId in w.store.pending {
      assert EntryOk(w, ByCorrelation(correlationId), w.store.pending[correlationId]);
    }
    if IsNotification(m) && m.connectionId in w.store.pendingByConnection {
      assert EntryOk(w, ByConnection(m.connectionId), w.store.pendingByConnection[m.connectionId]);
    }
  }

  lemma DispatchEntries(w: World, correlationId: string, m: NsiMessage)
    requires w.Shape()
    ensures var s' := w.store.Dispatch(correlationId, m);
      && s'.reservations == w.store.reservations && s'.reservesInFlight == w.store.reservesInFlight
      && s'.pending == w.store.pending - {correlationId}
      && s'.pendingByConnection
         == (if IsNotification(m) then w.store.pendingByConnection - {m.connectionId} else w.store.pendingByConnection)
      && (correlationId in w.store.pending ==> s'.futures[w.store.pending[correlationId]] != Pending)
  {
  }

  lemma DeliverFutures(w: World, correlationId: string, m: NsiMessage)
    requires w.Shape() && FuturesOk(w)
    ensures FuturesOk(Dispatched(w, correlationId, m))
  {
    var w' := Dispatched(w, correlationId, m);
    DispatchEntries(w, correlationId, m);
    forall f | 0 <= f < |w'.origins| ensures OriginOk(w', f) && LandedOk(w', f) && FiledOk(w', f) {
      assert OriginOk(w, f) && LandedOk(w, f) && FiledOk(w, f);
      DispatchRoutes(w, correlationId, m, f);
    }
    forall c | c in w'.store.pending ensures EntryOk(w', ByCorrelation(c), w'.store.pending[c]) {
      assert EntryOk(w, ByCorrelation(c), w.store.pending[c]);
      DispatchRoutes(w, correlationId, m, w.store.pending[c]);
    }
    forall c | c in w'.store.pendingByConnection
      ensures EntryOk(w', ByConnection(c), w'.store.pendingByConnection[c])
    {
      assert EntryOk(w, ByConnection(c), w.store.pendingByConnection[c]);
      DispatchRoutes(w, correlationId, m, w.store.pendingByConnection[c]);
    }
  }

  lemma DeliverGrows(w: World, correlationId: string, m: NsiMessage)
    requires w.Shape() && FuturesOk(w)
    ensures Grows(w, Dispatched(w, correlationId, m))
    ensures var w' := Dispatched(w, correlationId, m);
      forall f :: 0 <= f < |w.store.futures| ==>
        w'.store.futures[f] == w.store.futures[f] || w'.store.futures[f] == Done(m)
  {
    DispatchEntries(w, correlationId, m);
    forall f: nat | f < |w.store.futures|
      ensures var s' := w.store.Dispatch(correlationId, m);
        s'.futures[f] != w.store.futures[f] ==> w.store.futures[f] == Pending && s'.futures[f] == Done(m)
    {
      DispatchRoutes(w, correlationId, m, f);
    }
  }

  lemma DeliverKeeps(w: World, correlationId: string, m: NsiMessage)
    requires Inv(w)
    ensures Inv(Dispatched(w, correlationId, m)) && Grows(w, Dispatched(w, correlationId, m))
  {
    var w' := Dispatched(w, correlationId, m);
    DispatchEntries(w, correlationId, m);
    DeliverGrows(w, correlationId, m);
    DeliverFutures(w, correlationId, m);
    AdoptionUntouched(w, w');
    ReportsUntouched(w, w');
    InFlightUntouched(w, w');
    OthersUntouched(w, w', -1);
  }

  // ---------------------------------------------------------------- requests

  // A refresh writes no future and no callbackURL.
  lemma ApplyTouches(settings: Settings, s: StoreState, answer: Answer)
    ensures var s' := Apply(settings, s, answer);
      && s' == s.(reservations := s'.reservations) && s.reservations.Keys <= s'.reservations.Keys
      && forall c :: UrlOf(s', c) == UrlOf(s, c)
  {
  }

  lemma LookKeeps(settings: Settings, w: World, answer: Answer)
    requires Inv(w)
    ensures var w' := w.(store := Apply(settings, w.store, answer)).List(answer.qr.connectionId);
            Inv(w') && Grows(w, w')
  {
    hide FuturesOk, ReportsOk, InFlightOk, AdoptionOk, OpOk, LiveOk, Apply;
    ApplyTouches(settings, w.store, answer);
    var w' := w.(store := Apply(settings, w.store, answer)).List(answer.qr.connectionId);
    FuturesUntouched(w, w');
    AdoptionUntouched(w, w');
    ReportsUntouched(w, w');
    InFlightUntouched(w, w');
    OthersUntouched(w, w', -1);
  }

  lemma AdoptKeeps(w: World, c: string, url: string)
    requires Inv(w) && c in w.store.reservations
    ensures var w' := w.(store := w.store.Adopt(c, url)).Log(Adopted(c, url)); Inv(w') && Grows(w, w')
  {
    hide FuturesOk, AdoptionOk, ReportsOk, InFlightOk, OpOk, LiveOk;
    var w' := w.(store := w.store.Adopt(c, url)).Log(Adopted(c, url));
    FuturesUntouched(w, w');
    AdoptionLogged(w, w', c, url);
    ReportsUntouched(w, w');
    InFlightUntouched(w, w');
    OthersUntouched(w, w', -1);
  }

  lemma BeginBase(w: World, w': World, kind: Kind, c: string, correlationId: string, draft: Reservation)
    requires Base(w) && correlationId !in w.issued && (kind != Reserve ==> c in w.store.reservations)
    requires w' == Begin(w, kind, c, correlationId, draft)
    ensures Base(w') && Grows(w, w')
  {
    FuturesRegistered(w, w', ByCorrelation(correlationId), |w.operations|);
    AdoptionUntouched(w, w');
    ReportsUntouched(w, w');
    InFlightUntouched(w, w');
  }

  lemma BeginKeeps(w: World, kind: Kind, c: string, correlationId: string, draft: Reservation)
    requires Inv(w) && correlationId !in w.issued && (kind != Reserve ==> c in w.store.reservations)
    ensures var w' := Begin(w, kind, c, correlationId, draft); Inv(w') && Grows(w, w')
  {
    var i, w' := |w.operations|, Begin(w, kind, c, correlationId, draft);
    BeginBase(w, w', kind, c, correlationId, draft);
    OthersUntouched(w, w', i);
    assert OpOk(w', i) && LiveOk(w', i);
  }

  lemma ReceivedKeeps(settings: Settings, w: World, kind: Kind, answer: Answer, url: string)
    requires Inv(w) && kind != Reserve
    ensures var w' := Received(settings, w, kind, answer, url); Inv(w') && Grows(w, w') && w'.issued == w.issued
  {
    var refreshed := w.(store := Apply(settings, w.store, answer)).List(answer.qr.connectionId);
    LookKeeps(settings, w, answer);
    if AdoptsUrl(kind, VerdictOn(settings, w, kind, answer)) {
      AdoptKeeps(refreshed, answer.qr.connectionId, url);
      GrowsTransitive(w, refreshed, Received(settings, w, kind, answer, url));
    }
  }

  lemma AskKeeps(settings: Settings, w: World, kind: Kind, answer: Answer, url: string, correlationId: string)
    requires Inv(w) && kind != Reserve && correlationId !in w.issued
    ensures var w' := Ask(settings, w, kind, answer, url, correlationId); Inv(w') && Grows(w, w')
  {
    var c := answer.qr.connectionId;
    var received := Received(settings, w, kind, answer, url);
    ReceivedKeeps(settings, w, kind, answer, url);
    if VerdictOn(settings, w, kind, answer) == Proceed {
      BeginKeeps(received, kind, c, correlationId, received.store.reservations[c]);
      GrowsTransitive(w, received, Begin(received, kind, c, correlationId, received.store.reservations[c]));
    }
  }

  // ---------------------------------------------------------------- responses

  // Only operation i changes, and not into or out of having reported.
  ghost predicate OnlyOp(w: World, w': World, i: nat) {
    && i < |w.operations| == |w'.operations|
    && w'.operations == w.operations[i := w'.operations[i]]
    && w'.operations[i].kind == w.operations[i].kind
    && w'.operations[i].outcome == w.operations[i].outcome
  }

  // A step that changes operation i alone, and logs nothing.
  ghost predicate MovedOnly(w: World, w': World, i: nat) {
    && OnlyOp(w, w', i)
    && w' == w.(operations := w'.operations)
    && w'.operations[i].connectionId == w.operations[i].connectionId
    && (w.operations[i].kind == Reserve ==>
          && Started(w'.operations[i].phase) == Started(w.operations[i].phase)
          && Ended(w'.operations[i].phase) == Ended(w.operations[i].phase))
  }

  lemma MovedBase(w: World, w': World, i: nat)
    requires Base(w) && w'.Shape() && MovedOnly(w, w', i)
    ensures Base(w') && Grows(w, w')
  {
    FuturesUntouched(w, w');
    AdoptionUntouched(w, w');
    ReportsUntouched(w, w');
    InFlightUntouched(w, w');
  }

  lemma MovedKeeps(w: World, w': World, i: nat)
    requires Base(w) && OpsOkExcept(w, i) && w'.Shape() && MovedOnly(w, w', i)
    requires OpOk(w', i) && LiveOk(w', i)
    ensures Inv(w') && Grows(w, w')
  {
    MovedBase(w, w', i);
    OthersUntouched(w, w', i);
  }

  // Cancelling the reply that operation i waits for changes its own future only.
  lemma CancelReplyFutures(w: World, w': World, i: nat, id: string)
    requires Base(w) && i < |w.operations| && FutureMine(w, i, w.operations[i])
    requires HasFuture(w.operations[i].phase) && AwaitedKey(w.operations[i]) == ByCorrelation(id)
    requires w' == w.(store := w.store.CancelPending(id))
    ensures FuturesOk(w') && OnlyFuture(w, w', w.operations[i].phase.future)
    ensures w'.store.reservations == w.store.reservations && w'.store.reservesInFlight == w.store.reservesInFlight
  {
    if id in w.store.pending {
      assert EntryOk(w, ByCorrelation(id), w.store.pending[id]);
      FuturesCancelled(w, w', w.operations[i].phase.future);
    } else {
      FuturesUntouched(w, w');
    }
  }

  ghost predicate OnlyFuture(w: World, w': World, g: nat) {
    && |w'.store.futures| == |w.store.futures| && w'.origins == w.origins
    && forall f :: 0 <= f < |w.store.futures| && f != g ==> w'.store.futures[f] == w.store.futures[f]
  }

  // A future belongs to the operation that waits for it, so no other operation notices.
  lemma OthersSpared(w: World, w': World, i: nat, g: nat)
    requires w.Shape() && w'.Shape() && Grows(w, w') && OpsOkExcept(w, i)
    requires i < |w.operations| && OnlyFuture(w, w', g) && g < |w.origins| && w.origins[g].owner == i
    requires |w'.operations| == |w.operations|
    requires forall j :: 0 <= j < |w.operations| && j != i ==> w'.operations[j] == w.operations[j]
    ensures OpsOkExcept(w', i)
  {
    forall j | 0 <= j < |w.operations| && j != i ensures SparedOrRevoked(w, w', j) {
      assert OpOk(w, j);
    }
    OthersUntouched(w, w', i);
  }

  lemma CancelReplyKeeps(w: World, w': World, i: nat, id: string)
    requires Base(w) && OpsOkExcept(w, i) && i < |w.operations| && FutureMine(w, i, w.operations[i])
    requires HasFuture(w.operations[i].phase) && AwaitedKey(w.operations[i]) == ByCorrelation(id)
    requires w' == w.(store := w.store.CancelPending(id)) && w'.Shape()
    ensures Base(w') && OpsOkExcept(w', i) && Grows(w, w')
  {
    CancelReplyFutures(w, w', i, id);
    AdoptionUntouched(w, w');
    ReportsUntouched(w, w');
    InFlightUntouched(w, w');
    assert Grows(w, w') by { assert CancelGrows(w, id); }
    OthersSpared(w, w', i, w.operations[i].phase.future);
  }

  ghost predicate CancelGrows(w: World, id: string)
    requires w.Shape()
    ensures CancelGrows(w, id)
  {
    var s' := w.store.CancelPending(id);
    forall f :: 0 <= f < |w.store.futures| && w.store.futures[f] != Pending ==> s'.futures[f] == w.store.futures[f]
  }

  lemma WithdrawKeeps(w: World, i: nat)
    requires Inv(w) && i < |w.operations| && w.operations[i].phase.Sending?
    ensures Inv(Withdraw(w, i)) && Grows(w, Withdraw(w, i))
  {
    hide FuturesOk, AdoptionOk, ReportsOk, InFlightOk, HeardOk, LiveOk, Concluded, WasRevoked, DataPlanePhase;
    var op := w.operations[i];
    var v := w.(store := w.store.CancelPending(op.correlationId));
    assert OpOk(w, i);
    CancelReplyKeeps(w, v, i, op.correlationId);
    RefusedKeeps(v, i);
    GrowsTransitive(w, v, v.Put(i, op.(phase := Refused)));
  }

  lemma RefusedKeeps(w: World, i: nat)
    requires Base(w) && OpsOkExcept(w, i) && i < |w.operations|
    requires w.operations[i].phase.Sending? && w.operations[i].heard == [] && w.operations[i].outcome.None?
    ensures var w' := w.Put(i, w.operations[i].(phase := Refused)); Inv(w') && Grows(w, w')
  {
    var w' := w.Put(i, w.operations[i].(phase := Refused));
    assert OpOk(w', i);
    MovedKeeps(w, w', i);
  }

  lemma UnparsableKeeps(w: World, i: nat)
    requires Inv(w) && i < |w.operations| && w.operations[i].phase.Sending?
    ensures var w' := Respond(w, i, Unparsable); Inv(w') && Grows(w, w')
  {
    hide FuturesOk, AdoptionOk, ReportsOk, InFlightOk, HeardOk, FutureMine, LiveOk, Concluded, WasRevoked,
         DataPlanePhase;
    assert OpOk(w, i);
    RefusedKeeps(w, i);
  }

  lemma InFlightAccepted(w: World, w': World, i: nat, c: string)
    requires InFlightOk(w) && OnlyOp(w, w', i) && c !in w.accepted
    requires w.operations[i].kind == Reserve && !Started(w.operations[i].phase)
    requires w'.operations[i].phase.AwaitingReply? && w'.operations[i].connectionId == c
    requires w'.accepted == w.accepted[c := i]
    requires w'.store.reservesInFlight == w.store.reservesInFlight + {c}
    ensures InFlightOk(w')
  {
    forall d | d in w'.accepted ensures ReserverOk(w', d) {
      if d != c { assert ReserverOk(w, d); }
    }
    forall d ensures d in w'.store.reservesInFlight
      <==> d in w'.accepted && !Ended(w'.operations[w'.accepted[d]].phase)
    {
      if d in w.accepted { assert ReserverOk(w, d); }
    }
  }

  lemma AcceptedOp(w: World, w': World, i: nat)
    requires w.Shape() && w'.Shape() && i < |w.operations| == |w'.operations|
    requires OpOk(w, i) && LiveOk(w, i) && w.operations[i].phase.Sending?
    requires w'.operations[i] == w.operations[i].(phase := AwaitingReply(w.operations[i].phase.future),
                                                  connectionId := w'.operations[i].connectionId)
    requires w'.origins == w.origins && w'.store.futures == w.store.futures
    ensures OpOk(w', i) && LiveOk(w', i)
  {
  }

  lemma AcceptedReserveBase(w: World, w': World, i: nat, c: string, r: Reservation)
    requires Base(w) && w'.Shape() && OnlyOp(w, w', i) && c !in w.accepted && w.operations[i].kind == Reserve
    requires !Started(w.operations[i].phase)
    requires w'.operations[i].phase.AwaitingReply? && w'.operations[i].connectionId == c
    requires w' == w.(store := w.store.(reservations := w.store.reservations[c := r],
                                        reservesInFlight := w.store.reservesInFlight + {c}),
                      accepted := w.accepted[c := i], operations := w'.operations,
                      history := w.history + [Adopted(c, r.callbackUrl)])
    ensures Base(w') && Grows(w, w')
  {
    hide FuturesOk, AdoptionOk, ReportsOk, InFlightOk;
    FuturesUntouched(w, w');
    ReportsUntouched(w, w');
    AdoptionLogged(w, w', c, r.callbackUrl);
    InFlightAccepted(w, w', i, c);
  }

  lemma AcceptedReserveKeeps(w: World, i: nat, c: string)
    requires Inv(w) && i < |w.operations| && w.operations[i].phase.Sending?
    requires w.operations[i].kind == Reserve && c !in w.accepted
    ensures var w' := Respond(w, i, Accepted(c)); Inv(w') && Grows(w, w')
  {
    hide FuturesOk, AdoptionOk, ReportsOk, InFlightOk, OpOk, LiveOk;
    var w' := Respond(w, i, Accepted(c));
    assert OpOk(w, i) && LiveOk(w, i);
    AcceptedReserveBase(w, w', i, c, w.operations[i].draft.(connectionId := c, status := RESERVING));
    AcceptedOp(w, w', i);
    OthersUntouched(w, w', i);
  }

  // Other kinds only write the status.
  lemma StatusKeeps(w: World, c: string, status: ReservationStatus)
    requires Inv(w) && c in w.store.reservations
    ensures var w' := w.(store := w.store.SetStatus(c, status)); Inv(w') && Grows(w, w')
  {
    var w' := w.(store := w.store.SetStatus(c, status));
    FuturesUntouched(w, w');
    ReportsUntouched(w, w');
    AdoptionUntouched(w, w');
    InFlightUntouched(w, w');
    OthersUntouched(w, w', -1);
  }

  lemma AcceptedPlainKeeps(v: World, i: nat)
    requires Inv(v) && i < |v.operations| && v.operations[i].phase.Sending? && v.operations[i].kind != Reserve
    ensures var op := v.operations[i];
            var w' := v.Put(i, op.(phase := AwaitingReply(op.phase.future))); Inv(w') && Grows(v, w')
  {
    hide FuturesOk, AdoptionOk, ReportsOk, InFlightOk, OpOk, LiveOk;
    var op := v.operations[i];
    var w' := v.Put(i, op.(phase := AwaitingReply(op.phase.future)));
    assert OpOk(v, i) && LiveOk(v, i);
    AcceptedOp(v, w', i);
    MovedKeeps(v, w', i);
  }

  lemma AcceptedKeeps(w: World, i: nat, c: string)
    requires Inv(w) && i < |w.operations| && w.operations[i].phase.Sending?
    requires w.operations[i].kind == Reserve ==> c !in w.accepted
    ensures var w' := Respond(w, i, Accepted(c)); Inv(w') && Grows(w, w')
  {
    var op := w.operations[i];
    if op.kind == Reserve {
      AcceptedReserveKeeps(w, i, c);
    } else if op.kind == Terminate {
      AcceptedPlainKeeps(w, i);
    } else {
      var status := if op.kind == Provision then ACTIVATING else DEACTIVATING;
      var v := w.(store := w.store.SetStatus(op.connectionId, status));
      StatusKeeps(w, op.connectionId, status);
      AcceptedPlainKeeps(v, i);
      GrowsTransitive(w, v, Respond(w, i, Accepted(c)));
    }
  }

  // ---------------------------------------------------------------- background tasks

  function Hears(w: World, i: nat): World
    requires w.Shape() && i < |w.operations| && Waiting(w.operations[i].phase)
    requires w.store.futures[w.operations[i].phase.future].Done?
  {
    var op := w.operations[i];
    var f := op.phase.future;
    w.Put(i, op.(heard := op.heard + [Hearing(w.store.futures[f].message, w.landed[f])]))
  }

  // The operation's own facts, without the rest of the invariant.
  ghost predicate AboutToHear(w: World, i: nat) {
    && w.Shape() && i < |w.operations| && Waiting(w.operations[i].phase)
    && w.store.futures[w.operations[i].phase.future].Done?
    && OpOk(w, i) && LandedOk(w, w.operations[i].phase.future)
  }

  lemma HearsInOrder(w: World, i: nat)
    requires AboutToHear(w, i)
    ensures HeardOk(w, Hears(w, i).operations[i])
  {
    var op, op' := w.operations[i], Hears(w, i).operations[i];
    forall k | 0 <= k < |op'.heard| ensures HeardAt(w, op', k) {
      if k < |op.heard| {
        assert HeardAt(w, op, k);
      } else {
        HearsNext(w, i);
      }
    }
  }

  lemma HearsNext(w: World, i: nat)
    requires AboutToHear(w, i)
    ensures HeardAt(w, Hears(w, i).operations[i], |w.operations[i].heard|)
  {
    assert HeardKey(Hears(w, i).operations[i], |w.operations[i].heard|) == AwaitedKey(w.operations[i]);
  }

  // A task that hears its message is poised to act on it.
  lemma HearsPoised(w: World, i: nat)
    requires Inv(w) && AboutToHear(w, i)
    ensures Poised(Hears(w, i), i) && Grows(w, Hears(w, i))
  {
    hide FuturesOk, AdoptionOk, ReportsOk, InFlightOk, HeardOk;
    var v := Hears(w, i);
    MovedBase(w, v, i);
    OthersUntouched(w, v, i);
    HearsInOrder(w, i);
    HeardStays(w, v, v.operations[i]);
  }

  // The next turn of a data-plane wait, or its end.
  lemma RegisterWaitBase(w: World, w': World, i: nat)
    requires Poised(w, i) && DataPlanePhase(w.operations[i]) && w' == AwaitDataPlane(w, i, true)
    ensures Base(w') && Grows(w, w')
  {
    FuturesRegistered(w, w', ByConnection(w.operations[i].connectionId), i);
    AdoptionUntouched(w, w');
    ReportsUntouched(w, w');
    InFlightUntouched(w, w');
  }

  lemma AwaitDataPlaneKeeps(w: World, i: nat, timeLeft: bool)
    requires Poised(w, i) && DataPlanePhase(w.operations[i])
    ensures var w' := AwaitDataPlane(w, i, timeLeft); Inv(w') && Grows(w, w')
  {
    hide FuturesOk, AdoptionOk, ReportsOk, InFlightOk, HeardOk, LastAdopted, WasRevoked, Concluded;
    var op, w' := w.operations[i], AwaitDataPlane(w, i, timeLeft);
    HeardStays(w, w', op);
    HeardIsPast(w, op);
    SameHeard(w', op, w'.operations[i]);
    if timeLeft {
      RegisterWaitBase(w, w', i);
      OthersUntouched(w, w', i);
    } else {
      MovedKeeps(w, w', i);
    }
  }

  lemma SameHeard(w: World, op: Operation, op': Operation)
    requires HeardOk(w, op) && op'.heard == op.heard && op'.kind == op.kind
    requires op'.correlationId == op.correlationId && op'.connectionId == op.connectionId
    requires op'.commitId == op.commitId || |op.heard| <= 1 || op.kind != Reserve
    ensures HeardOk(w, op')
  {
    forall k | 0 <= k < |op'.heard| ensures HeardAt(w, op', k) { assert HeardAt(w, op, k); }
  }

  lemma CriteriaKeeps(w: World, i: nat, m: NsiMessage)
    requires Poised(w, i) && m.ReserveConfirmed?
    ensures var w' := w.(store := w.store.SetCriteria(w.operations[i].connectionId, m)); Poised(w', i) && Grows(w, w')
  {
    var w' := w.(store := w.store.SetCriteria(w.operations[i].connectionId, m));
    FuturesUntouched(w, w');
    AdoptionUntouched(w, w');
    ReportsUntouched(w, w');
    InFlightUntouched(w, w');
    OthersUntouched(w, w', i);
    HeardStays(w, w', w.operations[i]);
  }

  lemma CommitPostedBase(w: World, w': World, i: nat, commitId: string)
    requires Poised(w, i) && commitId !in w.issued && w'.Shape() && OnlyOp(w, w', i)
    requires w'.operations[i].phase.SendingCommit? && w'.operations[i].connectionId == w.operations[i].connectionId
    requires w' == w.(store := w.store.RegisterPending(commitId),
                      origins := w.origins + [Origin(ByCorrelation(commitId), i, |w.history|)],
                      issued := w.issued + {commitId}, operations := w'.operations,
                      history := w.history + [CommitPosted(i)])
    ensures Base(w') && Grows(w, w')
  {
    hide FuturesOk, AdoptionOk, ReportsOk, InFlightOk, OpOk, LiveOk, HeardOk;
    FuturesRegistered(w, w', ByCorrelation(commitId), i);
    AdoptionUntouched(w, w');
    ReportsUntouched(w, w');
    InFlightUntouched(w, w');
  }

  lemma PostedOp(w: World, w': World, i: nat, m: NsiMessage, commitId: string)
    requires w.Shape() && i < |w.operations| && HeardOk(w, w.operations[i]) && w.operations[i].outcome.None?
    requires Attached(w.operations[i]) && m.ReserveConfirmed? && w' == PostCommit(w, i, m, commitId)
    requires var op := w.operations[i]; op.kind == Reserve && |op.heard| == 1 && op.heard[0].message == m
    ensures OpOk(w', i) && LiveOk(w', i)
  {
    var op := w.operations[i];
    HeardIsPast(w, op);
    HeardStays(w, w', op);
    SameHeard(w', op, w'.operations[i]);
  }

  // The others and operation i put together.
  lemma Assembled(w: World, w': World, i: nat)
    requires w.Shape() && OpsOkExcept(w, i) && Base(w') && Grows(w, w') && OnlyOp(w, w', i)
    requires forall f :: 0 <= f < |w.store.futures| ==> w'.store.futures[f] == w.store.futures[f]
    requires OpOk(w', i) && LiveOk(w', i)
    ensures Inv(w')
  {
    OthersUntouched(w, w', i);
  }

  lemma PostCommitKeeps(w: World, v: World, w': World, i: nat, m: NsiMessage, commitId: string)
    requires Poised(w, i) && commitId !in w.issued && m.ReserveConfirmed?
    requires var op := w.operations[i]; op.kind == Reserve && |op.heard| == 1 && op.heard[0].message == m
    requires v == w.(store := w.store.SetCriteria(w.operations[i].connectionId, m))
    requires w' == PostCommit(w, i, m, commitId)
    ensures Inv(w') && Grows(w, w')
  {
    hide FuturesOk, AdoptionOk, ReportsOk, InFlightOk, OpOk, LiveOk, HeardOk;
    assert Poised(v, i) && Grows(w, v) by { CriteriaKeeps(w, i, m); }
    assert OpOk(w', i) && LiveOk(w', i) by { PostedOp(w, w', i, m, commitId); }
    CommitPostedBase(v, w', i, commitId);
    Assembled(v, w', i);
    GrowsTransitive(w, v, w');
  }

  // A commit future that is filed but never waited for harms nobody.
  lemma FiledOnlyKeeps(w: World, i: nat, commitId: string)
    requires Poised(w, i) && commitId !in w.issued
    ensures Poised(w.RegisterReply(i, commitId), i) && Grows(w, w.RegisterReply(i, commitId))
  {
    hide FuturesOk, AdoptionOk, ReportsOk, InFlightOk, OpOk, LiveOk, HeardOk;
    var w' := w.RegisterReply(i, commitId);
    FuturesRegistered(w, w', ByCorrelation(commitId), i);
    AdoptionUntouched(w, w');
    ReportsUntouched(w, w');
    InFlightUntouched(w, w');
    OthersUntouched(w, w', i);
    HeardStays(w, w', w.operations[i]);
  }

  lemma InterruptedKeeps(w: World, i: nat, m: NsiMessage, fault: Fault, commitId: string)
    requires Poised(w, i) && commitId !in w.issued && fault != NoFault
    ensures var w' := Interrupted(w, i, m, fault, commitId); Poised(w', i) && Grows(w, w')
  {
    hide FuturesOk, AdoptionOk, ReportsOk, InFlightOk, OpOk, LiveOk, HeardOk;
    if m.ReserveConfirmed? && fault != AtOnce {
      var confirmed := w.(store := w.store.SetCriteria(w.operations[i].connectionId, m));
      CriteriaKeeps(w, i, m);
      FiledOnlyKeeps(confirmed, i, commitId);
      GrowsTransitive(w, confirmed, confirmed.RegisterReply(i, commitId));
    }
  }

  lemma HandleReplyKeeps(settings: Settings, w: World, i: nat, m: NsiMessage, commitId: string)
    requires Poised(w, i) && commitId !in w.issued
    requires var op := w.operations[i]; |op.heard| == 1 && op.heard[0].message == m
    ensures var w' := HandleReply(settings, w, i, m, commitId); Inv(w') && Grows(w, w')
  {
    hide FuturesOk, AdoptionOk, ReportsOk, InFlightOk, OpOk, LiveOk, HeardOk;
    var kind := w.operations[i].kind;
    if kind == Terminate {
      GiveUpKeeps(w, i, UnexpectedMessage);
    } else if !Confirms(kind, m) {
      FailKeeps(w, i,
        if kind == Reserve && m.ReserveFailed? then RejectedByAggregator(m.serviceException)
        else if kind == Reserve && m.ReserveTimeout? then ReserveTimedOutAtAggregator
        else UnexpectedMessage);
    } else if kind == Reserve {
      PostCommitKeeps(w, w.(store := w.store.SetCriteria(w.operations[i].connectionId, m)),
                      PostCommit(w, i, m, commitId), i, m, commitId);
    } else {
      AwaitDataPlaneKeeps(w, i, settings.dataplaneTimeout > 0);
    }
  }

  lemma HandleCommitKeeps(w: World, i: nat, m: NsiMessage)
    requires Poised(w, i) && CommitWasAccepted(w, i, w.operations[i])
    requires var op := w.operations[i]; |op.heard| == 2 && op.heard[1].message == m && op.commitPosted <= op.heard[1].at
    ensures var w' := HandleCommit(w, i, m); Inv(w') && Grows(w, w')
  {
    if m.ReserveCommitFailed? { FailKeeps(w, i, RejectedByAggregator(m.serviceException)); }
    else if m.ReserveCommitConfirmed? { ReportKeeps(w, i, RESERVED, None); }
    else { FailKeeps(w, i, UnexpectedMessage); }
  }

  lemma HandleNotificationKeeps(w: World, i: nat, m: NsiMessage, timeLeft: bool)
    requires Poised(w, i)
    requires var op := w.operations[i];
      && |op.heard| >= 2 && op.heard[|op.heard| - 1].message == m
      && DataPlanePhase(op.(heard := op.heard[..|op.heard| - 1]))
    ensures var w' := HandleNotification(w, i, m, timeLeft); Inv(w') && Grows(w, w')
  {
    var op := w.operations[i];
    var before := op.(heard := op.heard[..|op.heard| - 1]);
    assert forall k :: 0 <= k < |before.heard| ==> before.heard[k] == op.heard[k];
    if Reaches(m, Target(op.kind)) { ReportKeeps(w, i, SuccessStatus(op.kind), None); }
    else if m.ErrorEvent? { FailKeeps(w, i, ErrorReason(m)); }
    else {
      assert DataPlanePhase(op) by {
        forall k | 1 <= k < |op.heard| ensures Idle(op.kind, op.heard[k].message) {
          assert k < |before.heard| ==> Idle(op.kind, before.heard[k].message);
        }
      }
      AwaitDataPlaneKeeps(w, i, timeLeft);
    }
  }

  lemma AbortKeeps(settings: Settings, w: World, i: nat, fault: Fault, commitId: string, timeLeft: bool)
    requires Inv(w) && i < |w.operations| && Waiting(w.operations[i].phase)
    requires OpOk(w, i) && LiveOk(w, i)
    requires w.store.futures[w.operations[i].phase.future] == Cancelled
    ensures var w' := Wake(settings, w, i, fault, commitId, timeLeft);
            Inv(w') && Grows(w, w') && w.operations[i].phase.AwaitingDataPlane?
  {
    var w' := Wake(settings, w, i, fault, commitId, timeLeft);
    AbortedOp(w, w', i);
    MovedKeeps(w, w', i);
  }

  lemma AbortedOp(w: World, w': World, i: nat)
    requires w.Shape() && w'.Shape() && i < |w.operations| == |w'.operations| && w'.history == w.history
    requires OpOk(w, i) && LiveOk(w, i) && Waiting(w.operations[i].phase)
    requires w.store.futures[w.operations[i].phase.future] == Cancelled
    requires w'.operations[i] == w.operations[i].(phase := Aborted)
    ensures OpOk(w', i) && LiveOk(w', i)
    ensures w.operations[i].phase.AwaitingDataPlane? && w.operations[i].kind != Reserve
  {
    HeardStays(w, w', w.operations[i]);
    SameHeard(w', w.operations[i], w'.operations[i]);
  }

  lemma WakeKeeps(settings: Settings, w: World, i: nat, fault: Fault, commitId: string, timeLeft: bool)
    requires Inv(w) && i < |w.operations| && Waiting(w.operations[i].phase) && commitId !in w.issued
    requires w.store.futures[w.operations[i].phase.future] != Pending
    ensures var w' := Wake(settings, w, i, fault, commitId, timeLeft); Inv(w') && Grows(w, w')
  {
    assert OpOk(w, i) && LiveOk(w, i);
    if w.store.futures[w.operations[i].phase.future] == Cancelled {
      AbortKeeps(settings, w, i, fault, commitId, timeLeft);
    } else {
      assert LandedOk(w, w.operations[i].phase.future);
      HearKeeps(settings, w, i, fault, commitId, timeLeft);
    }
  }

  lemma HearKeeps(settings: Settings, w: World, i: nat, fault: Fault, commitId: string, timeLeft: bool)
    requires Inv(w) && AboutToHear(w, i) && commitId !in w.issued
    ensures var w' := Wake(settings, w, i, fault, commitId, timeLeft); Inv(w') && Grows(w, w')
  {
    hide FuturesOk, AdoptionOk, ReportsOk, InFlightOk, OpOk, LiveOk, HeardOk, HandleReply, HandleCommit,
         HandleNotification, GiveUp, Interrupted;
    var op := w.operations[i];
    var v := Hears(w, i);
    var m := w.store.futures[op.phase.future].message;
    HearsPoised(w, i);
    HearsFacts(w, i);
    if fault != NoFault {
      InterruptedKeeps(v, i, m, fault, commitId);
      GiveUpKeeps(Interrupted(v, i, m, fault, commitId), i, InternalError);
      GrowsTransitive(v, Interrupted(v, i, m, fault, commitId), Wake(settings, w, i, fault, commitId, timeLeft));
    } else if op.phase.AwaitingReply? {
      HandleReplyKeeps(settings, v, i, m, commitId);
    } else if op.phase.AwaitingCommit? {
      HandleCommitKeeps(v, i, m);
    } else {
      HandleNotificationKeeps(v, i, m, timeLeft);
    }
    GrowsTransitive(w, v, Wake(settings, w, i, fault, commitId, timeLeft));
  }

  // What each phase knows when its message arrives.
  lemma HearsFacts(w: World, i: nat)
    requires AboutToHear(w, i)
    ensures var v := Hears(w, i); var op, op' := w.operations[i], v.operations[i];
      && v.issued == w.issued && |op'.heard| == |op.heard| + 1
      && op'.heard[|op.heard|].message == w.store.futures[op.phase.future].message
      && (op.phase.AwaitingReply? ==> |op'.heard| == 1)
      && (op.phase.AwaitingCommit? ==>
            |op'.heard| == 2 && CommitWasAccepted(v, i, op') && op'.commitPosted <= op'.heard[1].at)
      && (op.phase.AwaitingDataPlane? ==>
            |op'.heard| >= 2 && DataPlanePhase(op'.(heard := op'.heard[..|op'.heard| - 1])))
  {
    hide HeardOk, Concluded, WasRevoked, LastAdopted;
    var op := w.operations[i];
    var h := Hearing(w.store.futures[op.phase.future].message, w.landed[op.phase.future]);
    assert (op.heard + [h])[..|op.heard|] == op.heard;
  }

  // ---------------------------------------------------------------- timeouts

  // Giving up on a future cancels that future and nothing else.
  lemma AbandonKeeps(w: World, w': World, i: nat)
    requires Base(w) && OpsOkExcept(w, i) && i < |w.operations| && FutureMine(w, i, w.operations[i])
    requires HasFuture(w.operations[i].phase)
    requires w' == w.(store := w.store.Abandon(w.operations[i].phase.future)) && w'.Shape()
    ensures Base(w') && OpsOkExcept(w', i) && Grows(w, w')
  {
    FuturesCancelled(w, w', w.operations[i].phase.future);
    AdoptionUntouched(w, w');
    ReportsUntouched(w, w');
    InFlightUntouched(w, w');
    OthersSpared(w, w', i, w.operations[i].phase.future);
  }

  // The second half of a data-plane timeout: whatever is filed under the connection is cancelled,
  // and if it belongs to another operation, that operation is revoked.
  lemma CleanupFutures(w: World, w': World, c: string)
    requires w.Shape() && w'.Shape() && FuturesOk(w) && w.history <= w'.history
    requires |w'.operations| == |w.operations| && w'.store == w.store.CancelPendingByConnection(c)
    requires w'.origins == w.origins && w'.landed == w.landed && w'.issued == w.issued
    ensures FuturesOk(w')
  {
    if c in w.store.pendingByConnection {
      FuturesCancelled(w, w', w.store.pendingByConnection[c]);
    } else {
      FuturesUntouched(w, w');
    }
  }

  lemma CleanupGrows(w: World, w': World, c: string)
    requires w.Shape() && w'.Shape() && w.history <= w'.history && |w.operations| == |w'.operations|
    requires w'.store == w.store.CancelPendingByConnection(c)
    requires w'.origins == w.origins && w'.landed == w.landed && w'.issued == w.issued && w'.accepted == w.accepted
    ensures Grows(w, w') && w'.store.reservations == w.store.reservations
    ensures w'.store.reservesInFlight == w.store.reservesInFlight
  {
  }

  lemma CleanupBase(w: World, w': World, i: nat)
    requires Base(w) && i < |w.operations| && w'.Shape() && OnlyOp(w, w', i)
    requires w'.operations[i] == w.operations[i].(phase := QueryingNotifications)
    requires w.operations[i].phase.AwaitingDataPlane?
    requires w' == w.(store := w.store.CancelPendingByConnection(w.operations[i].connectionId),
                      operations := w'.operations, history := w'.history)
    requires Extended(w.history, w'.history) && (w'.history != w.history ==> w'.history[|w.history|].Revoked?)
    ensures Base(w') && Grows(w, w')
  {
    hide FuturesOk, AdoptionOk, ReportsOk, InFlightOk;
    CleanupGrows(w, w', w.operations[i].connectionId);
    CleanupFutures(w, w', w.operations[i].connectionId);
    assert AdoptionOk(w') by { AdoptionUntouched(w, w'); }
    assert ReportsOk(w') by { ReportsUntouched(w, w'); }
    assert InFlightOk(w') by { InFlightUntouched(w, w'); }
  }

  lemma CleanupOthers(w: World, w': World, i: nat, j: nat)
    requires w.Shape() && w'.Shape() && FuturesOk(w) && Grows(w, w')
    requires i < |w.operations| && j < |w.operations| && i != j
    requires OpOk(w, j)
    requires w'.store.futures == w.store.CancelPendingByConnection(w.operations[i].connectionId).futures
    requires var c := w.operations[i].connectionId;
      c in w.store.pendingByConnection && w.store.futures[w.store.pendingByConnection[c]] == Pending
      && w.origins[w.store.pendingByConnection[c]].owner != i
      ==> w'.history == w.history + [Revoked(i, w.origins[w.store.pendingByConnection[c]].owner)]
    ensures SparedOrRevoked(w, w', j)
  {
    var c := w.operations[i].connectionId;
    var p := w.operations[j].phase;
    if HasFuture(p) && w'.store.futures[p.future] == Cancelled && w.store.futures[p.future] != Cancelled {
      assert c in w.store.pendingByConnection && w.store.pendingByConnection[c] == p.future;
      assert EntryOk(w, ByConnection(c), p.future);
      assert w'.history[|w.history|] == Revoked(i, j);
    }
  }

  lemma CleanupKeeps(w: World, w': World, i: nat)
    requires Base(w) && OpsOkExcept(w, i) && Base(w') && Grows(w, w') && OnlyOp(w, w', i)
    requires w'.store.futures == w.store.CancelPendingByConnection(w.operations[i].connectionId).futures
    requires var c := w.operations[i].connectionId;
      c in w.store.pendingByConnection && w.store.futures[w.store.pendingByConnection[c]] == Pending
      && w.origins[w.store.pendingByConnection[c]].owner != i
      ==> w'.history == w.history + [Revoked(i, w.origins[w.store.pendingByConnection[c]].owner)]
    ensures OpsOkExcept(w', i)
  {
    forall j | 0 <= j < |w.operations| && j != i ensures SparedOrRevoked(w, w', j) {
      assert OpOk(w, j);
      CleanupOthers(w, w', i, j);
    }
    OthersUntouched(w, w', i);
  }

  lemma QueryingOp(w: World, w': World, i: nat)
    requires i < |w.operations| && w.operations[i].phase.AwaitingDataPlane? && OpOk(w, i)
    requires w.history <= w'.history && i < |w'.operations|
    requires w'.operations[i] == w.operations[i].(phase := QueryingNotifications)
    ensures OpOk(w', i)
  {
    HeardStays(w, w', w.operations[i]);
    SameHeard(w', w.operations[i], w'.operations[i]);
  }

  lemma ExpireDataPlaneKeeps(w: World, i: nat)
    requires Inv(w) && i < |w.operations| && w.operations[i].phase.AwaitingDataPlane? && OpOk(w, i)
    ensures Inv(Expire(w, i)) && Grows(w, Expire(w, i))
  {
    hide FuturesOk, AdoptionOk, ReportsOk, InFlightOk, HeardOk, Story, FutureMine;
    var w' := Expire(w, i);
    var v := w.(store := w.store.Abandon(w.operations[i].phase.future));
    AbandonKeeps(w, v, i);
    CleanupBase(v, w', i);
    CleanupKeeps(v, w', i);
    QueryingOp(w, w', i);
    GrowsTransitive(w, v, w');
  }

  lemma ExpireReplyKeeps(w: World, i: nat)
    requires Inv(w) && i < |w.operations| && OpOk(w, i)
    requires w.operations[i].phase.AwaitingReply? || w.operations[i].phase.AwaitingCommit?
    ensures Inv(Expire(w, i)) && Grows(w, Expire(w, i))
  {
    hide FuturesOk, AdoptionOk, ReportsOk, InFlightOk, HeardOk, FutureMine, LiveOk, Concluded, WasRevoked,
         DataPlanePhase;
    var v := w.(store := w.store.Abandon(w.operations[i].phase.future));
    AbandonKeeps(w, v, i);
    HeardStays(w, v, w.operations[i]);
    GiveUpKeeps(v, i, NoReplyInTime);
    GrowsTransitive(w, v, Expire(w, i));
  }

  lemma ExpireKeeps(w: World, i: nat)
    requires Inv(w) && i < |w.operations| && Waiting(w.operations[i].phase)
    ensures Inv(Expire(w, i)) && Grows(w, Expire(w, i))
  {
    assert OpOk(w, i);
    if w.operations[i].phase.AwaitingDataPlane? { ExpireDataPlaneKeeps(w, i); } else { ExpireReplyKeeps(w, i); }
  }

  // ---------------------------------------------------------------- the remaining steps

  // One event that concerns neither adoption nor outcomes, and a move of operation i.
  lemma NotedBase(w: World, w': World, i: nat, e: Event)
    requires Base(w) && w'.Shape() && OnlyOp(w, w', i) && !e.Adopted? && !e.Reported?
    requires w' == w.(operations := w'.operations, history := w.history + [e])
    requires w'.operations[i].connectionId == w.operations[i].connectionId
    requires Started(w'.operations[i].phase) == Started(w.operations[i].phase)
    requires Ended(w'.operations[i].phase) == Ended(w.operations[i].phase)
    ensures Base(w') && Grows(w, w')
  {
    FuturesUntouched(w, w');
    AdoptionUntouched(w, w');
    ReportsUntouched(w, w');
    InFlightUntouched(w, w');
  }

  lemma CommitAcceptedKeeps(w: World, i: nat)
    requires Inv(w) && i < |w.operations| && w.operations[i].phase.SendingCommit? && OpOk(w, i) && LiveOk(w, i)
    ensures Inv(AnswerCommit(w, i, CommitTaken)) && Grows(w, AnswerCommit(w, i, CommitTaken))
  {
    hide FuturesOk, AdoptionOk, ReportsOk, InFlightOk, HeardOk, FutureMine, Story;
    var op, w' := w.operations[i], AnswerCommit(w, i, CommitTaken);
    NotedBase(w, w', i, CommitAccepted(i));
    HeardStays(w, w', op);
    SameHeard(w', op, w'.operations[i]);
    CommitAcceptedStory(w, w', i);
    OthersUntouched(w, w', i);
  }

  lemma CommitAcceptedStory(w: World, w': World, i: nat)
    requires i < |w.operations| && w.operations[i].phase.SendingCommit? && OpOk(w, i)
    requires i < |w'.operations| && w'.origins == w.origins && w'.history == w.history + [CommitAccepted(i)]
    requires w'.operations[i] == w.operations[i].(phase := AwaitingCommit(w.operations[i].phase.future),
                                                  commitAccepted := |w.history|)
    ensures Story(w', i, w'.operations[i]) && FutureMine(w', i, w'.operations[i])
  {
  }

  lemma CommitNotSentKeeps(w: World, v: World, i: nat)
    requires Base(w) && OpsOkExcept(w, i) && i < |w.operations| && OpOk(w, i)
    requires w.operations[i].phase.SendingCommit?
    requires v == w.(store := w.store.CancelPending(w.operations[i].commitId)) && v.Shape()
    ensures Inv(Fail(v, i, CommitNotSent)) && Grows(w, Fail(v, i, CommitNotSent))
  {
    hide FuturesOk, AdoptionOk, ReportsOk, InFlightOk, HeardOk, LiveOk, FutureMine;
    CancelReplyKeeps(w, v, i, w.operations[i].commitId);
    HeardStays(w, v, w.operations[i]);
    FailKeeps(v, i, CommitNotSent);
    GrowsTransitive(w, v, Fail(v, i, CommitNotSent));
  }

  lemma AnswerCommitKeeps(w: World, i: nat, reply: CommitReply)
    requires Inv(w) && i < |w.operations| && w.operations[i].phase.SendingCommit?
    ensures Inv(AnswerCommit(w, i, reply)) && Grows(w, AnswerCommit(w, i, reply))
  {
    hide FuturesOk, AdoptionOk, ReportsOk, InFlightOk, LiveOk, HeardOk, FutureMine;
    assert OpOk(w, i) && LiveOk(w, i);
    match reply
    case CommitTaken => CommitAcceptedKeeps(w, i);
    case CommitFailed => CommitNotSentKeeps(w, w.(store := w.store.CancelPending(w.operations[i].commitId)), i);
    case CommitBroken => FailKeeps(w, i, InternalError);
  }

  lemma AnswerNotificationsKeeps(w: World, i: nat, events: seq<ErrorNotice>)
    requires Inv(w) && i < |w.operations| && w.operations[i].phase.QueryingNotifications?
    ensures Inv(AnswerNotifications(w, i, events)) && Grows(w, AnswerNotifications(w, i, events))
  {
    assert OpOk(w, i);
    var found := LastErrorOf(events);
    FailKeeps(w, i, if found.Some? then found.value else DataPlaneSilent(Target(w.operations[i].kind)));
  }

  lemma InFlightFinished(w: World, w': World, i: nat)
    requires InFlightOk(w) && OnlyOp(w, w', i) && w.operations[i].phase.Delivering?
    requires w'.operations[i] == w.operations[i].(phase := Finished) && w'.accepted == w.accepted
    requires w'.store.reservesInFlight
          == if w.operations[i].kind == Reserve then w.store.reservesInFlight - {w.operations[i].connectionId}
             else w.store.reservesInFlight
    ensures InFlightOk(w')
  {
    forall c | c in w'.accepted ensures ReserverOk(w', c) { assert ReserverOk(w, c); }
    forall c ensures c in w'.store.reservesInFlight
      <==> c in w'.accepted && !Ended(w'.operations[w'.accepted[c]].phase)
    {
      if c in w.accepted { assert ReserverOk(w, c); }
    }
  }

  lemma FinishKeeps(w: World, i: nat)
    requires Inv(w) && i < |w.operations| && w.operations[i].phase.Delivering?
    ensures Inv(Finish(w, i)) && Grows(w, Finish(w, i))
  {
    hide FuturesOk, AdoptionOk, ReportsOk, InFlightOk, OpOk;
    var op, w' := w.operations[i], Finish(w, i);
    assert OpOk(w, i);
    FuturesUntouched(w, w');
    AdoptionUntouched(w, w');
    ReportsUntouched(w, w');
    InFlightFinished(w, w', i);
    FinishedOp(w, w', i);
    OthersUntouched(w, w', i);
  }

  lemma FinishedOp(w: World, w': World, i: nat)
    requires i < |w.operations| && w.operations[i].phase.Delivering? && OpOk(w, i)
    requires i < |w'.operations| && w'.operations[i] == w.operations[i].(phase := Finished)
    requires w'.history == w.history && w'.origins == w.origins
    ensures OpOk(w', i)
  {
    var op, op' := w.operations[i], w'.operations[i];
    HeardStays(w, w', op);
    SameHeard(w', op, op');
    EarnedStays(w, w', i, op, op');
  }

  // ---------------------------------------------------------------- one step, any step

  lemma NextKeeps(settings: Settings, w: World, a: Action)
    requires Inv(w) && Enabled(w, a)
    ensures Inv(Next(settings, w, a)) && Grows(w, Next(settings, w, a))
  {
    hide FuturesOk, AdoptionOk, ReportsOk, InFlightOk, OpsOkExcept;
    match a
    case Deliver(correlationId, m) => DeliverKeeps(w, correlationId, m);
    case Look(answer) => LookKeeps(settings, w, answer);
    case AskReserve(correlationId, gid, description, serviceType, p2ps, requesterNsa, url) =>
      BeginKeeps(w, Reserve, "", correlationId,
        Reservation("", RESERVING, gid, description, Some(Criteria(1, serviceType, p2ps)), requesterNsa, url,
                    None, None));
    case Reuse(connectionId, url) => AdoptKeeps(w, connectionId, url);
    case AskFor(kind, answer, url, correlationId) => AskKeeps(settings, w, kind, answer, url, correlationId);
    case Answered(i, reply) =>
      if reply.Unparsable? { UnparsableKeeps(w, i); }
      else if reply.Accepted? { AcceptedKeeps(w, i, reply.connectionId); }
      else { WithdrawKeeps(w, i); }
    case Woken(i, fault, commitId, timeLeft) => WakeKeeps(settings, w, i, fault, commitId, timeLeft);
    case Expired(i) => ExpireKeeps(w, i);
    case CommitAnswered(i, reply) => AnswerCommitKeeps(w, i, reply);
    case NotificationsAnswered(i, events) => AnswerNotificationsKeeps(w, i, events);
    case CallbackDone(i) => FinishKeeps(w, i);
  }

  lemma InitInv()
    ensures Inv(INIT)
  {
  }

  // Every run keeps the invariant, from the empty proxy or from any world that has it.
  lemma {:induction false} RunsKeep(settings: Settings, w: World, actions: seq<Action>)
    requires Inv(w) && Runs(settings, w, actions)
    ensures Inv(Exec(settings, w, actions)) && Grows(w, Exec(settings, w, actions))
    decreases |actions|
  {
    if actions != [] {
      var next := Next(settings, w, actions[0]);
      NextKeeps(settings, w, actions[0]);
      RunsKeep(settings, next, actions[1..]);
      GrowsTransitive(w, next, Exec(settings, w, actions));
    }
  }
}
