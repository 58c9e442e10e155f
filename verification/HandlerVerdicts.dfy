/** What the three handlers do with a request, by the status the refresh stores and the aggregator's
    lifecycle state: send it, accept it as a retry, or answer 409. */
module HandlerVerdicts {
  import opened Messages
  import opened StateMapping
  import opened StoreModel
  import opened Refresh
  import opened StatusMeaning
  import opened Protocol

  // Operation op is a new request about connection c: its future is the next one, filed under its id.
  ghost predicate IsSent(w: World, w': World, op: Operation, kind: Kind, c: string, correlationId: string) {
    && w'.operations == w.operations + [op]
    && op.kind == kind && op.connectionId == c && op.correlationId == correlationId
    && op.phase == Sending(|w.store.futures|) && op.heard == [] && op.outcome == None
    && c in w'.store.reservations && op.draft == w'.store.reservations[c]
    && w'.store.futures == w.store.futures + [Pending]
    && w'.store.pending == w.store.pending[correlationId := |w.store.futures|]
    && w'.origins == w.origins + [Origin(ByCorrelation(correlationId), |w.operations|, |w'.history|)]
    && correlationId in w'.issued
  }

  ghost predicate Sends(w: World, w': World, kind: Kind, c: string, correlationId: string) {
    exists op :: IsSent(w, w', op, kind, c, correlationId)
  }

  ghost predicate SendsNothing(w: World, w': World) {
    && w'.operations == w.operations && w'.origins == w.origins && w'.issued == w.issued
    && w'.store.futures == w.store.futures && w'.store.pending == w.store.pending
  }

  // The refreshed reservations with, or without, a new callbackURL for c.
  ghost predicate Adopts(w: World, w': World, refreshed: map<string, Reservation>, c: string, url: string,
                         adopted: bool)
    requires c in refreshed
  {
    if adopted then
      && w'.store.reservations == refreshed[c := refreshed[c].(callbackUrl := url)]
      && w'.history == w.history + [Adopted(c, url)]
    else w'.store.reservations == refreshed && w'.history == w.history
  }

  // A provision is sent on RESERVED, a release on ACTIVATED. A terminate is sent on RESERVED and FAILED
  // and, while no reserve of this proxy is in flight, on RESERVING or when the lifecycle is Terminating.
  predicate ToBeSent(kind: Kind, status: ReservationStatus, lifecycle: string, inFlight: bool) {
    || (kind == Provision && status == RESERVED)
    || (kind == Release && status == ACTIVATED)
    || (kind == Terminate && status in {RESERVED, FAILED})
    || (kind == Terminate && !inFlight && (status == RESERVING || lifecycle == "Terminating"))
  }

  // A retry whose goal is reached: the result is delivered again.
  predicate IsReached(kind: Kind, status: ReservationStatus) {
    || (kind == Provision && status == ACTIVATED)
    || (kind == Release && status == RESERVED)
    || (kind == Terminate && status == TERMINATED)
  }

  // A retry whose first request is still under way: its task will deliver.
  predicate IsUnderWay(kind: Kind, status: ReservationStatus) {
    || (kind == Provision && status == ACTIVATING)
    || (kind == Release && status == DEACTIVATING)
  }

  predicate IsRejected(kind: Kind, status: ReservationStatus, lifecycle: string, inFlight: bool) {
    || (kind == Provision && status in {RESERVING, DEACTIVATING, FAILED, TERMINATED})
    || (kind == Release && status in {RESERVING, ACTIVATING, FAILED, TERMINATED})
    || (kind == Terminate && inFlight && status !in {RESERVED, FAILED, TERMINATED})
    || (kind == Terminate && lifecycle != "Terminating" && status in {ACTIVATING, ACTIVATED, DEACTIVATING})
  }

  // While the aggregator terminates a connection, its life is not over.
  lemma TerminatingIsNotOver(settings: Settings, s: StoreState, a: Answer)
    requires a.qr.connectionStates.lifecycleState == "Terminating"
    ensures StoredStatus(settings, s, a) != TERMINATED
  {
    assert |"Terminating"| != |"Terminated"| && |"Terminating"| != |"PassedEndTime"|;
  }

  // The answer of each handler, for every status.
  lemma VerdictMeans(settings: Settings, w: World, kind: Kind, answer: Answer)
    requires kind != Reserve
    ensures var verdict, status := VerdictOn(settings, w, kind, answer), StoredStatus(settings, w.store, answer);
      var lifecycle := answer.qr.connectionStates.lifecycleState;
      var inFlight := answer.qr.connectionId in w.store.reservesInFlight;
      && (verdict == Proceed <==> ToBeSent(kind, status, lifecycle, inFlight))
      && (verdict == Conflict <==> IsRejected(kind, status, lifecycle, inFlight))
      && (verdict == Redeliver <==> IsReached(kind, status))
      && (verdict == AlreadyRunning <==> IsUnderWay(kind, status))
  {
    hide Apply;
    if answer.qr.connectionStates.lifecycleState == "Terminating" {
      TerminatingIsNotOver(settings, w.store, answer);
    }
  }

  lemma RefreshWritesReservations(settings: Settings, s: StoreState, a: Answer)
    ensures Apply(settings, s, a) == s.(reservations := Apply(settings, s, a).reservations)
  {
    hide Refreshed;
  }

  lemma ReceivingAdopts(settings: Settings, w: World, kind: Kind, answer: Answer, url: string)
    requires w.Shape() && kind != Reserve
    ensures var v := Received(settings, w, kind, answer, url);
      && SendsNothing(w, v)
      && Adopts(w, v, Apply(settings, w.store, answer).reservations, answer.qr.connectionId, url,
                kind != Terminate || VerdictOn(settings, w, kind, answer) != Conflict)
  {
    hide Apply, VerdictOn, World.Shape;
    RefreshWritesReservations(settings, w.store, answer);
  }

  lemma BeginningSends(w: World, v: World, kind: Kind, c: string, correlationId: string)
    requires v.Shape() && SendsNothing(w, v) && c in v.store.reservations
    ensures var w' := Begin(v, kind, c, correlationId, v.store.reservations[c]);
      && Sends(w, w', kind, c, correlationId)
      && w'.store.reservations == v.store.reservations && w'.history == v.history
  {
    hide World.Shape;
    var w' := Begin(v, kind, c, correlationId, v.store.reservations[c]);
    assert IsSent(w, w', w'.operations[|w.operations|], kind, c, correlationId);
  }

  // A request is sent exactly on these statuses, about the connection as refreshed; on all others nothing
  // is sent. The callbackURL is adopted in either case, but for a terminate that is answered 409.
  lemma RequestIsSentIff(settings: Settings, w: World, kind: Kind, answer: Answer, url: string, correlationId: string)
    requires w.Shape() && kind != Reserve
    ensures var c, w' := answer.qr.connectionId, Ask(settings, w, kind, answer, url, correlationId);
      var status := StoredStatus(settings, w.store, answer);
      var lifecycle, inFlight := answer.qr.connectionStates.lifecycleState, c in w.store.reservesInFlight;
      && (ToBeSent(kind, status, lifecycle, inFlight) ==> Sends(w, w', kind, c, correlationId))
      && (!ToBeSent(kind, status, lifecycle, inFlight) ==> SendsNothing(w, w'))
      && Adopts(w, w', Apply(settings, w.store, answer).reservations, c, url,
                kind != Terminate || !IsRejected(kind, status, lifecycle, inFlight))
  {
    hide Apply, VerdictOn, ToBeSent, IsRejected, Received, Begin, Sends, SendsNothing, World.Shape;
    VerdictMeans(settings, w, kind, answer);
    ReceivingAdopts(settings, w, kind, answer, url);
    if VerdictOn(settings, w, kind, answer) == Proceed {
      BeginningSends(w, Received(settings, w, kind, answer, url), kind, answer.qr.connectionId, correlationId);
    }
  }

  lemma SentMeansProceed(settings: Settings, w: World, kind: Kind, answer: Answer, url: string, correlationId: string)
    requires w.Shape() && kind != Reserve
    requires Sends(w, Ask(settings, w, kind, answer, url, correlationId), kind, answer.qr.connectionId, correlationId)
    ensures VerdictOn(settings, w, kind, answer) == Proceed
  {
    hide Apply, VerdictOn, ToBeSent, IsRejected, World.Shape, Ask;
    VerdictMeans(settings, w, kind, answer);
    RequestIsSentIff(settings, w, kind, answer, url, correlationId);
  }

  // A read stores what the refresh finds, and remembers when the connection was first listed; a reserve
  // that finds a reservation to reuse only gives it the new callbackURL. Nothing else changes.
  lemma ReadsAndReuses(settings: Settings, w: World, answer: Answer, c: string, url: string)
    requires w.Shape() && answer.Possible()
    ensures Next(settings, w, Look(answer))
         == w.(store := w.store.(reservations := Apply(settings, w.store, answer).reservations),
               listed := if answer.qr.connectionId in w.listed then w.listed
                         else w.listed[answer.qr.connectionId := |w.operations|])
    ensures var rs := w.store.reservations;
      c in rs ==>
        Next(settings, w, Reuse(c, url)) == w.(store := w.store.(reservations := rs[c := rs[c].(callbackUrl := url)]),
                                               history := w.history + [Adopted(c, url)])
  {
    hide Apply, World.Shape;
    RefreshWritesReservations(settings, w.store, answer);
  }
}
