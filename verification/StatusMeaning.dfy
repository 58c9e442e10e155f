/** What each status of the proxy means in the aggregator's own state names, whatever the order in which
    the mapping tries them; and what a refresh stores. */
module StatusMeaning {
  import opened Messages
  import opened StateMapping
  import opened HistoryProofs
  import opened StoreModel
  import opened Refresh
  import opened ExceptionTrees

  predicate LifeOver(s: ConnectionStates) {
    s.lifecycleState in {"Terminated", "PassedEndTime"}
  }

  predicate Failing(s: ConnectionStates, hasErrorEvent: bool) {
    || s.lifecycleState == "Failed"
    || s.reservationState in {"ReserveTimeout", "ReserveFailed", "ReserveAborting"}
    || hasErrorEvent
  }

  predicate BeingReserved(s: ConnectionStates) {
    s.reservationState in {"ReserveChecking", "ReserveHeld", "ReserveCommitting"}
  }

  // Neither over, nor failing, nor still being reserved.
  predicate Settled(s: ConnectionStates, hasErrorEvent: bool) {
    !LifeOver(s) && !Failing(s, hasErrorEvent) && !BeingReserved(s)
  }

  lemma NamesDiffer()
    ensures "Released" != "Provisioned" && "Terminated" != "Failed" && "PassedEndTime" != "Failed"
  {
    assert |"Released"| != |"Provisioned"| && |"Terminated"| != |"Failed"| && |"PassedEndTime"| != |"Failed"|;
  }

  // Each status, by the names of the aggregator's states alone.
  lemma StatusMeans(s: ConnectionStates, hasErrorEvent: bool)
    ensures MapNsiStates(s, hasErrorEvent) == TERMINATED <==> LifeOver(s)
    ensures MapNsiStates(s, hasErrorEvent) == FAILED <==> !LifeOver(s) && Failing(s, hasErrorEvent)
    ensures MapNsiStates(s, hasErrorEvent) == RESERVING
       <==> !LifeOver(s) && !Failing(s, hasErrorEvent) && BeingReserved(s)
    ensures MapNsiStates(s, hasErrorEvent) == DEACTIVATING
       <==> Settled(s, hasErrorEvent) && s.dataPlaneActive && s.provisionState == "Released"
    ensures MapNsiStates(s, hasErrorEvent) == ACTIVATED
       <==> Settled(s, hasErrorEvent) && s.dataPlaneActive && s.provisionState != "Released"
    ensures MapNsiStates(s, hasErrorEvent) == ACTIVATING
       <==> Settled(s, hasErrorEvent) && !s.dataPlaneActive && s.provisionState == "Provisioned"
    ensures MapNsiStates(s, hasErrorEvent) == RESERVED
       <==> Settled(s, hasErrorEvent) && !s.dataPlaneActive && s.provisionState != "Provisioned"
  {
    NamesDiffer();
  }

  // ---------------------------------------------------------------- the order on results

  // a comes before b in a dictionary: it is a proper prefix, or has the smaller character where they
  // first differ.
  ghost predicate InDictionaryBefore(a: string, b: string) {
    exists k: nat :: DiffersAt(a, b, k)
  }

  ghost predicate DiffersAt(a: string, b: string, k: nat) {
    && k <= |a| && k < |b| && a[..k] == b[..k]
    && (k == |a| || a[k] < b[k])
  }

  lemma {:induction false} StringLessIsDictionary(a: string, b: string)
    ensures StringLess(a, b) <==> InDictionaryBefore(a, b)
    decreases |a|
  {
    forall k: nat | k > 0 && DiffersAt(a, b, k) ensures |a| > 0 && a[0] == b[0] {
      assert a[..k][0] == b[..k][0];
    }
    if |b| > 0 && |a| > 0 && a[0] == b[0] {
      StringLessIsDictionary(a[1..], b[1..]);
      if k: nat :| DiffersAt(a[1..], b[1..], k) {
        assert a[..k + 1] == [a[0]] + a[1..][..k] && b[..k + 1] == [b[0]] + b[1..][..k];
        assert DiffersAt(a, b, k + 1);
      }
      if k: nat :| DiffersAt(a, b, k) {
        assert k > 0;
        assert a[1..][..k - 1] == a[..k][1..] && b[1..][..k - 1] == b[..k][1..];
        assert DiffersAt(a[1..], b[1..], k - 1);
      }
    } else if StringLess(a, b) {
      assert DiffersAt(a, b, 0);
    }
  }

  // The time of an operation is that of its result with the greatest id and, among equal ids, the last
  // timestamp in dictionary order.
  lemma LatestByIdThenTimestamp(parse: Parser, results: seq<OperationResult>, operation: string, r: OperationResult)
    requires r in results && r.operation == operation
    requires forall x :: x in results && x.operation == operation ==>
               || x.resultId < r.resultId
               || (x.resultId == r.resultId && !InDictionaryBefore(r.timestamp, x.timestamp))
    ensures LatestOperationTime(parse, results, operation) == parse(r.timestamp)
  {
    forall x | x in results && x.operation == operation ensures !KeyLess(r, x) {
      StringLessIsDictionary(r.timestamp, x.timestamp);
    }
    LatestOperationTimeMeaning(parse, results, operation, r);
  }

  // ---------------------------------------------------------------- what a refresh stores

  function StoredStatus(settings: Settings, s: StoreState, a: Answer): ReservationStatus {
    Apply(settings, s, a).reservations[a.qr.connectionId].status
  }

  // The data plane was up at or after t, by a readable report.
  ghost predicate WasUpSince(parse: Parser, changes: seq<DataPlaneChange>, t: int) {
    exists c :: c in changes && c.active && parse(c.timestamp).Some? && parse(c.timestamp).value >= t
  }

  // Now is later than t and than the schedule's start, if readable, by more than the timeout.
  predicate Overdue(settings: Settings, now: int, t: int, startTime: Option<string>) {
    && now > t + settings.dataplaneTimeout
    && (startTime.Some? && settings.parse(startTime.value).Some? ==>
          now > settings.parse(startTime.value).value + settings.dataplaneTimeout)
  }

  // What a full resolution stores, from the answers alone: the mapped status, except that a provision
  // confirmed at t has failed iff the data plane was up since or is overdue, and a release confirmed at t
  // iff its timeout has passed. Without a readable confirmation, a transient status stays.
  lemma ResolutionStores(settings: Settings, s: StoreState, qr: QueryReservation, n: Notifications,
                         results: seq<OperationResult>, now: int, t: int)
    ensures var mapped := MapNsiStates(qr.connectionStates, n.errorEvents != []);
      var stored := StoredStatus(settings, s, Resolved(qr, n, results, now));
      && (mapped == ACTIVATING && LatestOperationTime(settings.parse, results, "provisionConfirmed") == Some(t) ==>
            && stored in {ACTIVATING, FAILED}
            && (stored == FAILED <==>
                  WasUpSince(settings.parse, n.dataPlaneChanges, t) || Overdue(settings, now, t, qr.startTime)))
      && (mapped == ACTIVATING && LatestOperationTime(settings.parse, results, "provisionConfirmed").None? ==>
            stored == ACTIVATING)
      && (mapped == DEACTIVATING && LatestOperationTime(settings.parse, results, "releaseConfirmed") == Some(t) ==>
            && stored in {DEACTIVATING, FAILED}
            && (stored == FAILED <==> now > t + settings.dataplaneTimeout))
      && (mapped == DEACTIVATING && LatestOperationTime(settings.parse, results, "releaseConfirmed").None? ==>
            stored == DEACTIVATING)
      && (mapped !in {ACTIVATING, DEACTIVATING} ==> stored == mapped)
  {
    ActiveSinceMeaning(settings.parse, n.dataPlaneChanges, t);
  }

  // The shortcut stores the mapped status.
  lemma ShortcutStores(settings: Settings, s: StoreState, qr: QueryReservation)
    ensures StoredStatus(settings, s, Shortcut(qr)) == MapNsiStates(qr.connectionStates, false)
  {
  }

  // ---------------------------------------------------------------- the whole record after a refresh

  // With no capacity or end point missing, the criteria are the aggregator's, under version 1 if it names
  // none or zero; otherwise they are left as they were.
  lemma RefreshStoresCriteria(settings: Settings, s: StoreState, a: Answer)
    ensures var after := Apply(settings, s, a).reservations[a.qr.connectionId].criteria;
      var before := if a.qr.connectionId in s.reservations then s.reservations[a.qr.connectionId].criteria else None;
      if a.qr.capacity.None? || a.qr.sourceStp.None? || a.qr.destStp.None? then after == before
      else && after.Some? && after.value.serviceType == a.qr.serviceType
           && after.value.p2ps.capacity == a.qr.capacity.value
           && after.value.p2ps.sourceStp == a.qr.sourceStp.value && after.value.p2ps.destStp == a.qr.destStp.value
           && (a.qr.criteriaVersion in {None, Some(0)} ==> after.value.version == 1)
           && (a.qr.criteriaVersion !in {None, Some(0)} ==> Some(after.value.version) == a.qr.criteriaVersion)
  {
  }

  // A reservation the store did not know takes its identity from the aggregator, and no callbackURL.
  lemma RefreshCreates(settings: Settings, s: StoreState, a: Answer)
    requires a.qr.connectionId !in s.reservations
    ensures var r := Apply(settings, s, a).reservations[a.qr.connectionId];
      && r.connectionId == a.qr.connectionId && r.globalReservationId == a.qr.globalReservationId
      && r.description == a.qr.description && r.requesterNsa == a.qr.requesterNsa && r.callbackUrl == ""
  {
  }

  // Event k has the greatest notification id, and is the first with it.
  predicate IsNewest(events: seq<ErrorNotice>, k: nat) {
    && k < |events|
    && (forall j :: 0 <= j < k ==> events[j].notificationId < events[k].notificationId)
    && (forall j :: k < j < |events| ==> events[j].notificationId <= events[k].notificationId)
  }

  lemma {:induction false} NewestIsFirstOfGreatest(events: seq<ErrorNotice>, k: nat)
    requires IsNewest(events, k)
    ensures NewestEvent(events) == events[k]
    decreases |events|
  {
    var n := |events| - 1;
    if k < n {
      NewestIsFirstOfGreatest(events[..n], k);
      assert events[n].notificationId <= events[k].notificationId;
    } else if n > 0 {
      NewestIsListed(events[..n]);
      var j :| 0 <= j < n && events[..n][j] == NewestEvent(events[..n]);
      assert events[j].notificationId < events[n].notificationId;
      assert NewestEvent(events) == events[n];
    }
  }

  lemma {:induction false} NewestIsListed(events: seq<ErrorNotice>)
    requires events != []
    ensures exists j :: 0 <= j < |events| && events[j] == NewestEvent(events)
    decreases |events|
  {
    var n := |events| - 1;
    if n > 0 {
      NewestIsListed(events[..n]);
      var j :| 0 <= j < n && events[..n][j] == NewestEvent(events[..n]);
      assert events[j] == NewestEvent(events[..n]);
    } else {
      assert events[0] == NewestEvent(events);
    }
  }

  // The error an event stands for: the leaves of its exception, or else the NSA it comes from.
  predicate Describes(reason: Reason, event: ErrorNotice) {
    match event.cause
    case Some(exc) => reason == ErrorFrom(event.event, RootCauses(exc))
    case None => reason == ErrorAt(event.event, event.originatingNsa)
  }

  // The error a full resolution leaves: the newest error event's, if there is one. Otherwise that of a
  // derived failure; one that the aggregator's states report keeps the error that was there; and any
  // status but FAILED clears it.
  lemma ResolutionStoresError(settings: Settings, s: StoreState, qr: QueryReservation, n: Notifications,
                              results: seq<OperationResult>, now: int, t: int, k: nat)
    ensures var a := Resolved(qr, n, results, now);
      var mapped, stored := MapNsiStates(qr.connectionStates, n.errorEvents != []), StoredStatus(settings, s, a);
      var error := Apply(settings, s, a).reservations[qr.connectionId].lastError;
      var before := if qr.connectionId in s.reservations then s.reservations[qr.connectionId].lastError else None;
      && (IsNewest(n.errorEvents, k) ==> error.Some? && Describes(error.value, n.errorEvents[k]))
      && (n.errorEvents == [] ==>
            && (stored != FAILED ==> error == None)
            && (mapped == FAILED ==> error == before)
            && (mapped == ACTIVATING && stored == FAILED ==>
                  LatestOperationTime(settings.parse, results, "provisionConfirmed") == Some(t) ==>
                    error == Some(if WasUpSince(settings.parse, n.dataPlaneChanges, t) then DataPlaneDropped
                                  else NotActiveInTime(t)))
            && (mapped == DEACTIVATING && stored == FAILED ==>
                  LatestOperationTime(settings.parse, results, "releaseConfirmed") == Some(t) ==>
                    error == Some(StillActive(t))))
  {
    ActiveSinceMeaning(settings.parse, n.dataPlaneChanges, t);
    if IsNewest(n.errorEvents, k) { NewestIsFirstOfGreatest(n.errorEvents, k); }
  }

  // The shortcut keeps an error only on what the aggregator's states report as FAILED.
  lemma ShortcutStoresError(settings: Settings, s: StoreState, qr: QueryReservation)
    ensures var error := Apply(settings, s, Shortcut(qr)).reservations[qr.connectionId].lastError;
      var before := if qr.connectionId in s.reservations then s.reservations[qr.connectionId].lastError else None;
      error == if MapNsiStates(qr.connectionStates, false) == FAILED then before else None
  {
  }
}
