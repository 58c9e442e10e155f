/** Deriving a reservation from an aggregator's answers and writing it to the store: _resolve_and_store,
    _update_store_from_query and _refresh_all_reservations. */
module Refresh {
  import opened Messages
  import opened StateMapping
  import opened StoreModel
  import opened ExceptionTrees

  datatype Settings = Settings(parse: Parser, dataplaneTimeout: int)

  // One connection as a refresh sees it: fully resolved, or by the shortcut of refresh-all, which
  // asks nothing more about a connection whose states are already terminal.
  datatype Answer =
    | Resolved(qr: QueryReservation, notifications: Notifications, results: seq<OperationResult>, now: int)
    | Shortcut(qr: QueryReservation)
  {
    predicate Possible() {
      Shortcut? ==> IsTerminal(MapNsiStates(qr.connectionStates, false))
    }

    function Events(): seq<ErrorNotice> {
      if Resolved? then notifications.errorEvents else []
    }

    function Derived(settings: Settings): DerivedStatus {
      match this
      case Shortcut(qr) => DerivedStatus(MapNsiStates(qr.connectionStates, false), None)
      case Resolved(qr, notifications, results, now) =>
        var base := MapNsiStates(qr.connectionStates, notifications.errorEvents != []);
        // queryResultSync is only sent for the two transient states.
        var known := if base == ACTIVATING || base == DEACTIVATING then results else [];
        DeriveStatus(settings.parse, base, known, notifications.dataPlaneChanges, qr.startTime,
                     now, settings.dataplaneTimeout)
    }
  }

  function ResolveLastError(derived: DerivedStatus, reported: Option<Reason>, existing: Option<Reason>)
    : Option<Reason>
  {
    if reported.Some? then reported
    else if derived.status == FAILED then (if derived.reason.Some? then derived.reason else existing)
    else None
  }

  function EventIds(events: seq<ErrorNotice>): set<int> {
    set e <- events :: e.notificationId
  }

  function RecordSeen(seen: Option<set<int>>, events: seq<ErrorNotice>): Option<set<int>> {
    if events == [] then seen
    else if seen.None? then Some(EventIds(events))
    else Some(seen.value + EventIds(events))
  }

  function QueriedCriteria(qr: QueryReservation): Option<Criteria> {
    if qr.capacity.Some? && qr.sourceStp.Some? && qr.destStp.Some? then
      var version := if qr.criteriaVersion.Some? && qr.criteriaVersion.value != 0 then qr.criteriaVersion.value else 1;
      Some(Criteria(version, qr.serviceType, P2ps(qr.capacity.value, qr.sourceStp.value, qr.destStp.value)))
    else None
  }

  // The reservation after a refresh, from what the store held (if anything).
  function Refreshed(existing: Option<Reservation>, qr: QueryReservation, derived: DerivedStatus,
                     events: seq<ErrorNotice>): Reservation
  {
    var lastError := ResolveLastError(derived, LastErrorOf(events),
                                      if existing.Some? then existing.value.lastError else None);
    var criteria := QueriedCriteria(qr);
    match existing
    case Some(r) =>
      r.(status := derived.status, lastError := lastError,
         criteria := if criteria.Some? then criteria else r.criteria,
         seenErrorIds := RecordSeen(r.seenErrorIds, events))
    case None =>
      Reservation(qr.connectionId, derived.status, qr.globalReservationId, qr.description, criteria,
                  qr.requesterNsa, "", lastError, RecordSeen(None, events))
  }

  function Stored(s: StoreState, connectionId: string): Option<Reservation> {
    if connectionId in s.reservations then Some(s.reservations[connectionId]) else None
  }

  function UpdateFromQuery(s: StoreState, qr: QueryReservation, derived: DerivedStatus,
                           events: seq<ErrorNotice>): (s': StoreState)
    ensures s.Valid() ==> s'.Valid()
  {
    s.(reservations := s.reservations[qr.connectionId :=
      Refreshed(Stored(s, qr.connectionId), qr, derived, events)])
  }

  function Apply(settings: Settings, s: StoreState, a: Answer): (s': StoreState)
    ensures s.Valid() ==> s'.Valid()
  {
    UpdateFromQuery(s, a.qr, a.Derived(settings), a.Events())
  }

  // The gathered resolutions, in whichever order they complete.
  function ApplyAll(settings: Settings, s: StoreState, answers: seq<Answer>): StoreState
    decreases |answers|
  {
    if answers == [] then s
    else ApplyAll(settings, Apply(settings, s, answers[0]), answers[1..])
  }
}
