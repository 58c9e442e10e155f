/** reservation_store.py and the endpoint code that writes through it: one mutable store shared by the
    request handlers, the callback endpoint and the background tasks. Each method is proved against
    the value model in StoreModel and Refresh. */
module Store {
  import opened Messages
  import opened StateMapping
  import opened StoreModel
  import opened ExceptionTrees
  import R = Refresh

  // Handlers and tasks keep references to these objects and write their fields in place.
  class StoredReservation {
    const connectionId: string
    var status: ReservationStatus
    var globalReservationId: Option<string>
    var description: string
    var criteria: Option<Criteria>
    var requesterNsa: string
    var callbackUrl: string
    var lastError: Option<Reason>
    var seenErrorIds: Option<set<int>>

    constructor (r: Reservation)
      ensures View() == r
    {
      connectionId := r.connectionId;
      status := r.status;
      globalReservationId := r.globalReservationId;
      description := r.description;
      criteria := r.criteria;
      requesterNsa := r.requesterNsa;
      callbackUrl := r.callbackUrl;
      lastError := r.lastError;
      seenErrorIds := r.seenErrorIds;
    }

    function View(): Reservation
      reads this
    {
      Reservation(connectionId, status, globalReservationId, description, criteria, requesterNsa,
                  callbackUrl, lastError, seenErrorIds)
    }

    // Returns the events not announced before; every id reported so far is remembered.
    method RecordSeenErrorEvents(events: seq<ErrorNotice>) returns (announced: set<int>)
      modifies this`seenErrorIds
      ensures View() == old(View()).(seenErrorIds := R.RecordSeen(old(seenErrorIds), events))
      ensures forall id :: id in announced <==>
                && (exists k :: 0 <= k < |events| && events[k].notificationId == id)
                && !(old(seenErrorIds).Some? && id in old(seenErrorIds).value)
      ensures events == [] ==> seenErrorIds == old(seenErrorIds)
      ensures events != [] ==> seenErrorIds.Some? && forall id :: id in seenErrorIds.value <==>
                || (exists k :: 0 <= k < |events| && events[k].notificationId == id)
                || (old(seenErrorIds).Some? && id in old(seenErrorIds).value)
      ensures announced == R.EventIds(events) - (if old(seenErrorIds).Some? then old(seenErrorIds).value else {})
    {
      announced := {};
      if events == [] {
        assert R.EventIds(events) == {};
        return;
      }
      var known := if seenErrorIds.Some? then seenErrorIds.value else {};
      var i := 0;
      while i < |events|
        invariant 0 <= i <= |events|
        invariant announced == R.EventIds(events[..i]) - known
        invariant seenErrorIds == old(seenErrorIds)
      {
        assert events[..i + 1] == events[..i] + [events[i]];
        if events[i].notificationId !in known {
          announced := announced + {events[i].notificationId};
        }
        i := i + 1;
      }
      assert events[..i] == events;
      if seenErrorIds.None? {
        seenErrorIds := Some({});
      }
      seenErrorIds := Some(seenErrorIds.value + (set e <- events :: e.notificationId));
      assert {} + R.EventIds(events) == R.EventIds(events);
    }
  }

  class ReservationStore {
    var reservations: map<string, StoredReservation>
    var pending: map<string, nat>
    var pendingByConnection: map<string, nat>
    var reservesInFlight: set<string>
    // The futures created so far by this store, in order of creation.
    var futures: seq<FutureState>

    ghost predicate Valid()
      reads this
    {
      && (forall c <- reservations :: reservations[c].connectionId == c)
      && (forall c <- pending :: pending[c] < |futures|)
      && (forall c <- pendingByConnection :: pendingByConnection[c] < |futures|)
    }

    ghost function Table(): map<string, Reservation>
      reads this`reservations, reservations.Values
    {
      map c <- reservations :: reservations[c].View()
    }

    ghost function View(): (s: StoreState)
      requires Valid()
      reads this, reservations.Values
      ensures s.Valid()
    {
      StoreState(Table(), pending, pendingByConnection, reservesInFlight, futures)
    }

    // Writing the fields of one stored object changes one entry of the table.
    twostate lemma OneObjectWritten(connectionId: string)
      requires Valid() && reservations == old(reservations) && connectionId in reservations
      requires forall c <- reservations :: c != connectionId ==> unchanged(reservations[c])
      ensures Table() == old(Table())[connectionId := reservations[connectionId].View()]
    {
    }

    constructor ()
      ensures Valid() && View() == EMPTY_STORE
    {
      reservations := map[];
      pending := map[];
      pendingByConnection := map[];
      reservesInFlight := {};
      futures := [];
    }

    method Create(r: StoredReservation)
      requires Valid()
      modifies this`reservations
      ensures Valid() && View() == old(View()).Put(r.View())
      ensures r.connectionId in reservations && reservations[r.connectionId] == r
    {
      reservations := reservations[r.connectionId := r];
      assert Table() == old(View()).Put(r.View()).reservations;
    }

    // False is the source's KeyError.
    method UpdateStatus(connectionId: string, status: ReservationStatus) returns (ok: bool)
      requires Valid()
      modifies if connectionId in reservations then {reservations[connectionId]} else {}
      ensures Valid() && reservations == old(reservations)
      ensures ok == (connectionId in old(View()).reservations)
      ensures View() == if ok then old(View()).SetStatus(connectionId, status) else old(View())
      ensures ok ==> reservations[connectionId].View() == old(reservations[connectionId].View()).(status := status)
    {
      ok := connectionId in reservations;
      if ok {
        reservations[connectionId].status := status;
        OneObjectWritten(connectionId);
      }
    }

    method UpdateCriteria(connectionId: string, msg: NsiMessage) returns (ok: bool)
      requires Valid() && msg.ReserveConfirmed?
      modifies if connectionId in reservations then {reservations[connectionId]} else {}
      ensures Valid() && reservations == old(reservations)
      ensures ok == (connectionId in old(View()).reservations)
      ensures View() == if ok then old(View()).SetCriteria(connectionId, msg) else old(View())
      ensures ok ==> reservations[connectionId].View() == old(reservations[connectionId].View()).(criteria :=
                Some(Criteria(msg.criteriaVersion, Some(msg.serviceType),
                              P2ps(msg.capacity, msg.sourceStp, msg.destStp))))
    {
      ok := connectionId in reservations;
      if ok {
        reservations[connectionId].criteria := Some(
          Criteria(msg.criteriaVersion, Some(msg.serviceType), P2ps(msg.capacity, msg.sourceStp, msg.destStp)));
        OneObjectWritten(connectionId);
      }
    }

    // A handler adopting a new callbackURL writes through the reference it holds. If the store has
    // replaced that object since, the write is lost.
    method AdoptThrough(r: StoredReservation, url: string)
      requires Valid()
      modifies r`callbackUrl
      ensures Valid() && reservations == old(reservations)
      ensures View() == if r in old(reservations.Values) then old(View()).Adopt(r.connectionId, url) else old(View())
      ensures r.View() == old(r.View()).(callbackUrl := url)
    {
      r.callbackUrl := url;
      if r in reservations.Values {
        assert reservations[r.connectionId] == r;
        assert Table() == old(View()).Adopt(r.connectionId, url).reservations;
      } else {
        assert Table() == old(View()).reservations;
      }
    }

    method ReserveStarted(connectionId: string)
      requires Valid()
      modifies this`reservesInFlight
      ensures Valid() && View() == old(View()).ReserveStarted(connectionId)
      ensures reservesInFlight == old(reservesInFlight) + {connectionId}
    {
      reservesInFlight := reservesInFlight + {connectionId};
    }

    method ReserveFinished(connectionId: string)
      requires Valid()
      modifies this`reservesInFlight
      ensures Valid() && View() == old(View()).ReserveFinished(connectionId)
      ensures reservesInFlight == old(reservesInFlight) - {connectionId}
    {
      reservesInFlight := reservesInFlight - {connectionId};
    }

    method RegisterPending(correlationId: string) returns (future: nat)
      requires Valid()
      modifies this`pending, this`futures
      ensures Valid() && View() == old(View()).RegisterPending(correlationId)
      ensures pending == old(pending)[correlationId := future] && futures == old(futures) + [Pending]
      ensures future == |old(futures)|
    {
      future := |futures|;
      futures := futures + [Pending];
      pending := pending[correlationId := future];
    }

    method RegisterPendingByConnection(connectionId: string) returns (future: nat)
      requires Valid()
      modifies this`pendingByConnection, this`futures
      ensures Valid() && View() == old(View()).RegisterPendingByConnection(connectionId)
      ensures pendingByConnection == old(pendingByConnection)[connectionId := future]
      ensures futures == old(futures) + [Pending]
      ensures future == |old(futures)|
    {
      future := |futures|;
      futures := futures + [Pending];
      pendingByConnection := pendingByConnection[connectionId := future];
    }

    // True exactly when an undone future was waiting under the key.
    method ResolvePending(correlationId: string, message: NsiMessage) returns (resolved: bool)
      requires Valid()
      modifies this`pending, this`futures
      ensures Valid() && View() == old(View()).ResolvePending(correlationId, message)
      ensures resolved <==> (correlationId in old(pending)
                             && old(futures)[old(pending)[correlationId]] == Pending)
      ensures pending == old(pending) - {correlationId}
      ensures futures == if resolved then old(futures)[old(pending)[correlationId] := Done(message)] else old(futures)
    {
      if correlationId !in pending {
        return false;
      }
      var future := pending[correlationId];
      pending := pending - {correlationId};
      if futures[future] != Pending {
        return false;
      }
      futures := futures[future := Done(message)];
      resolved := true;
    }

    method ResolvePendingByConnection(connectionId: string, message: NsiMessage) returns (resolved: bool)
      requires Valid()
      modifies this`pendingByConnection, this`futures
      ensures Valid() && View() == old(View()).ResolvePendingByConnection(connectionId, message)
      ensures resolved <==> (connectionId in old(pendingByConnection)
                             && old(futures)[old(pendingByConnection)[connectionId]] == Pending)
      ensures pendingByConnection == old(pendingByConnection) - {connectionId}
      ensures futures
           == if resolved then old(futures)[old(pendingByConnection)[connectionId] := Done(message)] else old(futures)
    {
      if connectionId !in pendingByConnection {
        return false;
      }
      var future := pendingByConnection[connectionId];
      pendingByConnection := pendingByConnection - {connectionId};
      if futures[future] != Pending {
        return false;
      }
      futures := futures[future := Done(message)];
      resolved := true;
    }

    method CancelPending(correlationId: string)
      requires Valid()
      modifies this`pending, this`futures
      ensures Valid() && View() == old(View()).CancelPending(correlationId)
      ensures pending == old(pending) - {correlationId}
      ensures futures == if correlationId in old(pending) && old(futures)[old(pending)[correlationId]] == Pending
                         then old(futures)[old(pending)[correlationId] := Cancelled] else old(futures)
    {
      if correlationId in pending {
        var future := pending[correlationId];
        pending := pending - {correlationId};
        if futures[future] == Pending {
          futures := futures[future := Cancelled];
        }
      }
    }

    method CancelPendingByConnection(connectionId: string)
      requires Valid()
      modifies this`pendingByConnection, this`futures
      ensures Valid() && View() == old(View()).CancelPendingByConnection(connectionId)
      ensures pendingByConnection == old(pendingByConnection) - {connectionId}
      ensures futures == if connectionId in old(pendingByConnection)
                            && old(futures)[old(pendingByConnection)[connectionId]] == Pending
                         then old(futures)[old(pendingByConnection)[connectionId] := Cancelled] else old(futures)
    {
      if connectionId in pendingByConnection {
        var future := pendingByConnection[connectionId];
        pendingByConnection := pendingByConnection - {connectionId};
        if futures[future] == Pending {
          futures := futures[future := Cancelled];
        }
      }
    }

    // asyncio.wait_for gives up: the awaited future is cancelled, the entry stays filed.
    method Abandon(future: nat)
      requires Valid() && future < |futures|
      modifies this`futures
      ensures Valid() && View() == old(View()).Abandon(future)
      ensures futures == if old(futures)[future] == Pending then old(futures)[future := Cancelled] else old(futures)
    {
      if futures[future] == Pending {
        futures := futures[future := Cancelled];
      }
    }

    // An undone future that a callback with this id and message is for.
    static ghost predicate Addressed(pending: map<string, nat>, pendingByConnection: map<string, nat>,
                                     futures: seq<FutureState>, correlationId: string, message: NsiMessage, f: int)
    {
      && 0 <= f < |futures| && futures[f] == Pending
      && ((correlationId in pending && pending[correlationId] == f)
          || ((message.DataPlaneStateChange? || message.ErrorEvent?)
              && message.connectionId in pendingByConnection && pendingByConnection[message.connectionId] == f))
    }

    // nsi_callback: the message wakes the waiter of its correlationId and, if it is a notification,
    // the waiter of its connection. No reservation is touched.
    method NsiCallback(correlationId: string, message: NsiMessage) returns (resolved: bool)
      requires Valid()
      modifies this`pending, this`pendingByConnection, this`futures
      ensures Valid() && View() == old(View()).Dispatch(correlationId, message)
      // Exactly the undone futures filed under the id or, for a notification, its connection are done now.
      ensures |futures| == |old(futures)|
      ensures forall f :: 0 <= f < |futures| ==>
                var addressed :=
                  Addressed(old(pending), old(pendingByConnection), old(futures), correlationId, message, f);
                futures[f] == if addressed then Done(message) else old(futures)[f]
      ensures resolved <==>
                exists f :: Addressed(old(pending), old(pendingByConnection), old(futures), correlationId, message, f)
      ensures pending == old(pending) - {correlationId}
      ensures pendingByConnection
           == if message.DataPlaneStateChange? || message.ErrorEvent?
              then old(pendingByConnection) - {message.connectionId}
              else old(pendingByConnection)
    {
      resolved := ResolvePending(correlationId, message);
      if IsNotification(message) {
        var byConnection := ResolvePendingByConnection(message.connectionId, message);
        resolved := byConnection || resolved;
      }
    }

    // Settling a task: status, error and the callback's payload in one uninterrupted block.
    method Settle(connectionId: string, status: ReservationStatus, lastError: Option<Reason>)
      returns (url: string, payload: ReservationDetail)
      requires Valid() && connectionId in reservations
      modifies reservations[connectionId]
      ensures Valid() && reservations == old(reservations)
      ensures View() == old(View()).Settle(connectionId, status, lastError)
      ensures reservations[connectionId].View()
           == old(reservations[connectionId].View()).(status := status, lastError := lastError)
      ensures var r := old(reservations[connectionId].View());
              payload == ReservationDetail(r.globalReservationId, r.connectionId, r.description, r.criteria,
                                           status, lastError)
      ensures url == old(View()).reservations[connectionId].callbackUrl
    {
      var r := reservations[connectionId];
      r.status := status;
      r.lastError := lastError;
      OneObjectWritten(connectionId);
      url := r.callbackUrl;
      payload := Detail(r.View());
    }

    // _update_store_from_query: in place if the store knows the connection, else a new object.
    method UpdateFromQuery(qr: QueryReservation, derived: DerivedStatus, events: seq<ErrorNotice>)
      returns (r: StoredReservation)
      requires Valid()
      modifies this`reservations, if qr.connectionId in reservations then {reservations[qr.connectionId]} else {}
      ensures Valid() && View() == R.UpdateFromQuery(old(View()), qr, derived, events)
      ensures qr.connectionId in reservations && reservations[qr.connectionId] == r
      ensures if qr.connectionId in old(reservations) then r == old(reservations)[qr.connectionId] else fresh(r)
    {
      var criteria: Option<Criteria> := None;
      if qr.capacity.Some? && qr.sourceStp.Some? && qr.destStp.Some? {
        // Python's `or`: no version and version 0 alike count as 1.
        var version := if qr.criteriaVersion in {None, Some(0)} then 1 else qr.criteriaVersion.value;
        criteria := Some(Criteria(version, qr.serviceType,
                                  P2ps(qr.capacity.value, qr.sourceStp.value, qr.destStp.value)));
      }
      var reported := LastErrorOf(events);
      if qr.connectionId in reservations {
        r := reservations[qr.connectionId];
        r.status := derived.status;
        r.lastError := R.ResolveLastError(derived, reported, r.lastError);
        if criteria.Some? {
          r.criteria := criteria;
        }
        var _ := r.RecordSeenErrorEvents(events);
        OneObjectWritten(qr.connectionId);
      } else {
        r := CreateSeen(Reservation(qr.connectionId, derived.status, qr.globalReservationId, qr.description, criteria,
                                    qr.requesterNsa, "", R.ResolveLastError(derived, reported, None), None),
                        events);
      }
    }

    // A new object is stored first and told of the events it has seen afterwards.
    method CreateSeen(reservation: Reservation, events: seq<ErrorNotice>) returns (r: StoredReservation)
      requires Valid()
      modifies this`reservations
      ensures Valid() && fresh(r)
      ensures View() == old(View()).Put(reservation.(seenErrorIds := R.RecordSeen(reservation.seenErrorIds, events)))
      ensures reservation.connectionId in reservations && reservations[reservation.connectionId] == r
    {
      hide R.RecordSeen, StoreState.Put, View, Table;
      r := CreateNew(reservation);
      ghost var created := View();
      PutTwice(old(View()), created, reservation,
               reservation.(seenErrorIds := R.RecordSeen(reservation.seenErrorIds, events)));
      RecordSeenIn(reservation.connectionId, events);
    }

    method CreateNew(reservation: Reservation) returns (r: StoredReservation)
      requires Valid()
      modifies this`reservations
      ensures Valid() && fresh(r) && View() == old(View()).Put(reservation)
      ensures reservation.connectionId in reservations && reservations[reservation.connectionId] == r
    {
      hide StoreState.Put, Table;
      r := new StoredReservation(reservation);
      Create(r);
    }

    static lemma PutTwice(s: StoreState, created: StoreState, first: Reservation, second: Reservation)
      requires first.connectionId == second.connectionId && created == s.Put(first)
      ensures created.reservations[first.connectionId] == first
      ensures created.Put(second) == s.Put(second)
    {
    }

    method RecordSeenIn(connectionId: string, events: seq<ErrorNotice>)
      requires Valid() && connectionId in reservations
      modifies reservations[connectionId]
      ensures Valid() && reservations == old(reservations)
      ensures var r := old(View()).reservations[connectionId];
              View() == old(View()).Put(r.(seenErrorIds := R.RecordSeen(r.seenErrorIds, events)))
    {
      var _ := reservations[connectionId].RecordSeenErrorEvents(events);
      OneObjectWritten(connectionId);
    }
  }
}
