/** The reservation store as a value, and what each of its operations does to it.

    Store.dfy proves the mutable store against these functions; the protocol is a state
    machine over them. */
module StoreModel {
  import opened Messages

  datatype P2ps = P2ps(capacity: int, sourceStp: string, destStp: string)

  datatype Criteria = Criteria(version: int, serviceType: Option<string>, p2ps: P2ps)

  datatype Reservation = Reservation(
    connectionId: string,
    status: ReservationStatus,
    globalReservationId: Option<string>,
    description: string,
    criteria: Option<Criteria>,
    requesterNsa: string,
    callbackUrl: string,
    lastError: Option<Reason>,
    seenErrorIds: Option<set<int>>)

  // The payload of a callback: the reservation as it is reported to the requester.
  datatype ReservationDetail = ReservationDetail(
    globalReservationId: Option<string>,
    connectionId: string,
    description: string,
    criteria: Option<Criteria>,
    status: ReservationStatus,
    lastError: Option<Reason>)

  function Detail(r: Reservation): ReservationDetail {
    ReservationDetail(r.globalReservationId, r.connectionId, r.description, r.criteria, r.status, r.lastError)
  }

  function ConfirmedCriteria(msg: NsiMessage): Criteria
    requires msg.ReserveConfirmed?
  {
    Criteria(msg.criteriaVersion, Some(msg.serviceType), P2ps(msg.capacity, msg.sourceStp, msg.destStp))
  }

  // An asyncio future. It is identified by its position in the event loop's list of futures.
  datatype FutureState = Pending | Done(message: NsiMessage) | Cancelled

  datatype StoreState = StoreState(
    reservations: map<string, Reservation>,
    pending: map<string, nat>,
    pendingByConnection: map<string, nat>,
    reservesInFlight: set<string>,
    futures: seq<FutureState>)
  {
    ghost predicate Valid() {
      && (forall c <- reservations :: reservations[c].connectionId == c)
      && (forall c <- pending :: pending[c] < |futures|)
      && (forall c <- pendingByConnection :: pendingByConnection[c] < |futures|)
    }

    function Put(r: Reservation): StoreState {
      this.(reservations := reservations[r.connectionId := r])
    }

    function SetStatus(connectionId: string, status: ReservationStatus): StoreState
      requires connectionId in reservations
    {
      this.(reservations := reservations[connectionId := reservations[connectionId].(status := status)])
    }

    function SetCriteria(connectionId: string, msg: NsiMessage): StoreState
      requires connectionId in reservations && msg.ReserveConfirmed?
    {
      this.(reservations := reservations[connectionId :=
        reservations[connectionId].(criteria := Some(ConfirmedCriteria(msg)))])
    }

    function Adopt(connectionId: string, url: string): StoreState
      requires connectionId in reservations
    {
      this.(reservations := reservations[connectionId := reservations[connectionId].(callbackUrl := url)])
    }

    // A task's last write: the status, and the error that goes with it.
    function Settle(connectionId: string, status: ReservationStatus, lastError: Option<Reason>): StoreState
      requires connectionId in reservations
    {
      this.(reservations := reservations[connectionId :=
        reservations[connectionId].(status := status, lastError := lastError)])
    }

    function ReserveStarted(connectionId: string): StoreState {
      this.(reservesInFlight := reservesInFlight + {connectionId})
    }

    function ReserveFinished(connectionId: string): StoreState {
      this.(reservesInFlight := reservesInFlight - {connectionId})
    }

    // The new future is number |futures| of the store before the call.
    function RegisterPending(correlationId: string): StoreState {
      this.(pending := pending[correlationId := |futures|], futures := futures + [Pending])
    }

    function RegisterPendingByConnection(connectionId: string): StoreState {
      this.(pendingByConnection := pendingByConnection[connectionId := |futures|], futures := futures + [Pending])
    }

    function ResolvePending(correlationId: string, message: NsiMessage): StoreState
      requires Valid()
    {
      if correlationId !in pending then this
      else this.(pending := pending - {correlationId},
                 futures := Settled(futures, pending[correlationId], Done(message)))
    }

    function ResolvePendingByConnection(connectionId: string, message: NsiMessage): StoreState
      requires Valid()
    {
      if connectionId !in pendingByConnection then this
      else this.(pendingByConnection := pendingByConnection - {connectionId},
                 futures := Settled(futures, pendingByConnection[connectionId], Done(message)))
    }

    function CancelPending(correlationId: string): StoreState
      requires Valid()
    {
      if correlationId !in pending then this
      else this.(pending := pending - {correlationId},
                 futures := Settled(futures, pending[correlationId], Cancelled))
    }

    function CancelPendingByConnection(connectionId: string): StoreState
      requires Valid()
    {
      if connectionId !in pendingByConnection then this
      else this.(pendingByConnection := pendingByConnection - {connectionId},
                 futures := Settled(futures, pendingByConnection[connectionId], Cancelled))
    }

    // A wait_for that times out cancels the future it waits on and leaves the entry filed.
    function Abandon(future: nat): StoreState
      requires future < |futures|
    {
      this.(futures := Settled(futures, future, Cancelled))
    }

    // The callback endpoint: by correlationId, and a notification also by its connection.
    function Dispatch(correlationId: string, message: NsiMessage): StoreState
      requires Valid()
    {
      var s := ResolvePending(correlationId, message);
      if IsNotification(message) then s.ResolvePendingByConnection(message.connectionId, message) else s
    }
  }

  // Setting or cancelling acts on an undone future only.
  function Settled(futures: seq<FutureState>, f: nat, outcome: FutureState): seq<FutureState>
    requires f < |futures|
  {
    if futures[f] == Pending then futures[f := outcome] else futures
  }

  const EMPTY_STORE := StoreState(map[], map[], map[], {}, [])
}
