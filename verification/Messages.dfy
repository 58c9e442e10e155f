/** The values that travel between the proxy and the NSI aggregator, as nsi_soap/parser.py types them,
    and the proxy's own simplified reservation states. */
module Messages {

  datatype Option<+T> = None | Some(value: T)

  // The simplified connection states the proxy reports.
  datatype ReservationStatus =
    | RESERVING
    | RESERVED
    | ACTIVATING
    | ACTIVATED
    | DEACTIVATING
    | FAILED
    | TERMINATED

  predicate IsTerminal(s: ReservationStatus) {
    s == TERMINATED || s == FAILED
  }

  datatype Variable = Variable(kind: string, value: string)

  // No children is the empty list; the source writes None for it and reads both alike.
  datatype ServiceException = ServiceException(
    nsaId: string,
    connectionId: Option<string>,
    errorId: string,
    text: string,
    variables: seq<Variable>,
    childExceptions: seq<ServiceException>)

  datatype ConnectionStates = ConnectionStates(
    reservationState: string,
    provisionState: string,
    lifecycleState: string,
    dataPlaneActive: bool)

  datatype QueryReservation = QueryReservation(
    connectionId: string,
    globalReservationId: Option<string>,
    description: string,
    requesterNsa: string,
    connectionStates: ConnectionStates,
    criteriaVersion: Option<int>,
    serviceType: Option<string>,
    capacity: Option<int>,
    sourceStp: Option<string>,
    destStp: Option<string>,
    startTime: Option<string>)

  datatype OperationResult = OperationResult(
    resultId: int,
    timestamp: string,
    operation: string,
    connectionId: string)

  datatype NsiMessage =
    | ReserveResponse(connectionId: string)
    | Acknowledgment
    | ReserveConfirmed(connectionId: string, criteriaVersion: int, serviceType: string,
                       capacity: int, sourceStp: string, destStp: string)
    | ReserveFailed(connectionId: string, serviceException: ServiceException)
    | ReserveTimeout(connectionId: string, notificationId: int, timestamp: string, timeoutValue: int,
                     originatingConnectionId: string, originatingNsa: string)
    | ReserveCommitFailed(connectionId: string, serviceException: ServiceException)
    | ReserveCommitConfirmed(connectionId: string)
    | ProvisionConfirmed(connectionId: string)
    | DataPlaneStateChange(connectionId: string, notificationId: int, timestamp: string,
                           active: bool, version: int, versionConsistent: bool)
    | ErrorEvent(connectionId: string, notificationId: int, timestamp: string, event: string,
                 originatingConnectionId: string, originatingNsa: string,
                 cause: Option<ServiceException>)
    | ReleaseConfirmed(connectionId: string)
    | TerminateConfirmed(connectionId: string)
    | QueryRecursiveResult(reservations: seq<QueryReservation>)
    | SoapFault(faultString: string, cause: Option<ServiceException>)

  // The two notification types that also carry their own meaning in a query's history.
  type DataPlaneChange = m: NsiMessage | m.DataPlaneStateChange?
    witness DataPlaneStateChange("", 0, "", false, 0, false)

  type ErrorNotice = m: NsiMessage | m.ErrorEvent?
    witness ErrorEvent("", 0, "", "", "", "", None)

  datatype Notifications = Notifications(
    errorEvents: seq<ErrorNotice>,
    dataPlaneChanges: seq<DataPlaneChange>)

  // Notifications carry the aggregator's own correlationId, so they are also routed by connection.
  predicate IsNotification(m: NsiMessage) {
    m.DataPlaneStateChange? || m.ErrorEvent?
  }

  // Why a reservation failed. Each constructor is one of the source's formatted reason strings.
  datatype Reason =
    | NoReplyInTime
    | UnexpectedMessage
    | RejectedByAggregator(exception: ServiceException)
    | ReserveTimedOutAtAggregator
    | CommitNotSent
    | InternalError
    | DataPlaneSilent(targetActive: bool)
    | DataPlaneDropped
    | NotActiveInTime(provisionedAt: int)
    | StillActive(releasedAt: int)
    | ErrorFrom(event: string, causes: seq<ServiceException>)
    | ErrorAt(event: string, originatingNsa: string)
}
