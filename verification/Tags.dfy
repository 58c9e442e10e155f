/** The local names of the elements the proxy reads and writes. */
module Tags {
  // The local names the proxy knows, and any other.
  datatype Tag =
    | Envelope | Header | Body | Fault | FaultCode | FaultString | Detail
    | NsiHeader | ProtocolVersion | CorrelationId | RequesterNsa | ProviderNsa | ReplyTo
    | ReserveResponse | Acknowledgment | ReserveConfirmed | ReserveFailed | ReserveTimeout
    | ReserveCommitFailed | ReserveCommitConfirmed | ProvisionConfirmed | DataPlaneStateChange
    | ErrorEvent | ReleaseConfirmed | TerminateConfirmed | QueryRecursiveConfirmed
    | Reserve | ReserveCommit | Provision | Release | Terminate
    | QuerySummarySync | QueryRecursive | QueryNotificationSync | QueryResultSync
    | ConnectionId | GlobalReservationId | Description | Criteria | Schedule | StartTime | EndTime
    | ServiceType | P2ps | Capacity | Directionality | SymmetricPath | SourceStp | DestStp
    | Ero | OrderedStp | Stp
    | ServiceException | ChildException | NsaId | ErrorId | Text | Variables | Variable | Value
    | NotificationId | TimeStamp | TimeoutValue | OriginatingConnectionId | OriginatingNsa
    | DataPlaneStatus | Active | Version | VersionConsistent | Event
    | StartNotificationId | EndNotificationId
    | Other(local: string)
}
