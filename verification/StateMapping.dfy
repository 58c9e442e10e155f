/** state_mapping.py: from NSI sub-state machines and operation history to one proxy status.

    Timestamps are strings, as they are in the messages. Parsing one is library code, so it is a
    parameter: everything here holds for every partial parser to instants. */
module StateMapping {
  import opened Messages

  predicate Over(lifecycleState: string) {
    lifecycleState == "Terminated" || lifecycleState == "PassedEndTime"
  }

  function MapNsiStates(states: ConnectionStates, hasErrorEvent: bool): ReservationStatus {
    if Over(states.lifecycleState) then TERMINATED
    else if states.lifecycleState == "Failed" then FAILED
    else if states.reservationState == "ReserveTimeout"
         || states.reservationState == "ReserveFailed"
         || states.reservationState == "ReserveAborting" then FAILED
    else if hasErrorEvent then FAILED
    else if states.reservationState == "ReserveChecking"
         || states.reservationState == "ReserveHeld"
         || states.reservationState == "ReserveCommitting" then RESERVING
    else if states.dataPlaneActive && states.provisionState == "Released" then DEACTIVATING
    else if states.dataPlaneActive then ACTIVATED
    else if states.provisionState == "Provisioned" then ACTIVATING
    else RESERVED
  }

  datatype DerivedStatus = DerivedStatus(status: ReservationStatus, reason: Option<Reason>)

  type Parser = string -> Option<int>

  // Python's order on strings: by code point, a proper prefix first.
  predicate StringLess(a: string, b: string) {
    |b| > 0 && (|a| == 0 || a[0] < b[0] || (a[0] == b[0] && StringLess(a[1..], b[1..])))
  }

  // The key (resultId, timestamp) of the source's max, compared as a tuple.
  predicate KeyLess(a: OperationResult, b: OperationResult) {
    a.resultId < b.resultId || (a.resultId == b.resultId && StringLess(a.timestamp, b.timestamp))
  }

  function ResultsOf(results: seq<OperationResult>, operation: string): seq<OperationResult> {
    if results == [] then []
    else (if results[0].operation == operation then [results[0]] else [])
         + ResultsOf(results[1..], operation)
  }

  // Python's max: the first of the greatest keys.
  function LatestResult(results: seq<OperationResult>): OperationResult
    requires results != []
  {
    var last := results[|results| - 1];
    if |results| == 1 then last
    else
      var best := LatestResult(results[..|results| - 1]);
      if KeyLess(best, last) then last else best
  }

  function LatestOperationTime(parse: Parser, results: seq<OperationResult>, operation: string): Option<int> {
    var matching := ResultsOf(results, operation);
    if matching == [] then None else parse(LatestResult(matching).timestamp)
  }

  predicate ActiveSince(parse: Parser, changes: seq<DataPlaneChange>, since: int) {
    exists k :: 0 <= k < |changes| && changes[k].active
             && parse(changes[k].timestamp).Some? && parse(changes[k].timestamp).value >= since
  }

  // The moment the data-plane timeout counts from: the provision, or the schedule's start if later.
  function Anchor(parse: Parser, provisionedAt: int, startTime: Option<string>): int {
    if startTime.Some? && parse(startTime.value).Some? && parse(startTime.value).value > provisionedAt
    then parse(startTime.value).value
    else provisionedAt
  }

  function DeriveStatus(parse: Parser, base: ReservationStatus, results: seq<OperationResult>,
                        changes: seq<DataPlaneChange>, startTime: Option<string>,
                        now: int, timeout: int): DerivedStatus
  {
    match base
    case ACTIVATING =>
      var provisionedAt := LatestOperationTime(parse, results, "provisionConfirmed");
      if provisionedAt.None? then DerivedStatus(base, None)
      else if ActiveSince(parse, changes, provisionedAt.value) then
        DerivedStatus(FAILED, Some(DataPlaneDropped))
      else if now - Anchor(parse, provisionedAt.value, startTime) > timeout then
        DerivedStatus(FAILED, Some(NotActiveInTime(provisionedAt.value)))
      else DerivedStatus(base, None)
    case DEACTIVATING =>
      var releasedAt := LatestOperationTime(parse, results, "releaseConfirmed");
      if releasedAt.None? then DerivedStatus(base, None)
      else if now - releasedAt.value > timeout then
        DerivedStatus(FAILED, Some(StillActive(releasedAt.value)))
      else DerivedStatus(base, None)
    case _ => DerivedStatus(base, None)
  }
}
