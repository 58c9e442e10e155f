/** The simplified states composed with the aggregator's own machines, for one committed reservation.

    The aggregator moves its provision state and data plane and keeps a history; the proxy sends a
    provision or a release only in the status its handlers let through, one request at a time. */
module AggregatorCycle {
  import opened Messages
  import opened StateMapping
  import opened HistoryProofs
  import opened Refresh
  import P = Protocol

  datatype Connection = Connection(
    provisionState: string,
    active: bool,
    results: seq<OperationResult>,
    changes: seq<DataPlaneChange>,
    now: int,
    nextResultId: int,
    provisionedAt: Option<int>,   // when the last provision was confirmed
    releasedAt: Option<int>,
    olderChanges: nat,            // how many changes were recorded before that provision's confirmation
    risen: bool)                  // whether the data plane came up since
  {
    function Status(): ReservationStatus {
      MapNsiStates(ConnectionStates("ReserveStart", provisionState, "Created", active), false)
    }

    // A request of the proxy that the aggregator has not confirmed.
    predicate Outstanding() {
      provisionState == "Provisioning" || provisionState == "Releasing"
    }
  }

  datatype Event = SendProvision | ConfirmProvision | Rise | SendRelease | ConfirmRelease | Fall | Drop | Tick

  // The handlers let a request of this kind through.
  predicate LetThrough(kind: P.Kind, c: Connection)
    requires kind != P.Reserve
  {
    P.Judge(kind, c.Status(), false, false) == P.Proceed
  }

  // The proxy's guards and the aggregator's. A drop is the one unsolicited move.
  predicate Can(c: Connection, e: Event) {
    match e
    case SendProvision => LetThrough(P.Provision, c) && !c.Outstanding()
    case ConfirmProvision => c.provisionState == "Provisioning"
    case Rise => c.provisionState == "Provisioned" && !c.active
    case SendRelease => LetThrough(P.Release, c) && !c.Outstanding()
    case ConfirmRelease => c.provisionState == "Releasing"
    case Fall => c.provisionState == "Released" && c.active
    case Drop => c.provisionState == "Provisioned" && c.active
    case Tick => true
  }

  // Timestamps are written by some formatter that the parser reads back.
  ghost predicate ReadsBack(parse: Parser, stamp: int -> string) {
    forall t :: parse(stamp(t)) == Some(t)
  }

  function Result(c: Connection, operation: string, stamp: int -> string): OperationResult {
    OperationResult(c.nextResultId, stamp(c.now), operation, "")
  }

  function Change(c: Connection, active: bool, stamp: int -> string): DataPlaneChange {
    DataPlaneStateChange("", 0, stamp(c.now), active, 1, true)
  }

  // The clock moves only with a tick, so any number of events may share an instant.
  function Do(c: Connection, e: Event, stamp: int -> string): Connection
    requires Can(c, e)
  {
    match e
    case SendProvision => c.(provisionState := "Provisioning")
    case ConfirmProvision =>
      c.(provisionState := "Provisioned", results := c.results + [Result(c, "provisionConfirmed", stamp)],
         nextResultId := c.nextResultId + 1, provisionedAt := Some(c.now), olderChanges := |c.changes|, risen := false)
    case Rise => c.(active := true, changes := c.changes + [Change(c, true, stamp)], risen := true)
    case SendRelease => c.(provisionState := "Releasing")
    case ConfirmRelease =>
      c.(provisionState := "Released", results := c.results + [Result(c, "releaseConfirmed", stamp)],
         nextResultId := c.nextResultId + 1, releasedAt := Some(c.now))
    case Fall => c.(active := false, changes := c.changes + [Change(c, false, stamp)])
    case Drop => c.(active := false, changes := c.changes + [Change(c, false, stamp)])
    case Tick => c.(now := c.now + 1)
  }

  function Committed(now: int): Connection {
    Connection("Released", false, [], [], now, 0, None, None, 0, false)
  }

  ghost predicate Runs(c: Connection, events: seq<Event>, stamp: int -> string)
    decreases |events|
  {
    events != [] ==> Can(c, events[0]) && Runs(Do(c, events[0], stamp), events[1..], stamp)
  }

  function After(c: Connection, events: seq<Event>, stamp: int -> string): Connection
    requires Runs(c, events, stamp)
    decreases |events|
  {
    if events == [] then c else After(Do(c, events[0], stamp), events[1..], stamp)
  }

  // ---------------------------------------------------------------- the invariant

  ghost predicate Positions(c: Connection) {
    && c.provisionState in {"Released", "Provisioning", "Provisioned", "Releasing"}
    && (c.provisionState == "Provisioning" ==> !c.active)
    && (c.provisionState == "Releasing" ==> c.active)
    && (c.provisionState == "Provisioned" ==> c.provisionedAt.Some? && (c.active ==> c.risen))
    && (c.provisionState == "Released" && c.active ==> c.releasedAt.Some?)
  }

  // The recorded time of an operation is that of the result with the greatest id.
  ghost predicate Recorded(c: Connection, operation: string, at: Option<int>, stamp: int -> string) {
    if at.None? then forall r :: r in c.results ==> r.operation != operation
    else exists r :: r in c.results && r.operation == operation && r.timestamp == stamp(at.value)
                  && forall x :: x in c.results && x.operation == operation ==> x == r || x.resultId < r.resultId
  }

  // An active change whose instant is readable and not before t.
  predicate RoseBy(parse: Parser, x: DataPlaneChange, t: int) {
    x.active && parse(x.timestamp).Some? && parse(x.timestamp).value >= t
  }

  // The data plane was up since the last confirmed provision iff a change recorded after it says so, and
  // that change is not older than the confirmation.
  ghost predicate RiseKnown(parse: Parser, c: Connection) {
    c.provisionedAt.Some? ==>
      && c.provisionedAt.value <= c.now && c.olderChanges <= |c.changes|
      && (c.risen <==> exists k :: c.olderChanges <= k < |c.changes| && c.changes[k].active)
      && (forall k :: c.olderChanges <= k < |c.changes| && c.changes[k].active ==>
            RoseBy(parse, c.changes[k], c.provisionedAt.value))
  }

  // Every rise recorded before the last confirmed provision carries an earlier instant.
  ghost predicate OlderRisesEarlier(parse: Parser, c: Connection)
    requires c.provisionedAt.Some? && c.olderChanges <= |c.changes|
  {
    forall k :: 0 <= k < c.olderChanges ==> !RoseBy(parse, c.changes[k], c.provisionedAt.value)
  }

  ghost predicate Inv(parse: Parser, stamp: int -> string, c: Connection) {
    && Positions(c)
    && (forall r :: r in c.results ==> r.resultId < c.nextResultId)
    && Recorded(c, "provisionConfirmed", c.provisionedAt, stamp)
    && Recorded(c, "releaseConfirmed", c.releasedAt, stamp)
    && RiseKnown(parse, c)
  }

  lemma RecordedSame(c: Connection, c': Connection, operation: string, at: Option<int>, stamp: int -> string)
    requires Recorded(c, operation, at, stamp)
    requires c'.results == c.results
          || (|c'.results| == |c.results| + 1 && c.results <= c'.results
              && c'.results[|c.results|].operation != operation)
    ensures Recorded(c', operation, at, stamp)
  {
    if c'.results != c.results {
      assert c'.results == c.results + [c'.results[|c.results|]];
    }
    if at.Some? {
      var r :| r in c.results && r.operation == operation && r.timestamp == stamp(at.value)
            && forall x :: x in c.results && x.operation == operation ==> x == r || x.resultId < r.resultId;
      assert r in c'.results;
    }
  }

  lemma RecordedNew(c: Connection, c': Connection, operation: string, stamp: int -> string)
    requires forall r :: r in c.results ==> r.resultId < c.nextResultId
    requires c'.results == c.results + [Result(c, operation, stamp)]
    ensures Recorded(c', operation, Some(c.now), stamp)
  {
    var r := Result(c, operation, stamp);
    assert c'.results[|c.results|] == r;
    assert r in c'.results && r.operation == operation && r.timestamp == stamp(c.now);
  }

  lemma ResultsStayRecorded(c: Connection, e: Event, stamp: int -> string)
    requires Can(c, e) && forall r :: r in c.results ==> r.resultId < c.nextResultId
    requires Recorded(c, "provisionConfirmed", c.provisionedAt, stamp)
    requires Recorded(c, "releaseConfirmed", c.releasedAt, stamp)
    ensures var c' := Do(c, e, stamp);
            && (forall r :: r in c'.results ==> r.resultId < c'.nextResultId)
            && Recorded(c', "provisionConfirmed", c'.provisionedAt, stamp)
            && Recorded(c', "releaseConfirmed", c'.releasedAt, stamp)
  {
    var c' := Do(c, e, stamp);
    if e == ConfirmProvision {
      RecordedNew(c, c', "provisionConfirmed", stamp);
    } else {
      RecordedSame(c, c', "provisionConfirmed", c.provisionedAt, stamp);
    }
    if e == ConfirmRelease {
      RecordedNew(c, c', "releaseConfirmed", stamp);
    } else {
      RecordedSame(c, c', "releaseConfirmed", c.releasedAt, stamp);
    }
  }

  lemma RiseStaysKnown(parse: Parser, stamp: int -> string, c: Connection, e: Event)
    requires ReadsBack(parse, stamp) && Can(c, e) && RiseKnown(parse, c)
    ensures RiseKnown(parse, Do(c, e, stamp))
  {
    var c' := Do(c, e, stamp);
    if c.provisionedAt.Some? && e != ConfirmProvision {
      forall k | c.olderChanges <= k < |c'.changes| && c'.changes[k].active
        ensures RoseBy(parse, c'.changes[k], c.provisionedAt.value)
      {
        assert k < |c.changes| ==> c'.changes[k] == c.changes[k];
      }
      if e.Rise? {
        assert c'.changes[|c.changes|].active;
      } else {
        assert forall k :: c.olderChanges <= k < |c.changes| ==> c'.changes[k] == c.changes[k];
        assert |c'.changes| > |c.changes| ==> !c'.changes[|c.changes|].active;
      }
    }
  }

  lemma StepKeeps(parse: Parser, stamp: int -> string, c: Connection, e: Event)
    requires ReadsBack(parse, stamp) && Inv(parse, stamp, c) && Can(c, e)
    ensures Inv(parse, stamp, Do(c, e, stamp))
  {
    ResultsStayRecorded(c, e, stamp);
    RiseStaysKnown(parse, stamp, c, e);
    PositionsKept(c, e, stamp);
  }

  lemma PositionsKept(c: Connection, e: Event, stamp: int -> string)
    requires Positions(c) && Can(c, e)
    ensures Positions(Do(c, e, stamp))
  {
  }

  lemma {:induction false} RunKeeps(parse: Parser, stamp: int -> string, c: Connection, events: seq<Event>)
    requires ReadsBack(parse, stamp) && Inv(parse, stamp, c) && Runs(c, events, stamp)
    ensures Inv(parse, stamp, After(c, events, stamp))
    decreases |events|
  {
    if events != [] {
      StepKeeps(parse, stamp, c, events[0]);
      RunKeeps(parse, stamp, Do(c, events[0], stamp), events[1..]);
    }
  }

  // ---------------------------------------------------------------- the cycle

  function Successor(s: ReservationStatus): ReservationStatus {
    match s
    case RESERVED => ACTIVATING
    case ACTIVATING => ACTIVATED
    case ACTIVATED => DEACTIVATING
    case DEACTIVATING => RESERVED
    case _ => s
  }

  predicate InCycle(s: ReservationStatus) {
    s in {RESERVED, ACTIVATING, ACTIVATED, DEACTIVATING}
  }

  // The statuses a run shows, up to repetition, go round the cycle.
  ghost predicate GoesRound(c: Connection, events: seq<Event>, stamp: int -> string)
    requires Runs(c, events, stamp)
    decreases |events|
  {
    && InCycle(c.Status())
    && (events != [] ==>
          && Do(c, events[0], stamp).Status() in {c.Status(), Successor(c.Status())}
          && GoesRound(Do(c, events[0], stamp), events[1..], stamp))
  }

  // Without an unsolicited drop the mapped status moves RESERVED, ACTIVATING, ACTIVATED, DEACTIVATING
  // and round again, never otherwise.
  lemma StatusGoesRound(start: int, events: seq<Event>, stamp: int -> string)
    requires Runs(Committed(start), events, stamp) && Drop !in events
    ensures GoesRound(Committed(start), events, stamp)
  {
    GoesRoundFrom(Committed(start), events, stamp);
  }

  lemma {:induction false} GoesRoundFrom(c: Connection, events: seq<Event>, stamp: int -> string)
    requires Positions(c) && Runs(c, events, stamp) && Drop !in events
    ensures GoesRound(c, events, stamp)
    decreases |events|
  {
    assert InCycle(c.Status());
    if events != [] {
      assert events[0] in events && forall e :: e in events[1..] ==> e in events;
      OnlyDropLeavesCycle(c, events[0], stamp);
      PositionsKept(c, events[0], stamp);
      GoesRoundFrom(Do(c, events[0], stamp), events[1..], stamp);
    }
  }

  // A drop is exactly the step that leaves the cycle: the mapping alone shows it as ACTIVATING.
  lemma OnlyDropLeavesCycle(c: Connection, e: Event, stamp: int -> string)
    requires Positions(c) && Can(c, e)
    ensures Do(c, e, stamp).Status() in {c.Status(), Successor(c.Status())} <==> e != Drop
  {
  }

  // ---------------------------------------------------------------- the derived status tells the truth

  function Listing(c: Connection, startTime: Option<string>): QueryReservation {
    QueryReservation("", None, "", "", ConnectionStates("ReserveStart", c.provisionState, "Created", c.active),
                     None, None, None, None, None, startTime)
  }

  // What a full resolution makes of the connection now.
  function DerivedNow(parse: Parser, c: Connection, startTime: Option<string>, timeout: int): DerivedStatus {
    Resolved(Listing(c, startTime), Notifications([], c.changes), c.results, c.now).Derived(Settings(parse, timeout))
  }

  // Reconstructed from the history alone, the derived status says what happened: a provisioned
  // connection that is down has FAILED iff its data plane was up since that provision (a drop), or
  // the time for coming up has passed; a released one that is up has FAILED iff its time has passed;
  // and any other is what its states say. This is so exactly unless the connection is ACTIVATING, was
  // not up since its provision, and a rise from before carries the instant of that provision or a later
  // one: the history cannot tell such a rise from one that came after.
  lemma DerivedTellsWhatHappenedIff(parse: Parser, stamp: int -> string, start: int, events: seq<Event>,
                                    startTime: Option<string>, timeout: int)
    requires ReadsBack(parse, stamp) && Runs(Committed(start), events, stamp)
    ensures var c := After(Committed(start), events, stamp);
      && (c.Status() == ACTIVATING ==> c.provisionedAt.Some? && c.olderChanges <= |c.changes|)
      && (Truthful(parse, c, startTime, timeout)
          <==> (c.Status() == ACTIVATING ==> c.risen || OlderRisesEarlier(parse, c)))
  {
    var c := After(Committed(start), events, stamp);
    RunKeeps(parse, stamp, Committed(start), events);
    if c.Status() == ACTIVATING {
      LatestIsRecorded(parse, stamp, c, "provisionConfirmed", c.provisionedAt.value);
      RiseMeaning(parse, c);
    }
    if c.Status() == DEACTIVATING {
      LatestIsRecorded(parse, stamp, c, "releaseConfirmed", c.releasedAt.value);
    }
  }

  lemma RiseMeaning(parse: Parser, c: Connection)
    requires RiseKnown(parse, c) && c.provisionedAt.Some?
    ensures ActiveSince(parse, c.changes, c.provisionedAt.value) <==> c.risen || !OlderRisesEarlier(parse, c)
  {
    var t := c.provisionedAt.value;
    if ActiveSince(parse, c.changes, t) {
      var k :| 0 <= k < |c.changes| && c.changes[k].active
            && parse(c.changes[k].timestamp).Some? && parse(c.changes[k].timestamp).value >= t;
      assert RoseBy(parse, c.changes[k], t);
    }
    if c.risen {
      var k :| c.olderChanges <= k < |c.changes| && c.changes[k].active;
      assert RoseBy(parse, c.changes[k], t);
    }
  }

  ghost predicate Truthful(parse: Parser, c: Connection, startTime: Option<string>, timeout: int) {
    var d := DerivedNow(parse, c, startTime, timeout);
    match c.Status()
    case ACTIVATING =>
      && c.provisionedAt.Some?
      && (if c.risen then d == DerivedStatus(FAILED, Some(DataPlaneDropped))
          else if c.now - Anchor(parse, c.provisionedAt.value, startTime) > timeout
          then d == DerivedStatus(FAILED, Some(NotActiveInTime(c.provisionedAt.value)))
          else d == DerivedStatus(ACTIVATING, None))
    case DEACTIVATING =>
      && c.releasedAt.Some?
      && (if c.now - c.releasedAt.value > timeout
          then d == DerivedStatus(FAILED, Some(StillActive(c.releasedAt.value)))
          else d == DerivedStatus(DEACTIVATING, None))
    case _ => d == DerivedStatus(c.Status(), None)
  }

  lemma LatestIsRecorded(parse: Parser, stamp: int -> string, c: Connection, operation: string, at: int)
    requires ReadsBack(parse, stamp) && Recorded(c, operation, Some(at), stamp)
    ensures LatestOperationTime(parse, c.results, operation) == Some(at)
  {
    var r :| r in c.results && r.operation == operation && r.timestamp == stamp(at)
          && forall x :: x in c.results && x.operation == operation ==> x == r || x.resultId < r.resultId;
    StringLessTotal(r.timestamp, r.timestamp);
    LatestOperationTimeMeaning(parse, c.results, operation, r);
  }

  // And that does happen: a connection released and provisioned again within one instant reads as
  // dropped although its data plane has only yet to come up.
  lemma SharedInstantMisleads(parse: Parser, stamp: int -> string, start: int, startTime: Option<string>, timeout: int)
    requires ReadsBack(parse, stamp)
    ensures exists events :: Runs(Committed(start), events, stamp)
              && !Truthful(parse, After(Committed(start), events, stamp), startTime, timeout)
  {
    hide Truthful, Do, After, Runs;
    var events, c := ProvisionedTwice(start, stamp);
    assert RoseBy(parse, c.changes[0], start);
    DerivedTellsWhatHappenedIff(parse, stamp, start, events, startTime, timeout);
  }

  lemma ProvisionedTwice(start: int, stamp: int -> string) returns (events: seq<Event>, c: Connection)
    ensures Runs(Committed(start), events, stamp) && After(Committed(start), events, stamp) == c
    ensures c.Status() == ACTIVATING && c.provisionedAt == Some(start) && !c.risen
    ensures |c.changes| == 2 == c.olderChanges && c.changes[0].active && c.changes[0].timestamp == stamp(start)
  {
    events := [SendProvision, ConfirmProvision, Rise, SendRelease, ConfirmRelease, Fall,
               SendProvision, ConfirmProvision];
    var c1 := Do(Committed(start), SendProvision, stamp);
    var c2 := Do(c1, ConfirmProvision, stamp);
    var c3 := Do(c2, Rise, stamp);
    var c4 := Do(c3, SendRelease, stamp);
    var c5 := Do(c4, ConfirmRelease, stamp);
    var c6 := Do(c5, Fall, stamp);
    var c7 := Do(c6, SendProvision, stamp);
    c := Do(c7, ConfirmProvision, stamp);
    Unroll(c7, events[7..], ConfirmProvision, stamp);
    Unroll(c6, events[6..], SendProvision, stamp);
    Unroll(c5, events[5..], Fall, stamp);
    Unroll(c4, events[4..], ConfirmRelease, stamp);
    Unroll(c3, events[3..], SendRelease, stamp);
    Unroll(c2, events[2..], Rise, stamp);
    Unroll(c1, events[1..], ConfirmProvision, stamp);
    Unroll(Committed(start), events, SendProvision, stamp);
  }

  lemma Unroll(c: Connection, events: seq<Event>, first: Event, stamp: int -> string)
    requires events != [] && events[0] == first && Can(c, first) && Runs(Do(c, first, stamp), events[1..], stamp)
    ensures Runs(c, events, stamp) && After(c, events, stamp) == After(Do(c, first, stamp), events[1..], stamp)
  {
  }
}
