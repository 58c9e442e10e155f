/** The proxy's reservation protocol as a state machine over atomic steps.

    All code runs on one asyncio thread, so a step is a block between two awaits: a handler or task
    running on, a callback being dispatched, a wait giving up. An Operation is one request together
    with the background task it starts. Steps interleave freely; the aggregator may send anything. */
module Protocol {
  import opened Messages
  import opened StateMapping
  import opened StoreModel
  import opened ExceptionTrees
  import opened Refresh

  datatype Kind = Reserve | Provision | Release | Terminate

  datatype Phase =
    | Sending(future: nat)            // request posted, its HTTP response outstanding
    | Refused                         // answered 502 or 500: no task was started
    | AwaitingReply(future: nat)      // task started: waiting for the confirmation
    | SendingCommit(future: nat)      // reserveCommit posted, its HTTP response outstanding
    | AwaitingCommit(future: nat)
    | AwaitingDataPlane(future: nat)
    | QueryingNotifications
    | Delivering                      // outcome written, callback being posted
    | Finished
    | Aborted                         // a CancelledError escaped: no outcome at all

  predicate HasFuture(p: Phase) {
    p.Sending? || p.AwaitingReply? || p.SendingCommit? || p.AwaitingCommit? || p.AwaitingDataPlane?
  }

  predicate Waiting(p: Phase) {
    p.AwaitingReply? || p.AwaitingCommit? || p.AwaitingDataPlane?
  }

  // The task exists: the request was accepted.
  predicate Started(p: Phase) {
    !p.Sending? && !p.Refused?
  }

  predicate Ended(p: Phase) {
    p.Finished? || p.Aborted?
  }

  // A message that an await returned, and the position in the history of its delivery.
  datatype Hearing = Hearing(message: NsiMessage, at: nat)

  // A task's final write and the callback that carries it, made in one uninterrupted block.
  datatype Outcome = Outcome(status: ReservationStatus, url: string, payload: ReservationDetail, at: nat)

  datatype Operation = Operation(
    kind: Kind,
    connectionId: string,        // "" for a reserve the aggregator has not accepted yet
    correlationId: string,
    commitId: string,            // the correlationId of the reserveCommit, once posted
    draft: Reservation,          // the reservation as the handler knew it when it sent the request
    phase: Phase,
    heard: seq<Hearing>,
    commitPosted: nat,           // positions in the history
    commitAccepted: nat,
    outcome: Option<Outcome>)

  datatype Key = ByCorrelation(id: string) | ByConnection(id: string)

  // Who registered a future, under which key, and how long the history was then.
  datatype Origin = Origin(key: Key, owner: nat, born: nat)

  datatype Event =
    | Delivered(correlationId: string, message: NsiMessage)
    | Adopted(connectionId: string, url: string)
    | CommitPosted(op: nat)
    | CommitAccepted(op: nat)
    | Revoked(expired: nat, victim: nat)
    | Reported(op: nat, outcome: Outcome)

  datatype World = World(
    store: StoreState,
    operations: seq<Operation>,
    origins: seq<Origin>,
    landed: map<nat, nat>,         // future -> position of the delivery that resolved it
    issued: set<string>,           // correlation ids used so far
    accepted: map<string, nat>,    // connection id -> the reserve the aggregator gave it to
    listed: map<string, nat>,      // connection id -> how many operations there were when it was first listed
    history: seq<Event>)
  {
    ghost predicate Shape() {
      && store.Valid()
      && |origins| == |store.futures|
      && (forall f :: 0 <= f < |store.futures| && store.futures[f].Done? ==> f in landed)
      && (forall i :: 0 <= i < |operations| ==> Fits(operations[i]))
    }

    ghost predicate Fits(op: Operation) {
      && (HasFuture(op.phase) ==> op.phase.future < |store.futures|)
      && (Attached(op) ==> op.connectionId in store.reservations)
    }

    function Put(i: nat, op: Operation): (w: World)
      requires i < |operations|
      ensures Shape() && Fits(op) ==> w.Shape()
    {
      this.(operations := operations[i := op])
    }

    function Log(e: Event): (w: World)
      ensures Shape() ==> w.Shape()
    {
      this.(history := history + [e])
    }

    function List(connectionId: string): (w: World)
      ensures Shape() ==> w.Shape()
    {
      if connectionId in listed then this
      else this.(listed := listed[connectionId := |operations|])
    }

    function RegisterReply(i: nat, correlationId: string): (w: World)
      ensures Shape() ==> w.Shape()
    {
      this.(store := store.RegisterPending(correlationId),
            origins := origins + [Origin(ByCorrelation(correlationId), i, |history|)],
            issued := issued + {correlationId})
    }

    function RegisterWait(i: nat, connectionId: string): (w: World)
      ensures Shape() ==> w.Shape()
    {
      this.(store := store.RegisterPendingByConnection(connectionId),
            origins := origins + [Origin(ByConnection(connectionId), i, |history|)])
    }
  }

  // The store is known to hold the operation's reservation.
  predicate Attached(op: Operation) {
    !op.phase.Refused? && (op.kind == Reserve ==> Started(op.phase))
  }

  // A step of operation i leaves every other operation as it is, and keeps what identifies i. Only the
  // response to a reserve is an acceptance.
  ghost predicate MovesOnly(w: World, w': World, i: nat) {
    && i < |w.operations| == |w'.operations| && w'.operations == w.operations[i := w'.operations[i]]
    && w'.operations[i].kind == w.operations[i].kind && w'.operations[i].draft == w.operations[i].draft
    && w'.listed == w.listed
    && (w'.accepted == w.accepted
        || (w.operations[i].phase.Sending? && w.operations[i].kind == Reserve
            && w'.accepted == w.accepted[w'.operations[i].connectionId := i]))
  }

  const INIT := World(EMPTY_STORE, [], [], map[], {}, map[], map[], [])

  // ---------------------------------------------------------------- the ends of a task

  function Report(w: World, i: nat, status: ReservationStatus, lastError: Option<Reason>): (w': World)
    requires w.Shape() && i < |w.operations| && Attached(w.operations[i])
    ensures w'.Shape() && MovesOnly(w, w', i)
  {
    var op := w.operations[i];
    var store := w.store.Settle(op.connectionId, status, lastError);
    var r := store.reservations[op.connectionId];
    var outcome := Outcome(status, r.callbackUrl, Detail(r), |w.history|);
    w.(store := store,
       operations := w.operations[i := op.(phase := Delivering, outcome := Some(outcome))],
       history := w.history + [Reported(i, outcome)])
  }

  function Fail(w: World, i: nat, reason: Reason): (w': World)
    requires w.Shape() && i < |w.operations| && Attached(w.operations[i])
    ensures w'.Shape() && MovesOnly(w, w', i)
  {
    Report(w, i, FAILED, Some(reason))
  }

  // A terminate ends TERMINATED whatever happened, and leaves the last error alone.
  function GiveUp(w: World, i: nat, reason: Reason): (w': World)
    requires w.Shape() && i < |w.operations| && Attached(w.operations[i])
    ensures w'.Shape() && MovesOnly(w, w', i)
  {
    var op := w.operations[i];
    if op.kind == Terminate then Report(w, i, TERMINATED, w.store.reservations[op.connectionId].lastError)
    else Fail(w, i, reason)
  }

  // ---------------------------------------------------------------- requests

  datatype Verdict = Proceed | Redeliver | AlreadyRunning | Conflict

  // The handlers' dispatch on the refreshed status.
  function Judge(kind: Kind, status: ReservationStatus, stillTerminating: bool, reserveInFlight: bool): Verdict
    requires kind != Reserve
  {
    match kind
    case Provision =>
      (match status
       case ACTIVATED => Redeliver
       case ACTIVATING => AlreadyRunning
       case RESERVED => Proceed
       case _ => Conflict)
    case Release =>
      (match status
       case RESERVED => Redeliver
       case DEACTIVATING => AlreadyRunning
       case ACTIVATED => Proceed
       case _ => Conflict)
    case Terminate =>
      if status == TERMINATED then Redeliver
      else if status == RESERVED || status == FAILED then Proceed
      else if status == RESERVING && !reserveInFlight then Proceed
      else if stillTerminating && !reserveInFlight then Proceed
      else Conflict
  }

  // Provision and release adopt the new callbackURL before they may answer 409; terminate after.
  predicate AdoptsUrl(kind: Kind, verdict: Verdict) {
    kind != Terminate || verdict != Conflict
  }

  function VerdictOn(settings: Settings, w: World, kind: Kind, answer: Answer): Verdict
    requires kind != Reserve
  {
    var c := answer.qr.connectionId;
    Judge(kind, Apply(settings, w.store, answer).reservations[c].status,
          answer.qr.connectionStates.lifecycleState == "Terminating",
          c in w.store.reservesInFlight)
  }

  // The refresh that a request starts with, and the adoption of its callbackURL.
  function Received(settings: Settings, w: World, kind: Kind, answer: Answer, url: string): (w': World)
    requires w.Shape() && kind != Reserve
    ensures w'.Shape() && answer.qr.connectionId in w'.store.reservations
  {
    var c := answer.qr.connectionId;
    var refreshed := w.(store := Apply(settings, w.store, answer)).List(c);
    if AdoptsUrl(kind, VerdictOn(settings, w, kind, answer))
    then refreshed.(store := refreshed.store.Adopt(c, url)).Log(Adopted(c, url))
    else refreshed
  }

  // Refresh, adopt, dispatch, and register the future of the request about to be sent: one block.
  function Ask(settings: Settings, w: World, kind: Kind, answer: Answer, url: string, correlationId: string)
    : (w': World)
    requires w.Shape() && kind != Reserve
    ensures w'.Shape()
  {
    var c := answer.qr.connectionId;
    var received := Received(settings, w, kind, answer, url);
    if VerdictOn(settings, w, kind, answer) != Proceed then received
    else Begin(received, kind, c, correlationId, received.store.reservations[c])
  }

  // A new operation: its future is registered before its request is sent.
  function Begin(w: World, kind: Kind, connectionId: string, correlationId: string, draft: Reservation): (w': World)
    requires w.Shape() && (kind != Reserve ==> connectionId in w.store.reservations)
    ensures w'.Shape()
  {
    var op := Operation(kind, connectionId, correlationId, "", draft, Sending(|w.store.futures|), [], 0, 0, None);
    var registered := w.RegisterReply(|w.operations|, correlationId);
    registered.(operations := registered.operations + [op])
  }

  function PostReserve(w: World, correlationId: string, globalReservationId: Option<string>, description: string,
                       serviceType: Option<string>, p2ps: P2ps, requesterNsa: string, url: string): (w': World)
    requires w.Shape()
    ensures w'.Shape()
  {
    var draft := Reservation("", RESERVING, globalReservationId, description,
                             Some(Criteria(1, serviceType, p2ps)), requesterNsa, url, None, None);
    Begin(w, Reserve, "", correlationId, draft)
  }

  // The HTTP response to a request. Only the last is a success; Unparsable leaves the entry filed.
  datatype SyncReply = SendFailed | Unparsable | Unexpected | Accepted(connectionId: string)

  function Respond(w: World, i: nat, reply: SyncReply): (w': World)
    requires w.Shape() && i < |w.operations| && w.operations[i].phase.Sending?
    ensures w'.Shape() && MovesOnly(w, w', i)
  {
    var op := w.operations[i];
    match reply
    case Unparsable => w.Put(i, op.(phase := Refused))
    case SendFailed => Withdraw(w, i)
    case Unexpected => Withdraw(w, i)
    case Accepted(connectionId) =>
      var started := op.(phase := AwaitingReply(op.phase.future));
      match op.kind
      case Reserve => AcceptReserve(w, i, connectionId)
      case Provision => w.(store := w.store.SetStatus(op.connectionId, ACTIVATING)).Put(i, started)
      case Release => w.(store := w.store.SetStatus(op.connectionId, DEACTIVATING)).Put(i, started)
      case Terminate => w.Put(i, started)
  }

  // The aggregator takes the reserve of operation i and names its connection.
  function AcceptReserve(w: World, i: nat, connectionId: string): (w': World)
    requires w.Shape() && i < |w.operations| && w.operations[i].phase.Sending? && w.operations[i].kind == Reserve
    ensures w'.Shape() && MovesOnly(w, w', i)
  {
    var op := w.operations[i];
    var r := op.draft.(connectionId := connectionId, status := RESERVING);
    var created := w.(store := w.store.Put(r).ReserveStarted(connectionId),
                      accepted := w.accepted[connectionId := i]);
    created.Put(i, op.(phase := AwaitingReply(op.phase.future), connectionId := connectionId))
           .Log(Adopted(connectionId, op.draft.callbackUrl))
  }

  function Withdraw(w: World, i: nat): (w': World)
    requires w.Shape() && i < |w.operations|
    ensures w'.Shape() && MovesOnly(w, w', i)
  {
    var op := w.operations[i];
    w.(store := w.store.CancelPending(op.correlationId)).Put(i, op.(phase := Refused))
  }

  // ---------------------------------------------------------------- background tasks

  predicate Confirms(kind: Kind, m: NsiMessage) {
    match kind
    case Reserve => m.ReserveConfirmed?
    case Provision => m.ProvisionConfirmed?
    case Release => m.ReleaseConfirmed?
    case Terminate => m.TerminateConfirmed?
  }

  // The data-plane state that a provision, or a release, is waiting for.
  predicate Target(kind: Kind) {
    kind == Provision
  }

  predicate Reaches(m: NsiMessage, targetActive: bool) {
    m.DataPlaneStateChange? && m.active == targetActive
  }

  function SuccessStatus(kind: Kind): ReservationStatus {
    match kind
    case Reserve => RESERVED
    case Provision => ACTIVATED
    case Release => RESERVED
    case Terminate => TERMINATED
  }

  // Each turn of the data-plane wait registers a new future, unless no time is left.
  function AwaitDataPlane(w: World, i: nat, timeLeft: bool): (w': World)
    requires w.Shape() && i < |w.operations| && Attached(w.operations[i])
    ensures w'.Shape() && MovesOnly(w, w', i)
  {
    var op := w.operations[i];
    if timeLeft then
      w.RegisterWait(i, op.connectionId).Put(i, op.(phase := AwaitingDataPlane(|w.store.futures|)))
    else w.Put(i, op.(phase := QueryingNotifications))
  }

  function PostCommit(w: World, i: nat, m: NsiMessage, commitId: string): (w': World)
    requires w.Shape() && i < |w.operations| && Attached(w.operations[i]) && m.ReserveConfirmed?
    ensures w'.Shape() && MovesOnly(w, w', i)
  {
    var op := w.operations[i];
    var confirmed := w.(store := w.store.SetCriteria(op.connectionId, m));
    confirmed.RegisterReply(i, commitId)
             .Put(i, op.(phase := SendingCommit(|w.store.futures|), commitId := commitId, commitPosted := |w.history|))
             .Log(CommitPosted(i))
  }

  // An exception raised by the code that handles a message: before it has had any effect, or, while a
  // ReserveConfirmed is handled, after the criteria were written or after the commit's future was filed.
  datatype Fault = NoFault | AtOnce | AfterCriteria | AfterRegistration

  // What a fault leaves behind when it strikes; the task then gives up.
  function Interrupted(w: World, i: nat, m: NsiMessage, fault: Fault, commitId: string): (w': World)
    requires w.Shape() && i < |w.operations| && Attached(w.operations[i]) && fault != NoFault
    ensures w'.Shape() && w'.operations == w.operations && w'.history == w.history
  {
    var op := w.operations[i];
    if !(op.kind == Reserve && op.phase.AwaitingReply? && m.ReserveConfirmed?) || fault == AtOnce then w
    else
      var confirmed := w.(store := w.store.SetCriteria(op.connectionId, m));
      if fault == AfterCriteria then confirmed else confirmed.RegisterReply(i, commitId)
  }

  // The awaited future is done and its task runs on.
  function Wake(settings: Settings, w: World, i: nat, fault: Fault, commitId: string, timeLeft: bool): (w': World)
    requires w.Shape() && i < |w.operations| && Waiting(w.operations[i].phase)
    requires w.store.futures[w.operations[i].phase.future] != Pending
    ensures w'.Shape() && MovesOnly(w, w', i)
  {
    var op := w.operations[i];
    var f := op.phase.future;
    match w.store.futures[f]
    case Cancelled =>
      // CancelledError is no Exception: only the finally of a reserve still runs.
      var store := if op.kind == Reserve then w.store.ReserveFinished(op.connectionId) else w.store;
      w.(store := store).Put(i, op.(phase := Aborted))
    case Done(m) =>
      Handle(settings, w.Put(i, op.(heard := op.heard + [Hearing(m, w.landed[f])])), i, m, fault, commitId, timeLeft)
  }

  function Handle(settings: Settings, w: World, i: nat, m: NsiMessage, fault: Fault, commitId: string, timeLeft: bool)
    : (w': World)
    requires w.Shape() && i < |w.operations| && Waiting(w.operations[i].phase)
    ensures w'.Shape() && MovesOnly(w, w', i)
  {
    var phase := w.operations[i].phase;
    if fault != NoFault then GiveUp(Interrupted(w, i, m, fault, commitId), i, InternalError)
    else if phase.AwaitingReply? then HandleReply(settings, w, i, m, commitId)
    else if phase.AwaitingCommit? then HandleCommit(w, i, m)
    else HandleNotification(w, i, m, timeLeft)
  }

  function HandleCommit(w: World, i: nat, m: NsiMessage): (w': World)
    requires w.Shape() && i < |w.operations| && Attached(w.operations[i])
    ensures w'.Shape() && MovesOnly(w, w', i)
  {
    if m.ReserveCommitFailed? then Fail(w, i, RejectedByAggregator(m.serviceException))
    else if m.ReserveCommitConfirmed? then Report(w, i, RESERVED, None)
    else Fail(w, i, UnexpectedMessage)
  }

  function HandleNotification(w: World, i: nat, m: NsiMessage, timeLeft: bool): (w': World)
    requires w.Shape() && i < |w.operations| && Attached(w.operations[i])
    ensures w'.Shape() && MovesOnly(w, w', i)
  {
    var op := w.operations[i];
    if Reaches(m, Target(op.kind)) then Report(w, i, SuccessStatus(op.kind), None)
    else if m.ErrorEvent? then Fail(w, i, ErrorReason(m))
    else AwaitDataPlane(w, i, timeLeft)
  }

  function HandleReply(settings: Settings, w: World, i: nat, m: NsiMessage, commitId: string): (w': World)
    requires w.Shape() && i < |w.operations| && Attached(w.operations[i])
    ensures w'.Shape() && MovesOnly(w, w', i)
  {
    var op := w.operations[i];
    match op.kind
    case Reserve =>
      if m.ReserveFailed? then Fail(w, i, RejectedByAggregator(m.serviceException))
      else if m.ReserveTimeout? then Fail(w, i, ReserveTimedOutAtAggregator)
      else if m.ReserveConfirmed? then PostCommit(w, i, m, commitId)
      else Fail(w, i, UnexpectedMessage)
    case Terminate => GiveUp(w, i, UnexpectedMessage)
    case _ =>
      if Confirms(op.kind, m) then AwaitDataPlane(w, i, settings.dataplaneTimeout > 0)
      else Fail(w, i, UnexpectedMessage)
  }

  // The task of operation i whose wait is filed under its connection, if any, other than i itself.
  function Victim(w: World, i: nat): Option<nat>
    requires w.Shape() && i < |w.operations| && Waiting(w.operations[i].phase)
  {
    var c := w.operations[i].connectionId;
    if c in w.store.pendingByConnection
       && w.store.futures[w.store.pendingByConnection[c]] == Pending
       && w.origins[w.store.pendingByConnection[c]].owner != i
    then Some(w.origins[w.store.pendingByConnection[c]].owner)
    else None
  }

  // A wait gives up. It may lose a message that had arrived but was not yet handled.
  function Expire(w: World, i: nat): (w': World)
    requires w.Shape() && i < |w.operations| && Waiting(w.operations[i].phase)
    ensures w'.Shape() && MovesOnly(w, w', i)
  {
    if w.operations[i].phase.AwaitingDataPlane? then ExpireDataPlane(w, i)
    else GiveUp(w.(store := w.store.Abandon(w.operations[i].phase.future)), i, NoReplyInTime)
  }

  // The timeout of a data-plane wait also cancels whatever is filed under the connection.
  function ExpireDataPlane(w: World, i: nat): (w': World)
    requires w.Shape() && i < |w.operations| && w.operations[i].phase.AwaitingDataPlane?
    ensures w'.Shape() && MovesOnly(w, w', i)
  {
    var op := w.operations[i];
    var v := w.(store := w.store.Abandon(op.phase.future).CancelPendingByConnection(op.connectionId))
              .Put(i, op.(phase := QueryingNotifications));
    if Victim(w, i).Some? then v.Log(Revoked(i, Victim(w, i).value)) else v
  }

  // The HTTP response to a reserveCommit. A broken one was accepted, but handling it raises.
  datatype CommitReply = CommitTaken | CommitFailed | CommitBroken

  function AnswerCommit(w: World, i: nat, reply: CommitReply): (w': World)
    requires w.Shape() && i < |w.operations| && w.operations[i].phase.SendingCommit?
    ensures w'.Shape() && MovesOnly(w, w', i)
  {
    var op := w.operations[i];
    match reply
    case CommitTaken =>
      w.Put(i, op.(phase := AwaitingCommit(op.phase.future), commitAccepted := |w.history|)).Log(CommitAccepted(i))
    case CommitFailed =>
      var v := w.(store := w.store.CancelPending(op.commitId));
      Fail(v, i, CommitNotSent)
    case CommitBroken => Fail(w, i, InternalError)
  }

  function AnswerNotifications(w: World, i: nat, events: seq<ErrorNotice>): (w': World)
    requires w.Shape() && i < |w.operations| && w.operations[i].phase.QueryingNotifications?
    ensures w'.Shape() && MovesOnly(w, w', i)
  {
    var found := LastErrorOf(events);
    Fail(w, i, if found.Some? then found.value else DataPlaneSilent(Target(w.operations[i].kind)))
  }

  function Finish(w: World, i: nat): (w': World)
    requires w.Shape() && i < |w.operations| && w.operations[i].phase.Delivering?
    ensures w'.Shape() && MovesOnly(w, w', i)
  {
    var op := w.operations[i];
    var store := if op.kind == Reserve then w.store.ReserveFinished(op.connectionId) else w.store;
    w.(store := store).Put(i, op.(phase := Finished))
  }

  // ---------------------------------------------------------------- dispatching callbacks

  // The futures a dispatch resolves were delivered at this position.
  function Landing(w: World, correlationId: string, m: NsiMessage): map<nat, nat>
    requires w.Shape()
  {
    var after := w.store.Dispatch(correlationId, m).futures;
    map f: nat | f < |w.store.futures| && f < |after| && after[f] != w.store.futures[f] :: |w.history|
  }

  function Dispatched(w: World, correlationId: string, m: NsiMessage): (w': World)
    requires w.Shape()
    ensures w'.Shape()
  {
    w.(store := w.store.Dispatch(correlationId, m), landed := w.landed + Landing(w, correlationId, m))
     .Log(Delivered(correlationId, m))
  }

  // ---------------------------------------------------------------- steps and runs

  datatype Action =
    | Deliver(correlationId: string, message: NsiMessage)
    | Look(answer: Answer)
    | AskReserve(correlationId: string, globalReservationId: Option<string>, description: string,
                 serviceType: Option<string>, p2ps: P2ps, requesterNsa: string, url: string)
    | Reuse(connectionId: string, url: string)
    | AskFor(kind: Kind, answer: Answer, url: string, correlationId: string)
    | Answered(op: nat, reply: SyncReply)
    | Woken(op: nat, fault: Fault, commitId: string, timeLeft: bool)
    | Expired(op: nat)
    | CommitAnswered(op: nat, commitReply: CommitReply)
    | NotificationsAnswered(op: nat, events: seq<ErrorNotice>)
    | CallbackDone(op: nat)

  // The operation that an action moves on, if it belongs to one.
  predicate Moves(a: Action, i: nat) {
    match a
    case Answered(op, _) => op == i
    case Woken(op, _, _, _) => op == i
    case Expired(op) => op == i
    case CommitAnswered(op, _) => op == i
    case NotificationsAnswered(op, _) => op == i
    case CallbackDone(op) => op == i
    case _ => false
  }

  // The aggregator may give c to the reserve of operation i.
  predicate MayGive(w: World, i: nat, c: string) {
    c !in w.accepted && (c in w.listed ==> i < w.listed[c])
  }

  // Correlation ids are fresh uuids, and the aggregator never gives two reserves one connection id, nor
  // one that it has already listed to a reserve posted later.
  // Nothing else is assumed of the aggregator or of the order of steps.
  ghost predicate Enabled(w: World, a: Action)
    requires w.Shape()
  {
    match a
    case Deliver(_, _) => true
    case Look(answer) => answer.Possible()
    case AskReserve(correlationId, _, _, _, _, _, _) => correlationId !in w.issued
    case Reuse(connectionId, _) => connectionId in w.store.reservations
    case AskFor(kind, answer, _, correlationId) => kind != Reserve && answer.Resolved? && correlationId !in w.issued
    case Answered(i, reply) =>
      && i < |w.operations| && w.operations[i].phase.Sending?
      && (w.operations[i].kind == Reserve && reply.Accepted? ==> MayGive(w, i, reply.connectionId))
    case Woken(i, _, commitId, _) =>
      && i < |w.operations| && Waiting(w.operations[i].phase)
      && w.store.futures[w.operations[i].phase.future] != Pending
      && commitId !in w.issued
    case Expired(i) => i < |w.operations| && Waiting(w.operations[i].phase)
    case CommitAnswered(i, _) => i < |w.operations| && w.operations[i].phase.SendingCommit?
    case NotificationsAnswered(i, _) => i < |w.operations| && w.operations[i].phase.QueryingNotifications?
    case CallbackDone(i) => i < |w.operations| && w.operations[i].phase.Delivering?
  }

  ghost function Next(settings: Settings, w: World, a: Action): (w': World)
    requires w.Shape() && Enabled(w, a)
    ensures w'.Shape()
  {
    match a
    case Deliver(correlationId, m) => Dispatched(w, correlationId, m)
    case Look(answer) => w.(store := Apply(settings, w.store, answer)).List(answer.qr.connectionId)
    case AskReserve(correlationId, gid, description, serviceType, p2ps, requesterNsa, url) =>
      PostReserve(w, correlationId, gid, description, serviceType, p2ps, requesterNsa, url)
    case Reuse(connectionId, url) =>
      w.(store := w.store.Adopt(connectionId, url)).Log(Adopted(connectionId, url))
    case AskFor(kind, answer, url, correlationId) => Ask(settings, w, kind, answer, url, correlationId)
    case Answered(i, reply) => Respond(w, i, reply)
    case Woken(i, fault, commitId, timeLeft) => Wake(settings, w, i, fault, commitId, timeLeft)
    case Expired(i) => Expire(w, i)
    case CommitAnswered(i, reply) => AnswerCommit(w, i, reply)
    case NotificationsAnswered(i, events) => AnswerNotifications(w, i, events)
    case CallbackDone(i) => Finish(w, i)
  }

  // A sequence of actions, each possible where it is taken.
  ghost predicate Runs(settings: Settings, w: World, actions: seq<Action>)
    requires w.Shape()
    decreases |actions|
  {
    actions != [] ==>
      && Enabled(w, actions[0])
      && Runs(settings, Next(settings, w, actions[0]), actions[1..])
  }

  ghost function Exec(settings: Settings, w: World, actions: seq<Action>): (w': World)
    requires w.Shape() && Runs(settings, w, actions)
    ensures w'.Shape()
    decreases |actions|
  {
    if actions == [] then w else Exec(settings, Next(settings, w, actions[0]), actions[1..])
  }
}
