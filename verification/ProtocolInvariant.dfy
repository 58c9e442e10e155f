/** The inductive invariant of the protocol. It ties every future to the one operation that registered
    it, every awaited message to its delivery, and every outcome to what its task heard. */
module ProtocolInvariant {
  import opened Messages
  import opened StateMapping
  import opened StoreModel
  import opened Refresh
  import opened Protocol

  // ---------------------------------------------------------------- reading the history

  // A delivery that may resolve a future registered under this key.
  ghost predicate Routes(key: Key, e: Event) {
    e.Delivered? &&
    match key
    case ByCorrelation(id) => e.correlationId == id
    case ByConnection(id) => IsNotification(e.message) && e.message.connectionId == id
  }

  // The outcomes of one operation, in order.
  function Reports(history: seq<Event>, i: nat): seq<Outcome> {
    if history == [] then []
    else
      var last := history[|history| - 1];
      Reports(history[..|history| - 1], i) + (if last.Reported? && last.op == i then [last.outcome] else [])
  }

  // The callbackURL most recently adopted for a connection.
  function LastAdopted(history: seq<Event>, connectionId: string): string {
    if history == [] then ""
    else
      var last := history[|history| - 1];
      if last.Adopted? && last.connectionId == connectionId then last.url
      else LastAdopted(history[..|history| - 1], connectionId)
  }

  ghost predicate WasRevoked(history: seq<Event>, i: nat) {
    exists p :: 0 <= p < |history| && history[p].Revoked? && history[p].victim == i && history[p].expired != i
  }

  // ---------------------------------------------------------------- futures

  ghost predicate OriginOk(w: World, f: nat)
    requires f < |w.origins|
  {
    && w.origins[f].owner < |w.operations|
    && w.origins[f].born <= |w.history|
    && (w.origins[f].key.ByCorrelation? ==> w.origins[f].key.id in w.issued)
  }

  // A done future was resolved after it was registered, by a delivery its key routes.
  ghost predicate LandedOk(w: World, f: nat)
    requires w.Shape() && f < |w.store.futures|
  {
    w.store.futures[f].Done? ==>
      && w.origins[f].born <= w.landed[f] < |w.history|
      && Routes(w.origins[f].key, w.history[w.landed[f]])
      && w.history[w.landed[f]].message == w.store.futures[f].message
  }

  // An undone reply future is filed under its id, so the reply will find it.
  ghost predicate FiledOk(w: World, f: nat)
    requires w.Shape() && f < |w.store.futures|
  {
    w.store.futures[f] == Pending && w.origins[f].key.ByCorrelation? ==>
      w.origins[f].key.id in w.store.pending && w.store.pending[w.origins[f].key.id] == f
  }

  ghost predicate EntryOk(w: World, key: Key, f: nat)
    requires w.Shape()
  {
    f < |w.store.futures| && w.origins[f].key == key && !w.store.futures[f].Done?
  }

  ghost predicate FuturesOk(w: World)
    requires w.Shape()
  {
    && (forall f :: 0 <= f < |w.origins| ==> OriginOk(w, f) && LandedOk(w, f) && FiledOk(w, f))
    && (forall c <- w.store.pending :: EntryOk(w, ByCorrelation(c), w.store.pending[c]))
    && (forall c <- w.store.pendingByConnection :: EntryOk(w, ByConnection(c), w.store.pendingByConnection[c]))
    && (forall f, g :: (0 <= f < |w.origins| && 0 <= g < |w.origins|
                         && w.origins[f].key.ByCorrelation? && w.origins[f].key == w.origins[g].key) ==> f == g)
  }

  // ---------------------------------------------------------------- operations

  function AwaitedKey(op: Operation): Key {
    if op.phase.AwaitingDataPlane? then ByConnection(op.connectionId)
    else if op.phase.SendingCommit? || op.phase.AwaitingCommit? then ByCorrelation(op.commitId)
    else ByCorrelation(op.correlationId)
  }

  function HeardKey(op: Operation, k: nat): Key {
    if k == 0 then ByCorrelation(op.correlationId)
    else if op.kind == Reserve then ByCorrelation(op.commitId)
    else ByConnection(op.connectionId)
  }

  ghost predicate HeardAt(w: World, op: Operation, k: nat)
    requires k < |op.heard|
  {
    && op.heard[k].at < |w.history|
    && Routes(HeardKey(op, k), w.history[op.heard[k].at])
    && w.history[op.heard[k].at].message == op.heard[k].message
  }

  // What the task heard was delivered, to it, in the order in which it heard it.
  ghost predicate HeardOk(w: World, op: Operation) {
    && (forall k :: 0 <= k < |op.heard| ==> HeardAt(w, op, k))
    && (forall j, k :: 0 <= j < k < |op.heard| ==> op.heard[j].at < op.heard[k].at)
  }

  ghost predicate HeardBefore(op: Operation, p: nat) {
    forall k :: 0 <= k < |op.heard| ==> op.heard[k].at < p
  }

  // A notification that leaves a data-plane wait waiting.
  predicate Idle(kind: Kind, m: NsiMessage) {
    !m.ErrorEvent? && !Reaches(m, Target(kind))
  }

  ghost predicate FutureMine(w: World, i: nat, op: Operation) {
    HasFuture(op.phase) ==>
      && op.phase.future < |w.origins|
      && w.origins[op.phase.future].owner == i
      && w.origins[op.phase.future].key == AwaitedKey(op)
      && HeardBefore(op, w.origins[op.phase.future].born)
  }

  ghost predicate CommitWasPosted(w: World, i: nat, op: Operation) {
    && op.kind == Reserve
    && |op.heard| >= 1 && Confirms(Reserve, op.heard[0].message)
    && op.heard[0].at < op.commitPosted < |w.history|
    && w.history[op.commitPosted] == CommitPosted(i)
  }

  ghost predicate CommitWasAccepted(w: World, i: nat, op: Operation) {
    && CommitWasPosted(w, i, op)
    && op.commitPosted < op.commitAccepted < |w.history|
    && w.history[op.commitAccepted] == CommitAccepted(i)
  }

  ghost predicate DataPlanePhase(op: Operation) {
    && (op.kind == Provision || op.kind == Release)
    && |op.heard| >= 1 && Confirms(op.kind, op.heard[0].message)
    && forall k :: 1 <= k < |op.heard| ==> Idle(op.kind, op.heard[k].message)
  }

  // What a success stands on.
  ghost predicate Earned(w: World, i: nat, op: Operation) {
    match op.kind
    case Reserve =>
      && CommitWasAccepted(w, i, op)
      && |op.heard| == 2 && op.heard[1].message.ReserveCommitConfirmed?
      && op.commitPosted <= op.heard[1].at
    case Terminate => true
    case _ =>
      && |op.heard| >= 2 && Confirms(op.kind, op.heard[0].message)
      && (forall k :: 1 <= k < |op.heard| - 1 ==> Idle(op.kind, op.heard[k].message))
      && Reaches(op.heard[|op.heard| - 1].message, Target(op.kind))
  }

  predicate Allowed(kind: Kind, status: ReservationStatus) {
    status == SuccessStatus(kind) || (kind != Terminate && status == FAILED)
  }

  ghost predicate Concluded(w: World, i: nat, op: Operation, o: Outcome) {
    && Allowed(op.kind, o.status)
    && o.payload.status == o.status && o.payload.connectionId == op.connectionId
    && o.at < |w.history| && w.history[o.at] == Reported(i, o)
    && o.url == LastAdopted(w.history[..o.at], op.connectionId)
    && HeardBefore(op, o.at)
    && (o.status == FAILED ==> o.payload.lastError.Some?)
    && (o.status == SuccessStatus(op.kind) ==> Earned(w, i, op))
    && (o.status == SuccessStatus(op.kind) && op.kind != Terminate ==> o.payload.lastError.None?)
    && (o.status == SuccessStatus(op.kind) && op.kind == Reserve ==> op.commitAccepted < o.at)
  }

  ghost predicate Story(w: World, i: nat, op: Operation) {
    match op.phase
    case Sending(_) => op.heard == [] && op.outcome.None?
    case Refused => op.heard == [] && op.outcome.None?
    case AwaitingReply(_) => op.heard == [] && op.outcome.None?
    case SendingCommit(f) =>
      && CommitWasPosted(w, i, op) && |op.heard| == 1 && op.outcome.None?
      && f < |w.origins| && w.origins[f].born == op.commitPosted
    case AwaitingCommit(f) =>
      && CommitWasAccepted(w, i, op) && |op.heard| == 1 && op.outcome.None?
      && f < |w.origins| && w.origins[f].born == op.commitPosted
    case AwaitingDataPlane(_) => DataPlanePhase(op) && op.outcome.None?
    case QueryingNotifications => DataPlanePhase(op) && op.outcome.None?
    case Aborted => DataPlanePhase(op) && op.outcome.None? && WasRevoked(w.history, i)
    case Delivering => op.outcome.Some? && Concluded(w, i, op, op.outcome.value)
    case Finished => op.outcome.Some? && Concluded(w, i, op, op.outcome.value)
  }

  ghost predicate OpOk(w: World, i: nat)
    requires i < |w.operations|
  {
    var op := w.operations[i];
    HeardOk(w, op) && FutureMine(w, i, op) && Story(w, i, op)
  }

  // Nobody cancels a future that a reply is awaited on; a data-plane wait is only ever cancelled by
  // the timeout of another operation's wait.
  ghost predicate LiveOk(w: World, i: nat)
    requires w.Shape() && i < |w.operations|
  {
    var p := w.operations[i].phase;
    HasFuture(p) && w.store.futures[p.future] == Cancelled ==> p.AwaitingDataPlane? && WasRevoked(w.history, i)
  }

  // ---------------------------------------------------------------- the store and the counters

  function UrlOf(s: StoreState, c: string): string {
    if c in s.reservations then s.reservations[c].callbackUrl else ""
  }

  ghost predicate AdoptionOk(w: World) {
    forall c :: UrlOf(w.store, c) == LastAdopted(w.history, c)
  }

  ghost predicate ReportsOk(w: World) {
    && (forall i :: 0 <= i < |w.operations| ==>
          Reports(w.history, i) == if w.operations[i].outcome.Some? then [w.operations[i].outcome.value] else [])
    && (forall i :: i >= |w.operations| ==> Reports(w.history, i) == [])
  }

  ghost predicate ReserverOk(w: World, c: string)
    requires c in w.accepted
  {
    var i := w.accepted[c];
    && i < |w.operations| && w.operations[i].kind == Reserve
    && Started(w.operations[i].phase) && w.operations[i].connectionId == c
  }

  ghost predicate InFlightOk(w: World) {
    && (forall c <- w.accepted :: ReserverOk(w, c))
    && (forall i :: 0 <= i < |w.operations| && w.operations[i].kind == Reserve && Started(w.operations[i].phase) ==>
          w.operations[i].connectionId in w.accepted && w.accepted[w.operations[i].connectionId] == i)
    && (forall c :: c in w.store.reservesInFlight
          <==> c in w.accepted && !Ended(w.operations[w.accepted[c]].phase))
  }

  ghost predicate Base(w: World) {
    w.Shape() && FuturesOk(w) && AdoptionOk(w) && ReportsOk(w) && InFlightOk(w)
  }

  ghost predicate OpsOkExcept(w: World, i: int)
    requires w.Shape()
  {
    forall j :: 0 <= j < |w.operations| && j != i ==> OpOk(w, j) && LiveOk(w, j)
  }

  ghost predicate Inv(w: World) {
    Base(w) && OpsOkExcept(w, -1)
  }

  // ---------------------------------------------------------------- growth

  // Whatever happens, the past stays: histories and registrations only grow, futures leave Pending
  // at most once, and reservations are never forgotten.
  ghost predicate Grows(w: World, w': World) {
    && w.Shape() && w'.Shape()
    && w.history <= w'.history
    && w.origins <= w'.origins
    && |w.operations| <= |w'.operations|
    && w.issued <= w'.issued
    && w.store.reservations.Keys <= w'.store.reservations.Keys
    && (forall c <- w.accepted :: c in w'.accepted && w'.accepted[c] == w.accepted[c])
    && (forall f :: 0 <= f < |w.store.futures| && w.store.futures[f] != Pending ==>
          w'.store.futures[f] == w.store.futures[f])
    && (forall f :: 0 <= f < |w.store.futures| && w.store.futures[f].Done? ==> w'.landed[f] == w.landed[f])
  }

  lemma GrowsTransitive(a: World, b: World, c: World)
    requires Grows(a, b) && Grows(b, c)
    ensures Grows(a, c)
  {
  }

  lemma RevokedStays(h: seq<Event>, h': seq<Event>, i: nat)
    requires h <= h' && WasRevoked(h, i)
    ensures WasRevoked(h', i)
  {
    var p :| 0 <= p < |h| && h[p].Revoked? && h[p].victim == i && h[p].expired != i;
    assert h'[p] == h[p];
  }

  // An operation that a step does not touch keeps its story.
  lemma OpOkStays(w: World, w': World, i: nat)
    requires w.history <= w'.history && w.origins <= w'.origins
    requires i < |w.operations| && i < |w'.operations| && w'.operations[i] == w.operations[i]
    requires OpOk(w, i)
    ensures OpOk(w', i)
  {
    var op := w.operations[i];
    HeardStays(w, w', op);
    if op.outcome.Some? && op.outcome.value.at < |w.history| {
      assert w'.history[..op.outcome.value.at] == w.history[..op.outcome.value.at];
    }
    if op.phase.Aborted? { RevokedStays(w.history, w'.history, i); }
  }

  lemma HeardStays(w: World, w': World, op: Operation)
    requires w.history <= w'.history && HeardOk(w, op)
    ensures HeardOk(w', op)
  {
    forall k | 0 <= k < |op.heard| ensures HeardAt(w', op, k) {
      assert HeardAt(w, op, k);
      assert w'.history[op.heard[k].at] == w.history[op.heard[k].at];
    }
  }
}
