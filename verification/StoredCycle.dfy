/** The status that is stored, and shown to requesters, beside the aggregator's states that it follows:
    requests, refreshes and final writes of the proxy's tasks for one committed reservation.

    A refresh stores the mapped status. An acceptance comes before the confirmation, as the aggregator
    acknowledges a request before it confirms it. */
module StoredCycle {
  import opened Messages
  import opened AggregatorCycle

  datatype Joint = Joint(c: Connection, stored: ReservationStatus, accepted: bool)

  datatype Move =
    | Aggregator(e: Event)   // a request includes the handler's own refresh
    | Accept                 // the acknowledgment is processed: the transient status is stored
    | Refresh                // any other read of the reservation
    | Succeed                // a task has seen its target state: it stores RESERVED or ACTIVATED
    | GiveUp                 // a task stores FAILED

  predicate IsRequest(e: Event) {
    e == SendProvision || e == SendRelease
  }

  predicate Possible(j: Joint, m: Move) {
    match m
    case Aggregator(e) =>
      && Can(j.c, e)
      && (e == ConfirmProvision || e == ConfirmRelease ==> j.accepted)
    case Accept => j.c.Outstanding() && !j.accepted
    case Refresh => true
    case Succeed => !j.c.Outstanding() && (j.c.provisionState == "Provisioned" <==> j.c.active)
    case GiveUp => true
  }

  function Transient(c: Connection): ReservationStatus {
    if c.provisionState == "Provisioning" then ACTIVATING else DEACTIVATING
  }

  function Make(j: Joint, m: Move, stamp: int -> string): Joint
    requires Possible(j, m)
  {
    match m
    case Aggregator(e) =>
      if IsRequest(e) then Joint(Do(j.c, e, stamp), j.c.Status(), false) else j.(c := Do(j.c, e, stamp))
    case Accept => j.(stored := Transient(j.c), accepted := true)
    case Refresh => j.(stored := j.c.Status())
    case Succeed => j.(stored := if j.c.active then ACTIVATED else RESERVED)
    case GiveUp => j.(stored := FAILED)
  }

  ghost predicate Plays(j: Joint, moves: seq<Move>, stamp: int -> string)
    decreases |moves|
  {
    moves != [] ==> Possible(j, moves[0]) && Plays(Make(j, moves[0], stamp), moves[1..], stamp)
  }

  // What is stored while all goes well: the mapped status, or the step before or after it.
  ghost predicate InStep(j: Joint) {
    && Positions(j.c)
    && match j.c.provisionState
       case "Provisioning" => j.stored == if j.accepted then ACTIVATING else RESERVED
       case "Releasing" => j.stored == if j.accepted then DEACTIVATING else ACTIVATED
       case "Provisioned" => if j.c.active then j.stored in {ACTIVATING, ACTIVATED} else j.stored == ACTIVATING
       case _ => if j.c.active then j.stored == DEACTIVATING else j.stored in {DEACTIVATING, RESERVED}
  }

  // Refreshing between the acceptance of a request and its confirmation, giving up, and the aggregator's
  // unsolicited drop.
  predicate OutOfStep(j: Joint, m: Move) {
    || (m == Refresh && j.c.Outstanding() && j.accepted)
    || m == GiveUp
    || m == Aggregator(Drop)
  }

  // The stored status stays or moves one place round the cycle.
  predicate Follows(before: ReservationStatus, after: ReservationStatus) {
    after in {before, Successor(before)}
  }

  lemma MoveKeepsStep(j: Joint, m: Move, stamp: int -> string)
    requires InStep(j) && Possible(j, m) && !OutOfStep(j, m)
    ensures InStep(Make(j, m, stamp)) && Follows(j.stored, Make(j, m, stamp).stored)
  {
  }

  lemma MoveLeavesCycle(j: Joint, m: Move, stamp: int -> string)
    requires InStep(j) && Possible(j, m) && OutOfStep(j, m) && m != Aggregator(Drop)
    ensures !Follows(j.stored, Make(j, m, stamp).stored)
  {
  }

  ghost predicate StoredGoesRound(j: Joint, moves: seq<Move>, stamp: int -> string)
    requires Plays(j, moves, stamp)
    decreases |moves|
  {
    && InCycle(j.stored)
    && (moves != [] ==>
          && Follows(j.stored, Make(j, moves[0], stamp).stored)
          && StoredGoesRound(Make(j, moves[0], stamp), moves[1..], stamp))
  }

  ghost predicate NeverOutOfStep(j: Joint, moves: seq<Move>, stamp: int -> string)
    requires Plays(j, moves, stamp)
    decreases |moves|
  {
    moves != [] ==> !OutOfStep(j, moves[0]) && NeverOutOfStep(Make(j, moves[0], stamp), moves[1..], stamp)
  }

  lemma {:induction false} RoundFrom(j: Joint, moves: seq<Move>, stamp: int -> string)
    requires InStep(j) && Plays(j, moves, stamp) && Aggregator(Drop) !in moves
    ensures StoredGoesRound(j, moves, stamp) <==> NeverOutOfStep(j, moves, stamp)
    decreases |moves|
  {
    assert InCycle(j.stored);
    if moves != [] {
      assert moves[0] in moves && forall m :: m in moves[1..] ==> m in moves;
      if OutOfStep(j, moves[0]) {
        MoveLeavesCycle(j, moves[0], stamp);
      } else {
        MoveKeepsStep(j, moves[0], stamp);
        RoundFrom(Make(j, moves[0], stamp), moves[1..], stamp);
      }
    }
  }

  // Without an unsolicited drop, the stored status of a committed reservation goes round RESERVED,
  // ACTIVATING, ACTIVATED, DEACTIVATING exactly if no task gives up and nobody reads the reservation
  // between the acceptance of a request and its confirmation: there the aggregator's states still map
  // to the status from before the request.
  lemma StoredGoesRoundIff(start: int, moves: seq<Move>, stamp: int -> string)
    requires Plays(Joint(Committed(start), RESERVED, false), moves, stamp) && Aggregator(Drop) !in moves
    ensures var j := Joint(Committed(start), RESERVED, false);
      StoredGoesRound(j, moves, stamp) <==> NeverOutOfStep(j, moves, stamp)
  {
    RoundFrom(Joint(Committed(start), RESERVED, false), moves, stamp);
  }
}
