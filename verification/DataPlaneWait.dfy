/** _await_dataplane_change against a timed trace of notifications.

    The source loops: register a future under the connection, wait for what is left of the budget,
    subtract the time waited, look at the message, and go round again. The specification says what that
    amounts to: the first notification before the deadline that settles the wait. */
module DataPlaneWait {
  import opened Messages
  import opened StoreModel
  import opened Store
  import P = Protocol

  // A notification for the awaited connection and the loop time at which the callback endpoint
  // dispatches it.
  datatype Arrival = Arrival(at: real, message: NsiMessage)

  predicate Settles(m: NsiMessage, targetActive: bool) {
    m.ErrorEvent? || P.Reaches(m, targetActive)
  }

  // Notifications of one connection, in order of time, none before the wait begins.
  ghost predicate Trace(connectionId: string, start: real, arrivals: seq<Arrival>) {
    && (forall k :: 0 <= k < |arrivals| ==>
          IsNotification(arrivals[k].message) && arrivals[k].message.connectionId == connectionId
          && arrivals[k].at >= start)
    && (forall j, k :: 0 <= j < k < |arrivals| ==> arrivals[j].at <= arrivals[k].at)
  }

  // Arrival k is the first that settles the wait before the deadline.
  ghost predicate FirstSettling(arrivals: seq<Arrival>, targetActive: bool, deadline: real, k: nat) {
    && k < |arrivals| && arrivals[k].at < deadline && Settles(arrivals[k].message, targetActive)
    && forall j :: 0 <= j < k ==> !Settles(arrivals[j].message, targetActive)
  }

  // One turn: register, wait, and on TimeoutError clean up. None is the timeout.
  method AwaitTurn(store: ReservationStore, connectionId: string, remaining: real, now: real, coming: seq<Arrival>)
    returns (message: Option<NsiMessage>)
    requires store.Valid() && remaining > 0.0 && connectionId !in store.pendingByConnection
    modifies store`pendingByConnection, store`futures
    ensures store.Valid() && store.pendingByConnection == old(store.pendingByConnection)
    ensures message.Some? <==> coming != [] && coming[0].at - now < remaining
    ensures message.Some? ==> message.value == coming[0].message
    ensures store.futures == old(store.futures) + [if message.Some? then Done(coming[0].message) else Cancelled]
  {
    var future := store.RegisterPendingByConnection(connectionId);
    if coming == [] || coming[0].at - now >= remaining {
      store.Abandon(future);
      store.CancelPendingByConnection(connectionId);
      message := None;
    } else {
      var _ := store.ResolvePendingByConnection(connectionId, coming[0].message);
      message := Some(store.futures[future].message);
    }
  }

  // The timer is ideal: it fires when the budget is spent, before a notification of that same
  // instant. The wait is alone on its connection, and its entry is renewed before the next arrival.
  // `taken` counts the notifications it consumed, `ended` is the loop time at which it returned.
  method AwaitDataPlaneChange(store: ReservationStore, connectionId: string, targetActive: bool,
                              dataplaneTimeout: real, start: real, arrivals: seq<Arrival>)
    returns (result: Option<NsiMessage>, ended: real, taken: nat)
    requires store.Valid() && Trace(connectionId, start, arrivals)
    requires connectionId !in store.pendingByConnection
    modifies store`pendingByConnection, store`futures
    ensures store.Valid()
    // What it returns, in terms of the trace alone: the first error event or report of the awaited state
    // before the deadline, and nothing iff there is none.
    ensures taken <= |arrivals|
    ensures result.Some? ==>
              && taken > 0 && result.value == arrivals[taken - 1].message && ended == arrivals[taken - 1].at
              && arrivals[taken - 1].at < start + dataplaneTimeout
              && (result.value.DataPlaneStateChange? || result.value.ErrorEvent?)
              && (result.value.DataPlaneStateChange? ==> result.value.active == targetActive)
              && FirstSettling(arrivals, targetActive, start + dataplaneTimeout, taken - 1)
    ensures forall k :: 0 <= k < taken && (result.None? || k < taken - 1) ==>
              arrivals[k].message.DataPlaneStateChange? && arrivals[k].message.active != targetActive
    ensures result.None? <==> forall k :: 0 <= k < |arrivals| && arrivals[k].at < start + dataplaneTimeout ==>
              arrivals[k].message.DataPlaneStateChange? && arrivals[k].message.active != targetActive
    // How long it waits: to the settling notification, or else exactly the budget.
    ensures start <= ended && (dataplaneTimeout >= 0.0 ==> ended <= start + dataplaneTimeout)
    ensures result.None? ==> ended == if dataplaneTimeout > 0.0 then start + dataplaneTimeout else start
    // What it leaves behind: no entry of its own, and all else as it was. Each consumed notification
    // resolved a future of its own; a wait that gave up left one more, cancelled.
    ensures store.pendingByConnection == old(store.pendingByConnection)
    ensures store.futures == old(store.futures) + Consumed(arrivals, taken)
      + (if result.None? && dataplaneTimeout > 0.0 then [Cancelled] else [])
  {
    var remaining := dataplaneTimeout;
    var now := start;
    taken := 0;
    while remaining > 0.0
      invariant store.Valid() && 0 <= taken <= |arrivals|
      invariant start <= now && now + remaining == start + dataplaneTimeout
      invariant taken > 0 ==> now == arrivals[taken - 1].at && remaining > 0.0
      invariant taken == 0 ==> now == start
      invariant forall j :: 0 <= j < taken ==> !Settles(arrivals[j].message, targetActive)
      invariant store.pendingByConnection == old(store.pendingByConnection)
      invariant store.futures == old(store.futures) + Consumed(arrivals, taken)
      decreases |arrivals| - taken
    {
      var message := AwaitTurn(store, connectionId, remaining, now, arrivals[taken..]);
      if message.None? {
        TooLate(arrivals, taken, start + dataplaneTimeout);
        return None, now + remaining, taken;
      }
      remaining := remaining - (arrivals[taken].at - now);
      now := arrivals[taken].at;
      taken := taken + 1;
      if Settles(message.value, targetActive) {
        assert FirstSettling(arrivals, targetActive, start + dataplaneTimeout, taken - 1);
        return message, now, taken;
      }
    }
    return None, now, taken;
  }

  // The futures that the first n notifications resolved.
  function Consumed(arrivals: seq<Arrival>, n: nat): (futures: seq<FutureState>)
    requires n <= |arrivals|
    ensures |futures| == n
  {
    if n == 0 then [] else Consumed(arrivals, n - 1) + [Done(arrivals[n - 1].message)]
  }

  // Once the next notification is too late, all later ones are.
  lemma TooLate(arrivals: seq<Arrival>, n: nat, deadline: real)
    requires forall j, k :: 0 <= j < k < |arrivals| ==> arrivals[j].at <= arrivals[k].at
    requires n < |arrivals| ==> arrivals[n].at >= deadline
    ensures forall k :: n <= k < |arrivals| ==> arrivals[k].at >= deadline
  {
  }

  // The two halves of the specification exclude each other: if anything settles before the deadline,
  // something settles first.
  lemma {:induction false} FirstSettlingExists(arrivals: seq<Arrival>, targetActive: bool, deadline: real, n: nat)
    requires forall j, k :: 0 <= j < k < |arrivals| ==> arrivals[j].at <= arrivals[k].at
    requires n < |arrivals| && arrivals[n].at < deadline && Settles(arrivals[n].message, targetActive)
    ensures exists k: nat :: k <= n && FirstSettling(arrivals, targetActive, deadline, k)
    decreases n
  {
    if j :| 0 <= j < n && Settles(arrivals[j].message, targetActive) {
      FirstSettlingExists(arrivals, targetActive, deadline, j);
    } else {
      assert FirstSettling(arrivals, targetActive, deadline, n);
    }
  }
}
