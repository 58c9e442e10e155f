/** _send_callback: one payload, posted again while the requester answers 409. */
module CallbackDelivery {
  import opened Messages
  import opened StoreModel
  import opened Store

  const CALLBACK_ATTEMPTS: nat := 12

  // What a POST meets: a 2xx answer, 409, any other answer, or an exception.
  datatype Response = Success | Conflict | Rejected | Raised

  datatype Post = Post(url: string, payload: ReservationDetail)

  // The number of leading 409 answers, counted up to a cap.
  function LeadingConflicts(answers: nat -> Response, cap: nat): (n: nat)
    ensures n <= cap
    ensures forall k :: 0 <= k < n ==> answers(k) == Conflict
    ensures n < cap ==> answers(n) != Conflict
  {
    if cap == 0 then 0
    else
      var n := LeadingConflicts(answers, cap - 1);
      if n == cap - 1 && answers(n) == Conflict then cap else n
  }

  // While the task sleeps between two attempts, others write to the reservation: `meanwhile(k)` is the
  // status and error it has after attempt k. None of that reaches the payload.
  method SendCallback(url: string, reservation: StoredReservation, answers: nat -> Response,
                      meanwhile: nat -> (ReservationStatus, Option<Reason>))
    returns (posts: seq<Post>, delivered: bool)
    modifies reservation`status, reservation`lastError
    ensures |posts| == if LeadingConflicts(answers, 12) == 12 then 12 else LeadingConflicts(answers, 12) + 1
    ensures var r := old(reservation.View());
      forall k :: 0 <= k < |posts| ==>
        posts[k] == Post(url, ReservationDetail(r.globalReservationId, r.connectionId, r.description, r.criteria,
                                                r.status, r.lastError))
    ensures delivered <==> answers(|posts| - 1) == Success
  {
    hide LeadingConflicts;
    var payload := Detail(reservation.View());
    posts := [];
    var attempt := 0;
    while attempt < CALLBACK_ATTEMPTS
      invariant 0 <= attempt <= CALLBACK_ATTEMPTS && |posts| == attempt
      invariant forall k :: 0 <= k < |posts| ==> posts[k] == Post(url, payload)
      invariant forall k :: 0 <= k < attempt ==> answers(k) == Conflict
    {
      posts := posts + [Post(url, payload)];
      match answers(attempt) {
        case Raised => return posts, false;
        case Success => return posts, true;
        case Rejected => return posts, false;
        case Conflict =>
          reservation.status := meanwhile(attempt).0;
          reservation.lastError := meanwhile(attempt).1;
      }
      attempt := attempt + 1;
    }
    return posts, false;
  }
}
