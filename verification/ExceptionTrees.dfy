/** The exceptions an aggregator reports are trees; only their leaves are the errors of the providers
    that actually failed. */
module ExceptionTrees {
  import opened Messages

  function RootCauses(exc: ServiceException): (causes: seq<ServiceException>)
    ensures causes != []
    decreases exc, 1
  {
    if exc.childExceptions == [] then [exc] else RootCausesOfAll(exc.childExceptions)
  }

  function RootCausesOfAll(excs: seq<ServiceException>): (causes: seq<ServiceException>)
    ensures excs != [] ==> causes != []
    decreases excs, 0
  {
    if excs == [] then [] else RootCauses(excs[0]) + RootCausesOfAll(excs[1..])
  }

  function ErrorReason(event: ErrorNotice): Reason {
    if event.cause.None? then ErrorAt(event.event, event.originatingNsa)
    else ErrorFrom(event.event, RootCauses(event.cause.value))
  }

  // Python's max over notification ids: the first of the greatest.
  function NewestEvent(events: seq<ErrorNotice>): ErrorNotice
    requires events != []
  {
    var last := events[|events| - 1];
    if |events| == 1 then last
    else
      var best := NewestEvent(events[..|events| - 1]);
      if best.notificationId < last.notificationId then last else best
  }

  function LastErrorOf(events: seq<ErrorNotice>): Option<Reason> {
    if events == [] then None else Some(ErrorReason(NewestEvent(events)))
  }
}
