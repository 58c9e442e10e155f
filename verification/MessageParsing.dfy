/** Reading an inbound SOAP message out of its element tree. A ValueError of the source is None.

    How int() reads a number and how a queryRecursive answer's reservations are read are parameters. */
module MessageParsing {
  import opened Messages
  import opened ExceptionTrees
  import opened ExceptionParsing
  import opened Namespaces
  import opened Xml

  datatype Readers = Readers(
    toInt: string -> Option<int>,
    toReservations: Xml -> Option<seq<QueryReservation>>)

  const BODY := Name(SoapEnv, Tag.Body)
  const P2PS := Name(NsiP2p, Tag.P2ps)
  const EXCEPTION := Plain(Tag.ServiceException)
  const NO_FAULT_STRING := "(no faultstring)"

  // The first element of the SOAP body.
  function Operation(root: Xml): Option<Xml> {
    match Find(root, BODY)
    case None => None
    case Some(body) => if body.children == [] then None else Some(body.children[0])
  }

  function Parse(read: Readers, root: Xml): Option<NsiMessage> {
    match Operation(root)
    case None => None
    case Some(op) => ParseOperation(read, op)
  }

  function ParseOperation(read: Readers, op: Xml): Option<NsiMessage> {
    match op.name.tag
    case ReserveResponse => ParseNaming(op, c => NsiMessage.ReserveResponse(c))
    case ReserveConfirmed => ParseReserveConfirmed(read, op)
    case ReserveFailed => ParseFailed(op, (c, exc) => NsiMessage.ReserveFailed(c, exc))
    case ReserveTimeout => ParseReserveTimeout(read, op)
    case ReserveCommitFailed => ParseFailed(op, (c, exc) => NsiMessage.ReserveCommitFailed(c, exc))
    case ReserveCommitConfirmed => ParseNaming(op, c => NsiMessage.ReserveCommitConfirmed(c))
    case ProvisionConfirmed => ParseNaming(op, c => NsiMessage.ProvisionConfirmed(c))
    case DataPlaneStateChange => ParseDataPlaneStateChange(read, op)
    case ErrorEvent => ParseErrorEvent(read, op)
    case ReleaseConfirmed => ParseNaming(op, c => NsiMessage.ReleaseConfirmed(c))
    case TerminateConfirmed => ParseNaming(op, c => NsiMessage.TerminateConfirmed(c))
    case Acknowledgment => Some(NsiMessage.Acknowledgment)
    case QueryRecursiveConfirmed =>
      (match read.toReservations(op)
       case None => None
       case Some(reservations) => Some(QueryRecursiveResult(reservations)))
    case Fault => ParseFault(op)
    case _ => None
  }

  // A message that only names its connection.
  function ParseNaming(op: Xml, make: string -> NsiMessage): Option<NsiMessage> {
    match FindText(op, Plain(Tag.ConnectionId))
    case None => None
    case Some(connectionId) => Some(make(connectionId))
  }

  function ReadInt(read: Readers, e: Xml, tag: Tag): Option<int> {
    match FindText(e, Plain(tag))
    case None => None
    case Some(text) => read.toInt(text)
  }

  function ParseReserveConfirmed(read: Readers, op: Xml): Option<NsiMessage> {
    match Find(op, Plain(Tag.Criteria))
    case None => None
    case Some(criteria) =>
      match Find(criteria, P2PS)
      case None => None
      case Some(p2ps) =>
        var connectionId := FindText(op, Plain(Tag.ConnectionId));
        var version := read.toInt(Attribute(criteria, "version", "1"));
        var serviceType := FindText(criteria, Plain(Tag.ServiceType));
        var capacity := ReadInt(read, p2ps, Tag.Capacity);
        var sourceStp := FindText(p2ps, Plain(Tag.SourceStp));
        var destStp := FindText(p2ps, Plain(Tag.DestStp));
        if connectionId.None? || version.None? || serviceType.None? || capacity.None?
           || sourceStp.None? || destStp.None?
        then None
        else Some(NsiMessage.ReserveConfirmed(connectionId.value, version.value, serviceType.value, capacity.value,
                                              sourceStp.value, destStp.value))
  }

  function ParseFailed(op: Xml, make: (string, ServiceException) -> NsiMessage): Option<NsiMessage> {
    match Find(op, EXCEPTION)
    case None => None
    case Some(exc) =>
      var connectionId := FindText(op, Plain(Tag.ConnectionId));
      var parsed := ParseServiceException(exc);
      if connectionId.None? || parsed.None? then None else Some(make(connectionId.value, parsed.value))
  }

  function ParseReserveTimeout(read: Readers, op: Xml): Option<NsiMessage> {
    var connectionId := FindText(op, Plain(Tag.ConnectionId));
    var notificationId := ReadInt(read, op, Tag.NotificationId);
    var timestamp := FindText(op, Plain(Tag.TimeStamp));
    var timeoutValue := ReadInt(read, op, Tag.TimeoutValue);
    var originatingId := FindText(op, Plain(Tag.OriginatingConnectionId));
    var originatingNsa := FindText(op, Plain(Tag.OriginatingNsa));
    if connectionId.None? || notificationId.None? || timestamp.None? || timeoutValue.None? || originatingId.None?
       || originatingNsa.None?
    then None
    else Some(NsiMessage.ReserveTimeout(connectionId.value, notificationId.value, timestamp.value, timeoutValue.value,
                                        originatingId.value, originatingNsa.value))
  }

  function ParseDataPlaneStateChange(read: Readers, op: Xml): Option<NsiMessage> {
    match Find(op, Plain(Tag.DataPlaneStatus))
    case None => None
    case Some(dps) =>
      var connectionId := FindText(op, Plain(Tag.ConnectionId));
      var notificationId := ReadInt(read, op, Tag.NotificationId);
      var timestamp := FindText(op, Plain(Tag.TimeStamp));
      var active := FindText(dps, Plain(Tag.Active));
      var version := ReadInt(read, dps, Tag.Version);
      var consistent := FindText(dps, Plain(Tag.VersionConsistent));
      if connectionId.None? || notificationId.None? || timestamp.None? || active.None?
         || version.None? || consistent.None?
      then None
      else Some(NsiMessage.DataPlaneStateChange(connectionId.value, notificationId.value, timestamp.value,
                                                active.value == "true", version.value, consistent.value == "true"))
  }

  function ParseErrorEvent(read: Readers, op: Xml): Option<NsiMessage> {
    var connectionId := FindText(op, Plain(Tag.ConnectionId));
    var notificationId := ReadInt(read, op, Tag.NotificationId);
    var timestamp := FindText(op, Plain(Tag.TimeStamp));
    var event := FindText(op, Plain(Tag.Event));
    var originatingId := FindText(op, Plain(Tag.OriginatingConnectionId));
    var originatingNsa := FindText(op, Plain(Tag.OriginatingNsa));
    var cause := ParseCause(Find(op, EXCEPTION));
    if connectionId.None? || notificationId.None? || timestamp.None? || event.None? || originatingId.None?
       || originatingNsa.None? || cause.None?
    then None
    else Some(NsiMessage.ErrorEvent(connectionId.value, notificationId.value, timestamp.value, event.value,
                                    originatingId.value, originatingNsa.value, cause.value))
  }

  // An exception that may be absent, but must be complete if present.
  function ParseCause(exc: Option<Xml>): Option<Option<ServiceException>> {
    match exc
    case None => Some(None)
    case Some(e) => if ParseServiceException(e).None? then None else Some(ParseServiceException(e))
  }

  // SOAP 1.1, section 4.4: faultstring and detail are unqualified; the exception may sit anywhere in
  // the detail and in any namespace.
  function FaultException(op: Xml): Option<Xml> {
    match Find(op, Plain(Tag.Detail))
    case None => None
    case Some(detail) => FindAnywhere(detail, Tag.ServiceException)
  }

  function ParseFault(op: Xml): Option<NsiMessage> {
    var text := TextOr(op, Plain(Tag.FaultString), "");
    var cause := ParseCause(FaultException(op));
    if cause.None? then None
    else Some(SoapFault(if text == "" then NO_FAULT_STRING else text, cause.value))
  }

  // ---------------------------------------------------------------- the correlation id

  // Texts of correlationId elements directly inside an nsiHeader, by local names, in document order.
  function CorrelationTexts(e: Xml): seq<string>
    decreases e, 1
  {
    TextsAmong(e.name.tag == Tag.NsiHeader, e.children)
  }

  function TextsAmong(inHeader: bool, es: seq<Xml>): seq<string>
    decreases es, 0
  {
    if es == [] then []
    else
      (if inHeader && es[0].name.tag == Tag.CorrelationId && es[0].text != "" then [es[0].text] else [])
      + CorrelationTexts(es[0]) + TextsAmong(inHeader, es[1..])
  }

  function ParseCorrelationId(root: Xml): Option<string> {
    var texts := CorrelationTexts(root);
    if texts == [] then None else Some(texts[0])
  }

  // p is an nsiHeader element that directly holds this correlation id.
  predicate CarriesId(p: Xml, id: string) {
    p.name.tag == Tag.NsiHeader && HoldsId(p.children, id)
  }

  predicate HoldsId(es: seq<Xml>, id: string) {
    exists c :: c in es && c.name.tag == Tag.CorrelationId && c.text == id
  }

  // An id is found exactly if it is not empty and some nsiHeader anywhere, in whatever namespace, holds it.
  lemma {:induction false} IdsFoundIff(e: Xml, id: string)
    ensures id in CorrelationTexts(e)
       <==> id != "" && (CarriesId(e, id) || exists p :: p in Descendants(e) && CarriesId(p, id))
    decreases e, 1
  {
    IdsAmongIff(e.name.tag == Tag.NsiHeader, e.children, id);
  }

  lemma {:induction false} IdsAmongIff(inHeader: bool, es: seq<Xml>, id: string)
    ensures id in TextsAmong(inHeader, es)
       <==> id != "" && ((inHeader && HoldsId(es, id)) || exists p :: p in DescendantsOfAll(es) && CarriesId(p, id))
    decreases es, 0
  {
    if es != [] {
      IdsFoundIff(es[0], id);
      IdsAmongIff(inHeader, es[1..], id);
      assert forall c :: c in es <==> c == es[0] || c in es[1..];
      assert forall p :: p in DescendantsOfAll(es)
                    <==> p == es[0] || p in Descendants(es[0]) || p in DescendantsOfAll(es[1..]);
    }
  }

  // A message has a correlation id iff some nsiHeader in it holds one that is not empty; and it is such a one.
  lemma CorrelationIdReadableIff(root: Xml)
    ensures var id := ParseCorrelationId(root);
      && (id.Some? <==> exists text, p :: text != "" && p in [root] + Descendants(root) && CarriesId(p, text))
      && (id.Some? ==> id.value != "" && exists p :: p in [root] + Descendants(root) && CarriesId(p, id.value))
  {
    if CorrelationTexts(root) != [] {
      IdsFoundIff(root, CorrelationTexts(root)[0]);
      assert root in [root] + Descendants(root);
    }
    if text, p :| text != "" && p in [root] + Descendants(root) && CarriesId(p, text) {
      IdsFoundIff(root, text);
    }
  }

  // The data plane is up iff its text is exactly "true"; a confirmation without a version has version "1".
  lemma ReadsDefaults(read: Readers, op: Xml, m: NsiMessage)
    requires ParseOperation(read, op) == Some(m)
    ensures m.DataPlaneStateChange? ==>
              var status := Find(op, Name(NoNamespace, Tag.DataPlaneStatus));
              && status.Some? && FindText(status.value, Name(NoNamespace, Tag.Active)).Some?
              && (m.active <==> FindText(status.value, Name(NoNamespace, Tag.Active)).value == "true")
    ensures m.ReserveConfirmed? ==>
              var criteria := Find(op, Name(NoNamespace, Tag.Criteria));
              && criteria.Some?
              && ("version" !in criteria.value.attributes ==> read.toInt("1") == Some(m.criteriaVersion))
              && ("version" in criteria.value.attributes ==>
                    read.toInt(criteria.value.attributes["version"]) == Some(m.criteriaVersion))
  {
    hide FindAll, ParseServiceException;
  }

  // ---------------------------------------------------------------- what errors say

  // The exception element that a message's cause is read from.
  function CauseElement(op: Xml): Option<Xml> {
    if op.name.tag == Tag.Fault then FaultException(op) else Find(op, EXCEPTION)
  }

  function CauseOf(message: NsiMessage): Option<ServiceException> {
    match message
    case ReserveFailed(_, exc) => Some(exc)
    case ReserveCommitFailed(_, exc) => Some(exc)
    case ErrorEvent(_, _, _, _, _, _, cause) => cause
    case SoapFault(_, cause) => cause
    case _ => None
  }

  lemma CauseIsRead(read: Readers, op: Xml)
    requires ParseOperation(read, op).Some? && CauseOf(ParseOperation(read, op).value).Some?
    ensures CauseElement(op).Some?
    ensures CauseOf(ParseOperation(read, op).value) == ParseServiceException(CauseElement(op).value)
  {
    hide ParseServiceException, FaultException, FindText, Find, FindAll, Attribute, ReadInt;
  }

  // Whatever message carries the exception, its root causes are the leaves of the element it was
  // read from.
  lemma CausesAreLeavesOfTheMessage(read: Readers, root: Xml)
    requires Parse(read, root).Some? && CauseOf(Parse(read, root).value).Some?
    ensures Operation(root).Some? && CauseElement(Operation(root).value).Some?
    ensures var exc := CauseElement(Operation(root).value).value;
            RootCauses(CauseOf(Parse(read, root).value).value) == OwnOfLeaves(Nodes(exc))
            && Leaves(Nodes(exc)) != []
  {
    var op := Operation(root).value;
    CauseIsRead(read, op);
    RootCausesAreLeaves(CauseElement(op).value);
  }

  predicate FailureTag(tag: Tag) {
    tag == Tag.ReserveFailed || tag == Tag.ReserveCommitFailed
  }

  // A failure message is readable iff it names its connection and carries an exception whose every
  // node is complete; a Fault iff its exception, if it has one, is.
  lemma FailureReadableIff(read: Readers, root: Xml)
    requires Operation(root).Some? && FailureTag(Operation(root).value.name.tag)
    ensures var op := Operation(root).value;
            Parse(read, root).Some? <==>
            (FindText(op, Plain(Tag.ConnectionId)).Some? && CauseElement(op).Some?
              && forall n :: n in Nodes(CauseElement(op).value) ==> Complete(n))
  {
    hide ParseServiceException, FindAll, Nodes, NodesOfAll;
    var op := Operation(root).value;
    if CauseElement(op).Some? {
      ParsesIffComplete(CauseElement(op).value);
    }
  }

  lemma FaultReadableIff(read: Readers, root: Xml)
    requires Operation(root).Some? && Operation(root).value.name.tag == Tag.Fault
    ensures var exc := FaultException(Operation(root).value);
            Parse(read, root).Some? <==> (exc.Some? ==> forall n :: n in Nodes(exc.value) ==> Complete(n))
  {
    var exc := FaultException(Operation(root).value);
    if exc.Some? {
      ParsesIffComplete(exc.value);
    }
  }
}
