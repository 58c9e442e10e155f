/** The messages an aggregator sends, written as element trees in the shape that tests/test_parse.py
    shows, and the parser as the inverse of that writing. */
module MessageRoundTrip {
  import opened Messages
  import opened ExceptionParsing
  import opened MessageParsing
  import opened Decimals
  import opened Envelopes
  import EnvelopeProofs
  import opened Namespaces
  import opened Xml

  // ---------------------------------------------------------------- writing

  function EncodeVariables(variables: seq<Variable>): seq<Xml> {
    if variables == [] then []
    else [Element(Plain(Tag.Variable), map["type" := variables[0].kind], "",
                  [TextElement(Tag.Value, variables[0].value)])]
         + EncodeVariables(variables[1..])
  }

  function EncodeException(name: Name, exc: ServiceException): Xml
    decreases exc, 1
  {
    Parent(name, OwnFields(exc) + EncodeChildren(exc.childExceptions))
  }

  function OwnFields(exc: ServiceException): seq<Xml> {
    [TextElement(Tag.NsaId, exc.nsaId), TextElement(Tag.ErrorId, exc.errorId), TextElement(Tag.Text, exc.text)]
    + Optionally(Tag.ConnectionId, exc.connectionId)
    + (if exc.variables == [] then [] else [Parent(Plain(Tag.Variables), EncodeVariables(exc.variables))])
  }

  function EncodeChildren(excs: seq<ServiceException>): seq<Xml>
    decreases excs, 0
  {
    if excs == [] then [] else [EncodeException(CHILD, excs[0])] + EncodeChildren(excs[1..])
  }

  function Flag(b: bool): string {
    if b then "true" else "false"
  }

  function Naming(tag: Tag, connectionId: string): Xml {
    Parent(Typed(tag), [TextElement(Tag.ConnectionId, connectionId)])
  }

  function Failure(tag: Tag, connectionId: string, exc: ServiceException): Xml {
    Parent(Typed(tag), [TextElement(Tag.ConnectionId, connectionId), EncodeException(EXCEPTION, exc)])
  }

  function NotificationFields(connectionId: string, notificationId: int, timestamp: string): seq<Xml> {
    [TextElement(Tag.ConnectionId, connectionId), TextElement(Tag.NotificationId, Decimal(notificationId)),
     TextElement(Tag.TimeStamp, timestamp)]
  }

  function OriginFields(connectionId: string, nsa: string): seq<Xml> {
    [TextElement(Tag.OriginatingConnectionId, connectionId), TextElement(Tag.OriginatingNsa, nsa)]
  }

  function CauseFields(cause: Option<ServiceException>): seq<Xml> {
    if cause.None? then [] else [EncodeException(EXCEPTION, cause.value)]
  }

  function Encode(m: NsiMessage): Xml
    requires !m.QueryRecursiveResult?
  {
    match m
    case ReserveResponse(c) => Naming(Tag.ReserveResponse, c)
    case Acknowledgment => Empty(Typed(Tag.Acknowledgment))
    case ReserveConfirmed(c, version, serviceType, capacity, sourceStp, destStp) =>
      Parent(Typed(Tag.ReserveConfirmed),
             [TextElement(Tag.ConnectionId, c),
              Element(Plain(Tag.Criteria), map["version" := Decimal(version)], "",
                      [TextElement(Tag.ServiceType, serviceType),
                       Parent(P2PS, [TextElement(Tag.Capacity, Decimal(capacity)),
                                     TextElement(Tag.SourceStp, sourceStp), TextElement(Tag.DestStp, destStp)])])])
    case ReserveFailed(c, exc) => Failure(Tag.ReserveFailed, c, exc)
    case ReserveTimeout(c, id, timestamp, value, originatingId, originatingNsa) =>
      Parent(Typed(Tag.ReserveTimeout),
             NotificationFields(c, id, timestamp) + [TextElement(Tag.TimeoutValue, Decimal(value))]
             + OriginFields(originatingId, originatingNsa))
    case ReserveCommitFailed(c, exc) => Failure(Tag.ReserveCommitFailed, c, exc)
    case ReserveCommitConfirmed(c) => Naming(Tag.ReserveCommitConfirmed, c)
    case ProvisionConfirmed(c) => Naming(Tag.ProvisionConfirmed, c)
    case DataPlaneStateChange(c, id, timestamp, active, version, consistent) =>
      Parent(Typed(Tag.DataPlaneStateChange),
             NotificationFields(c, id, timestamp)
             + [Parent(Plain(Tag.DataPlaneStatus),
                       [TextElement(Tag.Active, Flag(active)), TextElement(Tag.Version, Decimal(version)),
                        TextElement(Tag.VersionConsistent, Flag(consistent))])])
    case ErrorEvent(c, id, timestamp, event, originatingId, originatingNsa, cause) =>
      Parent(Typed(Tag.ErrorEvent),
             NotificationFields(c, id, timestamp) + [TextElement(Tag.Event, event)]
             + OriginFields(originatingId, originatingNsa) + CauseFields(cause))
    case ReleaseConfirmed(c) => Naming(Tag.ReleaseConfirmed, c)
    case TerminateConfirmed(c) => Naming(Tag.TerminateConfirmed, c)
    case SoapFault(faultString, cause) =>
      Parent(Soap(Tag.Fault),
             [TextElement(Tag.FaultString, faultString), Parent(Plain(Tag.Detail), CauseFields(cause))])
  }

  // ---------------------------------------------------------------- what survives

  // A variable with neither a type nor a value is dropped on reading.
  predicate NoBlank(exc: ServiceException)
    decreases exc, 1
  {
    (forall v :: v in exc.variables ==> v.kind != "" || v.value != "") && NoBlanks(exc.childExceptions)
  }

  predicate NoBlanks(excs: seq<ServiceException>)
    decreases excs, 0
  {
    excs != [] ==> NoBlank(excs[0]) && NoBlanks(excs[1..])
  }

  predicate Faithful(m: NsiMessage) {
    && !m.QueryRecursiveResult?
    && (CauseOf(m).Some? ==> NoBlank(CauseOf(m).value))
    && (m.SoapFault? ==> m.faultString != "")
  }

  // ---------------------------------------------------------------- reading fields

  lemma FieldAt(e: Xml, name: Name, k: nat)
    requires k < |e.children| && e.children[k].name == name
    requires forall i :: 0 <= i < k ==> e.children[i].name != name
    ensures Find(e, name) == Some(e.children[k]) && FindText(e, name) == Some(e.children[k].text)
  {
    FindsFirst(e.children, name, k);
  }

  lemma FieldMissing(e: Xml, name: Name)
    requires forall c :: c in e.children ==> c.name != name
    ensures Find(e, name) == None && FindText(e, name) == None
  {
    EnvelopeProofs.NoneFound(e.children, name);
  }

  // ---------------------------------------------------------------- exceptions

  lemma {:induction false} VariablesReadBackIff(variables: seq<Variable>)
    ensures |VariablesOf(EncodeVariables(variables))| <= |variables|
    ensures VariablesOf(EncodeVariables(variables)) == variables
       <==> forall v :: v in variables ==> v.kind != "" || v.value != ""
    ensures forall e :: e in EncodeVariables(variables) ==> e.name == Plain(Tag.Variable)
    decreases |variables|
  {
    if variables != [] {
      var first := EncodeVariables(variables)[0];
      VariablesReadBackIff(variables[1..]);
      FieldAt(first, Plain(Tag.Value), 0);
      assert EncodeVariables(variables)[1..] == EncodeVariables(variables[1..]);
      assert variables == [variables[0]] + variables[1..];
    }
  }

  lemma {:induction false} OthersAreSkipped(before: seq<Xml>, rest: seq<Xml>)
    requires forall e :: e in before ==> e.name != CHILD
    ensures ParseChildren(before + rest) == ParseChildren(rest)
    decreases |before|
  {
    if before == [] {
      assert before + rest == rest;
    } else {
      assert before[0] in before && forall e :: e in before[1..] ==> e in before;
      OthersAreSkipped(before[1..], rest);
      assert (before + rest)[0] == before[0] && (before + rest)[1..] == before[1..] + rest;
    }
  }

  lemma {:induction false} ChildrenAreNamed(excs: seq<ServiceException>)
    ensures forall e :: e in EncodeChildren(excs) ==> e.name == CHILD
    decreases |excs|
  {
    if excs != [] {
      ChildrenAreNamed(excs[1..]);
    }
  }

  // An exception reads back, whole and in order, iff no variable anywhere in it is blank.
  lemma {:induction false} ExceptionReadsBackIff(name: Name, exc: ServiceException)
    ensures var parsed := ParseServiceException(EncodeException(name, exc));
            parsed.Some? && (parsed == Some(exc) <==> NoBlank(exc))
    decreases exc, 1
  {
    hide VariablesOf, NoBlanks, OwnFields;
    var e := EncodeException(name, exc);
    ChildrenReadBackIff(exc);
    OwnFieldsPlaced(exc, []);
    OthersAreSkipped(OwnFields(exc), EncodeChildren(exc.childExceptions));
    OwnFieldsReadBack(e, exc);
    VariablesFoundIff(e, exc);
  }

  // The children of an exception, by position and by name.
  lemma OwnFieldsPlaced(exc: ServiceException, rest: seq<Xml>)
    ensures var es := OwnFields(exc) + rest; var k := if exc.connectionId.Some? then 4 else 3;
      && |es| >= 3 && es[0] == TextElement(Tag.NsaId, exc.nsaId) && es[1] == TextElement(Tag.ErrorId, exc.errorId)
      && es[2] == TextElement(Tag.Text, exc.text)
      && (exc.connectionId.Some? ==> |es| > 3 && es[3] == TextElement(Tag.ConnectionId, exc.connectionId.value))
      && (exc.variables != [] ==> |es| > k && es[k] == Parent(Plain(Tag.Variables), EncodeVariables(exc.variables)))
    ensures forall e :: e in OwnFields(exc) ==>
      && e.name != CHILD && (exc.connectionId.None? ==> e.name != Plain(Tag.ConnectionId))
      && (exc.variables == [] ==> e.name != Plain(Tag.Variables))
  {
    hide EncodeVariables;
  }

  lemma OwnFieldsReadBack(e: Xml, exc: ServiceException)
    requires e.children == OwnFields(exc) + EncodeChildren(exc.childExceptions)
    ensures FindText(e, Plain(Tag.NsaId)) == Some(exc.nsaId) && FindText(e, Plain(Tag.ErrorId)) == Some(exc.errorId)
    ensures FindText(e, Plain(Tag.Text)) == Some(exc.text)
    ensures FindText(e, Plain(Tag.ConnectionId)) == exc.connectionId
  {
    hide VariablesOf, NoBlank, NoBlanks, EncodeChildren, EncodeVariables, OwnFields, FindAll;
    OwnFieldsPlaced(exc, EncodeChildren(exc.childExceptions));
    ChildrenAreNamed(exc.childExceptions);
    FieldAt(e, Plain(Tag.NsaId), 0);
    FieldAt(e, Plain(Tag.ErrorId), 1);
    FieldAt(e, Plain(Tag.Text), 2);
    if exc.connectionId.Some? {
      FieldAt(e, Plain(Tag.ConnectionId), 3);
    } else {
      FieldMissing(e, Plain(Tag.ConnectionId));
    }
  }

  lemma VariablesFoundIff(e: Xml, exc: ServiceException)
    requires e.children == OwnFields(exc) + EncodeChildren(exc.childExceptions)
    ensures ParseVariables(e) == exc.variables <==> forall v :: v in exc.variables ==> v.kind != "" || v.value != ""
  {
    hide VariablesOf, NoBlanks, EncodeChildren, EncodeVariables, OwnFields, FindAll;
    OwnFieldsPlaced(exc, EncodeChildren(exc.childExceptions));
    ChildrenAreNamed(exc.childExceptions);
    if exc.variables == [] {
      FieldMissing(e, Plain(Tag.Variables));
    } else {
      VariablesReadBackIff(exc.variables);
      FieldAt(e, Plain(Tag.Variables), if exc.connectionId.Some? then 4 else 3);
      EnvelopeProofs.AllFound(EncodeVariables(exc.variables), Plain(Tag.Variable));
    }
  }

  lemma {:induction false} ChildrenReadBackIff(exc: ServiceException)
    ensures var parsed := ParseChildren(EncodeChildren(exc.childExceptions));
            parsed.Some? && (parsed == Some(exc.childExceptions) <==> NoBlanks(exc.childExceptions))
    decreases exc, 0
  {
    AllReadBackIff(exc.childExceptions);
  }

  lemma {:induction false} AllReadBackIff(excs: seq<ServiceException>)
    ensures var parsed := ParseChildren(EncodeChildren(excs));
            parsed.Some? && (parsed == Some(excs) <==> NoBlanks(excs))
    decreases excs, 2
  {
    if excs != [] {
      ExceptionReadsBackIff(CHILD, excs[0]);
      AllReadBackIff(excs[1..]);
      assert EncodeChildren(excs)[1..] == EncodeChildren(excs[1..]);
      assert excs == [excs[0]] + excs[1..];
    }
  }

  // ---------------------------------------------------------------- messages

  // int() reads what the sender wrote.
  ghost predicate ReadsDecimals(read: Readers) {
    forall n :: read.toInt(Decimal(n)) == Some(n)
  }

  // What the parser makes of the message on its own.
  lemma NamingReadsBack(tag: Tag, c: string)
    ensures FindText(Naming(tag, c), Plain(Tag.ConnectionId)) == Some(c)
  {
    FieldAt(Naming(tag, c), Plain(Tag.ConnectionId), 0);
  }

  lemma FailureReadsBackIff(tag: Tag, c: string, exc: ServiceException, make: (string, ServiceException) -> NsiMessage)
    ensures exists parsed ::
      ParseFailed(Failure(tag, c, exc), make) == Some(make(c, parsed)) && (parsed == exc <==> NoBlank(exc))
  {
    hide ParseServiceException, EncodeException, NoBlank;
    var e := Failure(tag, c, exc);
    ExceptionIsNamed(EXCEPTION, exc);
    FieldAt(e, Plain(Tag.ConnectionId), 0);
    FieldAt(e, EXCEPTION, 1);
    ExceptionReadsBackIff(EXCEPTION, exc);
    var parsed := ParseServiceException(EncodeException(EXCEPTION, exc)).value;
    assert ParseFailed(e, make) == Some(make(c, parsed));
  }

  lemma ExceptionIsNamed(name: Name, exc: ServiceException)
    ensures EncodeException(name, exc).name == name
  {
  }

  lemma ReserveConfirmedReadsBack(read: Readers, m: NsiMessage)
    requires ReadsDecimals(read) && m.ReserveConfirmed?
    ensures ParseReserveConfirmed(read, Encode(m)) == Some(m)
  {
    hide FindAll, Find, FindText, Decimal;
    var e := Encode(m);
    var criteria := e.children[1];
    var p2ps := criteria.children[1];
    FieldAt(e, Plain(Tag.ConnectionId), 0);
    FieldAt(e, Plain(Tag.Criteria), 1);
    FieldAt(criteria, Plain(Tag.ServiceType), 0);
    FieldAt(criteria, P2PS, 1);
    FieldAt(p2ps, Plain(Tag.Capacity), 0);
    FieldAt(p2ps, Plain(Tag.SourceStp), 1);
    FieldAt(p2ps, Plain(Tag.DestStp), 2);
  }

  lemma ReserveTimeoutReadsBack(read: Readers, m: NsiMessage)
    requires ReadsDecimals(read) && m.ReserveTimeout?
    ensures ParseReserveTimeout(read, Encode(m)) == Some(m)
  {
    hide FindAll, Find, FindText, Decimal;
    var e := Encode(m);
    assert e.children == [TextElement(Tag.ConnectionId, m.connectionId),
                          TextElement(Tag.NotificationId, Decimal(m.notificationId)),
                          TextElement(Tag.TimeStamp, m.timestamp),
                          TextElement(Tag.TimeoutValue, Decimal(m.timeoutValue)),
                          TextElement(Tag.OriginatingConnectionId, m.originatingConnectionId),
                          TextElement(Tag.OriginatingNsa, m.originatingNsa)];
    FieldAt(e, Plain(Tag.ConnectionId), 0);
    FieldAt(e, Plain(Tag.NotificationId), 1);
    FieldAt(e, Plain(Tag.TimeStamp), 2);
    FieldAt(e, Plain(Tag.TimeoutValue), 3);
    FieldAt(e, Plain(Tag.OriginatingConnectionId), 4);
    FieldAt(e, Plain(Tag.OriginatingNsa), 5);
  }

  lemma DataPlaneStateChangeReadsBack(read: Readers, m: NsiMessage)
    requires ReadsDecimals(read) && m.DataPlaneStateChange?
    ensures ParseDataPlaneStateChange(read, Encode(m)) == Some(m)
  {
    hide FindAll, Find, FindText, Decimal;
    var e := Encode(m);
    var dps := Parent(Plain(Tag.DataPlaneStatus),
                      [TextElement(Tag.Active, Flag(m.active)), TextElement(Tag.Version, Decimal(m.version)),
                       TextElement(Tag.VersionConsistent, Flag(m.versionConsistent))]);
    assert e.children == [TextElement(Tag.ConnectionId, m.connectionId),
                          TextElement(Tag.NotificationId, Decimal(m.notificationId)),
                          TextElement(Tag.TimeStamp, m.timestamp), dps];
    FieldAt(e, Plain(Tag.ConnectionId), 0);
    FieldAt(e, Plain(Tag.NotificationId), 1);
    FieldAt(e, Plain(Tag.TimeStamp), 2);
    FieldAt(e, Plain(Tag.DataPlaneStatus), 3);
    FieldAt(dps, Plain(Tag.Active), 0);
    FieldAt(dps, Plain(Tag.Version), 1);
    FieldAt(dps, Plain(Tag.VersionConsistent), 2);
    assert |Flag(true)| != |Flag(false)|;
  }

  lemma ErrorEventFields(e: Xml, m: NsiMessage)
    requires m.ErrorEvent? && e == Encode(m)
    ensures FindText(e, Plain(Tag.ConnectionId)) == Some(m.connectionId)
    ensures FindText(e, Plain(Tag.NotificationId)) == Some(Decimal(m.notificationId))
    ensures FindText(e, Plain(Tag.TimeStamp)) == Some(m.timestamp) && FindText(e, Plain(Tag.Event)) == Some(m.event)
    ensures FindText(e, Plain(Tag.OriginatingConnectionId)) == Some(m.originatingConnectionId)
    ensures FindText(e, Plain(Tag.OriginatingNsa)) == Some(m.originatingNsa)
    ensures Find(e, EXCEPTION) == if m.cause.None? then None else Some(EncodeException(EXCEPTION, m.cause.value))
  {
    hide EncodeException, Decimal, FindAll, Find, FindText;
    assert e.children == [TextElement(Tag.ConnectionId, m.connectionId),
                          TextElement(Tag.NotificationId, Decimal(m.notificationId)),
                          TextElement(Tag.TimeStamp, m.timestamp), TextElement(Tag.Event, m.event),
                          TextElement(Tag.OriginatingConnectionId, m.originatingConnectionId),
                          TextElement(Tag.OriginatingNsa, m.originatingNsa)] + CauseFields(m.cause);
    FieldAt(e, Plain(Tag.ConnectionId), 0);
    FieldAt(e, Plain(Tag.NotificationId), 1);
    FieldAt(e, Plain(Tag.TimeStamp), 2);
    FieldAt(e, Plain(Tag.Event), 3);
    FieldAt(e, Plain(Tag.OriginatingConnectionId), 4);
    FieldAt(e, Plain(Tag.OriginatingNsa), 5);
    if m.cause.Some? {
      ExceptionIsNamed(EXCEPTION, m.cause.value);
      FieldAt(e, EXCEPTION, 6);
    } else {
      FieldMissing(e, EXCEPTION);
    }
  }

  lemma ErrorEventReadsBackIff(read: Readers, m: NsiMessage)
    requires ReadsDecimals(read) && m.ErrorEvent?
    ensures ParseErrorEvent(read, Encode(m)) == Some(m) <==> Faithful(m)
  {
    hide EncodeException, Decimal, ParseServiceException, Encode, FindText, Find, NoBlank;
    ErrorEventFields(Encode(m), m);
    if m.cause.Some? {
      ExceptionReadsBackIff(EXCEPTION, m.cause.value);
    }
  }

  lemma FaultCause(e: Xml, m: NsiMessage)
    requires m.SoapFault? && e == Encode(m)
    ensures TextOr(e, Plain(Tag.FaultString), "") == m.faultString
    ensures FaultException(e) == if m.cause.None? then None else Some(EncodeException(EXCEPTION, m.cause.value))
  {
    hide EncodeException;
    FieldAt(e, Plain(Tag.FaultString), 0);
    FieldAt(e, Plain(Tag.Detail), 1);
    var detail := e.children[1];
    if m.cause.Some? {
      ExceptionIsNamed(EXCEPTION, m.cause.value);
      assert detail.children == [EncodeException(EXCEPTION, m.cause.value)];
      assert DescendantsOfAll(detail.children)[0] == EncodeException(EXCEPTION, m.cause.value);
    } else {
      assert DescendantsOfAll(detail.children) == [];
    }
  }

  lemma FaultReadsBackIff(m: NsiMessage)
    requires m.SoapFault?
    ensures ParseFault(Encode(m)) == Some(m) <==> Faithful(m)
  {
    hide EncodeException, ParseServiceException, Encode, TextOr, FaultException, NoBlank;
    FaultCause(Encode(m), m);
    assert |NO_FAULT_STRING| > 0;
    if m.cause.Some? {
      ExceptionReadsBackIff(EXCEPTION, m.cause.value);
    }
  }

  // It only names its connection, or not even that.
  predicate Brief(m: NsiMessage) {
    || m.ReserveResponse? || m.Acknowledgment? || m.ReserveCommitConfirmed? || m.ProvisionConfirmed?
    || m.ReleaseConfirmed? || m.TerminateConfirmed?
  }

  lemma BriefReadsBack(read: Readers, m: NsiMessage)
    requires Brief(m)
    ensures ParseOperation(read, Encode(m)) == Some(m)
  {
    hide FindText;
    match m
    case ReserveResponse(c) => NamingReadsBack(Tag.ReserveResponse, c);
    case Acknowledgment =>
    case ReserveCommitConfirmed(c) => NamingReadsBack(Tag.ReserveCommitConfirmed, c);
    case ProvisionConfirmed(c) => NamingReadsBack(Tag.ProvisionConfirmed, c);
    case ReleaseConfirmed(c) => NamingReadsBack(Tag.ReleaseConfirmed, c);
    case TerminateConfirmed(c) => NamingReadsBack(Tag.TerminateConfirmed, c);
  }

  lemma LongReadsBackIff(read: Readers, m: NsiMessage)
    requires ReadsDecimals(read) && !m.QueryRecursiveResult? && !Brief(m)
    ensures ParseOperation(read, Encode(m)) == Some(m) <==> Faithful(m)
  {
    hide ParseErrorEvent, ParseFault, ParseDataPlaneStateChange, ParseReserveTimeout, ParseReserveConfirmed,
         ParseNaming, ParseFailed, NoBlank, EncodeException, Decimal, NotificationFields, OriginFields, CauseFields;
    match m
    case ReserveConfirmed(_, _, _, _, _, _) => ReserveConfirmedReadsBack(read, m);
    case ReserveFailed(c, exc) =>
      FailureReadsBackIff(Tag.ReserveFailed, c, exc, (c, exc) => NsiMessage.ReserveFailed(c, exc));
    case ReserveTimeout(_, _, _, _, _, _) => ReserveTimeoutReadsBack(read, m);
    case ReserveCommitFailed(c, exc) =>
      FailureReadsBackIff(Tag.ReserveCommitFailed, c, exc, (c, exc) => NsiMessage.ReserveCommitFailed(c, exc));
    case DataPlaneStateChange(_, _, _, _, _, _) => DataPlaneStateChangeReadsBack(read, m);
    case ErrorEvent(_, _, _, _, _, _, _) => ErrorEventReadsBackIff(read, m);
    case SoapFault(_, _) => FaultReadsBackIff(m);
  }

  // The parser inverts the sender: every message reads back, unless it carries a blank variable or an
  // empty fault text, and those never do.
  lemma MessageReadsBackIff(read: Readers, h: NsiHeader, m: NsiMessage)
    requires ReadsDecimals(read) && !m.QueryRecursiveResult?
    ensures Parse(read, Envelope(h, REQUESTER_PROTOCOL, [Encode(m)])) == Some(m) <==> Faithful(m)
  {
    hide ParseOperation, Encode, Faithful;
    EnvelopeProofs.OperationOfEnvelope(h, REQUESTER_PROTOCOL, Encode(m));
    if Brief(m) {
      BriefReadsBack(read, m);
      BriefIsFaithful(m);
    } else {
      LongReadsBackIff(read, m);
    }
  }

  lemma BriefIsFaithful(m: NsiMessage)
    requires Brief(m)
    ensures Faithful(m)
  {
  }
}
