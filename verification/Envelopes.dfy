/** The SOAP messages the proxy sends, built in place, and what is read back out of them. */
module Envelopes {
  import opened Messages
  import opened ExceptionParsing
  import opened MessageParsing
  import opened Decimals
  import opened Documents
  import opened Namespaces
  import opened Xml

  const PROVIDER_PROTOCOL := "application/vnd.ogf.nsi.cs.v2.provider+soap"
  const REQUESTER_PROTOCOL := "application/vnd.ogf.nsi.cs.v2.requester+soap"

  datatype NsiHeader = NsiHeader(
    requesterNsa: string,
    providerNsa: string,
    replyTo: Option<string>,
    correlationId: string)

  function Soap(tag: Tag): Name {
    Name(SoapEnv, tag)
  }

  function Typed(tag: Tag): Name {
    Name(NsiTypes, tag)
  }

  function Parent(name: Name, children: seq<Xml>): Xml {
    Element(name, map[], "", children)
  }

  // ---------------------------------------------------------------- what is built

  function NsiHeaderElement(h: NsiHeader, protocol: string): Xml {
    Parent(Name(NsiHeaders, Tag.NsiHeader),
           [TextElement(Tag.ProtocolVersion, protocol), TextElement(Tag.CorrelationId, h.correlationId),
            TextElement(Tag.RequesterNsa, h.requesterNsa), TextElement(Tag.ProviderNsa, h.providerNsa)]
           + (if h.replyTo.Some? then [TextElement(Tag.ReplyTo, h.replyTo.value)] else []))
  }

  function Envelope(h: NsiHeader, protocol: string, body: seq<Xml>): Xml {
    Parent(Soap(Tag.Envelope),
           [Parent(Soap(Tag.Header), [NsiHeaderElement(h, protocol)]), Parent(Soap(Tag.Body), body)])
  }

  function Optionally(tag: Tag, text: Option<string>): seq<Xml> {
    if text.Some? then [TextElement(tag, text.value)] else []
  }

  function FaultEnvelope(faultString: string, faultCode: string): Xml {
    Parent(Soap(Tag.Envelope),
           [Parent(Soap(Tag.Body),
                   [Parent(Soap(Tag.Fault),
                           [TextElement(Tag.FaultCode, faultCode), TextElement(Tag.FaultString, faultString)])])])
  }

  function OrderedStp(order: nat, stp: string): Xml {
    Element(Plain(Tag.OrderedStp), map["order" := Decimal(order)], "", [TextElement(Tag.Stp, stp)])
  }

  function EroElement(ero: seq<string>): Xml {
    Parent(Plain(Tag.Ero), seq(|ero|, i requires 0 <= i < |ero| => OrderedStp(i, ero[i])))
  }

  datatype ReserveRequest = ReserveRequest(
    globalReservationId: Option<string>,
    description: string,
    capacity: int,
    sourceStp: string,
    destStp: string,
    startTime: string,
    endTime: string,
    serviceType: string,
    ero: Option<seq<string>>)
  {
    predicate Routed() {
      ero.Some? && ero.value != []
    }
  }

  function P2psElement(r: ReserveRequest): Xml {
    Parent(P2PS,
           [TextElement(Tag.Capacity, Decimal(r.capacity)), TextElement(Tag.Directionality, "Bidirectional"),
            TextElement(Tag.SymmetricPath, "true"), TextElement(Tag.SourceStp, r.sourceStp),
            TextElement(Tag.DestStp, r.destStp)]
           + (if r.Routed() then [EroElement(r.ero.value)] else []))
  }

  function ScheduleElement(r: ReserveRequest): Xml {
    Parent(Plain(Tag.Schedule), [TextElement(Tag.StartTime, r.startTime), TextElement(Tag.EndTime, r.endTime)])
  }

  function CriteriaElement(r: ReserveRequest): Xml {
    Element(Plain(Tag.Criteria), map["version" := "1"], "",
            [ScheduleElement(r), TextElement(Tag.ServiceType, r.serviceType), P2psElement(r)])
  }

  function ReserveElement(r: ReserveRequest): Xml {
    Parent(Typed(Tag.Reserve),
           Optionally(Tag.GlobalReservationId, r.globalReservationId)
           + [TextElement(Tag.Description, r.description), CriteriaElement(r)])
  }

  // ---------------------------------------------------------------- building it

  method FillHeader(doc: Document, soapHeader: Path, h: NsiHeader, protocol: string)
    requires Within(doc.root, soapHeader)
    modifies doc
    ensures doc.root == Appended(old(doc.root), soapHeader, NsiHeaderElement(h, protocol))
  {
    ghost var t := doc.root;
    ghost var x := Empty(Name(NsiHeaders, Tag.NsiHeader));
    var nsi := doc.SubElement(soapHeader, Name(NsiHeaders, Tag.NsiHeader), map[]);
    x := Adding(t, soapHeader, x, TextElement(Tag.ProtocolVersion, protocol));
    doc.AddText(nsi, Tag.ProtocolVersion, protocol);
    x := Adding(t, soapHeader, x, TextElement(Tag.CorrelationId, h.correlationId));
    doc.AddText(nsi, Tag.CorrelationId, h.correlationId);
    x := Adding(t, soapHeader, x, TextElement(Tag.RequesterNsa, h.requesterNsa));
    doc.AddText(nsi, Tag.RequesterNsa, h.requesterNsa);
    x := Adding(t, soapHeader, x, TextElement(Tag.ProviderNsa, h.providerNsa));
    doc.AddText(nsi, Tag.ProviderNsa, h.providerNsa);
    if h.replyTo.Some? {
      x := Adding(t, soapHeader, x, TextElement(Tag.ReplyTo, h.replyTo.value));
      doc.AddText(nsi, Tag.ReplyTo, h.replyTo.value);
    }
    assert x == NsiHeaderElement(h, protocol);
  }

  // x is the element last appended at p; y is about to be appended to it.
  lemma Adding(t: Xml, p: Path, x: Xml, y: Xml) returns (grown: Xml)
    requires Within(t, p)
    ensures grown == Grown(x, y)
    ensures var r := Appended(t, p, x);
            var c := NextChild(t, p);
            Within(r, c) && Appended(r, c, y) == Appended(t, p, grown)
    ensures Within(Appended(t, p, grown), NextChild(t, p))
  {
    grown := Grown(x, y);
    GrowNew(t, p, x, y);
    GrowNew(t, p, grown, y);
  }

  method BuildEnvelope(h: NsiHeader, protocol: string) returns (doc: Document, body: Path)
    ensures fresh(doc) && doc.root == Envelope(h, protocol, [])
    ensures body == [1] && Within(doc.root, body)
  {
    doc := new Document(Soap(Tag.Envelope));
    var soapHeader := doc.SubElement([], Soap(Tag.Header), map[]);
    ghost var t := Empty(Soap(Tag.Envelope));
    assert soapHeader == NextChild(t, []);
    FillHeader(doc, soapHeader, h, protocol);
    ghost var x := Adding(t, [], Empty(Soap(Tag.Header)), NsiHeaderElement(h, protocol));
    assert doc.root == Grown(t, x);
    body := doc.SubElement([], Soap(Tag.Body), map[]);
    assert x == Parent(Soap(Tag.Header), [NsiHeaderElement(h, protocol)]);
    assert doc.root.children == Envelope(h, protocol, []).children;
  }

  lemma IntoBody(h: NsiHeader, protocol: string, op: Xml)
    ensures Within(Envelope(h, protocol, []), [1])
    ensures Appended(Envelope(h, protocol, []), [1], op) == Envelope(h, protocol, [op])
  {
    var t := Envelope(h, protocol, []);
    var body := Empty(Soap(Tag.Body));
    assert t.children[1] == body && [1][1..] == [];
    assert At(t, [1]) == body;
    assert Grown(body, op) == Parent(Soap(Tag.Body), [op]);
    assert t.children[1 := Parent(Soap(Tag.Body), [op])] == Envelope(h, protocol, [op]).children;
  }

  method BuildAcknowledgment(h: NsiHeader) returns (envelope: Xml)
    ensures envelope == Envelope(h, "application/vnd.ogf.nsi.cs.v2.requester+soap",
                                 [Empty(Name(NsiTypes, Tag.Acknowledgment))])
  {
    var doc, body := BuildEnvelope(h, REQUESTER_PROTOCOL);
    IntoBody(h, REQUESTER_PROTOCOL, Empty(Typed(Tag.Acknowledgment)));
    var _ := doc.SubElement(body, Typed(Tag.Acknowledgment), map[]);
    envelope := doc.root;
  }

  method BuildSoapFault(faultString: string, faultCode: string) returns (envelope: Xml)
    ensures envelope == FaultEnvelope(faultString, faultCode)
  {
    var doc := new Document(Soap(Tag.Envelope));
    ghost var t := doc.root;
    var body := doc.SubElement([], Soap(Tag.Body), map[]);
    ghost var t1 := doc.root;
    var fault := doc.SubElement(body, Soap(Tag.Fault), map[]);
    ghost var x := Adding(t1, body, Empty(Soap(Tag.Fault)), TextElement(Tag.FaultCode, faultCode));
    doc.AddText(fault, Tag.FaultCode, faultCode);
    x := Adding(t1, body, x, TextElement(Tag.FaultString, faultString));
    doc.AddText(fault, Tag.FaultString, faultString);
    ghost var y := Adding(t, [], Empty(Soap(Tag.Body)), x);
    assert doc.root == Grown(t, y);
    assert x.children == FaultEnvelope(faultString, faultCode).children[0].children[0].children;
    assert y == FaultEnvelope(faultString, faultCode).children[0];
    envelope := doc.root;
  }

  // reserveCommit, provision, release and terminate; with no connectionId, an unfiltered query.
  method BuildConnectionIdOperation(h: NsiHeader, tag: Tag, connectionId: Option<string>) returns (envelope: Xml)
    ensures envelope
         == Envelope(h, PROVIDER_PROTOCOL, [Parent(Typed(tag), Optionally(Tag.ConnectionId, connectionId))])
  {
    var doc, body := BuildEnvelope(h, PROVIDER_PROTOCOL);
    ghost var t := doc.root;
    ghost var x := Empty(Typed(tag));
    var op := doc.SubElement(body, Typed(tag), map[]);
    if connectionId.Some? {
      x := Adding(t, body, x, TextElement(Tag.ConnectionId, connectionId.value));
      doc.AddText(op, Tag.ConnectionId, connectionId.value);
    }
    assert x.children == Optionally(Tag.ConnectionId, connectionId);
    IntoBody(h, PROVIDER_PROTOCOL, x);
    envelope := doc.root;
  }

  method BuildQuerySummarySync(h: NsiHeader, connectionId: Option<string>, globalReservationId: Option<string>)
    returns (envelope: Xml)
    ensures envelope
         == Envelope(h, PROVIDER_PROTOCOL,
                     [Parent(Typed(Tag.QuerySummarySync),
                             Optionally(Tag.ConnectionId, connectionId)
                             + Optionally(Tag.GlobalReservationId, globalReservationId))])
  {
    var doc, body := BuildEnvelope(h, PROVIDER_PROTOCOL);
    ghost var t := doc.root;
    ghost var x := Empty(Typed(Tag.QuerySummarySync));
    var op := doc.SubElement(body, Typed(Tag.QuerySummarySync), map[]);
    if connectionId.Some? {
      x := Adding(t, body, x, TextElement(Tag.ConnectionId, connectionId.value));
      doc.AddText(op, Tag.ConnectionId, connectionId.value);
    }
    if globalReservationId.Some? {
      x := Adding(t, body, x, TextElement(Tag.GlobalReservationId, globalReservationId.value));
      doc.AddText(op, Tag.GlobalReservationId, globalReservationId.value);
    }
    assert x.children == Optionally(Tag.ConnectionId, connectionId)
                         + Optionally(Tag.GlobalReservationId, globalReservationId);
    IntoBody(h, PROVIDER_PROTOCOL, x);
    envelope := doc.root;
  }

  method BuildQueryNotificationSync(h: NsiHeader, connectionId: string) returns (envelope: Xml)
    ensures envelope
         == Envelope(h, PROVIDER_PROTOCOL,
                     [Parent(Typed(Tag.QueryNotificationSync),
                             [TextElement(Tag.ConnectionId, connectionId), TextElement(Tag.StartNotificationId, "1"),
                              TextElement(Tag.EndNotificationId, "2147483647")])])
  {
    var doc, body := BuildEnvelope(h, PROVIDER_PROTOCOL);
    ghost var t := doc.root;
    ghost var x := Empty(Typed(Tag.QueryNotificationSync));
    var op := doc.SubElement(body, Typed(Tag.QueryNotificationSync), map[]);
    x := Adding(t, body, x, TextElement(Tag.ConnectionId, connectionId));
    doc.AddText(op, Tag.ConnectionId, connectionId);
    x := Adding(t, body, x, TextElement(Tag.StartNotificationId, "1"));
    doc.AddText(op, Tag.StartNotificationId, "1");
    x := Adding(t, body, x, TextElement(Tag.EndNotificationId, "2147483647"));
    doc.AddText(op, Tag.EndNotificationId, "2147483647");
    assert x.children == [TextElement(Tag.ConnectionId, connectionId), TextElement(Tag.StartNotificationId, "1"),
                          TextElement(Tag.EndNotificationId, "2147483647")];
    IntoBody(h, PROVIDER_PROTOCOL, x);
    envelope := doc.root;
  }

  // ---------------------------------------------------------------- the reserve request

  method AddEro(doc: Document, p2ps: Path, ero: seq<string>)
    requires Within(doc.root, p2ps)
    modifies doc
    ensures doc.root == Appended(old(doc.root), p2ps, EroElement(ero))
  {
    ghost var t := doc.root;
    var eroPath := doc.SubElement(p2ps, Plain(Tag.Ero), map[]);
    assert EroElement(ero[..0]) == Empty(Plain(Tag.Ero));
    for order := 0 to |ero|
      invariant doc.root == Appended(t, p2ps, EroElement(ero[..order]))
    {
      ghost var before := doc.root;
      ghost var x := EroElement(ero[..order]);
      ghost var entry := Element(Plain(Tag.OrderedStp), map["order" := Decimal(order)], "", []);
      ghost var grown := Adding(t, p2ps, x, entry);
      var ordered := doc.SubElement(eroPath, Plain(Tag.OrderedStp), map["order" := Decimal(order)]);
      ghost var whole := Adding(before, eroPath, entry, TextElement(Tag.Stp, ero[order]));
      doc.AddText(ordered, Tag.Stp, ero[order]);
      assert whole == OrderedStp(order, ero[order]);
      grown := Adding(t, p2ps, x, whole);
      assert grown == EroElement(ero[..order + 1]);
    }
    assert ero[..|ero|] == ero;
  }

  method AddP2ps(doc: Document, criteria: Path, r: ReserveRequest)
    requires Within(doc.root, criteria)
    modifies doc
    ensures doc.root == Appended(old(doc.root), criteria, P2psElement(r))
  {
    ghost var t := doc.root;
    ghost var x := Empty(P2PS);
    var p2ps := doc.SubElement(criteria, P2PS, map[]);
    x := Adding(t, criteria, x, TextElement(Tag.Capacity, Decimal(r.capacity)));
    doc.AddText(p2ps, Tag.Capacity, Decimal(r.capacity));
    x := Adding(t, criteria, x, TextElement(Tag.Directionality, "Bidirectional"));
    doc.AddText(p2ps, Tag.Directionality, "Bidirectional");
    x := Adding(t, criteria, x, TextElement(Tag.SymmetricPath, "true"));
    doc.AddText(p2ps, Tag.SymmetricPath, "true");
    x := Adding(t, criteria, x, TextElement(Tag.SourceStp, r.sourceStp));
    doc.AddText(p2ps, Tag.SourceStp, r.sourceStp);
    x := Adding(t, criteria, x, TextElement(Tag.DestStp, r.destStp));
    doc.AddText(p2ps, Tag.DestStp, r.destStp);
    if r.Routed() {
      x := Adding(t, criteria, x, EroElement(r.ero.value));
      AddEro(doc, p2ps, r.ero.value);
    }
    assert x == P2psElement(r);
  }

  method AddCriteria(doc: Document, reserve: Path, r: ReserveRequest)
    requires Within(doc.root, reserve)
    modifies doc
    ensures doc.root == Appended(old(doc.root), reserve, CriteriaElement(r))
  {
    ghost var t := doc.root;
    ghost var x := Element(Plain(Tag.Criteria), map["version" := "1"], "", []);
    var criteria := doc.SubElement(reserve, Plain(Tag.Criteria), map["version" := "1"]);
    ghost var t1 := doc.root;
    ghost var y := Empty(Plain(Tag.Schedule));
    var schedule := doc.SubElement(criteria, Plain(Tag.Schedule), map[]);
    y := Adding(t1, criteria, y, TextElement(Tag.StartTime, r.startTime));
    doc.AddText(schedule, Tag.StartTime, r.startTime);
    y := Adding(t1, criteria, y, TextElement(Tag.EndTime, r.endTime));
    doc.AddText(schedule, Tag.EndTime, r.endTime);
    assert y == ScheduleElement(r);
    x := Adding(t, reserve, x, y);
    x := Adding(t, reserve, x, TextElement(Tag.ServiceType, r.serviceType));
    doc.AddText(criteria, Tag.ServiceType, r.serviceType);
    x := Adding(t, reserve, x, P2psElement(r));
    AddP2ps(doc, criteria, r);
    assert x == CriteriaElement(r);
  }

  method BuildReserve(h: NsiHeader, r: ReserveRequest) returns (envelope: Xml)
    ensures envelope == Envelope(h, PROVIDER_PROTOCOL, [ReserveElement(r)])
  {
    var doc, body := BuildEnvelope(h, PROVIDER_PROTOCOL);
    ghost var t := doc.root;
    ghost var x := Empty(Typed(Tag.Reserve));
    var reserve := doc.SubElement(body, Typed(Tag.Reserve), map[]);
    if r.globalReservationId.Some? {
      x := Adding(t, body, x, TextElement(Tag.GlobalReservationId, r.globalReservationId.value));
      doc.AddText(reserve, Tag.GlobalReservationId, r.globalReservationId.value);
    }
    x := Adding(t, body, x, TextElement(Tag.Description, r.description));
    doc.AddText(reserve, Tag.Description, r.description);
    x := Adding(t, body, x, CriteriaElement(r));
    AddCriteria(doc, reserve, r);
    assert x == ReserveElement(r);
    IntoBody(h, PROVIDER_PROTOCOL, x);
    envelope := doc.root;
  }
}
