/** What comes back when a built message is read: its correlation id, its kind, its fields. */
module EnvelopeProofs {
  import opened Messages
  import opened MessageParsing
  import opened Decimals
  import opened Envelopes
  import opened Namespaces
  import opened Xml

  // ---------------------------------------------------------------- the correlation id

  lemma {:induction false} TextsOfLeaves(es: seq<Xml>, k: nat)
    requires forall e :: e in es ==> e.children == []
    requires k < |es| && es[k].name.tag == Tag.CorrelationId
    requires forall i :: 0 <= i < |es| && i != k ==> es[i].name.tag != Tag.CorrelationId
    ensures TextsAmong(true, es) == (if es[k].text != "" then [es[k].text] else [])
    decreases |es|
  {
    assert es[0] in es && forall e :: e in es[1..] ==> e in es;
    LeavesAreSilent();
    assert Silent(es[0]);
    if k == 0 {
      forall e | e in es[1..] ensures e.name.tag != Tag.CorrelationId {
        var i :| 0 <= i < |es[1..]| && es[1..][i] == e;
        assert es[i + 1] == e;
      }
      OtherLeavesAreSilent(true, es[1..]);
    } else {
      TextsOfLeaves(es[1..], k - 1);
    }
  }

  lemma {:induction false} OtherLeavesAreSilent(inHeader: bool, es: seq<Xml>)
    requires forall e :: e in es ==> Silent(e) && (inHeader ==> e.name.tag != Tag.CorrelationId)
    ensures TextsAmong(inHeader, es) == []
    decreases |es|
  {
    if es != [] {
      assert es[0] in es && forall e :: e in es[1..] ==> e in es;
      OtherLeavesAreSilent(inHeader, es[1..]);
    }
  }

  // No correlation id is found inside e.
  predicate Silent(e: Xml) {
    CorrelationTexts(e) == []
  }

  lemma LeavesAreSilent()
    ensures forall e: Xml :: e.children == [] ==> Silent(e)
  {
    forall e: Xml | e.children == [] ensures Silent(e) {
      assert TextsAmong(e.name.tag == Tag.NsiHeader, e.children) == [];
    }
  }

  predicate SilentBody(body: seq<Xml>) {
    forall e :: e in body ==> Silent(e)
  }

  lemma HeaderText(h: NsiHeader, protocol: string)
    ensures CorrelationTexts(NsiHeaderElement(h, protocol)) == if h.correlationId != "" then [h.correlationId] else []
  {
    TextsOfLeaves(NsiHeaderElement(h, protocol).children, 1);
  }

  lemma TextsAmongTwo(a: Xml, b: Xml)
    ensures TextsAmong(false, [a]) == CorrelationTexts(a)
    ensures TextsAmong(false, [a, b]) == CorrelationTexts(a) + CorrelationTexts(b)
  {
    assert [a][1..] == [] && [a, b][1..] == [b] && [b][1..] == [];
    assert TextsAmong(false, [b]) == CorrelationTexts(b);
  }

  lemma EnvelopeTexts(h: NsiHeader, protocol: string, body: seq<Xml>)
    ensures CorrelationTexts(Envelope(h, protocol, body))
         == (if h.correlationId != "" then [h.correlationId] else []) + TextsAmong(false, body)
  {
    var nsi := NsiHeaderElement(h, protocol);
    HeaderText(h, protocol);
    TextsAmongTwo(nsi, nsi);
    TextsAmongTwo(Parent(Soap(Tag.Header), [nsi]), Parent(Soap(Tag.Body), body));
  }

  // A non-empty correlation id reads back, whatever the body holds; an empty one is not found, and
  // then only what the body holds could be.
  lemma CorrelationIdReadsBack(h: NsiHeader, protocol: string, body: seq<Xml>)
    ensures h.correlationId != "" ==> ParseCorrelationId(Envelope(h, protocol, body)) == Some(h.correlationId)
    ensures SilentBody(body) ==>
              (ParseCorrelationId(Envelope(h, protocol, body)) == Some(h.correlationId) <==> h.correlationId != "")
  {
    EnvelopeTexts(h, protocol, body);
    if SilentBody(body) {
      OtherLeavesAreSilent(false, body);
    }
  }

  // A correlation id that was read is never empty, so the answer to any callback that could be read
  // parses as an acknowledgment and carries that callback's id back.
  lemma AcknowledgmentEchoesCallback(read: Readers, callback: Xml, h: NsiHeader)
    requires ParseCorrelationId(callback) == Some(h.correlationId)
    ensures var answer := Envelope(h, REQUESTER_PROTOCOL, [Empty(Typed(Tag.Acknowledgment))]);
      && Parse(read, answer) == Some(NsiMessage.Acknowledgment)
      && ParseCorrelationId(answer) == ParseCorrelationId(callback)
  {
    hide CorrelationTexts, TextsAmong, FindAll, Envelope;
    TextsAreNotEmpty(callback);
    assert h.correlationId in CorrelationTexts(callback);
    CorrelationIdReadsBack(h, REQUESTER_PROTOCOL, [Empty(Typed(Tag.Acknowledgment))]);
    OperationOfEnvelope(h, REQUESTER_PROTOCOL, Empty(Typed(Tag.Acknowledgment)));
  }

  lemma {:induction false} TextsAreNotEmpty(e: Xml)
    ensures "" !in CorrelationTexts(e)
    decreases e, 1
  {
    TextsAmongAreNotEmpty(e.name.tag == Tag.NsiHeader, e.children);
  }

  lemma {:induction false} TextsAmongAreNotEmpty(inHeader: bool, es: seq<Xml>)
    ensures "" !in TextsAmong(inHeader, es)
    decreases es, 0
  {
    if es != [] {
      TextsAreNotEmpty(es[0]);
      TextsAmongAreNotEmpty(inHeader, es[1..]);
    }
  }

  // Every body that is built is silent: what a request says cannot be taken for a correlation id.
  lemma BuiltBodiesAreSilent(tag: Tag, fields: seq<Xml>, r: ReserveRequest)
    requires forall e :: e in fields ==> e.children == [] && e.name.tag != Tag.CorrelationId
    ensures SilentBody([Parent(Typed(tag), fields)])
    ensures SilentBody([ReserveElement(r)])
  {
    hide ReserveElement, TextsAmong;
    LeavesAreSilent();
    OtherLeavesAreSilent(tag == Tag.NsiHeader, fields);
    assert Silent(Parent(Typed(tag), fields));
    ReserveIsSilent(r);
  }

  lemma ParentIsSilent(e: Xml)
    requires e.name.tag != Tag.NsiHeader && forall c :: c in e.children ==> Silent(c)
    ensures Silent(e)
  {
    OtherLeavesAreSilent(false, e.children);
  }

  lemma ReserveIsSilent(r: ReserveRequest)
    ensures Silent(ReserveElement(r))
  {
    hide Silent, CorrelationTexts, TextsAmong;
    LeavesAreSilent();
    CriteriaIsSilent(r);
    ParentIsSilent(ReserveElement(r));
  }

  lemma CriteriaIsSilent(r: ReserveRequest)
    ensures Silent(CriteriaElement(r))
  {
    hide Silent, CorrelationTexts, TextsAmong;
    LeavesAreSilent();
    P2psIsSilent(r);
    ParentIsSilent(ScheduleElement(r));
    ParentIsSilent(CriteriaElement(r));
  }

  lemma P2psIsSilent(r: ReserveRequest)
    ensures Silent(P2psElement(r))
  {
    hide Silent, CorrelationTexts, TextsAmong;
    LeavesAreSilent();
    if r.Routed() {
      EroIsSilent(r.ero.value);
    }
    ParentIsSilent(P2psElement(r));
  }

  lemma EroIsSilent(ero: seq<string>)
    ensures Silent(EroElement(ero))
  {
    hide Silent, CorrelationTexts, TextsAmong;
    LeavesAreSilent();
    forall e | e in EroElement(ero).children ensures Silent(e) {
      ParentIsSilent(e);
    }
    ParentIsSilent(EroElement(ero));
  }

  // ---------------------------------------------------------------- replies

  lemma OperationOfEnvelope(h: NsiHeader, protocol: string, op: Xml)
    ensures Operation(Envelope(h, protocol, [op])) == Some(op)
  {
    FindsFirst(Envelope(h, protocol, [op]).children, BODY, 1);
  }

  // A fault's text reads back iff it is not empty; an empty one turns into a placeholder. It carries
  // no exception either way; the parser does not read the fault code, which is there.
  lemma SoapFaultReadsBack(read: Readers, faultString: string, faultCode: string)
    ensures Parse(read, FaultEnvelope(faultString, faultCode)) == Some(SoapFault(faultString, None))
       <==> faultString != ""
    ensures Parse(read, FaultEnvelope("", faultCode)) == Some(SoapFault(NO_FAULT_STRING, None))
    ensures var fault := Operation(FaultEnvelope(faultString, faultCode));
      && fault.Some? && fault.value.name == Name(SoapEnv, Tag.Fault)
      && FindText(fault.value, Name(NoNamespace, Tag.FaultCode)) == Some(faultCode)
  {
    ParsedFault(read, faultString, faultCode);
    ParsedFault(read, "", faultCode);
    assert |NO_FAULT_STRING| > 0;
  }

  lemma ParsedFault(read: Readers, faultString: string, faultCode: string)
    ensures Parse(read, FaultEnvelope(faultString, faultCode))
         == Some(SoapFault(if faultString == "" then NO_FAULT_STRING else faultString, None))
  {
    hide DescendantsOfAll, FirstTagged;
    var fault := Parent(Soap(Tag.Fault),
                        [TextElement(Tag.FaultCode, faultCode), TextElement(Tag.FaultString, faultString)]);
    assert Operation(FaultEnvelope(faultString, faultCode)) == Some(fault);
    FindsFirst(fault.children, Plain(Tag.FaultString), 1);
    assert Find(fault, Plain(Tag.FaultString)).value.text == faultString;
    assert FaultException(fault) == None;
  }

  // ---------------------------------------------------------------- the reserve request

  function RequestedP2ps(root: Xml): Option<Xml> {
    match Operation(root)
    case None => None
    case Some(op) =>
      match Find(op, Plain(Tag.Criteria))
      case None => None
      case Some(criteria) => Find(criteria, P2PS)
  }

  lemma RequestedP2psIsBuilt(h: NsiHeader, r: ReserveRequest)
    ensures RequestedP2ps(Envelope(h, PROVIDER_PROTOCOL, [ReserveElement(r)])) == Some(P2psElement(r))
  {
    OperationOfEnvelope(h, PROVIDER_PROTOCOL, ReserveElement(r));
    CriteriaOfReserve(r);
    FindsFirst(CriteriaElement(r).children, P2PS, 2);
  }

  lemma CriteriaOfReserve(r: ReserveRequest)
    ensures Find(ReserveElement(r), Plain(Tag.Criteria)) == Some(CriteriaElement(r))
  {
    var children := ReserveElement(r).children;
    FindsFirst(children, Plain(Tag.Criteria), |children| - 1);
  }

  lemma {:induction false} AllFound(es: seq<Xml>, name: Name)
    requires forall e :: e in es ==> e.name == name
    ensures FindAll(es, name) == es
    decreases |es|
  {
    if es != [] {
      assert es[0] in es && forall e :: e in es[1..] ==> e in es;
      AllFound(es[1..], name);
    }
  }

  lemma NoneFound(es: seq<Xml>, name: Name)
    requires forall e :: e in es ==> e.name != name
    ensures FindAll(es, name) == []
  {
  }

  function OrderOf(orderedStp: Xml): Option<int> {
    ReadDecimal(Attribute(orderedStp, "order", ""))
  }

  function StpOf(orderedStp: Xml): Option<string> {
    FindText(orderedStp, Plain(Tag.Stp))
  }

  // An ERO is written iff one with an STP is asked for, and read by the order attributes alone, in
  // whatever order the entries are visited, it is the list that was asked for.
  lemma EroReadsBack(h: NsiHeader, r: ReserveRequest)
    ensures RequestedP2ps(Envelope(h, PROVIDER_PROTOCOL, [ReserveElement(r)])).Some?
    ensures CarriesEro(RequestedP2ps(Envelope(h, PROVIDER_PROTOCOL, [ReserveElement(r)])).value, r)
  {
    RequestedP2psIsBuilt(h, r);
    EroOfP2ps(r);
  }

  ghost predicate CarriesEro(p2ps: Xml, r: ReserveRequest) {
    var ero := Find(p2ps, Plain(Tag.Ero));
    && (ero.Some? <==> r.Routed())
    && (r.Routed() ==> ReadsAs(FindAll(ero.value.children, Plain(Tag.OrderedStp)), r.ero.value))
  }

  lemma EroOfP2ps(r: ReserveRequest)
    ensures CarriesEro(P2psElement(r), r)
  {
    hide Decimal, DecimalOfNat, ReadDecimal, ReadNat;
    var fields := P2psElement(r).children;
    if r.Routed() {
      var ero := r.ero.value;
      FindsFirst(fields, Plain(Tag.Ero), 5);
      AllFound(EroElement(ero).children, Plain(Tag.OrderedStp));
      EntriesReadAs(ero);
    } else {
      assert FindAll(fields, Plain(Tag.Ero)) == [] by {
        NoneFound(fields, Plain(Tag.Ero));
      }
    }
  }

  // Orders and STPs of the entries, in both directions.
  ghost predicate ReadsAs(entries: seq<Xml>, ero: seq<string>) {
    && |entries| == |ero|
    && (forall e :: e in entries ==>
          (OrderOf(e).Some? && 0 <= OrderOf(e).value < |ero| && StpOf(e) == Some(ero[OrderOf(e).value])))
    && (forall i :: 0 <= i < |ero| ==> OrderOf(entries[i]) == Some(i))
  }

  lemma EntriesReadAs(ero: seq<string>)
    ensures ReadsAs(EroElement(ero).children, ero)
  {
    var entries := EroElement(ero).children;
    forall i | 0 <= i < |ero|
      ensures OrderOf(entries[i]) == Some(i) && StpOf(entries[i]) == Some(ero[i])
    {
      DecimalReadsBack(i);
      FindsFirst(entries[i].children, Plain(Tag.Stp), 0);
    }
  }

  // The bandwidth and the end points read back as they were asked for.
  lemma EndPointsReadBack(h: NsiHeader, r: ReserveRequest)
    ensures RequestedP2ps(Envelope(h, PROVIDER_PROTOCOL, [ReserveElement(r)])).Some?
    ensures CarriesEndPoints(RequestedP2ps(Envelope(h, PROVIDER_PROTOCOL, [ReserveElement(r)])).value, r)
  {
    RequestedP2psIsBuilt(h, r);
    EndPointsOfP2ps(r);
  }

  predicate CarriesEndPoints(p2ps: Xml, r: ReserveRequest) {
    && FindText(p2ps, Plain(Tag.Capacity)).Some?
    && ReadDecimal(FindText(p2ps, Plain(Tag.Capacity)).value) == Some(r.capacity)
    && FindText(p2ps, Plain(Tag.SourceStp)) == Some(r.sourceStp)
    && FindText(p2ps, Plain(Tag.DestStp)) == Some(r.destStp)
  }

  lemma EndPointsOfP2ps(r: ReserveRequest)
    ensures CarriesEndPoints(P2psElement(r), r)
  {
    var fields := P2psElement(r).children;
    FindsFirst(fields, Plain(Tag.Capacity), 0);
    FindsFirst(fields, Plain(Tag.SourceStp), 3);
    FindsFirst(fields, Plain(Tag.DestStp), 4);
    DecimalReadsBack(r.capacity);
  }

  // ---------------------------------------------------------------- every field

  // The element that these names lead to from e, one child at a time.
  function Follow(e: Xml, names: seq<Name>): Option<Xml>
    decreases |names|
  {
    if names == [] then Some(e)
    else match Find(e, names[0])
         case None => None
         case Some(child) => Follow(child, names[1..])
  }

  predicate Holds(e: Xml, tag: Tag, text: Option<string>) {
    FindText(e, Name(NoNamespace, tag)) == text
  }

  // What an element holds of a request's header.
  predicate CarriesHeader(nsi: Xml, h: NsiHeader, protocol: string) {
    && Holds(nsi, Tag.ProtocolVersion, Some(protocol)) && Holds(nsi, Tag.CorrelationId, Some(h.correlationId))
    && Holds(nsi, Tag.RequesterNsa, Some(h.requesterNsa)) && Holds(nsi, Tag.ProviderNsa, Some(h.providerNsa))
    && Holds(nsi, Tag.ReplyTo, h.replyTo)
  }

  // The header of every message reads back field by field, an absent replyTo as absent; its body follows.
  lemma HeaderReadsBack(h: NsiHeader, protocol: string, body: seq<Xml>)
    ensures var root := Envelope(h, protocol, body);
      var nsi := Follow(root, [Name(SoapEnv, Tag.Header), Name(NsiHeaders, Tag.NsiHeader)]);
      && root.name == Name(SoapEnv, Tag.Envelope)
      && nsi.Some? && CarriesHeader(nsi.value, h, protocol)
      && Follow(root, [Name(SoapEnv, Tag.Body)]) == Some(Element(Name(SoapEnv, Tag.Body), map[], "", body))
  {
    var root, nsi := Envelope(h, protocol, body), NsiHeaderElement(h, protocol);
    var header := [Name(SoapEnv, Tag.Header), Name(NsiHeaders, Tag.NsiHeader)];
    FindsFirst(root.children, Name(SoapEnv, Tag.Header), 0);
    FindsFirst([nsi], Name(NsiHeaders, Tag.NsiHeader), 0);
    FollowTwo(root, root.children[0], nsi, header);
    FindsFirst(root.children, Name(SoapEnv, Tag.Body), 1);
    assert [Name(SoapEnv, Tag.Body)][1..] == [];
    HeaderFields(h, protocol);
  }

  lemma FollowTwo(e: Xml, child: Xml, grandchild: Xml, names: seq<Name>)
    requires |names| >= 2 && Find(e, names[0]) == Some(child) && Find(child, names[1]) == Some(grandchild)
    ensures Follow(e, names) == Follow(grandchild, names[2..])
  {
    assert names[1..][1..] == names[2..];
  }

  lemma HoldsAt(e: Xml, tag: Tag, k: nat)
    requires k < |e.children| && e.children[k].name == Plain(tag)
    requires forall i :: 0 <= i < k ==> e.children[i].name != Plain(tag)
    ensures Holds(e, tag, Some(e.children[k].text))
  {
    FindsFirst(e.children, Plain(tag), k);
  }

  lemma HoldsNone(e: Xml, tag: Tag)
    requires forall c :: c in e.children ==> c.name != Plain(tag)
    ensures Holds(e, tag, None)
  {
    NoneFound(e.children, Plain(tag));
  }

  lemma HeaderFields(h: NsiHeader, protocol: string)
    ensures CarriesHeader(NsiHeaderElement(h, protocol), h, protocol)
  {
    hide Holds;
    var nsi := NsiHeaderElement(h, protocol);
    HoldsAt(nsi, Tag.ProtocolVersion, 0);
    HoldsAt(nsi, Tag.CorrelationId, 1);
    HoldsAt(nsi, Tag.RequesterNsa, 2);
    HoldsAt(nsi, Tag.ProviderNsa, 3);
    if h.replyTo.Some? { HoldsAt(nsi, Tag.ReplyTo, 4); } else { HoldsNone(nsi, Tag.ReplyTo); }
  }

  // The rest of a reserve: its own fields and its schedule, under version 1, both ways on a symmetric path.
  predicate CarriesRequest(reserve: Xml, r: ReserveRequest) {
    var criteria := Follow(reserve, [Name(NoNamespace, Tag.Criteria)]);
    var schedule := Follow(reserve, [Name(NoNamespace, Tag.Criteria), Name(NoNamespace, Tag.Schedule)]);
    var p2ps := Follow(reserve, [Name(NoNamespace, Tag.Criteria), Name(NsiP2p, Tag.P2ps)]);
    && Holds(reserve, Tag.GlobalReservationId, r.globalReservationId)
    && Holds(reserve, Tag.Description, Some(r.description))
    && criteria.Some? && schedule.Some? && p2ps.Some?
    && Attribute(criteria.value, "version", "") == "1"
    && Holds(criteria.value, Tag.ServiceType, Some(r.serviceType))
    && Holds(schedule.value, Tag.StartTime, Some(r.startTime))
    && Holds(schedule.value, Tag.EndTime, Some(r.endTime))
    && Holds(p2ps.value, Tag.Directionality, Some("Bidirectional"))
    && Holds(p2ps.value, Tag.SymmetricPath, Some("true"))
  }

  lemma RequestReadsBack(h: NsiHeader, r: ReserveRequest)
    ensures var root := Envelope(h, PROVIDER_PROTOCOL, [ReserveElement(r)]);
      var nsi := Follow(root, [Name(SoapEnv, Tag.Header), Name(NsiHeaders, Tag.NsiHeader)]);
      var reserve := Follow(root, [Name(SoapEnv, Tag.Body), Name(NsiTypes, Tag.Reserve)]);
      && nsi.Some? && CarriesHeader(nsi.value, h, "application/vnd.ogf.nsi.cs.v2.provider+soap")
      && reserve.Some? && CarriesRequest(reserve.value, r)
  {
    hide CarriesRequest, CarriesHeader;
    var root := Envelope(h, PROVIDER_PROTOCOL, [ReserveElement(r)]);
    HeaderReadsBack(h, PROVIDER_PROTOCOL, [ReserveElement(r)]);
    FindsFirst(root.children, Name(SoapEnv, Tag.Body), 1);
    FindsFirst([ReserveElement(r)], Name(NsiTypes, Tag.Reserve), 0);
    FollowTwo(root, root.children[1], ReserveElement(r), [Name(SoapEnv, Tag.Body), Name(NsiTypes, Tag.Reserve)]);
    RequestFields(r);
  }

  lemma RequestFields(r: ReserveRequest)
    ensures CarriesRequest(ReserveElement(r), r)
  {
    hide Holds, FindAll, CriteriaElement, ScheduleElement, P2psElement, ReserveElement;
    ReserveFields(r);
    CriteriaFields(r);
    CriteriaOfReserve(r);
    assert [Plain(Tag.Criteria)][1..] == [];
    FollowTwo(ReserveElement(r), CriteriaElement(r), ScheduleElement(r), [Plain(Tag.Criteria), Plain(Tag.Schedule)]);
    FollowTwo(ReserveElement(r), CriteriaElement(r), P2psElement(r), [Plain(Tag.Criteria), Name(NsiP2p, Tag.P2ps)]);
  }

  lemma ReserveFields(r: ReserveRequest)
    ensures Holds(ReserveElement(r), Tag.GlobalReservationId, r.globalReservationId)
    ensures Holds(ReserveElement(r), Tag.Description, Some(r.description))
  {
    hide Holds, ScheduleElement, P2psElement;
    var e := ReserveElement(r);
    if r.globalReservationId.Some? {
      HoldsAt(e, Tag.GlobalReservationId, 0);
      HoldsAt(e, Tag.Description, 1);
    } else {
      HoldsNone(e, Tag.GlobalReservationId);
      HoldsAt(e, Tag.Description, 0);
    }
  }

  lemma CriteriaFields(r: ReserveRequest)
    ensures var criteria, schedule, p2ps := CriteriaElement(r), ScheduleElement(r), P2psElement(r);
      && Find(criteria, Plain(Tag.Schedule)) == Some(schedule) && Find(criteria, Name(NsiP2p, Tag.P2ps)) == Some(p2ps)
      && Attribute(criteria, "version", "") == "1" && Holds(criteria, Tag.ServiceType, Some(r.serviceType))
      && Holds(schedule, Tag.StartTime, Some(r.startTime)) && Holds(schedule, Tag.EndTime, Some(r.endTime))
      && Holds(p2ps, Tag.Directionality, Some("Bidirectional")) && Holds(p2ps, Tag.SymmetricPath, Some("true"))
  {
    hide Holds, FindAll;
    var criteria, schedule, p2ps := CriteriaElement(r), ScheduleElement(r), P2psElement(r);
    FindsFirst(criteria.children, Plain(Tag.Schedule), 0);
    FindsFirst(criteria.children, P2PS, 2);
    HoldsAt(criteria, Tag.ServiceType, 1);
    HoldsAt(schedule, Tag.StartTime, 0);
    HoldsAt(schedule, Tag.EndTime, 1);
    HoldsAt(p2ps, Tag.Directionality, 1);
    HoldsAt(p2ps, Tag.SymmetricPath, 2);
  }
}
