/** Reading a serviceException out of an element tree, and what flattening the result names.

    A ValueError of the source is None. */
module ExceptionParsing {
  import opened Messages
  import opened ExceptionTrees
  import opened Xml

  const CHILD := Plain(Tag.ChildException)

  function ParseServiceException(e: Xml): Option<ServiceException>
    decreases e, 1
  {
    var children := ParseChildren(e.children);
    var nsaId := FindText(e, Plain(Tag.NsaId));
    var errorId := FindText(e, Plain(Tag.ErrorId));
    var text := FindText(e, Plain(Tag.Text));
    if children.None? || nsaId.None? || errorId.None? || text.None? then None
    else Some(ServiceException(nsaId.value, FindText(e, Plain(Tag.ConnectionId)), errorId.value, text.value,
                               ParseVariables(e), children.value))
  }

  // The childException elements among es.
  function ParseChildren(es: seq<Xml>): Option<seq<ServiceException>>
    decreases es, 0
  {
    if es == [] then Some([])
    else if es[0].name != CHILD then ParseChildren(es[1..])
    else
      var first := ParseServiceException(es[0]);
      var rest := ParseChildren(es[1..]);
      if first.None? || rest.None? then None else Some([first.value] + rest.value)
  }

  function ParseVariables(e: Xml): seq<Variable> {
    match Find(e, Plain(Tag.Variables))
    case None => []
    case Some(variables) => VariablesOf(FindAll(variables.children, Plain(Tag.Variable)))
  }

  function VariablesOf(es: seq<Xml>): seq<Variable> {
    if es == [] then []
    else
      var v := Variable(Attribute(es[0], "type", ""), TextOr(es[0], Plain(Tag.Value), ""));
      (if v.kind != "" || v.value != "" then [v] else []) + VariablesOf(es[1..])
  }

  // ---------------------------------------------------------------- the exception nodes of a tree

  // e and the childException elements below it, each parent before its children, in document order.
  function Nodes(e: Xml): (nodes: seq<Xml>)
    ensures nodes != [] && nodes[0] == e
    decreases e, 1
  {
    [e] + NodesOfAll(e.children)
  }

  function NodesOfAll(es: seq<Xml>): seq<Xml>
    decreases es, 0
  {
    if es == [] then []
    else (if es[0].name == CHILD then Nodes(es[0]) else []) + NodesOfAll(es[1..])
  }

  predicate IsLeaf(e: Xml) {
    forall c :: c in e.children ==> c.name != CHILD
  }

  predicate Complete(e: Xml) {
    forall tag :: tag in {Tag.NsaId, Tag.ErrorId, Tag.Text} ==> FindText(e, Plain(tag)).Some?
  }

  function Leaves(es: seq<Xml>): seq<Xml> {
    if es == [] then []
    else (if IsLeaf(es[0]) then [es[0]] else []) + Leaves(es[1..])
  }

  // A node read on its own.
  function Own(e: Xml): ServiceException {
    ServiceException(TextOr(e, Plain(Tag.NsaId), ""), FindText(e, Plain(Tag.ConnectionId)),
                     TextOr(e, Plain(Tag.ErrorId), ""), TextOr(e, Plain(Tag.Text), ""), ParseVariables(e), [])
  }

  // The leaves, each read on its own.
  function OwnOfLeaves(es: seq<Xml>): seq<ServiceException> {
    seq(|Leaves(es)|, i requires 0 <= i < |Leaves(es)| => Own(Leaves(es)[i]))
  }

  lemma {:induction false} LeavesOfConcat(a: seq<Xml>, b: seq<Xml>)
    ensures Leaves(a + b) == Leaves(a) + Leaves(b)
    decreases |a|
  {
    if a == [] {
      assert a + b == b;
    } else {
      LeavesOfConcat(a[1..], b);
      assert (a + b)[1..] == a[1..] + b;
    }
  }

  lemma OwnOfConcat(a: seq<Xml>, b: seq<Xml>)
    ensures OwnOfLeaves(a + b) == OwnOfLeaves(a) + OwnOfLeaves(b)
  {
    LeavesOfConcat(a, b);
  }

  // ---------------------------------------------------------------- parsing

  // Reading an exception fails iff some node of its tree lacks an nsaId, an errorId or a text.
  lemma {:induction false} ParsesIffComplete(e: Xml)
    ensures ParseServiceException(e).Some? <==> forall n :: n in Nodes(e) ==> Complete(n)
    decreases e, 1
  {
    ChildrenParseIffComplete(e.children);
    assert Complete(e) <==> FindText(e, Plain(Tag.NsaId)).Some? && FindText(e, Plain(Tag.ErrorId)).Some?
                            && FindText(e, Plain(Tag.Text)).Some?;
    assert e in Nodes(e);
    assert forall n :: n in Nodes(e) <==> n == e || n in NodesOfAll(e.children);
  }

  lemma {:induction false} ChildrenParseIffComplete(es: seq<Xml>)
    ensures ParseChildren(es).Some? <==> forall n :: n in NodesOfAll(es) ==> Complete(n)
    decreases es, 0
  {
    if es != [] {
      ChildrenParseIffComplete(es[1..]);
      if es[0].name == CHILD {
        ParsesIffComplete(es[0]);
        assert forall n :: n in NodesOfAll(es) <==> n in Nodes(es[0]) || n in NodesOfAll(es[1..]);
      } else {
        assert NodesOfAll(es) == NodesOfAll(es[1..]);
      }
    }
  }

  // Parsing and then flattening names exactly the nodes without a childException, in document order,
  // and there is at least one.
  lemma {:induction false} RootCausesAreLeaves(e: Xml)
    requires ParseServiceException(e).Some?
    ensures RootCauses(ParseServiceException(e).value) == OwnOfLeaves(Nodes(e))
    ensures Leaves(Nodes(e)) != []
    decreases e, 1
  {
    var exc := ParseServiceException(e).value;
    RootCausesOfChildren(e.children);
    ChildlessIffLeaf(e.children);
    OwnOfConcat([e], NodesOfAll(e.children));
    if IsLeaf(e) {
      NoNodesUnderLeaf(e.children);
      assert Leaves([e]) == [e];
      assert exc == Own(e);
      assert RootCauses(exc) == [exc];
      assert OwnOfLeaves(Nodes(e)) == [Own(e)];
    } else {
      assert Leaves([e]) == [];
      assert RootCauses(exc) == RootCausesOfAll(exc.childExceptions);
      assert OwnOfLeaves(Nodes(e)) == [] + OwnOfLeaves(NodesOfAll(e.children));
    }
    assert |OwnOfLeaves(Nodes(e))| == |Leaves(Nodes(e))|;
  }

  lemma {:induction false} RootCausesOfChildren(es: seq<Xml>)
    requires ParseChildren(es).Some?
    ensures RootCausesOfAll(ParseChildren(es).value) == OwnOfLeaves(NodesOfAll(es))
    decreases es, 0
  {
    if es != [] {
      RootCausesOfChildren(es[1..]);
      if es[0].name == CHILD {
        RootCausesAreLeaves(es[0]);
        OwnOfConcat(Nodes(es[0]), NodesOfAll(es[1..]));
        var parsed := ParseChildren(es).value;
        assert parsed[1..] == ParseChildren(es[1..]).value;
      } else {
        assert NodesOfAll(es) == NodesOfAll(es[1..]);
      }
    }
  }

  lemma {:induction false} ChildlessIffLeaf(es: seq<Xml>)
    requires ParseChildren(es).Some?
    ensures ParseChildren(es).value == [] <==> forall c :: c in es ==> c.name != CHILD
    decreases |es|
  {
    if es != [] {
      assert forall c :: c in es <==> c == es[0] || c in es[1..];
      if es[0].name != CHILD {
        ChildlessIffLeaf(es[1..]);
      }
    }
  }

  lemma {:induction false} NoNodesUnderLeaf(es: seq<Xml>)
    requires forall c :: c in es ==> c.name != CHILD
    ensures NodesOfAll(es) == []
    decreases |es|
  {
    if es != [] {
      assert es[0] in es && forall c :: c in es[1..] ==> c in es;
      NoNodesUnderLeaf(es[1..]);
    }
  }
}
