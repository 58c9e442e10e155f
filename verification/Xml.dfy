/** Element trees as the parser and the builders see them: a name, attributes, the text before the
    first child (none and empty alike) and the children in document order. */
module Xml {
  import opened Messages
  import opened Namespaces
  import Tags

  type Tag = Tags.Tag

  datatype Name = Name(namespace: Namespace, tag: Tag)

  datatype Xml = Element(name: Name, attributes: map<string, string>, text: string, children: seq<Xml>)

  function Plain(tag: Tag): Name {
    Name(NoNamespace, tag)
  }

  function Empty(name: Name): Xml {
    Element(name, map[], "", [])
  }

  function TextElement(tag: Tag, text: string): Xml {
    Element(Plain(tag), map[], text, [])
  }

  // findall, find, findtext and get of the source's library, on direct children.
  function FindAll(es: seq<Xml>, name: Name): (found: seq<Xml>)
    ensures forall e :: e in found <==> e in es && e.name == name
  {
    if es == [] then []
    else if es[0].name == name then [es[0]] + FindAll(es[1..], name)
    else FindAll(es[1..], name)
  }

  function Find(e: Xml, name: Name): Option<Xml> {
    var found := FindAll(e.children, name);
    if found == [] then None else Some(found[0])
  }

  lemma {:induction false} FindsFirst(es: seq<Xml>, name: Name, k: nat)
    requires k < |es| && es[k].name == name && forall i :: 0 <= i < k ==> es[i].name != name
    ensures FindAll(es, name) != [] && FindAll(es, name)[0] == es[k]
  {
    if k > 0 {
      FindsFirst(es[1..], name, k - 1);
    }
  }

  function FindText(e: Xml, name: Name): Option<string> {
    match Find(e, name)
    case None => None
    case Some(child) => Some(child.text)
  }

  function TextOr(e: Xml, name: Name, default: string): string {
    match FindText(e, name)
    case None => default
    case Some(text) => text
  }

  function Attribute(e: Xml, key: string, default: string): string {
    if key in e.attributes then e.attributes[key] else default
  }

  // Every element under e, in document order.
  function Descendants(e: Xml): seq<Xml>
    decreases e, 1
  {
    DescendantsOfAll(e.children)
  }

  function DescendantsOfAll(es: seq<Xml>): seq<Xml>
    decreases es, 0
  {
    if es == [] then [] else [es[0]] + Descendants(es[0]) + DescendantsOfAll(es[1..])
  }

  // A descendant with this local name in any namespace: the first in document order.
  function FindAnywhere(e: Xml, tag: Tag): Option<Xml> {
    FirstTagged(Descendants(e), tag)
  }

  function FirstTagged(es: seq<Xml>, tag: Tag): (found: Option<Xml>)
    ensures found.Some? ==> found.value in es && found.value.name.tag == tag
    ensures found.None? ==> forall e :: e in es ==> e.name.tag != tag
  {
    if es == [] then None
    else if es[0].name.tag == tag then Some(es[0])
    else FirstTagged(es[1..], tag)
  }
}
