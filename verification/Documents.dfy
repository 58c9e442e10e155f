/** The element tree a builder grows in place. An element is reached by the indices that lead to it
    from the root, which stay right as long as elements are only appended. */
module Documents {
  import opened Messages
  import opened Xml

  type Path = seq<nat>

  predicate Within(t: Xml, p: Path)
    decreases |p|
  {
    p == [] || (p[0] < |t.children| && Within(t.children[p[0]], p[1..]))
  }

  function At(t: Xml, p: Path): Xml
    requires Within(t, p)
    decreases |p|
  {
    if p == [] then t else At(t.children[p[0]], p[1..])
  }

  function Put(t: Xml, p: Path, x: Xml): (r: Xml)
    requires Within(t, p)
    ensures Within(r, p) && At(r, p) == x
    decreases |p|
  {
    if p == [] then x else t.(children := t.children[p[0] := Put(t.children[p[0]], p[1..], x)])
  }

  function Grown(e: Xml, x: Xml): Xml {
    e.(children := e.children + [x])
  }

  // t with x as the new last child of the element at p.
  function Appended(t: Xml, p: Path, x: Xml): Xml
    requires Within(t, p)
  {
    Put(t, p, Grown(At(t, p), x))
  }

  // The handle of the next child to be appended at p.
  function NextChild(t: Xml, p: Path): Path
    requires Within(t, p)
  {
    p + [|At(t, p).children|]
  }

  lemma {:induction false} PutInside(t: Xml, p: Path, a: Xml, q: Path, b: Xml)
    requires Within(t, p) && Within(a, q)
    ensures Within(Put(t, p, a), p + q) && At(Put(t, p, a), p + q) == At(a, q)
    ensures Put(Put(t, p, a), p + q, b) == Put(t, p, Put(a, q, b))
    decreases |p|
  {
    if p == [] {
      assert p + q == q;
    } else {
      assert (p + q)[0] == p[0] && (p + q)[1..] == p[1..] + q;
      PutInside(t.children[p[0]], p[1..], a, q, b);
    }
  }

  // Changing something inside an element just appended is appending the changed element.
  lemma InsideNew(t: Xml, p: Path, x: Xml, q: Path, y: Xml)
    requires Within(t, p) && Within(x, q)
    ensures var r := Appended(t, p, x);
            var c := NextChild(t, p) + q;
            Within(r, c) && At(r, c) == At(x, q) && Put(r, c, y) == Appended(t, p, Put(x, q, y))
  {
    var e := At(t, p);
    var k := |e.children|;
    var g := Grown(e, x);
    assert ([k] + q)[0] == k && ([k] + q)[1..] == q && g.children[k] == x;
    assert Within(g, [k] + q) && At(g, [k] + q) == At(x, q);
    assert g.children[k := Put(x, q, y)] == Grown(e, Put(x, q, y)).children;
    assert Put(g, [k] + q, y) == Grown(e, Put(x, q, y));
    PutInside(t, p, g, [k] + q, y);
    assert p + ([k] + q) == NextChild(t, p) + q;
  }

  lemma GrowNew(t: Xml, p: Path, x: Xml, y: Xml)
    requires Within(t, p)
    ensures var r := Appended(t, p, x);
            var c := NextChild(t, p);
            Within(r, c) && At(r, c) == x && Appended(r, c, y) == Appended(t, p, Grown(x, y))
  {
    InsideNew(t, p, x, [], Grown(x, y));
    assert NextChild(t, p) + [] == NextChild(t, p);
  }

  // The mutable tree behind the source's Element, SubElement and text assignment.
  class Document {
    var root: Xml

    constructor (name: Name)
      ensures root == Empty(name)
    {
      root := Empty(name);
    }

    method SubElement(parent: Path, name: Name, attributes: map<string, string>) returns (child: Path)
      requires Within(root, parent)
      modifies this
      ensures root == Appended(old(root), parent, Element(name, attributes, "", []))
      ensures child == NextChild(old(root), parent) && Within(root, child)
    {
      child := NextChild(root, parent);
      GrowNew(root, parent, Element(name, attributes, "", []), Empty(name));
      root := Appended(root, parent, Element(name, attributes, "", []));
    }

    method SetText(at: Path, text: string)
      requires Within(root, at)
      modifies this
      ensures root == Put(old(root), at, At(old(root), at).(text := text))
    {
      root := Put(root, at, At(root, at).(text := text));
    }

    // SubElement(parent, tag).text = text
    method AddText(parent: Path, tag: Tag, text: string)
      requires Within(root, parent)
      modifies this
      ensures root == Appended(old(root), parent, TextElement(tag, text))
    {
      ghost var before := root;
      var child := SubElement(parent, Plain(tag), map[]);
      InsideNew(before, parent, Empty(Plain(tag)), [], TextElement(tag, text));
      assert NextChild(before, parent) + [] == child;
      SetText(child, text);
    }
  }
}
