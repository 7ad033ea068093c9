/**
 * The part of an ElementTree the parser relies on: an element is a tag,
 * an attribute dictionary, its text and its ordered children. `find` and
 * `findall` with a plain tag look only at the direct children.
 */
module Xml {
  import opened Wrappers

  datatype Element = Element(tag: string, attrs: map<string, string>, text: string, children: seq<Element>)

  /** `element.get(key)`: the attribute's string, or None when absent. */
  function Get(e: Element, key: string): (r: Option<string>)
    ensures r.Some? <==> key in e.attrs
    ensures r.Some? ==> r.value == e.attrs[key]
  {
    if key in e.attrs then Some(e.attrs[key]) else None
  }

  /** `element.find(tag)` over the children `cs`: the first one carrying `tag`. */
  function Find(cs: seq<Element>, tag: string): (r: Option<Element>)
    ensures r.None? <==> forall i :: 0 <= i < |cs| ==> cs[i].tag != tag
    ensures r.Some? ==> r.value in cs && r.value.tag == tag
  {
    if cs == [] then None
    else if cs[0].tag == tag then Some(cs[0])
    else Find(cs[1..], tag)
  }

  /** `element.findall(tag)` over the children `cs`: those carrying `tag`, in order. */
  function FindAll(cs: seq<Element>, tag: string): (r: seq<Element>)
    ensures |r| <= |cs|
    ensures forall x :: x in r ==> x in cs && x.tag == tag
    ensures forall x :: x in cs && x.tag == tag ==> x in r
  {
    if cs == [] then []
    else if cs[0].tag == tag then [cs[0]] + FindAll(cs[1..], tag)
    else FindAll(cs[1..], tag)
  }

  /** FindAll distributes over concatenation: the order of the children is kept. */
  lemma {:induction false} FindAllAppend(a: seq<Element>, b: seq<Element>, tag: string)
    ensures FindAll(a + b, tag) == FindAll(a, tag) + FindAll(b, tag)
  {
    if a == [] {
      assert a + b == b;
    } else {
      assert (a + b)[1..] == a[1..] + b;
      FindAllAppend(a[1..], b, tag);
    }
  }

  /** A single child is kept exactly when it carries the tag. */
  lemma FindAllSingle(x: Element, tag: string)
    ensures FindAll([x], tag) == if x.tag == tag then [x] else []
  {
    assert [x][1..] == [];
  }

  /** Children that all carry the tag are all kept, in order. */
  lemma {:induction false} FindAllEveryTagged(cs: seq<Element>, tag: string)
    requires forall i :: 0 <= i < |cs| ==> cs[i].tag == tag
    ensures FindAll(cs, tag) == cs
  {
    if cs != [] {
      FindAllEveryTagged(cs[1..], tag);
    }
  }

  /** `find` is the first element of `findall`. */
  lemma {:induction false} FindIsFirstOfFindAll(cs: seq<Element>, tag: string)
    ensures Find(cs, tag) == if FindAll(cs, tag) == [] then None else Some(FindAll(cs, tag)[0])
  {
    if cs != [] && cs[0].tag != tag {
      FindIsFirstOfFindAll(cs[1..], tag);
    }
  }

  /** Inserting a child with another tag leaves `findall` unchanged. */
  lemma FindAllInsertOther(cs: seq<Element>, i: nat, x: Element, tag: string)
    requires i <= |cs| && x.tag != tag
    ensures FindAll(cs[..i] + [x] + cs[i..], tag) == FindAll(cs, tag)
  {
    var a, b := cs[..i], cs[i..];
    assert a + b == cs;
    FindAllAppend(a + [x], b, tag);
    FindAllAppend(a, [x], tag);
    FindAllSingle(x, tag);
    FindAllAppend(a, b, tag);
  }

  /** Inserting a child with another tag leaves `find` unchanged. */
  lemma FindInsertOther(cs: seq<Element>, i: nat, x: Element, tag: string)
    requires i <= |cs| && x.tag != tag
    ensures Find(cs[..i] + [x] + cs[i..], tag) == Find(cs, tag)
  {
    FindAllInsertOther(cs, i, x, tag);
    FindIsFirstOfFindAll(cs[..i] + [x] + cs[i..], tag);
    FindIsFirstOfFindAll(cs, tag);
  }
}
