/**
 * The decoded ONIX 3.1 document as an element tree, and the namespaced child
 * lookups the Titlepage parser navigates it with (`element.find`,
 * `element.findall`, and the '/'-separated path walk built on them).
 */
module Onix {
  import opened Wrappers

  /** The ONIX 3.1 reference-tag namespace, in ElementTree's `{uri}` form. */
  const ONIX_NS := "{http://ns.editeur.org/onix/3.1/reference}"

  /** An XML element: qualified tag, optional text content, child elements in document order. */
  datatype Element = Element(tag: string, text: Option<string>, children: seq<Element>)

  /** The qualified tag of an ONIX reference name. */
  function Qualified(name: string): string
  {
    ONIX_NS + name
  }

  /** The position of the first element tagged `tag`. */
  function FirstTagged(items: seq<Element>, tag: string): (r: Option<nat>)
    ensures r.Some? ==> r.value < |items| && items[r.value].tag == tag
    ensures r.Some? ==> forall j :: 0 <= j < r.value ==> items[j].tag != tag
    ensures r.None? ==> forall j :: 0 <= j < |items| ==> items[j].tag != tag
  {
    if items == [] then None
    else if items[0].tag == tag then Some(0)
    else match FirstTagged(items[1..], tag)
      case None => None
      case Some(k) => Some(k + 1)
  }

  /** `element.find('{ns}name')`: the first child with that ONIX name, if any. */
  function Find(e: Element, name: string): (r: Option<Element>)
    ensures r.Some? ==> r.value in e.children && r.value.tag == Qualified(name)
    ensures r.None? <==> forall j :: 0 <= j < |e.children| ==> e.children[j].tag != Qualified(name)
  {
    match FirstTagged(e.children, Qualified(name))
    case None => None
    case Some(i) => Some(e.children[i])
  }

  /** `element.findall('{ns}name')`: every child with that ONIX name, in document order. */
  function FindAll(e: Element, name: string): (r: seq<Element>)
    ensures forall x :: x in r <==> x in e.children && x.tag == Qualified(name)
  {
    Tagged(e.children, Qualified(name))
  }

  function Tagged(items: seq<Element>, tag: string): (r: seq<Element>)
    ensures forall x :: x in r <==> x in items && x.tag == tag
    ensures |r| <= |items|
  {
    if items == [] then []
    else (if items[0].tag == tag then [items[0]] else []) + Tagged(items[1..], tag)
  }

  /**
   * The filter keeps document order and repetitions: filtering `a + b` is
   * filtering `a`, then `b`. Together with the one-element case this fixes
   * `findall`'s result as the matching children in the order they appear.
   */
  lemma {:induction false} TaggedConcat(a: seq<Element>, b: seq<Element>, tag: string)
    ensures Tagged(a + b, tag) == Tagged(a, tag) + Tagged(b, tag)
    decreases |a|
  {
    if a == [] {
      assert a + b == b;
    } else {
      assert (a + b)[1..] == a[1..] + b;
      TaggedConcat(a[1..], b, tag);
    }
  }

  /** One element is kept exactly when it has the tag. */
  lemma TaggedOne(x: Element, tag: string)
    ensures Tagged([x], tag) == if x.tag == tag then [x] else []
  {
  }

  /**
   * The path walk: the first match at each step, or `None` as soon as a step
   * has no matching child. `path` is the '/'-separated path as a list of names.
   */
  function FindPath(e: Element, path: seq<string>): Option<Element>
    decreases |path|
  {
    if path == [] then Some(e)
    else match Find(e, path[0])
      case None => None
      case Some(c) => FindPath(c, path[1..])
  }

  /** Continuing a walk from an optional element (`None` stays `None`). */
  function Resume(current: Option<Element>, path: seq<string>): Option<Element>
  {
    match current
    case None => None
    case Some(c) => FindPath(c, path)
  }

  /** Walking `p + q` is walking `p` and then `q` from where `p` ended. */
  lemma {:induction false} FindPathConcat(e: Element, p: seq<string>, q: seq<string>)
    ensures FindPath(e, p + q) == Resume(FindPath(e, p), q)
    decreases |p|
  {
    if p == [] {
      assert p + q == q;
    } else {
      assert (p + q)[0] == p[0] && (p + q)[1..] == p[1..] + q;
      match Find(e, p[0])
      case None =>
      case Some(c) => FindPathConcat(c, p[1..], q);
    }
  }

  /** A missing step anywhere makes the whole walk fail. */
  lemma FindPathStops(e: Element, p: seq<string>, name: string, q: seq<string>)
    requires FindPath(e, p).Some? && Find(FindPath(e, p).value, name).None?
    ensures FindPath(e, p + [name] + q) == None
  {
    assert p + [name] + q == p + ([name] + q);
    FindPathConcat(e, p, [name] + q);
    assert ([name] + q)[0] == name;
  }

  /** `_titlepage_find`: walks the path one step at a time, keeping the current element. */
  method TitlepageFind(e: Element, path: seq<string>) returns (r: Option<Element>)
    ensures r == FindPath(e, path)
  {
    var current := Some(e);
    var i := 0;
    while i < |path|
      invariant 0 <= i <= |path|
      invariant FindPath(e, path) == Resume(current, path[i..])
    {
      if current.None? {
        return None;
      }
      assert path[i..][0] == path[i] && path[i..][1..] == path[i + 1..];
      current := Find(current.value, path[i]);
      i := i + 1;
    }
    assert path[i..] == [];
    r := current;
  }

  /** The element carries a `typeTag` child whose text is exactly `code` (an ONIX code-list value). */
  predicate HasCode(item: Element, typeTag: string, code: string)
  {
    var t := Find(item, typeTag);
    t.Some? && t.value.text == Some(code)
  }

  /** The first element carrying the given code. */
  function FirstWithCode(items: seq<Element>, typeTag: string, code: string): (r: Option<nat>)
    ensures r.Some? ==> r.value < |items| && HasCode(items[r.value], typeTag, code)
    ensures r.Some? ==> forall j :: 0 <= j < r.value ==> !HasCode(items[j], typeTag, code)
    ensures r.None? ==> forall j :: 0 <= j < |items| ==> !HasCode(items[j], typeTag, code)
  {
    if items == [] then None
    else if HasCode(items[0], typeTag, code) then Some(0)
    else match FirstWithCode(items[1..], typeTag, code)
      case None => None
      case Some(k) => Some(k + 1)
  }

  /** The first element carrying the code, as an element. */
  function FirstCoded(items: seq<Element>, typeTag: string, code: string): Option<Element>
  {
    match FirstWithCode(items, typeTag, code)
    case None => None
    case Some(i) => Some(items[i])
  }

  /**
   * The `for x in findall(...): if x's type == code: ...; break` shape shared by
   * the parser's single-valued fields: scans in order and stops at the first match.
   */
  method FirstOfType(items: seq<Element>, typeTag: string, code: string) returns (found: Option<Element>)
    ensures found.Some? ==> found.value in items && HasCode(found.value, typeTag, code)
    ensures found == FirstCoded(items, typeTag, code)
  {
    found := None;
    var i := 0;
    while i < |items|
      invariant 0 <= i <= |items|
      invariant forall j :: 0 <= j < i ==> !HasCode(items[j], typeTag, code)
    {
      var t := Find(items[i], typeTag);
      if t.Some? && t.value.text == Some(code) {
        found := Some(items[i]);
        break;
      }
      i := i + 1;
    }
  }
}
