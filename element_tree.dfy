/** The parsed document the analyzer walks: an element with a tag, an
    attribute map, optional text and an ordered list of child elements, with
    the three lookups the analyzer uses (`find`, `findall`, `attrib.get`).
    Tags and attribute keys are plain strings: a namespaced name such as
    `Calculation:joinAttribute` is simply a different tag from
    `joinAttribute`, and the schema-instance type key is `xsi:type`. */
module ElementTree {
  import opened Wrappers

  datatype Element = Element(
    tag: string,
    attrib: map<string, string>,
    text: Option<string>,
    children: seq<Element>)

  /** `attrib.get(key)`. */
  function Get(e: Element, key: string): Option<string>
  {
    if key in e.attrib then Some(e.attrib[key]) else None
  }

  /** `attrib.get(key, default)`. */
  function GetOr(e: Element, key: string, default: string): string
  {
    Get(e, key).GetOr(default)
  }

  /** The elements of `es` that carry `tag`, in order. */
  function WithTag(es: seq<Element>, tag: string): (r: seq<Element>)
    ensures |r| <= |es|
    ensures forall x :: x in r ==> x in es && x.tag == tag
    ensures forall x :: x in es && x.tag == tag ==> x in r
  {
    if es == [] then []
    else (if es[0].tag == tag then [es[0]] else []) + WithTag(es[1..], tag)
  }

  /** The first element of `es` that carries `tag`. */
  function FirstWithTag(es: seq<Element>, tag: string): (r: Option<Element>)
  {
    if es == [] then None
    else if es[0].tag == tag then Some(es[0])
    else FirstWithTag(es[1..], tag)
  }

  /** `e.findall(tag)`: every direct child with that tag, in document order. */
  function FindAll(e: Element, tag: string): seq<Element>
  {
    WithTag(e.children, tag)
  }

  /** `e.find(tag)`: the first direct child with that tag, if any. */
  function Find(e: Element, tag: string): Option<Element>
  {
    FirstWithTag(e.children, tag)
  }

  lemma {:induction false} FirstWithTagIsHead(es: seq<Element>, tag: string)
    ensures FirstWithTag(es, tag) ==
            (if WithTag(es, tag) == [] then None else Some(WithTag(es, tag)[0]))
    decreases |es|
  {
    if es != [] && es[0].tag != tag {
      FirstWithTagIsHead(es[1..], tag);
    }
  }

  /** `find` returns exactly the first element `findall` returns, and
      nothing when `findall` returns nothing. */
  lemma FindIsFirstOfFindAll(e: Element, tag: string)
    ensures Find(e, tag).None? <==> FindAll(e, tag) == []
    ensures Find(e, tag).Some? ==> Find(e, tag).value == FindAll(e, tag)[0]
  {
    FirstWithTagIsHead(e.children, tag);
  }
}
