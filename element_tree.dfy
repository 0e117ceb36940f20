/**
 * The parsed XML document and the part of ElementTree's path language that the
 * report processors use: `.` for the element itself, and `/`-separated child
 * steps by tag, each with any number of exact `[@attr='value']` predicates.
 */
module ElementTree {
  import opened Wrappers

  /** An element: tag, attributes, optional text, and its children in document order. */
  datatype Element = Element(tag: string, attrs: map<string, string>, text: Option<string>, children: seq<Element>)

  /** One child step `tag[@a='v'][@b='w']`; the predicates compare attribute values literally. */
  datatype Step = Step(tag: string, predicates: seq<(string, string)>)

  /** A relative path: the empty path is `.`, otherwise one step per `/`-separated part. */
  type Path = seq<Step>

  /** A child step selects `e` when the tag is equal and every named attribute has exactly the given value. */
  predicate Selects(s: Step, e: Element) {
    e.tag == s.tag &&
    forall i :: 0 <= i < |s.predicates| ==>
      s.predicates[i].0 in e.attrs && e.attrs[s.predicates[i].0] == s.predicates[i].1
  }

  /** `e.findall(p)`: the elements `p` reaches from `e`, in document order. */
  function FindAll(e: Element, p: Path): seq<Element>
    decreases |p|, 1, 0
  {
    if p == [] then [e] else FindAllIn(e.children, p[0], p[1..])
  }

  /** The elements `rest` reaches from those of `cs` that `s` selects, child after child. */
  function FindAllIn(cs: seq<Element>, s: Step, rest: Path): seq<Element>
    decreases |rest| + 1, 0, |cs|
  {
    if cs == [] then []
    else (if Selects(s, cs[0]) then FindAll(cs[0], rest) else []) + FindAllIn(cs[1..], s, rest)
  }

  /** `.` finds the element itself and nothing else. */
  lemma FindAllSelf(e: Element)
    ensures FindAll(e, []) == [e]
  {
  }

  /** Every element a non-empty path finds is selected by its last step. */
  lemma {:induction false} FindAllSound(e: Element, p: Path)
    requires p != []
    ensures forall x :: x in FindAll(e, p) ==> Selects(p[|p| - 1], x)
    decreases |p|, 1, 0
  {
    FindAllInSound(e.children, p[0], p[1..]);
    assert p[1..] != [] ==> p[1..][|p[1..]| - 1] == p[|p| - 1];
  }

  lemma {:induction false} FindAllInSound(cs: seq<Element>, s: Step, rest: Path)
    ensures forall x :: x in FindAllIn(cs, s, rest) ==> Selects(if rest == [] then s else rest[|rest| - 1], x)
    decreases |rest| + 1, 0, |cs|
  {
    if cs != [] {
      FindAllInSound(cs[1..], s, rest);
      if Selects(s, cs[0]) && rest != [] {
        FindAllSound(cs[0], rest);
      }
    }
  }

  /** A single step finds exactly the children it selects, in their order. */
  lemma {:induction false} FindAllOneStep(e: Element, s: Step)
    ensures FindAll(e, [s]) == Filter(e.children, s)
  {
    FindAllInOneStep(e.children, s);
    assert [s][1..] == [];
  }

  /** The elements of `cs` that `s` selects, in order. */
  function Filter(cs: seq<Element>, s: Step): (r: seq<Element>)
    ensures forall x :: x in r <==> x in cs && Selects(s, x)
  {
    if cs == [] then []
    else (if Selects(s, cs[0]) then [cs[0]] else []) + Filter(cs[1..], s)
  }

  lemma {:induction false} FindAllInOneStep(cs: seq<Element>, s: Step)
    ensures FindAllIn(cs, s, []) == Filter(cs, s)
  {
    if cs != [] {
      FindAllInOneStep(cs[1..], s);
    }
  }

  /** `e.text` of every element, in order. */
  function Texts(es: seq<Element>): (r: seq<Option<string>>)
    ensures |r| == |es|
    ensures forall i :: 0 <= i < |es| ==> r[i] == es[i].text
  {
    if es == [] then [] else [es[0].text] + Texts(es[1..])
  }
}
