/**
 * The element collection of a Cytoscape graph as the two graph views fill
 * it: nodes and edges, each with an id. Adding an element whose id is
 * already taken, or an edge whose source or target is not a node, leaves the
 * collection as it was (Cytoscape reports the error and skips the element).
 */
module GraphElements {
  import opened Seqs

  datatype Element =
    | Node(id: string, caption: string, kind: string)
    | Link(id: string, source: string, target: string, caption: string, kind: string)

  function Ids(es: seq<Element>): (ids: seq<string>)
    ensures |ids| == |es|
    ensures forall i :: 0 <= i < |es| ==> ids[i] == es[i].id
  {
    if es == [] then [] else Ids(es[..|es| - 1]) + [es[|es| - 1].id]
  }

  /** `cy.getElementById(id).length`: some element, node or edge, has the id. */
  predicate HasId(es: seq<Element>, id: string) {
    id in Ids(es)
  }

  /** A node with the id is in the collection. */
  predicate HasNode(es: seq<Element>, id: string) {
    exists i :: 0 <= i < |es| && es[i].Node? && es[i].id == id
  }

  /** Ids are unique, and every edge joins two nodes of the collection. */
  predicate Valid(es: seq<Element>) {
    Distinct(Ids(es)) &&
    forall i :: 0 <= i < |es| && es[i].Link? ==> HasNode(es, es[i].source) && HasNode(es, es[i].target)
  }

  /** Cytoscape takes an element when its id is new and, for an edge, both ends are nodes. */
  predicate Accepts(es: seq<Element>, e: Element) {
    !HasId(es, e.id) && (e.Link? ==> HasNode(es, e.source) && HasNode(es, e.target))
  }

  /** `cy.add(e)`. */
  function WithElement(es: seq<Element>, e: Element): (r: seq<Element>)
    ensures Accepts(es, e) ==> r == es + [e]
    ensures !Accepts(es, e) ==> r == es
  {
    if Accepts(es, e) then es + [e] else es
  }

  /** `cy.add(list)`: the elements one after another. */
  function WithElements(es: seq<Element>, xs: seq<Element>): seq<Element> {
    if xs == [] then es else WithElement(WithElements(es, xs[..|xs| - 1]), xs[|xs| - 1])
  }

  lemma WithElementsSnoc(es: seq<Element>, xs: seq<Element>, e: Element)
    ensures WithElements(es, xs + [e]) == WithElement(WithElements(es, xs), e)
  {
    assert (xs + [e])[..|xs + [e]| - 1] == xs;
  }

  /** Adding a list in two parts is adding it at once. */
  lemma {:induction false} WithElementsAppend(es: seq<Element>, xs: seq<Element>, ys: seq<Element>)
    ensures WithElements(es, xs + ys) == WithElements(WithElements(es, xs), ys)
    decreases |ys|
  {
    if ys == [] {
      assert xs + ys == xs;
    } else {
      var init, last := ys[..|ys| - 1], ys[|ys| - 1];
      calc {
        WithElements(es, xs + ys);
        { assert xs + ys == (xs + init) + [last]; }
        WithElements(es, (xs + init) + [last]);
        { WithElementsSnoc(es, xs + init, last); }
        WithElement(WithElements(es, xs + init), last);
        { WithElementsAppend(es, xs, init); }
        WithElement(WithElements(WithElements(es, xs), init), last);
      }
    }
  }

  lemma NodeStays(es: seq<Element>, e: Element, id: string)
    requires HasNode(es, id)
    ensures HasNode(es + [e], id)
  {
    var i :| 0 <= i < |es| && es[i].Node? && es[i].id == id;
    assert (es + [e])[i] == es[i];
  }

  /** Every addition keeps the collection valid. */
  lemma WithElementValid(es: seq<Element>, e: Element)
    requires Valid(es)
    ensures Valid(WithElement(es, e))
  {
    if Accepts(es, e) {
      var r := es + [e];
      assert Ids(r) == Ids(es) + [e.id];
      DistinctSnoc(Ids(es), e.id);
      forall i | 0 <= i < |r| && r[i].Link?
        ensures HasNode(r, r[i].source) && HasNode(r, r[i].target)
      {
        if i < |es| {
          assert r[i] == es[i];
          NodeStays(es, e, es[i].source);
          NodeStays(es, e, es[i].target);
        } else {
          NodeStays(es, e, e.source);
          NodeStays(es, e, e.target);
        }
      }
    }
  }

  lemma {:induction false} WithElementsValid(es: seq<Element>, xs: seq<Element>)
    requires Valid(es)
    ensures Valid(WithElements(es, xs))
  {
    if xs != [] {
      WithElementsValid(es, xs[..|xs| - 1]);
      WithElementValid(WithElements(es, xs[..|xs| - 1]), xs[|xs| - 1]);
    }
  }

  /** Elements already there stay, in their places. */
  lemma {:induction false} WithElementsExtends(es: seq<Element>, xs: seq<Element>)
    ensures |es| <= |WithElements(es, xs)| && WithElements(es, xs)[..|es|] == es
  {
    if xs != [] {
      WithElementsExtends(es, xs[..|xs| - 1]);
      var prev := WithElements(es, xs[..|xs| - 1]);
      assert (prev + [xs[|xs| - 1]])[..|es|] == prev[..|es|];
    }
  }

  /** Whatever ends up in the collection was there before or was offered. */
  lemma {:induction false} WithElementsFrom(es: seq<Element>, xs: seq<Element>, e: Element)
    requires e in WithElements(es, xs)
    ensures e in es || e in xs
  {
    if xs != [] {
      var init := xs[..|xs| - 1];
      if e in WithElements(es, init) {
        WithElementsFrom(es, init, e);
        if e in init { assert e in xs; }
      }
    }
  }

  /** Into an empty collection the first element is always taken. */
  lemma FirstNodeTaken(n: Element, xs: seq<Element>)
    requires n.Node?
    ensures |WithElements([], [n] + xs)| > 0 && WithElements([], [n] + xs)[0] == n
  {
    WithElementsAppend([], [n], xs);
    assert [n][..0] == [];
    assert WithElements([], [n]) == [n];
    WithElementsExtends([n], xs);
  }
}
