/** The part of a link that never changes: its identity, its ends and how it carries traffic. */
module Wires {
  import opened Common

  datatype Mode = FullDuplex | HalfDuplex | Simplex

  datatype WireData = Wire(id: nat, a: int, b: int, bandwidth: real, delay: real, mode: Mode)

  /** Links are only built by Topology::addLinkPtr, which refuses anything else. */
  type Wire = w: WireData | w.a >= 0 && w.b >= 0 && w.a != w.b && w.bandwidth > 0.0 && w.delay >= 0.0
    witness WireData.Wire(0, 0, 1, 1.0, 0.0, FullDuplex)

  /** The far end, or -1 for a node that is neither. */
  function Other(w: Wire, node: int): int
  {
    if node == w.a then w.b else if node == w.b then w.a else -1
  }

  predicate Touches(w: Wire, node: int) { w.a == node || w.b == node }

  predicate Joins(w: Wire, a: int, b: int)
  {
    (w.a == a && w.b == b) || (w.a == b && w.b == a)
  }

  /** The oldest of some links that joins two nodes, either way round, or -1. */
  function FindJoin<L>(links: seq<L>, wire: L -> Wire, a: int, b: int): (i: int)
    ensures -1 <= i < |links|
    ensures i >= 0 ==> Joins(wire(links[i]), a, b)
    ensures forall k :: 0 <= k < |links| && (i == -1 || k < i) ==> !Joins(wire(links[k]), a, b)
  {
    FirstIndex(links, (l: L) => Joins(wire(l), a, b))
  }

  /** A loop that stops at the first link joining the two nodes finds it. */
  lemma FindJoinUnique<L>(links: seq<L>, wire: L -> Wire, a: int, b: int, i: nat)
    requires i <= |links| && (forall k :: 0 <= k < i ==> !Joins(wire(links[k]), a, b))
    requires i < |links| ==> Joins(wire(links[i]), a, b)
    ensures FindJoin(links, wire, a, b) == if i == |links| then -1 else i
  {
  }

  /** The links that do not touch a node. */
  function WithoutNode<L>(links: seq<L>, wire: L -> Wire, node: int): (r: seq<L>)
    ensures forall l :: l in r ==> l in links && !Touches(wire(l), node)
    ensures forall l :: l in links && !Touches(wire(l), node) ==> l in r
  {
    if links == [] then []
    else
      assert links == [links[0]] + links[1..];
      (if Touches(wire(links[0]), node) then [] else [links[0]]) + WithoutNode(links[1..], wire, node)
  }
}
