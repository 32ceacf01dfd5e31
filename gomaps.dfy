/**
 * Go's `for k, v := range m` over a map visits every key present when the
 * loop starts exactly once, in an order the runtime chooses. This module
 * names such an order and produces one.
 */
module GoMaps {

  /** `order` lists every element of `keys` exactly once. */
  ghost predicate IsEnumeration(order: seq<string>, keys: set<string>)
  {
    && (forall k :: k in order <==> k in keys)
    && (forall i, j :: 0 <= i < j < |order| ==> order[i] != order[j])
  }

  /** The only enumeration of the empty set is the empty sequence. */
  lemma EnumerationOfEmpty(order: seq<string>)
    requires IsEnumeration(order, {})
    ensures order == []
  {
    if order != [] {
      ElementOf(order, 0);
      assert false;
    }
  }

  lemma ElementOf(order: seq<string>, i: nat)
    requires i < |order|
    ensures order[i] in order
  {
  }

  /** The only enumeration of a one-element set is that element alone. */
  lemma EnumerationOfSingleton(order: seq<string>, x: string)
    requires IsEnumeration(order, {x})
    ensures order == [x]
  {
    assert x in order;
    if |order| > 1 {
      ElementOf(order, 0);
      ElementOf(order, 1);
      assert false;
    }
    ElementOf(order, 0);
  }

  /**
   * The keys of `m`, in the order in which a `range` loop over `m` visits
   * them; which order that is, is left open.
   */
  method Keys<V>(m: map<string, V>) returns (order: seq<string>)
    ensures IsEnumeration(order, m.Keys)
  {
    order := [];
    var rest := m.Keys;
    while rest != {}
      invariant rest <= m.Keys
      invariant forall k :: k in order <==> k in m.Keys && k !in rest
      invariant forall i, j :: 0 <= i < j < |order| ==> order[i] != order[j]
      decreases rest
    {
      var k :| k in rest;
      order := order + [k];
      rest := rest - {k};
    }
  }
}
