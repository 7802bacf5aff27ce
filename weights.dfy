/** The per-element property table, the fail-fast check that every element
    has every requested property, and the symmetric pair-weight table
    `prop_dict`. */
module Weights {
  import opened Errors

  /** One atomic property: element symbol to value. */
  type PropertyValues = map<string, real>

  /** The atomic property dictionary `apd`: property name to its values. */
  type PropertyTable = map<string, PropertyValues>

  /** `[apd[name] for name in props]`: the requested properties in order, or a
      KeyError for the first name the table lacks. */
  function PropertyList(table: PropertyTable, names: seq<string>): (r: Result<seq<PropertyValues>>)
    ensures r.Ok? <==> forall k :: 0 <= k < |names| ==> names[k] in table
    ensures r.Ok? ==> |r.value| == |names| && forall k :: 0 <= k < |names| ==> r.value[k] == table[names[k]]
    ensures r.Err? ==> exists k :: 0 <= k < |names| && r.error == UnknownProperty(names[k])
                                   && names[k] !in table
                                   && forall l :: 0 <= l < k ==> names[l] in table
  {
    if |names| == 0 then Ok([])
    else if names[0] !in table then Err(UnknownProperty(names[0]))
    else
      match PropertyList(table, names[1..])
      case Err(e) =>
        assert forall l :: 1 <= l < |names| ==> names[l] == names[1..][l - 1];
        Err(e)
      case Ok(rest) => Ok([table[names[0]]] + rest)
  }

  /** Element `a` has a value for every property in `props`. */
  predicate HasEvery(props: seq<PropertyValues>, a: string) {
    forall p :: 0 <= p < |props| ==> a in props[p]
  }

  /** Every element of the structure has a value for every requested property. */
  predicate Covers(elements: seq<string>, props: seq<PropertyValues>) {
    forall e :: e in elements ==> HasEvery(props, e)
  }

  /** The outcome of the property check: nothing lacking, or an element and
      the position of a property it has no value for. */
  datatype Lack = NoneLacking | Lacking(element: string, index: nat)

  /** The check at the top of `calc_rdfs`: for each distinct element, in the
      set's (unspecified) iteration order, and each requested property in
      order, stop at the first element without a value; the reported property
      is that element's first missing one. */
  method CheckProperties(elements: seq<string>, props: seq<PropertyValues>) returns (lack: Lack)
    ensures lack.NoneLacking? <==> Covers(elements, props)
    ensures lack.Lacking? ==> lack.element in elements && lack.index < |props|
                              && lack.element !in props[lack.index]
    ensures lack.Lacking? ==> forall p :: 0 <= p < lack.index ==> lack.element in props[p]
  {
    var rest := set e | e in elements;
    while rest != {}
      invariant forall e :: e in rest ==> e in elements
      invariant forall e :: e in elements && e !in rest ==> HasEvery(props, e)
      decreases rest
    {
      var atom :| atom in rest;
      var count := 0;
      while count < |props|
        invariant 0 <= count <= |props|
        invariant forall p :: 0 <= p < count ==> atom in props[p]
      {
        if atom !in props[count] {
          return Lacking(atom, count);
        }
        count := count + 1;
      }
      rest := rest - {atom};
    }
    return NoneLacking;
  }

  /** Lines 42-48 as written: the same loop, but once an element lacks a
      property the arguments of the warning are evaluated first, and
      `prop_names` is bound nowhere, so the call ends with a NameError that
      names neither the element nor the property, and the warning is never
      printed. */
  method CheckAsWritten(elements: seq<string>, props: seq<PropertyValues>) returns (r: Result<()>)
    ensures r.Ok? <==> Covers(elements, props)
    ensures r.Err? ==> r.error == UndefinedName("prop_names")
  {
    var lack := CheckProperties(elements, props);
    if lack.Lacking? {
      return Err(UndefinedName("prop_names"));
    }
    return Ok(());
  }

  /** A structure of zinc and oxygen with an electronegativity listed only for
      zinc: as written, the check stops with an error that is not a report of
      the missing property. */
  method AsWrittenHidesMissingProperty() returns (r: Result<()>)
    ensures r.Err? && !r.error.MissingProperty? && r.error == UndefinedName("prop_names")
  {
    var props := [map["Zn" := 1.65]];
    assert "O" in ["Zn", "O"] && "O" !in props[0];
    r := CheckAsWritten(["Zn", "O"], props);
  }

  /** `[prop[a1] * prop[a2] for prop in prop_list]`: the weight of the element
      pair (a1, a2), one product per requested property. */
  function PairWeight(props: seq<PropertyValues>, a1: string, a2: string): (w: seq<real>)
    requires HasEvery(props, a1) && HasEvery(props, a2)
    ensures |w| == |props|
  {
    seq(|props|, p requires 0 <= p < |props| => props[p][a1] * props[p][a2])
  }

  /** The weight of a pair does not depend on the order of its elements. */
  lemma PairWeightSymmetric(props: seq<PropertyValues>, a1: string, a2: string)
    requires HasEvery(props, a1) && HasEvery(props, a2)
    ensures PairWeight(props, a1, a2) == PairWeight(props, a2, a1)
  {
    assert forall p :: 0 <= p < |props| ==> PairWeight(props, a1, a2)[p] == PairWeight(props, a2, a1)[p];
  }

  /** Every property value is non-negative. */
  predicate NonNegativeValues(props: seq<PropertyValues>) {
    forall p, e :: 0 <= p < |props| && e in props[p] ==> props[p][e] >= 0.0
  }

  /** With non-negative property values, every pair weight is non-negative. */
  lemma PairWeightNonNegative(props: seq<PropertyValues>, a1: string, a2: string, p: int)
    requires HasEvery(props, a1) && HasEvery(props, a2)
    requires NonNegativeValues(props)
    requires 0 <= p < |props|
    ensures PairWeight(props, a1, a2)[p] >= 0.0
  {
    assert props[p][a1] >= 0.0 && props[p][a2] >= 0.0;
  }

  /** Iterating over a set: its elements, each once, in an unspecified order. */
  method Enumerate(s: set<string>) returns (u: seq<string>)
    ensures forall x :: x in u <==> x in s
    ensures forall x, y :: 0 <= x < y < |u| ==> u[x] != u[y]
  {
    u := [];
    var rest := s;
    while rest != {}
      invariant rest <= s
      invariant forall x :: x in u <==> x in s && x !in rest
      invariant forall x, y :: 0 <= x < y < |u| ==> u[x] != u[y]
      decreases rest
    {
      var a :| a in rest;
      u := u + [a];
      rest := rest - {a};
    }
  }

  /** The loop that fills `prop_dict`: for every pair of distinct elements
      taken with replacement, store the pair weight under both orders. The
      table has a key for exactly every ordered pair of elements present,
      each entry is the pair weight, and the table is symmetric. */
  method BuildWeights(elements: seq<string>, props: seq<PropertyValues>)
    returns (d: map<(string, string), seq<real>>)
    requires Covers(elements, props)
    ensures forall a, b :: (a, b) in d <==> a in elements && b in elements
    ensures forall k :: k in d ==> d[k] == PairWeight(props, k.0, k.1)
    ensures forall k :: k in d ==> (k.1, k.0) in d && d[(k.1, k.0)] == d[k]
  {
    var u := Enumerate(set e | e in elements);
    assert forall x :: 0 <= x < |u| ==> u[x] in elements by {
      forall x | 0 <= x < |u| ensures u[x] in elements {
        assert u[x] in u;
      }
    }
    d := map[];
    var i := 0;
    while i < |u|
      invariant 0 <= i <= |u|
      invariant forall k :: k in d ==>
                  k.0 in elements && k.1 in elements && d[k] == PairWeight(props, k.0, k.1)
      invariant forall x, y :: 0 <= x < |u| && 0 <= y < |u| && (x < i || y < i) ==> (u[x], u[y]) in d
    {
      var j := i;
      while j < |u|
        invariant i <= j <= |u|
        invariant forall k :: k in d ==>
                    k.0 in elements && k.1 in elements && d[k] == PairWeight(props, k.0, k.1)
        invariant forall x, y :: 0 <= x < |u| && 0 <= y < |u|
                                 && (x < i || y < i || (x == i && y < j) || (y == i && x < j))
                                 ==> (u[x], u[y]) in d
      {
        var a1, a2 := u[i], u[j];
        var w := PairWeight(props, a1, a2);
        d := d[(a1, a2) := w];
        if a1 != a2 {
          PairWeightSymmetric(props, a1, a2);
          d := d[(a2, a1) := w];
        }
        j := j + 1;
      }
      i := i + 1;
    }
    forall a, b | a in elements && b in elements ensures (a, b) in d {
      assert a in u && b in u;
      var x :| 0 <= x < |u| && u[x] == a;
      var y :| 0 <= y < |u| && u[y] == b;
    }
    forall k | k in d ensures (k.1, k.0) in d && d[(k.1, k.0)] == d[k] {
      PairWeightSymmetric(props, k.0, k.1);
    }
  }
}
