/** `calc_rdfs`: the atomic-property-weighted radial distribution function of
    a periodic structure, accumulated over atom pairs into distance bins. */
module Rdf {
  import opened Numerics
  import opened Errors
  import opened Lattice
  import opened Weights
  import opened AtomPairs
  import Bins

  /** A parsed structure: the cell, and the parallel lists of element symbols
      and fractional coordinates of its atoms. */
  datatype Structure = Structure(cell: Cell, elements: seq<string>, frac: seq<Vec3>)

  /** Everything the pair pass reads: the numeric functions, the distance it
      measures between two fractional positions, the atoms, the requested
      properties, the bin centres and `smooth`. */
  datatype PairPass = PairPass(math: Math, distance: (Vec3, Vec3) -> real,
                               frac: seq<Vec3>, elements: seq<string>,
                               props: seq<PropertyValues>, bins: seq<real>, smooth: real)

  /** The pair pass of `calc_rdfs`: distances are minimum-image distances
      under the cell matrix `frame`. */
  function Pass(m: Math, frame: Mat3, s: Structure, props: seq<PropertyValues>,
                bins: seq<real>, smooth: real): (c: PairPass)
    ensures forall a, b :: c.distance(a, b) == MinImageDistance(m, frame, a, b)
  {
    PairPass(m, (a, b) => MinImageDistance(m, frame, a, b), s.frac, s.elements, props, bins, smooth)
  }

  predicate Valid(c: PairPass) {
    |c.frac| == |c.elements| && Covers(c.elements, c.props)
  }

  /** Pairs of atom indices of the structure. */
  predicate InRange(s: seq<(nat, nat)>, n: nat) {
    forall k :: 0 <= k < |s| ==> s[k].0 < n && s[k].1 < n
  }

  /** `dist_ij`, the minimum-image distance between atoms i and j. */
  function Distance(c: PairPass, i: nat, j: nat): real
    requires Valid(c) && i < |c.frac| && j < |c.frac|
  {
    c.distance(c.frac[i], c.frac[j])
  }

  /** The weight of atoms i and j for property p, from `prop_dict`. */
  function Weight(c: PairPass, i: nat, j: nat, p: nat): real
    requires Valid(c) && i < |c.elements| && j < |c.elements| && p < |c.props|
  {
    assert c.elements[i] in c.elements && c.elements[j] in c.elements;
    PairWeight(c.props, c.elements[i], c.elements[j])[p]
  }

  /** `exp(smooth * (bins[b] - d)²)`. */
  function Gaussian(c: PairPass, b: nat, d: real): (g: real)
    requires b < |c.bins|
    ensures Sound(c.math) ==> g > 0.0
  {
    c.math.exp(c.smooth * Sq(c.bins[b] - d))
  }

  /** What pair (i, j) adds to bin b of property p: nothing when the pair's
      weight for p is zero. */
  function Term(c: PairPass, i: nat, j: nat, p: nat, b: nat): (t: real)
    requires Valid(c) && i < |c.elements| && j < |c.elements| && p < |c.props| && b < |c.bins|
    ensures Weight(c, i, j, p) == 0.0 ==> t == 0.0
  {
    Gaussian(c, b, Distance(c, i, j)) * Weight(c, i, j, p)
  }

  /** The sum of the terms of a list of pairs, added in list order. A pair
      naming an atom outside the structure adds nothing; `PairsInRange`
      shows that the pair loop never meets one. */
  function SumTerms(c: PairPass, s: seq<(nat, nat)>, p: nat, b: nat): real
    requires Valid(c) && p < |c.props| && b < |c.bins|
    decreases |s|
  {
    if |s| == 0 then 0.0
    else
      var last := s[|s| - 1];
      SumTerms(c, s[..|s| - 1], p, b)
      + (if last.0 < |c.elements| && last.1 < |c.elements| then Term(c, last.0, last.1, p, b) else 0.0)
  }

  /** Every pair of the loop names two atoms of the structure. */
  lemma PairsInRange(n: nat)
    ensures InRange(Pairs(n), n)
  {
    forall k | 0 <= k < |Pairs(n)| ensures Pairs(n)[k].0 < n && Pairs(n)[k].1 < n {
      PairsMembers(n, Pairs(n)[k]);
    }
  }

  /** `apw_rdf[p, b]` once every pair has been added; a structure with at
      most one atom has no pair and leaves it zero. */
  function Accumulated(c: PairPass, p: nat, b: nat): (r: real)
    requires Valid(c) && p < |c.props| && b < |c.bins|
    ensures |c.elements| <= 1 ==> r == 0.0
  {
    PairsCount(|c.elements|);
    SumTerms(c, Pairs(|c.elements|), p, b)
  }

  /** Position k of the flattened accumulator is row k / nb, column k % nb. */
  lemma FlatIndex(k: int, np: nat, nb: nat)
    requires 0 <= k < np * nb
    ensures nb > 0 && 0 <= k / nb < np && 0 <= k % nb < nb
  {
    assert nb != 0;
    var q := k / nb;
    assert q * nb <= k;
    assert (np - q) * nb > 0;
  }

  /** Entry k of the flattened accumulator. */
  function FlatEntry(c: PairPass, k: int): real
    requires Valid(c) && 0 <= k < |c.props| * |c.bins|
  {
    FlatIndex(k, |c.props|, |c.bins|);
    Accumulated(c, k / |c.bins|, k % |c.bins|)
  }

  /** `apw_rdf.flatten()`: the accumulator row after row, property-major. */
  function Flat(c: PairPass): (r: seq<real>)
    requires Valid(c)
    ensures |r| == |c.props| * |c.bins|
  {
    seq(|c.props| * |c.bins|, k requires 0 <= k < |c.props| * |c.bins| => FlatEntry(c, k))
  }

  /** The descriptor before rounding: the flattened accumulator multiplied by
      `factor` and divided by the number of atoms. */
  function Descriptor(c: PairPass, factor: real): (r: seq<real>)
    requires Valid(c) && |c.elements| > 0
    ensures |r| == |c.props| * |c.bins|
  {
    var flat := Flat(c);
    seq(|flat|, k requires 0 <= k < |flat| => Scale(flat[k], factor, |c.elements|))
  }

  /** `x * factor / n_atoms`. */
  function Scale(x: real, factor: real, n: nat): real
    requires n > 0
  {
    x * factor / (n as real)
  }

  /** `apw_rdf += (rdf.repeat(n_props).reshape(n_bins, n_props) * w).T`:
      entry (p, b) of the accumulator grows by `rdf[b] * w[p]`. */
  method AddOuter(apw: array2<real>, rdf: seq<real>, w: seq<real>)
    requires apw.Length0 == |w| && apw.Length1 == |rdf|
    modifies apw
    ensures forall p, b :: 0 <= p < |w| && 0 <= b < |rdf| ==>
              apw[p, b] == old(apw[p, b]) + rdf[b] * w[p]
  {
    forall p, b | 0 <= p < |w| && 0 <= b < |rdf| {
      apw[p, b] := apw[p, b] + rdf[b] * w[p];
    }
  }

  /** Adding one pair at the end of the list adds its term to the sum. */
  lemma SumTermsSnoc(c: PairPass, s: seq<(nat, nat)>, pr: (nat, nat), p: nat, b: nat)
    requires Valid(c) && pr.0 < |c.elements| && pr.1 < |c.elements|
    requires p < |c.props| && b < |c.bins|
    ensures SumTerms(c, s + [pr], p, b) == SumTerms(c, s, p, b) + Term(c, pr.0, pr.1, p, b)
  {
    assert (s + [pr])[..|s|] == s;
  }

  /** The accumulator holds, at every (p, b), the sum of the terms of `done`. */
  ghost predicate Holds(c: PairPass, apw: array2<real>, done: seq<(nat, nat)>)
    reads apw
    requires Valid(c)
  {
    && apw.Length0 == |c.props| && apw.Length1 == |c.bins|
    && forall p, b :: 0 <= p < |c.props| && 0 <= b < |c.bins| ==> apw[p, b] == SumTerms(c, done, p, b)
  }

  /** One step of the pair pass, for atoms i and j: the minimum-image
      distance `dist_ij`, the vector `rdf` of Gaussians of every bin centre
      around it, and its product with the pair's weights added into the
      accumulator. */
  method AddPair(c: PairPass, apw: array2<real>, i: nat, j: nat, w: seq<real>)
    requires Valid(c) && i < |c.elements| && j < |c.elements|
    requires apw.Length0 == |c.props| && apw.Length1 == |c.bins|
    requires |w| == |c.props| && forall p :: 0 <= p < |w| ==> w[p] == Weight(c, i, j, p)
    modifies apw
    ensures forall p, b :: 0 <= p < |c.props| && 0 <= b < |c.bins| ==>
              apw[p, b] == old(apw[p, b]) + Term(c, i, j, p, b)
  {
    var dist := Distance(c, i, j);
    var rdf := seq(|c.bins|, b requires 0 <= b < |c.bins| => Gaussian(c, b, dist));
    AddOuter(apw, rdf, w);
  }

  /** `AddPair`, with the accumulator's meaning carried along: it held the
      sums over `done` and holds the sums over `done` and (i, j) afterwards. */
  method AddPairHolds(c: PairPass, apw: array2<real>, i: nat, j: nat, w: seq<real>,
                      ghost done: seq<(nat, nat)>)
    requires Valid(c) && i < |c.elements| && j < |c.elements|
    requires |w| == |c.props| && forall p :: 0 <= p < |w| ==> w[p] == Weight(c, i, j, p)
    requires Holds(c, apw, done)
    modifies apw
    ensures Holds(c, apw, done + [(i, j)])
  {
    AddPair(c, apw, i, j, w);
    forall p, b | 0 <= p < |c.props| && 0 <= b < |c.bins|
      ensures apw[p, b] == SumTerms(c, done + [(i, j)], p, b)
    {
      SumTermsSnoc(c, done, (i, j), p, b);
    }
  }

  /** `prop_dict` has an entry for the elements of atoms i and j, and it
      holds the pair's weights. */
  predicate WeightTable(c: PairPass, weights: map<(string, string), seq<real>>)
    requires Valid(c)
  {
    forall i, j :: 0 <= i < |c.elements| && 0 <= j < |c.elements| ==>
      && (c.elements[i], c.elements[j]) in weights
      && |weights[(c.elements[i], c.elements[j])]| == |c.props|
      && forall p :: 0 <= p < |c.props| ==> weights[(c.elements[i], c.elements[j])][p] == Weight(c, i, j, p)
  }

  /** A table keyed by every pair of present elements, each entry the pair's
      weights, serves every lookup of the pair loop. */
  lemma TableOfWeights(c: PairPass, weights: map<(string, string), seq<real>>)
    requires Valid(c)
    requires forall a, b :: a in c.elements && b in c.elements ==>
               (a, b) in weights && weights[(a, b)] == PairWeight(c.props, a, b)
    ensures WeightTable(c, weights)
  {
    forall i, j | 0 <= i < |c.elements| && 0 <= j < |c.elements|
      ensures (c.elements[i], c.elements[j]) in weights
      ensures weights[(c.elements[i], c.elements[j])] == PairWeight(c.props, c.elements[i], c.elements[j])
    {
      assert c.elements[i] in c.elements && c.elements[j] in c.elements;
    }
  }

  /** The pair loop: for each pair (i, j) of `combinations(range(n), 2)`, in
      order, add the pair's terms into the accumulator; afterwards entry
      (p, b) holds the sum over all pairs. */
  method AccumulatePairs(c: PairPass, weights: map<(string, string), seq<real>>)
    returns (apw: array2<real>)
    requires Valid(c) && WeightTable(c, weights)
    ensures fresh(apw)
    ensures apw.Length0 == |c.props| && apw.Length1 == |c.bins|
    ensures forall p, b :: 0 <= p < |c.props| && 0 <= b < |c.bins| ==> apw[p, b] == Accumulated(c, p, b)
  {
    var pairs := Pairs(|c.elements|);
    PairsInRange(|c.elements|);
    apw := Zeros(c);
    var k := 0;
    while k < |pairs|
      invariant 0 <= k <= |pairs|
      invariant Holds(c, apw, pairs[..k])
    {
      var (i, j) := pairs[k];
      var w := weights[(c.elements[i], c.elements[j])];
      AddPairHolds(c, apw, i, j, w, pairs[..k]);
      assert pairs[..k] + [(i, j)] == pairs[..k + 1];
      k := k + 1;
    }
    assert pairs[..k] == pairs;
  }

  /** `np.zeros([n_props, n_bins])`: the sums over no pairs at all. */
  method Zeros(c: PairPass) returns (apw: array2<real>)
    requires Valid(c)
    ensures fresh(apw)
    ensures Holds(c, apw, [])
  {
    apw := new real[|c.props|, |c.bins|]((p, b) => 0.0);
  }

  /** `apw_rdf.flatten() * factor / n_atoms`. */
  method Flatten(c: PairPass, apw: array2<real>, factor: real) returns (out: seq<real>)
    requires Valid(c) && |c.elements| > 0
    requires apw.Length0 == |c.props| && apw.Length1 == |c.bins|
    requires forall p, b :: 0 <= p < |c.props| && 0 <= b < |c.bins| ==> apw[p, b] == Accumulated(c, p, b)
    ensures out == Descriptor(c, factor)
  {
    var np, nb := |c.props|, |c.bins|;
    var flat := seq(np * nb, k requires 0 <= k < np * nb reads apw =>
                      FlatIndex(k, np, nb); apw[k / nb, k % nb]);
    forall k | 0 <= k < np * nb ensures flat[k] == Flat(c)[k] {
      FlatIndex(k, np, nb);
    }
    assert flat == Flat(c);
    out := seq(|flat|, k requires 0 <= k < |flat| => Scale(flat[k], factor, |c.elements|));
  }

  /** Row p, column b of an np × nb array sits at position p * nb + b of its
      row-major flattening. */
  lemma RowMajor(p: nat, b: nat, np: nat, nb: nat)
    requires p < np && b < nb
    ensures p * nb + b < np * nb
    ensures (p * nb + b) / nb == p && (p * nb + b) % nb == b
  {
    MulMono(p + 1, np, nb);
    assert (p + 1) * nb == p * nb + nb;
    var k := p * nb + b;
    var q, r := k / nb, k % nb;
    assert k == q * nb + r;
    assert (q - p) * nb == q * nb - p * nb;
    MulCancelLess(q - p, 1, nb);
    MulCancelLess(-1, q - p, nb);
  }

  lemma MulMono(x: int, y: int, n: int)
    requires x <= y && n >= 0
    ensures x * n <= y * n
  {
  }

  lemma MulCancelLess(x: int, y: int, n: int)
    requires n > 0 && x * n < y * n
    ensures x < y
  {
  }

  /** `out[p * n_bins + b]` is the sum, over the pairs i < j, of the pair's
      Gaussian at bin b times its weight for property p, scaled by
      `factor / n_atoms`. */
  lemma DescriptorEntry(c: PairPass, factor: real, p: nat, b: nat)
    requires Valid(c) && |c.elements| > 0 && p < |c.props| && b < |c.bins|
    ensures p * |c.bins| + b < |Descriptor(c, factor)|
    ensures Descriptor(c, factor)[p * |c.bins| + b]
            == Scale(Accumulated(c, p, b), factor, |c.elements|)
  {
    RowMajor(p, b, |c.props|, |c.bins|);
    assert Flat(c)[p * |c.bins| + b] == Accumulated(c, p, b);
    DescriptorAt(c, factor, p * |c.bins| + b);
  }

  /** The descriptor is additive in `factor`. */
  lemma DescriptorAdditive(c: PairPass, f: real, g: real, k: int)
    requires Valid(c) && |c.elements| > 0 && 0 <= k < |c.props| * |c.bins|
    ensures Descriptor(c, f + g)[k] == Descriptor(c, f)[k] + Descriptor(c, g)[k]
  {
    DescriptorAt(c, f + g, k);
    DescriptorAt(c, f, k);
    DescriptorAt(c, g, k);
    ScaleLinear(Flat(c)[k], f, g, 0.0, |c.elements|);
  }

  /** The descriptor is homogeneous in `factor`. */
  lemma DescriptorHomogeneous(c: PairPass, f: real, t: real, k: int)
    requires Valid(c) && |c.elements| > 0 && 0 <= k < |c.props| * |c.bins|
    ensures Descriptor(c, t * f)[k] == t * Descriptor(c, f)[k]
  {
    DescriptorAt(c, t * f, k);
    DescriptorAt(c, f, k);
    ScaleLinear(Flat(c)[k], f, 0.0, t, |c.elements|);
  }

  /** Entry k of the descriptor is entry k of the flattened accumulator, scaled. */
  lemma DescriptorAt(c: PairPass, factor: real, k: int)
    requires Valid(c) && |c.elements| > 0 && 0 <= k < |c.props| * |c.bins|
    ensures Descriptor(c, factor)[k] == Scale(Flat(c)[k], factor, |c.elements|)
  {
  }

  lemma ScaleLinear(x: real, f: real, g: real, t: real, n: nat)
    requires n > 0
    ensures Scale(x, f + g, n) == Scale(x, f, n) + Scale(x, g, n)
    ensures Scale(x, t * f, n) == t * Scale(x, f, n)
  {
  }

  /** With sound numerics and non-negative property values, every pair
      contributes a non-negative term. */
  lemma TermNonNegative(c: PairPass, i: nat, j: nat, p: nat, b: nat)
    requires Valid(c) && i < |c.elements| && j < |c.elements| && p < |c.props| && b < |c.bins|
    requires Sound(c.math) && NonNegativeValues(c.props)
    ensures Term(c, i, j, p, b) >= 0.0
  {
    assert c.elements[i] in c.elements && c.elements[j] in c.elements;
    PairWeightNonNegative(c.props, c.elements[i], c.elements[j], p);
    assert Gaussian(c, b, Distance(c, i, j)) > 0.0;
  }

  lemma {:induction false} SumTermsNonNegative(c: PairPass, s: seq<(nat, nat)>, p: nat, b: nat)
    requires Valid(c) && p < |c.props| && b < |c.bins|
    requires Sound(c.math) && NonNegativeValues(c.props)
    ensures SumTerms(c, s, p, b) >= 0.0
    decreases |s|
  {
    if |s| > 0 {
      SumTermsNonNegative(c, s[..|s| - 1], p, b);
      var last := s[|s| - 1];
      if last.0 < |c.elements| && last.1 < |c.elements| {
        TermNonNegative(c, last.0, last.1, p, b);
      }
    }
  }

  /** With non-negative property values and a non-negative `factor`, every
      entry of the descriptor is non-negative. */
  lemma DescriptorNonNegative(c: PairPass, factor: real)
    requires Valid(c) && |c.elements| > 0 && factor >= 0.0
    requires Sound(c.math) && NonNegativeValues(c.props)
    ensures forall k :: 0 <= k < |Descriptor(c, factor)| ==> Descriptor(c, factor)[k] >= 0.0
  {
    forall k | 0 <= k < |Descriptor(c, factor)| ensures Descriptor(c, factor)[k] >= 0.0 {
      FlatIndex(k, |c.props|, |c.bins|);
      SumTermsNonNegative(c, Pairs(|c.elements|), k / |c.bins|, k % |c.bins|);
      var x := Flat(c)[k];
      assert x >= 0.0;
      assert x * factor >= 0.0;
    }
  }

  /** A structure with a single atom has no pairs: every entry is zero. */
  lemma SingleAtomZero(c: PairPass, factor: real)
    requires Valid(c) && |c.elements| == 1
    ensures forall k :: 0 <= k < |Descriptor(c, factor)| ==> Descriptor(c, factor)[k] == 0.0
  {
    assert Row(0, 1) == [];
    assert Pairs(1) == [];
  }

  /** The pair pass measures distance symmetrically. */
  ghost predicate SymmetricDistance(c: PairPass) {
    forall a, b :: c.distance(a, b) == c.distance(b, a)
  }

  /** The minimum-image distance of `calc_rdfs` is symmetric. */
  lemma PassSymmetric(m: Math, frame: Mat3, s: Structure, props: seq<PropertyValues>,
                      bins: seq<real>, smooth: real)
    ensures SymmetricDistance(Pass(m, frame, s, props, bins, smooth))
  {
    forall a, b {
      MinImageSymmetric(m, frame, a, b);
    }
  }

  /** Visiting each unordered pair once loses nothing: pair (j, i) would
      contribute exactly what pair (i, j) does. */
  lemma TermSymmetric(c: PairPass, i: nat, j: nat, p: nat, b: nat)
    requires Valid(c) && i < |c.elements| && j < |c.elements| && p < |c.props| && b < |c.bins|
    requires SymmetricDistance(c)
    ensures Term(c, i, j, p, b) == Term(c, j, i, p, b)
  {
    assert c.elements[i] in c.elements && c.elements[j] in c.elements;
    PairWeightSymmetric(c.props, c.elements[i], c.elements[j]);
    assert Distance(c, i, j) == Distance(c, j, i);
  }

  /** The descriptor `calc_rdfs` returns, once the property check has passed:
      the cell volume and matrix, then the pair pass, then the normalisation.
      A failing volume comes first; no atoms means a division by zero; a
      degenerate cell matters only when some pair reads the matrix, so a
      single atom gives all zeros whatever the cell. */
  function Geometry(s: Structure, props: seq<PropertyValues>, smooth: real, factor: real,
                    bins: seq<real>, m: Math): (r: Result<seq<real>>)
    requires |s.frac| == |s.elements| && Covers(s.elements, props)
    ensures r.Err? <==> Volume(m, s.cell).Err? || |s.elements| == 0
                        || (|s.elements| >= 2 && !NonDegenerate(m, s.cell))
    ensures r.Err? && Volume(m, s.cell).Ok? && |s.elements| > 0 ==> r.error == DegenerateCell
    ensures r.Ok? ==> |r.value| == |props| * |bins|
  {
    match Volume(m, s.cell)
    case Err(e) => Err(e)
    case Ok(cv) =>
      if |s.elements| == 0 then Err(EmptyStructure)
      else if NonDegenerate(m, s.cell) then
        Ok(Descriptor(Pass(m, Frac2Cart(m, s.cell, cv), s, props, bins, smooth), factor))
      else if |s.elements| == 1 then Ok(seq(|props| * |bins|, k => 0.0))
      else Err(DegenerateCell)
  }

  /** A single atom gives all zeros, whether or not the cell is degenerate:
      the shortcut for a degenerate cell agrees with the pair pass. */
  lemma SingleAtomGeometry(s: Structure, props: seq<PropertyValues>, smooth: real, factor: real,
                           bins: seq<real>, m: Math)
    requires |s.frac| == |s.elements| == 1 && Covers(s.elements, props)
    requires Volume(m, s.cell).Ok?
    ensures Geometry(s, props, smooth, factor, bins, m).Ok?
    ensures forall k :: 0 <= k < |props| * |bins| ==> Geometry(s, props, smooth, factor, bins, m).value[k] == 0.0
  {
    if NonDegenerate(m, s.cell) {
      var c := Pass(m, Frac2Cart(m, s.cell, Volume(m, s.cell).value), s, props, bins, smooth);
      SingleAtomZero(c, factor);
    }
  }

  /** `calc_rdfs(name, props, smooth, factor)` on a parsed structure, with the
      module's bin grid passed as `bins`. An unknown property name fails first;
      then, before any geometry, an element without a requested property fails
      with an error naming both; otherwise the result is `Geometry`. */
  method CalcRdfs(s: Structure, names: seq<string>, table: PropertyTable, smooth: real,
                  factor: real, bins: seq<real>, m: Math) returns (r: Result<seq<real>>)
    requires |s.frac| == |s.elements|
    ensures PropertyList(table, names).Err? ==> r == Err(PropertyList(table, names).error)
    ensures PropertyList(table, names).Ok? ==>
              var props := PropertyList(table, names).value;
              && (r.Err? && r.error.MissingProperty? <==> !Covers(s.elements, props))
              && (r.Err? && r.error.MissingProperty? ==>
                    r.error.element in s.elements
                    && exists p :: 0 <= p < |names| && r.error.property == names[p]
                                   && r.error.element !in props[p]
                                   && forall q :: 0 <= q < p ==> r.error.element in props[q])
              && (Covers(s.elements, props) ==> r == Geometry(s, props, smooth, factor, bins, m))
    ensures r.Ok? ==> |r.value| == |names| * |bins|
    ensures r.Ok? && bins == Bins.Grid() ==> |r.value| == |names| * 113
  {
    var found := PropertyList(table, names);
    if found.Err? {
      return Err(found.error);
    }
    var props := found.value;
    var lack := CheckProperties(s.elements, props);
    if lack.Lacking? {
      assert props[lack.index] == table[names[lack.index]];
      return Err(MissingProperty(lack.element, names[lack.index]));
    }
    var weights := BuildWeights(s.elements, props);
    var cv := Volume(m, s.cell);
    if cv.Err? {
      return Err(cv.error);
    }
    if |s.elements| == 0 {
      return Err(EmptyStructure);
    }
    if !NonDegenerate(m, s.cell) {
      if |s.elements| >= 2 {
        return Err(DegenerateCell);
      }
      // One atom: no pair reads the matrix, so the accumulator stays zero.
      return Ok(seq(|props| * |bins|, k => 0.0));
    }
    var frame := Frac2Cart(m, s.cell, cv.value);
    var c := Pass(m, frame, s, props, bins, smooth);
    TableOfWeights(c, weights);
    var apw := AccumulatePairs(c, weights);
    var out := Flatten(c, apw, factor);
    r := Ok(out);
  }
}
