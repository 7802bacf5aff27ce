/** Unit-cell geometry: the cell volume, the fractional-to-Cartesian matrix,
    the 27 neighbouring-cell translations and the minimum-image distance. */
module Lattice {
  import opened Numerics
  import opened Errors

  /** The `_cell_volume` field of a CIF file, which may be absent. */
  datatype CellVolume = Listed(value: real) | Absent

  /** The cell lengths a, b, c, the cell angles alpha, beta, gamma in degrees,
      and the volume if the file lists one. */
  datatype Cell = Cell(a: real, b: real, c: real,
                       alpha: real, beta: real, gamma: real,
                       volume: CellVolume)

  /** 1 - cos²α - cos²β - cos²γ + 2 cosα cosβ cosγ, the square of the volume
      of the parallelepiped with unit edges and the cell's angles. A
      rectangular cell, whose three cosines are zero, has radicand 1. */
  function VolumeRadicand(m: Math, cell: Cell): (q: real)
    ensures (m.cos(Radians(m, cell.alpha)) == 0.0 && m.cos(Radians(m, cell.beta)) == 0.0
             && m.cos(Radians(m, cell.gamma)) == 0.0) ==> q == 1.0
  {
    var ca := m.cos(Radians(m, cell.alpha));
    var cb := m.cos(Radians(m, cell.beta));
    var cg := m.cos(Radians(m, cell.gamma));
    1.0 - Sq(ca) - Sq(cb) - Sq(cg) + 2.0 * ca * cb * cg
  }

  /** The cell volume `cv`: the listed one when the file has it, otherwise
      a·b·c·sqrt(radicand), where `math.sqrt` rejects a negative radicand. */
  function Volume(m: Math, cell: Cell): (r: Result<real>)
    ensures cell.volume.Listed? ==> r == Ok(cell.volume.value)
    ensures r.Err? <==> cell.volume.Absent? && VolumeRadicand(m, cell) < 0.0
    ensures r.Err? ==> r.error == MathDomain
    ensures Sound(m) && cell.volume.Absent? && r.Ok? && cell.a >= 0.0 && cell.b >= 0.0 && cell.c >= 0.0
            ==> r.value >= 0.0
  {
    match cell.volume
    case Listed(v) => Ok(v)
    case Absent =>
      var q := VolumeRadicand(m, cell);
      if q < 0.0 then Err(MathDomain)
      else
        assert m.sqrt(q) >= 0.0 || !Sound(m);
        Ok(cell.a * cell.b * cell.c * m.sqrt(q))
  }

  /** The divisors of the fractional-to-Cartesian matrix, sin γ and a·b·sin γ,
      are both non-zero. */
  predicate NonDegenerate(m: Math, cell: Cell) {
    var sg := m.sin(Radians(m, cell.gamma));
    sg != 0.0 && cell.a * cell.b * sg != 0.0
  }

  /** The upper-triangular matrix taking fractional to Cartesian coordinates:
      the a axis along x, the b axis in the xy plane, and a determinant equal
      to the cell volume. */
  function Frac2Cart(m: Math, cell: Cell, cv: real): (r: Mat3)
    requires NonDegenerate(m, cell)
    ensures r.r1.x == 0.0 && r.r2.x == 0.0 && r.r2.y == 0.0
    ensures MatVec(r, Vec3(1.0, 0.0, 0.0)) == Vec3(cell.a, 0.0, 0.0)
    ensures MatVec(r, Vec3(0.0, 1.0, 0.0)).z == 0.0
    ensures Det(r) == cv
  {
    var ca := m.cos(Radians(m, cell.alpha));
    var cb := m.cos(Radians(m, cell.beta));
    var cg := m.cos(Radians(m, cell.gamma));
    var sg := m.sin(Radians(m, cell.gamma));
    var f := Mat3(Vec3(cell.a, cell.b * cg, cell.c * cb),
                  Vec3(0.0, cell.b * sg, cell.c * (ca - cb * cg) / sg),
                  Vec3(0.0, 0.0, cv / (cell.a * cell.b * sg)));
    assert Det(f) == cell.a * (cell.b * sg) * (cv / (cell.a * cell.b * sg));
    f
  }

  /** One coordinate of a translation: index 0, 1, 2 of [-1, 0, 1]. */
  function Offset(d: int): real {
    (d - 1) as real
  }

  /** `product([-1, 0, 1], repeat=3)` as 27 vectors, the last coordinate
      varying fastest. */
  function SuperCell(): (s: seq<Vec3>)
    ensures |s| == 27
  {
    seq(27, k requires 0 <= k < 27 => Vec3(Offset(k / 9), Offset(k / 3 % 3), Offset(k % 3)))
  }

  predicate IsUnitOffset(r: real) {
    r == -1.0 || r == 0.0 || r == 1.0
  }

  /** Position of a translation in `SuperCell()`. */
  function OffsetIndex(r: real): int {
    if r == -1.0 then 0 else if r == 0.0 then 1 else 2
  }

  function SuperCellIndex(v: Vec3): int {
    9 * OffsetIndex(v.x) + 3 * OffsetIndex(v.y) + OffsetIndex(v.z)
  }

  /** Every translation is found again at the position its coordinates give. */
  lemma SuperCellIndexOf(k: int)
    requires 0 <= k < 27
    ensures SuperCellIndex(SuperCell()[k]) == k
  {
    var s := SuperCell()[k];
    assert OffsetIndex(s.x) == k / 9;
    assert OffsetIndex(s.y) == k / 3 % 3;
    assert OffsetIndex(s.z) == k % 3;
  }

  /** The translations are exactly the vectors of {-1, 0, 1}³ ... */
  lemma SuperCellMembers(v: Vec3)
    ensures v in SuperCell() <==> IsUnitOffset(v.x) && IsUnitOffset(v.y) && IsUnitOffset(v.z)
  {
    if IsUnitOffset(v.x) && IsUnitOffset(v.y) && IsUnitOffset(v.z) {
      var k := SuperCellIndex(v);
      assert 0 <= k < 27;
      assert SuperCell()[k] == v;
    }
  }

  /** ... each listed once ... */
  lemma SuperCellDistinct(k: int, l: int)
    requires 0 <= k < 27 && 0 <= l < 27 && k != l
    ensures SuperCell()[k] != SuperCell()[l]
  {
    SuperCellIndexOf(k);
    SuperCellIndexOf(l);
  }

  /** ... with the zero translation, the cell itself, at position 13 ... */
  lemma SuperCellZero()
    ensures SuperCell()[13] == Vec3(0.0, 0.0, 0.0)
  {
  }

  /** ... and closed under negation: position 26 - k holds the opposite of
      position k. */
  lemma SuperCellNegation(k: int)
    requires 0 <= k < 27
    ensures SuperCell()[26 - k] == Neg(SuperCell()[k])
  {
    assert (26 - k) / 9 == 2 - k / 9;
    assert (26 - k) / 3 % 3 == 2 - k / 3 % 3;
    assert (26 - k) % 3 == 2 - k % 3;
  }

  /** The distances from atom i to the 27 periodic images of atom j:
      `norm(frac2cart @ (t + frac_j) - frac2cart @ frac_i)` for each translation t. */
  function ImageDistances(m: Math, f: Mat3, fi: Vec3, fj: Vec3): (r: seq<real>)
    ensures |r| == 27
  {
    var ci := MatVec(f, fi);
    seq(27, k requires 0 <= k < 27 => Norm(m, Sub(MatVec(f, Add(SuperCell()[k], fj)), ci)))
  }

  /** Python's `min` over a non-empty list: a left-to-right scan that keeps
      the smallest value seen; no larger than any element. */
  function SeqMin(s: seq<real>): (r: real)
    requires |s| > 0
    ensures forall k :: 0 <= k < |s| ==> r <= s[k]
  {
    if |s| == 1 then s[0]
    else
      var init := s[..|s| - 1];
      var best := SeqMin(init);
      assert forall k :: 0 <= k < |s| - 1 ==> s[k] == init[k];
      if s[|s| - 1] < best then s[|s| - 1] else best
  }

  /** The minimum is one of the elements. */
  lemma {:induction false} SeqMinIsElement(s: seq<real>)
    requires |s| > 0
    ensures SeqMin(s) in s
  {
    if |s| > 1 {
      var init := s[..|s| - 1];
      SeqMinIsElement(init);
      assert s == init + [s[|s| - 1]];
    }
  }

  /** The minimum-image distance `dist_ij` between two atoms: the distance to
      the nearest of the 27 images. */
  function MinImageDistance(m: Math, f: Mat3, fi: Vec3, fj: Vec3): (d: real)
    ensures d in ImageDistances(m, f, fi, fj)
    ensures forall k :: 0 <= k < 27 ==> d <= ImageDistances(m, f, fi, fj)[k]
  {
    SeqMinIsElement(ImageDistances(m, f, fi, fj));
    SeqMin(ImageDistances(m, f, fi, fj))
  }

  /** The distance between the two atoms inside the same cell. */
  function DirectDistance(m: Math, f: Mat3, fi: Vec3, fj: Vec3): real {
    Norm(m, Sub(MatVec(f, fj), MatVec(f, fi)))
  }

  /** `dist_ij` is no larger than the distance inside the cell, and never
      negative. */
  lemma MinImageBounds(m: Math, f: Mat3, fi: Vec3, fj: Vec3)
    ensures MinImageDistance(m, f, fi, fj) <= DirectDistance(m, f, fi, fj)
    ensures Sound(m) ==> MinImageDistance(m, f, fi, fj) >= 0.0
  {
    var ds := ImageDistances(m, f, fi, fj);
    SuperCellZero();
    assert Add(SuperCell()[13], fj) == fj;
    assert ds[13] == DirectDistance(m, f, fi, fj);
    var k :| 0 <= k < 27 && ds[k] == MinImageDistance(m, f, fi, fj);
    assert ds[k] == Norm(m, Sub(MatVec(f, Add(SuperCell()[k], fj)), MatVec(f, fi)));
  }

  /** Two lists holding the same values have the same minimum. */
  lemma SeqMinSameValues(s: seq<real>, t: seq<real>)
    requires |s| > 0 && |t| > 0
    requires forall x :: x in s ==> x in t
    requires forall x :: x in t ==> x in s
    ensures SeqMin(s) == SeqMin(t)
  {
    SeqMinIsElement(s);
    SeqMinIsElement(t);
  }

  /** Image k of atom j seen from atom i is image 26 - k of atom i seen from
      atom j, reversed. */
  lemma ImageDistanceSwap(m: Math, f: Mat3, fi: Vec3, fj: Vec3, k: int)
    requires 0 <= k < 27
    ensures ImageDistances(m, f, fj, fi)[k] == ImageDistances(m, f, fi, fj)[26 - k]
  {
    var t := SuperCell()[k];
    SuperCellNegation(k);
    var u := Sub(MatVec(f, Add(SuperCell()[26 - k], fj)), MatVec(f, fi));
    var w := Sub(MatVec(f, Add(t, fi)), MatVec(f, fj));
    assert w == Neg(u) by {
      MatVecAdd(f, t, fi);
      MatVecAdd(f, Neg(t), fj);
      MatVecAdd(f, t, Neg(t));
      assert Add(t, Neg(t)) == Vec3(0.0, 0.0, 0.0);
    }
    NormOfNeg(m, u);
  }

  /** The minimum-image distance does not depend on which atom is first. */
  lemma MinImageSymmetric(m: Math, f: Mat3, fi: Vec3, fj: Vec3)
    ensures MinImageDistance(m, f, fi, fj) == MinImageDistance(m, f, fj, fi)
  {
    var s := ImageDistances(m, f, fi, fj);
    var t := ImageDistances(m, f, fj, fi);
    forall k | 0 <= k < 27 ensures t[k] == s[26 - k] && s[k] == t[26 - k] {
      ImageDistanceSwap(m, f, fi, fj, k);
      ImageDistanceSwap(m, f, fi, fj, 26 - k);
    }
    forall x | x in s ensures x in t {
      var k :| 0 <= k < 27 && s[k] == x;
      assert t[26 - k] == x;
    }
    forall x | x in t ensures x in s {
      var k :| 0 <= k < 27 && t[k] == x;
      assert s[26 - k] == x;
    }
    SeqMinSameValues(s, t);
  }
}
