# APW-RDF descriptor engine, modelled in Dafny

This project models `calc_rdfs` from `src/calc_descriptors.py` together with the
module-level grid of distance bins it reads. `calc_rdfs` turns a periodic crystal
structure into its atomic-property-weighted radial distribution function (APW-RDF).

- For every unordered pair of atoms it takes the minimum-image distance over the 27
  neighbouring cells.
- It places a Gaussian around that distance on each of 113 bin centres.
- It weights the Gaussian by the product of the two elements' values of each
  requested atomic property.
- It adds the result into an `n_props × 113` accumulator.
- It flattens the accumulator property-major and scales it by `factor / n_atoms`.

The model follows the source's own form:

- The bin grid is built by a loop over an array (`Bins.BuildBins`).
- The pair-weight table is filled by nested loops over the distinct elements
  (`Weights.BuildWeights`).
- The accumulator is a two-dimensional array updated in place inside the single loop
  over `combinations(range(n), 2)` (`Rdf.AccumulatePairs`, `Rdf.AddPair`).
- Each method is proved against a specification function:
  - `Bins.Grid` is the closed form `2.0 + 0.004425·i(i+1)/2`.
  - `Weights.PairWeight` is the pair weights.
  - `Rdf.Accumulated` is the sum, over the pairs `combinations(range(n), 2)`, of
    Gaussian × weight.
  - `Rdf.Descriptor` is the scaled, flattened result.
- Pure pieces are functions, with lemmas about them:
  - the cell volume and the fractional-to-Cartesian matrix;
  - the 27-vector supercell;
  - the minimum over images;
  - the pair enumeration.

Arithmetic is over Dafny's `real`. The transcendental functions (`exp`, `sqrt`, `sin`,
`cos`) and π are fields of a `Numerics.Math` value that callers pass in. The only
assumptions about them are stated in `Numerics.Sound`: `exp` is positive, and `sqrt`
is non-negative on non-negative arguments. Lemmas that need these assumptions require
them explicitly.

The Euclidean norm is defined as `sqrt` of the sum of squares. So `norm(-v) == norm(v)`
is proved, not assumed. Matrix–vector products are explicit, so their linearity is
proved too.

Errors of `calc_rdfs` become values of `Errors.Result`, in the order the source reaches
them:

| Error | Source line | Cause |
|---|---|---|
| `UnknownProperty` | 41 | the `KeyError` of `apd[name]` |
| `MissingProperty` | 42-48 | an element lacks a requested property; this is the corrected behaviour, since the code as written raises a `NameError` here (see "## Findings") |
| `MathDomain` | 70 | `math.sqrt` of a negative radicand |
| `EmptyStructure` | 97 | division by `n_atoms == 0`, where numpy would produce NaN |
| `DegenerateCell` | 80-81 | a zero divisor in `frac2cart`, where numpy would produce inf/NaN, in a structure of at least two atoms (so some pair reads the matrix) |

## Model

| member | source | states |
|---|---|---|
| Bins.BinAt | src/calc_descriptors.py:20-26 | bin centre i in closed form, `2.0 + 0.004425·i(i+1)/2`; never below 2.0, and above it for i > 0 |
| Bins.Grid | src/calc_descriptors.py:20-26 | the module-level `bins`: 113 closed-form centres, the first 2.0 |
| Bins.BuildBins | src/calc_descriptors.py:20-26 | the array the loop builds has 113 entries and equals the closed-form grid `Grid()` entry by entry |
| Bins.GridShape | src/calc_descriptors.py:20-26 | the grid has 113 entries, starts at 2.0, ends at 2.0 + 0.004425·6328, gap i is 0.004425·i, and it is strictly increasing |
| Bins.Gap | src/calc_descriptors.py:24-26 | consecutive bin centres differ by `step` after i additions, 0.004425·i |
| Bins.Increasing | src/calc_descriptors.py:24-26 | a later bin centre is strictly larger than an earlier one |
| Numerics.Radians | src/calc_descriptors.py:63-65 | `np.deg2rad`: degrees times π / 180, so 180° is π and 0° is 0 |
| Numerics.RadiansAdditive | src/calc_descriptors.py:63-65 | converting a sum of angles gives the sum of the converted angles |
| Numerics.MatVec | src/calc_descriptors.py:91-92 | the product `frac2cart @ v`, row by row; the origin maps to the origin |
| Numerics.Norm | src/calc_descriptors.py:93 | `np.linalg.norm`: the square root of the sum of squared coordinates, non-negative under sound numerics |
| Numerics.NormOfNeg | src/calc_descriptors.py:93 | the norm of a negated vector equals the norm of the vector |
| Numerics.MatVecAdd | src/calc_descriptors.py:92 | the cell matrix applied to a sum of vectors is the sum of the images |
| Numerics.MatVecSub | src/calc_descriptors.py:91-93 | the cell matrix applied to a difference of vectors is the difference of the images |
| Lattice.VolumeRadicand | src/calc_descriptors.py:70-72 | the argument of `math.sqrt`, `1 − cos²α − cos²β − cos²γ + 2·cosα·cosβ·cosγ`; it is 1 for a rectangular cell |
| Lattice.Volume | src/calc_descriptors.py:66-72 | a listed volume is used as is; otherwise it is computed, failing with a math-domain error exactly when the radicand is negative; a computed volume is non-negative under sound numerics and non-negative lengths |
| Lattice.NonDegenerate | src/calc_descriptors.py:80-81 | the two divisors of `frac2cart`, `sin γ` and `la·lb·sin γ`, are non-zero |
| Lattice.Frac2Cart | src/calc_descriptors.py:75-81 | the matrix is upper triangular, maps fractional (1,0,0) to (a,0,0) and (0,1,0) into the z = 0 plane, and its determinant is the cell volume |
| Lattice.SuperCell | src/calc_descriptors.py:38 | the translation list has 27 entries |
| Lattice.SuperCellIndexOf | src/calc_descriptors.py:38 | entry k of `product([-1,0,1], repeat=3)` is found back at index k, so the order is itertools' order |
| Lattice.SuperCellMembers | src/calc_descriptors.py:38 | a vector is a translation exactly when each of its coordinates is -1, 0 or 1 |
| Lattice.SuperCellDistinct | src/calc_descriptors.py:38 | the 27 translations are pairwise distinct |
| Lattice.SuperCellZero | src/calc_descriptors.py:38 | the zero translation is entry 13 |
| Lattice.SuperCellNegation | src/calc_descriptors.py:38 | entry 26 − k is the negation of entry k, so the list is closed under negation |
| Lattice.ImageDistances | src/calc_descriptors.py:91-93 | there is one distance per translation, 27 in all |
| Lattice.SeqMin | src/calc_descriptors.py:93 | Python's `min` is at most every element |
| Lattice.SeqMinIsElement | src/calc_descriptors.py:93 | Python's `min` is one of the elements |
| Lattice.SeqMinSameValues | src/calc_descriptors.py:93 | two lists with the same values have the same minimum |
| Lattice.MinImageDistance | src/calc_descriptors.py:93 | `dist_ij`: one of the 27 image distances and no larger than any of them |
| Lattice.MinImageBounds | src/calc_descriptors.py:91-93 | `dist_ij` is at most the direct distance within the cell, and is non-negative under sound numerics |
| Lattice.ImageDistanceSwap | src/calc_descriptors.py:91-93 | image k of j seen from i is as far as image 26 − k of i seen from j |
| Lattice.MinImageSymmetric | src/calc_descriptors.py:91-93 | the minimum-image distance from i to j equals that from j to i |
| Weights.PropertyList | src/calc_descriptors.py:41 | the property list is built exactly when every name is in the table, entry k is the table's entry for name k, and otherwise the first unknown name is reported |
| Weights.Covers | src/calc_descriptors.py:42-48 | every element present has a value for every requested property, the condition under which the check passes |
| Weights.CheckProperties | src/calc_descriptors.py:42-44 | the check finds nothing lacking exactly when every element present has every requested property; a reported lack names a present element and the first property, in request order, it does not have |
| Weights.CheckAsWritten | src/calc_descriptors.py:42-48 | the check as written runs the same loop and succeeds exactly when every element has every property; any failure is the `NameError` on `prop_names` |
| Weights.AsWrittenHidesMissingProperty | src/calc_descriptors.py:46 | for a zinc/oxygen structure whose property lacks oxygen, the code as written fails on the undefined name, not with a message naming oxygen and the property |
| Weights.PairWeight | src/calc_descriptors.py:55 | a pair weight has one entry per requested property |
| Weights.PairWeightSymmetric | src/calc_descriptors.py:54-58 | the weight of (a, b) equals the weight of (b, a) |
| Weights.PairWeightNonNegative | src/calc_descriptors.py:55 | with non-negative property values every pair weight is non-negative |
| Weights.Enumerate | src/calc_descriptors.py:54 | `set(elements)` is listed once each, with no duplicates |
| Weights.BuildWeights | src/calc_descriptors.py:54-58 | `prop_dict` holds exactly the ordered pairs of present elements, entry (a, b) is the product of a's and b's values for each property, and (b, a) holds the same entry |
| AtomPairs.RowLength | src/calc_descriptors.py:90 | the pairs with first atom i below j number j − i − 1 |
| AtomPairs.RowShape | src/calc_descriptors.py:90 | those pairs are exactly (i, i+1) … (i, j−1) in increasing order |
| AtomPairs.PairsBeforeMembers | src/calc_descriptors.py:90 | the pairs with first atom below i are exactly the (a, b) with a < i and a < b < n |
| AtomPairs.PairsBeforeCount | src/calc_descriptors.py:90 | twice their number is i·(2n − i − 1) |
| AtomPairs.LexSortedConcat | src/calc_descriptors.py:90 | two sorted runs, the first entirely before the second, join into a sorted run |
| AtomPairs.PairsBeforeSorted | src/calc_descriptors.py:90 | they come in strictly increasing lexicographic order |
| AtomPairs.Pairs | src/calc_descriptors.py:90 | `combinations(range(n), 2)`: the rows of pairs (i, j), j > i, for i = 0 … n−1, in that order |
| AtomPairs.PairsMembers | src/calc_descriptors.py:90 | `combinations(range(n), 2)` yields (i, j) exactly when i < j < n |
| AtomPairs.PairsDistinct | src/calc_descriptors.py:90 | no pair is yielded twice |
| AtomPairs.PairsCount | src/calc_descriptors.py:90 | n(n−1)/2 pairs are yielded |
| Rdf.Pass | src/calc_descriptors.py:91-93 | the pair pass measures the minimum-image distance under the cell matrix |
| Rdf.Distance | src/calc_descriptors.py:91-93 | `dist_ij`: the pass's distance between the fractional positions of atoms i and j |
| Rdf.Weight | src/calc_descriptors.py:96 | `prop_dict[(elements[i], elements[j])][p]`: entry p of the pair weight of the two atoms' elements |
| Rdf.Gaussian | src/calc_descriptors.py:94 | `exp(smooth · (bins[b] − dist_ij)²)`; positive under sound numerics |
| Rdf.Term | src/calc_descriptors.py:94-96 | pair (i, j) adds Gaussian times `prop_dict[(elements[i], elements[j])][p]` to entry (p, b), so a zero weight adds nothing |
| Rdf.SumTerms | src/calc_descriptors.py:89-96 | the running value of `apw_rdf[p, b]`: the terms of a list of pairs added in list order |
| Rdf.PairsInRange | src/calc_descriptors.py:90 | every pair of the loop indexes two atoms of the structure, so the sum never skips a pair |
| Rdf.Accumulated | src/calc_descriptors.py:89-96 | `apw_rdf[p, b]` after the loop: the sum over `combinations(range(n), 2)` of Gaussian times weight; zero for a structure of at most one atom |
| Rdf.FlatIndex | src/calc_descriptors.py:97 | position k of the flattened accumulator lies in row k / n_bins and column k % n_bins |
| Rdf.FlatEntry | src/calc_descriptors.py:97 | `apw_rdf.flatten()[k]`: the accumulated entry in row k / n_bins, column k % n_bins |
| Rdf.Flat | src/calc_descriptors.py:97 | the flattened accumulator has n_props · n_bins entries |
| Rdf.Scale | src/calc_descriptors.py:97 | `x * factor / n_atoms`, the normalisation of one entry |
| Rdf.Descriptor | src/calc_descriptors.py:97 | the descriptor has n_props · n_bins entries |
| Rdf.AddOuter | src/calc_descriptors.py:95-96 | entry (p, b) of the accumulator grows by `rdf[b] · w[p]` and by nothing else |
| Rdf.AddPair | src/calc_descriptors.py:91-96 | one pair adds its Gaussian-times-weight term to every entry (p, b) |
| Rdf.TableOfWeights | src/calc_descriptors.py:96 | a table with every pair of present elements, each holding the pair's weights, serves every lookup `prop_dict[(elements[i], elements[j])]` of the loop |
| Rdf.SumTermsSnoc | src/calc_descriptors.py:89-96 | adding one more pair adds its term to the running sum |
| Rdf.AddPairHolds | src/calc_descriptors.py:91-96 | an accumulator holding the sums over the pairs done so far holds, after one more pair, the sums over those pairs and that pair |
| Rdf.Zeros | src/calc_descriptors.py:89 | the fresh accumulator holds the sums over no pairs |
| Rdf.AccumulatePairs | src/calc_descriptors.py:89-96 | after the loop over `combinations(range(n), 2)`, entry (p, b) is the sum over all pairs i < j of the Gaussian at bin b times the weight for property p |
| Rdf.Flatten | src/calc_descriptors.py:97 | the flattened and scaled accumulator equals the descriptor |
| Rdf.RowMajor | src/calc_descriptors.py:97 | row p, column b of the accumulator lands at position p · n_bins + b |
| Rdf.DescriptorEntry | src/calc_descriptors.py:89-97 | `out[p · n_bins + b]` is `factor / n_atoms` times the sum, over the pairs i < j, of Gaussian times weight |
| Rdf.DescriptorAt | src/calc_descriptors.py:97 | entry k of the output is entry k of the flattened accumulator, times `factor`, divided by `n_atoms` |
| Rdf.DescriptorAdditive | src/calc_descriptors.py:97 | the output for `f + g` is the sum of the outputs for `f` and `g` |
| Rdf.DescriptorHomogeneous | src/calc_descriptors.py:97 | the output for `t · f` is t times the output for `f` |
| Rdf.TermNonNegative | src/calc_descriptors.py:94-96 | under sound numerics and non-negative property values each pair's term is non-negative |
| Rdf.SumTermsNonNegative | src/calc_descriptors.py:89-96 | so is every partial sum of the pair loop |
| Rdf.DescriptorNonNegative | src/calc_descriptors.py:89-97 | with non-negative property values and `factor ≥ 0` every output entry is non-negative |
| Rdf.SingleAtomZero | src/calc_descriptors.py:89-97 | a single-atom structure has no pairs and yields an all-zero descriptor |
| Rdf.PassSymmetric | src/calc_descriptors.py:91-93 | the pair distance is symmetric in its two atoms |
| Rdf.TermSymmetric | src/calc_descriptors.py:90-96 | pair (j, i) would contribute exactly what pair (i, j) does, so visiting only i < j loses nothing |
| Rdf.Geometry | src/calc_descriptors.py:60-97 | after the property check: it fails exactly when the volume fails, the structure is empty, or a cell with a zero divisor meets two or more atoms; a failure past the volume on a non-empty structure is `DegenerateCell`; a result has n_props · n_bins entries |
| Rdf.SingleAtomGeometry | src/calc_descriptors.py:89-99 | one atom gives all zeros whatever the cell, since no pair reads the matrix |
| Rdf.CalcRdfs | src/calc_descriptors.py:31-99 | an unknown property name fails first; then a missing element property fails, exactly when some present element lacks a requested property, naming that element and its first missing property in request order, before any geometry; otherwise the result is `Geometry`, of length n_props · n_bins, which is n_props · 113 on the module's grid |

## Left out

- Reading the CIF file (lines 32-35, 60-68, 83-87) is not modelled. `Rdf.Structure`
  takes the parsed cell, element symbols and fractional coordinates as inputs. A
  listed or absent `_cell_volume` is `Lattice.CellVolume`.
- `np.round(..., decimals=12)` at line 97 is left out, because it is floating-point
  rounding. `Rdf.Descriptor` is the vector before rounding.
- Floating point is not modelled; all arithmetic is exact over `real`. The values of
  `exp`, `sqrt`, `sin`, `cos` and π are parameters. Only positivity of `exp` and
  non-negativity of `sqrt` are assumed, through `Numerics.Sound`.
- IEEE infinities and NaNs are not modelled. Where they would reach the output, the
  model returns an error instead:
  - `n_atoms == 0` gives `EmptyStructure` (the source returns a list of NaN);
  - a zero `sin(γ)` or zero `la·lb·sin(γ)` with two or more atoms gives
    `DegenerateCell` on every such cell. The source's result then depends on IEEE
    arithmetic: some image distances are infinite or NaN, Python's `min` keeps
    whichever comes first, and `exp(smooth·∞)` is 0 for a negative `smooth` (the
    value `src/predict.py:54` passes). So the source may return NaN entries, or
    a finite result in which those pairs contribute zero.
  With a single atom the infinite matrix entries are never read, and the model returns
  all zeros without building the matrix, as `Rdf.SingleAtomGeometry` states.
- The module-level `bins` array is passed to `Rdf.CalcRdfs` as a parameter.
  `Bins.BuildBins` shows that the module builds `Bins.Grid()`.
- `print` and `exit()` on a missing property (lines 45-48) become the error result
  `MissingProperty`. This is the corrected behaviour: as written, those lines raise a
  `NameError` first (see "## Findings").
- Weights.CheckProperties: the iteration order of `set(elements)` is unspecified in
  Python, so it and `Weights.Enumerate` pick elements in an arbitrary order. Only
  "some present element that lacks a property" is stated, not the first one Python
  would visit. For that element, the reported property is its first missing one.
- Lattice.Frac2Cart: its contract states upper-triangularity, the images of the first
  two unit vectors and the determinant. The off-diagonal entries with `cos`/`sin` are
  in its body, not restated in its contract.
- `calc_geo_props` (lines 101-145) is not part of this model. It runs the external
  Zeo++ program and scrapes its output files.
- `src/predict.py` is not part of this model. It loads a neural network and a scaler,
  parses arguments and prints. Its only computation is list concatenation.
- Invariance of the descriptor under renumbering the atoms is not proved. Only its
  per-pair ingredient, `Rdf.TermSymmetric`, is.

## Findings

| source | as written | input that shows it | evidently intended | confidence | as-written member | corrected member |
|---|---|---|---|---|---|---|
| src/calc_descriptors.py:46 | the warning for a missing property formats `prop_names[count]`, a name defined nowhere in the module, so the check ends with a `NameError` before the message naming the element and property is printed | structure with elements Zn and O, one requested property whose table has Zn but not O | report the missing property by its requested name and the element lacking it, then stop without a result | not executed | Weights.CheckAsWritten, Weights.AsWrittenHidesMissingProperty | Rdf.CalcRdfs |
