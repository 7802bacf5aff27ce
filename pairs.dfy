/** The unordered atom pairs of the accumulation loop,
    `combinations(range(n), 2)`, in the order itertools yields them. */
module AtomPairs {

  /** The pairs (i, i + 1), ..., (i, j - 1). */
  function Row(i: nat, j: nat): seq<(nat, nat)>
    decreases j
  {
    if j <= i + 1 then [] else Row(i, j - 1) + [(i, j - 1)]
  }

  /** All pairs whose first atom is below i, for n atoms. */
  function PairsBefore(n: nat, i: nat): seq<(nat, nat)> {
    if i == 0 then [] else PairsBefore(n, i - 1) + Row(i - 1, n)
  }

  /** `combinations(range(n), 2)`. */
  function Pairs(n: nat): seq<(nat, nat)> {
    PairsBefore(n, n)
  }

  /** Strictly before in lexicographic order. */
  predicate LexLess(p: (nat, nat), q: (nat, nat)) {
    p.0 < q.0 || (p.0 == q.0 && p.1 < q.1)
  }

  predicate LexSorted(s: seq<(nat, nat)>) {
    forall a, b :: 0 <= a < b < |s| ==> LexLess(s[a], s[b])
  }

  lemma {:induction false} RowLength(i: nat, j: nat)
    ensures |Row(i, j)| == if j <= i + 1 then 0 else j - i - 1
    decreases j
  {
    if j > i + 1 {
      RowLength(i, j - 1);
    }
  }

  lemma {:induction false} RowShape(i: nat, j: nat)
    ensures forall pr :: pr in Row(i, j) <==> pr.0 == i && i < pr.1 < j
    ensures LexSorted(Row(i, j))
    decreases j
  {
    if j > i + 1 {
      RowShape(i, j - 1);
      var s := Row(i, j - 1);
      assert Row(i, j) == s + [(i, j - 1)];
      forall a, b | 0 <= a < b < |Row(i, j)| ensures LexLess(Row(i, j)[a], Row(i, j)[b]) {
        if b == |s| {
          assert Row(i, j)[a] == s[a] && s[a] in s;
        }
      }
    }
  }

  lemma {:induction false} PairsBeforeMembers(n: nat, i: nat)
    ensures forall pr :: pr in PairsBefore(n, i) <==> pr.0 < i && pr.0 < pr.1 < n
  {
    if i > 0 {
      PairsBeforeMembers(n, i - 1);
      RowShape(i - 1, n);
    }
  }

  lemma {:induction false} PairsBeforeCount(n: nat, i: nat)
    requires i <= n
    ensures 2 * |PairsBefore(n, i)| == i * (2 * n - i - 1)
  {
    if i > 0 {
      PairsBeforeCount(n, i - 1);
      RowLength(i - 1, n);
      assert |PairsBefore(n, i)| == |PairsBefore(n, i - 1)| + (n - i);
      MulSucc(i - 1, 2 * n - i);
      MulPred(i, 2 * n - i);
    }
  }

  lemma MulSucc(a: int, x: int)
    ensures (a + 1) * x == a * x + x
  {
  }

  lemma MulPred(a: int, x: int)
    ensures a * (x - 1) == a * x - a
  {
  }

  /** Two sorted lists, every element of the first before every element of
      the second, concatenate to a sorted list. */
  lemma LexSortedConcat(s: seq<(nat, nat)>, t: seq<(nat, nat)>)
    requires LexSorted(s) && LexSorted(t)
    requires forall x, y :: x in s && y in t ==> LexLess(x, y)
    ensures LexSorted(s + t)
  {
    forall a, b | 0 <= a < b < |s + t| ensures LexLess((s + t)[a], (s + t)[b]) {
      if b < |s| {
        assert (s + t)[a] == s[a] && (s + t)[b] == s[b];
      } else if a < |s| {
        assert (s + t)[a] == s[a] && (s + t)[b] == t[b - |s|];
        assert s[a] in s && t[b - |s|] in t;
      } else {
        assert (s + t)[a] == t[a - |s|] && (s + t)[b] == t[b - |s|];
      }
    }
  }

  lemma {:induction false} PairsBeforeSorted(n: nat, i: nat)
    ensures LexSorted(PairsBefore(n, i))
  {
    if i > 0 {
      PairsBeforeSorted(n, i - 1);
      PairsBeforeMembers(n, i - 1);
      RowShape(i - 1, n);
      LexSortedConcat(PairsBefore(n, i - 1), Row(i - 1, n));
    }
  }

  /** The loop visits exactly the pairs i < j < n ... */
  lemma PairsMembers(n: nat, pr: (nat, nat))
    ensures pr in Pairs(n) <==> pr.0 < pr.1 < n
  {
    PairsBeforeMembers(n, n);
  }

  /** ... each exactly once ... */
  lemma PairsDistinct(n: nat, a: int, b: int)
    requires 0 <= a < b < |Pairs(n)|
    ensures Pairs(n)[a] != Pairs(n)[b]
  {
    PairsBeforeSorted(n, n);
  }

  /** ... n(n - 1)/2 of them. */
  lemma PairsCount(n: nat)
    ensures |Pairs(n)| == n * (n - 1) / 2
  {
    PairsBeforeCount(n, n);
  }
}
