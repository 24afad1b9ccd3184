/**
 * The software filter both XPT2046 touch drivers run over a batch of
 * samples: sort the first `count` entries of the sample array from largest
 * to smallest with an in-place exchange sort, drop the two largest and the
 * two smallest, and average the rest with Go's truncating division.
 */
module TouchFilter {

  /** From largest to smallest. */
  ghost predicate Descending(s: seq<int>) {
    forall i, j :: 0 <= i < j < |s| ==> s[i] >= s[j]
  }

  function Sum(s: seq<int>): int {
    if s == [] then 0 else Sum(s[..|s| - 1]) + s[|s| - 1]
  }

  /** Go's integer division, which truncates toward zero. */
  function GoDiv(a: int, b: int): (q: int)
    requires b != 0
  {
    if a >= 0 then a / b
    else -((-a) / b)
  }

  /** The definition of Go's `/`: the remainder `a - q * b` is zero or has
      the sign of `a`, and is smaller than `b` in magnitude. */
  lemma GoDivTruncates(a: int, b: int)
    requires b != 0
    ensures var r := a - GoDiv(a, b) * b;
      (r == 0 || (r > 0) == (a > 0))
      && (if r < 0 then -r else r) < (if b < 0 then -b else b)
  {
    var c := if a >= 0 then a else -a;
    var q := c / b;
    var m := c % b;
    EuclidSplit(c, b);
    if a >= 0 {
      assert GoDiv(a, b) * b == q * b;
      assert a - GoDiv(a, b) * b == m;
    } else {
      assert GoDiv(a, b) == -q;
      assert GoDiv(a, b) * b == -(q * b);
      assert a - GoDiv(a, b) * b == -m;
    }
  }

  lemma EuclidSplit(c: int, b: int)
    requires b != 0
    ensures c == (c / b) * b + c % b
    ensures 0 <= c % b < (if b < 0 then -b else b)
  {
  }

  function Max(s: seq<int>): int
    requires s != []
  {
    if |s| == 1 then s[0]
    else var m := Max(s[1..]); if s[0] >= m then s[0] else m
  }

  function Min(s: seq<int>): int
    requires s != []
  {
    if |s| == 1 then s[0]
    else var m := Min(s[1..]); if s[0] <= m then s[0] else m
  }

  /** Insert `x` into a descending sequence. */
  function Insert(x: int, s: seq<int>): seq<int> {
    if s == [] || x >= s[0] then [x] + s
    else [s[0]] + Insert(x, s[1..])
  }

  /** The samples from largest to smallest: a reference definition of what
      the exchange sort computes. */
  function SortDesc(s: seq<int>): seq<int> {
    if s == [] then [] else Insert(s[0], SortDesc(s[1..]))
  }

  /** The average of all but the two largest and the two smallest entries of
      a descending batch: the loop `for i := 2; i < n-2; i++` followed by a
      division by `n - 4`. A batch of four divides by zero. */
  function TrimmedMean(t: seq<int>): int
    requires |t| != 4
  {
    var middle := if |t| >= 4 then t[2..|t| - 2] else [];
    GoDiv(Sum(middle), |t| - 4)
  }

  /** The filtered value of a batch of samples. */
  function FilterValue(s: seq<int>): int
    requires |s| != 4
  {
    LengthSortDesc(s);
    TrimmedMean(SortDesc(s))
  }

  lemma {:induction false} InsertPerm(x: int, s: seq<int>)
    ensures multiset(Insert(x, s)) == multiset([x] + s)
    decreases |s|
  {
    if s != [] && x < s[0] {
      InsertPerm(x, s[1..]);
      assert s == [s[0]] + s[1..];
    }
  }

  lemma {:induction false} InsertDescending(x: int, s: seq<int>)
    requires Descending(s)
    ensures Descending(Insert(x, s))
    decreases |s|
  {
    if s != [] && x < s[0] {
      var rest := s[1..];
      InsertDescending(x, rest);
      InsertPerm(x, rest);
      var r := Insert(x, rest);
      forall k | 0 <= k < |[x] + rest|
        ensures ([x] + rest)[k] <= s[0]
      {
        if k > 0 { assert ([x] + rest)[k] == s[k]; }
      }
      BoundedPerm(r, [x] + rest, s[0]);
      ConsDescending(s[0], r);
    }
  }

  /** A bound on every element carries over to a permutation. */
  lemma BoundedPerm(r: seq<int>, t: seq<int>, h: int)
    requires multiset(r) == multiset(t)
    requires forall k :: 0 <= k < |t| ==> t[k] <= h
    ensures forall k :: 0 <= k < |r| ==> r[k] <= h
  {
    forall k | 0 <= k < |r|
      ensures r[k] <= h
    {
      assert r[k] in multiset(t);
      var m :| 0 <= m < |t| && t[m] == r[k];
    }
  }

  lemma ConsDescending(h: int, r: seq<int>)
    requires Descending(r)
    requires forall k :: 0 <= k < |r| ==> r[k] <= h
    ensures Descending([h] + r)
  {
    var c := [h] + r;
    forall i, j | 0 <= i < j < |c|
      ensures c[i] >= c[j]
    {
      assert c[j] == r[j - 1];
      if i > 0 { assert c[i] == r[i - 1]; }
    }
  }

  /** The reference sort yields a descending permutation of its input. */
  lemma {:induction false} SortDescFacts(s: seq<int>)
    ensures Descending(SortDesc(s))
    ensures multiset(SortDesc(s)) == multiset(s)
    decreases |s|
  {
    if s != [] {
      SortDescFacts(s[1..]);
      InsertDescending(s[0], SortDesc(s[1..]));
      InsertPerm(s[0], SortDesc(s[1..]));
      assert s == [s[0]] + s[1..];
    }
  }

  lemma LengthSortDesc(s: seq<int>)
    ensures |SortDesc(s)| == |s|
  {
    SortDescFacts(s);
    assert |multiset(SortDesc(s))| == |multiset(s)|;
  }

  /** The head of a descending sequence bounds every element of it. */
  lemma HeadIsMax(a: seq<int>, x: int)
    requires Descending(a) && x in multiset(a)
    ensures a[0] >= x
  {
    var k :| 0 <= k < |a| && a[k] == x;
  }

  lemma TailMultiset(a: seq<int>)
    requires a != []
    ensures multiset(a[1..]) == multiset(a) - multiset{a[0]}
  {
    assert a == [a[0]] + a[1..];
  }

  lemma DescendingTail(a: seq<int>)
    requires Descending(a) && a != []
    ensures Descending(a[1..])
  {
  }

  lemma SameHeadTail(a: seq<int>, b: seq<int>)
    requires a != [] && b != [] && a[0] == b[0] && a[1..] == b[1..]
    ensures a == b
  {
    assert a == [a[0]] + a[1..] && b == [b[0]] + b[1..];
  }

  /** A multiset has exactly one descending arrangement. */
  lemma {:induction false} DescendingUnique(a: seq<int>, b: seq<int>)
    requires Descending(a) && Descending(b)
    requires multiset(a) == multiset(b)
    ensures a == b
    decreases |a|
  {
    assert |a| == |multiset(a)| == |multiset(b)| == |b|;
    if a != [] {
      assert a[0] in multiset(b) && b[0] in multiset(a);
      HeadIsMax(a, b[0]);
      HeadIsMax(b, a[0]);
      TailMultiset(a);
      TailMultiset(b);
      assert multiset(a[1..]) == multiset(b[1..]);
      DescendingTail(a);
      DescendingTail(b);
      DescendingUnique(a[1..], b[1..]);
      SameHeadTail(a, b);
    }
  }

  lemma {:induction false} SumBounds(m: seq<int>, lo: int, hi: int)
    requires forall i :: 0 <= i < |m| ==> lo <= m[i] <= hi
    ensures |m| * lo <= Sum(m) <= |m| * hi
    decreases |m|
  {
    if m != [] {
      SumBounds(m[..|m| - 1], lo, hi);
      assert |m| * lo == (|m| - 1) * lo + lo;
      assert |m| * hi == (|m| - 1) * hi + hi;
    }
  }

  lemma MulMono(a: int, b: int, k: int)
    requires a <= b && k > 0
    ensures a * k <= b * k
  {
    assert b * k - a * k == (b - a) * k;
  }

  /** Euclidean division of a value between `k * lo` and `k * hi` by `k`. */
  lemma FloorDivBounds(total: int, k: int, lo: int, hi: int)
    requires k > 0
    requires k * lo <= total <= k * hi
    ensures lo <= total / k <= hi
  {
    var q := total / k;
    assert total == q * k + total % k;
    if q < lo {
      MulMono(q + 1, lo, k);
      assert false;
    }
    if q > hi {
      MulMono(hi + 1, q, k);
      assert false;
    }
  }

  /** Truncating division of a sum of `k` values between `lo` and `hi` by `k`
      stays between `lo` and `hi`. */
  lemma DivBounds(total: int, k: int, lo: int, hi: int)
    requires k > 0
    requires k * lo <= total <= k * hi
    ensures lo <= GoDiv(total, k) <= hi
  {
    if total >= 0 {
      FloorDivBounds(total, k, lo, hi);
    } else {
      assert k * -hi == -(k * hi) && k * -lo == -(k * lo);
      FloorDivBounds(-total, k, -hi, -lo);
    }
  }

  lemma {:induction false} MaxIsBound(s: seq<int>)
    requires s != []
    ensures Max(s) in s
    ensures forall i :: 0 <= i < |s| ==> s[i] <= Max(s)
    decreases |s|
  {
    if |s| > 1 {
      MaxIsBound(s[1..]);
      forall i | 0 <= i < |s| ensures s[i] <= Max(s) {
        if i > 0 { assert s[i] == s[1..][i - 1]; }
      }
    }
  }

  lemma {:induction false} MinIsBound(s: seq<int>)
    requires s != []
    ensures Min(s) in s
    ensures forall i :: 0 <= i < |s| ==> Min(s) <= s[i]
    decreases |s|
  {
    if |s| > 1 {
      MinIsBound(s[1..]);
      forall i | 0 <= i < |s| ensures Min(s) <= s[i] {
        if i > 0 { assert s[i] == s[1..][i - 1]; }
      }
    }
  }

  /** Every entry of the sorted batch is one of the samples, so it lies
      between the smallest and the largest of them. */
  lemma SortedWithin(s: seq<int>)
    requires s != []
    ensures forall i :: 0 <= i < |SortDesc(s)| ==> Min(s) <= SortDesc(s)[i] <= Max(s)
  {
    var t := SortDesc(s);
    SortDescFacts(s);
    MaxIsBound(s);
    MinIsBound(s);
    forall i | 0 <= i < |t|
      ensures Min(s) <= t[i] <= Max(s)
    {
      assert t[i] in multiset(s);
    }
  }

  /** With at least five samples the filtered value lies between the
      smallest and the largest sample. */
  lemma FilterBounds(s: seq<int>)
    requires |s| >= 5
    ensures Min(s) <= FilterValue(s) <= Max(s)
  {
    var t := SortDesc(s);
    LengthSortDesc(s);
    SortedWithin(s);
    var middle := t[2..|t| - 2];
    forall i | 0 <= i < |middle|
      ensures Min(s) <= middle[i] <= Max(s)
    {
      assert middle[i] == t[i + 2];
    }
    SumBounds(middle, Min(s), Max(s));
    DivBounds(Sum(middle), |t| - 4, Min(s), Max(s));
  }

  /** Samples that all lie in `[lo, hi]` filter to a value in `[lo, hi]`. */
  lemma FilterRange(s: seq<int>, lo: int, hi: int)
    requires |s| >= 5
    requires forall i :: 0 <= i < |s| ==> lo <= s[i] <= hi
    ensures lo <= FilterValue(s) <= hi
  {
    FilterBounds(s);
    MaxIsBound(s);
    MinIsBound(s);
  }

  /** A batch of at least five equal samples filters to that value. */
  lemma FilterConstant(s: seq<int>, v: int)
    requires |s| >= 5
    requires forall i :: 0 <= i < |s| ==> s[i] == v
    ensures FilterValue(s) == v
  {
    MaxIsBound(s);
    MinIsBound(s);
    FilterBounds(s);
  }

  /** A batch of zeros filters to zero, whatever its size (other than four). */
  lemma FilterZeros(s: seq<int>)
    requires |s| != 4
    requires forall i :: 0 <= i < |s| ==> s[i] == 0
    ensures FilterValue(s) == 0
  {
    var t := SortDesc(s);
    SortDescFacts(s);
    LengthSortDesc(s);
    if |s| >= 4 {
      var middle := t[2..|t| - 2];
      forall i | 0 <= i < |middle| ensures middle[i] == 0 {
        assert middle[i] == t[i + 2];
        assert t[i + 2] in multiset(s);
      }
      SumBounds(middle, 0, 0);
    }
  }

  /** The exchange sort of the drivers: for each position, swap in every
      larger later entry. Only the first `count` entries take part. */
  method ExchangeSort(a: array<int>, count: nat)
    requires count <= a.Length
    modifies a
    ensures Descending(a[..count])
    ensures multiset(a[..count]) == multiset(old(a[..count]))
    ensures a[count..] == old(a[count..])
  {
    var i := 0;
    while i + 1 < count
      invariant 0 <= i <= count || (count == 0 && i == 0)
      invariant forall p, q :: 0 <= p < i && p < q < count ==> a[p] >= a[q]
      invariant multiset(a[..count]) == multiset(old(a[..count]))
      invariant a[count..] == old(a[count..])
    {
      var j := i + 1;
      while j < count
        invariant i < j <= count
        invariant forall p, q :: 0 <= p < i && p < q < count ==> a[p] >= a[q]
        invariant forall q :: i < q < j ==> a[i] >= a[q]
        invariant multiset(a[..count]) == multiset(old(a[..count]))
        invariant a[count..] == old(a[count..])
      {
        if a[i] < a[j] {
          Swap(a, count, i, j);
        }
        j := j + 1;
      }
      i := i + 1;
    }
  }

  /** Exchange two of the first `count` entries. */
  method Swap(a: array<int>, count: nat, i: nat, j: nat)
    requires i < j < count <= a.Length
    modifies a
    ensures a[i] == old(a[j]) && a[j] == old(a[i])
    ensures forall k :: 0 <= k < a.Length && k != i && k != j ==> a[k] == old(a[k])
    ensures multiset(a[..count]) == multiset(old(a[..count]))
    ensures a[count..] == old(a[count..])
  {
    a[i], a[j] := a[j], a[i];
    assert a[..count] == old(a[..count])[i := old(a[j])][j := old(a[i])];
  }

  /** The trimmed average of the first `count` entries, as the drivers'
      summing loop computes it. */
  method Average(a: array<int>, count: nat) returns (r: int)
    requires count <= a.Length && count != 4
    ensures r == TrimmedMean(a[..count])
  {
    var total := 0;
    var i := 2;
    while i < count - 2
      invariant 2 <= i
      invariant count >= 4 ==> i <= count - 2 && total == Sum(a[2..i])
      invariant count < 4 ==> total == 0
    {
      assert a[2..i + 1][..i - 2] == a[2..i];
      total := total + a[i];
      i := i + 1;
    }
    if count >= 4 {
      assert a[..count][2..count - 2] == a[2..count - 2];
    }
    r := GoDiv(total, count - 4);
  }

  /** The filter: sort the batch in place, then average its middle. */
  method Filter(a: array<int>, count: nat) returns (r: int)
    requires count <= a.Length && count != 4
    modifies a
    ensures r == FilterValue(old(a[..count]))
  {
    ghost var s := a[..count];
    ExchangeSort(a, count);
    SortDescFacts(s);
    DescendingUnique(a[..count], SortDesc(s));
    r := Average(a, count);
  }
}
