/** The array operations the statistics and listings are written with:
    `filter(...).length`, `reduce` sums, the "first strictly greater" `reduce`
    that picks a maximum, a stable `sort` by a descending key, `slice(0, n)`
    and `Math.round` of a ratio of integers. */
module Seqs {

  /** `s.filter(p).length`. */
  function Count<T>(s: seq<T>, p: T -> bool): (n: nat)
    ensures n <= |s|
  {
    if s == [] then 0 else (if p(s[0]) then 1 else 0) + Count(s[1..], p)
  }

  /** Counting distributes over concatenation. */
  lemma {:induction false} CountAppend<T>(a: seq<T>, b: seq<T>, p: T -> bool)
    ensures Count(a + b, p) == Count(a, p) + Count(b, p)
  {
    if a != [] {
      assert (a + b)[0] == a[0] && (a + b)[1..] == a[1..] + b;
      CountAppend(a[1..], b, p);
    } else {
      assert a + b == b;
    }
  }

  /** A count of `p` plus the count of its negation is the length. */
  lemma {:induction false} CountComplement<T>(s: seq<T>, p: T -> bool, q: T -> bool)
    requires forall x :: q(x) == !p(x)
    ensures Count(s, p) + Count(s, q) == |s|
  {
    if s != [] {
      CountComplement(s[1..], p, q);
    }
  }

  /** Counting a weaker condition never gives less. */
  lemma {:induction false} CountMonotone<T>(s: seq<T>, p: T -> bool, q: T -> bool)
    requires forall x :: p(x) ==> q(x)
    ensures Count(s, p) <= Count(s, q)
  {
    if s != [] {
      CountMonotone(s[1..], p, q);
    }
  }

  /** Two conditions that never hold together are counted at most once each. */
  lemma {:induction false} CountDisjoint<T>(s: seq<T>, p: T -> bool, q: T -> bool)
    requires forall x :: !(p(x) && q(x))
    ensures Count(s, p) + Count(s, q) <= |s|
  {
    if s != [] {
      CountDisjoint(s[1..], p, q);
    }
  }

  /** `s.filter(p)`: the elements satisfying `p`, in their order. */
  function Filter<T>(s: seq<T>, p: T -> bool): (r: seq<T>)
    ensures |r| == Count(s, p)
    ensures forall i :: 0 <= i < |r| ==> p(r[i])
    ensures multiset(r) <= multiset(s)
    ensures forall x :: x in s && p(x) ==> x in r
  {
    if s == [] then []
    else
      assert s == [s[0]] + s[1..];
      if p(s[0]) then [s[0]] + Filter(s[1..], p) else Filter(s[1..], p)
  }

  /** The elements of `s` appear in non-decreasing order of `f`. */
  predicate SortedAsc<T>(s: seq<T>, f: T -> int) {
    forall i, j :: 0 <= i < j < |s| ==> f(s[i]) <= f(s[j])
  }

  /** Filtering keeps the relative order, so an ordered sequence stays ordered. */
  lemma {:induction false} FilterSorted<T>(s: seq<T>, p: T -> bool, f: T -> int)
    requires SortedAsc(s, f)
    ensures SortedAsc(Filter(s, p), f)
  {
    if s != [] {
      FilterSorted(s[1..], p, f);
      var rest := Filter(s[1..], p);
      forall j | 0 <= j < |rest| ensures f(s[0]) <= f(rest[j]) {
        assert rest[j] in multiset(s[1..]);
        var k :| 0 <= k < |s[1..]| && s[1..][k] == rest[j];
        assert s[1..][k] == s[k + 1];
      }
    }
  }

  /** `s.reduce((t, x) => t + f(x), 0)`. */
  function Sum<T>(s: seq<T>, f: T -> int): int {
    if s == [] then 0 else f(s[0]) + Sum(s[1..], f)
  }

  lemma {:induction false} SumAppend<T>(a: seq<T>, b: seq<T>, f: T -> int)
    ensures Sum(a + b, f) == Sum(a, f) + Sum(b, f)
  {
    if a != [] {
      assert (a + b)[0] == a[0] && (a + b)[1..] == a[1..] + b;
      SumAppend(a[1..], b, f);
    } else {
      assert a + b == b;
    }
  }

  /** Summing the elements a filter keeps is summing every element with the
      others counted as zero. */
  lemma {:induction false} SumFilter<T>(s: seq<T>, p: T -> bool, f: T -> int, g: T -> int)
    requires forall x :: g(x) == if p(x) then f(x) else 0
    ensures Sum(Filter(s, p), f) == Sum(s, g)
  {
    if s != [] {
      SumFilter(s[1..], p, f, g);
    }
  }

  /** A sum of terms that are each at least one is at least the length. */
  lemma {:induction false} SumAtLeastLength<T>(s: seq<T>, f: T -> int)
    requires forall i :: 0 <= i < |s| ==> f(s[i]) >= 1
    ensures Sum(s, f) >= |s|
  {
    if s != [] {
      SumAtLeastLength(s[1..], f);
    }
  }

  /** A sum of non-negative terms is non-negative. */
  lemma {:induction false} SumNonNegative<T>(s: seq<T>, f: T -> int)
    requires forall i :: 0 <= i < |s| ==> f(s[i]) >= 0
    ensures Sum(s, f) >= 0
  {
    if s != [] {
      SumNonNegative(s[1..], f);
    }
  }

  // ---------------------------------------------------------------- maximum

  /** The `reduce` that starts from `s[0]` and replaces the running choice `k`
      by `s[i]` when `f(s[i])` is strictly greater, visiting `s[i..]`. */
  function MaxFold<T>(s: seq<T>, f: T -> int, k: nat, i: nat): (m: nat)
    requires k < |s| && i <= |s|
    requires k < i || (k == 0 && i == 0)
    requires forall j :: 0 <= j < i ==> f(s[j]) <= f(s[k])
    requires forall j :: 0 <= j < k ==> f(s[j]) < f(s[k])
    ensures m < |s|
    ensures forall j :: 0 <= j < |s| ==> f(s[j]) <= f(s[m])
    ensures forall j :: 0 <= j < m ==> f(s[j]) < f(s[m])
    decreases |s| - i
  {
    if i == |s| then k
    else MaxFold(s, f, if f(s[i]) > f(s[k]) then i else k, i + 1)
  }

  /** The element `reduce((max, x) => f(x) > f(max) ? x : max, s[0])` picks:
      the first position holding the largest value of `f`. */
  function FirstMaxIndex<T>(s: seq<T>, f: T -> int): (m: nat)
    requires |s| > 0
    ensures m < |s|
    ensures forall j :: 0 <= j < |s| ==> f(s[j]) <= f(s[m])
    ensures forall j :: 0 <= j < m ==> f(s[j]) < f(s[m])
  {
    MaxFold(s, f, 0, 0)
  }

  /** The first maximum is the only position satisfying both of its properties. */
  lemma FirstMaxUnique<T>(s: seq<T>, f: T -> int, m: nat)
    requires m < |s|
    requires forall j :: 0 <= j < |s| ==> f(s[j]) <= f(s[m])
    requires forall j :: 0 <= j < m ==> f(s[j]) < f(s[m])
    ensures m == FirstMaxIndex(s, f)
  {
    var k := FirstMaxIndex(s, f);
    assert !(k < m) && !(m < k);
  }

  // ---------------------------------------------------------------- sorting

  predicate SortedDesc<T>(s: seq<T>, f: T -> int) {
    forall i, j :: 0 <= i < j < |s| ==> f(s[i]) >= f(s[j])
  }

  /** Places `x` after every element whose key is at least its own, as a stable
      sort does with an element that came later. */
  function InsertDesc<T>(x: T, s: seq<T>, f: T -> int): (r: seq<T>)
    requires SortedDesc(s, f)
    ensures SortedDesc(r, f)
    ensures multiset(r) == multiset(s) + multiset{x}
    ensures r[0] == x || (s != [] && r[0] == s[0])
  {
    if s == [] then [x]
    else if f(s[0]) >= f(x) then
      assert s == [s[0]] + s[1..];
      [s[0]] + InsertDesc(x, s[1..], f)
    else
      [x] + s
  }

  /** `s.sort((a, b) => f(b) - f(a))`: JavaScript's stable sort by descending key. */
  function SortDesc<T>(s: seq<T>, f: T -> int): (r: seq<T>)
    ensures SortedDesc(r, f)
    ensures multiset(r) == multiset(s)
  {
    if s == [] then []
    else
      assert s == s[..|s| - 1] + [s[|s| - 1]];
      InsertDesc(s[|s| - 1], SortDesc(s[..|s| - 1], f), f)
  }

  // ---------------------------------------------------------------- slices

  /** `s.slice(0, n)`: a negative `n` counts from the end. */
  function SliceTo<T>(s: seq<T>, n: int): (r: seq<T>)
    ensures 0 <= n ==> |r| == if n < |s| then n else |s|
    ensures n < 0 ==> |r| == if |s| + n > 0 then |s| + n else 0
    ensures r == s[..|r|]
  {
    var end := if n >= 0 then (if n < |s| then n else |s|)
               else (if |s| + n > 0 then |s| + n else 0);
    s[..end]
  }

  /** The last `n` elements of `s` (all of them when there are fewer). */
  function LastN<T>(s: seq<T>, n: nat): (r: seq<T>)
    ensures |r| == if n < |s| then n else |s|
    ensures r == s[|s| - |r|..]
  {
    if n < |s| then s[|s| - n..] else s
  }

  function Reverse<T>(s: seq<T>): (r: seq<T>)
    ensures |r| == |s|
    ensures forall i :: 0 <= i < |s| ==> r[i] == s[|s| - 1 - i]
  {
    if s == [] then [] else Reverse(s[1..]) + [s[0]]
  }

  /** Reversing, keeping the first `n`, and reversing back keeps the last `n`
      in their original order. */
  lemma ReverseTakeReverse<T>(s: seq<T>, n: nat)
    ensures Reverse(SliceTo(Reverse(s), n)) == LastN(s, n)
  {
    var t := SliceTo(Reverse(s), n);
    var r := Reverse(t);
    var l := LastN(s, n);
    assert |r| == |l|;
    forall i | 0 <= i < |r| ensures r[i] == l[i] {
      assert r[i] == t[|t| - 1 - i] == Reverse(s)[|t| - 1 - i] == s[|s| - |t| + i];
    }
  }

  /** Reversing twice gives the sequence back. */
  lemma ReverseReverse<T>(s: seq<T>)
    ensures Reverse(Reverse(s)) == s
  {
  }

  // ---------------------------------------------------------------- rounding

  /** `Math.round(a / b)` for integers, with `b > 0`: the nearest integer, a
      half rounding up. */
  function RoundDiv(a: int, b: int): (r: int)
    requires b > 0
    ensures 2 * b * r - b <= 2 * a < 2 * b * r + b
  {
    var q := (2 * a + b) / (2 * b);
    assert 2 * b * q + (2 * a + b) % (2 * b) == 2 * a + b;
    q
  }

  /** A positive factor can be cancelled from both sides of an inequality. */
  lemma CancelPositive(t: int, x: int, y: int)
    requires t > 0 && t * x <= t * y
    ensures x <= y
  {
  }

  /** A ratio of at least one rounds to at least one. */
  lemma RoundDivAtLeastOne(a: int, b: int)
    requires b > 0 && a >= b
    ensures RoundDiv(a, b) >= 1
  {
    var r := RoundDiv(a, b);
    CancelPositive(b, 1, 2 * r);
  }

  /** `Math.round(part / total * 100)` on exact rationals: a percentage
      between 0 and 100 when the part is at most the total. */
  function Percent(part: int, total: int): (r: int)
    requires 0 <= part <= total && total > 0
    ensures 0 <= r <= 100
    ensures 2 * total * r - total <= 200 * part < 2 * total * r + total
  {
    var r := RoundDiv(100 * part, total);
    CancelPositive(total, 2 * r, 201);
    CancelPositive(total, -1, 2 * r);
    r
  }
}
