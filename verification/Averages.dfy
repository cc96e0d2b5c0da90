/**
  The trimmed average of the most recent solves: drop the best and worst twentieth, rounded up,
  of the `n` times and round the mean of the rest. For n = 5 this is the average of
  regulations 9f8 and 9f9 of the World Cube Association.
 */
module Averages {

  /** `math.MaxInt64`, the time that stands for a solve that did not finish. */
  const DNF: int := 0x7FFF_FFFF_FFFF_FFFF

  const TWO_64: int := 0x1_0000_0000_0000_0000

  /** The longest validated duration with a two second penalty. */
  const MAX_EFFECTIVE_MS: int := 24 * 60 * 60 * 1000 + 2000

  datatype Average =
    | NotEnough          // fewer than n times
    | Dnf
    | Mean(ms: int)
    | OutOfRange         // n is 1 or 2: nothing is left after trimming and the slice operation panics

  predicate InInt64(x: int) {
    -DNF - 1 <= x <= DNF
  }

  /** Two's complement wrap-around of a 64-bit sum. */
  function Wrap(x: int): int {
    (x + DNF + 1) % TWO_64 - DNF - 1
  }

  /** Integer division that truncates toward zero. */
  function Div(a: int, b: int): int
    requires b > 0
  {
    if a >= 0 then a / b else -((-a) / b)
  }

  lemma {:induction false} DivTruncates(a: int, b: int)
    requires b > 0
    ensures a >= 0 ==> Div(a, b) * b <= a < Div(a, b) * b + b
    ensures a <= 0 ==> Div(a, b) * b >= a > Div(a, b) * b - b
  {
    var q := (if a >= 0 then a else -a) / b;
    Quotient(if a >= 0 then a else -a, b);
    assert (-q) * b == -(q * b);
  }

  function Sum(s: seq<int>): int {
    if s == [] then 0 else Sum(s[..|s| - 1]) + s[|s| - 1]
  }

  function WrappedSum(s: seq<int>): int {
    if s == [] then 0 else Wrap(WrappedSum(s[..|s| - 1]) + s[|s| - 1])
  }

  // ---- Sorting ----

  predicate Ascending(s: seq<int>) {
    forall i, j :: 0 <= i < j < |s| ==> s[i] <= s[j]
  }

  function Insert(s: seq<int>, x: int): seq<int> {
    if s == [] || x <= s[0] then [x] + s else [s[0]] + Insert(s[1..], x)
  }

  function Sort(s: seq<int>): seq<int> {
    if s == [] then [] else Insert(Sort(s[1..]), s[0])
  }

  /** How many elements are at most `x`. */
  function AtMost(s: seq<int>, x: int): nat {
    if s == [] then 0 else (if s[0] <= x then 1 else 0) + AtMost(s[1..], x)
  }

  predicate Within(s: seq<int>, lo: int, hi: int) {
    forall i :: 0 <= i < |s| ==> lo <= s[i] <= hi
  }

  lemma {:induction false} InsertAscending(s: seq<int>, x: int)
    requires Ascending(s)
    ensures Ascending(Insert(s, x)) && |Insert(s, x)| == |s| + 1
    ensures s != [] ==> Insert(s, x)[0] == x || Insert(s, x)[0] == s[0]
  {
    if s != [] && x > s[0] {
      InsertAscending(s[1..], x);
      var t := Insert(s[1..], x);
      assert forall i :: 0 <= i < |t| ==> s[0] <= t[i] by {
        assert s[0] <= t[0];
        assert forall i :: 0 < i < |t| ==> t[0] <= t[i];
      }
    }
  }

  lemma {:induction false} InsertKeeps(s: seq<int>, x: int)
    ensures multiset(Insert(s, x)) == multiset(s) + multiset{x}
  {
    if s != [] && x > s[0] {
      InsertKeeps(s[1..], x);
      assert s == [s[0]] + s[1..];
    }
  }

  lemma {:induction false} SortAscending(s: seq<int>)
    ensures Ascending(Sort(s)) && |Sort(s)| == |s|
  {
    if s != [] {
      SortAscending(s[1..]);
      InsertAscending(Sort(s[1..]), s[0]);
    }
  }

  /** Sorting rearranges. */
  lemma {:induction false} SortKeeps(s: seq<int>)
    ensures multiset(Sort(s)) == multiset(s)
  {
    if s != [] {
      SortKeeps(s[1..]);
      InsertKeeps(Sort(s[1..]), s[0]);
      assert s == [s[0]] + s[1..];
    }
  }

  // ---- Order statistics by counting ----

  lemma {:induction false} AtMostConcat(a: seq<int>, b: seq<int>, x: int)
    ensures AtMost(a + b, x) == AtMost(a, x) + AtMost(b, x)
  {
    if a == [] {
      assert a + b == b;
    } else {
      AtMostConcat(a[1..], b, x);
      assert (a + b)[1..] == a[1..] + b;
    }
  }

  lemma {:induction false} RemoveOne(s: seq<int>, j: nat)
    requires j < |s|
    ensures multiset(s[..j] + s[j + 1..]) == multiset(s) - multiset{s[j]}
  {
    assert s == s[..j] + [s[j]] + s[j + 1..];
  }

  lemma {:induction false} AtMostRemoveOne(s: seq<int>, j: nat, x: int)
    requires j < |s|
    ensures AtMost(s, x) == AtMost(s[..j] + s[j + 1..], x) + if s[j] <= x then 1 else 0
  {
    assert s == s[..j] + ([s[j]] + s[j + 1..]);
    AtMostConcat(s[..j], [s[j]] + s[j + 1..], x);
    AtMostConcat([s[j]], s[j + 1..], x);
    AtMostConcat(s[..j], s[j + 1..], x);
  }

  /** Counting does not depend on the order. */
  lemma {:induction false} AtMostPermutation(a: seq<int>, b: seq<int>, x: int)
    requires multiset(a) == multiset(b)
    ensures AtMost(a, x) == AtMost(b, x)
    decreases |a|
  {
    if a == [] {
      assert |multiset(b)| == 0;
    } else {
      assert a[0] in multiset(b);
      var j :| 0 <= j < |b| && b[j] == a[0];
      RemoveOne(a, 0);
      RemoveOne(b, j);
      assert a[..0] + a[1..] == a[1..];
      AtMostPermutation(a[1..], b[..j] + b[j + 1..], x);
      AtMostRemoveOne(b, j, x);
    }
  }

  /** In a sorted sequence the element at `i` is at most `x` exactly when more than `i` elements are. */
  lemma {:induction false} Rank(s: seq<int>, i: nat, x: int)
    requires Ascending(s) && i < |s|
    ensures s[i] <= x <==> AtMost(s, x) > i
    ensures AtMost(s, x) <= |s|
  {
    CountBounds(s, x);
    if s[0] > x {
      NoneAtMost(s, x);
    } else if i > 0 {
      Rank(s[1..], i - 1, x);
    }
  }

  lemma {:induction false} CountBounds(s: seq<int>, x: int)
    ensures AtMost(s, x) <= |s|
  {
    if s != [] {
      CountBounds(s[1..], x);
    }
  }

  lemma {:induction false} NoneAtMost(s: seq<int>, x: int)
    requires forall i :: 0 <= i < |s| ==> s[i] > x
    ensures AtMost(s, x) == 0
  {
    if s != [] {
      NoneAtMost(s[1..], x);
    }
  }

  lemma {:induction false} SortedRank(s: seq<int>, i: nat, x: int)
    requires i < |s|
    ensures |Sort(s)| == |s| && (Sort(s)[i] <= x <==> AtMost(s, x) > i)
  {
    SortAscending(s);
    Rank(Sort(s), i, x);
    SortKeeps(s);
    AtMostPermutation(Sort(s), s, x);
  }

  // ---- The average ----

  /** How many times are dropped at each end: a twentieth, rounded up. */
  function Trim(n: int): (k: int)
    ensures 20 * (k - 1) < n <= 20 * k
  {
    (n + 19) / 20
  }

  lemma {:induction false} TrimLeavesSome(n: int)
    requires n >= 3
    ensures 0 < Trim(n) && 2 * Trim(n) < n
  {
  }

  /** The times kept, in ascending order. */
  function KeptTimes(times: seq<int>): seq<int>
    requires |times| >= 3
  {
    TrimLeavesSome(|times|);
    SortAscending(times);
    Sort(times)[Trim(|times|)..|times| - Trim(|times|)]
  }

  function MeanOf(sum: int, count: int): int
    requires count > 0
  {
    Div(sum + count / 2, count)
  }

  /** The average over mathematical integers. */
  function AverageOf(times: seq<int>): Average
    requires |times| >= 3
  {
    TrimLeavesSome(|times|);
    SortAscending(times);
    var kept := KeptTimes(times);
    if kept[|kept| - 1] == DNF then Dnf else Mean(MeanOf(Sum(kept), |kept|))
  }

  /** The 64-bit sum. */
  method AddUp(s: seq<int>) returns (sum: int)
    ensures sum == WrappedSum(s)
  {
    sum := 0;
    for i := 0 to |s|
      invariant sum == WrappedSum(s[..i])
    {
      assert s[..i + 1][..i] == s[..i];
      sum := Wrap(sum + s[i]);
    }
    assert s[..|s|] == s;
  }

  /** The average as computed: sort a copy, trim both ends, add up in 64 bits, round. */
  method ComputeAverage(times: seq<int>, n: int) returns (r: Average)
    ensures n <= 0 || |times| < n ==> r == NotEnough
    ensures 1 <= n <= 2 && n <= |times| ==> r == OutOfRange
    ensures 3 <= n <= |times| ==>
              var kept := KeptTimes(times[..n]);
              |kept| > 0 && r == if kept[|kept| - 1] == DNF then Dnf
                                 else Mean(Div(Wrap(WrappedSum(kept) + |kept| / 2), |kept|))
  {
    if n <= 0 || |times| < n {
      return NotEnough;
    }
    var sorted := Sort(times[..n]);
    SortAscending(times[..n]);
    var k := (n + 19) / 20;
    if n - k <= k {
      return OutOfRange;
    }
    var trimmed := sorted[k..n - k];
    if trimmed[|trimmed| - 1] == DNF {
      return Dnf;
    }
    var sum := AddUp(trimmed);
    r := Mean(Div(Wrap(sum + |trimmed| / 2), |trimmed|));
  }

  // ---- No overflow ----

  lemma {:induction false} SumBounds(s: seq<int>, lo: int, hi: int)
    requires Within(s, lo, hi)
    ensures lo * |s| <= Sum(s) <= hi * |s|
    decreases |s|
  {
    if s != [] {
      var s' := s[..|s| - 1];
      SumBounds(s', lo, hi);
      assert lo * |s| == lo * |s'| + lo && hi * |s| == hi * |s'| + hi;
    }
  }

  /** A wrapped sum is in range and differs from the true one by a multiple of 2^64. */
  lemma {:induction false} WrapIsCongruent(x: int)
    ensures InInt64(Wrap(x)) && (Wrap(x) - x) % 0x1_0000_0000_0000_0000 == 0
  {
    var y := x + DNF + 1;
    assert y == y / TWO_64 * TWO_64 + y % TWO_64;
    assert Wrap(x) - x == -(y / TWO_64) * TWO_64;
    MultipleOf(-(y / TWO_64));
  }

  lemma {:induction false} MultipleOf(q: int)
    ensures q * TWO_64 % TWO_64 == 0
  {
  }

  lemma {:induction false} SumAddsUp(a: seq<int>, b: seq<int>)
    ensures Sum(a + b) == Sum(a) + Sum(b)
    ensures |b| == 1 ==> Sum(b) == b[0]
    decreases |b|
  {
    if b == [] {
      assert a + b == a;
    } else {
      assert (a + b)[..|a + b| - 1] == a + b[..|b| - 1];
      SumAddsUp(a, b[..|b| - 1]);
    }
  }

  lemma {:induction false} WrapIsIdentity(x: int)
    requires InInt64(x)
    ensures Wrap(x) == x
  {
  }

  lemma {:induction false} SumDoesNotWrap(s: seq<int>)
    requires Within(s, 0, MAX_EFFECTIVE_MS)
    requires |s| <= 100
    ensures WrappedSum(s) == Sum(s) && 0 <= Sum(s) <= MAX_EFFECTIVE_MS * 100
    decreases |s|
  {
    SumBounds(s, 0, MAX_EFFECTIVE_MS);
    if s != [] {
      SumDoesNotWrap(s[..|s| - 1]);
      WrapIsIdentity(Sum(s));
    }
  }

  datatype Penalty = NoPenalty | PlusTwo | DidNotFinish

  /** The time that counts for a solve. */
  function CountingTime(durationMs: int, penalty: Penalty): int {
    match penalty
    case NoPenalty => durationMs
    case PlusTwo => durationMs + 2000
    case DidNotFinish => DNF
  }

  /** Stored durations give valid times, and only a solve that did not finish gives a DNF. */
  lemma {:induction false} StoredDurationsCount(durationMs: int, penalty: Penalty)
    requires 0 <= durationMs <= 24 * 3600 * 1000
    ensures ValidTime(CountingTime(durationMs, penalty))
    ensures CountingTime(durationMs, penalty) == DNF <==> penalty.DidNotFinish?
  {
  }

  predicate ValidTime(t: int) {
    t == DNF || 0 <= t <= MAX_EFFECTIVE_MS
  }

  lemma {:induction false} KeptFrom(times: seq<int>)
    requires |times| >= 3
    ensures |KeptTimes(times)| == |times| - 2 * Trim(|times|) > 0
    ensures forall i :: 0 <= i < |KeptTimes(times)| ==> KeptTimes(times)[i] in times
    ensures Ascending(KeptTimes(times))
  {
    SortAscending(times);
    TrimLeavesSome(|times|);
    SortKeeps(times);
    forall i | 0 <= i < |KeptTimes(times)|
      ensures KeptTimes(times)[i] in times
    {
      assert Sort(times)[Trim(|times|) + i] in multiset(Sort(times));
    }
  }

  /**
    The kept times are the middle of the order: the i-th of them is at most `x` exactly when more than
    i + ceil(n/20) of all times are, so as many are dropped as too fast as are dropped as too slow.
   */
  lemma {:induction false} KeptAreMiddle(times: seq<int>, i: nat, x: int)
    requires |times| >= 3 && i < |times| - 2 * Trim(|times|)
    ensures |KeptTimes(times)| == |times| - 2 * Trim(|times|)
    ensures KeptTimes(times)[i] <= x <==> AtMost(times, x) > i + Trim(|times|)
  {
    KeptFrom(times);
    SortedRank(times, Trim(|times|) + i, x);
  }

  /** With validated durations and at most 100 times the 64-bit sum never wraps. */
  lemma {:induction false} NoOverflow(times: seq<int>)
    requires 3 <= |times| <= 100 && forall i :: 0 <= i < |times| ==> ValidTime(times[i])
    ensures var kept := KeptTimes(times);
            && |kept| > 0
            && (kept[|kept| - 1] != DNF ==>
                  Mean(Div(Wrap(WrappedSum(kept) + |kept| / 2), |kept|)) == AverageOf(times))
  {
    var kept := KeptTimes(times);
    KeptFrom(times);
    if kept[|kept| - 1] != DNF {
      KeptTimesFinished(times);
      SumDoesNotWrap(kept);
      WrapIsIdentity(Sum(kept) + |kept| / 2);
    }
  }

  lemma {:induction false} KeptTimesFinished(times: seq<int>)
    requires |times| >= 3 && forall i :: 0 <= i < |times| ==> ValidTime(times[i])
    requires var kept := KeptTimes(times); |kept| > 0 && kept[|kept| - 1] != DNF
    ensures Within(KeptTimes(times), 0, MAX_EFFECTIVE_MS)
  {
    var kept := KeptTimes(times);
    KeptFrom(times);
    forall i | 0 <= i < |kept|
      ensures 0 <= kept[i] <= MAX_EFFECTIVE_MS
    {
      assert kept[i] <= kept[|kept| - 1];
      assert kept[i] in times && kept[|kept| - 1] in times;
    }
  }

  // ---- What the average means ----

  /** The average is DNF exactly when more times are DNF than are dropped at the slow end. */
  lemma {:induction false} DnfExactlyWhen(times: seq<int>)
    requires |times| >= 3 && forall i :: 0 <= i < |times| ==> times[i] <= DNF
    ensures AverageOf(times).Dnf? <==> |times| - AtMost(times, DNF - 1) > Trim(|times|)
  {
    var n, k := |times|, Trim(|times|);
    TrimLeavesSome(n);
    SortedRank(times, n - k - 1, DNF - 1);
    SortedRank(times, n - k - 1, DNF);
    AllAtMost(times, DNF);
  }

  function DnfCount(times: seq<int>): int {
    |times| - AtMost(times, DNF - 1)
  }

  predicate IsTimes(times: seq<int>, n: int) {
    |times| == n && forall i :: 0 <= i < |times| ==> times[i] <= DNF
  }

  /**
    The protocol document says that more than one DNF makes an average a DNF. That describes the
    code for windows of up to 20 solves, so for 5 and 12, and for no larger one, so not for 50 and 100.
   */
  lemma {:induction false} DocumentedRuleExactlyUpTo20(n: int)
    requires n >= 3
    ensures (forall times :: IsTimes(times, n) ==> (AverageOf(times).Dnf? <==> DnfCount(times) > 1)) <==> n <= 20
  {
    if n <= 20 {
      forall times | IsTimes(times, n)
        ensures AverageOf(times).Dnf? <==> DnfCount(times) > 1
      {
        DnfExactlyWhen(times);
      }
    } else {
      var times := TwoDnfs(n);
      DnfExactlyWhen(times);
      assert DnfCount(times) == 2 && IsTimes(times, n);
    }
  }

  lemma {:induction false} TwoDnfs(n: int) returns (times: seq<int>)
    requires n > 20
    ensures IsTimes(times, n) && DnfCount(times) == 2
  {
    var zeros := seq(n - 2, _ => 0);
    times := [DNF, DNF] + zeros;
    AtMostConcat([DNF, DNF], zeros, DNF - 1);
    AllAtMost(zeros, DNF - 1);
    NoneAtMost([DNF, DNF], DNF - 1);
  }

  lemma {:induction false} AllAtMost(s: seq<int>, x: int)
    requires forall i :: 0 <= i < |s| ==> s[i] <= x
    ensures AtMost(s, x) == |s|
  {
    if s != [] {
      AllAtMost(s[1..], x);
    }
  }

  /** A mean is the exact mean of the kept times rounded to nearest, and lies within their range. */
  lemma {:induction false} MeanIsNearest(times: seq<int>)
    requires |times| >= 3 && Within(times, 0, DNF) && AverageOf(times).Mean?
    ensures var kept, m := KeptTimes(times), AverageOf(times).ms;
            && |kept| > 0
            && -|kept| <= 2 * (m * |kept| - Sum(kept)) <= |kept|
            && kept[0] <= m <= kept[|kept| - 1]
  {
    var kept := KeptTimes(times);
    KeptFrom(times);
    MeanOfRun(kept);
  }

  lemma {:induction false} MeanOfRun(kept: seq<int>)
    requires kept != [] && Ascending(kept) && kept[0] >= 0
    ensures var m := MeanOf(Sum(kept), |kept|);
            && -|kept| <= 2 * (m * |kept| - Sum(kept)) <= |kept|
            && kept[0] <= m <= kept[|kept| - 1]
  {
    SumBounds(kept, kept[0], kept[|kept| - 1]);
    assert 0 <= kept[0] * |kept|;
    Rounding(Sum(kept), |kept|, kept[0], kept[|kept| - 1]);
  }

  lemma {:induction false} Quotient(a: int, c: int)
    requires c > 0
    ensures a / c * c <= a < a / c * c + c
  {
  }

  lemma {:induction false} CancelTimes(a: int, b: int, c: int)
    requires c > 0 && a * c < b * c
    ensures a < b
  {
  }

  lemma {:induction false} Rounding(sum: int, c: int, lo: int, hi: int)
    requires c > 0 && 0 <= lo && lo * c <= sum <= hi * c && 0 <= sum
    ensures -c <= 2 * (MeanOf(sum, c) * c - sum) <= c
    ensures lo <= MeanOf(sum, c) <= hi
  {
    var m := MeanOf(sum, c);
    Quotient(sum + c / 2, c);
    assert m * c <= sum + c / 2 < m * c + c;
    assert (m + 1) * c == m * c + c && (hi + 1) * c == hi * c + c;
    CancelTimes(m, hi + 1, c);
    CancelTimes(lo, m + 1, c);
  }

  /** Order statistics grow with the times. */
  lemma {:induction false} SortMonotone(a: seq<int>, b: seq<int>, i: nat)
    requires |a| == |b| && i < |a|
    requires forall j :: 0 <= j < |a| ==> a[j] <= b[j]
    ensures |Sort(a)| == |Sort(b)| == |a| && Sort(a)[i] <= Sort(b)[i]
  {
    SortAscending(a);
    SortAscending(b);
    var x := Sort(b)[i];
    SortedRank(b, i, x);
    AtMostMonotone(a, b, x);
    SortedRank(a, i, x);
  }

  lemma {:induction false} AtMostMonotone(a: seq<int>, b: seq<int>, x: int)
    requires |a| == |b| && forall j :: 0 <= j < |a| ==> a[j] <= b[j]
    ensures AtMost(b, x) <= AtMost(a, x)
  {
    if a != [] {
      AtMostMonotone(a[1..], b[1..], x);
    }
  }

  /** The average does not depend on the order of the times. */
  lemma {:induction false} OrderDoesNotMatter(a: seq<int>, b: seq<int>)
    requires |a| >= 3 && multiset(a) == multiset(b)
    ensures |b| >= 3 && AverageOf(a) == AverageOf(b)
  {
    assert |a| == |multiset(a)| == |multiset(b)| == |b|;
    SortAscending(a);
    SortAscending(b);
    forall i | 0 <= i < |a|
      ensures Sort(a)[i] == Sort(b)[i]
    {
      var x, y := Sort(a)[i], Sort(b)[i];
      SortedRank(a, i, x);
      SortedRank(b, i, x);
      AtMostPermutation(a, b, x);
      SortedRank(a, i, y);
      SortedRank(b, i, y);
      AtMostPermutation(a, b, y);
    }
    assert Sort(a) == Sort(b);
  }

  lemma {:induction false} SumMonotone(a: seq<int>, b: seq<int>)
    requires |a| == |b| && forall i :: 0 <= i < |a| ==> a[i] <= b[i]
    ensures Sum(a) <= Sum(b)
    decreases |a|
  {
    if a != [] {
      SumMonotone(a[..|a| - 1], b[..|b| - 1]);
    }
  }

  lemma {:induction false} DivMonotone(a: int, b: int, c: int)
    requires c > 0 && 0 <= a <= b
    ensures a / c <= b / c
  {
    var p, q := a / c, b / c;
    assert p * c <= a && b < q * c + c;
    assert p > q ==> p * c >= (q + 1) * c;
  }

  /** Raising any time, or turning it into a DNF, never lowers the average; DNF is the highest. */
  lemma {:induction false} NeverFalls(a: seq<int>, b: seq<int>)
    requires |a| == |b| >= 3
    requires forall i :: 0 <= i < |a| ==> 0 <= a[i] <= b[i] <= DNF
    ensures AverageOf(a).Dnf? ==> AverageOf(b).Dnf?
    ensures AverageOf(a).Mean? && AverageOf(b).Mean? ==> AverageOf(a).ms <= AverageOf(b).ms
  {
    var ka, kb := KeptTimes(a), KeptTimes(b);
    KeptFrom(a);
    KeptFrom(b);
    forall i | 0 <= i < |ka|
      ensures ka[i] <= kb[i] <= DNF
    {
      SortMonotone(a, b, Trim(|a|) + i);
      assert kb[i] in b;
    }
    SumMonotone(ka, kb);
    SumBounds(ka, 0, DNF);
    DivMonotone(Sum(ka) + |ka| / 2, Sum(kb) + |kb| / 2, |ka|);
  }
}
