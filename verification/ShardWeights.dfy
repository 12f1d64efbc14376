/** What a test file weighs: `_weights` of `ci/suite_shards.py`. */
module ShardWeights {
  import opened Text
  import opened Packing

  // ---------------------------------------------------------------------------------------------
  // Weights
  // ---------------------------------------------------------------------------------------------

  type Durations = map<string, real>

  function InsertReal(x: real, s: seq<real>): (r: seq<real>)
    ensures multiset(r) == multiset(s) + multiset{x}
    ensures |r| == |s| + 1
  {
    if s == [] then [x]
    else if x <= s[0] then [x] + s
    else
      assert s == [s[0]] + s[1..];
      [s[0]] + InsertReal(x, s[1..])
  }

  function SortedReals(s: seq<real>): (r: seq<real>)
    ensures multiset(r) == multiset(s)
    ensures |r| == |s|
  {
    if s == [] then []
    else
      assert s == [s[0]] + s[1..];
      InsertReal(s[0], SortedReals(s[1..]))
  }

  /** The recorded durations of the given files, in their order. */
  function Known(files: seq<string>, durations: Durations): seq<real> {
    if files == [] then []
    else (if files[0] in durations then [durations[files[0]]] else []) + Known(files[1..], durations)
  }

  /** The weight of a file without a recorded duration: the upper median of the recorded ones. */
  function Fallback(files: seq<string>, durations: Durations): real {
    var known := SortedReals(Known(files, durations));
    if known != [] then known[|known| / 2] else 1.0
  }

  /** `_weights`, as a function of the file. */
  function Weights(files: seq<string>, durations: Durations): Weight {
    var fallback := Fallback(files, durations);
    f => if f in durations then durations[f] else fallback
  }

  lemma {:induction false} KnownInRange(files: seq<string>, durations: Durations)
    requires forall f :: f in durations ==> durations[f] >= 0.0
    ensures forall d :: d in Known(files, durations) ==> d >= 0.0
    decreases |files|
  {
    if files != [] { KnownInRange(files[1..], durations); }
  }

  lemma WeightsNonNegative(files: seq<string>, durations: Durations)
    requires forall f :: f in durations ==> durations[f] >= 0.0
    ensures NonNegative(Weights(files, durations))
  {
    FallbackNonNegative(files, durations);
    hide Fallback;
  }

  lemma FallbackNonNegative(files: seq<string>, durations: Durations)
    requires forall f :: f in durations ==> durations[f] >= 0.0
    ensures Fallback(files, durations) >= 0.0
  {
    KnownInRange(files, durations);
    var known := SortedReals(Known(files, durations));
    PermutationKeeps(known, Known(files, durations));
    if known != [] {
      assert known[|known| / 2] in known;
    }
  }

  ghost predicate Increasing(s: seq<real>) {
    forall i, j :: 0 <= i < j < |s| ==> s[i] <= s[j]
  }

  lemma {:induction false} InsertIncreasing(x: real, s: seq<real>)
    requires Increasing(s)
    ensures Increasing(InsertReal(x, s))
    decreases |s|
  {
    if s != [] && x > s[0] {
      InsertIncreasing(x, s[1..]);
      var t := InsertReal(x, s[1..]);
      assert InsertReal(x, s) == [s[0]] + t;
      hide InsertReal;
      forall j | 0 <= j < |t| ensures s[0] <= t[j] {
        assert t[j] in multiset(t);
        assert t[j] == x || t[j] in s[1..];
      }
      IncreasingFront(s[0], t);
    }
  }

  lemma IncreasingFront(x: real, t: seq<real>)
    requires Increasing(t) && forall j :: 0 <= j < |t| ==> x <= t[j]
    ensures Increasing([x] + t)
  {
  }

  lemma {:induction false} SortedIncreasing(s: seq<real>)
    ensures Increasing(SortedReals(s))
    decreases |s|
  {
    if s != [] {
      SortedIncreasing(s[1..]);
      InsertIncreasing(s[0], SortedReals(s[1..]));
    }
  }

  lemma {:induction false} IncreasingIsUnique(s: seq<real>, t: seq<real>)
    requires Increasing(s) && Increasing(t) && multiset(s) == multiset(t)
    ensures s == t
    decreases |s|
  {
    PermutationKeeps(s, t);
    if s != [] {
      assert s[0] in t && t[0] in s;
      TailsOfPermutation(s, t);
      IncreasingIsUnique(s[1..], t[1..]);
      assert s == [s[0]] + s[1..] && t == [t[0]] + t[1..];
    }
  }

  lemma {:induction false} KnownOfPermutation(a: seq<string>, b: seq<string>, durations: Durations)
    requires multiset(a) == multiset(b)
    ensures multiset(Known(a, durations)) == multiset(Known(b, durations))
    decreases |a|
  {
    PermutationKeeps(a, b);
    if a != [] {
      var k := FirstInPermutation(a, b);
      KnownOfPermutation(a[1..], b[..k] + b[k + 1..], durations);
      KnownWithout(b, k, durations);
    }
  }

  lemma KnownWithout(b: seq<string>, k: nat, durations: Durations)
    requires k < |b|
    ensures multiset(Known(b, durations)) == multiset(Known(b[..k] + b[k + 1..], durations))
              + if b[k] in durations then multiset{durations[b[k]]} else multiset{}
  {
    KnownAppend(b[..k], b[k + 1..], durations);
    KnownAppend(b[..k], b[k..], durations);
    assert b == b[..k] + b[k..] && b[k..][1..] == b[k + 1..];
  }

  lemma {:induction false} KnownAppend(a: seq<string>, b: seq<string>, durations: Durations)
    ensures Known(a + b, durations) == Known(a, durations) + Known(b, durations)
    decreases |a|
  {
    if a == [] {
      assert a + b == b;
    } else {
      assert (a + b)[1..] == a[1..] + b;
      KnownAppend(a[1..], b, durations);
    }
  }

  // ---------------------------------------------------------------------------------------------
  // What the weights mean
  // ---------------------------------------------------------------------------------------------

  /** The places in the listing of files that pass a test. */
  ghost function Places(files: seq<string>, p: string -> bool): set<int> {
    set i | 0 <= i < |files| && p(files[i])
  }

  /** `x` is a recorded duration of the files, at most half of them are below it, and more than half are not
      above it; it is 1.0 when none is recorded. */
  ghost predicate IsMedian(files: seq<string>, durations: Durations, x: real) {
    var recorded := Places(files, f => f in durations);
    var below := Places(files, f => f in durations && durations[f] < x);
    var upTo := Places(files, f => f in durations && durations[f] <= x);
    if recorded == {} then x == 1.0
    else
      && (exists f :: f in files && f in durations && durations[f] == x)
      && 2 * |below| <= |recorded| < 2 * |upTo|
  }

  /** A file weighs its recorded duration, and a file without one the median of the recorded ones. */
  ghost predicate Weighs(files: seq<string>, durations: Durations, w: Weight) {
    forall f :: if f in durations then w(f) == durations[f] else IsMedian(files, durations, w(f))
  }

  ghost function Count(s: seq<real>, q: real -> bool): nat {
    if s == [] then 0 else (if q(s[0]) then 1 else 0) + Count(s[1..], q)
  }

  lemma {:induction false} CountAppend(a: seq<real>, b: seq<real>, q: real -> bool)
    ensures Count(a + b, q) == Count(a, q) + Count(b, q)
    decreases |a|
  {
    if a == [] {
      assert a + b == b;
    } else {
      assert (a + b)[1..] == a[1..] + b;
      CountAppend(a[1..], b, q);
    }
  }

  lemma {:induction false} CountOfPermutation(a: seq<real>, b: seq<real>, q: real -> bool)
    requires multiset(a) == multiset(b)
    ensures Count(a, q) == Count(b, q)
    decreases |a|
  {
    PermutationKeeps(a, b);
    if a != [] {
      var k := FirstInPermutation(a, b);
      CountOfPermutation(a[1..], b[..k] + b[k + 1..], q);
      CountAppend(b[..k], b[k + 1..], q);
      CountAppend(b[..k], b[k..], q);
      assert b == b[..k] + b[k..] && b[k..][1..] == b[k + 1..];
    }
  }

  /** What holds of the first `k` is counted at least `k` times, what holds of no other at most. */
  lemma {:induction false} CountOfPrefix(s: seq<real>, k: nat, q: real -> bool)
    requires k <= |s|
    ensures (forall i :: 0 <= i < k ==> q(s[i])) ==> Count(s, q) >= k
    ensures (forall i :: k <= i < |s| ==> !q(s[i])) ==> Count(s, q) <= k
    decreases |s|
  {
    if s != [] {
      var rest := s[1..];
      CountOfPrefix(rest, if k == 0 then 0 else k - 1, q);
      assert forall i :: 0 <= i < |rest| ==> rest[i] == s[i + 1];
    }
  }

  lemma {:induction false} PlacesCounted(files: seq<string>, durations: Durations, q: real -> bool)
    ensures |Places(files, f => f in durations && q(durations[f]))| == Count(Known(files, durations), q)
    decreases |files|
  {
    var p := f => f in durations && q(durations[f]);
    if files != [] {
      var n := |files| - 1;
      PlacesCounted(files[..n], durations, q);
      KnownAppend(files[..n], [files[n]], durations);
      assert files == files[..n] + [files[n]];
      CountAppend(Known(files[..n], durations), Known([files[n]], durations), q);
      OneMorePlace(files, p);
      CountOne(files[n], durations, q);
      hide Places, Known, Count;
    }
  }

  lemma OneMorePlace(files: seq<string>, p: string -> bool)
    requires files != []
    ensures |Places(files, p)| == |Places(files[..|files| - 1], p)| + if p(files[|files| - 1]) then 1 else 0
  {
    var n := |files| - 1;
    assert Places(files, p) == Places(files[..n], p) + (if p(files[n]) then {n} else {});
  }

  lemma CountOne(file: string, durations: Durations, q: real -> bool)
    ensures Count(Known([file], durations), q) == if file in durations && q(durations[file]) then 1 else 0
  {
  }

  lemma AllPlaces(files: seq<string>, durations: Durations)
    ensures |Places(files, f => f in durations)| == |Known(files, durations)|
  {
    PlacesCounted(files, durations, x => true);
    CountAll(Known(files, durations));
    assert Places(files, f => f in durations) == Places(files, f => f in durations && (x => true)(durations[f]));
  }

  lemma {:induction false} CountAll(s: seq<real>)
    ensures Count(s, x => true) == |s|
    decreases |s|
  {
    if s != [] {
      CountAll(s[1..]);
    }
  }

  lemma {:induction false} KnownIsOfFile(files: seq<string>, durations: Durations, x: real)
    requires x in Known(files, durations)
    ensures exists f :: f in files && f in durations && durations[f] == x
    decreases |files|
  {
    if files[0] !in durations || durations[files[0]] != x {
      KnownIsOfFile(files[1..], durations, x);
    }
  }

  lemma FallbackIsMedian(files: seq<string>, durations: Durations)
    ensures IsMedian(files, durations, Fallback(files, durations))
  {
    var known, x := Known(files, durations), Fallback(files, durations);
    AllPlaces(files, durations);
    if known != [] {
      MedianCounts(known);
      PlacesCounted(files, durations, y => y < x);
      PlacesCounted(files, durations, y => y <= x);
      SamePlaces(files, durations, x);
      KnownIsOfFile(files, durations, x);
      hide Places, Fallback, Known, Count;
      assert |Places(files, f => f in durations)| != 0;
    }
  }

  lemma FewBelow(sorted: seq<real>, m: nat)
    requires Increasing(sorted) && m < |sorted|
    ensures Count(sorted, y => y < sorted[m]) <= m
  {
    hide Count;
    CountOfPrefix(sorted, m, y => y < sorted[m]);
  }

  lemma ManyUpTo(sorted: seq<real>, m: nat)
    requires Increasing(sorted) && m < |sorted|
    ensures Count(sorted, y => y <= sorted[m]) >= m + 1
  {
    hide Count;
    CountOfPrefix(sorted, m + 1, y => y <= sorted[m]);
  }

  /** The upper median of a list, by counting. */
  lemma MedianCounts(known: seq<real>)
    requires known != []
    ensures var x := SortedReals(known)[|SortedReals(known)| / 2];
            x in known && 2 * Count(known, y => y < x) <= |known| < 2 * Count(known, y => y <= x)
  {
    var sorted := SortedReals(known);
    var m := |sorted| / 2;
    var x := sorted[m];
    hide *;
    PermutationKeeps(sorted, known);
    SortedIncreasing(known);
    FewBelow(sorted, m);
    ManyUpTo(sorted, m);
    CountOfPermutation(sorted, known, y => y < x);
    CountOfPermutation(sorted, known, y => y <= x);
    assert x in sorted;
  }

  lemma SamePlaces(files: seq<string>, durations: Durations, x: real)
    ensures Places(files, f => f in durations && (y => y < x)(durations[f]))
              == Places(files, f => f in durations && durations[f] < x)
    ensures Places(files, f => f in durations && (y => y <= x)(durations[f]))
              == Places(files, f => f in durations && durations[f] <= x)
  {
  }

  lemma WeightsWeigh(files: seq<string>, durations: Durations)
    ensures Weighs(files, durations, Weights(files, durations))
  {
    FallbackIsMedian(files, durations);
    hide Fallback, IsMedian;
  }

  lemma MoreReachIt(files: seq<string>, durations: Durations, x: real, y: real)
    requires x < y
    ensures |Places(files, f => f in durations && durations[f] <= x)| <= |Places(files, f => f in durations
              && durations[f] < y)|
  {
    var a := Places(files, f => f in durations && durations[f] <= x);
    var b := Places(files, f => f in durations && durations[f] < y);
    assert a <= b;
    FewerIn(a, b);
  }

  lemma FewerIn(a: set<int>, b: set<int>)
    requires a <= b
    ensures |a| <= |b|
  {
    assert b == a + (b - a) && a !! (b - a);
  }

  /** There is one such value, */
  lemma MedianIsUnique(files: seq<string>, durations: Durations, x: real, y: real)
    requires IsMedian(files, durations, x) && IsMedian(files, durations, y)
    ensures x == y
  {
    if x < y {
      MoreReachIt(files, durations, x, y);
    }
    if y < x {
      MoreReachIt(files, durations, y, x);
    }
  }

  /** so there is one way to weigh the files. */
  lemma WeighedAlike(files: seq<string>, durations: Durations, w: Weight, v: Weight)
    requires Weighs(files, durations, w) && Weighs(files, durations, v)
    ensures forall f :: w(f) == v(f)
  {
    forall f ensures w(f) == v(f) {
      if f !in durations {
        MedianIsUnique(files, durations, w(f), v(f));
      }
    }
  }
}
