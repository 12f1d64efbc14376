/** The plan of `ci/suite_shards.py` attains its bound, for every number of shards: `m` shards and 2m + 1
    files, two of each weight from 2m - 1 down to m + 1 and three of weight m. */
module TightPacking {
  import opened Text
  import opened Packing
  import opened ShardWeights
  import opened SuiteShards

  /** The weight of the `j`-th file, heaviest first. */
  function Size(m: nat, j: nat): int {
    if j < 2 * m then 2 * m - 1 - j / 2 else m
  }

  ghost predicate Sized(order: seq<string>, m: nat, w: Weight) {
    |order| == 2 * m + 1 && forall j :: 0 <= j < |order| ==> w(order[j]) == Size(m, j) as real
  }

  lemma SizesDescend(m: nat, i: nat, j: nat)
    requires m >= 1 && i <= j <= 2 * m
    ensures Size(m, i) >= Size(m, j) >= m
  {
  }

  /** Files that pair up: their places add up to one less than `2 m`, or three less. */
  lemma PairsAddUp(m: nat, i: nat, j: nat)
    requires i + j < 2 * m
    ensures i + j == 2 * m - 1 ==> Size(m, i) + Size(m, j) == 3 * m - 1
    ensures i + j == 2 * m - 3 ==> Size(m, i) + Size(m, j) == 3 * m
  {
  }

  // ---------------------------------------------------------------------------------------------
  // What heaviest first does
  // ---------------------------------------------------------------------------------------------

  /** The loads after `k` files, up to their order: first one file each, then the lightest pairs up. */
  function Stage(m: nat, k: nat): (r: seq<real>)
    ensures |r| == m
  {
    seq(m, i requires 0 <= i < m =>
      if k <= m then (if i < k then Size(m, i) as real else 0.0)
      else if i < 2 * m - k then Size(m, i) as real
      else (3 * m - 1) as real)
  }

  /** Where the next file goes, in that order. */
  function Place(m: nat, k: nat): nat
    requires k < 2 * m
  {
    if k < m then k else 2 * m - 1 - k
  }

  ghost predicate Least(loads: seq<real>, p: nat) {
    p < |loads| && forall i :: 0 <= i < |loads| ==> loads[p] <= loads[i]
  }

  lemma PlaceIsLightest(m: nat, k: nat)
    requires k < 2 * m
    ensures Least(Stage(m, k), Place(m, k))
  {
    var p := Place(m, k);
    forall i | 0 <= i < m ensures Stage(m, k)[p] <= Stage(m, k)[i] {
      if i <= p {
        SizesDescend(m, i, p);
      }
      SizesDescend(m, 0, i);
      SizesDescend(m, 0, p);
    }
  }

  lemma NextStage(m: nat, k: nat, y: real)
    requires k < 2 * m && Place(m, k) < m && y == Stage(m, k)[Place(m, k)] + Size(m, k) as real
    ensures Stage(m, k + 1) == Stage(m, k)[Place(m, k) := y]
  {
    var p := Place(m, k);
    if k >= m {
      PairsAddUp(m, p, k);
    }
    var next := Stage(m, k)[p := y];
    forall i | 0 <= i < m ensures Stage(m, k + 1)[i] == next[i] {
    }
  }

  /** The loads, in no order. */
  ghost function Bag(loads: seq<real>): multiset<real> {
    multiset(loads)
  }

  lemma Replaced(a: seq<real>, t: nat, x: real)
    requires t < |a|
    ensures Bag(a[t := x]) == Bag(a) - multiset{a[t]} + multiset{x}
  {
    var b := a[t := x];
    assert a == a[..t] + ([a[t]] + a[t + 1..]);
    assert b == a[..t] + ([x] + a[t + 1..]);
  }

  lemma LeastInAnyOrder(a: seq<real>, b: seq<real>, t: nat, p: nat)
    requires Bag(a) == Bag(b) && Least(a, t) && Least(b, p)
    ensures a[t] == b[p]
  {
    assert a[t] in multiset(b) && b[p] in multiset(a);
    var i :| 0 <= i < |b| && b[i] == a[t];
    var j :| 0 <= j < |a| && a[j] == b[p];
  }

  /** Replacing one value by another is the same in whatever order the loads are listed. */
  lemma ReplacedAlike(a: seq<real>, b: seq<real>, t: nat, p: nat, y: real)
    requires Bag(a) == Bag(b) && t < |a| && p < |b| && a[t] == b[p]
    ensures Bag(a[t := y]) == Bag(b[p := y])
  {
    hide Bag;
    Replaced(a, t, y);
    Replaced(b, p, y);
  }

  lemma LoadsPlaced(shards: seq<seq<string>>, t: nat, x: string, w: Weight)
    requires t < |shards|
    ensures Loads(shards[t := shards[t] + [x]], w) == Loads(shards, w)[t := Loads(shards, w)[t] + w(x)]
  {
    AppendLoad(shards[t], x, w);
    hide Load;
  }

  /** The first `k` files, placed. */
  function PackedUpTo(order: seq<string>, m: nat, w: Weight, k: nat): (shards: seq<seq<string>>)
    requires m >= 1 && k <= |order|
    ensures |shards| == m
  {
    Packed(order[..k], m, w)
  }

  lemma PlacedNext(order: seq<string>, m: nat, w: Weight, k: nat)
    requires m >= 1 && k < |order|
    ensures var before := PackedUpTo(order, m, w, k);
            var t := Lightest(Loads(before, w));
            && |Loads(before, w)| == m
            && Loads(PackedUpTo(order, m, w, k + 1), w) == Loads(before, w)[t := Loads(before, w)[t] + w(order[k])]
  {
    var more := order[..k + 1];
    assert more[..|more| - 1] == order[..k] && more[|more| - 1] == order[k];
    PackedLast(more, m, w);
    var before := PackedUpTo(order, m, w, k);
    LoadsPlaced(before, LightestShard(before, w), order[k], w);
    hide Packed, Loads, Lightest;
  }

  lemma StageStep(m: nat, k: nat, loads: seq<real>, x: real, next: seq<real>)
    requires k < 2 * m && loads != [] && Bag(loads) == Bag(Stage(m, k)) && x == Size(m, k) as real
    requires next == loads[Lightest(loads) := loads[Lightest(loads)] + x]
    ensures Bag(next) == Bag(Stage(m, k + 1))
  {
    var t, p := Lightest(loads), Place(m, k);
    PlaceIsLightest(m, k);
    assert Least(loads, t);
    LeastInAnyOrder(loads, Stage(m, k), t, p);
    NextStage(m, k, next[t]);
    assert next == loads[t := next[t]];
    hide *;
    ReplacedAlike(loads, Stage(m, k), t, p, next[t]);
  }

  /** The loads after `k` files, in no order. */
  ghost function LoadsAfter(order: seq<string>, m: nat, w: Weight, k: nat): multiset<real>
    requires m >= 1 && k <= |order|
  {
    Bag(Loads(PackedUpTo(order, m, w, k), w))
  }

  lemma NothingPlaced(order: seq<string>, m: nat, w: Weight)
    requires m >= 1
    ensures LoadsAfter(order, m, w, 0) == Bag(Stage(m, 0))
  {
    assert order[..0] == [];
    assert Loads(NoFiles(m), w) == Stage(m, 0);
  }

  lemma StageNext(order: seq<string>, m: nat, w: Weight, k: nat)
    requires m >= 1 && Sized(order, m, w) && k < 2 * m
    requires LoadsAfter(order, m, w, k) == Bag(Stage(m, k))
    ensures LoadsAfter(order, m, w, k + 1) == Bag(Stage(m, k + 1))
  {
    var loads := Loads(PackedUpTo(order, m, w, k), w);
    assert w(order[k]) == Size(m, k) as real;
    PlacedNext(order, m, w, k);
    hide PackedUpTo, Stage, Place, Loads, Size, Lightest, Bag, Sized;
    StageStep(m, k, loads, w(order[k]), Loads(PackedUpTo(order, m, w, k + 1), w));
  }

  /** After `k` files the loads are those of the stage. */
  lemma {:induction false} StageReached(order: seq<string>, m: nat, w: Weight, k: nat)
    requires m >= 1 && Sized(order, m, w) && k <= 2 * m
    ensures LoadsAfter(order, m, w, k) == Bag(Stage(m, k))
  {
    hide *;
    if k == 0 {
      NothingPlaced(order, m, w);
    } else {
      var n: nat := k - 1;
      StageReached(order, m, w, n);
      StageNext(order, m, w, n);
    }
  }

  lemma LoadsCount(shards: seq<seq<string>>, w: Weight)
    ensures |Loads(shards, w)| == |shards| && forall i :: 0 <= i < |shards| ==>
              Loads(shards, w)[i] == Load(shards[i], w)
  {
  }

  lemma AllFull(m: nat, loads: seq<real>, t: nat)
    requires m >= 1 && |loads| == m && Bag(loads) == Bag(Stage(m, 2 * m)) && t < m
    ensures loads[t] == (3 * m - 1) as real
  {
    assert loads[t] in multiset(Stage(m, 2 * m));
  }

  /** The last file goes on top of a full shard. */
  lemma LastOnTop(order: seq<string>, m: nat, w: Weight) returns (i: nat)
    requires m >= 1 && Sized(order, m, w)
    ensures i < m && Load(Packed(order, m, w)[i], w) == (4 * m - 1) as real
  {
    var k := 2 * m;
    assert w(order[k]) == Size(m, k) as real && Size(m, k) == m;
    assert order[..k + 1] == order;
    assert PackedUpTo(order, m, w, k + 1) == Packed(order, m, w);
    hide PackedUpTo, Stage, Loads, Size, Lightest, Packed, Load, Bag;
    StageReached(order, m, w, k);
    PlacedNext(order, m, w, k);
    LoadsCount(PackedUpTo(order, m, w, k), w);
    LoadsCount(Packed(order, m, w), w);
    var loads := Loads(PackedUpTo(order, m, w, k), w);
    i := Lightest(loads);
    AllFull(m, loads, i);
  }

  // ---------------------------------------------------------------------------------------------
  // A better split
  // ---------------------------------------------------------------------------------------------

  /** The `i`-th file with the `i`-th before `top`. */
  function Pairs(order: seq<string>, top: nat, n: nat): (shards: seq<seq<string>>)
    requires n <= top <= |order|
    ensures |shards| == n
  {
    seq(n, i requires 0 <= i < n => [order[i], order[top - 1 - i]])
  }

  /** The heaviest file with the lightest of those above weight `m`, and so on, and the three of weight `m`
      together. */
  function Better(order: seq<string>, m: nat): (shards: seq<seq<string>>)
    requires m >= 1 && |order| == 2 * m + 1
    ensures |shards| == m
  {
    Pairs(order, 2 * m - 2, m - 1) + [order[2 * m - 2..]]
  }

  /** The files before `i`, and those from `j` to `end`. */
  ghost function Ends(order: seq<string>, i: nat, j: nat, end: nat): multiset<string>
    requires i <= |order| && j <= end <= |order|
  {
    multiset(order[..i]) + multiset(order[j..end])
  }

  lemma {:induction false} PairsHold(order: seq<string>, top: nat, n: nat, j: nat)
    requires n + j == top <= |order|
    ensures multiset(Flatten(Pairs(order, top, n))) == Ends(order, n, j, top)
  {
    if n > 0 {
      hide Flatten, Pairs, Ends;
      PairsHold(order, top, n - 1, j + 1);
      PairsLast(order, top, n - 1, j);
      EndsNext(order, n - 1, j, top);
    } else {
      assert order[..0] == [] && order[top..top] == [];
    }
  }

  lemma PairsLast(order: seq<string>, top: nat, i: nat, j: nat)
    requires i + 1 + j == top <= |order|
    ensures Flatten(Pairs(order, top, i + 1)) == Flatten(Pairs(order, top, i)) + [order[i], order[j]]
  {
    assert Pairs(order, top, i + 1)[..i] == Pairs(order, top, i);
  }

  lemma EndsNext(order: seq<string>, i: nat, j: nat, end: nat)
    requires i < |order| && j < end <= |order|
    ensures Ends(order, i + 1, j, end) == Ends(order, i, j + 1, end) + multiset([order[i], order[j]])
  {
    HeadNext(order, i);
    MiddleNext(order, j, end);
  }

  lemma HeadNext(order: seq<string>, i: nat)
    requires i < |order|
    ensures multiset(order[..i + 1]) == multiset(order[..i]) + multiset{order[i]}
  {
    assert order[..i + 1] == order[..i] + [order[i]];
  }

  lemma MiddleNext(order: seq<string>, j: nat, end: nat)
    requires j < end <= |order|
    ensures multiset(order[j..end]) == multiset{order[j]} + multiset(order[j + 1..end])
  {
    assert order[j..end] == [order[j]] + order[j + 1..end];
  }

  lemma BetterDistributes(order: seq<string>, m: nat)
    requires m >= 1 && |order| == 2 * m + 1
    ensures Distributes(Better(order, m), order)
  {
    var n, top := m - 1, 2 * m - 2;
    assert Better(order, m) == Pairs(order, top, n) + [order[top..]];
    hide Better;
    FlatOneMore(Pairs(order, top, n), order[top..]);
    PairsHold(order, top, n, n);
    EndsMeet(order, n, top);
    hide Flatten, Pairs, Ends;
  }

  lemma FlatOneMore(shards: seq<seq<string>>, shard: seq<string>)
    ensures Flatten(shards + [shard]) == Flatten(shards) + shard
  {
    assert (shards + [shard])[..|shards|] == shards;
  }

  lemma EndsMeet(order: seq<string>, i: nat, end: nat)
    requires i <= end <= |order|
    ensures Ends(order, i, i, end) + multiset(order[end..]) == multiset(order)
  {
    assert order == order[..i] + order[i..end] + order[end..];
  }

  lemma BetterIsEven(order: seq<string>, m: nat, w: Weight)
    requires m >= 1 && Sized(order, m, w)
    ensures Within(Better(order, m), w, (3 * m) as real)
  {
    forall i | 0 <= i < m ensures Load(Better(order, m)[i], w) <= (3 * m) as real {
      hide Load, Better;
      if i < m - 1 {
        PairIsEven(order, m, w, i);
      } else {
        RestIsEven(order, m, w);
      }
    }
  }

  lemma PairIsEven(order: seq<string>, m: nat, w: Weight, i: nat)
    requires m >= 1 && Sized(order, m, w) && i < m - 1
    ensures Load(Better(order, m)[i], w) == (3 * m) as real
  {
    var j := 2 * m - 3 - i;
    assert Better(order, m)[i] == [order[i], order[j]];
    SmallLoads([order[i], order[j]], w);
    PairsAddUp(m, i, j);
  }

  lemma RestIsEven(order: seq<string>, m: nat, w: Weight)
    requires m >= 1 && Sized(order, m, w)
    ensures Load(Better(order, m)[m - 1], w) == (3 * m) as real
  {
    var rest := order[2 * m - 2..];
    assert Better(order, m)[m - 1] == rest;
    SmallLoads(rest, w);
    assert w(rest[0]) == w(rest[1]) == w(rest[2]) == m as real;
  }

  // ---------------------------------------------------------------------------------------------
  // The bound is attained
  // ---------------------------------------------------------------------------------------------

  lemma SizedIsHeaviestFirst(order: seq<string>, m: nat, w: Weight)
    requires m >= 1 && Sized(order, m, w)
    ensures HeaviestFirst(order, w)
  {
    forall i, j | 0 <= i < j < |order| ensures w(order[i]) >= w(order[j]) {
      SizesDescend(m, i, j);
    }
  }

  /** `m` copies of the letter `a`: a name for each place, in the order of the names. */
  function Name(j: nat): (r: string)
    ensures |r| == j
  {
    seq(j, _ => 'a')
  }

  lemma {:induction false} NamesInOrder(i: nat, j: nat)
    ensures Less(Name(i), Name(j)) <==> i < j
  {
    if i > 0 && j > 0 {
      NamesInOrder(i - 1, j - 1);
      assert Name(i)[1..] == Name(i - 1) && Name(j)[1..] == Name(j - 1);
    }
  }

  function Files(m: nat): (files: seq<string>)
    ensures |files| == 2 * m + 1
  {
    seq(2 * m + 1, j requires 0 <= j < 2 * m + 1 => Name(j))
  }

  function Timed(m: nat): Durations {
    map f | f in Files(m) :: Size(m, |f|) as real
  }

  lemma FilesAreSized(m: nat)
    requires m >= 1
    ensures Sized(Files(m), m, Weights(Files(m), Timed(m)))
  {
    var files := Files(m);
    forall j | 0 <= j < |files| ensures files[j] in Timed(m) && Timed(m)[files[j]] == Size(m, j) as real {
      assert files[j] in files && |files[j]| == j;
    }
    hide Fallback, Timed, Size;
  }

  /** They are listed heaviest first already. */
  lemma FilesAreSorted(m: nat, w: Weight)
    requires m >= 1 && Sized(Files(m), m, w)
    ensures ByWeight(w, Files(m)) == Files(m)
  {
    var files := Files(m);
    SizedIsHeaviestFirst(files, m, w);
    forall i, j | 0 <= i < j < |files| ensures !SuiteShards.Before(w, files[j], files[i]) {
      NamesInOrder(j, i);
    }
    ByWeightInOrder(w, files);
    hide Files, Sized, HeaviestFirst, ByWeight;
    OrderIsUnique(w, ByWeight(w, files), files);
  }

  lemma BoundIsMet(m: nat)
    ensures 3.0 * m as real * (4 * m - 1) as real == (4.0 * m as real - 1.0) * (3 * m) as real
  {
  }

  /** The factor 4/3 - 1/(3m) is attained for every `m`: the plan for these files has a shard of 4m - 1, and
      another split has none above 3m. */
  lemma FourThirdsIsTight(m: nat) returns (i: nat)
    requires m >= 1
    ensures i < m
    ensures var w := Weights(Files(m), Timed(m));
            && Load(Planned(Files(m), m, Timed(m))[i], w) == (4 * m - 1) as real
            && |Better(Files(m), m)| == m && Distributes(Better(Files(m), m), Files(m))
            && Within(Better(Files(m), m), w, (3 * m) as real)
    ensures 3.0 * m as real * (4 * m - 1) as real == (4.0 * m as real - 1.0) * (3 * m) as real
  {
    var files, w := Files(m), Weights(Files(m), Timed(m));
    FilesAreSized(m);
    FilesAreSorted(m, w);
    i := LastOnTop(files, m, w);
    var shard := Packed(files, m, w)[i];
    LoadOfPermutation(Sorted(shard), shard, w);
    BetterDistributes(files, m);
    BetterIsEven(files, m, w);
    BoundIsMet(m);
    hide Weights, Packed, Better, Sized, ByWeight, Within, Distributes;
  }

  /** And no split of them does better than 3m. */
  lemma NoSplitIsBetter(m: nat, other: seq<seq<string>>, limit: real)
    requires m >= 1 && |other| == m && Distributes(other, Files(m))
    requires Within(other, Weights(Files(m), Timed(m)), limit)
    ensures limit >= (3 * m) as real
  {
    var i := FourThirdsIsTight(m);
    forall f | f in Timed(m) ensures Timed(m)[f] >= 0.0 {
      var j :| 0 <= j < 2 * m + 1 && f == Files(m)[j];
      SizesDescend(m, 0, j);
    }
    PlanIsNearBest(Files(m), m, Timed(m), other, limit, i);
    hide Planned, Weights, Timed, Within, Distributes, Load;
    Divides(m, limit);
  }

  lemma Divides(m: nat, limit: real)
    requires m >= 1 && 3.0 * m as real * (4 * m - 1) as real <= (4.0 * m as real - 1.0) * limit
    ensures limit >= (3 * m) as real
  {
    BoundIsMet(m);
    Cancels(4.0 * m as real - 1.0, (3 * m) as real, limit);
  }

  lemma Cancels(r: real, a: real, b: real)
    requires r > 0.0 && r * a <= r * b
    ensures a <= b
  {
  }
}
