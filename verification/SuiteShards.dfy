/** Splitting the test suite into CI shards and proving the split: `ci/suite_shards.py`. */
module SuiteShards {
  import opened Graphs
  import opened Text
  import opened Packing
  import opened ShardWeights

  // ---------------------------------------------------------------------------------------------
  // Heaviest first, ties by name
  // ---------------------------------------------------------------------------------------------

  /** `a` sorts strictly before `b` under the key `(-weight, name)`. */
  predicate Before(w: Weight, a: string, b: string) {
    w(a) > w(b) || (w(a) == w(b) && Less(a, b))
  }

  function InsertByWeight(w: Weight, x: string, s: seq<string>): (r: seq<string>)
    ensures multiset(r) == multiset(s) + multiset{x}
    ensures |r| == |s| + 1
  {
    if s == [] then [x]
    else if !Before(w, s[0], x) then [x] + s
    else
      assert s == [s[0]] + s[1..];
      [s[0]] + InsertByWeight(w, x, s[1..])
  }

  /** `sorted(files, key=lambda f: (-weights[f], f))` */
  function ByWeight(w: Weight, files: seq<string>): (r: seq<string>)
    ensures multiset(r) == multiset(files)
    ensures |r| == |files|
  {
    if files == [] then []
    else
      assert files == [files[0]] + files[1..];
      InsertByWeight(w, files[0], ByWeight(w, files[1..]))
  }

  ghost predicate InOrder(w: Weight, s: seq<string>) {
    forall i, j :: 0 <= i < j < |s| ==> !Before(w, s[j], s[i])
  }

  lemma BeforeTransitive(w: Weight, a: string, b: string, c: string)
    requires Before(w, a, b) && Before(w, b, c)
    ensures Before(w, a, c)
  {
    if Less(a, b) && Less(b, c) { LessTransitive(a, b, c); }
  }

  lemma BeforeTotal(w: Weight, a: string, b: string)
    ensures a == b || Before(w, a, b) || Before(w, b, a)
  {
    LessTotal(a, b);
  }

  lemma BeforeIrreflexive(w: Weight, a: string)
    ensures !Before(w, a, a)
  {
    LessIrreflexive(a);
  }

  lemma {:induction false} InsertInOrder(w: Weight, x: string, s: seq<string>)
    requires InOrder(w, s)
    ensures InOrder(w, InsertByWeight(w, x, s))
    decreases |s|
  {
    if s != [] && !Before(w, s[0], x) {
      var r := [x] + s;
      forall i, j | 0 <= i < j < |r| ensures !Before(w, r[j], r[i]) {
        if i == 0 && j > 1 {
          assert !Before(w, s[j - 1], s[0]);
          BeforeTotal(w, s[0], s[j - 1]);
          if s[0] != s[j - 1] && Before(w, s[j - 1], x) { BeforeTransitive(w, s[0], s[j - 1], x); }
        }
      }
    } else if s != [] {
      InsertInOrder(w, x, s[1..]);
      var t := InsertByWeight(w, x, s[1..]);
      var r := [s[0]] + t;
      forall i, j | 0 <= i < j < |r| ensures !Before(w, r[j], r[i]) {
        if i == 0 {
          assert t[j - 1] in multiset(t);
          assert t[j - 1] == x || t[j - 1] in s[1..];
          if t[j - 1] == x && Before(w, x, s[0]) {
            BeforeTransitive(w, x, s[0], x);
            BeforeIrreflexive(w, x);
          }
        }
      }
    }
  }

  lemma {:induction false} ByWeightInOrder(w: Weight, files: seq<string>)
    ensures InOrder(w, ByWeight(w, files))
    ensures HeaviestFirst(ByWeight(w, files), w)
    decreases |files|
  {
    if files != [] {
      ByWeightInOrder(w, files[1..]);
      InsertInOrder(w, files[0], ByWeight(w, files[1..]));
    }
    var s := ByWeight(w, files);
    forall i, j | 0 <= i < j < |s| ensures w(s[i]) >= w(s[j]) {
      assert !Before(w, s[j], s[i]);
    }
  }

  /** There is only one way to put a given collection in order. */
  lemma {:induction false} OrderIsUnique(w: Weight, s: seq<string>, t: seq<string>)
    requires InOrder(w, s) && InOrder(w, t) && multiset(s) == multiset(t)
    ensures s == t
    decreases |s|
  {
    PermutationKeeps(s, t);
    if s != [] {
      FirstIsUnique(w, s, t);
      TailsOfPermutation(s, t);
      TailInOrder(w, s);
      TailInOrder(w, t);
      OrderIsUnique(w, s[1..], t[1..]);
      assert s == [s[0]] + s[1..] && t == [t[0]] + t[1..];
    }
  }

  lemma TailInOrder(w: Weight, s: seq<string>)
    requires InOrder(w, s) && s != []
    ensures InOrder(w, s[1..])
  {
    forall i, j | 0 <= i < j < |s[1..]| ensures !Before(w, s[1..][j], s[1..][i]) {
      assert !Before(w, s[j + 1], s[i + 1]);
    }
  }

  lemma FirstIsUnique(w: Weight, s: seq<string>, t: seq<string>)
    requires InOrder(w, s) && InOrder(w, t) && multiset(s) == multiset(t) && s != [] && t != []
    ensures s[0] == t[0]
  {
    assert s[0] in multiset(t) && t[0] in multiset(s);
    var i :| 0 <= i < |t| && t[i] == s[0];
    var j :| 0 <= j < |s| && s[j] == t[0];
    BeforeTotal(w, s[0], t[0]);
    if i > 0 { assert !Before(w, t[i], t[0]); } else { BeforeIrreflexive(w, t[0]); }
    if j > 0 { assert !Before(w, s[j], s[0]); } else { BeforeIrreflexive(w, s[0]); }
  }

  // ---------------------------------------------------------------------------------------------
  // The plan
  // ---------------------------------------------------------------------------------------------

  function SortedShards(shards: seq<seq<string>>): (r: seq<seq<string>>)
    ensures |r| == |shards|
    ensures forall i :: 0 <= i < |shards| ==> r[i] == Sorted(shards[i])
  {
    seq(|shards|, i requires 0 <= i < |shards| => Sorted(shards[i]))
  }

  /** What `plan` computes before it checks it. */
  function Planned(files: seq<string>, total: nat, durations: Durations): (shards: seq<seq<string>>)
    requires total >= 1
    ensures |shards| == total
  {
    var w := Weights(files, durations);
    SortedShards(Packed(ByWeight(w, files), total, w))
  }

  /** Every CI runner computes the same plan: it depends on the collection of files, not on the order
      they were discovered in. */
  lemma PlanIgnoresListing(a: seq<string>, b: seq<string>, total: nat, durations: Durations)
    requires multiset(a) == multiset(b) && total >= 1
    ensures Planned(a, total, durations) == Planned(b, total, durations)
  {
    KnownOfPermutation(a, b, durations);
    var ka, kb := SortedReals(Known(a, durations)), SortedReals(Known(b, durations));
    SortedIncreasing(Known(a, durations));
    SortedIncreasing(Known(b, durations));
    IncreasingIsUnique(ka, kb);
    var wa, wb := Weights(a, durations), Weights(b, durations);
    ByWeightInOrder(wa, a);
    ByWeightInOrder(wb, b);
    SameWeightsSameOrder(wa, wb, ByWeight(wb, b));
    OrderIsUnique(wa, ByWeight(wa, a), ByWeight(wb, b));
    SameWeightsSamePacking(wa, wb, ByWeight(wa, a), total);
  }

  lemma SameWeightsSameOrder(w: Weight, v: Weight, s: seq<string>)
    requires forall f :: w(f) == v(f)
    requires InOrder(v, s)
    ensures InOrder(w, s)
  {
    forall i, j | 0 <= i < j < |s| ensures !Before(w, s[j], s[i]) {
      assert !Before(v, s[j], s[i]);
    }
  }

  lemma {:induction false} SameWeightsSameLoad(w: Weight, v: Weight, s: seq<string>)
    requires forall f :: w(f) == v(f)
    ensures Load(s, w) == Load(s, v)
    decreases |s|
  {
    if s != [] { SameWeightsSameLoad(w, v, s[..|s| - 1]); }
  }

  lemma {:induction false} SameWeightsSamePacking(w: Weight, v: Weight, order: seq<string>, total: nat)
    requires forall f :: w(f) == v(f)
    requires total >= 1
    ensures Packed(order, total, w) == Packed(order, total, v)
    decreases |order|
  {
    if order != [] {
      var n := |order| - 1;
      SameWeightsSamePacking(w, v, order[..n], total);
      var before := Packed(order[..n], total, w);
      forall i | 0 <= i < total ensures Loads(before, w)[i] == Loads(before, v)[i] {
        SameWeightsSameLoad(w, v, before[i]);
      }
      assert Loads(before, w) == Loads(before, v);
    }
  }

  /** How good the plan is, against every other way to split the same files into `total` shards. */
  lemma PlanIsNearBest(files: seq<string>, total: nat, durations: Durations, other: seq<seq<string>>, limit: real,
                       i: nat)
    requires total >= 1 && i < total
    requires forall f :: f in durations ==> durations[f] >= 0.0
    requires |other| == total && Distributes(other, files) && Within(other, Weights(files, durations), limit)
    ensures FourThirds(total, Load(Planned(files, total, durations)[i], Weights(files, durations)), limit)
    ensures forall x :: x in Planned(files, total, durations)[i] ==>
              BesideFile(total, Load(Planned(files, total, durations)[i], Weights(files, durations)),
                         Load(files, Weights(files, durations)), Weights(files, durations)(x))
  {
    hide FourThirds, BesideFile, Within;
    var w := Weights(files, durations);
    var order := ByWeight(w, files);
    WeightsNonNegative(files, durations);
    ByWeightInOrder(w, files);
    WithinFourThirds(order, |order|, total, w, other, limit);
    assert order[..|order|] == order;
    var shard := Packed(order, total, w)[i];
    LoadOfPermutation(Sorted(shard), shard, w);
    LoadOfPermutation(order, files, w);
    forall x | x in Sorted(shard)
      ensures BesideFile(total, Load(Sorted(shard), w), Load(files, w), w(x))
    {
      PermutationKeeps(Sorted(shard), shard);
      LoadBesideItsFiles(order, total, w, i, x);
    }
  }

  // ---------------------------------------------------------------------------------------------
  // Checking a split
  // ---------------------------------------------------------------------------------------------

  /** How often a name is assigned, over all shards. */
  ghost function Assignments(shards: seq<seq<string>>, name: string): nat {
    multiset(Flatten(shards))[name]
  }

  /** Every file in exactly one shard, no shard empty, nothing else assigned. */
  ghost predicate ValidSplit(files: seq<string>, shards: seq<seq<string>>) {
    && (forall f :: f in files ==> Assignments(shards, f) == 1)
    && (forall f :: Assignments(shards, f) > 0 ==> f in files)
    && NoneEmpty(shards)
  }

  datatype SplitProblems = SplitProblems(missing: set<string>, doubled: set<string>, unknown: set<string>,
                                         empty: set<nat>)

  /** The files without a shard, those with several, the assigned ones nobody knows, and the empty shards. */
  ghost predicate ProblemsAre(files: seq<string>, shards: seq<seq<string>>, problems: SplitProblems) {
    && (forall f :: f in problems.missing <==> f in files && Assignments(shards, f) == 0)
    && (forall f :: f in problems.doubled <==> Assignments(shards, f) > 1)
    && (forall f :: f in problems.unknown <==> f !in files && Assignments(shards, f) > 0)
    && (forall i :: i in problems.empty <==> 1 <= i <= |shards| && shards[i - 1] == [])
  }

  ghost predicate OwnersCounted(owners: map<string, seq<nat>>, flat: seq<string>) {
    forall f :: (f in owners <==> f in flat) && (f in owners ==> |owners[f]| == multiset(flat)[f])
  }

  lemma OwnersOneMore(owners: map<string, seq<nat>>, flat: seq<string>, f: string, index: nat)
    requires OwnersCounted(owners, flat)
    ensures OwnersCounted(owners[f := (if f in owners then owners[f] else []) + [index]], flat + [f])
  {
    forall g ensures g in flat + [f] <==> g in flat || g == f {}
    assert multiset(flat)[f] == 0 <==> f !in flat;
  }

  /** The inner loop: note every file of one shard. */
  method AddOwners(owners0: map<string, seq<nat>>, shard: seq<string>, index: nat, ghost flat: seq<string>)
    returns (owners: map<string, seq<nat>>)
    requires OwnersCounted(owners0, flat)
    ensures OwnersCounted(owners, flat + shard)
  {
    hide OwnersCounted;
    owners := owners0;
    assert flat + shard[..0] == flat;
    for k := 0 to |shard|
      invariant OwnersCounted(owners, flat + shard[..k])
    {
      OwnersOneMore(owners, flat + shard[..k], shard[k], index);
      assert flat + shard[..k] + [shard[k]] == flat + shard[..k + 1];
      owners := owners[shard[k] := (if shard[k] in owners then owners[shard[k]] else []) + [index]];
    }
    assert flat + shard[..|shard|] == flat + shard;
  }

  method VerifyPartition(files: seq<string>, shards: seq<seq<string>>) returns (problems: SplitProblems)
    ensures ProblemsAre(files, shards, problems)
    ensures problems == SplitProblems({}, {}, {}, {}) <==> ValidSplit(files, shards)
  {
    var owners: map<string, seq<nat>> := map[];
    var empty: set<nat> := {};
    assert Flatten(shards[..0]) == [];
    assert OwnersCounted(owners, []);
    hide OwnersCounted;
    for index := 0 to |shards|
      invariant OwnersCounted(owners, Flatten(shards[..index]))
      invariant forall i :: i in empty <==> 1 <= i <= index && shards[i - 1] == []
    {
      assert shards[..index + 1][..index] == shards[..index];
      owners := AddOwners(owners, shards[index], index + 1, Flatten(shards[..index]));
      if shards[index] == [] {
        empty := empty + {index + 1};
      }
    }
    assert shards[..|shards|] == shards;
    problems := Problems(files, owners, empty, shards);
    hide Assignments;
    ProblemsIff(files, shards, problems);
  }

  function Problems(files: seq<string>, owners: map<string, seq<nat>>, empty: set<nat>,
                    ghost shards: seq<seq<string>>): (problems: SplitProblems)
    requires OwnersCounted(owners, Flatten(shards))
    ensures forall f :: f in problems.missing <==> f in files && Assignments(shards, f) == 0
    ensures forall f :: f in problems.doubled <==> Assignments(shards, f) > 1
    ensures forall f :: f in problems.unknown <==> f !in files && Assignments(shards, f) > 0
    ensures problems.empty == empty
  {
    var missing := set f | f in files && f !in owners;
    var doubled := set f | f in owners && |owners[f]| > 1;
    var unknown := set f | f in owners && f !in files;
    SplitProblems(missing, doubled, unknown, empty)
  }

  lemma ProblemsIff(files: seq<string>, shards: seq<seq<string>>, problems: SplitProblems)
    requires ProblemsAre(files, shards, problems)
    ensures problems == SplitProblems({}, {}, {}, {}) <==> ValidSplit(files, shards)
  {
    if problems == SplitProblems({}, {}, {}, {}) {
      forall i | 0 <= i < |shards| ensures shards[i] != [] {
        assert i + 1 !in problems.empty;
      }
      forall f | f in files ensures Assignments(shards, f) == 1 {
        assert f !in problems.missing && f !in problems.doubled;
      }
      forall f | Assignments(shards, f) > 0 ensures f in files {
        assert f !in problems.unknown;
      }
    }
    if ValidSplit(files, shards) {
      assert problems.missing == {};
      assert problems.doubled == {};
      assert problems.unknown == {};
      assert problems.empty == {};
    }
  }

  lemma PlaceOne(order: seq<string>, k: nat, total: nat, w: Weight, shards: seq<seq<string>>, loads: seq<real>,
                 target: nat)
    requires k < |order| && total >= 1 && shards == Packed(order[..k], total, w) && loads == Loads(shards, w)
    requires |loads| > 0 && target == Lightest(loads)
    ensures target < |shards| == |loads|
    ensures shards[target := shards[target] + [order[k]]] == Packed(order[..k + 1], total, w)
    ensures loads[target := loads[target] + w(order[k])] == Loads(shards[target := shards[target] + [order[k]]], w)
  {
    assert order[..k + 1][..k] == order[..k];
    AppendLoad(shards[target], order[k], w);
  }

  /** The packing loop of `plan`: the list of loads and the list of shards are updated one file at a
      time. */
  method Pack(order: seq<string>, total: nat, w: Weight) returns (shards: seq<seq<string>>)
    requires total >= 1
    ensures shards == Packed(order, total, w)
  {
    var loads := seq(total, _ => 0.0);
    shards := NoFiles(total);
    PackStart(order, total, w, shards, loads);
    hide Packed, Loads, Lightest, Load, LightestShard;
    for k := 0 to |order|
      invariant shards == Packed(order[..k], total, w)
      invariant |loads| == total && loads == Loads(shards, w)
    {
      var target := Lightest(loads);
      PlaceOne(order, k, total, w, shards, loads, target);
      shards := shards[target := shards[target] + [order[k]]];
      loads := loads[target := loads[target] + w(order[k])];
    }
    assert order[..|order|] == order;
  }

  lemma PackStart(order: seq<string>, total: nat, w: Weight, shards: seq<seq<string>>, loads: seq<real>)
    requires total >= 1 && |shards| == |loads| == total
    requires forall i :: 0 <= i < total ==> shards[i] == [] && loads[i] == 0.0
    ensures shards == Packed(order[..0], total, w)
    ensures loads == Loads(shards, w)
  {
    assert order[..0] == [];
  }

  lemma {:induction false} FlattenSorted(shards: seq<seq<string>>)
    ensures multiset(Flatten(SortedShards(shards))) == multiset(Flatten(shards))
    decreases |shards|
  {
    if shards != [] {
      var n := |shards| - 1;
      assert SortedShards(shards)[..n] == SortedShards(shards[..n]);
      FlattenSorted(shards[..n]);
    }
  }

  /** For a suite of distinct files the plan passes its own check exactly when there are at least as
      many files as shards and at least `total - 1` of them have a positive weight. Zero weights can
      leave a shard empty. */
  lemma PlanPassesIff(files: seq<string>, total: nat, durations: Durations)
    requires total >= 1 && Distinct(files)
    requires forall f :: f in durations ==> durations[f] >= 0.0
    ensures var w := Weights(files, durations);
            ValidSplit(files, Planned(files, total, durations)) <==>
            |files| >= total && (total >= 2 ==> w(ByWeight(w, files)[total - 2]) > 0.0)
  {
    var w := Weights(files, durations);
    var order := ByWeight(w, files);
    var shards := Packed(order, total, w);
    WeightsNonNegative(files, durations);
    ByWeightInOrder(w, files);
    PackedDistributes(order, total, w);
    FlattenSorted(shards);
    NoShardEmptyIff(order, total, w);
    hide Packed, Weights, ByWeight, HeaviestFirst, NonNegative, InOrder;
    DistinctSplitIsValidIff(files, SortedShards(shards));
    SortedKeepsNoneEmpty(shards);
  }

  lemma DistinctSplitIsValidIff(files: seq<string>, shards: seq<seq<string>>)
    requires Distinct(files) && Distributes(shards, files)
    ensures ValidSplit(files, shards) <==> NoneEmpty(shards)
  {
    forall f ensures Assignments(shards, f) == if f in files then 1 else 0 {
      CountDistinct(files, f);
      assert f in files <==> f in multiset(files);
    }
  }

  lemma SortedKeepsNoneEmpty(shards: seq<seq<string>>)
    ensures NoneEmpty(SortedShards(shards)) <==> NoneEmpty(shards)
  {
    if NoneEmpty(SortedShards(shards)) {
      forall i | 0 <= i < |shards| ensures shards[i] != [] {
        assert SortedShards(shards)[i] != [];
      }
    }
  }

  // ---------------------------------------------------------------------------------------------
  // `plan`
  // ---------------------------------------------------------------------------------------------

  /** The shards are the heaviest-first packing of the files, a file without a recorded duration weighing
      the median of the recorded ones. */
  ghost predicate IsPlan(files: seq<string>, total: nat, durations: Durations, shards: seq<seq<string>>)
    requires total >= 1
  {
    exists w :: Weighs(files, durations, w) && shards == SortedShards(Packed(ByWeight(w, files), total, w))
  }

  lemma PlannedIsPlan(files: seq<string>, total: nat, durations: Durations)
    requires total >= 1
    ensures IsPlan(files, total, durations, Planned(files, total, durations))
  {
    WeightsWeigh(files, durations);
    hide Weighs, Weights, Packed, ByWeight, SortedShards;
  }

  /** There is one such plan. */
  lemma PlanIsUnique(files: seq<string>, total: nat, durations: Durations, a: seq<seq<string>>, b: seq<seq<string>>)
    requires total >= 1 && IsPlan(files, total, durations, a) && IsPlan(files, total, durations, b)
    ensures a == b
  {
    var w :| Weighs(files, durations, w) && a == SortedShards(Packed(ByWeight(w, files), total, w));
    var v :| Weighs(files, durations, v) && b == SortedShards(Packed(ByWeight(v, files), total, v));
    WeighedAlike(files, durations, w, v);
    hide Weighs, Packed, SortedShards;
    ByWeightInOrder(w, files);
    ByWeightInOrder(v, files);
    SameWeightsSameOrder(w, v, ByWeight(v, files));
    OrderIsUnique(w, ByWeight(w, files), ByWeight(v, files));
    SameWeightsSamePacking(w, v, ByWeight(w, files), total);
  }

  /** No file has a recorded duration. */
  ghost predicate NoneRecorded(files: seq<string>, durations: Durations) {
    forall f :: f in files ==> f !in durations
  }

  ghost predicate EvenSizes(shards: seq<seq<string>>) {
    forall i, j :: 0 <= i < |shards| && 0 <= j < |shards| ==> |shards[i]| <= |shards[j]| + 1
  }

  lemma UnrecordedWeighOne(files: seq<string>, durations: Durations)
    requires NoneRecorded(files, durations)
    ensures forall f :: f in files ==> Weights(files, durations)(f) == 1.0
  {
    WeightsWeigh(files, durations);
    assert Places(files, f => f in durations) == {};
    forall f | f in files ensures Weights(files, durations)(f) == 1.0 {
      assert IsMedian(files, durations, Weights(files, durations)(f));
    }
  }

  /** The loads are the numbers of files, and differ by at most one. */
  ghost predicate Unit(shards: seq<seq<string>>, w: Weight) {
    EvenSizes(shards) && forall i :: 0 <= i < |shards| ==> Load(shards[i], w) == |shards[i]| as real
  }

  lemma UnitStep(shards: seq<seq<string>>, w: Weight, x: string)
    requires shards != [] && Unit(shards, w) && w(x) == 1.0
    ensures var t := LightestShard(shards, w); Unit(shards[t := shards[t] + [x]], w)
  {
    var t := LightestShard(shards, w);
    AppendLoad(shards[t], x, w);
    hide Load, Lightest;
    forall i | 0 <= i < |shards| ensures |shards[t]| <= |shards[i]| {
      assert Loads(shards, w)[t] <= Loads(shards, w)[i];
    }
  }

  lemma {:induction false} UnitPacking(order: seq<string>, total: nat, w: Weight)
    requires total >= 1 && forall f :: f in order ==> w(f) == 1.0
    ensures Unit(Packed(order, total, w), w)
    decreases |order|
  {
    if order != [] {
      hide Unit, LightestShard;
      var n := |order| - 1;
      UnitPacking(order[..n], total, w);
      UnitStep(Packed(order[..n], total, w), w, order[n]);
      PackedLast(order, total, w);
      hide Packed;
    }
  }

  lemma {:induction false} FewWhenOneEach(shards: seq<seq<string>>)
    requires forall i :: 0 <= i < |shards| ==> |shards[i]| <= 1
    ensures |Flatten(shards)| <= |shards|
    ensures (exists i :: 0 <= i < |shards| && shards[i] == []) ==> |Flatten(shards)| < |shards|
    decreases |shards|
  {
    if shards != [] {
      var n := |shards| - 1;
      FewWhenOneEach(shards[..n]);
      assert forall i :: 0 <= i < n ==> shards[..n][i] == shards[i];
    }
  }

  /** With no recorded duration at all, every shard gets a file exactly when there are enough of them, and
      the shards differ in size by at most one. */
  lemma UnrecordedPlan(files: seq<string>, total: nat, durations: Durations)
    requires total >= 1 && NoneRecorded(files, durations)
    ensures EvenSizes(Planned(files, total, durations))
    ensures NoneEmpty(Planned(files, total, durations)) <==> |files| >= total
  {
    var w := Weights(files, durations);
    var order := ByWeight(w, files);
    UnrecordedWeighOne(files, durations);
    PermutationKeeps(order, files);
    var shards := Packed(order, total, w);
    PackedDistributes(order, total, w);
    PermutationKeeps(Flatten(shards), order);
    hide Packed, Weights, ByWeight, NoneRecorded, Flatten, Sorted;
    UnitPacking(order, total, w);
    SortedKeepsNoneEmpty(shards);
    EvenFill(shards, w);
  }

  lemma EvenFill(shards: seq<seq<string>>, w: Weight)
    requires Unit(shards, w)
    ensures EvenSizes(shards) && (NoneEmpty(shards) <==> |Flatten(shards)| >= |shards|)
  {
    hide Flatten, Load;
    if NoneEmpty(shards) {
      FullShardsNeedFiles(shards);
    } else {
      var e :| 0 <= e < |shards| && shards[e] == [];
      forall i | 0 <= i < |shards| ensures |shards[i]| <= 1 {
        assert |shards[i]| <= |shards[e]| + 1;
      }
      FewWhenOneEach(shards);
    }
  }

  lemma UnrecordedPlanPasses(files: seq<string>, total: nat, durations: Durations)
    requires total >= 1 && NoneRecorded(files, durations) && Distinct(files)
    ensures ValidSplit(files, Planned(files, total, durations)) <==> |files| >= total
  {
    var w := Weights(files, durations);
    UnrecordedPlan(files, total, durations);
    PackedDistributes(ByWeight(w, files), total, w);
    FlattenSorted(Packed(ByWeight(w, files), total, w));
    hide Packed, Weights, ByWeight;
    DistinctSplitIsValidIff(files, Planned(files, total, durations));
  }

  datatype PlanResult = BadTotal | Refused(problems: SplitProblems) | Plan(shards: seq<seq<string>>)

  /** `plan`. */
  method MakePlan(files: seq<string>, total: int, durations: Durations) returns (r: PlanResult)
    ensures r.BadTotal? <==> total < 1
    ensures total >= 1 ==> (r.Plan? <==> ValidSplit(files, Planned(files, total, durations)))
    ensures r.Plan? ==> r.shards == Planned(files, total, durations)
    ensures r.Plan? ==> IsPlan(files, total, durations, r.shards)
    ensures total >= 1 && NoneRecorded(files, durations) && Distinct(files) ==> (r.Plan? <==> |files| >= total)
    ensures r.Plan? && NoneRecorded(files, durations) ==> EvenSizes(r.shards)
    ensures r.Plan? ==> forall i :: 0 <= i < |r.shards| ==> Ascending(r.shards[i])
    ensures r.Refused? ==> ProblemsAre(files, Planned(files, total, durations), r.problems)
  {
    if total < 1 {
      return BadTotal;
    }
    var w := Weights(files, durations);
    var order := ByWeight(w, files);
    var shards := Pack(order, total, w);
    var result := SortedShards(shards);
    var problems := VerifyPartition(files, result);
    PlannedIsPlan(files, total, durations);
    if NoneRecorded(files, durations) {
      UnrecordedPlan(files, total, durations);
      if Distinct(files) {
        UnrecordedPlanPasses(files, total, durations);
      }
    }
    forall i | 0 <= i < |result| ensures Ascending(result[i]) {
      SortedAscending(shards[i]);
    }
    r := if problems == SplitProblems({}, {}, {}, {}) then Plan(result) else Refused(problems);
  }
}
