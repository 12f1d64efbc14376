/** Longest-processing-time packing, as `plan` of `ci/suite_shards.py` does it, and how far it can be
    from the best split. Durations are real numbers: float rounding is not modelled. */
module Packing {
  import opened Text

  type Weight = string -> real

  ghost predicate NonNegative(w: Weight) {
    forall x :: w(x) >= 0.0
  }

  /** The load of one shard. */
  function Load(shard: seq<string>, w: Weight): real {
    if shard == [] then 0.0 else Load(shard[..|shard| - 1], w) + w(shard[|shard| - 1])
  }

  function TotalLoad(shards: seq<seq<string>>, w: Weight): real {
    if shards == [] then 0.0 else TotalLoad(shards[..|shards| - 1], w) + Load(shards[|shards| - 1], w)
  }

  function Flatten(shards: seq<seq<string>>): seq<string> {
    if shards == [] then [] else Flatten(shards[..|shards| - 1]) + shards[|shards| - 1]
  }

  /** `shards` distributes exactly the entries of `files`. */
  ghost predicate Distributes(shards: seq<seq<string>>, files: seq<string>) {
    multiset(Flatten(shards)) == multiset(files)
  }

  lemma {:induction false} LoadAppend(a: seq<string>, b: seq<string>, w: Weight)
    ensures Load(a + b, w) == Load(a, w) + Load(b, w)
    decreases |b|
  {
    if b == [] {
      assert a + b == a;
    } else {
      var n := |b| - 1;
      assert (a + b)[..|a + b| - 1] == a + b[..n];
      LoadAppend(a, b[..n], w);
    }
  }

  lemma LoadWithout(b: seq<string>, k: nat, w: Weight)
    requires k < |b|
    ensures Load(b, w) == Load(b[..k] + b[k + 1..], w) + w(b[k])
  {
    LoadAppend(b[..k], b[k + 1..], w);
    LoadAppend(b[..k], b[k..], w);
    LoadAppend([b[k]], b[k + 1..], w);
    AppendLoad([], b[k], w);
    assert b == b[..k] + b[k..] && b[k..] == [b[k]] + b[k + 1..] && [] + [b[k]] == [b[k]];
  }

  lemma {:induction false} LoadOfPermutation(a: seq<string>, b: seq<string>, w: Weight)
    requires multiset(a) == multiset(b)
    ensures Load(a, w) == Load(b, w)
    decreases |a|
  {
    hide Load;
    PermutationKeeps(a, b);
    if a == [] {
      assert b == [];
    } else {
      var k := FirstInPermutation(a, b);
      LoadOfPermutation(a[1..], b[..k] + b[k + 1..], w);
      LoadWithout(b, k, w);
      LoadWithout(a, 0, w);
      assert a[..0] + a[0 + 1..] == a[1..];
    }
  }

  lemma {:induction false} TotalIsLoadOfFlat(shards: seq<seq<string>>, w: Weight)
    ensures TotalLoad(shards, w) == Load(Flatten(shards), w)
    decreases |shards|
  {
    if shards != [] {
      var n := |shards| - 1;
      TotalIsLoadOfFlat(shards[..n], w);
      LoadAppend(Flatten(shards[..n]), shards[n], w);
    }
  }

  lemma DistributedLoad(shards: seq<seq<string>>, files: seq<string>, w: Weight)
    requires Distributes(shards, files)
    ensures TotalLoad(shards, w) == Load(files, w)
  {
    TotalIsLoadOfFlat(shards, w);
    LoadOfPermutation(Flatten(shards), files, w);
  }

  /** `count` copies of `x`, as one term. */
  ghost function Times(count: nat, x: real): real {
    count as real * x
  }

  lemma TimesOneMore(count: nat, x: real)
    ensures Times(count + 1, x) == Times(count, x) + x
    ensures Times(0, x) == 0.0
  {
  }

  lemma {:induction false} TotalAtMost(shards: seq<seq<string>>, w: Weight, bound: real)
    requires forall i :: 0 <= i < |shards| ==> Load(shards[i], w) <= bound
    ensures TotalLoad(shards, w) <= Times(|shards|, bound)
    decreases |shards|
  {
    hide Times, Load;
    if shards == [] {
      TimesOneMore(0, bound);
    } else {
      TotalAtMost(shards[..|shards| - 1], w, bound);
      TimesOneMore(|shards| - 1, bound);
    }
  }

  lemma {:induction false} TotalAtLeast(shards: seq<seq<string>>, w: Weight, bound: real)
    requires forall i :: 0 <= i < |shards| ==> Load(shards[i], w) >= bound
    ensures TotalLoad(shards, w) >= Times(|shards|, bound)
    decreases |shards|
  {
    hide Times, Load;
    if shards == [] {
      TimesOneMore(0, bound);
    } else {
      TotalAtLeast(shards[..|shards| - 1], w, bound);
      TimesOneMore(|shards| - 1, bound);
    }
  }

  lemma {:induction false} LoadNonNegative(s: seq<string>, w: Weight)
    requires NonNegative(w)
    ensures Load(s, w) >= 0.0
    ensures forall x :: x in s ==> w(x) <= Load(s, w)
    decreases |s|
  {
    if s != [] {
      var n := |s| - 1;
      assert s == s[..n] + [s[n]];
      LoadNonNegative(s[..n], w);
    }
  }

  lemma LoadOfPrefix(s: seq<string>, k: nat, w: Weight)
    requires NonNegative(w) && k <= |s|
    ensures Load(s[..k], w) <= Load(s, w)
  {
    assert s == s[..k] + s[k..];
    LoadAppend(s[..k], s[k..], w);
    LoadNonNegative(s[k..], w);
  }

  lemma SmallLoads(s: seq<string>, w: Weight)
    ensures |s| == 1 ==> Load(s, w) == w(s[0])
    ensures |s| == 2 ==> Load(s, w) == w(s[0]) + w(s[1])
    ensures |s| == 3 ==> Load(s, w) == w(s[0]) + w(s[1]) + w(s[2])
  {
    if |s| == 1 {
      assert s[..0] == [];
    } else if |s| == 2 {
      assert s[..1][..0] == [];
    } else if |s| == 3 {
      assert s[..2][..1][..0] == [];
      assert s[..2][..1] == s[..1] && s[..2][1] == s[1] && s[..1][0] == s[0];
    }
  }

  lemma AppendLoad(s: seq<string>, x: string, w: Weight)
    ensures Load(s + [x], w) == Load(s, w) + w(x)
  {
    assert (s + [x])[..|s|] == s;
  }

  // The arithmetic of the bounds, on its own.

  /** `load` is at most `total/m + (1 - 1/m) file`. */
  ghost predicate BesideFile(m: nat, load: real, total: real, file: real) {
    m as real * load <= total + (m as real - 1.0) * file
  }

  /** `load` is at most `(4/3 - 1/(3m)) limit`. */
  ghost predicate FourThirds(m: nat, load: real, limit: real) {
    3.0 * m as real * load <= (4.0 * m as real - 1.0) * limit
  }

  lemma BesideFileArithmetic(m: nat, least: real, p: real, q: real, before: real)
    requires m >= 1 && Times(m, least) <= before && p <= q
    ensures BesideFile(m, least + p, before + p, q)
  {
    var r := m as real;
    assert (r - 1.0) * p <= (r - 1.0) * q;
    assert r * (least + p) == r * least + (r - 1.0) * p + p;
  }

  lemma BesideFileMonotone(m: nat, load: real, total: real, more: real, file: real)
    requires BesideFile(m, load, total, file) && total <= more
    ensures BesideFile(m, load, more, file)
  {
  }

  lemma LightArithmetic(m: nat, least: real, p: real, limit: real)
    requires m >= 1 && Times(m, least) + p <= Times(m, limit) && 3.0 * p <= limit
    ensures FourThirds(m, least + p, limit)
  {
    var r := m as real;
    assert (r - 1.0) * (3.0 * p) <= (r - 1.0) * limit;
    assert r * (least + p) == r * least + p + (r - 1.0) * p;
  }

  lemma HeavyArithmetic(m: nat, load: real, limit: real)
    requires m >= 1 && load <= limit && limit >= 0.0
    ensures FourThirds(m, load, limit)
  {
    var r := m as real;
    assert 3.0 * r * load <= 3.0 * r * limit;
    assert 3.0 * r * limit + (r - 1.0) * limit == (4.0 * r - 1.0) * limit;
  }

  // ---------------------------------------------------------------------------------------------
  // The greedy rule
  // ---------------------------------------------------------------------------------------------

  function Loads(shards: seq<seq<string>>, w: Weight): seq<real> {
    seq(|shards|, i requires 0 <= i < |shards| => Load(shards[i], w))
  }

  /** `min(range(total), key=lambda i: (loads[i], i))`: the first index of the smallest load. */
  function Lightest(loads: seq<real>): (t: nat)
    requires loads != []
    ensures t < |loads|
    ensures forall i :: 0 <= i < |loads| ==> loads[t] <= loads[i]
    ensures forall i :: 0 <= i < t ==> loads[t] < loads[i]
  {
    if |loads| == 1 then 0
    else
      var best := Lightest(loads[..|loads| - 1]);
      if loads[|loads| - 1] < loads[best] then |loads| - 1 else best
  }

  /** The shard the next file goes to. */
  function LightestShard(shards: seq<seq<string>>, w: Weight): (t: nat)
    requires shards != []
    ensures t < |shards|
  {
    Lightest(Loads(shards, w))
  }

  function NoFiles(total: nat): seq<seq<string>> {
    seq(total, _ => [])
  }

  /** Place the files one by one, each on the shard that is lightest at that moment. */
  function Packed(order: seq<string>, total: nat, w: Weight): (shards: seq<seq<string>>)
    requires total >= 1
    ensures |shards| == total
  {
    if order == [] then NoFiles(total)
    else
      var before := Packed(order[..|order| - 1], total, w);
      var t := LightestShard(before, w);
      before[t := before[t] + [order[|order| - 1]]]
  }

  lemma {:induction false} FlattenEmpty(n: nat)
    ensures Flatten(NoFiles(n)) == []
    decreases n
  {
    if n > 0 {
      FlattenEmpty(n - 1);
      assert NoFiles(n)[..n - 1] == NoFiles(n - 1);
    }
  }

  lemma FlattenLast(shards: seq<seq<string>>)
    requires shards != []
    ensures multiset(Flatten(shards)) == multiset(Flatten(shards[..|shards| - 1])) + multiset(shards[|shards| - 1])
  {
  }

  lemma {:induction false} FlattenPlaceOne(shards: seq<seq<string>>, t: nat, x: string)
    requires t < |shards|
    ensures multiset(Flatten(shards[t := shards[t] + [x]])) == multiset(Flatten(shards)) + multiset{x}
    decreases |shards|
  {
    hide Flatten;
    var n := |shards| - 1;
    var after := shards[t := shards[t] + [x]];
    FlattenLast(shards);
    FlattenLast(after);
    if t == n {
      assert after[..n] == shards[..n];
    } else {
      FlattenPlaceOne(shards[..n], t, x);
      assert after[..n] == shards[..n][t := shards[..n][t] + [x]];
    }
  }

  lemma {:induction false} PackedDistributes(order: seq<string>, total: nat, w: Weight)
    requires total >= 1
    ensures Distributes(Packed(order, total, w), order)
    decreases |order|
  {
    if order == [] {
      FlattenEmpty(total);
    } else {
      var n := |order| - 1;
      assert order == order[..n] + [order[n]];
      PackedDistributes(order[..n], total, w);
      var before := Packed(order[..n], total, w);
      FlattenPlaceOne(before, LightestShard(before, w), order[n]);
    }
  }

  ghost predicate HeaviestFirst(order: seq<string>, w: Weight) {
    forall i, j :: 0 <= i < j < |order| ==> w(order[i]) >= w(order[j])
  }

  lemma PrefixIsHeavier(order: seq<string>, k: nat, w: Weight)
    requires HeaviestFirst(order, w) && k < |order|
    ensures forall y :: y in order[..k + 1] ==> w(y) >= w(order[k])
  {
    forall y | y in order[..k + 1] ensures w(y) >= w(order[k]) {
      var j :| 0 <= j < k + 1 && order[j] == y;
      if j < k { assert w(order[j]) >= w(order[k]); }
    }
  }

  lemma LastIsLightest(order: seq<string>, w: Weight)
    requires order != [] && HeaviestFirst(order, w)
    ensures HeaviestFirst(order[..|order| - 1], w)
    ensures forall x :: x in order[..|order| - 1] ==> w(order[|order| - 1]) <= w(x)
  {
    var n := |order| - 1;
    forall x | x in order[..n] ensures w(order[n]) <= w(x) {
      var k :| 0 <= k < n && order[k] == x;
      assert w(order[k]) >= w(order[n]);
    }
  }

  /** No shard exceeds `limit`. */
  ghost predicate Within(shards: seq<seq<string>>, w: Weight, limit: real) {
    forall i :: 0 <= i < |shards| ==> Load(shards[i], w) <= limit
  }

  // ---------------------------------------------------------------------------------------------
  // List-scheduling bound: the excess over the average is at most one file of the shard
  // ---------------------------------------------------------------------------------------------

  /** The lightest of the shards is no heavier than their average. */
  lemma LightestIsBelowAverage(shards: seq<seq<string>>, files: seq<string>, w: Weight)
    requires shards != [] && Distributes(shards, files)
    ensures forall k :: 0 <= k < |shards| ==> Load(shards[LightestShard(shards, w)], w) <= Load(shards[k], w)
    ensures Times(|shards|, Load(shards[LightestShard(shards, w)], w)) <= Load(files, w)
  {
    hide Times;
    var t := LightestShard(shards, w);
    forall k | 0 <= k < |shards| ensures Load(shards[t], w) <= Load(shards[k], w) {
      assert Loads(shards, w)[t] <= Loads(shards, w)[k];
    }
    TotalAtLeast(shards, w, Load(shards[t], w));
    DistributedLoad(shards, files, w);
  }

  lemma PackedLast(order: seq<string>, total: nat, w: Weight)
    requires total >= 1 && order != []
    ensures var before := Packed(order[..|order| - 1], total, w);
            var t := LightestShard(before, w);
            Packed(order, total, w) == before[t := before[t] + [order[|order| - 1]]]
  {
  }

  /** The shard that receives the last file. */
  lemma ReceiverBeside(order: seq<string>, total: nat, w: Weight, x: string)
    requires total >= 1 && order != []
    requires w(order[|order| - 1]) <= w(x)
    ensures var t := LightestShard(Packed(order[..|order| - 1], total, w), w);
            BesideFile(total, Load(Packed(order, total, w)[t], w), Load(order, w), w(x))
  {
    hide Times, BesideFile, LightestShard, Packed, Load, Distributes;
    var n := |order| - 1;
    var before := Packed(order[..n], total, w);
    var t := LightestShard(before, w);
    PackedLast(order, total, w);
    assert order == order[..n] + [order[n]];
    AppendLoad(order[..n], order[n], w);
    AppendLoad(before[t], order[n], w);
    PackedDistributes(order[..n], total, w);
    LightestIsBelowAverage(before, order[..n], w);
    BesideFileArithmetic(total, Load(before[t], w), w(order[n]), w(x), Load(order[..n], w));
  }

  /** The load of a shard exceeds the average by less than any one of its files. */
  lemma {:induction false} LoadBesideItsFiles(order: seq<string>, total: nat, w: Weight, i: nat, x: string)
    requires total >= 1 && i < total && NonNegative(w) && HeaviestFirst(order, w)
    requires x in Packed(order, total, w)[i]
    ensures BesideFile(total, Load(Packed(order, total, w)[i], w), Load(order, w), w(x))
    ensures x in order
    decreases |order|
  {
    hide BesideFile, HeaviestFirst;
    var n := |order| - 1;
    var before := Packed(order[..n], total, w);
    LastIsLightest(order, w);
    if x in before[i] {
      LoadBesideItsFiles(order[..n], total, w, i, x);
      BesideFileMonotone(total, Load(before[i], w), Load(order[..n], w), Load(order, w), w(x));
    } else {
      assert x == order[n];
    }
    if i == LightestShard(before, w) {
      ReceiverBeside(order, total, w, x);
    }
  }

  // ---------------------------------------------------------------------------------------------
  // Heaviest-first bound: 4/3 - 1/(3m) of any other split
  // ---------------------------------------------------------------------------------------------

  /** The files of `s` among `placed`. */
  ghost function Among(s: seq<string>, placed: seq<string>): seq<string> {
    if s == [] then []
    else
      var rest := Among(s[..|s| - 1], placed);
      if s[|s| - 1] in placed then rest + [s[|s| - 1]] else rest
  }

  /** Counting weight for files too heavy to be three on a shard within `limit`: a file that leaves no
      room for one as light as `p` counts twice, every other placed file once. */
  ghost function Tokens(placed: seq<string>, w: Weight, p: real, limit: real): Weight {
    x => if x !in placed then 0.0 else if w(x) + p > limit then 2.0 else 1.0
  }

  lemma {:induction false} AmongKeepsTokens(s: seq<string>, placed: seq<string>, w: Weight, p: real, limit: real)
    requires NonNegative(w)
    ensures Load(Among(s, placed), Tokens(placed, w, p, limit)) == Load(s, Tokens(placed, w, p, limit))
    ensures Load(Among(s, placed), w) <= Load(s, w)
    ensures forall x :: x in Among(s, placed) ==> x in placed
    decreases |s|
  {
    if s != [] {
      var n := |s| - 1;
      AmongKeepsTokens(s[..n], placed, w, p, limit);
      var rest := Among(s[..n], placed);
      if s[n] in placed { assert (rest + [s[n]])[..|rest|] == rest; }
    }
  }

  /** On a shard within the limit, at most two such files fit, and two only if both are light. */
  lemma TokensWithin(s: seq<string>, placed: seq<string>, w: Weight, p: real, limit: real)
    requires NonNegative(w) && 3.0 * p > limit
    requires forall x :: x in placed ==> w(x) >= p
    requires Load(s, w) <= limit
    ensures Load(s, Tokens(placed, w, p, limit)) <= 2.0
  {
    var tok := Tokens(placed, w, p, limit);
    var f := Among(s, placed);
    AmongKeepsTokens(s, placed, w, p, limit);
    if |f| >= 3 {
      assert f[0] in f && f[1] in f && f[2] in f;
      LoadOfPrefix(f, 3, w);
      SmallLoads(f[..3], w);
      assert false;
    } else {
      SmallLoads(f, w);
      SmallLoads(f, tok);
      if |f| == 2 {
        assert f[0] in f && f[1] in f;
      }
    }
  }

  /** A shard that a file of weight `p` would overfill already holds two tokens. */
  lemma TokensOnFullShard(s: seq<string>, placed: seq<string>, w: Weight, p: real, limit: real)
    requires p <= limit && Load(s, w) + p > limit
    requires forall x :: x in s ==> x in placed
    ensures Load(s, Tokens(placed, w, p, limit)) >= 2.0
  {
    var tok := Tokens(placed, w, p, limit);
    SmallLoads(s, w);
    SmallLoads(s, tok);
    if |s| == 1 {
      assert s[0] in s;
    } else if |s| >= 2 {
      var n := |s| - 2;
      assert s == s[..n] + s[n..];
      LoadAppend(s[..n], s[n..], tok);
      LoadNonNegative(s[..n], tok);
      SmallLoads(s[n..], tok);
      assert s[n] in s && s[n + 1] in s;
    }
  }

  lemma {:induction false} ShardOf(shards: seq<seq<string>>, x: string) returns (i: nat)
    requires x in Flatten(shards)
    ensures i < |shards| && x in shards[i]
    decreases |shards|
  {
    var n := |shards| - 1;
    if x in shards[n] { i := n; } else { i := ShardOf(shards[..n], x); }
  }

  lemma {:induction false} InFlatten(shards: seq<seq<string>>, i: nat, x: string)
    requires i < |shards| && x in shards[i]
    ensures x in Flatten(shards)
    decreases |shards|
  {
    if i < |shards| - 1 { InFlatten(shards[..|shards| - 1], i, x); }
  }

  /** Another split within the limit holds at most two tokens per shard, so the files placed before
      the k-th hold at most one fewer. */
  lemma TokensInOtherSplit(order: seq<string>, k: nat, w: Weight, other: seq<seq<string>>, limit: real)
    requires NonNegative(w) && HeaviestFirst(order, w) && k < |order|
    requires Distributes(other, order) && Within(other, w, limit)
    requires 3.0 * w(order[k]) > limit
    ensures Load(order[..k], Tokens(order[..k + 1], w, w(order[k]), limit)) + 1.0 <= Times(|other|, 2.0)
    ensures w(order[k]) <= limit
  {
    hide Times, Load, TotalLoad, Flatten;
    var x := order[k];
    var placed := order[..k + 1];
    var tok := Tokens(placed, w, w(x), limit);
    assert placed == order[..k] + [x];
    assert x == placed[k];
    PrefixIsHeavier(order, k, w);
    hide HeaviestFirst;
    forall i | 0 <= i < |other| ensures Load(other[i], tok) <= 2.0 {
      TokensWithin(other[i], placed, w, w(x), limit);
    }
    TotalAtMost(other, tok, 2.0);
    DistributedLoad(other, order, tok);
    LoadOfPrefix(order, k + 1, tok);
    AppendLoad(order[..k], x, tok);
    assert x in placed && tok(x) >= 1.0;
    hide Tokens;
    assert x in multiset(Flatten(other)) by { assert x in multiset(order); }
    var i := ShardOf(other, x);
    LoadNonNegative(other[i], w);
  }

  /** A file heavier than a third of what some split achieves still fits within it: otherwise all the
      shards would hold two tokens each besides the file's own, one more than that split can hold. */
  lemma HeavyFileFits(order: seq<string>, k: nat, w: Weight, before: seq<seq<string>>, other: seq<seq<string>>,
                      limit: real, least: real)
    requires NonNegative(w) && HeaviestFirst(order, w) && k < |order|
    requires |before| == |other| >= 1
    requires Distributes(before, order[..k]) && Distributes(other, order) && Within(other, w, limit)
    requires 3.0 * w(order[k]) > limit
    requires forall i :: 0 <= i < |before| ==> least <= Load(before[i], w)
    ensures least + w(order[k]) <= limit
  {
    hide Times, HeaviestFirst, Within;
    var p := w(order[k]);
    var placed := order[..k + 1];
    var tok := Tokens(placed, w, p, limit);
    TokensInOtherSplit(order, k, w, other, limit);
    DistributedLoad(before, order[..k], tok);
    hide Tokens, Load, TotalLoad;
    if forall i :: 0 <= i < |before| ==> Load(before[i], tok) >= 2.0 {
      TotalAtLeast(before, tok, 2.0);
      assert false;
    }
    var i :| 0 <= i < |before| && Load(before[i], tok) < 2.0;
    forall y | y in before[i] ensures y in placed {
      InFlatten(before, i, y);
      assert y in multiset(Flatten(before));
      assert y in multiset(order[..k]);
      assert placed == order[..k] + [order[k]];
    }
    if Load(before[i], w) + p > limit {
      TokensOnFullShard(before[i], placed, w, p, limit);
    }
  }

  /** Heaviest first onto the lightest shard: whatever other split into the same number of shards one
      can think of, no shard is heavier than 4/3 - 1/(3m) of that split's heaviest. */
  lemma {:induction false} WithinFourThirds(order: seq<string>, k: nat, total: nat, w: Weight, other: seq<seq<string>>,
                                            limit: real)
    requires total >= 1 && NonNegative(w) && HeaviestFirst(order, w) && k <= |order|
    requires |other| == total && Distributes(other, order) && Within(other, w, limit)
    ensures forall i :: 0 <= i < total ==> FourThirds(total, Load(Packed(order[..k], total, w)[i], w), limit)
    decreases k
  {
    hide Times, FourThirds, Distributes, HeaviestFirst;
    LoadNonNegative(other[0], w);
    if k == 0 {
      assert order[..0] == [];
      HeavyArithmetic(total, 0.0, limit);
    } else {
      WithinFourThirds(order, k - 1, total, w, other, limit);
      assert order[..k][..k - 1] == order[..k - 1];
      PackedLast(order[..k], total, w);
      PackedDistributes(order[..k - 1], total, w);
      hide Packed, Load, LightestShard;
      var before := Packed(order[..k - 1], total, w);
      var t := LightestShard(before, w);
      var x := order[k - 1];
      LightestIsBelowAverage(before, order[..k - 1], w);
      AppendLoad(before[t], x, w);
      if 3.0 * w(x) > limit {
        HeavyFileFits(order, k - 1, w, before, other, limit, Load(before[t], w));
        HeavyArithmetic(total, Load(before[t], w) + w(x), limit);
      } else {
        LightFileFits(order, k - 1, w, before, other, limit, Load(before[t], w));
      }
    }
  }

  lemma LightFileFits(order: seq<string>, k: nat, w: Weight, before: seq<seq<string>>, other: seq<seq<string>>,
                      limit: real, least: real)
    requires NonNegative(w) && k < |order|
    requires |before| == |other| >= 1
    requires Distributes(before, order[..k]) && Distributes(other, order) && Within(other, w, limit)
    requires 3.0 * w(order[k]) <= limit
    requires forall i :: 0 <= i < |before| ==> least <= Load(before[i], w)
    ensures FourThirds(|before|, least + w(order[k]), limit)
  {
    hide Times, FourThirds;
    var p := w(order[k]);
    TotalAtLeast(before, w, least);
    DistributedLoad(before, order[..k], w);
    TotalAtMost(other, w, limit);
    DistributedLoad(other, order, w);
    LoadOfPrefix(order, k + 1, w);
    assert order[..k + 1] == order[..k] + [order[k]];
    AppendLoad(order[..k], order[k], w);
    LightArithmetic(|before|, least, p, limit);
  }

  // ---------------------------------------------------------------------------------------------
  // When every shard gets a file
  // ---------------------------------------------------------------------------------------------

  /** The first `k` files landed on a shard of their own, in order. */
  ghost predicate OneEach(shards: seq<seq<string>>, order: seq<string>, k: nat)
    requires k <= |order|
  {
    forall i :: 0 <= i < |shards| ==> shards[i] == if i < k then [order[i]] else []
  }

  lemma LightestIs(shards: seq<seq<string>>, w: Weight, t: nat)
    requires t < |shards|
    requires forall i :: 0 <= i < |shards| ==> Load(shards[t], w) <= Load(shards[i], w)
    requires forall i :: 0 <= i < t ==> Load(shards[t], w) < Load(shards[i], w)
    ensures LightestShard(shards, w) == t
  {
    hide Load;
    var loads := Loads(shards, w);
    var best := LightestShard(shards, w);
    assert loads[best] <= loads[t] && loads[t] <= loads[best];
  }

  lemma SpreadStep(shards: seq<seq<string>>, order: seq<string>, w: Weight, k: nat)
    requires k < |order| && k < |shards| && OneEach(shards, order, k)
    requires forall i :: 0 <= i < k ==> w(order[i]) > 0.0
    ensures LightestShard(shards, w) == k
    ensures OneEach(shards[k := shards[k] + [order[k]]], order, k + 1)
  {
    forall i | 0 <= i < |shards| ensures Load(shards[i], w) == if i < k then w(order[i]) else 0.0 {
      SmallLoads(shards[i], w);
    }
    LightestIs(shards, w, k);
  }

  lemma {:induction false} SpreadsWhilePositive(order: seq<string>, total: nat, w: Weight, k: nat)
    requires total >= 1 && k <= |order| && k <= total
    requires forall i :: 0 <= i < k - 1 ==> w(order[i]) > 0.0
    ensures OneEach(Packed(order[..k], total, w), order, k)
    decreases k
  {
    if k > 0 {
      SpreadsWhilePositive(order, total, w, k - 1);
      assert order[..k][..k - 1] == order[..k - 1];
      PackedLast(order[..k], total, w);
      hide Packed, OneEach, LightestShard;
      SpreadStep(Packed(order[..k - 1], total, w), order, w, k - 1);
    }
  }

  /** Shards before `z` carry weight, shard `z` carries none, later shards have no file. */
  ghost predicate PiledAt(shards: seq<seq<string>>, w: Weight, z: nat) {
    && z < |shards|
    && (forall i :: 0 <= i < z ==> Load(shards[i], w) > 0.0)
    && Load(shards[z], w) == 0.0
    && (forall i :: z < i < |shards| ==> shards[i] == [])
  }

  lemma PileStep(shards: seq<seq<string>>, w: Weight, z: nat, x: string)
    requires PiledAt(shards, w, z) && w(x) == 0.0
    ensures LightestShard(shards, w) == z
    ensures PiledAt(shards[z := shards[z] + [x]], w, z)
  {
    AppendLoad(shards[z], x, w);
    LightestIs(shards, w, z);
  }

  lemma PileStart(shards: seq<seq<string>>, order: seq<string>, w: Weight, z: nat)
    requires z <= |order| && z < |shards| && OneEach(shards, order, z)
    requires forall i :: 0 <= i < z ==> w(order[i]) > 0.0
    ensures PiledAt(shards, w, z)
  {
    forall i | 0 <= i < z ensures Load(shards[i], w) > 0.0 {
      SmallLoads(shards[i], w);
    }
  }

  /** Once a weightless file is placed, everything after it piles up on the same shard. */
  lemma {:induction false} PilesUpAtZero(order: seq<string>, total: nat, w: Weight, z: nat, k: nat)
    requires total >= 1
    requires z < total && z <= k <= |order|
    requires forall i :: 0 <= i < z ==> w(order[i]) > 0.0
    requires forall i :: z <= i < |order| ==> w(order[i]) == 0.0
    ensures PiledAt(Packed(order[..k], total, w), w, z)
    decreases k
  {
    hide OneEach, PiledAt, LightestShard;
    if k == z {
      SpreadsWhilePositive(order, total, w, z);
      PileStart(Packed(order[..k], total, w), order, w, z);
    } else {
      PilesUpAtZero(order, total, w, z, k - 1);
      assert order[..k][..k - 1] == order[..k - 1];
      PackedLast(order[..k], total, w);
      hide Packed;
      PileStep(Packed(order[..k - 1], total, w), w, z, order[k - 1]);
    }
  }

  lemma {:induction false} FilesOnlyArrive(order: seq<string>, k: nat, total: nat, w: Weight, i: nat)
    requires total >= 1 && k <= |order| && i < total
    ensures Packed(order[..k], total, w)[i] <= Packed(order, total, w)[i]
    decreases |order|
  {
    if k == |order| {
      assert order[..k] == order;
    } else {
      var n := |order| - 1;
      assert order[..n][..k] == order[..k];
      FilesOnlyArrive(order[..n], k, total, w, i);
    }
  }

  ghost predicate NoneEmpty(shards: seq<seq<string>>) {
    forall i :: 0 <= i < |shards| ==> shards[i] != []
  }

  lemma {:induction false} FullShardsNeedFiles(shards: seq<seq<string>>)
    requires NoneEmpty(shards)
    ensures |Flatten(shards)| >= |shards|
    decreases |shards|
  {
    if shards != [] { FullShardsNeedFiles(shards[..|shards| - 1]); }
  }

  lemma TooFewFiles(order: seq<string>, total: nat, w: Weight)
    requires total >= 1 && NoneEmpty(Packed(order, total, w))
    ensures |order| >= total
  {
    PackedDistributes(order, total, w);
    FullShardsNeedFiles(Packed(order, total, w));
    PermutationKeeps(Flatten(Packed(order, total, w)), order);
  }

  lemma ZeroLeavesOneEmpty(order: seq<string>, total: nat, w: Weight)
    requires total >= 2 && NonNegative(w) && HeaviestFirst(order, w)
    requires |order| >= total && w(order[total - 2]) == 0.0
    ensures Packed(order, total, w)[total - 1] == []
  {
    var z := 0;
    while w(order[z]) > 0.0
      invariant z <= total - 2
      invariant forall i :: 0 <= i < z ==> w(order[i]) > 0.0
      decreases total - z
    {
      z := z + 1;
    }
    forall i | z <= i < |order| ensures w(order[i]) == 0.0 {
      if z < i { assert w(order[z]) >= w(order[i]); }
    }
    PilesUpAtZero(order, total, w, z, |order|);
    assert order[..|order|] == order;
  }

  lemma EnoughFillAll(order: seq<string>, total: nat, w: Weight)
    requires total >= 1 && HeaviestFirst(order, w)
    requires |order| >= total && (total >= 2 ==> w(order[total - 2]) > 0.0)
    ensures NoneEmpty(Packed(order, total, w))
  {
    forall i | 0 <= i < total - 1 ensures w(order[i]) > 0.0 {
      if i < total - 2 { assert w(order[i]) >= w(order[total - 2]); }
    }
    SpreadsWhilePositive(order, total, w, total);
    hide Packed;
    forall i | 0 <= i < total ensures Packed(order, total, w)[i] != [] {
      FilesOnlyArrive(order, total, total, w, i);
      assert Packed(order[..total], total, w)[i] == [order[i]];
    }
  }

  /** Every shard gets a file exactly when there are enough files and all but the lightest of the
      first `total` have some weight. */
  lemma NoShardEmptyIff(order: seq<string>, total: nat, w: Weight)
    requires total >= 1 && NonNegative(w) && HeaviestFirst(order, w)
    ensures NoneEmpty(Packed(order, total, w)) <==>
            |order| >= total && (total >= 2 ==> w(order[total - 2]) > 0.0)
  {
    if |order| >= total && (total >= 2 ==> w(order[total - 2]) > 0.0) {
      EnoughFillAll(order, total, w);
    } else if |order| >= total {
      hide Packed;
      ZeroLeavesOneEmpty(order, total, w);
    } else if NoneEmpty(Packed(order, total, w)) {
      TooFewFiles(order, total, w);
    }
  }
}
