/** Judging the shards' artifacts after the run: `verify` of `ci/suite_shards.py`. */
module ShardVerification {
  import opened Graphs
  import opened Text
  import opened Packing
  import opened SuiteShards

  /** A layer report: the collected node ids per layer, and the total the reporter claims. */
  datatype Report = Report(layers: seq<(string, seq<string>)>, total: int)

  datatype Version = Unknown | Known(text: string)

  datatype Artifact = Artifact(index: int, total: int, version: Version, own: seq<string>, collection: Report)

  function NodesOfLayers(layers: seq<(string, seq<string>)>): seq<string> {
    if layers == [] then [] else layers[0].1 + NodesOfLayers(layers[1..])
  }

  function NodeIds(report: Report): seq<string> {
    NodesOfLayers(report.layers)
  }

  /** `nodeid.split("::", 1)[0]` */
  function NodeFile(node: string): string {
    if node == [] || (|node| >= 2 && node[0] == ':' && node[1] == ':') then [] else [node[0]] + NodeFile(node[1..])
  }

  /** A report is believed when its total counts its node ids, none is repeated, and there is one. */
  ghost predicate Consistent(report: Report) {
    |NodeIds(report)| == report.total && Distinct(NodeIds(report)) && NodeIds(report) != []
  }

  predicate HasDuplicate(s: seq<string>) {
    exists i, j :: 0 <= i < j < |s| && s[i] == s[j]
  }

  datatype Collection = Untrusted | Collected(nodes: set<string>)

  /** `_collected` */
  function Collect(report: Report): (c: Collection)
    ensures c.Collected? <==> Consistent(report)
    ensures c.Collected? ==> forall n :: n in c.nodes <==> n in NodeIds(report)
  {
    var ids := NodeIds(report);
    if |ids| != report.total || HasDuplicate(ids) || ids == [] then Untrusted
    else Collected(set n | n in ids)
  }

  ghost predicate Numbered(shards: seq<Artifact>) {
    forall i :: 0 <= i < |shards| ==> shards[i].index == i + 1 && shards[i].total == |shards|
  }

  ghost predicate OneVersion(shards: seq<Artifact>) {
    shards != [] && forall i :: 0 <= i < |shards| ==> shards[i].version == shards[0].version != Unknown
  }

  ghost predicate ManifestsAgree(shards: seq<Artifact>) {
    Numbered(shards) && OneVersion(shards)
  }

  function AssignedFiles(shards: seq<Artifact>): seq<seq<string>> {
    seq(|shards|, i requires 0 <= i < |shards| => shards[i].own)
  }

  function Collections(shards: seq<Artifact>): seq<seq<string>> {
    seq(|shards|, i requires 0 <= i < |shards| => NodeIds(shards[i].collection))
  }

  /** A shard collected tests from its own files only. */
  ghost predicate StaysInside(shard: Artifact) {
    forall n :: n in NodeIds(shard.collection) ==> NodeFile(n) in shard.own
  }

  /** Some shard collected the test. */
  ghost predicate RanSomewhere(shards: seq<Artifact>, node: string) {
    exists i :: 0 <= i < |shards| && node in NodeIds(shards[i].collection)
  }

  ghost predicate ShardTrusted(shard: Artifact) {
    Consistent(shard.collection) && StaysInside(shard)
  }

  /** Everything `verify` demands of the artifacts. */
  ghost predicate Trustworthy(shards: seq<Artifact>, files: seq<string>, full: Report) {
    && ManifestsAgree(shards)
    && ValidSplit(files, AssignedFiles(shards))
    && Consistent(full)
    && (forall i :: 0 <= i < |shards| ==> ShardTrusted(shards[i]))
    && (forall n :: n in NodeIds(full) <==> RanSomewhere(shards, n))
  }

  datatype Verdict =
    | ManifestMismatch | VersionMismatch | InvalidSplit(problems: SplitProblems)
    | UntrustedReport | Strays(shard: nat) | CollectionsDiffer(never: set<string>, extra: set<string>)
    | Verified(shards: nat, files: nat, tests: nat, version: Version)

  /** The shards before the `i`-th can be trusted. */
  ghost predicate TrustedUpTo(shards: seq<Artifact>, i: int) {
    forall j :: 0 <= j < i && j < |shards| ==> ShardTrusted(shards[j])
  }

  /** The reports, or the first shard, that cannot be trusted. */
  ghost predicate Distrusted(shards: seq<Artifact>, bad: Verdict) {
    match bad
    case UntrustedReport => exists i :: 0 <= i < |shards| && TrustedUpTo(shards, i) && !Consistent(shards[i].collection)
    case Strays(i) =>
      i < |shards| && TrustedUpTo(shards, i) && Consistent(shards[i].collection) && !StaysInside(shards[i])
    case _ => false
  }

  /** What a refusal says is so, and nothing that is looked at before it is amiss. */
  ghost predicate Refuses(shards: seq<Artifact>, files: seq<string>, full: Report, verdict: Verdict) {
    && (verdict.ManifestMismatch? <==> !Numbered(shards))
    && (verdict.VersionMismatch? <==> Numbered(shards) && !OneVersion(shards))
    && (verdict.InvalidSplit? <==>
          Numbered(shards) && OneVersion(shards) && !ValidSplit(files, AssignedFiles(shards)))
    && (verdict.InvalidSplit? ==> ProblemsAre(files, AssignedFiles(shards), verdict.problems))
    && (verdict.UntrustedReport? ==> !Consistent(full) || Distrusted(shards, verdict))
    && (verdict.Strays? ==> Consistent(full) && Distrusted(shards, verdict))
    && (verdict.CollectionsDiffer? ==>
          && Consistent(full) && TrustedUpTo(shards, |shards|)
          && (forall n :: n in verdict.never <==> n in NodeIds(full) && !RanSomewhere(shards, n))
          && (forall n :: n in verdict.extra <==> n !in NodeIds(full) && RanSomewhere(shards, n)))
  }

  method CheckManifests(shards: seq<Artifact>) returns (ok: bool)
    ensures ok <==> Numbered(shards)
  {
    for i := 0 to |shards|
      invariant forall j :: 0 <= j < i ==> shards[j].index == j + 1 && shards[j].total == |shards|
    {
      if shards[i].index != i + 1 || shards[i].total != |shards| {
        return false;
      }
    }
    ok := true;
  }

  /** The shards' collections, accumulated; stops at the first shard that cannot be trusted. */
  method Accumulate(shards: seq<Artifact>) returns (seen: set<string>, bad: Verdict)
    ensures !bad.CollectionsDiffer?
    ensures bad.Verified? <==> forall i :: 0 <= i < |shards| ==> ShardTrusted(shards[i])
    ensures bad.Verified? ==> forall n :: n in seen <==> RanSomewhere(shards, n)
    ensures !bad.Verified? ==> Distrusted(shards, bad)
  {
    seen := {};
    for i := 0 to |shards|
      invariant forall j :: 0 <= j < i ==> ShardTrusted(shards[j])
      invariant forall n :: n in seen <==> exists j :: 0 <= j < i && n in NodeIds(shards[j].collection)
    {
      var c := Collect(shards[i].collection);
      if c.Untrusted? {
        return seen, UntrustedReport;
      }
      var strays := set n | n in c.nodes && NodeFile(n) !in shards[i].own;
      if strays != {} {
        var n :| n in strays;
        assert !StaysInside(shards[i]);
        return seen, Strays(i);
      }
      assert StaysInside(shards[i]) by {
        forall n | n in NodeIds(shards[i].collection) ensures NodeFile(n) in shards[i].own {
          assert n !in strays;
        }
      }
      seen := seen + c.nodes;
    }
    bad := Verified(0, 0, 0, Unknown);
  }

  /** `verify`, from parsed artifacts: accepts exactly the trustworthy ones. */
  method Verify(shards: seq<Artifact>, files: seq<string>, full: Report) returns (verdict: Verdict)
    ensures verdict.Verified? <==> Trustworthy(shards, files, full)
    ensures verdict.Verified? ==>
              verdict == Verified(|shards|, |files|, |NodeIds(full)|, shards[0].version)
    ensures Refuses(shards, files, full, verdict)
  {
    var agree := CheckManifests(shards);
    if !agree {
      return ManifestMismatch;
    }
    var versions := set i | 0 <= i < |shards| :: shards[i].version;
    if shards == [] || versions != {shards[0].version} || Unknown in versions {
      assert shards != [] ==> !ManifestsAgree(shards) by {
        if shards != [] {
          assert shards[0].version in versions;
          if versions != {shards[0].version} {
            var v :| v in versions && v != shards[0].version;
          }
        }
      }
      return VersionMismatch;
    }
    assert ManifestsAgree(shards) by {
      forall i | 0 <= i < |shards| ensures shards[i].version == shards[0].version != Unknown {
        assert shards[i].version in versions;
      }
    }
    var problems := VerifyPartition(files, AssignedFiles(shards));
    if problems != SplitProblems({}, {}, {}, {}) {
      return InvalidSplit(problems);
    }
    var whole := Collect(full);
    if whole.Untrusted? {
      return UntrustedReport;
    }
    var seen, bad := Accumulate(shards);
    if !bad.Verified? {
      return bad;
    }
    var never, extra := whole.nodes - seen, seen - whole.nodes;
    if never != {} || extra != {} {
      assert whole.nodes != seen;
      return CollectionsDiffer(never, extra);
    }
    assert whole.nodes == seen by {
      forall n ensures n in whole.nodes <==> n in seen {
        assert n !in never && n !in extra;
      }
    }
    SetOfDistinct(NodeIds(full), whole.nodes);
    verdict := Verified(|shards|, |files|, |whole.nodes|, shards[0].version);
  }

  lemma {:induction false} SetOfDistinct(s: seq<string>, elements: set<string>)
    requires Distinct(s) && forall n :: n in elements <==> n in s
    ensures |elements| == |s|
    decreases |s|
  {
    if s == [] {
      assert elements == {};
    } else {
      var n := |s| - 1;
      assert s[n] !in s[..n];
      assert s == s[..n] + [s[n]];
      SetOfDistinct(s[..n], elements - {s[n]});
    }
  }

  // ---------------------------------------------------------------------------------------------
  // What an accepted run proves
  // ---------------------------------------------------------------------------------------------

  lemma {:induction false} CountNowhere(shards: seq<seq<string>>, x: string)
    requires forall i :: 0 <= i < |shards| ==> x !in shards[i]
    ensures multiset(Flatten(shards))[x] == 0
    decreases |shards|
  {
    if shards != [] {
      CountNowhere(shards[..|shards| - 1], x);
    }
  }

  lemma {:induction false} CountInOne(shards: seq<seq<string>>, i: nat, x: string)
    requires i < |shards| && forall j :: 0 <= j < |shards| && j != i ==> x !in shards[j]
    ensures multiset(Flatten(shards))[x] == multiset(shards[i])[x]
    decreases |shards|
  {
    var n := |shards| - 1;
    if i == n { CountNowhere(shards[..n], x); } else { CountInOne(shards[..n], i, x); }
  }

  lemma {:induction false} CountAtLeast(shards: seq<seq<string>>, i: nat, x: string)
    requires i < |shards|
    ensures multiset(Flatten(shards))[x] >= multiset(shards[i])[x]
    decreases |shards|
  {
    var n := |shards| - 1;
    if i < n { CountAtLeast(shards[..n], i, x); }
  }

  lemma {:induction false} CountInTwo(shards: seq<seq<string>>, i: nat, j: nat, x: string)
    requires i < j < |shards| && x in shards[i] && x in shards[j]
    ensures multiset(Flatten(shards))[x] >= 2
    decreases |shards|
  {
    var n := |shards| - 1;
    assert x in multiset(shards[i]) && x in multiset(shards[j]);
    if j == n { CountAtLeast(shards[..n], i, x); } else { CountInTwo(shards[..n], i, j, x); }
  }

  /** In a valid split whose shards stay inside their files, a node id belongs to one shard. */
  lemma OneShardPerNode(shards: seq<Artifact>, files: seq<string>, i: nat, j: nat, node: string)
    requires ValidSplit(files, AssignedFiles(shards))
    requires i < |shards| && j < |shards|
    requires StaysInside(shards[i]) && StaysInside(shards[j])
    requires node in NodeIds(shards[i].collection) && node in NodeIds(shards[j].collection)
    ensures i == j
  {
    var split := AssignedFiles(shards);
    var f := NodeFile(node);
    assert f in split[i] && f in split[j];
    assert Assignments(split, f) <= 1 by {
      if Assignments(split, f) > 0 { assert f in files; }
    }
    if i < j { CountInTwo(split, i, j, f); }
    if j < i { CountInTwo(split, j, i, f); }
  }

  /** Accepted artifacts describe one complete, exactly-once execution: counted with repetition over
      all shards, the tests that ran are the tests of the full collection. */
  lemma AcceptedMeansExactlyOnce(shards: seq<Artifact>, files: seq<string>, full: Report)
    requires Trustworthy(shards, files, full)
    ensures multiset(Flatten(Collections(shards))) == multiset(NodeIds(full))
  {
    var all := Collections(shards);
    forall n ensures multiset(Flatten(all))[n] == multiset(NodeIds(full))[n] {
      CountDistinct(NodeIds(full), n);
      assert n in NodeIds(full) <==> n in multiset(NodeIds(full));
      if n in NodeIds(full) {
        var i :| 0 <= i < |shards| && n in NodeIds(shards[i].collection);
        assert ShardTrusted(shards[i]);
        forall j | 0 <= j < |all| && j != i ensures n !in all[j] {
          assert ShardTrusted(shards[j]);
          if n in all[j] { OneShardPerNode(shards, files, i, j, n); }
        }
        CountInOne(all, i, n);
        CountDistinct(all[i], n);
        assert n in multiset(all[i]);
      } else {
        forall i | 0 <= i < |all| ensures n !in all[i] {
          assert all[i] == NodeIds(shards[i].collection);
        }
        CountNowhere(all, n);
      }
    }
  }

  /** And nothing honest is refused: a run whose manifests and split are in order, whose reports count
      right and stay inside their files, is accepted when it executed the full collection exactly
      once. */
  lemma ExactlyOnceIsAccepted(shards: seq<Artifact>, files: seq<string>, full: Report)
    requires ManifestsAgree(shards) && ValidSplit(files, AssignedFiles(shards)) && Consistent(full)
    requires forall i :: 0 <= i < |shards| ==>
               |NodeIds(shards[i].collection)| == shards[i].collection.total
               && NodeIds(shards[i].collection) != [] && StaysInside(shards[i])
    requires multiset(Flatten(Collections(shards))) == multiset(NodeIds(full))
    ensures Trustworthy(shards, files, full)
  {
    var all := Collections(shards);
    forall i | 0 <= i < |shards| ensures ShardTrusted(shards[i]) {
      var ids := NodeIds(shards[i].collection);
      forall a, b | 0 <= a < b < |ids| ensures ids[a] != ids[b] {
        if ids[a] == ids[b] {
          CountTwice(ids, a, b);
          CountAtLeast(all, i, ids[a]);
          CountDistinct(NodeIds(full), ids[a]);
        }
      }
    }
    forall n ensures n in NodeIds(full) <==> RanSomewhere(shards, n) {
      assert n in NodeIds(full) <==> n in multiset(Flatten(all));
      if n in NodeIds(full) {
        var i := ShardOf(all, n);
        assert n in NodeIds(shards[i].collection);
      }
      if i :| 0 <= i < |shards| && n in NodeIds(shards[i].collection) {
        assert n in all[i];
        InFlatten(all, i, n);
      }
    }
  }

  // ---------------------------------------------------------------------------------------------
  // Reading reports and node ids
  // ---------------------------------------------------------------------------------------------

  lemma FirstLayer(layer: (string, seq<string>), rest: seq<(string, seq<string>)>)
    ensures NodesOfLayers([layer] + rest) == layer.1 + NodesOfLayers(rest)
  {
    assert ([layer] + rest)[1..] == rest;
  }

  lemma FirstRest<T>(a: seq<T>, b: seq<T>)
    requires a != []
    ensures a == [a[0]] + a[1..] && a + b == [a[0]] + (a[1..] + b)
  {
  }

  lemma Grouped<T>(a: seq<T>, b: seq<T>, c: seq<T>)
    ensures a + (b + c) == (a + b) + c
  {
  }

  lemma {:induction false} LayersJoin(a: seq<(string, seq<string>)>, b: seq<(string, seq<string>)>)
    ensures NodesOfLayers(a + b) == NodesOfLayers(a) + NodesOfLayers(b)
  {
    if a == [] {
      assert a + b == b;
    } else {
      hide NodesOfLayers;
      LayersJoin(a[1..], b);
      FirstRest(a, b);
      FirstLayer(a[0], a[1..]);
      FirstLayer(a[0], a[1..] + b);
      Grouped(a[0].1, NodesOfLayers(a[1..]), NodesOfLayers(b));
    }
  }

  /** A report's node ids are those of every layer, in order, as often as they are listed. */
  lemma EveryLayerIsRead(before: seq<(string, seq<string>)>, layer: string, nodes: seq<string>,
                         after: seq<(string, seq<string>)>, total: int)
    ensures NodeIds(Report(before + [(layer, nodes)] + after, total))
         == NodeIds(Report(before, total)) + nodes + NodeIds(Report(after, total))
  {
    LayersJoin(before + [(layer, nodes)], after);
    LayersJoin(before, [(layer, nodes)]);
    var one := [(layer, nodes)];
    assert one[1..] == [] && NodesOfLayers(one) == nodes + [];
  }

  predicate ColonsAt(s: string, i: int) {
    0 <= i < |s| - 1 && s[i] == ':' && s[i + 1] == ':'
  }

  /** A node id's file is what stands before the first two colons in a row, or all of it. */
  lemma {:induction false} NodeFileIs(node: string)
    ensures var file := NodeFile(node);
            && file <= node && (forall i :: ColonsAt(node, i) ==> |file| <= i)
            && (|file| < |node| ==> ColonsAt(node, |file|))
  {
    if node != [] && !ColonsAt(node, 0) {
      NodeFileIs(node[1..]);
      assert forall i :: i > 0 ==> (ColonsAt(node, i) <==> ColonsAt(node[1..], i - 1));
      assert node == [node[0]] + node[1..];
    }
  }
}
