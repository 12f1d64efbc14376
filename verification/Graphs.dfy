/** Walks and cycles of a finite directed graph, given by its set of edges.
    Every dependency gate of the engine (`after:` ordering, layer boundaries) is judged against these
    definitions. */
module Graphs {

  type Edges = set<(string, string)>

  /** A walk is a non-empty node sequence whose consecutive nodes are edges; one node is a walk. */
  ghost predicate IsWalk(g: Edges, p: seq<string>) {
    |p| > 0 && forall i :: 0 <= i < |p| - 1 ==> (p[i], p[i + 1]) in g
  }

  ghost predicate WalkFromTo(g: Edges, p: seq<string>, a: string, b: string) {
    IsWalk(g, p) && p[0] == a && p[|p| - 1] == b
  }

  ghost predicate Reachable(g: Edges, a: string, b: string) {
    exists p :: WalkFromTo(g, p, a, b)
  }

  /** `n` lies on a cycle: some walk of at least one edge leads from `n` back to `n`. */
  ghost predicate OnCycle(g: Edges, n: string) {
    exists p :: WalkFromTo(g, p, n, n) && |p| >= 2
  }

  ghost predicate Acyclic(g: Edges) {
    forall n :: !OnCycle(g, n)
  }

  ghost predicate Distinct<T>(p: seq<T>) {
    forall i, j :: 0 <= i < j < |p| ==> p[i] != p[j]
  }

  lemma WalkTail(g: Edges, p: seq<string>)
    requires IsWalk(g, p) && |p| > 1
    ensures IsWalk(g, p[1..])
  {
    forall i | 0 <= i < |p[1..]| - 1 ensures (p[1..][i], p[1..][i + 1]) in g {
      assert (p[i + 1], p[i + 2]) in g;
    }
  }

  lemma WalkSlice(g: Edges, p: seq<string>, lo: nat, hi: nat)
    requires IsWalk(g, p) && lo < hi <= |p|
    ensures IsWalk(g, p[lo..hi])
  {
    forall i | 0 <= i < hi - lo - 1 ensures (p[lo..hi][i], p[lo..hi][i + 1]) in g {
      assert (p[lo + i], p[lo + i + 1]) in g;
    }
  }

  lemma WalkCons(g: Edges, a: string, p: seq<string>)
    requires IsWalk(g, p) && (a, p[0]) in g
    ensures IsWalk(g, [a] + p)
  {
    var q := [a] + p;
    forall i | 0 <= i < |q| - 1 ensures (q[i], q[i + 1]) in g {
      if i > 0 { assert (p[i - 1], p[i]) in g; }
    }
  }

  /** Two walks that meet join into one. */
  lemma WalkJoin(g: Edges, p: seq<string>, q: seq<string>, a: string, b: string, c: string)
    requires WalkFromTo(g, p, a, b) && WalkFromTo(g, q, b, c)
    ensures WalkFromTo(g, p + q[1..], a, c)
  {
    var r := p + q[1..];
    forall i | 0 <= i < |r| - 1 ensures (r[i], r[i + 1]) in g {
      if i < |p| - 1 {
        assert (p[i], p[i + 1]) in g;
      } else {
        var k := i - (|p| - 1);
        assert r[i] == q[k] && r[i + 1] == q[k + 1];
        assert (q[k], q[k + 1]) in g;
      }
    }
  }

  /** Every walk shortens to a simple one with the same ends: cutting the loop between two visits of
      one node loses no endpoint. This is why a search may prune the nodes already on its path. */
  lemma {:induction false} SimpleWalkExists(g: Edges, p: seq<string>, a: string, b: string) returns (q: seq<string>)
    requires WalkFromTo(g, p, a, b)
    ensures WalkFromTo(g, q, a, b) && Distinct(q)
    ensures forall x :: x in q ==> x in p
    decreases |p|
  {
    if Distinct(p) {
      q := p;
    } else {
      var i, j :| 0 <= i < j < |p| && p[i] == p[j];
      WalkSlice(g, p, 0, i + 1);
      WalkSlice(g, p, j, |p|);
      WalkJoin(g, p[0..i + 1], p[j..|p|], a, p[i], b);
      q := SimpleWalkExists(g, p[0..i + 1] + p[j..|p|][1..], a, b);
    }
  }

  /** More entries than values: some value repeats. */
  lemma {:induction false} Pigeonhole<T>(p: seq<T>, s: set<T>) returns (i: nat, j: nat)
    requires forall x :: x in p ==> x in s
    requires |p| > |s|
    ensures i < j < |p| && p[i] == p[j]
    decreases |p|
  {
    var last := p[|p| - 1];
    var rest := p[..|p| - 1];
    if last in rest {
      i :| 0 <= i < |rest| && rest[i] == last;
      j := |p| - 1;
    } else {
      forall x | x in rest ensures x in s - {last} {}
      i, j := Pigeonhole(rest, s - {last});
    }
  }

  /** The image of a walk under a map of edges to edges is a walk. */
  lemma MapWalk(g: Edges, h: Edges, f: string -> string, p: seq<string>, a: string, b: string)
    requires WalkFromTo(g, p, a, b)
    requires forall e :: e in g ==> (f(e.0), f(e.1)) in h
    ensures WalkFromTo(h, seq(|p|, i requires 0 <= i < |p| => f(p[i])), f(a), f(b))
  {
    var q := seq(|p|, i requires 0 <= i < |p| => f(p[i]));
    forall i | 0 <= i < |q| - 1 ensures (q[i], q[i + 1]) in h {
      assert (p[i], p[i + 1]) in g;
    }
  }

  ghost predicate HasPredecessorIn(g: Edges, s: set<string>, x: string) {
    exists y :: y in s && (y, x) in g
  }

  /** A set of nodes closed under taking a predecessor inside itself contains a cycle: walking
      backwards for more steps than there are nodes must revisit one. From any member, a node on a
      cycle leads to it. */
  lemma {:induction false} BackwardsToCycle(g: Edges, s: set<string>, n: string) returns (c: string)
    requires n in s
    requires forall x :: x in s ==> HasPredecessorIn(g, s, x)
    ensures c in s && OnCycle(g, c) && Reachable(g, c, n)
  {
    var p := BackwardsWalk(g, s, n, |s|);
    var i, j := Pigeonhole(p, s);
    WalkSlice(g, p, i, j + 1);
    assert WalkFromTo(g, p[i..j + 1], p[i], p[i]);
    WalkSlice(g, p, i, |p|);
    assert WalkFromTo(g, p[i..|p|], p[i], n);
    c := p[i];
  }

  lemma {:induction false} BackwardsWalk(g: Edges, s: set<string>, n: string, k: nat) returns (p: seq<string>)
    requires n in s
    requires forall x :: x in s ==> HasPredecessorIn(g, s, x)
    ensures IsWalk(g, p) && |p| == k + 1 && p[|p| - 1] == n
    ensures forall x :: x in p ==> x in s
  {
    if k == 0 {
      p := [n];
    } else {
      var q := BackwardsWalk(g, s, n, k - 1);
      assert q[0] in q;
      assert HasPredecessorIn(g, s, q[0]);
      var y :| y in s && (y, q[0]) in g;
      WalkCons(g, y, q);
      p := [y] + q;
    }
  }

  /** An order that puts every edge's source before its target is incompatible with a cycle through a
      listed node, and nothing downstream of a cycle can be listed either. */
  ghost predicate Topological(g: Edges, order: seq<string>) {
    Distinct(order) &&
    forall e, i :: e in g && 0 <= i < |order| && order[i] == e.1 ==>
      exists k :: 0 <= k < i && order[k] == e.0
  }

  lemma {:induction false} WalkIntoOrder(g: Edges, order: seq<string>, p: seq<string>, a: string, b: string, i: nat)
    returns (k: nat)
    requires Topological(g, order) && WalkFromTo(g, p, a, b)
    requires i < |order| && order[i] == b
    ensures k <= i && order[k] == a && (|p| >= 2 ==> k < i)
    decreases |p|
  {
    if |p| == 1 {
      k := i;
    } else {
      var m := |p| - 2;
      assert (p[m], p[m + 1]) in g;
      var e := (p[m], p[m + 1]);
      var k0 :| 0 <= k0 < i && order[k0] == e.0;
      WalkSlice(g, p, 0, m + 1);
      k := WalkIntoOrder(g, order, p[0..m + 1], a, p[m], k0);
    }
  }

  lemma NoCycleUpstreamOfOrder(g: Edges, order: seq<string>, c: string, n: string)
    requires Topological(g, order) && OnCycle(g, c) && Reachable(g, c, n)
    ensures n !in order
  {
    if n in order {
      var i :| 0 <= i < |order| && order[i] == n;
      var p :| WalkFromTo(g, p, c, n);
      var k := WalkIntoOrder(g, order, p, c, n, i);
      var q :| WalkFromTo(g, q, c, c) && |q| >= 2;
      var k' := WalkIntoOrder(g, order, q, c, c, k);
    }
  }

  // ---------------------------------------------------------------------------------------------
  // Renaming nodes
  // ---------------------------------------------------------------------------------------------

  /** Renaming turns every edge of `g` into one of `h`. */
  ghost predicate Carries(g: Edges, h: Edges, f: string -> string) {
    forall d :: d in g ==> (f(d.0), f(d.1)) in h
  }

  /** `u` is the renaming of a predecessor of `b`. */
  ghost predicate Lifted(g: Edges, f: string -> string, covered: string -> bool, u: string, b: string) {
    exists a :: covered(a) && f(a) == u && (a, b) in g
  }

  /** Every edge of `h` into a renamed node comes from an edge of `g`. */
  ghost predicate LiftsBack(g: Edges, h: Edges, f: string -> string, covered: string -> bool) {
    forall u, b :: covered(b) && (u, f(b)) in h ==> Lifted(g, f, covered, u, b)
  }

  /** Renaming tells the covered nodes apart. */
  ghost predicate Apart(f: string -> string, covered: string -> bool) {
    forall a, b :: covered(a) && covered(b) && f(a) == f(b) ==> a == b
  }

  lemma CycleCarried(g: Edges, h: Edges, f: string -> string, n: string)
    requires Carries(g, h, f) && OnCycle(g, n)
    ensures OnCycle(h, f(n))
  {
    var p :| WalkFromTo(g, p, n, n) && |p| >= 2;
    MapWalk(g, h, f, p, n, n);
  }

  lemma WalkSnoc(g: Edges, p: seq<string>, b: string)
    requires IsWalk(g, p) && (p[|p| - 1], b) in g
    ensures IsWalk(g, p + [b])
  {
    var q := p + [b];
    forall i | 0 <= i < |q| - 1 ensures (q[i], q[i + 1]) in g {
      assert i < |p| - 1 ==> (p[i], p[i + 1]) in g;
    }
  }

  lemma {:induction false} WalkLifted(g: Edges, h: Edges, f: string -> string, covered: string -> bool, p: seq<string>,
                                      b: string)
    returns (q: seq<string>)
    requires LiftsBack(g, h, f, covered) && covered(b) && IsWalk(h, p) && p[|p| - 1] == f(b)
    ensures IsWalk(g, q) && |q| == |p| && q[|q| - 1] == b && f(q[0]) == p[0] && covered(q[0])
    decreases |p|
  {
    if |p| == 1 {
      q := [b];
    } else {
      var k := |p| - 1;
      assert (p[k - 1], p[k]) in h;
      assert Lifted(g, f, covered, p[k - 1], b);
      var a :| covered(a) && f(a) == p[k - 1] && (a, b) in g;
      WalkSlice(h, p, 0, k);
      var before := WalkLifted(g, h, f, covered, p[0..k], a);
      WalkSnoc(g, before, b);
      q := before + [b];
    }
  }

  /** A cycle through a renamed node is the renaming of a cycle. */
  lemma CycleLifted(g: Edges, h: Edges, f: string -> string, covered: string -> bool, b: string)
    requires LiftsBack(g, h, f, covered) && Apart(f, covered) && covered(b) && OnCycle(h, f(b))
    ensures OnCycle(g, b)
  {
    var p :| WalkFromTo(h, p, f(b), f(b)) && |p| >= 2;
    var q := WalkLifted(g, h, f, covered, p, b);
    assert WalkFromTo(g, q, b, b);
  }
}
