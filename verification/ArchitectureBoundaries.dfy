/** The dependency-direction gate: `ci/architecture_boundaries.py`. */
module ArchitectureBoundaries {
  import opened Graphs

  type LayerGraph = map<string, set<string>>

  /** `graph.get(layer, set())` */
  function Children(graph: LayerGraph, layer: string): set<string> {
    if layer in graph then graph[layer] else {}
  }

  ghost function DependencyEdges(graph: LayerGraph): Edges {
    set a, b | a in graph && b in graph[a] :: (a, b)
  }

  /** The nested search of the gate. `seen` is the set of layers already on the path, extended by
      value at each call, so a layer may be entered again along another path. */
  predicate Reaches(graph: LayerGraph, start: string, target: string, seen: set<string>)
    decreases graph.Keys - seen
  {
    if start == target then true
    else if start in seen then false
    else
      assert start in graph ==> start in graph.Keys - seen;
      exists child :: child in Children(graph, start) && Reaches(graph, child, target, seen + {start})
  }

  lemma {:induction false} ReachesIsSound(graph: LayerGraph, start: string, target: string, seen: set<string>)
    requires Reaches(graph, start, target, seen)
    ensures Reachable(DependencyEdges(graph), start, target)
    decreases graph.Keys - seen
  {
    var g := DependencyEdges(graph);
    if start == target {
      assert WalkFromTo(g, [start], start, target);
    } else {
      assert start !in seen;
      var child :| child in Children(graph, start) && Reaches(graph, child, target, seen + {start});
      assert start in graph.Keys - seen;
      ReachesIsSound(graph, child, target, seen + {start});
      var p :| WalkFromTo(g, p, child, target);
      assert (start, child) in g;
      WalkCons(g, start, p);
      assert WalkFromTo(g, [start] + p, start, target);
    }
  }

  /** Pruning loses nothing on a simple walk that meets `seen` at most in its last layer. */
  lemma {:induction false} ReachesAlongSimpleWalk(graph: LayerGraph, p: seq<string>, start: string, target: string,
                                                  seen: set<string>)
    requires WalkFromTo(DependencyEdges(graph), p, start, target) && Distinct(p)
    requires forall i :: 0 <= i < |p| - 1 ==> p[i] !in seen
    ensures Reaches(graph, start, target, seen)
    decreases |p|
  {
    if |p| > 1 {
      var rest := p[1..];
      WalkTail(DependencyEdges(graph), p);
      assert (p[0], p[1]) in DependencyEdges(graph);
      assert p[1] in Children(graph, start);
      forall i | 0 <= i < |rest| - 1 ensures rest[i] !in seen + {start} {
        assert rest[i] == p[i + 1] && p[0] != p[i + 1];
      }
      forall i, j | 0 <= i < j < |rest| ensures rest[i] != rest[j] {
        assert p[i + 1] != p[j + 1];
      }
      ReachesAlongSimpleWalk(graph, rest, p[1], target, seen + {start});
      if start != target {
        assert p[0] !in seen;
      }
    }
  }

  /** What the gate asks of one layer: does a dependency lead back to it? */
  predicate CycleReported(graph: LayerGraph, layer: string) {
    exists child :: child in Children(graph, layer) && Reaches(graph, child, layer, {layer})
  }

  /** The question is exact: a layer is reported if and only if it lies on a cycle. */
  lemma CycleReportedIffOnCycle(graph: LayerGraph, layer: string)
    ensures CycleReported(graph, layer) <==> OnCycle(DependencyEdges(graph), layer)
  {
    var g := DependencyEdges(graph);
    if CycleReported(graph, layer) {
      var child :| child in Children(graph, layer) && Reaches(graph, child, layer, {layer});
      ReachesIsSound(graph, child, layer, {layer});
      var p :| WalkFromTo(g, p, child, layer);
      assert (layer, child) in g;
      WalkCons(g, layer, p);
      assert WalkFromTo(g, [layer] + p, layer, layer);
    }
    if OnCycle(g, layer) {
      var p :| WalkFromTo(g, p, layer, layer) && |p| >= 2;
      WalkTail(g, p);
      assert (p[0], p[1]) in g;
      var q := SimpleWalkExists(g, p[1..], p[1], layer);
      forall i | 0 <= i < |q| - 1 ensures q[i] !in {layer} {
        assert q[i] != q[|q| - 1];
      }
      ReachesAlongSimpleWalk(graph, q, p[1], layer, {layer});
    }
  }

  datatype BoundaryError = LayersMismatch | CycleReaches(layer: string)

  /** The dependency half of `validate`: one error per layer on a cycle, and one when the graph does
      not define exactly the declared layers. The loop visits the set in an unspecified order. */
  method ValidateDependencies(layers: set<string>, graph: LayerGraph) returns (errors: seq<BoundaryError>)
    ensures LayersMismatch in errors <==> graph.Keys != layers
    ensures forall layer :: CycleReaches(layer) in errors <==> layer in layers && OnCycle(DependencyEdges(graph), layer)
    ensures Distinct(errors)
    ensures errors == [] <==> graph.Keys == layers && Acyclic(DependencyEdges(graph))
  {
    errors := [];
    if graph.Keys != layers {
      errors := errors + [LayersMismatch];
    }
    var todo := layers;
    while todo != {}
      invariant todo <= layers
      invariant LayersMismatch in errors <==> graph.Keys != layers
      invariant forall layer :: CycleReaches(layer) in errors <==>
                layer in layers - todo && OnCycle(DependencyEdges(graph), layer)
      invariant Distinct(errors)
      decreases |todo|
    {
      var layer :| layer in todo;
      CycleReportedIffOnCycle(graph, layer);
      if CycleReported(graph, layer) {
        errors := errors + [CycleReaches(layer)];
      }
      todo := todo - {layer};
    }
    if graph.Keys == layers {
      forall n | OnCycle(DependencyEdges(graph), n) ensures n in layers {
        var p :| WalkFromTo(DependencyEdges(graph), p, n, n) && |p| >= 2;
        assert (p[0], p[1]) in DependencyEdges(graph);
      }
    }
    if errors != [] {
      var first := errors[0];
      assert first in errors;
      match first {
        case LayersMismatch =>
        case CycleReaches(layer) => assert OnCycle(DependencyEdges(graph), layer);
      }
    }
  }
}
