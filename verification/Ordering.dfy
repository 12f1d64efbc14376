/** The ordering gate: `validate_ordering` of `scripts/cron_pack_split.py`. */
module Ordering {
  import opened Graphs
  import opened Text
  import opened Values
  import opened Jobs

  datatype OrderError =
    | NonStringEntry(job: string, entry: Value)
    | AfterItself(job: string)
    | NoSuchJob(job: string, target: string)
    | CyclicAfter(jobs: seq<string>)

  // ---------------------------------------------------------------------------------------------
  // What the gate means
  // ---------------------------------------------------------------------------------------------

  datatype Entry = Entry(job: string, value: Value)

  /** The entry names another deployed job. */
  predicate GoodEntry(e: Entry, names: seq<string>) {
    e.value.Str? && e.value.s != e.job && e.value.s in names
  }

  ghost predicate JobResolves(j: Job, names: seq<string>)
    requires Named(j) && AfterIterable(j)
  {
    forall v :: v in After(j) ==> GoodEntry(Entry(Name(j), v), names)
  }

  /** Every `after` entry of a deployed job names another deployed job. */
  ghost predicate TargetsResolve(live: seq<Job>)
    requires Orderable(live)
  {
    forall j :: j in live ==> JobResolves(j, NamesOf(live))
  }

  /** An edge leads from the job waited for to the job that waits. */
  ghost function AfterEdges(live: seq<Job>): Edges
    requires Orderable(live)
  {
    set j, v | j in live && v in After(j) && GoodEntry(Entry(Name(j), v), NamesOf(live)) :: (v.s, Name(j))
  }

  /** The fleet can be deployed: dependencies resolve within the deployed set and none is circular. */
  ghost predicate OrderingSound(jobs: seq<Job>)
    requires Orderable(Live(jobs))
  {
    TargetsResolve(Live(jobs)) && Acyclic(AfterEdges(Live(jobs)))
  }

  ghost predicate DownstreamOfCycle(g: Edges, n: string) {
    exists c :: OnCycle(g, c) && Reachable(g, c, n)
  }

  // ---------------------------------------------------------------------------------------------
  // Reading the dependency entries
  // ---------------------------------------------------------------------------------------------

  function EntriesOf(name: string, values: seq<Value>): (r: seq<Entry>)
    ensures |r| == |values|
    ensures forall e :: e in r <==> e.job == name && e.value in values
  {
    if values == [] then []
    else
      assert values == [values[0]] + values[1..];
      [Entry(name, values[0])] + EntriesOf(name, values[1..])
  }

  function AllEntries(live: seq<Job>): (r: seq<Entry>)
    requires Orderable(live)
  {
    if live == [] then []
    else
      var n := |live| - 1;
      AllEntries(live[..n]) + EntriesOf(Name(live[n]), After(live[n]))
  }

  function EntryError(e: Entry, names: seq<string>): OrderError
    requires !GoodEntry(e, names)
  {
    if !e.value.Str? then NonStringEntry(e.job, e.value)
    else if e.value.s == e.job then AfterItself(e.job)
    else NoSuchJob(e.job, e.value.s)
  }

  function EntryErrors(entries: seq<Entry>, names: seq<string>): seq<OrderError> {
    if entries == [] then []
    else
      var rest := EntryErrors(entries[..|entries| - 1], names);
      var e := entries[|entries| - 1];
      if GoodEntry(e, names) then rest else rest + [EntryError(e, names)]
  }

  function EdgeList(entries: seq<Entry>, names: seq<string>): seq<(string, string)> {
    if entries == [] then []
    else
      var rest := EdgeList(entries[..|entries| - 1], names);
      var e := entries[|entries| - 1];
      if GoodEntry(e, names) then rest + [(e.value.s, e.job)] else rest
  }

  lemma {:induction false} EntryOfJob(live: seq<Job>, j: Job, v: Value)
    requires Orderable(live) && j in live && v in After(j)
    ensures Entry(Name(j), v) in AllEntries(live)
    decreases |live|
  {
    var n := |live| - 1;
    assert live == live[..n] + [live[n]];
    if j != live[n] { EntryOfJob(live[..n], j, v); }
  }

  lemma {:induction false} JobOfEntry(live: seq<Job>, e: Entry) returns (j: Job)
    requires Orderable(live) && e in AllEntries(live)
    ensures j in live && e.job == Name(j) && e.value in After(j)
    decreases |live|
  {
    var n := |live| - 1;
    if e in EntriesOf(Name(live[n]), After(live[n])) {
      j := live[n];
    } else {
      j := JobOfEntry(live[..n], e);
    }
  }

  lemma {:induction false} GoodEntryInEdges(entries: seq<Entry>, names: seq<string>, e: Entry)
    requires e in entries && GoodEntry(e, names)
    ensures (e.value.s, e.job) in EdgeList(entries, names)
    decreases |entries|
  {
    var n := |entries| - 1;
    assert entries == entries[..n] + [entries[n]];
    if e != entries[n] { GoodEntryInEdges(entries[..n], names, e); }
  }

  lemma {:induction false} EntryOfEdge(entries: seq<Entry>, names: seq<string>, d: (string, string)) returns (e: Entry)
    requires d in EdgeList(entries, names)
    ensures e in entries && GoodEntry(e, names) && d == (e.value.s, e.job)
    decreases |entries|
  {
    var n := |entries| - 1;
    if d in EdgeList(entries[..n], names) {
      e := EntryOfEdge(entries[..n], names, d);
    } else {
      e := entries[n];
    }
  }

  lemma {:induction false} NoErrorIffAllGood(entries: seq<Entry>, names: seq<string>)
    ensures EntryErrors(entries, names) == [] <==> forall e :: e in entries ==> GoodEntry(e, names)
    decreases |entries|
  {
    if entries != [] {
      var n := |entries| - 1;
      assert entries == entries[..n] + [entries[n]];
      NoErrorIffAllGood(entries[..n], names);
    }
  }

  /** The edge list read from the entries is the edge set of the definition. */
  lemma EdgesOfEntries(live: seq<Job>)
    requires Orderable(live)
    ensures forall d :: d in EdgeList(AllEntries(live), NamesOf(live)) <==> d in AfterEdges(live)
    ensures forall e :: e in AfterEdges(live) ==> e.0 in NamesOf(live) && e.1 in NamesOf(live)
  {
    var names := NamesOf(live);
    var entries := AllEntries(live);
    forall d | d in EdgeList(entries, names) ensures d in AfterEdges(live) {
      var e := EntryOfEdge(entries, names, d);
      var j := JobOfEntry(live, e);
    }
    forall d | d in AfterEdges(live) ensures d in EdgeList(entries, names) && d.0 in names && d.1 in names {
      var j, v :| j in live && v in After(j) && GoodEntry(Entry(Name(j), v), names) && d == (v.s, Name(j));
      EntryOfJob(live, j, v);
      GoodEntryInEdges(entries, names, Entry(Name(j), v));
      NameListed(live, j);
    }
  }

  lemma NameListed(live: seq<Job>, j: Job)
    requires AllNamed(live) && j in live
    ensures Name(j) in NamesOf(live)
  {
    var i :| 0 <= i < |live| && live[i] == j;
    assert NamesOf(live)[i] == Name(j);
  }

  lemma ResolveIffNoError(live: seq<Job>)
    requires Orderable(live)
    ensures EntryErrors(AllEntries(live), NamesOf(live)) == [] <==> TargetsResolve(live)
  {
    var names := NamesOf(live);
    var entries := AllEntries(live);
    NoErrorIffAllGood(entries, names);
    if forall e :: e in entries ==> GoodEntry(e, names) {
      forall j | j in live ensures JobResolves(j, names) {
        forall v | v in After(j) ensures GoodEntry(Entry(Name(j), v), names) {
          EntryOfJob(live, j, v);
        }
      }
    }
    if TargetsResolve(live) {
      forall e | e in entries ensures GoodEntry(e, names) {
        var j := JobOfEntry(live, e);
        assert JobResolves(j, names);
        assert e == Entry(Name(j), e.value);
      }
    }
  }

  // ---------------------------------------------------------------------------------------------
  // Counting the edges into a node
  // ---------------------------------------------------------------------------------------------

  /** The targets of the edges leaving `a`, in order, repeated as often as the edge is. */
  function Targets(edges: seq<(string, string)>, a: string): seq<string> {
    if edges == [] then []
    else
      var rest := Targets(edges[..|edges| - 1], a);
      var e := edges[|edges| - 1];
      if e.0 == a then rest + [e.1] else rest
  }

  /** The number of edges into `m` from nodes outside `done`. */
  ghost function Incoming(edges: seq<(string, string)>, done: set<string>, m: string): nat {
    if edges == [] then 0
    else
      var e := edges[|edges| - 1];
      Incoming(edges[..|edges| - 1], done, m) + if e.1 == m && e.0 !in done then 1 else 0
  }

  lemma {:induction false} IncomingAfterOneMore(edges: seq<(string, string)>, done: set<string>, n: string, m: string)
    requires n !in done
    ensures Incoming(edges, done, m) == Incoming(edges, done + {n}, m) + multiset(Targets(edges, n))[m]
    decreases |edges|
  {
    if edges != [] {
      IncomingAfterOneMore(edges[..|edges| - 1], done, n, m);
    }
  }

  lemma {:induction false} NoneIncoming(edges: seq<(string, string)>, done: set<string>, m: string)
    ensures Incoming(edges, done, m) == 0 <==> forall e :: e in edges && e.1 == m ==> e.0 in done
    decreases |edges|
  {
    if edges != [] {
      var k := |edges| - 1;
      assert edges == edges[..k] + [edges[k]];
      NoneIncoming(edges[..k], done, m);
    }
  }

  lemma {:induction false} TargetsAreNodes(edges: seq<(string, string)>, names: seq<string>, a: string)
    requires forall e :: e in edges ==> e.1 in names
    ensures forall m :: m in Targets(edges, a) ==> m in names
    decreases |edges|
  {
    if edges != [] {
      var k := |edges| - 1;
      assert edges == edges[..k] + [edges[k]];
      TargetsAreNodes(edges[..k], names, a);
    }
  }

  // ---------------------------------------------------------------------------------------------
  // The gate
  // ---------------------------------------------------------------------------------------------

  type Adjacency = map<string, seq<string>>
  type Degrees = map<string, int>

  ghost predicate DescribesEdges(adj: Adjacency, indeg: Degrees, names: seq<string>, edges: seq<(string, string)>) {
    && (forall n :: n in adj <==> n in names)
    && (forall n :: n in indeg <==> n in names)
    && (forall n :: n in names ==> adj[n] == Targets(edges, n))
    && (forall n :: n in names ==> indeg[n] == Incoming(edges, {}, n))
    && (forall e :: e in edges ==> e.0 in names && e.1 in names)
  }

  lemma DescribesOneMore(adj: Adjacency, indeg: Degrees, names: seq<string>, edges: seq<(string, string)>, a: string,
                         m: string)
    requires DescribesEdges(adj, indeg, names, edges) && a in names && m in names
    ensures a in adj && m in indeg
    ensures DescribesEdges(adj[a := adj[a] + [m]], indeg[m := indeg[m] + 1], names, edges + [(a, m)])
  {
    var more := edges + [(a, m)];
    assert more[..|more| - 1] == edges;
    forall e | e in more ensures e.0 in names && e.1 in names {
      assert e in edges || e == (a, m);
    }
  }

  /** First loop: read every `after` entry into an adjacency list and an in-degree table, or report
      it. */
  method BuildGraph(live: seq<Job>) returns (adj: Adjacency, indeg: Degrees, errors: seq<OrderError>)
    requires Orderable(live)
    ensures errors == EntryErrors(AllEntries(live), NamesOf(live))
    ensures DescribesEdges(adj, indeg, NamesOf(live), EdgeList(AllEntries(live), NamesOf(live)))
  {
    var names := NamesOf(live);
    adj := map n | n in names :: [];
    indeg := map n | n in names :: 0;
    errors := [];
    assert DescribesEdges(adj, indeg, names, []);
    assert live[..0] == [] && AllEntries([]) == [];
    hide DescribesEdges, EdgeList, EntryErrors, NamesOf, AllEntries, EntriesOf, AfterIterable;
    for i := 0 to |live|
      invariant errors == EntryErrors(AllEntries(live[..i]), names)
      invariant DescribesEdges(adj, indeg, names, EdgeList(AllEntries(live[..i]), names))
    {
      NameListed(live, live[i]);
      AllEntriesOneMore(live, i);
      adj, indeg, errors := ReadJob(live[i], names, adj, indeg, errors, AllEntries(live[..i]));
    }
    assert live[..|live|] == live;
  }

  lemma AllEntriesOneMore(live: seq<Job>, i: nat)
    requires Orderable(live) && i < |live|
    ensures AllEntries(live[..i + 1]) == AllEntries(live[..i]) + EntriesOf(Name(live[i]), After(live[i]))
  {
    assert live[..i + 1][..i] == live[..i];
  }

  lemma ReadOneMore(read: seq<Entry>, e: Entry, names: seq<string>)
    ensures EdgeList(read + [e], names) ==
            if GoodEntry(e, names) then EdgeList(read, names) + [(e.value.s, e.job)] else EdgeList(read, names)
    ensures EntryErrors(read + [e], names) ==
            if GoodEntry(e, names) then EntryErrors(read, names) else EntryErrors(read, names) + [EntryError(e, names)]
  {
    assert (read + [e])[..|read|] == read;
  }

  /** The inner loop: the entries of one job. */
  method ReadJob(j: Job, names: seq<string>, adj0: Adjacency, indeg0: Degrees, errors0: seq<OrderError>,
                 ghost before: seq<Entry>)
    returns (adj: Adjacency, indeg: Degrees, errors: seq<OrderError>)
    requires Named(j) && AfterIterable(j) && Name(j) in names
    requires errors0 == EntryErrors(before, names)
    requires DescribesEdges(adj0, indeg0, names, EdgeList(before, names))
    ensures errors == EntryErrors(before + EntriesOf(Name(j), After(j)), names)
    ensures DescribesEdges(adj, indeg, names, EdgeList(before + EntriesOf(Name(j), After(j)), names))
  {
    hide DescribesEdges, EdgeList, EntryErrors, EntriesOf, After;
    adj, indeg, errors := adj0, indeg0, errors0;
    var entries := After(j);
    ghost var all := EntriesOf(Name(j), entries);
    assert before + all[..0] == before;
    for k := 0 to |entries|
      invariant errors == EntryErrors(before + all[..k], names)
      invariant DescribesEdges(adj, indeg, names, EdgeList(before + all[..k], names))
    {
      var a := entries[k];
      EntryAt(Name(j), entries, k);
      ghost var read := before + all[..k];
      assert before + all[..k + 1] == read + [Entry(Name(j), a)];
      ReadOneMore(read, Entry(Name(j), a), names);
      if !a.Str? {
        errors := errors + [NonStringEntry(Name(j), a)];
      } else if a.s == Name(j) {
        errors := errors + [AfterItself(Name(j))];
      } else if a.s !in names {
        errors := errors + [NoSuchJob(Name(j), a.s)];
      } else {
        DescribesOneMore(adj, indeg, names, EdgeList(read, names), a.s, Name(j));
        adj := adj[a.s := adj[a.s] + [Name(j)]];
        indeg := indeg[Name(j) := indeg[Name(j)] + 1];
      }
    }
    assert all[..|entries|] == all;
  }

  lemma {:induction false} EntryAt(name: string, values: seq<Value>, k: nat)
    requires k < |values|
    ensures EntriesOf(name, values)[k] == Entry(name, values[k])
    decreases |values|
  {
    if k > 0 { EntryAt(name, values[1..], k - 1); }
  }

  ghost function Elements(s: seq<string>): set<string> {
    set x | x in s
  }

  lemma DistinctParts(a: seq<string>, b: seq<string>)
    requires Distinct(a + b)
    ensures forall x :: x in a ==> x !in b
  {
    forall i, k | 0 <= i < |a| && 0 <= k < |b| ensures a[i] != b[k] {
      assert (a + b)[i] != (a + b)[|a| + k];
    }
  }

  /** `n` waits for a job the order has not placed. */
  ghost predicate Blocked(g: Edges, order: seq<string>, n: string) {
    exists a :: (a, n) in g && a !in order
  }

  /** The queue holds exactly the unplaced names that wait for nothing unplaced; `owed` counts the
      edges already discounted from the table's point of view but not yet taken off it. */
  ghost predicate QueueInvariant(names: seq<string>, indeg: Degrees, order: seq<string>, q: seq<string>,
                                 edges: seq<(string, string)>, owed: multiset<string>) {
    && Distinct(order + q)
    && (forall n :: n in order + q ==> n in names)
    && (forall n :: n in indeg <==> n in names)
    && (forall n :: n in names ==> indeg[n] == Incoming(edges, Elements(order), n) + owed[n])
    && (forall n :: n in names ==> (n in order + q <==> indeg[n] == 0))
  }

  lemma TailMultiset(t: seq<string>, i: nat)
    requires i < |t|
    ensures multiset(t[i..]) == multiset{t[i]} + multiset(t[i + 1..])
  {
    assert t[i..] == [t[i]] + t[i + 1..];
  }

  lemma QueueStart(names: seq<string>, adj: Adjacency, indeg: Degrees, q: seq<string>, edges: seq<(string, string)>)
    requires DescribesEdges(adj, indeg, names, edges)
    requires Distinct(q) && forall n :: n in q <==> n in names && indeg[n] == 0
    ensures QueueInvariant(names, indeg, [], q, edges, multiset{})
  {
    assert Elements([]) == {};
    assert [] + q == q;
  }

  lemma QueueEmpty(names: seq<string>, indeg: Degrees, order: seq<string>, edges: seq<(string, string)>, g: Edges)
    requires QueueInvariant(names, indeg, order, [], edges, multiset{})
    requires forall e :: e in edges <==> e in g
    ensures forall n :: n in order ==> n in names
    ensures forall n :: n in names && n !in order ==> Blocked(g, order, n)
  {
    assert order + [] == order;
    forall n | n in names && n !in order ensures Blocked(g, order, n) {
      NoneIncoming(edges, Elements(order), n);
      var e :| e in edges && e.1 == n && e.0 !in order;
      assert (e.0, n) in g;
    }
  }

  lemma ReleaseOne(names: seq<string>, indeg: Degrees, order: seq<string>, q: seq<string>,
                   edges: seq<(string, string)>, m: string, rest: multiset<string>)
    requires m in names && QueueInvariant(names, indeg, order, q, edges, multiset{m} + rest)
    ensures m in indeg
    ensures var queued := if indeg[m] == 1 then q + [m] else q;
            QueueInvariant(names, indeg[m := indeg[m] - 1], order, queued, edges, rest)
  {
    assert m !in order + q;
    assert order + (q + [m]) == (order + q) + [m];
  }

  lemma PlaceOne(names: seq<string>, indeg: Degrees, order: seq<string>, q: seq<string>, edges: seq<(string, string)>)
    requires QueueInvariant(names, indeg, order, q, edges, multiset{}) && q != []
    ensures QueueInvariant(names, indeg, order + [q[0]], q[1..], edges, multiset(Targets(edges, q[0])))
    ensures q[0] !in order && q[0] in names
    ensures forall e :: e in edges && e.1 == q[0] ==> e.0 in order
  {
    var n := q[0];
    assert (order + [n]) + q[1..] == order + q;
    assert (order + q)[|order|] == n;
    assert [n] <= q && n in q;
    DistinctParts(order, q);
    assert Elements(order + [n]) == Elements(order) + {n};
    assert n in order + q;
    NoneIncoming(edges, Elements(order), n);
    forall m | m in names
      ensures indeg[m] == Incoming(edges, Elements(order + [n]), m) + multiset(Targets(edges, n))[m]
    {
      IncomingAfterOneMore(edges, Elements(order), n, m);
    }
  }

  /** The inner loop: take the placed name off the count of each job that waits for it. */
  method Release(n: string, names: seq<string>, adj: Adjacency, indeg0: Degrees, order: seq<string>, q0: seq<string>,
                 ghost edges: seq<(string, string)>)
    returns (indeg: Degrees, q: seq<string>)
    requires n in adj && forall m :: m in adj[n] ==> m in names
    requires QueueInvariant(names, indeg0, order, q0, edges, multiset(adj[n]))
    ensures QueueInvariant(names, indeg, order, q, edges, multiset{})
  {
    indeg, q := indeg0, q0;
    hide QueueInvariant;
    var targets := Sorted(adj[n]);
    PermutationKeeps(adj[n], targets);
    assert targets[0..] == targets;
    assert targets[|targets|..] == [];
    for i := 0 to |targets|
      invariant QueueInvariant(names, indeg, order, q, edges, multiset(targets[i..]))
    {
      var m := targets[i];
      assert m in names;
      TailMultiset(targets, i);
      ReleaseOne(names, indeg, order, q, edges, m, multiset(targets[i + 1..]));
      indeg := indeg[m := indeg[m] - 1];
      if indeg[m] == 0 {
        q := q + [m];
      }
    }
  }

  lemma ElementsPlaced(names: seq<string>, order: seq<string>, n: string)
    requires n in names && n !in order
    ensures n in Elements(names) - Elements(order) && Elements(order + [n]) == Elements(order) + {n}
  {
  }

  /** Second loop: repeatedly take a job all of whose dependencies are already placed. It places jobs
      in dependency order, and stops only when every job left waits for another job left. */
  method Kahn(names: seq<string>, adj: Adjacency, indegrees: Degrees, ghost edges: seq<(string, string)>,
              ghost g: Edges)
    returns (order: seq<string>)
    requires DescribesEdges(adj, indegrees, names, edges)
    requires forall e :: e in edges <==> e in g
    ensures Topological(g, order) && forall n :: n in order ==> n in names
    ensures forall n :: n in names && n !in order ==> Blocked(g, order, n)
  {
    var indeg := indegrees;
    var ready := ZeroDegree(names, indeg);
    var q := Sorted(ready);
    PermutationKeeps(ready, q);
    order := [];
    assert Topological(g, order);
    QueueStart(names, adj, indeg, q, edges);
    hide QueueInvariant, Topological, Incoming, Targets;
    while q != []
      invariant QueueInvariant(names, indeg, order, q, edges, multiset{})
      invariant Topological(g, order)
      decreases Elements(names) - Elements(order)
    {
      var n := q[0];
      PlaceOne(names, indeg, order, q, edges);
      TopologicalOneMore(g, order, n);
      TargetsAreNodes(edges, names, n);
      ElementsPlaced(names, order, n);
      order := order + [n];
      q := q[1..];
      indeg, q := Release(n, names, adj, indeg, order, q, edges);
    }
    QueueEmpty(names, indeg, order, edges, g);
  }

  lemma TopologicalOneMore(g: Edges, order: seq<string>, n: string)
    requires Topological(g, order) && n !in order
    requires forall e :: e in g && e.1 == n ==> e.0 in order
    ensures Topological(g, order + [n])
  {
    var more := order + [n];
    forall e, i | e in g && 0 <= i < |more| && more[i] == e.1 ensures exists k :: 0 <= k < i && more[k] == e.0 {
      if i < |order| {
        var k :| 0 <= k < i && order[k] == e.0;
        assert more[k] == e.0;
      } else {
        var k :| 0 <= k < |order| && order[k] == e.0;
        assert more[k] == e.0;
      }
    }
  }

  /** The names of in-degree zero, each once. */
  method ZeroDegree(names: seq<string>, indeg: Degrees) returns (ready: seq<string>)
    requires forall n :: n in names ==> n in indeg
    ensures Distinct(ready)
    ensures forall n :: n in ready <==> n in names && indeg[n] == 0
  {
    ready := [];
    for i := 0 to |names|
      invariant Distinct(ready)
      invariant forall n :: n in ready <==> n in names[..i] && indeg[n] == 0
    {
      if indeg[names[i]] == 0 && names[i] !in ready {
        ready := ready + [names[i]];
      }
    }
  }

  /** The names no order could place, each once. */
  method Unplaced(names: seq<string>, order: seq<string>) returns (left: seq<string>)
    ensures Distinct(left)
    ensures forall n :: n in left <==> n in names && n !in order
  {
    left := [];
    for i := 0 to |names|
      invariant Distinct(left)
      invariant forall n :: n in left <==> n in names[..i] && n !in order
    {
      if names[i] !in order && names[i] !in left {
        left := left + [names[i]];
      }
    }
  }

  lemma UnplacedIsDownstream(g: Edges, names: set<string>, order: seq<string>, n: string)
    requires forall e :: e in g ==> e.0 in names
    requires forall m :: m in names && m !in order ==> Blocked(g, order, m)
    requires n in names && n !in order
    ensures DownstreamOfCycle(g, n)
  {
    hide OnCycle, Reachable;
    var left := set m | m in names && m !in order;
    forall x | x in left ensures HasPredecessorIn(g, left, x) {
      assert Blocked(g, order, x);
      var a :| (a, x) in g && a !in order;
      assert (a, x).0 in names;
    }
    var c := BackwardsToCycle(g, left, n);
  }

  /** The jobs left over are exactly the ones on a cycle or downstream of one. */
  lemma UnplacedIffDownstream(g: Edges, names: set<string>, order: seq<string>)
    requires Topological(g, order)
    requires forall e :: e in g ==> e.0 in names
    requires forall n :: n in order ==> n in names
    requires forall n :: n in names && n !in order ==> Blocked(g, order, n)
    ensures forall n :: n in names ==> (n !in order <==> DownstreamOfCycle(g, n))
  {
    hide Topological, OnCycle, Reachable, Blocked;
    forall n | n in names && n !in order ensures DownstreamOfCycle(g, n) {
      UnplacedIsDownstream(g, names, order, n);
    }
    forall n | DownstreamOfCycle(g, n) ensures n !in order {
      var c :| OnCycle(g, c) && Reachable(g, c, n);
      NoCycleUpstreamOfOrder(g, order, c, n);
    }
  }

  lemma CyclesAreDownstream(g: Edges, names: set<string>)
    requires forall e :: e in g ==> e.0 in names
    ensures forall c :: OnCycle(g, c) ==> c in names && DownstreamOfCycle(g, c)
  {
    forall c | OnCycle(g, c) ensures c in names {
      var p :| WalkFromTo(g, p, c, c) && |p| >= 2;
      assert (p[0], p[1]) in g;
    }
    forall c | OnCycle(g, c) ensures DownstreamOfCycle(g, c) {
      assert WalkFromTo(g, [c], c, c);
    }
  }

  /** What the loops establish, put together. */
  lemma Verdict(g: Edges, names: seq<string>, order: seq<string>, left: seq<string>)
    requires Topological(g, order)
    requires forall e :: e in g ==> e.0 in names
    requires forall n :: n in order ==> n in names
    requires forall n :: n in names && n !in order ==> Blocked(g, order, n)
    requires forall n :: n in left <==> n in names && n !in order
    ensures forall n :: n in order <==> n in names && !DownstreamOfCycle(g, n)
    ensures left == [] <==> Acyclic(g)
  {
    hide Topological, OnCycle, Blocked;
    UnplacedIffDownstream(g, Elements(names), order);
    CyclesAreDownstream(g, Elements(names));
    if left != [] {
      assert left[0] in left;
      var c :| OnCycle(g, c) && Reachable(g, c, left[0]);
    }
  }

  // ---------------------------------------------------------------------------------------------
  // What the errors say
  // ---------------------------------------------------------------------------------------------

  /** The error that a dependency `v` of the job calls for: it is no string, names the job itself, or names
      no deployed job. */
  ghost predicate Faults(names: seq<string>, job: string, v: Value, err: OrderError) {
    match err
    case NonStringEntry(name, entry) => name == job && entry == v && !v.Str?
    case AfterItself(name) => name == job && v == Str(job)
    case NoSuchJob(name, target) => name == job && v == Str(target) && target != job && target !in names
    case CyclicAfter(_) => false
  }

  ghost predicate FaultOf(live: seq<Job>, err: OrderError)
    requires Orderable(live)
  {
    exists j, v :: j in live && v in After(j) && Faults(NamesOf(live), Name(j), v, err)
  }

  /** The names, in order, of the deployed jobs on or behind a cycle. */
  ghost predicate NamesCyclic(live: seq<Job>, jobs: seq<string>)
    requires Orderable(live)
  {
    && Ascending(jobs) && Distinct(jobs) && jobs != []
    && forall n :: n in jobs <==> n in NamesOf(live) && DownstreamOfCycle(AfterEdges(live), n)
  }

  /** The errors are those the dependencies call for, and one for all jobs on or behind a cycle. */
  ghost predicate ErrorsAre(live: seq<Job>, errors: seq<OrderError>)
    requires Orderable(live)
  {
    && (forall err: OrderError :: !err.CyclicAfter? ==> (err in errors <==> FaultOf(live, err)))
    && (forall err :: err in errors && err.CyclicAfter? ==> NamesCyclic(live, err.jobs))
    && (!Acyclic(AfterEdges(live)) ==> exists err :: err in errors && err.CyclicAfter?)
  }

  lemma FaultsIff(e: Entry, names: seq<string>, err: OrderError)
    ensures Faults(names, e.job, e.value, err) <==> !GoodEntry(e, names) && err == EntryError(e, names)
  {
  }

  lemma {:induction false} EntryErrorsAre(entries: seq<Entry>, names: seq<string>, err: OrderError)
    ensures err in EntryErrors(entries, names) <==> exists e :: e in entries && Faults(names, e.job, e.value, err)
  {
    if entries != [] {
      var n := |entries| - 1;
      assert entries == entries[..n] + [entries[n]];
      EntryErrorsAre(entries[..n], names, err);
      FaultsIff(entries[n], names, err);
      hide Faults, GoodEntry;
    }
  }

  lemma FaultsAreReported(live: seq<Job>, err: OrderError)
    requires Orderable(live)
    ensures err in EntryErrors(AllEntries(live), NamesOf(live)) <==> FaultOf(live, err)
  {
    hide EntryErrors, Faults;
    EntryErrorsAre(AllEntries(live), NamesOf(live), err);
    if FaultOf(live, err) {
      var j, v :| j in live && v in After(j) && Faults(NamesOf(live), Name(j), v, err);
      EntryOfJob(live, j, v);
      assert Faults(NamesOf(live), Entry(Name(j), v).job, Entry(Name(j), v).value, err);
    }
    if e :| e in AllEntries(live) && Faults(NamesOf(live), e.job, e.value, err) {
      var j := JobOfEntry(live, e);
    }
  }

  lemma LeftAreCyclic(live: seq<Job>, left: seq<string>)
    requires Orderable(live) && Distinct(left) && left != []
    requires forall n :: n in left <==> n in NamesOf(live) && DownstreamOfCycle(AfterEdges(live), n)
    ensures NamesCyclic(live, Sorted(left))
  {
    SortedAscending(left);
    PermutationKeeps(left, Sorted(left));
    hide DownstreamOfCycle, AfterEdges, NamesOf, Ascending, Distinct;
    assert |Sorted(left)| == |left|;
  }

  lemma EntryErrorsFirst(live: seq<Job>, errors: seq<OrderError>, all: seq<OrderError>)
    requires Orderable(live) && errors == EntryErrors(AllEntries(live), NamesOf(live))
    requires all == errors || exists jobs :: all == errors + [CyclicAfter(jobs)]
    ensures forall err: OrderError :: !err.CyclicAfter? ==> (err in all <==> FaultOf(live, err))
    ensures forall err: OrderError :: err in errors ==> !err.CyclicAfter?
  {
    forall err: OrderError ensures err in errors <==> FaultOf(live, err) {
      FaultsAreReported(live, err);
    }
    assert forall err: OrderError :: FaultOf(live, err) ==> !err.CyclicAfter?;
    hide EntryErrors, FaultOf, NamesOf, AllEntries;
  }

  lemma ErrorsTogether(live: seq<Job>, errors: seq<OrderError>, left: seq<string>)
    requires Orderable(live) && errors == EntryErrors(AllEntries(live), NamesOf(live)) && Distinct(left)
    requires forall n :: n in left <==> n in NamesOf(live) && DownstreamOfCycle(AfterEdges(live), n)
    requires left == [] <==> Acyclic(AfterEdges(live))
    ensures ErrorsAre(live, if left == [] then errors else errors + [CyclicAfter(Sorted(left))])
  {
    hide EntryErrors, FaultOf, DownstreamOfCycle, AfterEdges, Acyclic, NamesOf, AllEntries, NamesCyclic, Sorted,
         Distinct;
    if left != [] {
      LeftAreCyclic(live, left);
      var all := errors + [CyclicAfter(Sorted(left))];
      EntryErrorsFirst(live, errors, all);
      hide Orderable;
      assert all[|errors|] == CyclicAfter(Sorted(left));
    } else {
      EntryErrorsFirst(live, errors, errors);
    }
  }

  /** The gate on the deployed set. */
  method OrderLive(live: seq<Job>) returns (order: seq<string>, errors: seq<OrderError>)
    requires Orderable(live)
    ensures errors == [] <==> TargetsResolve(live) && Acyclic(AfterEdges(live))
    ensures Topological(AfterEdges(live), order)
    ensures forall n :: n in order <==> n in NamesOf(live) && !DownstreamOfCycle(AfterEdges(live), n)
    ensures EntryErrors(AllEntries(live), NamesOf(live)) <= errors && ErrorsAre(live, errors)
  {
    var names := NamesOf(live);
    hide *;
    var adj, indeg;
    adj, indeg, errors := BuildGraph(live);
    EdgesOfEntries(live);
    ResolveIffNoError(live);
    order := Kahn(names, adj, indeg, EdgeList(AllEntries(live), names), AfterEdges(live));
    var left := Unplaced(names, order);
    Verdict(AfterEdges(live), names, order, left);
    ErrorsTogether(live, errors, left);
    if left != [] {
      errors := errors + [CyclicAfter(Sorted(left))];
    }
  }

  /** The whole gate. It reports no error exactly when the ordering is sound, and then the order lists
      every deployed name once with each dependency first. In every case the order it returns is the
      longest one a deployment could follow: it leaves out exactly the names on or behind a cycle. */
  method ValidateOrdering(jobs: seq<Job>) returns (order: seq<string>, errors: seq<OrderError>)
    requires Orderable(Live(jobs))
    ensures errors == [] <==> OrderingSound(jobs)
    ensures Topological(AfterEdges(Live(jobs)), order)
    ensures forall n :: n in order <==> n in NamesOf(Live(jobs)) && !DownstreamOfCycle(AfterEdges(Live(jobs)), n)
    ensures errors == [] ==> forall n :: n in order <==> n in NamesOf(Live(jobs))
    ensures EntryErrors(AllEntries(Live(jobs)), NamesOf(Live(jobs))) <= errors && ErrorsAre(Live(jobs), errors)
  {
    var live := Live(jobs);
    hide Topological, ErrorsAre, NamesOf, AfterEdges, TargetsResolve, EntryErrors, AllEntries, Live;
    order, errors := OrderLive(live);
  }
}
