/** The fleet one pack makes by itself, as the single-pack path merges it, is deployable exactly when its
    unrenamed jobs are: the ordering gate sees only names, dependencies and which jobs run. */
module PackAlone {
  import CronSplit
  import opened Graphs
  import opened Jobs
  import opened Ordering
  import opened PackComposition
  import opened PackGraphs
  import opened Values
  import opened WriterBinding

  // ---------------------------------------------------------------------------------------------
  // What the gate sees
  // ---------------------------------------------------------------------------------------------

  /** The gate cannot tell the jobs apart. */
  predicate SameShape(j: Job, k: Job) {
    Named(j) && Named(k) && Name(j) == Name(k) && (Runs(j) <==> Runs(k)) && AfterIterable(j) && AfterIterable(k)
        && After(j) == After(k)
  }

  ghost predicate HasShape(jobs: seq<Job>, j: Job) {
    exists k :: k in jobs && SameShape(j, k)
  }

  ghost predicate Mirrors(a: seq<Job>, b: seq<Job>) {
    (forall j :: j in a ==> HasShape(b, j)) && (forall k :: k in b ==> HasShape(a, k))
  }

  lemma MirroredNames(a: seq<Job>, b: seq<Job>, n: string)
    requires Orderable(a) && Orderable(b) && Orderable(Live(a)) && Orderable(Live(b)) && Mirrors(a, b)
    ensures n in NamesOf(Live(a)) ==> n in NamesOf(Live(b))
  {
    DeployedNames(a, n);
    DeployedNames(b, n);
    hide Live, NamesOf, After, Runs;
    if n in NamesOf(Live(a)) {
      var j :| j in a && Runs(j) && IsNamed(j, n);
      assert HasShape(b, j);
      var k :| k in b && SameShape(j, k);
      assert IsNamed(k, n);
    }
  }

  lemma MirroredEdge(a: seq<Job>, b: seq<Job>, d: (string, string))
    requires Orderable(a) && Orderable(b) && Orderable(Live(a)) && Orderable(Live(b)) && Mirrors(a, b)
    ensures d in EdgesOf(a) ==> d in EdgesOf(b)
  {
    if d in EdgesOf(a) {
      var j, v := EntryOf(a, d);
      assert HasShape(b, j);
      hide EdgesOf, NamesOf, After;
      var k :| k in b && SameShape(j, k);
      MirroredNames(a, b, v.s);
      EdgeOf(b, k, v);
    }
  }

  lemma MirroredResolves(a: seq<Job>, b: seq<Job>)
    requires Orderable(a) && Orderable(b) && Orderable(Live(a)) && Orderable(Live(b)) && Mirrors(a, b)
    requires Resolves(a)
    ensures Resolves(b)
  {
    forall k, v | k in Live(b) && v in After(k) ensures GoodEntry(Entry(Name(k), v), NamesOf(Live(b))) {
      assert HasShape(a, k);
      var j :| j in a && SameShape(k, j);
      hide NamesOf, After;
      assert JobResolves(j, NamesOf(Live(a)));
      assert GoodEntry(Entry(Name(j), v), NamesOf(Live(a)));
      MirroredNames(a, b, v.s);
    }
  }

  /** Two fleets of the same shapes pass or fail the gate together. */
  lemma SameShapesSameVerdict(a: seq<Job>, b: seq<Job>)
    requires Orderable(a) && Orderable(b) && Orderable(Live(a)) && Orderable(Live(b)) && Mirrors(a, b)
    ensures OrderingSound(a) <==> OrderingSound(b)
  {
    forall d ensures d in EdgesOf(a) <==> d in EdgesOf(b) {
      MirroredEdge(a, b, d);
      MirroredEdge(b, a, d);
    }
    assert EdgesOf(a) == EdgesOf(b);
    if Resolves(a) {
      MirroredResolves(a, b);
    }
    if Resolves(b) {
      MirroredResolves(b, a);
    }
    hide Mirrors, Live, TargetsResolve, AfterEdges, Acyclic;
  }

  // ---------------------------------------------------------------------------------------------
  // The single-pack path
  // ---------------------------------------------------------------------------------------------

  lemma SetKeepsShape(j: Job, key: string, v: Value)
    requires Named(j) && AfterIterable(j) && key != "name" && key != "after" && key != "enabled"
    ensures SameShape(j, j[key := v])
  {
    SetKeepsAfter(j, key, v);
    hide After, Runs;
  }

  lemma ShapeTwice(i: Job, j: Job, k: Job)
    requires SameShape(i, j) && SameShape(j, k)
    ensures SameShape(i, k) && SameShape(k, i)
  {
  }

  lemma AttachKeepsShape(h: CronSplit.Hooks, prompts: map<string, Value>, j: Job)
    requires Named(j) && AfterIterable(j) && CronSplit.Attach(h, prompts, j).Some?
    ensures SameShape(j, CronSplit.Attach(h, prompts, j).value)
  {
    var m := CronSplit.Attach(h, prompts, j).value;
    if Name(j) in prompts {
      var value := prompts[Name(j)];
      var prompt := PromptParts(value).value.0;
      var prompted := j["prompt" := Str(prompt)];
      SetKeepsShape(j, "prompt", Str(prompt));
      var filed := if value.Obj? && Get(value.fields, "prompt_file").Str?
                   then prompted["prompt_file" := value.fields["prompt_file"]]
                   else prompted;
      if value.Obj? && Get(value.fields, "prompt_file").Str? {
        SetKeepsShape(prompted, "prompt_file", value.fields["prompt_file"]);
        ShapeTwice(j, prompted, filed);
      }
      assert m == filed["output_contract" := m["output_contract"]];
      hide CronSplit.Attach;
      SetKeepsShape(filed, "output_contract", m["output_contract"]);
      ShapeTwice(j, filed, m);
    } else {
      assert m == j;
    }
  }

  lemma ToolsKeepShape(digest: Digest, j: Job)
    requires Named(j) && AfterIterable(j)
    ensures SameShape(j, WithTools(digest, j))
  {
    hide BoundTools, ContractWriterName, UnboundedWriterName, Tools, NameText, Agent, Contracted, SameShape;
    if WithTools(digest, j) != j {
      SetKeepsShape(j, TOOLSETS, WithTools(digest, j)[TOOLSETS]);
    } else {
      ShapeItself(j);
    }
  }

  lemma ShapeItself(j: Job)
    requires Named(j) && AfterIterable(j)
    ensures SameShape(j, j)
  {
  }

  lemma BindKeepsShape(digest: Digest, j: Job)
    requires Named(j) && AfterIterable(j)
    ensures SameShape(j, Bind(digest, j))
  {
    ToolsKeepShape(digest, j);
    var t := WithTools(digest, j);
    PublishKeeps(digest, t);
    hide WithTools, Publish;
    SameKeysSameShape(t, Publish(t));
    hide SameShape;
    ShapeTwice(j, t, Publish(t));
  }

  lemma SameKeysSameShape(t: Job, b: Job)
    requires Named(t) && AfterIterable(t)
    requires Held(b, "name") == Held(t, "name") && Held(b, "after") == Held(t, "after")
              && Held(b, "enabled") == Held(t, "enabled")
    ensures SameShape(t, b)
  {
    assert Get(b, "after") == Get(t, "after");
  }

  lemma {:induction false} AttachedMembers(h: CronSplit.Hooks, tiers: Option<CronSplit.Tiers>,
                                           prompts: map<string, Value>, engine: seq<Job>, m: Job)
    requires AllNamed(engine) && CronSplit.Attached(h, tiers, prompts, engine).Some?
    ensures m in CronSplit.Attached(h, tiers, prompts, engine).value
        <==> exists j :: j in engine && CronSplit.Ships(tiers, prompts, j) && CronSplit.Attach(h, prompts, j) == Some(m)
  {
    hide CronSplit.Attach, CronSplit.Ships;
    if engine != [] {
      var n := |engine| - 1;
      assert engine == engine[..n] + [engine[n]];
      AttachedMembers(h, tiers, prompts, engine[..n], m);
    }
  }

  lemma {:induction false} AttachedAll(h: CronSplit.Hooks, tiers: Option<CronSplit.Tiers>, prompts: map<string, Value>,
                                       engine: seq<Job>, j: Job)
    requires AllNamed(engine) && CronSplit.Attached(h, tiers, prompts, engine).Some? && j in engine
              && CronSplit.Ships(tiers, prompts, j)
    ensures CronSplit.Attach(h, prompts, j).Some?
  {
    hide CronSplit.Attach, CronSplit.Ships;
    var n := |engine| - 1;
    assert engine == engine[..n] + [engine[n]];
    if j != engine[n] {
      AttachedAll(h, tiers, prompts, engine[..n], j);
    }
  }

  /** The pack's prompts as the single-pack path holds them, keyed by lane. */
  ghost predicate SamePrompts(pk: Pack, prompts: map<string, Value>) {
    && (forall p :: p in pk.prompts ==> p.0 in prompts && prompts[p.0] == p.1)
    && (forall lane :: lane in prompts ==> (lane, prompts[lane]) in pk.prompts)
  }

  /** The engine half names each lane once; prompts may be for any lane, or for none. */
  ghost predicate WellFormed(e: Engine, pk: Pack) {
    && Orderable(e.jobs) && Orderable(pk.domain)
    && Distinct(NamesOf(e.jobs))
  }

  lemma OneJobPerName(jobs: seq<Job>, j: Job, k: Job)
    requires AllNamed(jobs) && Distinct(NamesOf(jobs)) && j in jobs && k in jobs && Name(j) == Name(k)
    ensures j == k
  {
    var i :| 0 <= i < |jobs| && jobs[i] == j;
    var l :| 0 <= l < |jobs| && jobs[l] == k;
    assert NamesOf(jobs)[i] == NamesOf(jobs)[l];
  }

  /** The fleet the single-pack path merges. */
  ghost function SinglePack(h: CronSplit.Hooks, e: Engine, pk: Pack, prompts: map<string, Value>): Option<seq<Job>>
    requires AllNamed(e.jobs)
  {
    CronSplit.MergeJobs(h, Some(e.tierOf), CronSplit.Parts(e.jobs, pk.domain, prompts, []))
  }

  lemma BoundMembers(digest: Digest, jobs: seq<Job>, m: Job)
    ensures m in BindAll(digest, jobs) <==> exists j :: j in jobs && Bind(digest, j) == m
  {
    hide Bind;
    if exists j :: j in jobs && Bind(digest, j) == m {
      var i :| 0 <= i < |jobs| && Bind(digest, jobs[i]) == m;
      assert BindAll(digest, jobs)[i] == m;
    }
  }

  /** A job of the pack's unrenamed fleet is an engine job that ships, or one of the pack's own. */
  lemma AloneIs(e: Engine, pk: Pack, prompts: map<string, Value>, j: Job)
    requires WellFormed(e, pk) && SamePrompts(pk, prompts)
    ensures j in Alone(e, pk) <==> (j in e.jobs && CronSplit.Ships(Some(e.tierOf), prompts, j)) || j in pk.domain
  {
    AloneJob(e, pk, j);
    hide Alone, StepsOf;
    if j in e.jobs && IsTemplate(e, Name(j)) && Name(j) in prompts {
      var x := Drive(pk, Name(j), prompts[Name(j)]);
      StepsOfPack(pk, x);
      assert IsNamed(j, Name(j));
      OneJobPerName(e.jobs, j, JobNamed(e.jobs, Name(j)).value);
      assert Base(e, x) == Some(j);
    }
    if j in pk.domain {
      StepsOfPack(pk, Own(pk, j));
      assert Base(e, Own(pk, j)) == Some(j);
    }
    forall x | x in StepsOf(pk) && Base(e, x) == Some(j)
      ensures (j in e.jobs && CronSplit.Ships(Some(e.tierOf), prompts, j)) || j in pk.domain
    {
      StepsOfPack(pk, x);
      if x.Drive? {
        assert (x.lane, x.prompt) in pk.prompts;
      }
    }
  }

  /** What the single-pack path binds. */
  ghost function Merged(h: CronSplit.Hooks, e: Engine, pk: Pack, prompts: map<string, Value>): seq<Job>
    requires AllNamed(e.jobs)
  {
    var engine := CronSplit.Attached(h, Some(e.tierOf), prompts, e.jobs);
    if engine.Some? then engine.value + pk.domain + [] else []
  }

  lemma AloneIsMerged(h: CronSplit.Hooks, e: Engine, pk: Pack, prompts: map<string, Value>, j: Job)
    requires WellFormed(e, pk) && SamePrompts(pk, prompts) && SinglePack(h, e, pk, prompts).Some? && j in Alone(e, pk)
    ensures HasShape(SinglePack(h, e, pk, prompts).value, j)
  {
    AloneIs(e, pk, prompts, j);
    var all, m := Merged(h, e, pk, prompts), j;
    assert SinglePack(h, e, pk, prompts).value == BindAll(h.digest, all);
    Shaped(e, pk, j);
    hide Alone, WellFormed, SinglePack, CronSplit.Attached, CronSplit.Attach, CronSplit.Ships, Bind, SameShape, BindAll;
    if j in pk.domain {
      ShapeItself(j);
    } else {
      AttachedAll(h, Some(e.tierOf), prompts, e.jobs, j);
      m := CronSplit.Attach(h, prompts, j).value;
      AttachedMembers(h, Some(e.tierOf), prompts, e.jobs, m);
      AttachKeepsShape(h, prompts, j);
    }
    assert m in all;
    hide Merged;
    BoundShape(h.digest, all, j, m);
  }

  lemma BoundShape(digest: Digest, all: seq<Job>, j: Job, m: Job)
    requires m in all && SameShape(j, m)
    ensures SameShape(j, Bind(digest, m)) && SameShape(Bind(digest, m), j) && HasShape(BindAll(digest, all), j)
  {
    BindKeepsShape(digest, m);
    BoundMembers(digest, all, Bind(digest, m));
    ShapeTwice(j, m, Bind(digest, m));
    hide SameShape, Bind;
  }

  lemma MergedIsAlone(h: CronSplit.Hooks, e: Engine, pk: Pack, prompts: map<string, Value>, k: Job)
    requires WellFormed(e, pk) && SamePrompts(pk, prompts) && SinglePack(h, e, pk, prompts).Some?
    requires k in SinglePack(h, e, pk, prompts).value
    ensures HasShape(Alone(e, pk), k)
  {
    var all := Merged(h, e, pk, prompts);
    assert SinglePack(h, e, pk, prompts).value == BindAll(h.digest, all);
    BoundMembers(h.digest, all, k);
    hide Alone, SinglePack, CronSplit.Attached, CronSplit.Attach, CronSplit.Ships, Bind, SameShape, BindAll, WellFormed;
    var m :| m in all && Bind(h.digest, m) == k;
    var j := m;
    if m in pk.domain {
      Shaped(e, pk, j);
      ShapeItself(j);
    } else {
      AttachedMembers(h, Some(e.tierOf), prompts, e.jobs, m);
      j :| j in e.jobs && CronSplit.Ships(Some(e.tierOf), prompts, j) && CronSplit.Attach(h, prompts, j) == Some(m);
      Shaped(e, pk, j);
      AttachKeepsShape(h, prompts, j);
    }
    BoundShape(h.digest, all, j, m);
    AloneIs(e, pk, prompts, j);
  }

  /** The single-pack path ships exactly those jobs, with the same shapes. */
  lemma SinglePackMirrors(h: CronSplit.Hooks, e: Engine, pk: Pack, prompts: map<string, Value>)
    requires WellFormed(e, pk) && SamePrompts(pk, prompts) && SinglePack(h, e, pk, prompts).Some?
    ensures Mirrors(Alone(e, pk), SinglePack(h, e, pk, prompts).value)
  {
    assert AllNamed(e.jobs);
    hide Alone, SinglePack, WellFormed, SamePrompts, HasShape;
    forall j | j in Alone(e, pk) ensures HasShape(SinglePack(h, e, pk, prompts).value, j) {
      AloneIsMerged(h, e, pk, prompts, j);
    }
    forall k | k in SinglePack(h, e, pk, prompts).value ensures HasShape(Alone(e, pk), k) {
      MergedIsAlone(h, e, pk, prompts, k);
    }
  }

  lemma Shaped(e: Engine, pk: Pack, j: Job)
    requires WellFormed(e, pk) && (j in e.jobs || j in pk.domain)
    ensures Named(j) && AfterIterable(j)
  {
  }

  /** So the gate's verdict on the single-pack fleet is its verdict on the unrenamed jobs. */
  lemma SinglePackVerdict(h: CronSplit.Hooks, e: Engine, pk: Pack, prompts: map<string, Value>)
    requires WellFormed(e, pk) && SamePrompts(pk, prompts) && SinglePack(h, e, pk, prompts).Some?
    ensures var fleet := SinglePack(h, e, pk, prompts).value;
            && Orderable(Live(fleet)) && Orderable(Live(Alone(e, pk)))
            && (OrderingSound(fleet) <==> OrderingSound(Alone(e, pk)))
  {
    var alone, fleet := Alone(e, pk), SinglePack(h, e, pk, prompts).value;
    SinglePackMirrors(h, e, pk, prompts);
    hide Alone, SinglePack, WellFormed, SamePrompts, OrderingSound, After, Runs;
    forall j | j in alone ensures Named(j) && AfterIterable(j) {
      assert HasShape(fleet, j);
    }
    forall k | k in fleet ensures Named(k) && AfterIterable(k) {
      assert HasShape(alone, k);
    }
    SameShapesSameVerdict(alone, fleet);
  }

  // ---------------------------------------------------------------------------------------------
  // The bound fleet
  // ---------------------------------------------------------------------------------------------

  /** Binding a fleet does not change the gate's verdict. */
  lemma BoundVerdict(digest: Digest, fleet: seq<Job>)
    requires Orderable(fleet)
    ensures Orderable(Live(fleet)) && Orderable(BindAll(digest, fleet)) && Orderable(Live(BindAll(digest, fleet)))
    ensures OrderingSound(BindAll(digest, fleet)) <==> OrderingSound(fleet)
  {
    var bound := BindAll(digest, fleet);
    hide Bind, BindAll, OrderingSound, After, Runs;
    forall j | j in fleet ensures HasShape(bound, j) {
      ShapeItself(j);
      BoundShape(digest, fleet, j, j);
    }
    forall k | k in bound ensures HasShape(fleet, k) && Named(k) && AfterIterable(k) {
      BoundMembers(digest, fleet, k);
      var j :| j in fleet && Bind(digest, j) == k;
      ShapeItself(j);
      BoundShape(digest, fleet, j, j);
    }
    SameShapesSameVerdict(fleet, bound);
  }

  /** What is deployed, the composed fleet with every contracted lane bound to its writer, passes the
      ordering gate exactly when the engine half alone and each pack alone do. */
  lemma BoundFleetSoundIffEachAlone(digest: Digest, e: Engine, packs: seq<Pack>)
    requires Sealed(e, packs)
    ensures Orderable(Live(BindAll(digest, Fleet(e, packs))))
    ensures forall pk :: Among(packs, pk) ==> Orderable(Live(Alone(e, pk)))
    ensures OrderingSound(BindAll(digest, Fleet(e, packs))) <==>
              forall pk :: Among(packs, pk) ==> OrderingSound(Alone(e, pk))
  {
    hide *;
    Orderables(e, packs);
    ComposedSoundIffEachAlone(e, packs);
    BoundVerdict(digest, Fleet(e, packs));
  }
}
