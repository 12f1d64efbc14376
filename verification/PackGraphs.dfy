/** Composition preserves dependencies: the composed fleet can be deployed exactly when the engine half
    and every pack on its own can. */
module PackGraphs {
  import opened Graphs
  import opened Jobs
  import opened Ordering
  import opened PackComposition
  import opened Values

  // ---------------------------------------------------------------------------------------------
  // Steps
  // ---------------------------------------------------------------------------------------------

  lemma StepsOfPack(pk: Pack, x: Step)
    ensures x in StepsOf(pk) <==>
            x.pk == pk && match x
                          case Open(_) => true
                          case Drive(_, lane, prompt) => (lane, prompt) in pk.prompts
                          case Own(_, job) => job in pk.domain
  {
    var drives, owns := DriveSteps(pk, pk.prompts), OwnSteps(pk, pk.domain);
    assert x in StepsOf(pk) <==> x == Open(pk) || x in drives || x in owns;
    if x.pk == pk && x.Drive? && (x.lane, x.prompt) in pk.prompts {
      var i :| 0 <= i < |pk.prompts| && pk.prompts[i] == (x.lane, x.prompt);
      assert drives[i] == x;
    }
    if x.pk == pk && x.Own? && x.job in pk.domain {
      var i :| 0 <= i < |pk.domain| && pk.domain[i] == x.job;
      assert owns[i] == x;
    }
  }

  lemma {:induction false} StepsOfAll(packs: seq<Pack>, x: Step)
    ensures x in AllSteps(packs) <==> x.pk in packs && x in StepsOf(x.pk)
  {
    hide StepsOf;
    if packs != [] {
      var n := |packs| - 1;
      assert packs == packs[..n] + [packs[n]];
      StepsOfAll(packs[..n], x);
      StepsOfPack(packs[n], x);
    }
  }

  lemma {:induction false} NamesOfSteps(steps: seq<Step>, n: string)
    ensures n in MintedNames(steps) <==> exists x :: x in steps && MintedName(x) == Some(n)
  {
    hide MintedName;
    if steps != [] {
      var k := |steps| - 1;
      assert steps == steps[..k] + [steps[k]];
      NamesOfSteps(steps[..k], n);
    }
  }

  lemma {:induction false} JobsOfSteps(e: Engine, steps: seq<Step>, m: Job)
    ensures m in MintedJobs(e, steps) <==> exists x :: x in steps && Minted(e, x) == Some(m)
  {
    hide Minted;
    if steps != [] {
      var k := |steps| - 1;
      assert steps == steps[..k] + [steps[k]];
      JobsOfSteps(e, steps[..k], m);
    }
  }

  /** What fitting says of a step by itself. */
  ghost predicate Sound(e: Engine, x: Step) {
    match x
    case Open(pk) => forall j :: j in pk.domain && Named(j) ==> JobNamed(e.jobs, Name(j)).None?
    case Drive(_, lane, _) => IsTemplate(e, lane) && Minted(e, x).Some?
    case Own(_, job) => Named(job)
  }

  lemma {:induction false} SoundStep(e: Engine, steps: seq<Step>, x: Step)
    requires Composable(e, steps) && x in steps
    ensures Sound(e, x)
  {
    hide Minted, MintedNames, JobNamed;
    var k := |steps| - 1;
    assert steps == steps[..k] + [steps[k]];
    if x != steps[k] {
      SoundStep(e, steps[..k], x);
    }
  }

  /** Names are minted once. */
  lemma {:induction false} OneStepPerName(e: Engine, steps: seq<Step>, x: Step, y: Step)
    requires Composable(e, steps) && x in steps && y in steps
    requires MintedName(x).Some? && MintedName(x) == MintedName(y)
    ensures x == y
  {
    hide Minted, InstanceName, OwnName, MintedNames, JobNamed;
    var k := |steps| - 1;
    assert steps == steps[..k] + [steps[k]];
    NamesOfSteps(steps[..k], MintedName(x).value);
    if x != steps[k] && y != steps[k] {
      OneStepPerName(e, steps[..k], x, y);
    }
  }

  /** When no error is reported, the minted names are pairwise distinct, and each engine-template lane
      has at most one instance. */
  lemma {:induction false} ComposedNamesAreDistinct(e: Engine, steps: seq<Step>)
    requires Composable(e, steps)
    ensures Distinct(MintedNames(steps))
    ensures forall x, y :: x in steps && y in steps && x.Drive? && y.Drive? && x.lane == y.lane ==> x == y
  {
    hide Minted, MintedName, JobNamed;
    if steps != [] {
      var k := |steps| - 1;
      ComposedNamesAreDistinct(e, steps[..k]);
      NewNameIsNew(e, steps[..k], steps[k]);
      assert forall i :: 0 <= i < |MintedNames(steps[..k])| ==> MintedNames(steps[..k])[i] in MintedNames(steps[..k]);
    }
    forall x, y | x in steps && y in steps && x.Drive? && y.Drive? && x.lane == y.lane ensures x == y {
      OneDriver(e, steps, x, y);
    }
  }

  lemma NewNameIsNew(e: Engine, before: seq<Step>, x: Step)
    requires Fits(e, before, x)
    ensures MintedName(x).Some? ==> MintedName(x).value !in MintedNames(before)
  {
    hide Minted, MintedNames;
  }

  lemma OneDriver(e: Engine, steps: seq<Step>, x: Step, y: Step)
    requires Composable(e, steps) && x in steps && y in steps && x.Drive? && y.Drive? && x.lane == y.lane
    ensures x == y
  {
    SameDriverName(e, steps, x, y);
    OneStepPerName(e, steps, x, y);
  }

  lemma {:induction false} SameDriverName(e: Engine, steps: seq<Step>, x: Step, y: Step)
    requires Composable(e, steps) && x in steps && y in steps && x.Drive? && y.Drive? && x.lane == y.lane
    ensures x.pk.name == y.pk.name
  {
    hide Minted, MintedNames, JobNamed;
    var k := |steps| - 1;
    assert steps == steps[..k] + [steps[k]];
    if x != steps[k] && y != steps[k] {
      SameDriverName(e, steps[..k], x, y);
    }
  }

  /** What composition leaves alone: every key of a job but its name, its dependencies, and the prompt
      and contract of an instance. A pack's own job is marked with the pack, unless it marks itself. */
  lemma MintedKeepsDefinition(e: Engine, x: Step, key: string)
    requires Minted(e, x).Some? && key != "name" && key != "after"
    requires x.Drive? ==> key != "prompt" && key != "prompt_file" && key != "output_contract"
    ensures var base, m := Base(e, x).value, Minted(e, x).value;
            Held(m, key) == if x.Own? && key == "pack" && key !in base then Some(Str(x.pk.name)) else Held(base, key)
  {
    hide RenamedEntries, AfterIterable, After, Truthy, InstanceName, OwnName, PromptParts;
  }

  // ---------------------------------------------------------------------------------------------
  // A pack on its own
  // ---------------------------------------------------------------------------------------------

  const NO_PACK := Pack("", [], [])

  function BaseJobs(e: Engine, steps: seq<Step>): seq<Job> {
    if steps == [] then [] else BaseJobs(e, steps[..|steps| - 1]) + ToList(Base(e, steps[|steps| - 1]))
  }

  /** The fleet one pack makes of the engine half, nothing renamed. */
  function Alone(e: Engine, pk: Pack): seq<Job> {
    PureEngine(e, e.jobs) + BaseJobs(e, StepsOf(pk))
  }

  lemma {:induction false} JobsOfBases(e: Engine, steps: seq<Step>, j: Job)
    ensures j in BaseJobs(e, steps) <==> exists x :: x in steps && Base(e, x) == Some(j)
  {
    hide Base;
    if steps != [] {
      var k := |steps| - 1;
      assert steps == steps[..k] + [steps[k]];
      JobsOfBases(e, steps[..k], j);
    }
  }

  /** What ordering needs of an engine half and its packs: names and dependency lists can be read. */
  ghost predicate Readable(e: Engine, packs: seq<Pack>) {
    Orderable(e.jobs) && forall pk :: pk in packs ==> Orderable(pk.domain)
  }

  /** The pack renames this name. */
  predicate Renames(e: Engine, pk: Pack, a: string) {
    Owns(pk, a) || Drives(e, pk, a)
  }

  ghost predicate IsMinted(packs: seq<Pack>, a: string) {
    a in MintedNames(AllSteps(packs))
  }

  /** Names do not reach across: no engine job has a composed name; a pure-engine lane depends on no
      job of a pack, under either name; a pack's job depends on no composed name, but for what its own
      pack renames. */
  ghost predicate Isolated(e: Engine, packs: seq<Pack>)
    requires Readable(e, packs)
  {
    && (forall j :: j in e.jobs ==> !IsMinted(packs, Name(j)))
    && (forall j, v :: j in PureEngine(e, e.jobs) && v in After(j) && v.Str? ==>
          !IsMinted(packs, v.s) && forall pk :: pk in packs ==> !Renames(e, pk, v.s))
    && (forall pk, x, v :: (&& pk in packs && x in StepsOf(pk) && Base(e, x).Some?
                            && AfterIterable(Base(e, x).value) && v in After(Base(e, x).value) && v.Str?) ==>
          Renames(e, pk, v.s) || !IsMinted(packs, v.s))
  }

  /** Packs that compose without error and whose names do not reach across. */
  ghost predicate Sealed(e: Engine, packs: seq<Pack>) {
    Readable(e, packs) && Composable(e, AllSteps(packs)) && Isolated(e, packs)
  }

  ghost predicate Among(packs: seq<Pack>, pk: Pack) {
    pk in packs || pk == NO_PACK
  }

  // ---------------------------------------------------------------------------------------------
  // A job and its image
  // ---------------------------------------------------------------------------------------------

  /** `m` is `j` as the composed fleet carries it for this pack. */
  ghost predicate Image(e: Engine, pk: Pack, j: Job, m: Job) {
    && Named(j) && Named(m) && AfterIterable(j) && AfterIterable(m)
    && Name(m) == Renamed(e, pk, Name(j))
    && (Runs(m) <==> Runs(j))
    && After(m) == RenamedEntries(e, pk, After(j))
  }

  lemma RewriteImage(e: Engine, pk: Pack, j: Job)
    requires Named(j) && AfterIterable(j)
    ensures var r := RewriteAfter(e, pk, j);
            AfterIterable(r) && After(r) == RenamedEntries(e, pk, After(j)) && (Runs(r) <==> Runs(j))
  {
    hide Renamed;
  }

  lemma SetKeepsAfter(j: Job, key: string, v: Value)
    requires AfterIterable(j) && key != "after" && key != "enabled"
    ensures AfterIterable(j[key := v]) && After(j[key := v]) == After(j) && (Runs(j[key := v]) <==> Runs(j))
  {
  }

  lemma InstanceImage(e: Engine, pk: Pack, base: Job, lane: string, v: Value)
    requires Named(base) && AfterIterable(base) && Name(base) == lane && Instance(e, pk, base, lane, v).Some?
    requires Renamed(e, pk, lane) == InstanceName(pk, lane)
    ensures Image(e, pk, base, Instance(e, pk, base, lane, v).value)
  {
    RewriteImage(e, pk, base);
    var r := RewriteAfter(e, pk, base);
    hide RewriteAfter, Renamed, InstanceName, RenamedEntries;
    var named := r["name" := Str(InstanceName(pk, lane))];
    SetKeepsAfter(r, "name", Str(InstanceName(pk, lane)));
    var prompt := PromptParts(v).value.0;
    SetKeepsAfter(named, "prompt", Str(prompt));
    var job := named["prompt" := Str(prompt)];
    var filed := if v.Obj? && Get(v.fields, "prompt_file").Str?
                 then job["prompt_file" := v.fields["prompt_file"]]
                 else job;
    if v.Obj? && Get(v.fields, "prompt_file").Str? {
      SetKeepsAfter(job, "prompt_file", v.fields["prompt_file"]);
    }
    var m := Instance(e, pk, base, lane, v).value;
    assert m == filed["output_contract" := m["output_contract"]];
    SetKeepsAfter(filed, "output_contract", m["output_contract"]);
    hide After, Runs;
  }

  lemma OwnImage(e: Engine, pk: Pack, j: Job)
    requires Named(j) && AfterIterable(j) && Renamed(e, pk, Name(j)) == OwnName(pk, Name(j))
    ensures Image(e, pk, j, OwnJob(e, pk, j))
  {
    RewriteImage(e, pk, j);
    var r := RewriteAfter(e, pk, j);
    hide RewriteAfter, Renamed, OwnName, RenamedEntries;
    SetKeepsAfter(r, "name", Str(OwnName(pk, Name(j))));
    SetKeepsAfter(r["name" := Str(OwnName(pk, Name(j)))], "pack", Str(pk.name));
  }

  /** A step's base has the minted job for its image. */
  lemma StepImage(e: Engine, packs: seq<Pack>, pk: Pack, x: Step)
    requires Sealed(e, packs) && pk in packs && x in StepsOf(pk) && Base(e, x).Some?
    ensures Minted(e, x).Some? && Image(e, pk, Base(e, x).value, Minted(e, x).value)
    ensures MintedName(x) == Some(Renamed(e, pk, Name(Base(e, x).value))) && Renames(e, pk, Name(Base(e, x).value))
  {
    StepsOfPack(pk, x);
    StepsOfPack(pk, Open(pk));
    StepsOfAll(packs, x);
    StepsOfAll(packs, Open(pk));
    SoundStep(e, AllSteps(packs), x);
    SoundStep(e, AllSteps(packs), Open(pk));
    var j := Base(e, x).value;
    hide Isolated, Composable, StepsOf, JobNamed, Image, Instance, OwnJob;
    if x.Drive? {
      assert (x.lane, x.prompt) in pk.prompts;
      assert !Owns(pk, x.lane);
      InstanceImage(e, pk, j, x.lane, x.prompt);
    } else {
      assert IsNamed(x.job, Name(x.job));
      OwnImage(e, pk, j);
    }
  }

  lemma PureUnrenamed(e: Engine, packs: seq<Pack>, pk: Pack, j: Job)
    requires Sealed(e, packs) && Among(packs, pk) && j in PureEngine(e, e.jobs)
    ensures Named(j) && AfterIterable(j) && !Renames(e, pk, Name(j)) && !IsMinted(packs, Name(j))
  {
    hide Composable, StepsOf, AllSteps, MintedNames;
    assert j in e.jobs;
    assert IsNamed(j, Name(j));
    assert JobNamed(e.jobs, Name(j)).Some?;
    if pk in packs {
      StepsOfPack(pk, Open(pk));
      StepsOfAll(packs, Open(pk));
      SoundStep(e, AllSteps(packs), Open(pk));
      hide JobNamed;
      assert !Owns(pk, Name(j));
    }
  }

  lemma PureEntries(e: Engine, packs: seq<Pack>, pk: Pack, j: Job)
    requires Sealed(e, packs) && Among(packs, pk) && j in PureEngine(e, e.jobs)
    ensures Named(j) && AfterIterable(j)
    ensures forall v :: v in After(j) && v.Str? ==> !Renames(e, pk, v.s) && !IsMinted(packs, v.s)
  {
    hide Composable, IsMinted, After, StepsOf, Runs;
    assert j in e.jobs;
    if pk !in packs {
      forall a ensures !Renames(e, pk, a) {
      }
    }
    hide Renames;
  }

  lemma PureImage(e: Engine, packs: seq<Pack>, pk: Pack, j: Job)
    requires Sealed(e, packs) && Among(packs, pk) && j in PureEngine(e, e.jobs)
    ensures Image(e, pk, j, j) && !Renames(e, pk, Name(j)) && !IsMinted(packs, Name(j))
  {
    PureUnrenamed(e, packs, pk, j);
    PureEntries(e, packs, pk, j);
    hide Sealed, After, Runs, Owns, Drives, IsMinted;
    var entries := After(j);
    forall i | 0 <= i < |entries| ensures RenamedEntry(e, pk, entries[i]) == entries[i] {
      assert entries[i] in entries;
    }
    assert entries == RenamedEntries(e, pk, entries);
  }

  /** Every job of a pack's own fleet is pure-engine or some step's base. */
  lemma AloneJob(e: Engine, pk: Pack, j: Job)
    ensures j in Alone(e, pk) <==> j in PureEngine(e, e.jobs) || exists x :: x in StepsOf(pk) && Base(e, x) == Some(j)
  {
    JobsOfBases(e, StepsOf(pk), j);
    hide StepsOf, Base;
  }

  lemma FleetJob(e: Engine, packs: seq<Pack>, m: Job)
    ensures m in Fleet(e, packs) <==>
              m in PureEngine(e, e.jobs) || exists x :: x in AllSteps(packs) && Minted(e, x) == Some(m)
  {
    JobsOfSteps(e, AllSteps(packs), m);
    hide AllSteps, Minted;
  }

  lemma NoSteps(e: Engine, x: Step)
    requires x in StepsOf(NO_PACK)
    ensures Base(e, x).None?
  {
    StepsOfPack(NO_PACK, x);
  }

  /** Each job of a pack's own fleet has its image in the composed one. */
  lemma ImageOf(e: Engine, packs: seq<Pack>, pk: Pack, j: Job) returns (m: Job)
    requires Sealed(e, packs) && Among(packs, pk) && j in Alone(e, pk)
    ensures m in Fleet(e, packs) && Image(e, pk, j, m)
    ensures Renames(e, pk, Name(j)) || !IsMinted(packs, Name(j))
  {
    AloneJob(e, pk, j);
    hide Sealed, Alone, Fleet, Image, StepsOf, AllSteps, Base, Minted, Renames, IsMinted;
    if j in PureEngine(e, e.jobs) {
      m := j;
      PureImage(e, packs, pk, j);
      FleetJob(e, packs, m);
    } else {
      var x :| x in StepsOf(pk) && Base(e, x) == Some(j);
      if pk !in packs {
        NoSteps(e, x);
      }
      StepImage(e, packs, pk, x);
      m := Minted(e, x).value;
      StepsOfPack(pk, x);
      StepsOfAll(packs, x);
      FleetJob(e, packs, m);
    }
  }

  /** Each job of the composed fleet is the image of a job of the engine half or of one pack. */
  lemma ImagedBy(e: Engine, packs: seq<Pack>, m: Job) returns (pk: Pack, j: Job)
    requires Sealed(e, packs) && m in Fleet(e, packs)
    ensures Among(packs, pk) && j in Alone(e, pk) && Image(e, pk, j, m)
  {
    FleetJob(e, packs, m);
    hide Sealed, Alone, Fleet, Image, StepsOf, AllSteps, Renames, IsMinted, Instance, OwnJob;
    if m in PureEngine(e, e.jobs) {
      pk, j := NO_PACK, m;
      PureImage(e, packs, pk, j);
      AloneJob(e, pk, j);
    } else {
      var x :| x in AllSteps(packs) && Minted(e, x) == Some(m);
      pk := x.pk;
      StepsOfAll(packs, x);
      assert Base(e, x).Some?;
      hide Base, Minted;
      j := Base(e, x).value;
      StepImage(e, packs, pk, x);
      AloneJob(e, pk, j);
    }
  }

  /** A job of the composed fleet that has the renamed name of a pack's job is that job's image. */
  lemma SameImage(e: Engine, packs: seq<Pack>, pk: Pack, b: string, m: Job) returns (j: Job)
    requires Sealed(e, packs) && Among(packs, pk) && m in Fleet(e, packs) && Named(m)
    requires Renames(e, pk, b) || !IsMinted(packs, b)
    requires Name(m) == Renamed(e, pk, b)
    ensures j in Alone(e, pk) && Image(e, pk, j, m) && Name(j) == b
  {
    FleetJob(e, packs, m);
    if m in PureEngine(e, e.jobs) {
      j := m;
      PureImage(e, packs, pk, j);
      AloneJob(e, pk, j);
      if Renames(e, pk, b) {
        RenamedIsMinted(e, packs, pk, b);
      }
    } else {
      var x :| x in AllSteps(packs) && Minted(e, x) == Some(m);
      StepsOfAll(packs, x);
      assert Base(e, x).Some?;
      hide Sealed, Alone, Fleet, StepsOf, AllSteps, Base, Minted, IsMinted;
      StepImage(e, packs, x.pk, x);
      MintedIs(packs, x, Name(m));
      assert Renames(e, pk, b);
      var y := StepNamed(e, packs, pk, b);
      hide Renames;
      OneStepOf(e, packs, x, y);
      j := Base(e, x).value;
      AloneJob(e, pk, j);
    }
  }

  lemma MintedIs(packs: seq<Pack>, x: Step, n: string)
    requires x in AllSteps(packs) && MintedName(x) == Some(n)
    ensures IsMinted(packs, n)
  {
    NamesOfSteps(AllSteps(packs), n);
  }

  lemma OneStepOf(e: Engine, packs: seq<Pack>, x: Step, y: Step)
    requires Composable(e, AllSteps(packs)) && x in AllSteps(packs) && y in AllSteps(packs)
    requires MintedName(x).Some? && MintedName(x) == MintedName(y)
    ensures x == y
  {
    OneStepPerName(e, AllSteps(packs), x, y);
  }

  /** The step that renames a name. */
  lemma StepNamed(e: Engine, packs: seq<Pack>, pk: Pack, a: string) returns (x: Step)
    requires Sealed(e, packs) && Among(packs, pk) && Renames(e, pk, a)
    ensures pk in packs && x.pk == pk && x in StepsOf(pk) && x in AllSteps(packs)
    ensures Base(e, x).Some? && Name(Base(e, x).value) == a && MintedName(x) == Some(Renamed(e, pk, a))
  {
    hide Sealed, StepsOf, AllSteps;
    if Owns(pk, a) {
      var j :| j in pk.domain && IsNamed(j, a);
      x := Own(pk, j);
    } else {
      var p :| p in pk.prompts && p.0 == a;
      x := Drive(pk, a, p.1);
      assert (p.0, p.1) == p;
    }
    StepsOfPack(pk, x);
    StepsOfAll(packs, x);
  }

  lemma RenamedIsMinted(e: Engine, packs: seq<Pack>, pk: Pack, a: string)
    requires Sealed(e, packs) && Among(packs, pk) && Renames(e, pk, a)
    ensures IsMinted(packs, Renamed(e, pk, a))
  {
    var x := StepNamed(e, packs, pk, a);
    MintedIs(packs, x, Renamed(e, pk, a));
  }

  /** Renaming tells names apart. */
  lemma RenamedApart(e: Engine, packs: seq<Pack>, pk: Pack, a: string, b: string)
    requires Sealed(e, packs) && Among(packs, pk)
    requires Renames(e, pk, a) || !IsMinted(packs, a)
    requires Renames(e, pk, b) || !IsMinted(packs, b)
    requires Renamed(e, pk, a) == Renamed(e, pk, b)
    ensures a == b
  {
    assert Composable(e, AllSteps(packs));
    hide Composable, Sealed, IsMinted, StepsOf, AllSteps, Base;
    if Renames(e, pk, a) {
      RenamedIsMinted(e, packs, pk, a);
    }
    if Renames(e, pk, b) {
      RenamedIsMinted(e, packs, pk, b);
    }
    if Renames(e, pk, a) && Renames(e, pk, b) {
      var x := StepNamed(e, packs, pk, a);
      var y := StepNamed(e, packs, pk, b);
      OneStepOf(e, packs, x, y);
    }
  }

  // ---------------------------------------------------------------------------------------------
  // The two graphs
  // ---------------------------------------------------------------------------------------------

  lemma Orderables(e: Engine, packs: seq<Pack>)
    requires Sealed(e, packs)
    ensures Orderable(Fleet(e, packs)) && Orderable(Live(Fleet(e, packs)))
    ensures forall pk :: Among(packs, pk) ==> Orderable(Alone(e, pk)) && Orderable(Live(Alone(e, pk)))
  {
    hide Sealed, Fleet, Alone, Among;
    forall m | m in Fleet(e, packs) ensures Named(m) && AfterIterable(m) {
      var pk, j := ImagedBy(e, packs, m);
    }
    forall pk, j | Among(packs, pk) && j in Alone(e, pk) ensures Named(j) && AfterIterable(j) {
      var m := ImageOf(e, packs, pk, j);
    }
    forall pk | Among(packs, pk) ensures Orderable(Alone(e, pk)) && Orderable(Live(Alone(e, pk))) {
    }
  }

  lemma DeployedNames(jobs: seq<Job>, n: string)
    requires Orderable(jobs) && Orderable(Live(jobs))
    ensures n in NamesOf(Live(jobs)) <==> exists j :: j in jobs && Runs(j) && IsNamed(j, n)
  {
    hide Runs, Live;
    var live := Live(jobs);
    if n in NamesOf(live) {
      var i :| 0 <= i < |live| && NamesOf(live)[i] == n;
      assert live[i] in live && IsNamed(live[i], n);
    }
    if exists j :: j in jobs && Runs(j) && IsNamed(j, n) {
      var j :| j in jobs && Runs(j) && IsNamed(j, n);
      NameListed(live, j);
    }
  }

  /** A name the pack may refer to. */
  ghost predicate Covered(e: Engine, packs: seq<Pack>, pk: Pack, a: string) {
    Renames(e, pk, a) || !IsMinted(packs, a)
  }

  lemma EntryCovered(e: Engine, packs: seq<Pack>, pk: Pack, j: Job, v: Value)
    requires Sealed(e, packs) && Among(packs, pk) && j in Alone(e, pk) && AfterIterable(j) && v in After(j) && v.Str?
    ensures Covered(e, packs, pk, v.s)
  {
    AloneJob(e, pk, j);
    if j in PureEngine(e, e.jobs) {
      PureEntries(e, packs, pk, j);
    } else {
      hide Composable, After, IsMinted, Renames, StepsOf, Base;
      var x :| x in StepsOf(pk) && Base(e, x) == Some(j);
      if pk !in packs {
        NoSteps(e, x);
      }
    }
  }

  /** A covered name is deployed alone exactly when its renaming is deployed in the fleet. */
  lemma DeployedIff(e: Engine, packs: seq<Pack>, pk: Pack, a: string)
    requires Sealed(e, packs) && Among(packs, pk) && Covered(e, packs, pk, a)
    requires Orderable(Fleet(e, packs)) && Orderable(Alone(e, pk))
    requires Orderable(Live(Fleet(e, packs))) && Orderable(Live(Alone(e, pk)))
    ensures a in NamesOf(Live(Alone(e, pk))) <==> Renamed(e, pk, a) in NamesOf(Live(Fleet(e, packs)))
  {
    var fleet, alone := Fleet(e, packs), Alone(e, pk);
    DeployedNames(fleet, Renamed(e, pk, a));
    DeployedNames(alone, a);
    hide Sealed, Fleet, Alone, Live, NamesOf, Runs, Renamed, Renames, IsMinted, Among;
    if exists m :: m in fleet && Runs(m) && IsNamed(m, Renamed(e, pk, a)) {
      var m :| m in fleet && Runs(m) && IsNamed(m, Renamed(e, pk, a));
      var j := SameImage(e, packs, pk, a, m);
      assert IsNamed(j, a);
    }
    if exists j :: j in alone && Runs(j) && IsNamed(j, a) {
      var j :| j in alone && Runs(j) && IsNamed(j, a);
      var m := ImageOf(e, packs, pk, j);
      assert IsNamed(m, Renamed(e, pk, a));
    }
  }

  /** Setting shared by the lemmas below: a sealed composition, seen by one pack. */
  ghost predicate Setting(e: Engine, packs: seq<Pack>, pk: Pack) {
    && Sealed(e, packs) && Among(packs, pk)
    && Orderable(Live(Fleet(e, packs))) && Orderable(Live(Alone(e, pk)))
    && Orderable(Fleet(e, packs)) && Orderable(Alone(e, pk))
  }

  lemma SettingHolds(e: Engine, packs: seq<Pack>, pk: Pack)
    requires Sealed(e, packs) && Among(packs, pk)
    ensures Setting(e, packs, pk)
  {
    Orderables(e, packs);
  }

  /** A dependency is good in the fleet exactly when it is good alone. */
  lemma SameGoodEntry(e: Engine, packs: seq<Pack>, pk: Pack, j: Job, m: Job, v: Value)
    requires Setting(e, packs, pk) && j in Alone(e, pk) && Image(e, pk, j, m) && v in After(j)
    ensures GoodEntry(Entry(Name(j), v), NamesOf(Live(Alone(e, pk)))) <==>
            GoodEntry(Entry(Name(m), RenamedEntry(e, pk, v)), NamesOf(Live(Fleet(e, packs))))
  {
    if v.Str? {
      EntryCovered(e, packs, pk, j, v);
      DeployedIff(e, packs, pk, v.s);
      var image := ImageOf(e, packs, pk, j);
      hide Sealed, Fleet, Alone, Live, NamesOf, Renamed, Renames, IsMinted, Among, After;
      if Renamed(e, pk, v.s) == Renamed(e, pk, Name(j)) {
        RenamedApart(e, packs, pk, v.s, Name(j));
      }
    }
  }

  /** The dependency graph of the jobs a fleet deploys. */
  ghost function EdgesOf(jobs: seq<Job>): Edges {
    if Orderable(Live(jobs)) then AfterEdges(Live(jobs)) else {}
  }

  ghost predicate Resolves(jobs: seq<Job>) {
    Orderable(Live(jobs)) && TargetsResolve(Live(jobs))
  }

  lemma EdgeOf(jobs: seq<Job>, j: Job, v: Value)
    requires Orderable(Live(jobs)) && j in Live(jobs) && v in After(j)
              && GoodEntry(Entry(Name(j), v), NamesOf(Live(jobs)))
    ensures (v.s, Name(j)) in EdgesOf(jobs)
  {
    hide NamesOf, After;
  }

  lemma EntryOf(jobs: seq<Job>, d: (string, string)) returns (j: Job, v: Value)
    requires d in EdgesOf(jobs)
    ensures Orderable(Live(jobs)) && j in Live(jobs) && v in After(j)
              && GoodEntry(Entry(Name(j), v), NamesOf(Live(jobs)))
    ensures d == (v.s, Name(j))
  {
    hide NamesOf, After;
    j, v :| j in Live(jobs) && v in After(j) && GoodEntry(Entry(Name(j), v), NamesOf(Live(jobs)))
        && d == (v.s, Name(j));
  }

  lemma EntryImage(e: Engine, pk: Pack, j: Job, m: Job, v: Value)
    requires Image(e, pk, j, m) && v in After(j)
    ensures RenamedEntry(e, pk, v) in After(m)
  {
    hide After, RenamedEntry;
    var i :| 0 <= i < |After(j)| && After(j)[i] == v;
    assert RenamedEntries(e, pk, After(j))[i] == RenamedEntry(e, pk, v);
  }

  lemma EntryPreimage(e: Engine, pk: Pack, j: Job, m: Job, w: Value) returns (v: Value)
    requires Image(e, pk, j, m) && w in After(m)
    ensures v in After(j) && w == RenamedEntry(e, pk, v)
  {
    hide After, RenamedEntry;
    var i :| 0 <= i < |After(m)| && After(m)[i] == w;
    v := After(j)[i];
  }

  /** Renaming carries every edge of a pack's own fleet into the composed one. */
  lemma EdgeForward(e: Engine, packs: seq<Pack>, pk: Pack, d: (string, string))
    requires Setting(e, packs, pk) && d in EdgesOf(Alone(e, pk))
    ensures (Renamed(e, pk, d.0), Renamed(e, pk, d.1)) in EdgesOf(Fleet(e, packs))
  {
    var j, v := EntryOf(Alone(e, pk), d);
    hide Sealed, Fleet, Alone, Among, EdgesOf, NamesOf, After, Renamed;
    var m := ImageOf(e, packs, pk, j);
    SameGoodEntry(e, packs, pk, j, m, v);
    EntryImage(e, pk, j, m, v);
    EdgeOf(Fleet(e, packs), m, RenamedEntry(e, pk, v));
  }

  /** Every edge of the fleet into a renamed name comes from an edge of the pack's own fleet. */
  lemma EdgeBack(e: Engine, packs: seq<Pack>, pk: Pack, u: string, b: string) returns (a: string)
    requires Setting(e, packs, pk) && Covered(e, packs, pk, b)
    requires (u, Renamed(e, pk, b)) in EdgesOf(Fleet(e, packs))
    ensures (a, b) in EdgesOf(Alone(e, pk)) && Renamed(e, pk, a) == u && Covered(e, packs, pk, a)
  {
    var m, w := EntryOf(Fleet(e, packs), (u, Renamed(e, pk, b)));
    hide Sealed, Fleet, Alone, Among, EdgesOf, NamesOf, After, Renames, IsMinted;
    var j := SameImage(e, packs, pk, b, m);
    var v := EntryPreimage(e, pk, j, m, w);
    hide Renamed;
    SameGoodEntry(e, packs, pk, j, m, v);
    EntryCovered(e, packs, pk, j, v);
    a := v.s;
    EdgeOf(Alone(e, pk), j, v);
  }

  function Renaming(e: Engine, pk: Pack): string -> string {
    (a: string) => Renamed(e, pk, a)
  }

  ghost function Covering(e: Engine, packs: seq<Pack>, pk: Pack): string -> bool {
    (a: string) => Covered(e, packs, pk, a)
  }

  /** Renaming is an isomorphism of a pack's own graph onto its part of the composed graph: it carries
      every edge over, leaves no edge into a renamed node unaccounted for, and tells names apart. */
  lemma RenamingIsIsomorphism(e: Engine, packs: seq<Pack>, pk: Pack)
    requires Sealed(e, packs) && Among(packs, pk)
    ensures Carries(EdgesOf(Alone(e, pk)), EdgesOf(Fleet(e, packs)), Renaming(e, pk))
    ensures LiftsBack(EdgesOf(Alone(e, pk)), EdgesOf(Fleet(e, packs)), Renaming(e, pk), Covering(e, packs, pk))
    ensures Apart(Renaming(e, pk), Covering(e, packs, pk))
  {
    SettingHolds(e, packs, pk);
    hide Sealed, Setting, Among, Fleet, Alone, EdgesOf, Renamed, Covered;
    var alone, fleet := EdgesOf(Alone(e, pk)), EdgesOf(Fleet(e, packs));
    forall d | d in alone ensures (Renamed(e, pk, d.0), Renamed(e, pk, d.1)) in fleet {
      EdgeForward(e, packs, pk, d);
    }
    forall u, b | Covered(e, packs, pk, b) && (u, Renamed(e, pk, b)) in fleet
      ensures Lifted(alone, Renaming(e, pk), Covering(e, packs, pk), u, b)
    {
      var a := EdgeBack(e, packs, pk, u, b);
      assert Covering(e, packs, pk)(a) && Renaming(e, pk)(a) == u;
    }
    forall a, b | Covered(e, packs, pk, a) && Covered(e, packs, pk, b) && Renamed(e, pk, a) == Renamed(e, pk, b)
      ensures a == b
    {
      CoveredApart(e, packs, pk, a, b);
    }
  }

  lemma CoveredApart(e: Engine, packs: seq<Pack>, pk: Pack, a: string, b: string)
    requires Sealed(e, packs) && Among(packs, pk)
    requires Covered(e, packs, pk, a) && Covered(e, packs, pk, b) && Renamed(e, pk, a) == Renamed(e, pk, b)
    ensures a == b
  {
    hide Sealed, Among, IsMinted, Renames, Renamed;
    RenamedApart(e, packs, pk, a, b);
  }

  /** A cycle of the fleet is the renaming of a cycle of the engine half or of one pack. */
  lemma CycleBack(e: Engine, packs: seq<Pack>, n: string) returns (pk: Pack, b: string)
    requires Sealed(e, packs) && OnCycle(EdgesOf(Fleet(e, packs)), n)
    ensures Among(packs, pk) && Renamed(e, pk, b) == n && OnCycle(EdgesOf(Alone(e, pk)), b)
  {
    hide Sealed, Fleet, Alone, Among, EdgesOf, Renamed, Live, NamesOf, After, Renames, IsMinted, GoodEntry;
    var p :| WalkFromTo(EdgesOf(Fleet(e, packs)), p, n, n) && |p| >= 2;
    assert (p[|p| - 2], p[|p| - 1]) in EdgesOf(Fleet(e, packs));
    var m, w := EntryOf(Fleet(e, packs), (p[|p| - 2], n));
    var j;
    pk, j := ImagedBy(e, packs, m);
    b := Name(j);
    var image := ImageOf(e, packs, pk, j);
    assert Covering(e, packs, pk)(b) && Renaming(e, pk)(b) == n;
    RenamingIsIsomorphism(e, packs, pk);
    hide Carries, LiftsBack, Apart, OnCycle, Renaming, Covering, Image;
    CycleLifted(EdgesOf(Alone(e, pk)), EdgesOf(Fleet(e, packs)), Renaming(e, pk), Covering(e, packs, pk), b);
  }

  lemma ResolveBack(e: Engine, packs: seq<Pack>, pk: Pack)
    requires Setting(e, packs, pk) && Resolves(Fleet(e, packs))
    ensures Resolves(Alone(e, pk))
  {
    hide Sealed, Fleet, Alone, Among, Renamed, NamesOf, After, GoodEntry;
    var alone, fleet := Live(Alone(e, pk)), Live(Fleet(e, packs));
    forall j, v | j in alone && v in After(j) ensures GoodEntry(Entry(Name(j), v), NamesOf(alone)) {
      var m := ImageOf(e, packs, pk, j);
      assert JobResolves(m, NamesOf(fleet));
      SameGoodEntry(e, packs, pk, j, m, v);
      EntryImage(e, pk, j, m, v);
    }
  }

  lemma ResolveForward(e: Engine, packs: seq<Pack>)
    requires Sealed(e, packs) && Orderable(Live(Fleet(e, packs)))
    requires forall pk :: Among(packs, pk) ==> Setting(e, packs, pk) && Resolves(Alone(e, pk))
    ensures Resolves(Fleet(e, packs))
  {
    hide Sealed, Fleet, Alone, Among, Renamed, NamesOf, After, GoodEntry, Setting, Image;
    var fleet := Live(Fleet(e, packs));
    forall m, w | m in fleet && w in After(m) ensures GoodEntry(Entry(Name(m), w), NamesOf(fleet)) {
      GoodByImage(e, packs, m, w);
    }
  }

  lemma GoodByImage(e: Engine, packs: seq<Pack>, m: Job, w: Value)
    requires Sealed(e, packs) && Orderable(Live(Fleet(e, packs))) && m in Live(Fleet(e, packs)) && w in After(m)
    requires forall pk :: Among(packs, pk) ==> Setting(e, packs, pk) && Resolves(Alone(e, pk))
    ensures GoodEntry(Entry(Name(m), w), NamesOf(Live(Fleet(e, packs))))
  {
    hide Sealed, Fleet, Alone, Among, Renamed, NamesOf, After, GoodEntry, Setting;
    var pk, j := ImagedBy(e, packs, m);
    assert Resolves(Alone(e, pk));
    assert JobResolves(j, NamesOf(Live(Alone(e, pk))));
    var v := EntryPreimage(e, pk, j, m, w);
    SameGoodEntry(e, packs, pk, j, m, v);
  }

  /** The composed fleet can be deployed exactly when the engine half alone and each pack alone can. */
  lemma ComposedSoundIffEachAlone(e: Engine, packs: seq<Pack>)
    requires Sealed(e, packs)
    ensures Orderable(Live(Fleet(e, packs))) && forall pk :: Among(packs, pk) ==> Orderable(Live(Alone(e, pk)))
    ensures OrderingSound(Fleet(e, packs)) <==> forall pk :: Among(packs, pk) ==> OrderingSound(Alone(e, pk))
  {
    Orderables(e, packs);
    forall pk | Among(packs, pk)
      ensures Setting(e, packs, pk) && (Resolves(Fleet(e, packs)) ==> Resolves(Alone(e, pk)))
    {
      SettingHolds(e, packs, pk);
      if Resolves(Fleet(e, packs)) {
        ResolveBack(e, packs, pk);
      }
    }
    if forall pk :: Among(packs, pk) ==> Resolves(Alone(e, pk)) {
      ResolveForward(e, packs);
    }
    CyclesIff(e, packs);
    hide Sealed, Setting, Among, Fleet, Alone, TargetsResolve, AfterEdges, Live, Acyclic;
  }

  lemma CyclesIff(e: Engine, packs: seq<Pack>)
    requires Sealed(e, packs)
    ensures Acyclic(EdgesOf(Fleet(e, packs))) <==> forall pk :: Among(packs, pk) ==> Acyclic(EdgesOf(Alone(e, pk)))
  {
    hide Sealed, Among, Fleet, Alone, EdgesOf, Renamed, OnCycle, Carries, LiftsBack, Apart;
    forall pk, b | Among(packs, pk) && OnCycle(EdgesOf(Alone(e, pk)), b) ensures !Acyclic(EdgesOf(Fleet(e, packs))) {
      RenamingIsIsomorphism(e, packs, pk);
      CycleCarried(EdgesOf(Alone(e, pk)), EdgesOf(Fleet(e, packs)), Renaming(e, pk), b);
    }
    forall n | OnCycle(EdgesOf(Fleet(e, packs)), n)
      ensures exists pk :: Among(packs, pk) && !Acyclic(EdgesOf(Alone(e, pk)))
    {
      var pk, b := CycleBack(e, packs, n);
    }
  }

  // ---------------------------------------------------------------------------------------------
  // Names that cannot reach across
  // ---------------------------------------------------------------------------------------------

  predicate Ordinary(n: string) {
    '@' !in n && ':' !in n
  }

  lemma MintedIsMarked(x: Step)
    ensures MintedName(x).Some? ==> !Ordinary(MintedName(x).value)
  {
    match x
    case Open(_) =>
    case Drive(pk, lane, _) => assert InstanceName(pk, lane)[|lane|] == '@';
    case Own(pk, job) =>
      if Named(job) {
        assert OwnName(pk, Name(job))[|pk.name|] == ':';
      }
  }

  lemma OrdinaryIsNotMinted(packs: seq<Pack>, n: string)
    requires Ordinary(n)
    ensures !IsMinted(packs, n)
  {
    NamesOfSteps(AllSteps(packs), n);
    forall x | x in AllSteps(packs) ensures MintedName(x) != Some(n) {
      MintedIsMarked(x);
    }
  }

  ghost predicate PureName(e: Engine, a: string) {
    exists j :: j in PureEngine(e, e.jobs) && IsNamed(j, a)
  }

  /** With ordinary engine names, it is enough that pure-engine lanes depend on pure-engine lanes, and
      that a pack's jobs depend on those, on lanes the pack drives, and on its own jobs. */
  lemma IsolatedByOrdinaryNames(e: Engine, packs: seq<Pack>)
    requires Readable(e, packs) && Composable(e, AllSteps(packs))
    requires forall j :: j in e.jobs ==> Ordinary(Name(j))
    requires forall j, v :: j in PureEngine(e, e.jobs) && v in After(j) && v.Str? ==> PureName(e, v.s)
    requires forall pk, x, v :: (&& pk in packs && x in StepsOf(pk) && Base(e, x).Some?
                                 && AfterIterable(Base(e, x).value) && v in After(Base(e, x).value) && v.Str?) ==>
               Renames(e, pk, v.s) || PureName(e, v.s)
    ensures Sealed(e, packs)
  {
    forall j | j in e.jobs ensures !IsMinted(packs, Name(j)) {
      OrdinaryIsNotMinted(packs, Name(j));
    }
    forall a | PureName(e, a) ensures !IsMinted(packs, a) && forall pk :: pk in packs ==> !Renames(e, pk, a) {
      var j :| j in PureEngine(e, e.jobs) && IsNamed(j, a);
      assert j in e.jobs;
      forall pk | pk in packs ensures !Renames(e, pk, a) {
        EngineNameNotOwned(e, packs, pk, j);
      }
    }
    hide IsMinted, Renames, PureName, After, StepsOf, Composable;
  }

  lemma EngineNameNotOwned(e: Engine, packs: seq<Pack>, pk: Pack, j: Job)
    requires Composable(e, AllSteps(packs)) && pk in packs && j in e.jobs && Named(j)
    ensures !Owns(pk, Name(j))
  {
    StepsOfPack(pk, Open(pk));
    StepsOfAll(packs, Open(pk));
    SoundStep(e, AllSteps(packs), Open(pk));
    assert IsNamed(j, Name(j));
  }
}
