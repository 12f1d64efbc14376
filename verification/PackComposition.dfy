/** N-way composition of packs with the engine half: `merge_packs` of `scripts/cron_pack_split.py`. */
module PackComposition {
  import opened Jobs
  import opened Text
  import opened Values

  /** A pack's own jobs, and its prompts for engine-template lanes in the order it lists them. */
  datatype Pack = Pack(name: string, domain: seq<Job>, prompts: seq<(string, Value)>)

  /** The engine half, its tiers, and contract composition, which refuses some pairs. */
  datatype Engine = Engine(jobs: seq<Job>, tierOf: map<string, string>, compose: (Value, Value) -> Option<Value>)

  datatype ComposeError =
    | Shadows(pack: string, job: string)
    | NotATemplate(pack: string, lane: string)
    | DrivenTwice(lane: string, first: string, second: string)
    | BadPrompt(pack: string, lane: string)
    | Collision(name: string)

  // ---------------------------------------------------------------------------------------------
  // Names
  // ---------------------------------------------------------------------------------------------

  predicate IsTemplate(e: Engine, name: string) {
    name in e.tierOf && e.tierOf[name] == "engine-template"
  }

  predicate IsNamed(j: Job, name: string) {
    Named(j) && Name(j) == name
  }

  /** The job a `{j["name"]: j}` table of `jobs` holds under `name`. */
  function JobNamed(jobs: seq<Job>, name: string): (r: Option<Job>)
    ensures r.Some? ==> r.value in jobs && IsNamed(r.value, name)
    ensures r.None? ==> forall j :: j in jobs ==> !IsNamed(j, name)
  {
    if jobs == [] then None
    else
      var n := |jobs| - 1;
      assert jobs == jobs[..n] + [jobs[n]];
      if IsNamed(jobs[n], name) then Some(jobs[n]) else JobNamed(jobs[..n], name)
  }

  /** The jobs that ship as they are. */
  function PureEngine(e: Engine, jobs: seq<Job>): (r: seq<Job>)
    ensures forall j :: j in r <==> j in jobs && !(Named(j) && IsTemplate(e, Name(j)))
  {
    if jobs == [] then []
    else
      var n := |jobs| - 1;
      assert jobs == jobs[..n] + [jobs[n]];
      PureEngine(e, jobs[..n]) + if Named(jobs[n]) && IsTemplate(e, Name(jobs[n])) then [] else [jobs[n]]
  }

  predicate HasJob(jobs: seq<Job>, name: string) {
    exists j :: j in jobs && IsNamed(j, name)
  }

  predicate Owns(pk: Pack, name: string) {
    HasJob(pk.domain, name)
  }

  /** The pack supplies a prompt for this engine-template lane. */
  predicate Drives(e: Engine, pk: Pack, lane: string) {
    IsTemplate(e, lane) && JobNamed(e.jobs, lane).Some? && exists p :: p in pk.prompts && p.0 == lane
  }

  function OwnName(pk: Pack, name: string): string {
    pk.name + ":" + name
  }

  function InstanceName(pk: Pack, lane: string): string {
    lane + "@" + pk.name
  }

  /** `rename.get(a, a)` */
  function Renamed(e: Engine, pk: Pack, a: string): string {
    if Owns(pk, a) then OwnName(pk, a) else if Drives(e, pk, a) then InstanceName(pk, a) else a
  }

  function RenamedEntry(e: Engine, pk: Pack, v: Value): Value {
    if v.Str? then Str(Renamed(e, pk, v.s)) else v
  }

  function RenamedEntries(e: Engine, pk: Pack, entries: seq<Value>): seq<Value> {
    seq(|entries|, i requires 0 <= i < |entries| => RenamedEntry(e, pk, entries[i]))
  }

  /** `_rewrite_after` */
  function RewriteAfter(e: Engine, pk: Pack, j: Job): Job {
    if Truthy(Get(j, "after")) && AfterIterable(j) then j["after" := List(RenamedEntries(e, pk, After(j)))] else j
  }

  // ---------------------------------------------------------------------------------------------
  // Minted jobs
  // ---------------------------------------------------------------------------------------------

  /** `_prompt_parts` */
  function PromptParts(v: Value): Option<(string, Value)> {
    if v.Str? then Some((v.s, Null))
    else if v.Obj? && Get(v.fields, "prompt").Str? && v.fields.Keys <= {"prompt", "prompt_file", "output_contract"}
    then Some((Get(v.fields, "prompt").s, Get(v.fields, "output_contract")))
    else None
  }

  /** The `<lane>@<pack>` instance, if the prompt can be read and its contract composed. */
  function Instance(e: Engine, pk: Pack, base: Job, lane: string, v: Value): Option<Job> {
    match PromptParts(v)
    case None => None
    case Some((prompt, policy)) =>
      var job := RewriteAfter(e, pk, base)["name" := Str(InstanceName(pk, lane))]["prompt" := Str(prompt)];
      var filed := if v.Obj? && Get(v.fields, "prompt_file").Str?
                   then job["prompt_file" := v.fields["prompt_file"]]
                   else job;
      match e.compose(Get(filed, "output_contract"), policy)
      case None => None
      case Some(contract) => Some(filed["output_contract" := contract])
  }

  /** The `<pack>:<job>` job. */
  function OwnJob(e: Engine, pk: Pack, j: Job): Job
    requires Named(j)
  {
    var job := RewriteAfter(e, pk, j)["name" := Str(OwnName(pk, Name(j)))];
    if "pack" in job then job else job["pack" := Str(pk.name)]
  }

  // ---------------------------------------------------------------------------------------------
  // The composition, step by step
  // ---------------------------------------------------------------------------------------------

  /** What the loops come to, in order: a pack, one of its prompts, one of its own jobs. */
  datatype Step = Open(pk: Pack) | Drive(pk: Pack, lane: string, prompt: Value) | Own(pk: Pack, job: Job)

  function DriveSteps(pk: Pack, prompts: seq<(string, Value)>): seq<Step> {
    seq(|prompts|, i requires 0 <= i < |prompts| => Drive(pk, prompts[i].0, prompts[i].1))
  }

  function OwnSteps(pk: Pack, domain: seq<Job>): seq<Step> {
    seq(|domain|, i requires 0 <= i < |domain| => Own(pk, domain[i]))
  }

  function StepsOf(pk: Pack): seq<Step> {
    [Open(pk)] + DriveSteps(pk, pk.prompts) + OwnSteps(pk, pk.domain)
  }

  function AllSteps(packs: seq<Pack>): seq<Step> {
    if packs == [] then [] else AllSteps(packs[..|packs| - 1]) + StepsOf(packs[|packs| - 1])
  }

  /** The job a step stands for, before renaming. */
  function Base(e: Engine, x: Step): Option<Job> {
    match x
    case Open(_) => None
    case Drive(pk, lane, _) => JobNamed(e.jobs, lane)
    case Own(_, job) => if Named(job) then Some(job) else None
  }

  /** The job it adds to the fleet. */
  function Minted(e: Engine, x: Step): Option<Job> {
    match Base(e, x)
    case None => None
    case Some(base) => if x.Drive? then Instance(e, x.pk, base, x.lane, x.prompt) else Some(OwnJob(e, x.pk, base))
  }

  /** The name it adds. */
  function MintedName(x: Step): Option<string> {
    match x
    case Open(_) => None
    case Drive(pk, lane, _) => Some(InstanceName(pk, lane))
    case Own(pk, job) => if Named(job) then Some(OwnName(pk, Name(job))) else None
  }

  function ToList<T>(v: Option<T>): seq<T> {
    if v.Some? then [v.value] else []
  }

  function MintedJobs(e: Engine, steps: seq<Step>): seq<Job> {
    if steps == [] then [] else MintedJobs(e, steps[..|steps| - 1]) + ToList(Minted(e, steps[|steps| - 1]))
  }

  function MintedNames(steps: seq<Step>): seq<string> {
    if steps == [] then [] else MintedNames(steps[..|steps| - 1]) + ToList(MintedName(steps[|steps| - 1]))
  }

  /** No pack before drives the lane under another name. */
  ghost predicate FreeLane(steps: seq<Step>, pk: Pack, lane: string) {
    forall x :: x in steps && x.Drive? && x.lane == lane ==> x.pk.name == pk.name
  }

  /** A step nothing is wrong with, after the steps before it. */
  ghost predicate Fits(e: Engine, before: seq<Step>, x: Step) {
    match x
    case Open(pk) => forall j :: j in pk.domain && Named(j) ==> JobNamed(e.jobs, Name(j)).None?
    case Drive(pk, lane, _) =>
      IsTemplate(e, lane) && Minted(e, x).Some? && FreeLane(before, pk, lane)
          && InstanceName(pk, lane) !in MintedNames(before)
    case Own(pk, job) => Named(job) && OwnName(pk, Name(job)) !in MintedNames(before)
  }

  ghost predicate Composable(e: Engine, steps: seq<Step>) {
    steps == [] || (Composable(e, steps[..|steps| - 1]) && Fits(e, steps[..|steps| - 1], steps[|steps| - 1]))
  }

  /** The composed fleet. */
  function Fleet(e: Engine, packs: seq<Pack>): seq<Job> {
    PureEngine(e, e.jobs) + MintedJobs(e, AllSteps(packs))
  }

  // ---------------------------------------------------------------------------------------------
  // The composition, as it runs
  // ---------------------------------------------------------------------------------------------

  datatype Progress = Progress(
    out: seq<Job>,
    errors: seq<ComposeError>,
    seen: map<string, string>,
    drivers: map<string, string>)

  ghost predicate Holds(e: Engine, s: Progress, steps: seq<Step>) {
    && s.out == PureEngine(e, e.jobs) + MintedJobs(e, steps)
    && (forall n :: n in s.seen <==> n in MintedNames(steps))
    && (forall lane :: lane in s.drivers <==> exists x :: x in steps && x.Drive? && x.lane == lane)
    && (forall x :: x in steps && x.Drive? ==> x.lane in s.drivers && s.drivers[x.lane] == x.pk.name)
  }

  /** The progress tells whether anything was wrong, and when nothing was, what the steps amount to. */
  ghost predicate Tracks(e: Engine, s: Progress, steps: seq<Step>) {
    && (s.errors == [] <==> Composable(e, steps))
    && (Composable(e, steps) ==> Holds(e, s, steps))
  }

  lemma OneMore(e: Engine, steps: seq<Step>, x: Step)
    ensures MintedNames(steps + [x]) == MintedNames(steps) + ToList(MintedName(x))
    ensures MintedJobs(e, steps + [x]) == MintedJobs(e, steps) + ToList(Minted(e, x))
    ensures Composable(e, steps + [x]) <==> Composable(e, steps) && Fits(e, steps, x)
  {
    assert (steps + [x])[..|steps|] == steps;
  }

  /** `domain_shadow_errors` */
  method ShadowErrors(e: Engine, pk: Pack) returns (errors: seq<ComposeError>)
    requires AllNamed(pk.domain)
    ensures errors == [] <==> forall j :: j in pk.domain && Named(j) ==> JobNamed(e.jobs, Name(j)).None?
    ensures forall x :: x in errors <==>
              x.Shadows? && x.pack == pk.name && Owns(pk, x.job) && JobNamed(e.jobs, x.job).Some?
  {
    var names: seq<string> := [];
    assert pk.domain[..|pk.domain|] == pk.domain;
    for i := 0 to |pk.domain|
      invariant forall n :: n in names <==> JobNamed(e.jobs, n).Some? && HasJob(pk.domain[..i], n)
    {
      hide HasJob, JobNamed;
      HasJobOneMore(pk.domain, i);
      var n := Name(pk.domain[i]);
      if JobNamed(e.jobs, n).Some? && n !in names {
        names := names + [n];
      }
    }
    hide HasJob, JobNamed;
    var sorted := Sorted(names);
    PermutationKeeps(names, sorted);
    errors := seq(|sorted|, i requires 0 <= i < |sorted| => Shadows(pk.name, sorted[i]));
    ShadowsReported(e, pk, sorted, errors);
  }

  lemma HasJobOneMore(jobs: seq<Job>, i: nat)
    requires i < |jobs| && Named(jobs[i])
    ensures forall n :: HasJob(jobs[..i + 1], n) <==> HasJob(jobs[..i], n) || n == Name(jobs[i])
  {
    assert jobs[..i + 1] == jobs[..i] + [jobs[i]];
    assert IsNamed(jobs[i], Name(jobs[i]));
  }

  lemma ShadowsReported(e: Engine, pk: Pack, names: seq<string>, errors: seq<ComposeError>)
    requires AllNamed(pk.domain)
    requires forall n :: n in names <==> JobNamed(e.jobs, n).Some? && Owns(pk, n)
    requires |errors| == |names| && forall i :: 0 <= i < |names| ==> errors[i] == Shadows(pk.name, names[i])
    ensures errors == [] <==> forall j :: j in pk.domain && Named(j) ==> JobNamed(e.jobs, Name(j)).None?
    ensures forall x :: x in errors <==>
              x.Shadows? && x.pack == pk.name && Owns(pk, x.job) && JobNamed(e.jobs, x.job).Some?
  {
    hide JobNamed;
    forall x: ComposeError | x.Shadows? && x.pack == pk.name && x.job in names ensures x in errors {
      var i :| 0 <= i < |names| && names[i] == x.job;
      assert errors[i] == x;
    }
    forall j | j in pk.domain && Named(j) && JobNamed(e.jobs, Name(j)).Some?
      ensures Shadows(pk.name, Name(j)) in errors
    {
      assert IsNamed(j, Name(j));
      assert Name(j) in names;
    }
    if errors != [] {
      assert names[0] in names;
    }
  }

  /** A lane the pack drives: one turn of the loop over its prompts. */
  method DriveLane(e: Engine, pk: Pack, lane: string, prompt: Value, s: Progress, ghost steps: seq<Step>)
    returns (r: Progress)
    requires Tracks(e, s, steps)
    ensures Tracks(e, r, steps + [Drive(pk, lane, prompt)])
  {
    ghost var x := Drive(pk, lane, prompt);
    OneMore(e, steps, x);
    hide Composable, MintedJobs, MintedNames, PureEngine, Instance, InstanceName;
    var base := JobNamed(e.jobs, lane);
    if base.None? || !IsTemplate(e, lane) {
      return s.(errors := s.errors + [NotATemplate(pk.name, lane)]);
    }
    var drivers := if lane in s.drivers then s.drivers else s.drivers[lane := pk.name];
    if drivers[lane] != pk.name {
      return s.(errors := s.errors + [DrivenTwice(lane, drivers[lane], pk.name)]);
    }
    var job := Instance(e, pk, base.value, lane, prompt);
    if job.None? {
      return s.(errors := s.errors + [BadPrompt(pk.name, lane)], drivers := drivers);
    }
    var name := InstanceName(pk, lane);
    var errors := if name in s.seen then s.errors + [Collision(name)] else s.errors;
    r := Progress(s.out + [job.value], errors, s.seen[name := pk.name], drivers);
  }

  /** A job of the pack's own: one turn of the loop over its domain jobs. */
  method AddOwn(e: Engine, pk: Pack, j: Job, s: Progress, ghost steps: seq<Step>) returns (r: Progress)
    requires Named(j) && Tracks(e, s, steps)
    ensures Tracks(e, r, steps + [Own(pk, j)])
  {
    OneMore(e, steps, Own(pk, j));
    hide Composable, MintedJobs, MintedNames, PureEngine, OwnJob, OwnName;
    var name := OwnName(pk, Name(j));
    var errors := if name in s.seen then s.errors + [Collision(name)] else s.errors;
    r := Progress(s.out + [OwnJob(e, pk, j)], errors, s.seen[name := pk.name], s.drivers);
  }

  /** One turn of the loop over the packs. */
  method AddPack(e: Engine, pk: Pack, s0: Progress, ghost steps: seq<Step>) returns (s: Progress)
    requires AllNamed(pk.domain) && Tracks(e, s0, steps)
    ensures Tracks(e, s, steps + StepsOf(pk))
  {
    hide Tracks, Minted, Fits;
    var shadows := ShadowErrors(e, pk);
    OpenTracked(e, pk, s0, steps, shadows);
    s := s0.(errors := s0.errors + shadows);
    ghost var entered := steps + [Open(pk)];
    assert entered + DriveSteps(pk, []) == entered;
    for i := 0 to |pk.prompts|
      invariant Tracks(e, s, entered + DriveSteps(pk, pk.prompts[..i]))
    {
      assert entered + DriveSteps(pk, pk.prompts[..i + 1])
          == entered + DriveSteps(pk, pk.prompts[..i]) + [Drive(pk, pk.prompts[i].0, pk.prompts[i].1)];
      s := DriveLane(e, pk, pk.prompts[i].0, pk.prompts[i].1, s, entered + DriveSteps(pk, pk.prompts[..i]));
    }
    assert pk.prompts[..|pk.prompts|] == pk.prompts;
    ghost var driven := entered + DriveSteps(pk, pk.prompts);
    assert driven + OwnSteps(pk, []) == driven;
    for i := 0 to |pk.domain|
      invariant Tracks(e, s, driven + OwnSteps(pk, pk.domain[..i]))
    {
      assert driven + OwnSteps(pk, pk.domain[..i + 1])
          == driven + OwnSteps(pk, pk.domain[..i]) + [Own(pk, pk.domain[i])];
      s := AddOwn(e, pk, pk.domain[i], s, driven + OwnSteps(pk, pk.domain[..i]));
    }
    assert pk.domain[..|pk.domain|] == pk.domain;
    assert driven + OwnSteps(pk, pk.domain) == steps + StepsOf(pk);
  }

  lemma OpenTracked(e: Engine, pk: Pack, s: Progress, steps: seq<Step>, shadows: seq<ComposeError>)
    requires Tracks(e, s, steps)
    requires shadows == [] <==> forall j :: j in pk.domain && Named(j) ==> JobNamed(e.jobs, Name(j)).None?
    ensures Tracks(e, s.(errors := s.errors + shadows), steps + [Open(pk)])
  {
    OneMore(e, steps, Open(pk));
    hide Composable, MintedJobs, MintedNames, PureEngine;
  }

  // ---------------------------------------------------------------------------------------------
  // What the composed fleet holds
  // ---------------------------------------------------------------------------------------------

  /** The text of a prompt entry: the entry itself, or its `prompt`. */
  function TextOf(v: Value): Value {
    if v.Obj? then Get(v.fields, "prompt") else v
  }

  /** The contract a prompt entry brings. */
  function PolicyOf(v: Value): Value {
    if v.Obj? then Get(v.fields, "output_contract") else Null
  }

  /** A dependency as a job of the pack states it: the pack's own jobs go by `<pack>:<job>`, the lanes it
      drives by `<lane>@<pack>`, everything else by its own name. */
  ghost predicate RenamedTo(e: Engine, pk: Pack, v: Value, w: Value) {
    if !v.Str? then w == v
    else if exists d :: d in pk.domain && IsNamed(d, v.s) then w == Str(pk.name + ":" + v.s)
    else if v.s in e.tierOf && e.tierOf[v.s] == "engine-template" && (exists b :: b in e.jobs && IsNamed(b, v.s))
            && (exists p :: p in pk.prompts && p.0 == v.s) then w == Str(v.s + "@" + pk.name)
    else w == v
  }

  /** `j` states the dependencies of `base`, renamed, in order; an empty list of them is left alone. */
  ghost predicate DependsAlike(e: Engine, pk: Pack, base: Job, j: Job) {
    if Truthy(Get(base, "after")) && AfterIterable(base) then
      && Get(j, "after").List? && |Get(j, "after").items| == |After(base)|
      && forall i :: 0 <= i < |After(base)| ==> RenamedTo(e, pk, After(base)[i], Get(j, "after").items[i])
    else Held(j, "after") == Held(base, "after")
  }

  /** `j` is the last engine job of that name, as the pack drives it: with the pack's prompt, its prompt
      file if it names one, and the pack's contract composed onto the engine's. */
  ghost predicate DrivenAs(e: Engine, pk: Pack, lane: string, v: Value, j: Job) {
    exists i :: 0 <= i < |e.jobs| && IsNamed(e.jobs[i], lane) && DrivenFrom(e, pk, lane, v, e.jobs[i], j)
             && forall k :: i < k < |e.jobs| ==> !IsNamed(e.jobs[k], lane)
  }

  ghost predicate DrivenFrom(e: Engine, pk: Pack, lane: string, v: Value, base: Job, j: Job) {
    && Held(j, "name") == Some(Str(lane + "@" + pk.name))
    && Held(j, "prompt") == Some(TextOf(v)) && TextOf(v).Str?
    && Held(j, "prompt_file") == (if v.Obj? && Get(v.fields, "prompt_file").Str? then Some(v.fields["prompt_file"])
                                  else Held(base, "prompt_file"))
    && Held(j, "output_contract") == e.compose(Get(base, "output_contract"), PolicyOf(v))
    && DependsAlike(e, pk, base, j)
    && forall key :: key !in {"name", "prompt", "prompt_file", "output_contract", "after"} ==>
        Held(j, key) == Held(base, key)
  }

  /** `j` is the pack's job `d`, prefixed and marked with the pack unless it carries a mark. */
  ghost predicate PrefixedAs(e: Engine, pk: Pack, d: Job, j: Job) {
    && Named(d) && Held(j, "name") == Some(Str(pk.name + ":" + Name(d)))
    && Held(j, "pack") == (if "pack" in d then Some(d["pack"]) else Some(Str(pk.name)))
    && DependsAlike(e, pk, d, j)
    && forall key :: key !in {"name", "pack", "after"} ==> Held(j, key) == Held(d, key)
  }

  /** What one pack adds: an instance for each of its prompts, then each of its own jobs. */
  ghost predicate AddedBy(e: Engine, pk: Pack, jobs: seq<Job>) {
    var n := |pk.prompts|;
    && |jobs| == n + |pk.domain|
    && (forall i :: 0 <= i < n ==> DrivenAs(e, pk, pk.prompts[i].0, pk.prompts[i].1, jobs[i]))
    && (forall i :: 0 <= i < |pk.domain| ==> PrefixedAs(e, pk, pk.domain[i], jobs[n + i]))
  }

  /** The engine jobs that are no templates, as they are, then what each pack adds. */
  ghost predicate ComposedOf(e: Engine, packs: seq<Pack>, out: seq<Job>) {
    if packs == [] then out == PureEngine(e, e.jobs)
    else
      var pk := packs[|packs| - 1];
      var n := |out| - (|pk.prompts| + |pk.domain|);
      n >= 0 && ComposedOf(e, packs[..|packs| - 1], out[..n]) && AddedBy(e, pk, out[n..])
  }

  lemma RenamedIs(e: Engine, pk: Pack, v: Value)
    ensures RenamedTo(e, pk, v, RenamedEntry(e, pk, v))
  {
    if v.Str? {
      assert JobNamed(e.jobs, v.s).Some? <==> exists b :: b in e.jobs && IsNamed(b, v.s);
      hide JobNamed, IsNamed;
    }
  }

  lemma RewrittenAlike(e: Engine, pk: Pack, base: Job, j: Job)
    requires Held(j, "after") == Held(RewriteAfter(e, pk, base), "after")
    ensures DependsAlike(e, pk, base, j)
  {
    if Truthy(Get(base, "after")) && AfterIterable(base) {
      forall i | 0 <= i < |After(base)| ensures RenamedTo(e, pk, After(base)[i], Get(j, "after").items[i]) {
        RenamedIs(e, pk, After(base)[i]);
      }
    }
  }

  lemma InstanceIsDriven(e: Engine, pk: Pack, base: Job, lane: string, v: Value)
    requires Instance(e, pk, base, lane, v).Some?
    ensures DrivenFrom(e, pk, lane, v, base, Instance(e, pk, base, lane, v).value)
  {
    var j := Instance(e, pk, base, lane, v).value;
    var r := RewriteAfter(e, pk, base);
    assert forall key :: key != "after" ==> Held(r, key) == Held(base, key) && Get(r, key) == Get(base, key);
    hide RewriteAfter;
    assert Held(j, "after") == Held(r, "after");
    RewrittenAlike(e, pk, base, j);
    hide DependsAlike;
  }

  lemma OwnIsPrefixed(e: Engine, pk: Pack, d: Job)
    requires Named(d)
    ensures PrefixedAs(e, pk, d, OwnJob(e, pk, d))
  {
    var j, r := OwnJob(e, pk, d), RewriteAfter(e, pk, d);
    assert forall key :: key != "after" ==> Held(r, key) == Held(d, key);
    hide RewriteAfter;
    assert Held(j, "after") == Held(r, "after");
    RewrittenAlike(e, pk, d, j);
    hide DependsAlike;
  }

  lemma MintedIsDriven(e: Engine, pk: Pack, lane: string, v: Value)
    requires Minted(e, Drive(pk, lane, v)).Some?
    ensures DrivenAs(e, pk, lane, v, Minted(e, Drive(pk, lane, v)).value)
  {
    var i := LastNamed(e.jobs, lane);
    InstanceIsDriven(e, pk, e.jobs[i], lane, v);
    hide Instance, DrivenFrom, JobNamed;
  }

  lemma {:induction false} LastNamed(jobs: seq<Job>, name: string) returns (i: nat)
    requires JobNamed(jobs, name).Some?
    ensures i < |jobs| && jobs[i] == JobNamed(jobs, name).value && IsNamed(jobs[i], name)
    ensures forall k :: i < k < |jobs| ==> !IsNamed(jobs[k], name)
    decreases |jobs|
  {
    i := |jobs| - 1;
    if !IsNamed(jobs[i], name) {
      i := LastNamed(jobs[..i], name);
    }
  }

  lemma {:induction false} MintedJoined(e: Engine, a: seq<Step>, b: seq<Step>)
    ensures MintedJobs(e, a + b) == MintedJobs(e, a) + MintedJobs(e, b)
    decreases |b|
  {
    hide Minted;
    if b == [] {
      assert a + b == a;
    } else {
      var n := |b| - 1;
      assert (a + b)[..|a| + n] == a + b[..n];
      MintedJoined(e, a, b[..n]);
    }
  }

  /** Steps that each add a job add them one by one. */
  lemma {:induction false} MintedOneByOne(e: Engine, steps: seq<Step>)
    requires forall i :: 0 <= i < |steps| ==> Minted(e, steps[i]).Some?
    ensures |MintedJobs(e, steps)| == |steps|
    ensures forall i :: 0 <= i < |steps| ==> MintedJobs(e, steps)[i] == Minted(e, steps[i]).value
    decreases |steps|
  {
    hide Minted;
    if steps != [] {
      MintedOneByOne(e, steps[..|steps| - 1]);
    }
  }

  lemma {:induction false} ComposableFits(e: Engine, steps: seq<Step>, i: nat)
    requires Composable(e, steps) && i < |steps|
    ensures Fits(e, steps[..i], steps[i])
    decreases |steps|
  {
    hide Fits;
    var n := |steps| - 1;
    if i < n {
      ComposableFits(e, steps[..n], i);
      assert steps[..n][..i] == steps[..i];
    }
  }

  lemma FitsMints(e: Engine, before: seq<Step>, x: Step)
    requires Fits(e, before, x) && !x.Open?
    ensures Minted(e, x).Some?
  {
    hide Instance, OwnJob, FreeLane, MintedNames;
  }

  /** What a pack's prompts and own jobs come to. */
  function Adding(pk: Pack): seq<Step> {
    DriveSteps(pk, pk.prompts) + OwnSteps(pk, pk.domain)
  }

  lemma AllMint(e: Engine, pk: Pack, before: seq<Step>)
    requires Composable(e, before + StepsOf(pk))
    ensures forall i :: 0 <= i < |Adding(pk)| ==> Minted(e, Adding(pk)[i]).Some?
  {
    var steps := before + StepsOf(pk);
    hide Composable, Minted, Fits;
    forall i | 0 <= i < |Adding(pk)| ensures Minted(e, Adding(pk)[i]).Some? {
      var k := |before| + 1 + i;
      assert steps[k] == Adding(pk)[i];
      ComposableFits(e, steps, k);
      FitsMints(e, steps[..k], steps[k]);
    }
  }

  lemma AddingIs(pk: Pack)
    ensures |Adding(pk)| == |pk.prompts| + |pk.domain|
    ensures forall i :: 0 <= i < |pk.prompts| ==> Adding(pk)[i] == Drive(pk, pk.prompts[i].0, pk.prompts[i].1)
    ensures forall i :: 0 <= i < |pk.domain| ==> Adding(pk)[|pk.prompts| + i] == Own(pk, pk.domain[i])
  {
  }

  lemma PackMints(e: Engine, pk: Pack)
    requires forall i :: 0 <= i < |Adding(pk)| ==> Minted(e, Adding(pk)[i]).Some?
    ensures MintedJobs(e, StepsOf(pk)) == MintedJobs(e, Adding(pk)) && |MintedJobs(e, Adding(pk))| == |Adding(pk)|
    ensures forall i :: 0 <= i < |Adding(pk)| ==> MintedJobs(e, Adding(pk))[i] == Minted(e, Adding(pk)[i]).value
  {
    assert StepsOf(pk) == [Open(pk)] + Adding(pk);
    hide Minted, MintedJobs, Adding, StepsOf;
    MintedJoined(e, [Open(pk)], Adding(pk));
    OpenMintsNothing(e, pk);
    MintedOneByOne(e, Adding(pk));
  }

  lemma PackAdds(e: Engine, pk: Pack, before: seq<Step>)
    requires Composable(e, before + StepsOf(pk))
    ensures AddedBy(e, pk, MintedJobs(e, StepsOf(pk)))
  {
    var n := |pk.prompts|;
    hide Composable, Minted, MintedJobs, Adding, StepsOf, DrivenAs, PrefixedAs;
    AllMint(e, pk, before);
    AddingIs(pk);
    PackMints(e, pk);
    var jobs := MintedJobs(e, Adding(pk));
    forall i | 0 <= i < n ensures DrivenAs(e, pk, pk.prompts[i].0, pk.prompts[i].1, jobs[i]) {
      PromptMints(e, pk, i);
    }
    forall i | 0 <= i < |pk.domain| ensures PrefixedAs(e, pk, pk.domain[i], jobs[n + i]) {
      OwnMintsAt(e, pk, i);
    }
  }

  lemma PromptMints(e: Engine, pk: Pack, i: nat)
    requires i < |pk.prompts| <= |Adding(pk)| && Minted(e, Adding(pk)[i]).Some?
    ensures DrivenAs(e, pk, pk.prompts[i].0, pk.prompts[i].1, Minted(e, Adding(pk)[i]).value)
  {
    AddingIs(pk);
    hide Adding, Minted, DrivenAs;
    MintedIsDriven(e, pk, pk.prompts[i].0, pk.prompts[i].1);
  }

  lemma OwnMintsAt(e: Engine, pk: Pack, i: nat)
    requires i < |pk.domain| && |pk.prompts| + i < |Adding(pk)| && Minted(e, Adding(pk)[|pk.prompts| + i]).Some?
    ensures PrefixedAs(e, pk, pk.domain[i], Minted(e, Adding(pk)[|pk.prompts| + i]).value)
  {
    AddingIs(pk);
    hide Adding, Minted, PrefixedAs;
    OwnMints(e, pk, pk.domain[i]);
  }

  lemma OpenMintsNothing(e: Engine, pk: Pack)
    ensures MintedJobs(e, [Open(pk)]) == []
  {
    assert [Open(pk)][..0] == [];
  }

  lemma OwnMints(e: Engine, pk: Pack, d: Job)
    requires Minted(e, Own(pk, d)).Some?
    ensures PrefixedAs(e, pk, d, Minted(e, Own(pk, d)).value)
  {
    OwnIsPrefixed(e, pk, d);
  }

  /** A fleet that composes holds what it should, whoever computed it. */
  lemma {:induction false} FleetIsComposed(e: Engine, packs: seq<Pack>)
    requires Composable(e, AllSteps(packs))
    ensures ComposedOf(e, packs, Fleet(e, packs))
    decreases |packs|
  {
    hide Composable, AddedBy, MintedJobs, StepsOf;
    if packs != [] {
      var n := |packs| - 1;
      var before := AllSteps(packs[..n]);
      ComposablePrefix(e, before, StepsOf(packs[n]));
      FleetIsComposed(e, packs[..n]);
      PackAdds(e, packs[n], before);
      MintedJoined(e, before, StepsOf(packs[n]));
      var added := MintedJobs(e, StepsOf(packs[n]));
      AddedCount(e, packs[n], added);
      assert Fleet(e, packs) == Fleet(e, packs[..n]) + added;
      hide Fleet;
      OnePackMore(e, packs, Fleet(e, packs[..n]), added);
    } else {
      assert MintedJobs(e, []) == [] by { NoneMinted(e); }
    }
  }

  lemma NoneMinted(e: Engine)
    ensures MintedJobs(e, []) == []
  {
  }

  lemma OnePackMore(e: Engine, packs: seq<Pack>, before: seq<Job>, added: seq<Job>)
    requires packs != [] && ComposedOf(e, packs[..|packs| - 1], before) && AddedBy(e, packs[|packs| - 1], added)
    requires |added| == |packs[|packs| - 1].prompts| + |packs[|packs| - 1].domain|
    ensures ComposedOf(e, packs, before + added)
  {
    var out := before + added;
    assert out[..|before|] == before && out[|before|..] == added;
    hide AddedBy;
  }

  lemma AddedCount(e: Engine, pk: Pack, jobs: seq<Job>)
    requires AddedBy(e, pk, jobs)
    ensures |jobs| == |pk.prompts| + |pk.domain|
  {
  }

  lemma {:induction false} ComposablePrefix(e: Engine, a: seq<Step>, b: seq<Step>)
    requires Composable(e, a + b)
    ensures Composable(e, a)
    decreases |b|
  {
    hide Fits;
    if b == [] {
      assert a + b == a;
    } else {
      var n := |b| - 1;
      assert (a + b)[..|a| + n] == a + b[..n];
      ComposablePrefix(e, a, b[..n]);
    }
  }

  /** `merge_packs`: errors exactly when the packs do not compose, and the composed fleet otherwise. */
  method MergePacks(e: Engine, packs: seq<Pack>) returns (out: seq<Job>, errors: seq<ComposeError>)
    requires Orderable(e.jobs) && forall pk :: pk in packs ==> Orderable(pk.domain)
    ensures errors == [] <==> Composable(e, AllSteps(packs))
    ensures errors == [] ==> out == Fleet(e, packs) && ComposedOf(e, packs, out)
  {
    hide Composable, MintedJobs, PureEngine, StepsOf, ComposedOf, Fleet;
    var s := Progress(PureEngine(e, e.jobs), [], map[], map[]);
    Started(e, s);
    hide Tracks;
    for i := 0 to |packs|
      invariant Tracks(e, s, AllSteps(packs[..i]))
    {
      assert packs[..i + 1][..i] == packs[..i];
      s := AddPack(e, packs[i], s, AllSteps(packs[..i]));
    }
    assert packs[..|packs|] == packs;
    Ended(e, s, packs);
    if s.errors == [] {
      FleetIsComposed(e, packs);
    }
    return s.out, s.errors;
  }

  lemma Started(e: Engine, s: Progress)
    requires s == Progress(PureEngine(e, e.jobs), [], map[], map[])
    ensures Tracks(e, s, AllSteps([]))
  {
  }

  lemma Ended(e: Engine, s: Progress, packs: seq<Pack>)
    requires Tracks(e, s, AllSteps(packs))
    ensures s.errors == [] <==> Composable(e, AllSteps(packs))
    ensures s.errors == [] ==> s.out == Fleet(e, packs)
  {
  }
}
