/** Splitting a fleet into its engine and pack halves and merging it back: `split`, `merge` and `_canon`
    of `scripts/cron_pack_split.py`. */
module CronSplit {
  import opened Jobs
  import PackComposition
  import opened Values
  import opened WriterBinding

  type Tiers = map<string, string>

  datatype Route = ToEngine | ToTemplate | ToDomain | ToExtensions | Unclassified

  /** Where `split` sends a job. */
  function RouteOf(tiers: Tiers, j: Job): Route
    requires Named(j)
  {
    var name := Name(j);
    if Truthy(Get(j, "extension")) then ToExtensions
    else if Truthy(Get(j, "pack")) then ToDomain
    else if name !in tiers then (if '.' in name || ':' in name then ToExtensions else Unclassified)
    else if tiers[name] == "engine" then ToEngine
    else if tiers[name] == "engine-template" then ToTemplate
    else if tiers[name] == "domain" then ToDomain
    else Unclassified
  }

  predicate HasFile(j: Job) {
    Get(j, "prompt_file").Str?
  }

  /** The engine half of an engine job: text its file will supply again is left out. */
  function EngineForm(j: Job): Job {
    if HasFile(j) then j - {"prompt"} else j
  }

  /** The engine half of an engine-template job. */
  function Stub(j: Job): Job {
    j - {"prompt", "prompt_file"}
  }

  function ContractEntry(j: Job): map<string, Value> {
    if Contracted(j) then map["output_contract" := j["output_contract"]] else map[]
  }

  /** What the pack half keeps of an engine-template job's prompt. */
  function PromptValue(j: Job): Option<Value> {
    if HasFile(j) then Some(Obj(map["prompt_file" := j["prompt_file"]] + ContractEntry(j)))
    else if "prompt" !in j then None
    else if Contracted(j) then Some(Obj(map["prompt" := j["prompt"]] + ContractEntry(j)))
    else Some(j["prompt"])
  }

  datatype Parts = Parts(engine: seq<Job>, domain: seq<Job>, prompts: map<string, Value>, extensions: seq<Job>)

  /** One job sorted into its part; nothing when it is unclassified. */
  function Sort(tiers: Tiers, parts: Parts, j: Job): Option<Parts>
    requires Named(j)
  {
    match RouteOf(tiers, j)
    case ToExtensions => Some(parts.(extensions := parts.extensions + [j]))
    case ToDomain => Some(parts.(domain := parts.domain + [j]))
    case ToEngine => Some(parts.(engine := parts.engine + [EngineForm(j)]))
    case ToTemplate =>
      var value := PromptValue(j);
      Some(parts.(engine := parts.engine + [Stub(j)],
                  prompts := if value.Some? then parts.prompts[Name(j) := value.value] else parts.prompts))
    case Unclassified => None
  }

  function SplitJobs(tiers: Tiers, jobs: seq<Job>): Option<Parts>
    requires AllNamed(jobs)
  {
    if jobs == [] then Some(Parts([], [], map[], []))
    else
      match SplitJobs(tiers, jobs[..|jobs| - 1])
      case None => None
      case Some(parts) => Sort(tiers, parts, jobs[|jobs| - 1])
  }

  /** `split` */
  method Split(tiers: Tiers, jobs: seq<Job>) returns (r: Option<Parts>)
    requires AllNamed(jobs)
    ensures r == SplitJobs(tiers, jobs)
  {
    var engine, domain, prompts, extensions := [], [], map[], [];
    assert jobs[..|jobs|] == jobs;
    for i := 0 to |jobs|
      invariant SplitJobs(tiers, jobs[..i]) == Some(Parts(engine, domain, prompts, extensions))
    {
      assert jobs[..i + 1][..i] == jobs[..i];
      var j := jobs[i];
      match RouteOf(tiers, j)
      case ToExtensions => extensions := extensions + [j];
      case ToDomain => domain := domain + [j];
      case ToEngine => engine := engine + [EngineForm(j)];
      case ToTemplate =>
        engine := engine + [Stub(j)];
        var value := PromptValue(j);
        if value.Some? {
          prompts := prompts[Name(j) := value.value];
        }
      case Unclassified =>
        NeverClassified(tiers, jobs, i);
        return None;
    }
    r := Some(Parts(engine, domain, prompts, extensions));
  }

  lemma {:induction false} NeverClassified(tiers: Tiers, jobs: seq<Job>, i: nat)
    requires AllNamed(jobs) && i < |jobs| && RouteOf(tiers, jobs[i]) == Unclassified
    ensures SplitJobs(tiers, jobs).None?
  {
    if i < |jobs| - 1 {
      NeverClassified(tiers, jobs[..|jobs| - 1], i);
    }
  }

  // ---------------------------------------------------------------------------------------------
  // Merging back
  // ---------------------------------------------------------------------------------------------

  /** What merging takes from elsewhere: prompt files (nothing where reading one raises), contract
      composition, and the digest. */
  datatype Hooks = Hooks(files: string -> Option<string>, compose: (Value, Value) -> Option<Value>, digest: Digest)

  /** The empty name is that of the directory, which cannot be read as a file. */
  function ReadFile(h: Hooks, name: string): Option<string> {
    if name == "" then None else h.files(name)
  }

  /** `_load_prompts`, one value; nothing when its file cannot be read. */
  function Resolve(h: Hooks, v: Value): Option<Value> {
    if v.Obj? && Get(v.fields, "prompt_file").Str? then
      match ReadFile(h, v.fields["prompt_file"].s)
      case None => None
      case Some(text) => Some(Obj(v.fields["prompt" := Str(text)]))
    else Some(v)
  }

  /** `_load_prompts`: one file that cannot be read stops the load. */
  function ResolveAll(h: Hooks, prompts: map<string, Value>): Option<map<string, Value>> {
    if exists name :: name in prompts && Resolve(h, prompts[name]).None? then None
    else Some(map name | name in prompts :: Resolve(h, prompts[name]).value)
  }

  /** One engine job with its prompt, if the pack supplies one; nothing when it cannot be read. */
  function Attach(h: Hooks, prompts: map<string, Value>, j: Job): Option<Job>
    requires Named(j)
  {
    if Name(j) !in prompts then Some(j)
    else
      var value := prompts[Name(j)];
      match PackComposition.PromptParts(value)
      case None => None
      case Some((prompt, policy)) =>
        var prompted := j["prompt" := Str(prompt)];
        var filed := if value.Obj? && Get(value.fields, "prompt_file").Str?
                     then prompted["prompt_file" := value.fields["prompt_file"]]
                     else prompted;
        match h.compose(Get(filed, "output_contract"), policy)
        case None => None
        case Some(contract) => Some(filed["output_contract" := contract])
  }

  /** The job ships: `tier_of`, when given, drops a template lane the pack has no prompt for. */
  predicate Ships(tiers: Option<Tiers>, prompts: map<string, Value>, j: Job)
    requires Named(j)
  {
    tiers.Some? && Name(j) in tiers.value && tiers.value[Name(j)] == "engine-template" ==> Name(j) in prompts
  }

  function Attached(h: Hooks, tiers: Option<Tiers>, prompts: map<string, Value>, engine: seq<Job>): Option<seq<Job>>
    requires AllNamed(engine)
  {
    if engine == [] then Some([])
    else
      var j := engine[|engine| - 1];
      match Attached(h, tiers, prompts, engine[..|engine| - 1])
      case None => None
      case Some(out) =>
        if !Ships(tiers, prompts, j) then Some(out)
        else match Attach(h, prompts, j)
             case None => None
             case Some(job) => Some(out + [job])
  }

  function MergeJobs(h: Hooks, tiers: Option<Tiers>, parts: Parts): Option<seq<Job>>
    requires AllNamed(parts.engine)
  {
    match Attached(h, tiers, parts.prompts, parts.engine)
    case None => None
    case Some(out) => Some(BindAll(h.digest, out + parts.domain + parts.extensions))
  }

  /** `merge` */
  method Merge(h: Hooks, tiers: Option<Tiers>, parts: Parts) returns (r: Option<seq<Job>>)
    requires AllNamed(parts.engine)
    ensures r == MergeJobs(h, tiers, parts)
  {
    hide Attach, Ships, BindAll;
    var engine, out: seq<Job> := parts.engine, [];
    assert engine[..|engine|] == engine;
    for i := 0 to |engine|
      invariant Attached(h, tiers, parts.prompts, engine[..i]) == Some(out)
    {
      assert engine[..i + 1][..i] == engine[..i];
      if Ships(tiers, parts.prompts, engine[i]) {
        var job := Attach(h, parts.prompts, engine[i]);
        if job.None? {
          NeverAttached(h, tiers, parts.prompts, engine, i);
          return None;
        }
        out := out + [job.value];
      }
    }
    var bound := BindContractWriters(h.digest, out + parts.domain + parts.extensions);
    r := Some(bound);
  }

  lemma {:induction false} NeverAttached(h: Hooks, tiers: Option<Tiers>, prompts: map<string, Value>, engine: seq<Job>,
                                         i: nat)
    requires AllNamed(engine) && i < |engine| && Ships(tiers, prompts, engine[i]) && Attach(h, prompts, engine[i]).None?
    ensures Attached(h, tiers, prompts, engine).None?
  {
    if i < |engine| - 1 {
      NeverAttached(h, tiers, prompts, engine[..|engine| - 1], i);
    }
  }

  // ---------------------------------------------------------------------------------------------
  // The comparison
  // ---------------------------------------------------------------------------------------------

  /** `source_only`: a prompt its file supplies is not part of the source. */
  function SourceOnly(j: Job): Job {
    if Truthy(Get(j, "prompt_file")) && "prompt" in j then j - {"prompt"} else j
  }

  ghost function Sources(jobs: seq<Job>): seq<Job> {
    seq(|jobs|, i requires 0 <= i < |jobs| => SourceOnly(jobs[i]))
  }

  /** `_canon`, up to the sorting and rendering of its entries. */
  ghost function Canon(jobs: seq<Job>): multiset<Job> {
    multiset(Sources(jobs))
  }
}
