/** The boundary is lossless: splitting a bound fleet and merging the parts gives its sources back. */
module CronRoundTrip {
  import opened CronSplit
  import opened Graphs
  import opened Jobs
  import opened Values
  import opened WriterBinding

  /** The prompt of an engine-template lane comes from a file that can be read, or is text, or absent. */
  predicate PromptKept(h: Hooks, j: Job) {
    if "prompt_file" in j then j["prompt_file"].Str? && ReadFile(h, j["prompt_file"].s).Some?
    else "prompt" in j ==> j["prompt"].Str?
  }

  predicate ContractKept(h: Hooks, j: Job) {
    Contracted(j) && h.compose(j["output_contract"], j["output_contract"]) == Some(j["output_contract"])
  }

  /** What a job must be for its prompt to survive the boundary: the file an engine job's prompt comes from
      has a name; an engine-template lane's prompt is kept, and if it has one its contract composes with
      itself. */
  predicate Keepable(h: Hooks, tiers: Tiers, j: Job)
    requires Named(j)
  {
    match RouteOf(tiers, j)
    case ToEngine => HasFile(j) && "prompt" in j ==> j["prompt_file"] != Str("")
    case ToTemplate =>
      PromptKept(h, j) && (PromptValue(j).Some? ==> ContractKept(h, j))
    case ToDomain => true
    case ToExtensions => true
    case Unclassified => false
  }

  /** A fleet the boundary keeps: unique names, every job classified, keepable and already bound; when
      lanes without a prompt are dropped, every engine-template lane has one. */
  ghost predicate Splittable(h: Hooks, tiers: Tiers, dropping: Option<Tiers>, jobs: seq<Job>) {
    && AllNamed(jobs)
    && Distinct(NamesOf(jobs))
    && (forall j :: j in jobs ==> Keepable(h, tiers, j) && Bind(h.digest, j) == j)
    && (dropping.Some? ==>
          && dropping.value == tiers
          && forall j :: j in jobs && RouteOf(tiers, j) == ToTemplate ==> PromptValue(j).Some?)
  }

  // ---------------------------------------------------------------------------------------------
  // One job
  // ---------------------------------------------------------------------------------------------

  function NoPrompt(j: Job): Job {
    j - {"prompt"}
  }

  /** Jobs that differ in their prompt only. */
  predicate SameButPrompt(a: Job, b: Job) {
    NoPrompt(a) == NoPrompt(b)
  }

  lemma SameButPromptAt(a: Job, b: Job, key: string)
    requires SameButPrompt(a, b) && key != "prompt"
    ensures Held(a, key) == Held(b, key) && Get(a, key) == Get(b, key)
  {
    assert Held(NoPrompt(a), key) == Held(NoPrompt(b), key);
  }

  lemma BindingKeepsSameness(digest: Digest, a: Job, b: Job)
    requires SameButPrompt(a, b)
    ensures SameButPrompt(Bind(digest, a), Bind(digest, b))
    ensures "prompt" in Bind(digest, a) <==> "prompt" in a
    ensures Held(Bind(digest, a), "prompt_file") == Held(a, "prompt_file")
  {
    SameTools(digest, a, b);
    var ta, tb := WithTools(digest, a), WithTools(digest, b);
    ToolsKeep(digest, a);
    hide WithTools;
    SamePublished(ta, tb);
    PublishKeeps(digest, ta);
  }

  lemma ToolsKeep(digest: Digest, a: Job)
    ensures "prompt" in WithTools(digest, a) <==> "prompt" in a
    ensures Held(WithTools(digest, a), "prompt_file") == Held(a, "prompt_file")
  {
    hide BoundTools, ContractWriterName, UnboundedWriterName, Tools, NameText, Agent, Contracted;
  }

  lemma SameTools(digest: Digest, a: Job, b: Job)
    requires SameButPrompt(a, b)
    ensures SameButPrompt(WithTools(digest, a), WithTools(digest, b))
  {
    SameButPromptAt(a, b, "no_agent");
    SameButPromptAt(a, b, "output_contract");
    SameButPromptAt(a, b, "name");
    SameButPromptAt(a, b, TOOLSETS);
    assert Agent(a) == Agent(b) && Contracted(a) == Contracted(b) && NameText(a) == NameText(b) && Tools(a) == Tools(b);
    hide BoundTools, ContractWriterName, UnboundedWriterName, Tools, NameText, Agent, Contracted;
    if Agent(a) && Contracted(a) {
      SetSame(a, b, TOOLSETS, WithTools(digest, a)[TOOLSETS]);
    }
  }

  lemma SetSame(a: Job, b: Job, key: string, v: Value)
    requires SameButPrompt(a, b)
    ensures SameButPrompt(a[key := v], b[key := v])
  {
    var x, y := NoPrompt(a[key := v]), NoPrompt(b[key := v]);
    forall k ensures Held(x, k) == Held(y, k) {
      if k != "prompt" {
        SameButPromptAt(a, b, k);
      }
    }
    SameLookups(x, y);
  }

  lemma SamePublished(a: Job, b: Job)
    requires SameButPrompt(a, b)
    ensures SameButPrompt(Publish(a), Publish(b))
  {
    SameButPromptAt(a, b, "no_agent");
    SameButPromptAt(a, b, "env");
    SameButPromptAt(a, b, TOOLSETS);
    assert Agent(a) == Agent(b) && Tools(a) == Tools(b) && EnvOf(a) == EnvOf(b);
    hide PublishedPrompt, ToolPrefix, WritersAmong, Tools, Agent, EnvOf;
    if Publishes(a) {
      var prefix := PrefixOf(a);
      hide PrefixOf, Publishes;
      var pa := if "prompt" in a then a["prompt" := PublishedPrompt(a["prompt"], prefix)] else a;
      var pb := if "prompt" in b then b["prompt" := PublishedPrompt(b["prompt"], prefix)] else b;
      assert SameButPrompt(pa, a) && SameButPrompt(pb, b);
      SetSame(pa, pb, "env", Obj(EnvOf(a)[PREFIX_ENV := Str(prefix)]));
    }
  }

  /** A bound job whose prompt comes from a file has the same source whatever its prompt now is. */
  lemma SameSource(digest: Digest, a: Job, j: Job)
    requires SameButPrompt(a, j) && Bind(digest, j) == j && HasFile(j) && j["prompt_file"] != Str("")
    ensures SourceOnly(Bind(digest, a)) == SourceOnly(j)
  {
    BindingKeepsSameness(digest, a, j);
    SameButPromptAt(a, j, "prompt_file");
    var b := Bind(digest, a);
    hide Bind, SameButPrompt, NoPrompt, SourceOnly;
    assert Get(b, "prompt_file") == Get(j, "prompt_file") && Truthy(Get(j, "prompt_file"));
    FiledSource(b);
    FiledSource(j);
    assert NoPrompt(b) == NoPrompt(j) by { SameSides(b, j); }
  }

  lemma SameSides(a: Job, b: Job)
    requires SameButPrompt(a, b)
    ensures NoPrompt(a) == NoPrompt(b)
  {
  }

  lemma FiledSource(j: Job)
    requires Truthy(Get(j, "prompt_file"))
    ensures SourceOnly(j) == NoPrompt(j)
  {
    hide Truthy;
  }

  lemma UnnamedFileLosesPrompt(digest: Digest, j: Job)
    requires HasFile(j) && "prompt" in j && j["prompt_file"] == Str("")
    ensures SourceOnly(Bind(digest, EngineForm(j))) != SourceOnly(j)
  {
    var half := EngineForm(j);
    assert "prompt" !in half && SourceOnly(j) == j;
    BindingKeepsSameness(digest, half, half);
    hide Bind, EngineForm, Truthy;
    assert "prompt" !in SourceOnly(Bind(digest, half));
  }

  /** A bound engine job comes back from its engine half exactly when the file its prompt is left to
      has a name. */
  lemma EngineBackIff(digest: Digest, j: Job)
    requires Bind(digest, j) == j
    ensures SourceOnly(Bind(digest, EngineForm(j))) == SourceOnly(j) <==>
              (HasFile(j) && "prompt" in j ==> j["prompt_file"] != Str(""))
  {
    if HasFile(j) && "prompt" in j {
      if j["prompt_file"] != Str("") {
        SameSource(digest, EngineForm(j), j);
      } else {
        UnnamedFileLosesPrompt(digest, j);
      }
    } else {
      assert EngineForm(j) == j;
    }
  }

  /** What the load makes of an engine-template lane's prompt entry. */
  ghost predicate Loaded(h: Hooks, prompts: map<string, Value>, j: Job)
    requires Named(j)
  {
    match PromptValue(j)
    case None => Name(j) !in prompts
    case Some(v) => Name(j) in prompts && Resolve(h, v) == Some(prompts[Name(j)])
  }

  /** The prompt, attached to the stub, makes the job again. */
  lemma TemplateBack(h: Hooks, prompts: map<string, Value>, j: Job)
    requires Named(j) && Bind(h.digest, j) == j && Loaded(h, prompts, j)
    requires PromptKept(h, j) && (PromptValue(j).Some? ==> ContractKept(h, j))
    ensures Named(Stub(j)) && Name(Stub(j)) == Name(j)
    ensures Attach(h, prompts, Stub(j)).Some?
              && SourceOnly(Bind(h.digest, Attach(h, prompts, Stub(j)).value)) == SourceOnly(j)
  {
    if PromptValue(j).None? {
      NothingToAttach(h, prompts, j);
      hide *;
    } else {
      AttachedBack(h, prompts, j);
      StubName(j);
      hide Attach, PromptValue, Resolve, Bind, ReadFile, Loaded, ContractKept, Stub, SourceOnly, SameButPrompt;
      if HasFile(j) {
        FileIsNamed(h, j);
        SameSource(h.digest, Attach(h, prompts, Stub(j)).value, j);
      }
    }
  }

  lemma NothingToAttach(h: Hooks, prompts: map<string, Value>, j: Job)
    requires Named(j) && PromptValue(j).None? && Loaded(h, prompts, j) && PromptKept(h, j)
    ensures Named(Stub(j)) && Name(Stub(j)) == Name(j) && Attach(h, prompts, Stub(j)) == Some(j)
  {
    assert Stub(j) == j;
  }

  lemma StubName(j: Job)
    requires Named(j)
    ensures Named(Stub(j)) && Name(Stub(j)) == Name(j)
  {
  }

  lemma FileIsNamed(h: Hooks, j: Job)
    requires PromptKept(h, j) && HasFile(j)
    ensures j["prompt_file"] != Str("")
  {
  }

  lemma AttachedBack(h: Hooks, prompts: map<string, Value>, j: Job)
    requires Named(j) && PromptValue(j).Some? && Loaded(h, prompts, j) && PromptKept(h, j) && ContractKept(h, j)
    ensures Attach(h, prompts, Stub(j)).Some?
    ensures var m := Attach(h, prompts, Stub(j)).value; SameButPrompt(m, j) && (!HasFile(j) ==> m == j)
  {
    var s := Stub(j);
    var contract := j["output_contract"];
    assert Name(s) == Name(j) && Get(s, "output_contract") == contract;
    if HasFile(j) {
      FileParts(h, j["prompt_file"].s, contract);
      var text := Str(ReadFile(h, j["prompt_file"].s).value);
      assert Attach(h, prompts, s)
          == Some(s["prompt" := text]["prompt_file" := j["prompt_file"]]["output_contract" := contract]);
      SameLookups(NoPrompt(s["prompt" := text]["prompt_file" := j["prompt_file"]]["output_contract" := contract]),
                  NoPrompt(j));
    } else {
      TextParts(h, j["prompt"].s, contract);
      assert Attach(h, prompts, s) == Some(s["prompt" := j["prompt"]]["output_contract" := contract]);
      SameLookups(s["prompt" := j["prompt"]]["output_contract" := contract], j);
    }
  }

  lemma FileParts(h: Hooks, file: string, contract: Value)
    requires ReadFile(h, file).Some?
    ensures var v := Resolve(h, Obj(map["prompt_file" := Str(file)] + map["output_contract" := contract]));
            && v.Some? && v.value.Obj? && Get(v.value.fields, "prompt_file") == Str(file)
            && PackComposition.PromptParts(v.value) == Some((ReadFile(h, file).value, contract))
  {
    var fields := map["prompt_file" := Str(file)] + map["output_contract" := contract];
    var r := fields["prompt" := Str(ReadFile(h, file).value)];
    assert r.Keys == {"prompt", "prompt_file", "output_contract"};
  }

  lemma TextParts(h: Hooks, text: string, contract: Value)
    ensures var v := Resolve(h, Obj(map["prompt" := Str(text)] + map["output_contract" := contract]));
            && v.Some? && v.value.Obj? && Get(v.value.fields, "prompt_file") == Null
            && PackComposition.PromptParts(v.value) == Some((text, contract))
  {
    var fields := map["prompt" := Str(text)] + map["output_contract" := contract];
    assert fields.Keys == {"prompt", "output_contract"};
  }

  /** What comes back of an engine-template lane: nothing when its prompt cannot be loaded or attached. */
  function Returned(h: Hooks, j: Job): Option<Job>
    requires Named(j)
  {
    assert Named(Stub(j));
    match PromptValue(j)
    case None => Attach(h, map[], Stub(j))
    case Some(v) =>
      match Resolve(h, v)
      case None => None
      case Some(prompt) => Attach(h, map[Name(j) := prompt], Stub(j))
  }

  /** A prompt file not named by a string leaves no trace. */
  lemma OddFileIsLost(h: Hooks, j: Job)
    requires Named(j) && "prompt_file" in j && !HasFile(j) && (PromptValue(j).Some? ==> ContractKept(h, j))
    ensures Returned(h, j).Some? ==> SourceOnly(Bind(h.digest, Returned(h, j).value)) != SourceOnly(j)
  {
    if Returned(h, j).Some? {
      var m := Returned(h, j).value;
      assert "prompt_file" !in m;
      BindingKeepsSameness(h.digest, m, m);
      hide Bind, Returned, PromptValue;
      assert "prompt_file" !in SourceOnly(Bind(h.digest, m)) && "prompt_file" in SourceOnly(j);
    }
  }

  /** A prompt that is not text cannot be attached, nor one whose file cannot be read. */
  lemma OddPromptIsRefused(h: Hooks, j: Job)
    requires Named(j) && ContractKept(h, j)
    requires if "prompt_file" in j then HasFile(j) && ReadFile(h, j["prompt_file"].s).None?
             else "prompt" in j && !j["prompt"].Str?
    ensures Returned(h, j).None?
  {
    if HasFile(j) {
      assert Get(PromptValue(j).value.fields, "prompt_file") == j["prompt_file"];
    } else {
      var v := PromptValue(j).value;
      assert v.Obj? && Get(v.fields, "prompt") == j["prompt"] && "prompt_file" !in v.fields;
      assert PackComposition.PromptParts(v).None?;
    }
  }

  /** A bound engine-template lane, with a contract that composes with itself if it has a prompt, comes back
      exactly when its prompt is kept: its file, if it names one, is named by a string and can be read, and
      a prompt without a file is text. */
  lemma TemplateBackIff(h: Hooks, j: Job)
    requires Named(j) && Bind(h.digest, j) == j && (PromptValue(j).Some? ==> ContractKept(h, j))
    ensures Returned(h, j).Some? && SourceOnly(Bind(h.digest, Returned(h, j).value)) == SourceOnly(j) <==>
              PromptKept(h, j)
  {
    hide Returned, Bind, SourceOnly, ContractKept;
    if PromptKept(h, j) {
      KeptReturns(h, j);
    } else if "prompt_file" in j && !HasFile(j) {
      OddFileIsLost(h, j);
    } else {
      OddPromptIsRefused(h, j);
    }
  }

  lemma KeptReturns(h: Hooks, j: Job)
    requires Named(j) && Bind(h.digest, j) == j && PromptKept(h, j) && (PromptValue(j).Some? ==> ContractKept(h, j))
    ensures Returned(h, j).Some? && SourceOnly(Bind(h.digest, Returned(h, j).value)) == SourceOnly(j)
  {
    hide Bind, SourceOnly, ContractKept, Attach;
    if PromptValue(j).None? {
      TemplateBack(h, map[], j);
    } else {
      KeptIsLoaded(h, j);
      TemplateBack(h, map[Name(j) := Resolve(h, PromptValue(j).value).value], j);
    }
  }

  lemma KeptIsLoaded(h: Hooks, j: Job)
    requires Named(j) && PromptKept(h, j) && PromptValue(j).Some?
    ensures Resolve(h, PromptValue(j).value).Some?
  {
  }

  // ---------------------------------------------------------------------------------------------
  // The whole fleet
  // ---------------------------------------------------------------------------------------------

  lemma CanonJoined(a: seq<Job>, b: seq<Job>)
    ensures Canon(a + b) == Canon(a) + Canon(b)
  {
    hide SourceOnly;
    assert Sources(a + b) == Sources(a) + Sources(b);
  }

  lemma CanonOne(j: Job)
    ensures Canon([j]) == multiset{SourceOnly(j)}
  {
    hide SourceOnly;
    assert Sources([j]) == [SourceOnly(j)];
  }

  /** The sources of `a` once bound. */
  ghost function BoundCanon(digest: Digest, a: seq<Job>): multiset<Job> {
    Canon(BindAll(digest, a))
  }

  lemma BoundCanonJoined(digest: Digest, a: seq<Job>, b: seq<Job>)
    ensures BoundCanon(digest, a + b) == BoundCanon(digest, a) + BoundCanon(digest, b)
  {
    hide Bind, Canon;
    assert BindAll(digest, a + b) == BindAll(digest, a) + BindAll(digest, b);
    CanonJoined(BindAll(digest, a), BindAll(digest, b));
  }

  lemma BoundCanonOne(digest: Digest, j: Job)
    ensures BoundCanon(digest, [j]) == multiset{SourceOnly(Bind(digest, j))}
  {
    hide Bind, Canon;
    assert BindAll(digest, [j]) == [Bind(digest, j)];
    CanonOne(Bind(digest, j));
  }

  predicate IsEngineHalf(tiers: Tiers, j: Job)
    requires Named(j)
  {
    RouteOf(tiers, j) == ToEngine || RouteOf(tiers, j) == ToTemplate
  }

  /** The engine half of a job. */
  function Half(tiers: Tiers, j: Job): Job
    requires Named(j)
  {
    if RouteOf(tiers, j) == ToEngine then EngineForm(j) else Stub(j)
  }

  /** The job comes back, once bound, from what the split keeps of it. */
  ghost predicate ComesBack(h: Hooks, tiers: Tiers, dropping: Option<Tiers>, prompts: map<string, Value>, j: Job)
    requires Named(j)
  {
    if IsEngineHalf(tiers, j) then
      var half := Half(tiers, j);
      && Named(half)
      && Ships(dropping, prompts, half)
      && Attach(h, prompts, half).Some?
      && SourceOnly(Bind(h.digest, Attach(h, prompts, half).value)) == SourceOnly(j)
    else
      RouteOf(tiers, j) != Unclassified && SourceOnly(Bind(h.digest, j)) == SourceOnly(j)
  }

  lemma {:induction false} PromptNames(tiers: Tiers, jobs: seq<Job>, name: string)
    requires AllNamed(jobs) && SplitJobs(tiers, jobs).Some? && name in SplitJobs(tiers, jobs).value.prompts
    ensures name in NamesOf(jobs)
  {
    hide PromptValue, EngineForm, Stub;
    var n := |jobs| - 1;
    if name != Name(jobs[n]) {
      PromptNames(tiers, jobs[..n], name);
      var i :| 0 <= i < n && NamesOf(jobs[..n])[i] == name;
      assert NamesOf(jobs)[i] == name;
    } else {
      assert NamesOf(jobs)[n] == name;
    }
  }

  lemma LastNameIsNew(jobs: seq<Job>)
    requires AllNamed(jobs) && Distinct(NamesOf(jobs)) && jobs != []
    ensures Distinct(NamesOf(jobs[..|jobs| - 1])) && Name(jobs[|jobs| - 1]) !in NamesOf(jobs[..|jobs| - 1])
  {
    var n := |jobs| - 1;
    forall i | 0 <= i < n ensures NamesOf(jobs[..n])[i] == NamesOf(jobs)[i] != NamesOf(jobs)[n] {
    }
  }

  /** With unique names, the prompts hold exactly what each template job leaves there. */
  lemma {:induction false} PromptsHold(tiers: Tiers, jobs: seq<Job>, j: Job)
    requires AllNamed(jobs) && Distinct(NamesOf(jobs)) && SplitJobs(tiers, jobs).Some? && j in jobs
    ensures var prompts := SplitJobs(tiers, jobs).value.prompts;
            Held(prompts, Name(j)) == if RouteOf(tiers, j) == ToTemplate then PromptValue(j) else None
  {
    hide PromptValue, EngineForm, Stub, RouteOf;
    var n := |jobs| - 1;
    assert jobs == jobs[..n] + [jobs[n]];
    LastNameIsNew(jobs);
    if j == jobs[n] {
      if Name(j) in SplitJobs(tiers, jobs[..n]).value.prompts {
        PromptNames(tiers, jobs[..n], Name(j));
      }
    } else {
      PromptsHold(tiers, jobs[..n], j);
      var i :| 0 <= i < n && jobs[i] == j;
      assert NamesOf(jobs[..n])[i] == Name(j);
    }
  }

  /** Every prompt file of a splittable fleet can be read. */
  lemma AllResolve(h: Hooks, tiers: Tiers, dropping: Option<Tiers>, jobs: seq<Job>)
    requires Splittable(h, tiers, dropping, jobs) && SplitJobs(tiers, jobs).Some?
    ensures ResolveAll(h, SplitJobs(tiers, jobs).value.prompts).Some?
  {
    var kept := SplitJobs(tiers, jobs).value.prompts;
    forall name | name in kept ensures Resolve(h, kept[name]).Some? {
      PromptNames(tiers, jobs, name);
      var i :| 0 <= i < |jobs| && NamesOf(jobs)[i] == name;
      var j := jobs[i];
      PromptsHold(tiers, jobs, j);
      hide SplitJobs, Bind, Resolve, Distinct, NamesOf, PromptValue, PromptKept, ContractKept;
      assert Held(kept, Name(j)) == PromptValue(j) && PromptValue(j).Some?;
      assert Keepable(h, tiers, j);
      KeptIsLoaded(h, j);
    }
  }

  lemma JobComesBack(h: Hooks, tiers: Tiers, dropping: Option<Tiers>, jobs: seq<Job>, prompts: map<string, Value>,
                     j: Job)
    requires Splittable(h, tiers, dropping, jobs) && SplitJobs(tiers, jobs).Some? && j in jobs
    requires ResolveAll(h, SplitJobs(tiers, jobs).value.prompts) == Some(prompts)
    ensures Named(j) && ComesBack(h, tiers, dropping, prompts, j)
  {
    var kept := SplitJobs(tiers, jobs).value.prompts;
    PromptsHold(tiers, jobs, j);
    hide SplitJobs, Bind, Resolve, Distinct, NamesOf, PromptValue, Attach;
    assert Held(kept, Name(j)).None? ==> Name(j) !in prompts;
    assert Held(kept, Name(j)).Some? ==>
        Name(j) in prompts && Resolve(h, Held(kept, Name(j)).value) == Some(prompts[Name(j)]);
    match RouteOf(tiers, j) {
      case ToEngine => EngineJobBack(h, tiers, dropping, prompts, j);
      case ToTemplate => TemplateBack(h, prompts, j);
      case ToDomain =>
      case ToExtensions =>
    }
  }

  lemma EngineJobBack(h: Hooks, tiers: Tiers, dropping: Option<Tiers>, prompts: map<string, Value>, j: Job)
    requires Named(j) && RouteOf(tiers, j) == ToEngine && Keepable(h, tiers, j) && Bind(h.digest, j) == j
    requires Name(j) !in prompts && (dropping.Some? ==> dropping.value == tiers)
    ensures ComesBack(h, tiers, dropping, prompts, j)
  {
    EngineBackIff(h.digest, j);
    assert Named(EngineForm(j)) && Name(EngineForm(j)) == Name(j);
    hide Bind, SourceOnly, EngineForm;
  }

  lemma {:induction false} AlwaysSplits(tiers: Tiers, jobs: seq<Job>)
    requires AllNamed(jobs) && forall j :: j in jobs ==> RouteOf(tiers, j) != Unclassified
    ensures SplitJobs(tiers, jobs).Some? && AllNamed(SplitJobs(tiers, jobs).value.engine)
  {
    hide RouteOf, PromptValue;
    if jobs != [] {
      AlwaysSplits(tiers, jobs[..|jobs| - 1]);
    }
  }

  /** The parts, put back together and bound, are the sources they were split from. */
  lemma {:induction false} PartsComeBack(h: Hooks, tiers: Tiers, dropping: Option<Tiers>, prompts: map<string, Value>,
                                         jobs: seq<Job>)
    requires AllNamed(jobs) && forall j :: j in jobs ==> ComesBack(h, tiers, dropping, prompts, j)
    ensures SplitJobs(tiers, jobs).Some?
    ensures var parts := SplitJobs(tiers, jobs).value;
            && AllNamed(parts.engine)
            && var out := Attached(h, dropping, prompts, parts.engine);
               && out.Some?
               && PartsCanon(h.digest, out.value, parts) == Canon(jobs)
  {
    if jobs != [] {
      hide ComesBack, PartsCanon, Canon, Sort, Attached, SourceOnly, RouteOf;
      var n := |jobs| - 1;
      assert jobs == jobs[..n] + [jobs[n]];
      assert forall j :: j in jobs[..n] ==> j in jobs;
      PartsComeBack(h, tiers, dropping, prompts, jobs[..n]);
      CanonJoined(jobs[..n], [jobs[n]]);
      CanonOne(jobs[n]);
      assert ComesBack(h, tiers, dropping, prompts, jobs[n]);
      OneMoreComesBack(h, tiers, dropping, prompts, SplitJobs(tiers, jobs[..n]).value, jobs[n]);
    } else {
      assert BoundCanon(h.digest, []) == Canon([]) == multiset{};
    }
  }

  /** The sources of the three parts together. */
  ghost function PartsCanon(digest: Digest, out: seq<Job>, parts: Parts): multiset<Job> {
    BoundCanon(digest, out) + BoundCanon(digest, parts.domain) + BoundCanon(digest, parts.extensions)
  }

  lemma OneMoreComesBack(h: Hooks, tiers: Tiers, dropping: Option<Tiers>, prompts: map<string, Value>, parts: Parts,
                         j: Job)
    requires Named(j) && ComesBack(h, tiers, dropping, prompts, j)
    requires AllNamed(parts.engine) && Attached(h, dropping, prompts, parts.engine).Some?
    ensures Sort(tiers, parts, j).Some?
    ensures var more := Sort(tiers, parts, j).value;
            && AllNamed(more.engine)
            && var before := Attached(h, dropping, prompts, parts.engine);
               var out := Attached(h, dropping, prompts, more.engine);
               && out.Some?
               && PartsCanon(h.digest, out.value, more)
                   == PartsCanon(h.digest, before.value, parts) + multiset{SourceOnly(j)}
  {
    if IsEngineHalf(tiers, j) {
      HalfComesBack(h, tiers, dropping, prompts, parts, j);
    } else {
      WholeComesBack(h, tiers, dropping, prompts, parts, j);
    }
  }

  lemma HalfComesBack(h: Hooks, tiers: Tiers, dropping: Option<Tiers>, prompts: map<string, Value>, parts: Parts,
                      j: Job)
    requires Named(j) && ComesBack(h, tiers, dropping, prompts, j) && IsEngineHalf(tiers, j)
    requires AllNamed(parts.engine) && Attached(h, dropping, prompts, parts.engine).Some?
    ensures Sort(tiers, parts, j).Some?
    ensures var more := Sort(tiers, parts, j).value;
            && AllNamed(more.engine)
            && var before := Attached(h, dropping, prompts, parts.engine);
               var out := Attached(h, dropping, prompts, more.engine);
               && out.Some?
               && PartsCanon(h.digest, out.value, more)
                   == PartsCanon(h.digest, before.value, parts) + multiset{SourceOnly(j)}
  {
    hide Attach, SourceOnly, BoundCanon, Bind, Ships, PromptValue, EngineForm, Stub;
    var half := Half(tiers, j);
    var more := Sort(tiers, parts, j).value;
    assert more.engine == parts.engine + [half] && more.domain == parts.domain && more.extensions == parts.extensions;
    hide Sort, Half, RouteOf;
    var before := Attached(h, dropping, prompts, parts.engine).value;
    var job := Attach(h, prompts, half).value;
    assert more.engine[..|parts.engine|] == parts.engine;
    assert Attached(h, dropping, prompts, more.engine) == Some(before + [job]);
    hide Attached;
    BoundCanonJoined(h.digest, before, [job]);
    BoundCanonOne(h.digest, job);
  }

  lemma WholeComesBack(h: Hooks, tiers: Tiers, dropping: Option<Tiers>, prompts: map<string, Value>, parts: Parts,
                       j: Job)
    requires Named(j) && ComesBack(h, tiers, dropping, prompts, j) && !IsEngineHalf(tiers, j)
    ensures Sort(tiers, parts, j).Some?
    ensures var more := Sort(tiers, parts, j).value;
            && more.engine == parts.engine
            && forall out ::
                PartsCanon(h.digest, out, more) == PartsCanon(h.digest, out, parts) + multiset{SourceOnly(j)}
  {
    hide Attach, SourceOnly, BoundCanon, Bind, Ships, PromptValue, EngineForm, Stub;
    BoundCanonJoined(h.digest, parts.domain, [j]);
    BoundCanonJoined(h.digest, parts.extensions, [j]);
    BoundCanonOne(h.digest, j);
  }

  /** The round trip: a splittable fleet splits, its parts merge once the prompt files are read, and the
      result has the same sources, each job once. */
  lemma RoundTrip(h: Hooks, tiers: Tiers, dropping: Option<Tiers>, jobs: seq<Job>)
    requires Splittable(h, tiers, dropping, jobs)
    ensures SplitJobs(tiers, jobs).Some?
    ensures var parts := SplitJobs(tiers, jobs).value;
            && ResolveAll(h, parts.prompts).Some?
            && var loaded := parts.(prompts := ResolveAll(h, parts.prompts).value);
            && AllNamed(loaded.engine)
            && MergeJobs(h, dropping, loaded).Some?
            && Canon(MergeJobs(h, dropping, loaded).value) == Canon(jobs)
  {
    forall j | j in jobs ensures RouteOf(tiers, j) != Unclassified {
      assert Keepable(h, tiers, j);
    }
    AlwaysSplits(tiers, jobs);
    var parts := SplitJobs(tiers, jobs).value;
    AllResolve(h, tiers, dropping, jobs);
    var prompts := ResolveAll(h, parts.prompts).value;
    forall j | j in jobs ensures Named(j) && ComesBack(h, tiers, dropping, prompts, j) {
      JobComesBack(h, tiers, dropping, jobs, prompts, j);
    }
    hide Splittable, ComesBack, ResolveAll, RouteOf;
    PartsComeBack(h, tiers, dropping, prompts, jobs);
    var out := Attached(h, dropping, prompts, parts.engine).value;
    BoundCanonJoined(h.digest, out + parts.domain, parts.extensions);
    BoundCanonJoined(h.digest, out, parts.domain);
  }
}
