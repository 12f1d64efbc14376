/** What splitting and merging give, part by part: which job goes where, and what each merged job holds. */
module CronParts {
  import opened CronSplit
  import opened Jobs
  import PackComposition
  import opened Values
  import opened WriterBinding

  // ---------------------------------------------------------------------------------------------
  // Splitting
  // ---------------------------------------------------------------------------------------------

  /** The jobs that satisfy `p`, in order. */
  function Only(jobs: seq<Job>, p: Job -> bool): seq<Job> {
    if jobs == [] then []
    else
      var n := |jobs| - 1;
      Only(jobs[..n], p) + if p(jobs[n]) then [jobs[n]] else []
  }

  /** A job neither an extension's nor a pack's own, listed under a tier. */
  predicate OfTier(tiers: Tiers, j: Job, tier: string) {
    !Truthy(Get(j, "extension")) && !Truthy(Get(j, "pack")) && Held(tiers, NameText(j)) == Some(tier)
  }

  /** A job marked as an extension's, or unmarked and unlisted with a name only extensions have. */
  predicate OfExtension(tiers: Tiers, j: Job) {
    || Truthy(Get(j, "extension"))
    || (!Truthy(Get(j, "pack")) && NameText(j) !in tiers && ('.' in NameText(j) || ':' in NameText(j)))
  }

  /** A job marked as a pack's own, or listed as domain. */
  predicate OfPack(tiers: Tiers, j: Job) {
    (!Truthy(Get(j, "extension")) && Truthy(Get(j, "pack"))) || OfTier(tiers, j, "domain")
  }

  predicate OfEngine(tiers: Tiers, j: Job) {
    OfTier(tiers, j, "engine") || OfTier(tiers, j, "engine-template")
  }

  function ExtensionJobs(tiers: Tiers): Job -> bool {
    j => OfExtension(tiers, j)
  }

  function PackJobs(tiers: Tiers): Job -> bool {
    j => OfPack(tiers, j)
  }

  function EngineJobs(tiers: Tiers): Job -> bool {
    j => OfEngine(tiers, j)
  }

  /** The engine half of a job: without its prompt where a file supplies it, and, of a template lane,
      without the prompt and the file in any case. */
  ghost predicate HalfOf(tiers: Tiers, j: Job, half: Job) {
    forall key :: Held(half, key) ==
      if key == "prompt" && (Get(j, "prompt_file").Str? || OfTier(tiers, j, "engine-template")) then None
      else if key == "prompt_file" && OfTier(tiers, j, "engine-template") then None
      else Held(j, key)
  }

  /** A template lane with a prompt of its own. */
  predicate LeavesPrompt(tiers: Tiers, j: Job, name: string) {
    OfTier(tiers, j, "engine-template") && NameText(j) == name && ("prompt" in j || Get(j, "prompt_file").Str?)
  }

  /** What the pack half keeps for it: its file rather than its text, and beside either the contract it has. */
  ghost predicate LeftFor(j: Job, v: Value) {
    if Get(j, "prompt_file").Str? || Get(j, "output_contract").Obj? then
      && v.Obj?
      && forall key :: Held(v.fields, key) ==
           if key == "prompt_file" && Get(j, "prompt_file").Str? then Held(j, key)
           else if key == "prompt" && !Get(j, "prompt_file").Str? then Held(j, key)
           else if key == "output_contract" && Get(j, "output_contract").Obj? then Held(j, key)
           else None
    else Some(v) == Held(j, "prompt")
  }

  /** The prompts hold, under a name, what the last lane of that name with a prompt leaves. */
  ghost predicate PromptLeft(tiers: Tiers, jobs: seq<Job>, prompts: map<string, Value>, name: string) {
    if name in prompts then
      exists i :: 0 <= i < |jobs| && LeavesPrompt(tiers, jobs[i], name) && LeftFor(jobs[i], prompts[name])
             && forall k :: i < k < |jobs| ==> !LeavesPrompt(tiers, jobs[k], name)
    else forall i :: 0 <= i < |jobs| ==> !LeavesPrompt(tiers, jobs[i], name)
  }

  ghost predicate Halves(tiers: Tiers, jobs: seq<Job>, halves: seq<Job>) {
    |halves| == |jobs| && forall i :: 0 <= i < |jobs| ==> HalfOf(tiers, jobs[i], halves[i])
  }

  /** Every job is in the part it belongs to, in order. */
  ghost predicate SplitInto(tiers: Tiers, jobs: seq<Job>, parts: Parts) {
    && parts.extensions == Only(jobs, ExtensionJobs(tiers))
    && parts.domain == Only(jobs, PackJobs(tiers))
    && Halves(tiers, Only(jobs, EngineJobs(tiers)), parts.engine)
    && forall name :: PromptLeft(tiers, jobs, parts.prompts, name)
  }

  predicate Placed(tiers: Tiers, j: Job) {
    OfExtension(tiers, j) || OfPack(tiers, j) || OfEngine(tiers, j)
  }

  lemma RouteIs(tiers: Tiers, j: Job)
    requires Named(j)
    ensures RouteOf(tiers, j) == ToExtensions <==> OfExtension(tiers, j)
    ensures RouteOf(tiers, j) == ToDomain <==> OfPack(tiers, j)
    ensures RouteOf(tiers, j) == ToEngine <==> OfTier(tiers, j, "engine")
    ensures RouteOf(tiers, j) == ToTemplate <==> OfTier(tiers, j, "engine-template")
  {
  }

  lemma HalfIs(tiers: Tiers, j: Job)
    requires Named(j)
    ensures OfTier(tiers, j, "engine") ==> HalfOf(tiers, j, EngineForm(j))
    ensures OfTier(tiers, j, "engine-template") ==> HalfOf(tiers, j, Stub(j))
  {
  }

  lemma LeftIs(j: Job)
    ensures PromptValue(j).Some? <==> "prompt" in j || Get(j, "prompt_file").Str?
    ensures PromptValue(j).Some? ==> LeftFor(j, PromptValue(j).value)
  {
  }

  lemma OnlyOneMore(jobs: seq<Job>, p: Job -> bool)
    requires jobs != []
    ensures Only(jobs, p) == Only(jobs[..|jobs| - 1], p) + if p(jobs[|jobs| - 1]) then [jobs[|jobs| - 1]] else []
  {
  }

  lemma PromptsOneMore(tiers: Tiers, jobs: seq<Job>, prompts: map<string, Value>, more: map<string, Value>,
                       name: string)
    requires jobs != [] && PromptLeft(tiers, jobs[..|jobs| - 1], prompts, name)
    requires var j := jobs[|jobs| - 1];
             if LeavesPrompt(tiers, j, name) then name in more && LeftFor(j, more[name])
             else Held(more, name) == Held(prompts, name)
    ensures PromptLeft(tiers, jobs, more, name)
  {
    hide LeavesPrompt, LeftFor;
    var n := |jobs| - 1;
    if !LeavesPrompt(tiers, jobs[n], name) {
      if name in prompts {
        var i :| 0 <= i < n && LeavesPrompt(tiers, jobs[..n][i], name) && LeftFor(jobs[..n][i], prompts[name])
               && forall k :: i < k < n ==> !LeavesPrompt(tiers, jobs[..n][k], name);
        assert forall k :: i < k < |jobs| ==> k == n || jobs[k] == jobs[..n][k];
        assert LeavesPrompt(tiers, jobs[i], name);
      } else {
        assert forall k :: 0 <= k < |jobs| ==> k == n || jobs[k] == jobs[..n][k];
      }
    } else {
      assert LeavesPrompt(tiers, jobs[n], name);
    }
  }

  lemma SortPrompts(tiers: Tiers, parts: Parts, j: Job, name: string)
    requires Named(j) && Sort(tiers, parts, j).Some?
    ensures var more := Sort(tiers, parts, j).value.prompts;
            if LeavesPrompt(tiers, j, name) then name in more && LeftFor(j, more[name])
            else Held(more, name) == Held(parts.prompts, name)
  {
    RouteIs(tiers, j);
    LeftIs(j);
    hide OfTier, RouteOf, LeftFor, PromptValue;
  }

  lemma SortParts(tiers: Tiers, parts: Parts, j: Job)
    requires Named(j)
    ensures Sort(tiers, parts, j).Some? <==> Placed(tiers, j)
    ensures Sort(tiers, parts, j).Some? ==>
              var more := Sort(tiers, parts, j).value;
              && more.extensions == parts.extensions + (if OfExtension(tiers, j) then [j] else [])
              && more.domain == parts.domain + (if OfPack(tiers, j) then [j] else [])
              && (!OfEngine(tiers, j) ==> more.engine == parts.engine)
              && (OfEngine(tiers, j) ==> exists half :: HalfOf(tiers, j, half) && more.engine == parts.engine + [half])
  {
    RouteIs(tiers, j);
    HalfIs(tiers, j);
    hide OfTier, RouteOf, HalfOf, OfExtension, OfPack, EngineForm, Stub, PromptValue;
    if RouteOf(tiers, j) == ToEngine {
      assert HalfOf(tiers, j, EngineForm(j));
    }
    if RouteOf(tiers, j) == ToTemplate {
      assert HalfOf(tiers, j, Stub(j));
    }
  }

  lemma SplitOneMore(tiers: Tiers, jobs: seq<Job>, parts: Parts)
    requires jobs != [] && Named(jobs[|jobs| - 1]) && SplitInto(tiers, jobs[..|jobs| - 1], parts)
    requires Sort(tiers, parts, jobs[|jobs| - 1]).Some?
    ensures SplitInto(tiers, jobs, Sort(tiers, parts, jobs[|jobs| - 1]).value)
  {
    var j := jobs[|jobs| - 1];
    var more := Sort(tiers, parts, j).value;
    SortParts(tiers, parts, j);
    forall name ensures PromptLeft(tiers, jobs, more.prompts, name) {
      SortPrompts(tiers, parts, j, name);
      PromptsOneMore(tiers, jobs, parts.prompts, more.prompts, name);
    }
    hide Sort, PromptLeft, HalfOf, OfExtension, OfPack, OfEngine;
    OnlyOneMore(jobs, ExtensionJobs(tiers));
    OnlyOneMore(jobs, PackJobs(tiers));
    OnlyOneMore(jobs, EngineJobs(tiers));
    hide Only;
  }

  /** A split sorts every job into the part it belongs to, each part in order, with each template lane's
      prompt in the pack half; it is refused exactly when some job belongs to none. */
  lemma {:induction false} SplitSorts(tiers: Tiers, jobs: seq<Job>)
    requires AllNamed(jobs)
    ensures SplitJobs(tiers, jobs).Some? <==> forall i :: 0 <= i < |jobs| ==> Placed(tiers, jobs[i])
    ensures SplitJobs(tiers, jobs).Some? ==> SplitInto(tiers, jobs, SplitJobs(tiers, jobs).value)
  {
    hide Sort, Placed, SplitInto;
    if jobs != [] {
      var n := |jobs| - 1;
      SplitSorts(tiers, jobs[..n]);
      assert forall i :: 0 <= i < |jobs| ==> i == n || jobs[i] == jobs[..n][i];
      if SplitJobs(tiers, jobs[..n]).Some? {
        SortParts(tiers, SplitJobs(tiers, jobs[..n]).value, jobs[n]);
        if Placed(tiers, jobs[n]) {
          SplitOneMore(tiers, jobs, SplitJobs(tiers, jobs[..n]).value);
        }
      } else {
        var i :| 0 <= i < n && !Placed(tiers, jobs[..n][i]);
        assert !Placed(tiers, jobs[i]);
      }
    } else {
      NothingSplit(tiers);
    }
  }

  lemma NothingSplit(tiers: Tiers)
    ensures SplitInto(tiers, [], Parts([], [], map[], []))
  {
  }

  // ---------------------------------------------------------------------------------------------
  // Merging
  // ---------------------------------------------------------------------------------------------

  /** A template lane the pack gives no prompt is left out when the tiers are known. */
  predicate LeftOut(tiers: Option<Tiers>, prompts: map<string, Value>, j: Job) {
    tiers.Some? && Held(tiers.value, NameText(j)) == Some("engine-template") && NameText(j) !in prompts
  }

  /** The pack's entry has a text, no key but its own three, and a contract that composes onto the engine's. */
  predicate Supplied(h: Hooks, v: Value, j: Job) {
    && PackComposition.TextOf(v).Str?
    && (v.Obj? ==> forall key :: key in v.fields ==>
                     key == "prompt" || key == "prompt_file" || key == "output_contract")
    && h.compose(Get(j, "output_contract"), PackComposition.PolicyOf(v)).Some?
  }

  /** `k` is the engine job `j` with the pack's prompt, its prompt file if it names one, and the pack's
      contract composed onto the engine's. */
  ghost predicate AttachedFrom(h: Hooks, prompts: map<string, Value>, j: Job, k: Job) {
    if NameText(j) !in prompts then k == j
    else
      var v := prompts[NameText(j)];
      && Held(k, "prompt") == Some(PackComposition.TextOf(v))
      && Held(k, "prompt_file")
           == (if v.Obj? && Get(v.fields, "prompt_file").Str? then Some(v.fields["prompt_file"])
               else Held(j, "prompt_file"))
      && Held(k, "output_contract") == h.compose(Get(j, "output_contract"), PackComposition.PolicyOf(v))
      && forall key :: key != "prompt" && key != "prompt_file" && key != "output_contract" ==>
          Held(k, key) == Held(j, key)
  }

  function Shipping(tiers: Option<Tiers>, prompts: map<string, Value>): Job -> bool {
    j => !LeftOut(tiers, prompts, j)
  }

  ghost predicate AllAttached(h: Hooks, prompts: map<string, Value>, jobs: seq<Job>, out: seq<Job>) {
    |out| == |jobs| && forall i :: 0 <= i < |jobs| ==> AttachedFrom(h, prompts, jobs[i], out[i])
  }

  /** The engine jobs that ship, in order, each with its prompt; then the pack's own and the extensions'. */
  ghost predicate MergedFrom(h: Hooks, tiers: Option<Tiers>, parts: Parts, out: seq<Job>) {
    var shipping := Only(parts.engine, Shipping(tiers, parts.prompts));
    var n := |shipping|;
    && n <= |out| && AllAttached(h, parts.prompts, shipping, out[..n])
    && out[n..] == parts.domain + parts.extensions
  }

  predicate Attachable(h: Hooks, prompts: map<string, Value>, j: Job) {
    NameText(j) in prompts ==> Supplied(h, prompts[NameText(j)], j)
  }

  lemma AttachIs(h: Hooks, prompts: map<string, Value>, j: Job)
    requires Named(j)
    ensures Attach(h, prompts, j).Some? <==> Attachable(h, prompts, j)
    ensures Attach(h, prompts, j).Some? ==> AttachedFrom(h, prompts, j, Attach(h, prompts, j).value)
  {
    if Name(j) in prompts {
      var v := prompts[Name(j)];
      PartsAre(v);
      hide PackComposition.PromptParts, PackComposition.TextOf, PackComposition.PolicyOf;
    }
  }

  lemma PartsAre(v: Value)
    ensures PackComposition.PromptParts(v).Some? <==>
              && PackComposition.TextOf(v).Str?
              && (v.Obj? ==> forall key :: key in v.fields ==>
                               key == "prompt" || key == "prompt_file" || key == "output_contract")
    ensures PackComposition.PromptParts(v).Some? ==>
              && Str(PackComposition.PromptParts(v).value.0) == PackComposition.TextOf(v)
              && PackComposition.PromptParts(v).value.1 == PackComposition.PolicyOf(v)
  {
    if v.Obj? {
      assert v.fields.Keys <= {"prompt", "prompt_file", "output_contract"} <==>
          forall key :: key in v.fields ==> key == "prompt" || key == "prompt_file" || key == "output_contract";
    }
  }

  lemma ShipsIff(tiers: Option<Tiers>, prompts: map<string, Value>, j: Job)
    requires Named(j)
    ensures Ships(tiers, prompts, j) <==> !LeftOut(tiers, prompts, j)
    ensures !Ships(tiers, prompts, j) ==> NameText(j) !in prompts
  {
  }

  lemma {:induction false} AttachedAre(h: Hooks, tiers: Option<Tiers>, prompts: map<string, Value>, engine: seq<Job>)
    requires AllNamed(engine)
    ensures Attached(h, tiers, prompts, engine).Some? <==>
              forall i :: 0 <= i < |engine| ==> Attachable(h, prompts, engine[i])
    ensures Attached(h, tiers, prompts, engine).Some? ==>
              AllAttached(h, prompts, Only(engine, Shipping(tiers, prompts)),
                          Attached(h, tiers, prompts, engine).value)
  {
    hide Attach, Ships, LeftOut, Supplied, AttachedFrom;
    if engine != [] {
      var n := |engine| - 1;
      AttachedAre(h, tiers, prompts, engine[..n]);
      AttachIs(h, prompts, engine[n]);
      ShipsIff(tiers, prompts, engine[n]);
      assert forall i :: 0 <= i < |engine| ==> i == n || engine[i] == engine[..n][i];
      hide NameText;
      if Attached(h, tiers, prompts, engine[..n]).None? {
        var i :| 0 <= i < n && !Attachable(h, prompts, engine[..n][i]);
        assert !Attachable(h, prompts, engine[i]);
      }
    }
  }

  /** A merge gives the engine jobs that ship, each with the pack's prompt for it, then the pack's own jobs
      and the extensions', all bound to their writers; it is refused exactly when a prompt the pack
      supplies cannot be used. */
  lemma MergeAttaches(h: Hooks, tiers: Option<Tiers>, parts: Parts)
    requires AllNamed(parts.engine)
    ensures MergeJobs(h, tiers, parts).Some? <==>
              forall i :: 0 <= i < |parts.engine| ==> Attachable(h, parts.prompts, parts.engine[i])
    ensures MergeJobs(h, tiers, parts).Some? ==>
              exists out ::
                  MergedFrom(h, tiers, parts, out) && MergeJobs(h, tiers, parts).value == BindAll(h.digest, out)
  {
    hide Attached, AllAttached, Only, BindAll, Attachable;
    AttachedAre(h, tiers, parts.prompts, parts.engine);
    if MergeJobs(h, tiers, parts).Some? {
      var attached := Attached(h, tiers, parts.prompts, parts.engine).value;
      var out := attached + parts.domain + parts.extensions;
      var shipping := Only(parts.engine, Shipping(tiers, parts.prompts));
      AttachedLength(h, parts.prompts, shipping, attached);
      assert out[..|attached|] == attached && out[|attached|..] == parts.domain + parts.extensions;
      assert MergedFrom(h, tiers, parts, out);
    }
  }

  lemma AttachedLength(h: Hooks, prompts: map<string, Value>, jobs: seq<Job>, out: seq<Job>)
    requires AllAttached(h, prompts, jobs, out)
    ensures |jobs| == |out|
  {
  }
}
