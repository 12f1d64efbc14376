/** What the stamps of `_dump_jobs` leave in a deployed job, said of the source job and the deployed one alone. */
module StampContents {
  import opened Jobs
  import opened Replacing
  import opened Stamping
  import opened Text
  import opened Values
  import opened WriterBinding

  // ---------------------------------------------------------------------------------------------
  // Text
  // ---------------------------------------------------------------------------------------------

  /** Something of the text is not white space. */
  ghost predicate Inked(text: string) {
    exists i :: 0 <= i < |text| && !Space(text[i])
  }

  ghost predicate Written(v: Value) {
    v.Str? && Inked(v.s)
  }

  lemma StrippedText(text: string)
    ensures Trimmed(text, Strip(text)) && (Strip(text) != "" <==> Inked(text))
  {
    var i, k := StripTrims(text);
  }

  lemma BlankIff(v: Value)
    ensures Blank(v) <==> !Written(v)
  {
    if v.Str? {
      StrippedText(v.s);
    }
  }

  lemma {:induction false} RightStrippedAt(text: string)
    ensures var n := |RightStripped(text)|;
            RightStripped(text) == text[..n] && TrimmedAt(text[n..], 0, 0) && (n > 0 ==> !Space(text[n - 1]))
  {
    if text != [] && Space(text[|text| - 1]) {
      RightStrippedAt(text[..|text| - 1]);
    }
  }

  /** The job is the lane itself or a pack's instance of it. */
  predicate OfLane(name: string, lane: string) {
    lane <= name && (name == lane || name[|lane|] == '@')
  }

  lemma {:induction false} BeforeIff(name: string, lane: string)
    requires '@' !in lane
    ensures Before(name, '@') == lane <==> OfLane(name, lane)
    decreases |name|
  {
    if name != [] && name[0] != '@' {
      if lane != [] && lane[0] == name[0] {
        BeforeIff(name[1..], lane[1..]);
        assert lane == [lane[0]] + lane[1..] && name == [name[0]] + name[1..];
      }
    }
  }

  // ---------------------------------------------------------------------------------------------
  // The fields of a deployed job
  // ---------------------------------------------------------------------------------------------

  /** A cron schedule of the text, as the scheduler reads it. */
  ghost predicate CronOf(text: string, v: Value) {
    && v.Obj? && v.fields.Keys == {"kind", "expr"}
    && v.fields["kind"] == Str("cron") && v.fields["expr"].Str? && Trimmed(text, v.fields["expr"].s)
  }

  /** A schedule written as text, or else in `expr` beside no schedule, is made one the scheduler reads. */
  ghost predicate ScheduledFrom(j: Job, k: Job) {
    if Written(Get(j, "schedule")) then CronOf(j["schedule"].s, Get(k, "schedule"))
    else if Get(j, "schedule") == Null && Written(Get(j, "expr")) then CronOf(j["expr"].s, Get(k, "schedule"))
    else Held(k, "schedule") == Held(j, "schedule")
  }

  /** A job keeps the id it has, and gets one minted from its name when it has none. */
  ghost predicate IdentifiedFrom(s: Stamper, j: Job, k: Job) {
    var id := Get(j, "id");
    Held(k, "id") == if Written(id) || (!id.Str? && Truthy(id)) then Some(id) else Some(Str(s.mint(NameText(j))))
  }

  ghost predicate CompletesPerItem(j: Job) {
    && Get(j, "output_contract").Obj? && "completion" in j["output_contract"].fields
    && j["output_contract"].fields["completion"] == Str("per-selected-item")
  }

  /** `str(v or "")` */
  ghost predicate Spelled(s: Stamper, v: Value, r: string) {
    r == if v.Str? then v.s else if Truthy(v) then s.text(v) else ""
  }

  /** The manifest is the declared one, or else the one of the job's name. */
  ghost predicate ManifestFrom(s: Stamper, j: Job, k: Job) {
    var m := Get(k, "selection_manifest");
    && m.Str?
    && if Truthy(Get(j, "selection_manifest")) then Spelled(s, j["selection_manifest"], m.s)
       else m.s == "/opt/data/cron-plus/selections/" + NameText(j) + ".json"
  }

  /** What the environment of a contracted job holds under a name. */
  ghost predicate VariableFrom(s: Stamper, j: Job, k: Job, env: map<string, Value>, name: string)
    requires Get(j, "output_contract").Obj?
  {
    if name == "OKENGINE_LANE_ID" then
      name in env && env[name].Str? && Spelled(s, Get(k, "id"), env[name].s)
    else if name == "OKENGINE_CONTRACT_DIGEST" then
      name in env && env[name] == Str(s.contractDigest(j["output_contract"]))
    else if name == "OKENGINE_SELECTION_MANIFEST" && CompletesPerItem(j) then
      name in env && env[name] == Get(k, "selection_manifest")
    else Held(env, name) == if Get(j, "env").Obj? then Held(j["env"].fields, name) else None
  }

  /** The variable names a job's environment binds. */
  ghost predicate EnvironmentFrom(s: Stamper, j: Job, k: Job)
    requires Get(j, "output_contract").Obj?
  {
    Get(k, "env").Obj? && forall name :: VariableFrom(s, j, k, k["env"].fields, name)
  }

  /** A contracted job names its contract's digest, its lane and, if it completes per selected item, the
      manifest it is checked against and how; nothing of this changes on a job without a contract. */
  ghost predicate ContractedFrom(s: Stamper, j: Job, k: Job) {
    if !Get(j, "output_contract").Obj? then forall key :: ContractKey(key) ==> Held(k, key) == Held(j, key)
    else
      && EnvironmentFrom(s, j, k)
      && Held(k, "output_contract_digest") == Some(Str(s.contractDigest(j["output_contract"])))
      && (if CompletesPerItem(j) then
            && ManifestFrom(s, j, k)
            && Held(k, "receipt_mode") == Some(if "receipt_mode" in j then j["receipt_mode"] else Str("enforce"))
            && Held(k, "receipt_hash_mode")
                 == Some(if "receipt_hash_mode" in j then j["receipt_hash_mode"] else Str("readback"))
          else
            && Held(k, "selection_manifest") == Held(j, "selection_manifest")
            && Held(k, "receipt_mode") == Held(j, "receipt_mode")
            && Held(k, "receipt_hash_mode") == Held(j, "receipt_hash_mode"))
  }

  ghost predicate NeedsRubric(j: Job, prompt: string) {
    OfLane(NameText(j), RUBRIC_LANE) && !Occurs(RUBRIC_MARK, prompt)
  }

  /** The prompt without the white space at its end, followed by each text it needed and lacked. */
  ghost predicate Extended(s: Stamper, j: Job, prompt: string, r: string) {
    exists n: nat :: n <= |prompt| && TrimmedAt(prompt[n..], 0, 0) && (n > 0 ==> !Space(prompt[n - 1]))
      && r == prompt[..n] + ((if NeedsRubric(j, prompt) then s.rubric else "")
                             + (if Occurs(DISCOVERY_MARK, prompt) then "" else s.discovery))
  }

  /** A model lane's prompt gets the texts it lacks; every other prompt, and one lacking none, stays. */
  ghost predicate PromptedFrom(s: Stamper, j: Job, k: Job) {
    var p := Get(j, "prompt");
    if Truthy(Get(j, "no_agent")) || !Written(p) || (!NeedsRubric(j, p.s) && Occurs(DISCOVERY_MARK, p.s))
    then Held(k, "prompt") == Held(j, "prompt")
    else Get(k, "prompt").Str? && Extended(s, j, p.s, k["prompt"].s)
  }

  /** The deployed prompt's size: its bytes, and a quarter of them rounded up. */
  ghost predicate MeasuredFrom(s: Stamper, j: Job, k: Job) {
    if !Written(Get(k, "prompt")) then Held(k, "prompt_metrics") == Held(j, "prompt_metrics")
    else
      var m, size := Get(k, "prompt_metrics"), s.bytes(k["prompt"].s);
      && m.Obj? && m.fields.Keys == {"bytes", "estimated_tokens"}
      && m.fields["bytes"] == Num(size) && m.fields["estimated_tokens"].Num?
      && 4 * m.fields["estimated_tokens"].n - 4 < size <= 4 * m.fields["estimated_tokens"].n
  }

  /** The deployed job `k` of a source job `j`. */
  ghost predicate DeployedFrom(s: Stamper, j: Job, k: Job) {
    && ScheduledFrom(j, k) && IdentifiedFrom(s, j, k) && ContractedFrom(s, j, k)
    && PromptedFrom(s, j, k) && MeasuredFrom(s, j, k)
    && forall key :: !StampKey(key) ==> Held(k, key) == Held(j, key)
  }

  // ---------------------------------------------------------------------------------------------
  // Stamping writes exactly that
  // ---------------------------------------------------------------------------------------------

  lemma ScheduleWritten(j: Job)
    ensures ScheduledFrom(j, NormalizeSchedule(j))
    ensures forall key :: key != "schedule" ==> Held(NormalizeSchedule(j), key) == Held(j, key)
  {
    BlankIff(Get(j, "schedule"));
    BlankIff(Get(j, "expr"));
    if Get(j, "schedule").Str? {
      StrippedText(j["schedule"].s);
    }
    if Get(j, "expr").Str? {
      StrippedText(j["expr"].s);
    }
    hide Strip, Blank, Written, Trimmed;
  }

  lemma IdWritten(s: Stamper, j: Job)
    ensures IdentifiedFrom(s, j, EnsureId(s, j))
    ensures forall key :: key != "id" ==> Held(EnsureId(s, j), key) == Held(j, key)
  {
    var id := Get(j, "id");
    if id.Str? {
      StrippedText(id.s);
      assert id.s == "" ==> !Inked(id.s);
    }
    hide Strip, Inked, NameText;
  }

  lemma ManifestWritten(s: Stamper, j: Job, k: Job)
    requires Sensible(s) && Held(k, "selection_manifest") == Some(Str(SelectionManifest(s, j)))
    ensures ManifestFrom(s, j, k)
  {
    assert Truthy(Get(j, "selection_manifest")) ==> s.text(Get(j, "selection_manifest")) != "";
    hide Sensible, NameText;
  }

  lemma ContractWritten(s: Stamper, j: Job)
    requires Sensible(s)
    ensures ContractedFrom(s, j, StampContract(s, j))
    ensures forall key :: !ContractKey(key) ==> Held(StampContract(s, j), key) == Held(j, key)
  {
    var k := StampContract(s, j);
    forall key | !ContractKey(key) ensures Held(k, key) == Held(j, key) {
      StampedElsewhere(s, j, key);
    }
    if Contracted(j) {
      assert PerItem(j) <==> CompletesPerItem(j);
      FieldsWritten(s, j);
      EnvWritten(s, j, k);
      if PerItem(j) {
        ManifestWritten(s, j, k);
      }
      hide ContractKey, PerItem, EnvironmentFrom, ManifestFrom, StampContract, CompletesPerItem;
    }
  }

  lemma FieldsWritten(s: Stamper, j: Job)
    requires Contracted(j)
    ensures var k := StampContract(s, j);
            && Held(k, "env") == Some(Obj(ContractEnv(s, j)))
            && Held(k, "output_contract_digest") == Some(Str(s.contractDigest(j["output_contract"])))
            && (PerItem(j) ==>
                  && Held(k, "selection_manifest") == Some(Str(SelectionManifest(s, j)))
                  && Held(k, "receipt_mode") == Some(if "receipt_mode" in j then j["receipt_mode"] else Str("enforce"))
                  && Held(k, "receipt_hash_mode")
                       == Some(if "receipt_hash_mode" in j then j["receipt_hash_mode"] else Str("readback")))
            && (!PerItem(j) ==>
                  && Held(k, "selection_manifest") == Held(j, "selection_manifest")
                  && Held(k, "receipt_mode") == Held(j, "receipt_mode")
                  && Held(k, "receipt_hash_mode") == Held(j, "receipt_hash_mode"))
  {
    hide ContractEnv, SelectionManifest, PerItem;
  }

  lemma EnvWritten(s: Stamper, j: Job, k: Job)
    requires Contracted(j) && Held(k, "env") == Some(Obj(ContractEnv(s, j))) && Get(k, "id") == Get(j, "id")
    requires PerItem(j) ==> Held(k, "selection_manifest") == Some(Str(SelectionManifest(s, j)))
    requires PerItem(j) <==> CompletesPerItem(j)
    ensures EnvironmentFrom(s, j, k)
  {
    hide SelectionManifest, PerItem, CompletesPerItem;
    var env := k["env"].fields;
    forall name ensures VariableFrom(s, j, k, env, name) {
    }
  }

  lemma AdditionsAre(s: Stamper, j: Job, prompt: string)
    ensures Additions(s, NameText(j), prompt) ==
              (if NeedsRubric(j, prompt) then s.rubric else "")
              + (if Occurs(DISCOVERY_MARK, prompt) then "" else s.discovery)
  {
    assert '@' !in RUBRIC_LANE;
    BeforeIff(NameText(j), RUBRIC_LANE);
    hide NameText, Before, OfLane, Occurs;
  }

  /** Nothing is added to a prompt that lacks nothing; any other is extended. */
  lemma PromptExtended(s: Stamper, j: Job, prompt: string)
    requires Sensible(s)
    ensures Additions(s, NameText(j), prompt) == "" <==> !NeedsRubric(j, prompt) && Occurs(DISCOVERY_MARK, prompt)
    ensures Extended(s, j, prompt, RightStripped(prompt) + Additions(s, NameText(j), prompt))
  {
    AdditionsAre(s, j, prompt);
    TextsAreNotEmpty(s);
    RightStrippedAt(prompt);
    hide Additions, NeedsRubric, Occurs, TrimmedAt, RightStripped, NameText, Sensible;
    var n := |RightStripped(prompt)|;
    assert n <= |prompt| && RightStripped(prompt) == prompt[..n];
  }

  lemma PromptWritten(s: Stamper, j: Job)
    requires Sensible(s)
    ensures PromptedFrom(s, j, StampDiscovery(s, j))
    ensures forall key :: key != "prompt" ==> Held(StampDiscovery(s, j), key) == Held(j, key)
  {
    var p := Get(j, "prompt");
    BlankIff(p);
    if p.Str? {
      PromptExtended(s, j, p.s);
    }
    hide Additions, NeedsRubric, Occurs, Extended, RightStripped, Blank, NameText, Written, Sensible;
  }

  lemma TextsAreNotEmpty(s: Stamper)
    requires Sensible(s)
    ensures s.rubric != "" && s.discovery != ""
  {
    assert Occurs(RUBRIC_MARK, s.rubric) && Occurs(DISCOVERY_MARK, s.discovery);
  }

  lemma MetricsWritten(s: Stamper, j: Job)
    ensures MeasuredFrom(s, j, StampMetrics(s, j))
    ensures forall key :: key != "prompt_metrics" ==> Held(StampMetrics(s, j), key) == Held(j, key)
  {
    var k, prompt := StampMetrics(s, j), Get(j, "prompt");
    BlankIff(prompt);
    assert Get(k, "prompt") == prompt;
    if Written(prompt) {
      var size := s.bytes(prompt.s);
      assert Get(k, "prompt_metrics") == Obj(map["bytes" := Num(size), "estimated_tokens" := Num((size + 3) / 4)]);
      assert Get(k, "prompt_metrics").fields.Keys == {"bytes", "estimated_tokens"};
    }
    hide Blank, Written;
  }

  /** Two jobs agree outside the keys of a predicate. */
  ghost predicate Alike(a: Job, b: Job, apart: string -> bool) {
    forall key :: !apart(key) ==> Held(a, key) == Held(b, key)
  }

  lemma SameAt(a: Job, b: Job, apart: string -> bool, key: string)
    requires Alike(a, b, apart) && !apart(key)
    ensures Held(a, key) == Held(b, key) && Get(a, key) == Get(b, key)
  {
  }

  const IdKeys: string -> bool := key => key == "schedule" || key == "id"
  const PromptKeys: string -> bool := key => key == "prompt" || key == "prompt_metrics"

  lemma NamedAlike(a: Job, b: Job)
    requires Held(a, "name") == Held(b, "name")
    ensures NameText(a) == NameText(b)
  {
  }

  lemma ScheduleCarries(j: Job, a: Job, k: Job)
    requires ScheduledFrom(j, a) && Held(a, "schedule") == Held(k, "schedule")
    ensures ScheduledFrom(j, k)
  {
    hide Written, CronOf;
  }

  lemma IdCarries(s: Stamper, a: Job, b: Job, j: Job, k: Job)
    requires IdentifiedFrom(s, a, b)
    requires Get(a, "id") == Get(j, "id") && Held(a, "name") == Held(j, "name") && Held(b, "id") == Held(k, "id")
    ensures IdentifiedFrom(s, j, k)
  {
    NamedAlike(a, j);
    hide NameText, Written;
  }

  /** What the contract stamp reads is the same of both. */
  ghost predicate SameInputs(a: Job, j: Job) {
    && Get(a, "output_contract") == Get(j, "output_contract") && Get(a, "env") == Get(j, "env")
    && NameText(a) == NameText(j) && forall key :: ContractKey(key) ==> Held(a, key) == Held(j, key)
  }

  /** What the contract stamp writes, and the id, is the same of both. */
  ghost predicate SameOutputs(b: Job, k: Job) {
    Get(b, "id") == Get(k, "id") && forall key :: ContractKey(key) ==> Held(b, key) == Held(k, key)
  }

  lemma InputsAlike(a: Job, j: Job)
    requires Alike(a, j, IdKeys)
    ensures SameInputs(a, j)
  {
    SameAt(a, j, IdKeys, "output_contract");
    SameAt(a, j, IdKeys, "env");
    SameAt(a, j, IdKeys, "name");
    NamedAlike(a, j);
    hide NameText;
  }

  lemma OutputsAlike(b: Job, k: Job)
    requires Alike(b, k, PromptKeys)
    ensures SameOutputs(b, k)
  {
    SameAt(b, k, PromptKeys, "id");
  }

  lemma ContractCarries(s: Stamper, a: Job, b: Job, j: Job, k: Job)
    requires ContractedFrom(s, a, b) && SameInputs(a, j) && SameOutputs(b, k)
    ensures ContractedFrom(s, j, k)
  {
    hide Spelled, NameText;
    if Get(j, "output_contract").Obj? {
      ContractKeys();
      hide ContractKey;
      EnvCarries(s, a, b, j, k);
      hide EnvironmentFrom;
    } else {
      hide EnvironmentFrom, ManifestFrom, CompletesPerItem, ContractKey;
    }
  }

  lemma ContractKeys()
    ensures ContractKey("output_contract_digest") && ContractKey("selection_manifest") && ContractKey("receipt_mode")
    ensures ContractKey("receipt_hash_mode") && ContractKey("env")
  {
  }

  lemma EnvCarries(s: Stamper, a: Job, b: Job, j: Job, k: Job)
    requires Get(a, "output_contract").Obj? && EnvironmentFrom(s, a, b)
    requires Get(a, "output_contract") == Get(j, "output_contract") && Get(a, "env") == Get(j, "env")
    requires Get(b, "id") == Get(k, "id") && Get(b, "selection_manifest") == Get(k, "selection_manifest")
    requires Get(b, "env") == Get(k, "env")
    ensures EnvironmentFrom(s, j, k)
  {
    hide Spelled;
    forall name ensures VariableFrom(s, j, k, k["env"].fields, name) {
      assert VariableFrom(s, a, b, b["env"].fields, name);
    }
  }

  lemma PromptCarries(s: Stamper, a: Job, b: Job, j: Job, k: Job)
    requires PromptedFrom(s, a, b) && Held(b, "prompt") == Held(k, "prompt")
    requires Held(a, "prompt") == Held(j, "prompt") && Held(a, "name") == Held(j, "name")
    requires Get(a, "no_agent") == Get(j, "no_agent")
    ensures PromptedFrom(s, j, k)
  {
    NamedAlike(a, j);
    hide NameText, Written, Occurs, OfLane, TrimmedAt;
  }

  lemma MetricsCarry(s: Stamper, a: Job, b: Job, j: Job)
    requires MeasuredFrom(s, a, b) && Held(a, "prompt_metrics") == Held(j, "prompt_metrics")
    ensures MeasuredFrom(s, j, b)
  {
    hide Written;
  }

  /** The stages of `Stamp`. */
  ghost predicate Stages(s: Stamper, j: Job, a: Job, b: Job, c: Job, d: Job, e: Job) {
    && a == NormalizeSchedule(j) && b == EnsureId(s, a) && c == StampContract(s, b)
    && d == StampDiscovery(s, c) && e == StampMetrics(s, d)
  }

  /** Each stage writes its own keys only. */
  ghost predicate Kept(j: Job, a: Job, b: Job, c: Job, d: Job, e: Job, key: string) {
    && (key != "schedule" ==> Held(a, key) == Held(j, key))
    && (key != "id" ==> Held(b, key) == Held(a, key))
    && (!ContractKey(key) ==> Held(c, key) == Held(b, key))
    && (key != "prompt" ==> Held(d, key) == Held(c, key))
    && (key != "prompt_metrics" ==> Held(e, key) == Held(d, key))
  }

  lemma StagesWrite(s: Stamper, j: Job, a: Job, b: Job, c: Job, d: Job, e: Job)
    requires Sensible(s) && Stages(s, j, a, b, c, d, e)
    ensures ScheduledFrom(j, a) && IdentifiedFrom(s, a, b) && ContractedFrom(s, b, c)
    ensures PromptedFrom(s, c, d) && MeasuredFrom(s, d, e)
    ensures forall key :: Kept(j, a, b, c, d, e, key)
  {
    ScheduleWritten(j);
    IdWritten(s, a);
    ContractWritten(s, b);
    PromptWritten(s, c);
    MetricsWritten(s, d);
    hide ScheduledFrom, IdentifiedFrom, ContractedFrom, PromptedFrom, MeasuredFrom, Sensible, ContractKey;
    hide NormalizeSchedule, EnsureId, StampContract, StampDiscovery, StampMetrics, Held;
  }

  lemma {:induction false} KeptAlike(j: Job, a: Job, b: Job, c: Job, d: Job, e: Job)
    requires forall key :: Kept(j, a, b, c, d, e, key)
    ensures Alike(b, j, IdKeys) && Alike(c, e, PromptKeys)
    ensures forall key :: !StampKey(key) ==> Held(e, key) == Held(j, key)
  {
    hide ContractKey, Held;
    forall key | !IdKeys(key) ensures Held(b, key) == Held(j, key) {
      assert Kept(j, a, b, c, d, e, key);
    }
    forall key | !PromptKeys(key) ensures Held(c, key) == Held(e, key) {
      assert Kept(j, a, b, c, d, e, key);
    }
    forall key | !StampKey(key) ensures Held(e, key) == Held(j, key) {
      assert Kept(j, a, b, c, d, e, key);
    }
  }

  /** What each stage writes is still so at the end. */
  lemma FromStages(s: Stamper, j: Job, a: Job, b: Job, c: Job, d: Job, e: Job)
    requires ScheduledFrom(j, a) && IdentifiedFrom(s, a, b) && PromptedFrom(s, c, d) && MeasuredFrom(s, d, e)
    requires forall key :: Kept(j, a, b, c, d, e, key)
    ensures ScheduledFrom(j, e) && IdentifiedFrom(s, j, e) && PromptedFrom(s, j, e) && MeasuredFrom(s, j, e)
  {
    NamesKept(j, a, b, c, d, e);
    PromptsKept(j, a, b, c, d, e);
    hide ScheduledFrom, IdentifiedFrom, PromptedFrom, MeasuredFrom, Kept;
    ScheduleCarries(j, a, e);
    IdCarries(s, a, b, j, e);
    PromptCarries(s, c, d, j, e);
    MetricsCarry(s, d, e, j);
  }

  lemma NamesKept(j: Job, a: Job, b: Job, c: Job, d: Job, e: Job)
    requires forall key :: Kept(j, a, b, c, d, e, key)
    ensures Held(a, "schedule") == Held(e, "schedule") && Held(b, "id") == Held(e, "id") && Get(a, "id") == Get(j, "id")
    ensures Held(a, "name") == Held(j, "name") && Held(c, "name") == Held(j, "name")
  {
    assert Kept(j, a, b, c, d, e, "schedule") && Kept(j, a, b, c, d, e, "id") && Kept(j, a, b, c, d, e, "name");
  }

  lemma PromptsKept(j: Job, a: Job, b: Job, c: Job, d: Job, e: Job)
    requires forall key :: Kept(j, a, b, c, d, e, key)
    ensures Held(c, "prompt") == Held(j, "prompt") && Held(d, "prompt") == Held(e, "prompt")
    ensures Get(c, "no_agent") == Get(j, "no_agent") && Held(d, "prompt_metrics") == Held(j, "prompt_metrics")
  {
    assert Kept(j, a, b, c, d, e, "prompt") && Kept(j, a, b, c, d, e, "prompt_metrics");
    assert Kept(j, a, b, c, d, e, "no_agent");
  }

  /** A deployed job holds, key by key, what its source job asks for: its schedule, id, contract fields,
      environment, prompt and prompt size as described, and every other key as the source has it. */
  lemma StampWrites(s: Stamper, j: Job)
    requires Sensible(s)
    ensures DeployedFrom(s, j, Stamp(s, j))
  {
    var a := NormalizeSchedule(j);
    var b := EnsureId(s, a);
    var c := StampContract(s, b);
    var d := StampDiscovery(s, c);
    var e := StampMetrics(s, d);
    StagesWrite(s, j, a, b, c, d, e);
    hide ScheduledFrom, IdentifiedFrom, ContractedFrom, PromptedFrom, MeasuredFrom, Sensible, Kept, StampKey;
    KeptAlike(j, a, b, c, d, e);
    InputsAlike(b, j);
    OutputsAlike(c, e);
    hide NormalizeSchedule, EnsureId, StampContract, StampDiscovery, StampMetrics, Held, Alike, SameInputs, SameOutputs;
    ContractCarries(s, b, c, j, e);
    FromStages(s, j, a, b, c, d, e);
  }
}
