/** The stamp pipeline a job passes on its way into the deployed artifact: `_dump_jobs` of
    `scripts/cron_pack_split.py`. */
module Stamping {
  import opened Jobs
  import opened Replacing
  import opened Text
  import opened Values
  import opened WriterBinding

  const RUBRIC_MARK := "A=completely reliable"
  const DISCOVERY_MARK := "MCP DISCOVERY CONTRACT:"
  const RUBRIC_LANE := "source-quality-backfill"

  /** What stamping takes from elsewhere: the id minted from a name, the digest of a contract, the UTF-8
      size of a text, `str`, and the two texts appended to prompts. */
  datatype Stamper = Stamper(
    mint: string -> string,
    contractDigest: Value -> string,
    bytes: string -> nat,
    text: Value -> string,
    rubric: string,
    discovery: string)

  /** Minted ids are not blank, `str` of a value that is true is not empty, and each appended text has
      the mark it is recognised by. */
  ghost predicate Sensible(s: Stamper) {
    && (forall name :: Strip(s.mint(name)) != "")
    && (forall v :: Truthy(v) ==> s.text(v) != "")
    && Contains(s.rubric, RUBRIC_MARK)
    && Contains(s.discovery, DISCOVERY_MARK)
  }

  function RightStripped(text: string): (r: string)
    ensures r <= text
  {
    if text != [] && Space(text[|text| - 1]) then RightStripped(text[..|text| - 1]) else text
  }

  function CronSchedule(expr: string): Value {
    Obj(map["kind" := Str("cron"), "expr" := Str(Strip(expr))])
  }

  predicate Blank(v: Value) {
    !v.Str? || Strip(v.s) == ""
  }

  /** `_normalize_schedule` */
  function NormalizeSchedule(j: Job): Job {
    if !Blank(Get(j, "schedule")) then j["schedule" := CronSchedule(j["schedule"].s)]
    else if Get(j, "schedule") == Null && !Blank(Get(j, "expr")) then j["schedule" := CronSchedule(j["expr"].s)]
    else j
  }

  /** `_ensure_id` */
  function EnsureId(s: Stamper, j: Job): Job {
    var id := Get(j, "id");
    if !Truthy(id) || (id.Str? && Strip(id.s) == "") then j["id" := Str(s.mint(NameText(j)))] else j
  }

  function TextOf(s: Stamper, v: Value): string {
    if !Truthy(v) then "" else if v.Str? then v.s else s.text(v)
  }

  /** `selection_manifest` of a contract that completes per selected item. */
  function SelectionManifest(s: Stamper, j: Job): string {
    var explicit := TextOf(s, Get(j, "selection_manifest"));
    if explicit != "" then explicit else "/opt/data/cron-plus/selections/" + NameText(j) + ".json"
  }

  function Default(j: Job, key: string, v: Value): Job {
    if key in j then j else j[key := v]
  }

  predicate PerItem(j: Job) {
    Contracted(j) && Get(j["output_contract"].fields, "completion") == Str("per-selected-item")
  }

  function DigestOf(s: Stamper, j: Job): Value {
    Str(s.contractDigest(Get(j, "output_contract")))
  }

  /** The fields a contract stamp sets. */
  function ContractFields(s: Stamper, j: Job): Job {
    var digested := j["output_contract_digest" := DigestOf(s, j)];
    if !PerItem(j) then digested
    else
      var manifested := digested["selection_manifest" := Str(SelectionManifest(s, j))];
      Default(Default(manifested, "receipt_mode", Str("enforce")), "receipt_hash_mode", Str("readback"))
  }

  /** The environment a contract stamp leaves. */
  function ContractEnv(s: Stamper, j: Job): map<string, Value> {
    var lane := Str(TextOf(s, Get(j, "id")));
    var env := EnvOf(j)["OKENGINE_LANE_ID" := lane]["OKENGINE_CONTRACT_DIGEST" := DigestOf(s, j)];
    if PerItem(j) then env["OKENGINE_SELECTION_MANIFEST" := Str(SelectionManifest(s, j))] else env
  }

  /** `_stamp_output_contract` */
  function StampContract(s: Stamper, j: Job): Job {
    if !Contracted(j) then j else ContractFields(s, j)["env" := Obj(ContractEnv(s, j))]
  }

  /** What is appended to a prompt. */
  function Additions(s: Stamper, name: string, prompt: string): string {
    (if Before(name, '@') == RUBRIC_LANE && !Contains(prompt, RUBRIC_MARK) then s.rubric else "")
    + (if !Contains(prompt, DISCOVERY_MARK) then s.discovery else "")
  }

  /** `_stamp_mcp_discovery_contract` */
  function StampDiscovery(s: Stamper, j: Job): Job {
    var prompt := Get(j, "prompt");
    if !Agent(j) || Blank(prompt) then j
    else
      var additions := Additions(s, NameText(j), prompt.s);
      if additions == "" then j else j["prompt" := Str(RightStripped(prompt.s) + additions)]
  }

  /** `_stamp_prompt_metrics` */
  function StampMetrics(s: Stamper, j: Job): Job {
    var prompt := Get(j, "prompt");
    if Blank(prompt) then j
    else
      var size := s.bytes(prompt.s);
      j["prompt_metrics" := Obj(map["bytes" := Num(size), "estimated_tokens" := Num((size + 3) / 4)])]
  }

  function Stamp(s: Stamper, j: Job): Job {
    StampMetrics(s, StampDiscovery(s, StampContract(s, EnsureId(s, NormalizeSchedule(j)))))
  }

  // ---------------------------------------------------------------------------------------------
  // Each stamp twice
  // ---------------------------------------------------------------------------------------------

  lemma ManifestTwice(s: Stamper, j: Job)
    ensures SelectionManifest(s, j) != ""
    ensures forall k: Job :: Get(k, "selection_manifest") == Str(SelectionManifest(s, j)) ==>
              SelectionManifest(s, k) == SelectionManifest(s, j)
  {
    hide NameText;
    assert |"/opt/data/cron-plus/selections/" + NameText(j) + ".json"| > 0;
  }

  lemma SetAgain(j: map<string, Value>, key: string, v: Value)
    requires Held(j, key) == Some(v)
    ensures j[key := v] == j
  {
  }

  lemma ContractTwice(s: Stamper, j: Job)
    ensures StampContract(s, StampContract(s, j)) == StampContract(s, j)
  {
    if Contracted(j) {
      var c := StampContract(s, j);
      FieldsTwice(s, j, Obj(ContractEnv(s, j)));
      assert EnvOf(c) == ContractEnv(s, j);
      EnvTwice(s, j, c);
      SetAgain(c, "env", Obj(ContractEnv(s, j)));
      hide ContractFields, ContractEnv, EnvOf, DigestOf, SelectionManifest, PerItem;
    }
  }

  /** The keys a contract stamp writes. */
  predicate ContractKey(key: string) {
    key in {"output_contract_digest", "selection_manifest", "receipt_mode", "receipt_hash_mode", "env"}
  }

  lemma StampedElsewhere(s: Stamper, j: Job, key: string)
    requires !ContractKey(key)
    ensures Held(StampContract(s, j), key) == Held(j, key) && Get(StampContract(s, j), key) == Get(j, key)
    ensures Get(ContractFields(s, j), key) == Get(j, key)
  {
    hide ContractEnv, DigestOf, SelectionManifest, PerItem, Contracted;
  }

  lemma FieldsTwice(s: Stamper, j: Job, env: Value)
    requires Contracted(j)
    ensures var c := ContractFields(s, j)["env" := env];
            && ContractFields(s, c) == c
            && Contracted(c) && (PerItem(c) <==> PerItem(j)) && DigestOf(s, c) == DigestOf(s, j)
            && Get(c, "id") == Get(j, "id")
            && (PerItem(j) ==> SelectionManifest(s, c) == SelectionManifest(s, j))
  {
    var c := ContractFields(s, j)["env" := env];
    StampedElsewhere(s, j, "output_contract");
    StampedElsewhere(s, j, "id");
    assert Contracted(c) && (PerItem(c) <==> PerItem(j)) && DigestOf(s, c) == DigestOf(s, j);
    ManifestTwice(s, j);
    hide SelectionManifest, DigestOf, PerItem, Contracted;
    SetAgain(c, "output_contract_digest", DigestOf(s, j));
    if PerItem(j) {
      SetAgain(c, "selection_manifest", Str(SelectionManifest(s, j)));
      assert "receipt_mode" in c && "receipt_hash_mode" in c;
    }
  }

  lemma EnvTwice(s: Stamper, j: Job, c: Job)
    requires EnvOf(c) == ContractEnv(s, j) && (PerItem(c) <==> PerItem(j)) && DigestOf(s, c) == DigestOf(s, j)
    requires Get(c, "id") == Get(j, "id") && (PerItem(j) ==> SelectionManifest(s, c) == SelectionManifest(s, j))
    ensures ContractEnv(s, c) == ContractEnv(s, j)
  {
    var env := ContractEnv(s, j);
    hide DigestOf, SelectionManifest, PerItem, EnvOf, TextOf;
    SetAgain(env, "OKENGINE_LANE_ID", Str(TextOf(s, Get(j, "id"))));
    SetAgain(env, "OKENGINE_CONTRACT_DIGEST", DigestOf(s, j));
    if PerItem(j) {
      SetAgain(env, "OKENGINE_SELECTION_MANIFEST", Str(SelectionManifest(s, j)));
    }
  }

  lemma ContainsJoined(head: string, tail: string, mark: string)
    requires Contains(head, mark) || Contains(tail, mark)
    ensures Contains(head + tail, mark)
  {
    hide Contains;
    if Contains(head, mark) {
      var i: nat :| OccursAt(mark, head, i);
      assert (head + tail)[i..i + |mark|] == head[i..i + |mark|];
      assert OccursAt(mark, head + tail, i);
    } else {
      var i: nat :| OccursAt(mark, tail, i);
      assert (head + tail)[|head| + i..|head| + i + |mark|] == tail[i..i + |mark|];
      assert OccursAt(mark, head + tail, |head| + i);
    }
  }

  lemma StrippedKeepsMark(text: string, mark: string)
    requires Contains(text, mark) && mark != [] && !Space(mark[|mark| - 1])
    ensures Contains(RightStripped(text), mark)
  {
    var i: nat :| OccursAt(mark, text, i);
    var k := i + |mark|;
    assert text[k - 1] == mark[|mark| - 1];
    StrippedReaches(text, k);
    hide Contains, RightStripped, Space;
    StartKeepsMark(text, RightStripped(text), i, mark);
  }

  lemma StartKeepsMark(text: string, start: string, i: nat, mark: string)
    requires start <= text && i + |mark| <= |start| && OccursAt(mark, text, i)
    ensures Occurs(mark, start)
  {
    assert start[i..i + |mark|] == text[i..i + |mark|];
    assert OccursAt(mark, start, i);
  }

  lemma {:induction false} StrippedReaches(text: string, k: nat)
    requires 0 < k <= |text| && !Space(text[k - 1])
    ensures |RightStripped(text)| >= k
  {
    if k < |text| {
      StrippedReaches(text[..|text| - 1], k);
    }
  }

  lemma Marks()
    ensures RUBRIC_MARK != [] && !Space(RUBRIC_MARK[|RUBRIC_MARK| - 1])
    ensures DISCOVERY_MARK != [] && !Space(DISCOVERY_MARK[|DISCOVERY_MARK| - 1])
  {
  }

  /** Whatever mark was missing has been appended. */
  lemma NothingMoreToAdd(s: Stamper, name: string, prompt: string)
    requires Sensible(s)
    ensures Additions(s, name, RightStripped(prompt) + Additions(s, name, prompt)) == ""
  {
    Marks();
    hide Contains, Space, RightStripped, Before;
    var rubric := if Before(name, '@') == RUBRIC_LANE && !Contains(prompt, RUBRIC_MARK) then s.rubric else "";
    var discovery := if !Contains(prompt, DISCOVERY_MARK) then s.discovery else "";
    assert Contains(s.rubric, RUBRIC_MARK) && Contains(s.discovery, DISCOVERY_MARK);
    hide Sensible;
    if Contains(prompt, DISCOVERY_MARK) {
      StrippedKeepsMark(prompt, DISCOVERY_MARK);
    } else {
      ContainsJoined(rubric, discovery, DISCOVERY_MARK);
    }
    ContainsJoined(RightStripped(prompt), rubric + discovery, DISCOVERY_MARK);
    if Before(name, '@') == RUBRIC_LANE {
      if Contains(prompt, RUBRIC_MARK) {
        StrippedKeepsMark(prompt, RUBRIC_MARK);
      } else {
        ContainsJoined(rubric, discovery, RUBRIC_MARK);
      }
      ContainsJoined(RightStripped(prompt), rubric + discovery, RUBRIC_MARK);
    }
  }

  lemma DiscoveryTwice(s: Stamper, j: Job)
    requires Sensible(s)
    ensures StampDiscovery(s, StampDiscovery(s, j)) == StampDiscovery(s, j)
  {
    if Get(j, "prompt").Str? {
      NothingMoreToAdd(s, NameText(j), j["prompt"].s);
      SetPromptKeepsName(j, Get(StampDiscovery(s, j), "prompt"));
      hide Additions, RightStripped, Sensible, NameText, Strip;
    }
  }

  lemma SetPromptKeepsName(j: Job, v: Value)
    ensures NameText(j["prompt" := v]) == NameText(j)
  {
  }

  // ---------------------------------------------------------------------------------------------
  // The pipeline twice
  // ---------------------------------------------------------------------------------------------

  predicate Scheduled(j: Job) {
    Blank(Get(j, "schedule")) && (Get(j, "schedule") == Null ==> Blank(Get(j, "expr")))
  }

  predicate HasId(j: Job) {
    Truthy(Get(j, "id")) && (Get(j, "id").Str? ==> Strip(j["id"].s) != "")
  }

  lemma ScheduleDone(j: Job)
    ensures Scheduled(NormalizeSchedule(j)) && (Scheduled(j) ==> NormalizeSchedule(j) == j)
  {
    hide Strip;
  }

  lemma IdDone(s: Stamper, j: Job)
    requires Sensible(s)
    ensures HasId(EnsureId(s, j)) && (HasId(j) ==> EnsureId(s, j) == j)
    ensures Scheduled(j) ==> Scheduled(EnsureId(s, j))
  {
    assert Strip(s.mint(NameText(j))) != "" && Strip("") == "";
    hide Sensible, NameText, Strip;
  }

  /** The contract stamp leaves schedule and id alone. */
  lemma ContractFrame(s: Stamper, j: Job)
    ensures Scheduled(j) ==> Scheduled(StampContract(s, j))
    ensures HasId(j) ==> HasId(StampContract(s, j))
  {
    StampedElsewhere(s, j, "schedule");
    StampedElsewhere(s, j, "expr");
    StampedElsewhere(s, j, "id");
    hide StampContract, Blank, Strip;
  }

  /** Keys the first three stamps do not read. */
  predicate Unread(key: string) {
    key == "prompt" || key == "prompt_metrics" || key == "enabled"
  }

  lemma UnreadFrame(s: Stamper, j: Job, key: string, v: Value)
    requires Unread(key)
    ensures Scheduled(j) ==> Scheduled(j[key := v])
    ensures HasId(j) ==> HasId(j[key := v])
    ensures StampContract(s, j) == j ==> StampContract(s, j[key := v]) == j[key := v]
  {
    hide Strip;
    if StampContract(s, j) == j {
      ContractIgnores(s, j, key, v);
    }
  }

  lemma ContractIgnores(s: Stamper, j: Job, key: string, v: Value)
    requires Unread(key) && StampContract(s, j) == j
    ensures StampContract(s, j[key := v]) == j[key := v]
  {
    var k := j[key := v];
    SameReadings(s, j, key, v);
    UnreadApart(key);
    hide Unread, ContractEnv, Contracted, PerItem, EnvOf, DigestOf, SelectionManifest, NameText, Get;
    if Contracted(j) {
      FieldsIgnore(s, j, key, v);
      hide ContractFields;
      Swapped(ContractFields(s, j), key, v, "env", Obj(ContractEnv(s, j)));
    }
  }

  lemma UnreadApart(key: string)
    requires Unread(key)
    ensures key != "output_contract" && key != "id" && key != "env" && key != "name"
    ensures key != "output_contract_digest" && key != "selection_manifest" && key != "receipt_mode"
              && key != "receipt_hash_mode"
  {
  }

  lemma SameReadings(s: Stamper, j: Job, key: string, v: Value)
    requires Unread(key)
    ensures var k := j[key := v];
            && Contracted(k) == Contracted(j) && PerItem(k) == PerItem(j) && DigestOf(s, k) == DigestOf(s, j)
            && SelectionManifest(s, k) == SelectionManifest(s, j) && ContractEnv(s, k) == ContractEnv(s, j)
  {
    UnreadApart(key);
    hide Unread;
    var k := j[key := v];
    assert Get(k, "output_contract") == Get(j, "output_contract") && Get(k, "id") == Get(j, "id")
        && Get(k, "env") == Get(j, "env");
    assert Get(k, "selection_manifest") == Get(j, "selection_manifest") && NameText(k) == NameText(j);
    hide Get, TextOf, NameText;
  }

  lemma Swapped(j: Job, a: string, v: Value, b: string, w: Value)
    requires a != b
    ensures j[a := v][b := w] == j[b := w][a := v]
    ensures Default(j[a := v], b, w) == Default(j, b, w)[a := v]
  {
  }

  lemma FieldsIgnore(s: Stamper, j: Job, key: string, v: Value)
    requires Unread(key) && PerItem(j[key := v]) == PerItem(j)
    requires DigestOf(s, j[key := v]) == DigestOf(s, j) && SelectionManifest(s, j[key := v]) == SelectionManifest(s, j)
    ensures ContractFields(s, j[key := v]) == ContractFields(s, j)[key := v]
  {
    UnreadApart(key);
    hide PerItem, DigestOf, SelectionManifest, Unread, Default;
    var digest, manifest := DigestOf(s, j), Str(SelectionManifest(s, j));
    Swapped(j, key, v, "output_contract_digest", digest);
    var digested := j["output_contract_digest" := digest];
    Swapped(digested, key, v, "selection_manifest", manifest);
    var selected := digested["selection_manifest" := manifest];
    Swapped(selected, key, v, "receipt_mode", Str("enforce"));
    Swapped(Default(selected, "receipt_mode", Str("enforce")), key, v, "receipt_hash_mode", Str("readback"));
  }

  lemma DiscoveryIgnoresMetrics(s: Stamper, j: Job, v: Value)
    requires StampDiscovery(s, j) == j
    ensures StampDiscovery(s, j["prompt_metrics" := v]) == j["prompt_metrics" := v]
  {
    var k := j["prompt_metrics" := v];
    assert Get(k, "prompt") == Get(j, "prompt") && Agent(k) == Agent(j) && NameText(k) == NameText(j);
    hide Agent, NameText, Additions, RightStripped, Blank;
  }

  lemma MetricsTwice(s: Stamper, j: Job)
    ensures StampMetrics(s, StampMetrics(s, j)) == StampMetrics(s, j)
  {
    hide Strip;
  }

  /** No stamp has anything left to do. */
  ghost predicate Stamped(s: Stamper, j: Job) {
    Scheduled(j) && HasId(j) && StampContract(s, j) == j && StampDiscovery(s, j) == j && StampMetrics(s, j) == j
  }

  lemma StampedIsFixed(s: Stamper, j: Job)
    requires Sensible(s) && Stamped(s, j)
    ensures Stamp(s, j) == j
  {
    ScheduleDone(j);
    IdDone(s, j);
    hide Sensible, StampContract, StampDiscovery, StampMetrics, Scheduled, HasId;
  }

  lemma StampFinishes(s: Stamper, j: Job)
    requires Sensible(s)
    ensures Stamped(s, Stamp(s, j))
  {
    var a := NormalizeSchedule(j);
    var b := EnsureId(s, a);
    var c := StampContract(s, b);
    var d := StampDiscovery(s, c);
    var e := StampMetrics(s, d);
    ScheduleDone(j);
    IdDone(s, a);
    ContractFrame(s, b);
    ContractTwice(s, b);
    assert Scheduled(c) && HasId(c);
    DiscoveryTwice(s, c);
    UnreadFrame(s, c, "prompt", Get(d, "prompt"));
    assert Scheduled(d) && HasId(d) && StampContract(s, d) == d;
    UnreadFrame(s, d, "prompt_metrics", Get(e, "prompt_metrics"));
    DiscoveryIgnoresMetrics(s, d, Get(e, "prompt_metrics"));
    assert Scheduled(e) && HasId(e) && StampContract(s, e) == e && StampDiscovery(s, e) == e;
    MetricsTwice(s, d);
  }

  /** Stamping a stamped job changes nothing. */
  lemma StampIdempotent(s: Stamper, j: Job)
    requires Sensible(s)
    ensures Stamp(s, Stamp(s, j)) == Stamp(s, j)
  {
    StampFinishes(s, j);
    hide Stamp, Stamped, Sensible;
    StampedIsFixed(s, Stamp(s, j));
  }

  /** A stamp does not look at `enabled`. */
  lemma StampedEitherWay(s: Stamper, j: Job, v: Value)
    requires Stamped(s, j)
    ensures Stamped(s, j["enabled" := v])
  {
    var k := j["enabled" := v];
    UnreadFrame(s, j, "enabled", v);
    assert Get(k, "prompt") == Get(j, "prompt") && Agent(k) == Agent(j) && NameText(k) == NameText(j);
    hide Agent, NameText, Additions, RightStripped, Blank, Scheduled, HasId, StampContract;
  }

  /** The keys stamping may write. */
  predicate StampKey(key: string) {
    ContractKey(key) || key in {"schedule", "id", "prompt", "prompt_metrics"}
  }

  lemma StampElsewhere(s: Stamper, j: Job, key: string)
    requires !StampKey(key)
    ensures Held(Stamp(s, j), key) == Held(j, key)
  {
    var b := EnsureId(s, NormalizeSchedule(j));
    StampedElsewhere(s, b, key);
    var c := StampContract(s, b);
    assert key != "schedule" && key != "id" && key != "prompt" && key != "prompt_metrics";
    hide StampKey, ContractKey, StampContract;
    NamedElsewhere(s, j, key);
    PromptsElsewhere(s, c, key);
  }

  lemma NamedElsewhere(s: Stamper, j: Job, key: string)
    requires key != "schedule" && key != "id"
    ensures Held(EnsureId(s, NormalizeSchedule(j)), key) == Held(j, key)
  {
    hide Blank, CronSchedule, NameText, Strip;
  }

  lemma PromptsElsewhere(s: Stamper, j: Job, key: string)
    requires key != "prompt" && key != "prompt_metrics"
    ensures Held(StampMetrics(s, StampDiscovery(s, j)), key) == Held(j, key)
  {
    hide Blank, Additions, RightStripped, NameText, Agent;
  }

  /** The variables stamping sets. */
  predicate StampVariable(name: string) {
    name == "OKENGINE_LANE_ID" || name == "OKENGINE_CONTRACT_DIGEST" || name == "OKENGINE_SELECTION_MANIFEST"
  }

  /** Stamping only adds its own variables to the environment. */
  lemma StampKeepsEnv(s: Stamper, j: Job, name: string)
    requires !StampVariable(name) && Get(j, "env").Obj?
    ensures Get(Stamp(s, j), "env").Obj? && Held(EnvOf(Stamp(s, j)), name) == Held(EnvOf(j), name)
  {
    var b := EnsureId(s, NormalizeSchedule(j));
    NamedElsewhere(s, j, "env");
    ContractKeepsEnv(s, b, name);
    PromptsElsewhere(s, StampContract(s, b), "env");
    hide NormalizeSchedule, EnsureId, StampContract, StampDiscovery, StampMetrics;
  }

  lemma ContractKeepsEnv(s: Stamper, j: Job, name: string)
    requires !StampVariable(name) && Get(j, "env").Obj?
    ensures Get(StampContract(s, j), "env").Obj? && Held(EnvOf(StampContract(s, j)), name) == Held(EnvOf(j), name)
  {
    hide ContractFields, DigestOf, SelectionManifest, PerItem, TextOf, Contracted;
  }
}
