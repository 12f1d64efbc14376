/** Per-lane write servers: their names, and the binding of contracted lanes and prompts to them, of
    `scripts/cron_pack_split.py`. */
module WriterBinding {
  import opened Graphs
  import opened Jobs
  import opened Replacing
  import opened Values

  // ---------------------------------------------------------------------------------------------
  // Server names
  // ---------------------------------------------------------------------------------------------

  const GENERIC := "okengine-write"
  const WRITER_STEM := "okengine-write-"
  const MCP_STEM := "mcp__"
  const TOOL_NAME_MAX: nat := 64
  const LONGEST_WRITE_TOOL := "record_machine_review"
  const NAME_TARGET: nat := 36
  const DIGEST_LENGTH: nat := 8

  /** The first hex digits of a SHA-256. */
  type Digest = string -> string

  function Lower(c: char): char {
    if 'A' <= c <= 'Z' then c - 'A' + 'a' else c
  }

  predicate IsSlugChar(c: char) {
    'a' <= c <= 'z' || '0' <= c <= '9'
  }

  /** Lower case, every run of other characters folded to one dash. */
  function Folded(s: string): string {
    if s == [] then []
    else
      var rest, c := Folded(s[..|s| - 1]), Lower(s[|s| - 1]);
      if IsSlugChar(c) then rest + [c]
      else if rest != [] && rest[|rest| - 1] == '-' then rest
      else rest + ['-']
  }

  function WithoutTrailingDashes(s: string): (r: string)
    ensures r <= s && (r != [] ==> r[|r| - 1] != '-')
    ensures forall i :: |r| <= i < |s| ==> s[i] == '-'
  {
    if s != [] && s[|s| - 1] == '-' then WithoutTrailingDashes(s[..|s| - 1]) else s
  }

  function WithoutLeadingDashes(s: string): (r: string)
    ensures r != [] ==> r[0] != '-'
  {
    if s != [] && s[0] == '-' then WithoutLeadingDashes(s[1..]) else s
  }

  /** `unbounded_writer_name` */
  function UnboundedWriterName(job: string): (name: string)
    ensures WRITER_STEM <= name
  {
    WRITER_STEM + WithoutTrailingDashes(WithoutLeadingDashes(Folded(job)))
  }

  /** `contract_writer_name` */
  function ContractWriterName(digest: Digest, job: string): string {
    var name := UnboundedWriterName(job);
    if |name| <= NAME_TARGET then name
    else WithoutTrailingDashes(name[..NAME_TARGET - DIGEST_LENGTH - 1]) + "-" + digest(name)
  }

  function ToolChar(c: char): char {
    if IsSlugChar(c) || 'A' <= c <= 'Z' || c == '_' then c else '_'
  }

  function Sanitized(s: string): string {
    seq(|s|, i requires 0 <= i < |s| => ToolChar(s[i]))
  }

  /** `write_tool_prefix` */
  function ToolPrefix(server: string): (prefix: string)
    ensures |prefix| == |MCP_STEM| + |server| + 2
    ensures server != [] ==> prefix[|MCP_STEM|] == ToolChar(server[0])
  {
    MCP_STEM + Sanitized(server) + "__"
  }

  /** A lane's own server keeps every write tool's dispatched name within the limit, so no name is
      clamped and no write is lost from a receipt; it is never the generic, actor-less server. */
  lemma WriterNamesSurviveDispatch(digest: Digest, job: string)
    requires |digest(UnboundedWriterName(job))| == DIGEST_LENGTH
    ensures |ContractWriterName(digest, job)| <= NAME_TARGET
    ensures WRITER_STEM <= ContractWriterName(digest, job) && ContractWriterName(digest, job) != GENERIC
    ensures forall tool: string :: |tool| <= |LONGEST_WRITE_TOOL| ==>
              |ToolPrefix(ContractWriterName(digest, job)) + tool| <= TOOL_NAME_MAX
  {
    StemSurvives(job);
    var name, bound := UnboundedWriterName(job), ContractWriterName(digest, job);
    hide UnboundedWriterName, ToolPrefix;
    assert |bound| <= NAME_TARGET;
    assert |bound| >= |WRITER_STEM| > |GENERIC|;
  }

  /** Cutting a long name and trimming its dashes never reaches into the stem. */
  lemma StemSurvives(job: string)
    ensures var name := UnboundedWriterName(job);
            |name| > NAME_TARGET ==> WRITER_STEM <= WithoutTrailingDashes(name[..NAME_TARGET - DIGEST_LENGTH - 1])
  {
    var name := UnboundedWriterName(job);
    if |name| > NAME_TARGET {
      var slug := WithoutTrailingDashes(WithoutLeadingDashes(Folded(job)));
      assert slug[0] == WithoutLeadingDashes(Folded(job))[0];
      var cut := name[..NAME_TARGET - DIGEST_LENGTH - 1];
      assert cut[|WRITER_STEM|] == slug[0] != '-';
      var kept := WithoutTrailingDashes(cut);
      assert |kept| > |WRITER_STEM|;
      assert kept[..|WRITER_STEM|] == cut[..|WRITER_STEM|] == WRITER_STEM;
    }
  }

  // ---------------------------------------------------------------------------------------------
  // Binding
  // ---------------------------------------------------------------------------------------------

  const PLACEHOLDER := "mcp__OKENGINE_WRITER__"
  const PREFIX_ENV := "OKENGINE_WRITE_TOOL_PREFIX"
  const TOOLSETS := "enabled_toolsets"

  predicate Agent(j: Job) {
    !Truthy(Get(j, "no_agent"))
  }

  predicate Contracted(j: Job) {
    Get(j, "output_contract").Obj?
  }

  function NameText(j: Job): string {
    if Named(j) then Name(j) else ""
  }

  /** `job.get("enabled_toolsets") or []` */
  function Tools(j: Job): seq<Value> {
    match Get(j, TOOLSETS)
    case List(items) => items
    case Str(s) => Characters(s)
    case _ => []
  }

  predicate IsWriter(t: Value) {
    t.Str? && (t.s == GENERIC || WRITER_STEM <= t.s)
  }

  function WritersAmong(tools: seq<Value>): (r: seq<Value>)
    ensures forall t :: t in r <==> t in tools && IsWriter(t)
  {
    if tools == [] then []
    else
      var n := |tools| - 1;
      assert tools == tools[..n] + [tools[n]];
      WritersAmong(tools[..n]) + if IsWriter(tools[n]) then [tools[n]] else []
  }

  /** `list(dict.fromkeys(items))` */
  function Once(items: seq<Value>): (r: seq<Value>)
    ensures forall x :: x in r <==> x in items
  {
    if items == [] then []
    else
      var n := |items| - 1;
      assert items == items[..n] + [items[n]];
      var rest := Once(items[..n]);
      if items[n] in rest then rest else rest + [items[n]]
  }

  function Rebound(t: Value, bound: string, stale: string): Value {
    if t == Str(GENERIC) || t == Str(stale) then Str(bound) else t
  }

  function ReboundAll(tools: seq<Value>, bound: string, stale: string): seq<Value> {
    seq(|tools|, i requires 0 <= i < |tools| => Rebound(tools[i], bound, stale))
  }

  /** The toolset of a contracted lane: its own writer in place of the generic one and of its own
      name from before names were bounded. */
  function BoundTools(tools: seq<Value>, bound: string, stale: string): seq<Value> {
    var mapped := ReboundAll(tools, bound, stale);
    Once(if Str(bound) in mapped then mapped else mapped + [Str(bound)])
  }

  function WithTools(digest: Digest, j: Job): Job {
    if Agent(j) && Contracted(j) then
      var name := NameText(j);
      j[TOOLSETS := List(BoundTools(Tools(j), ContractWriterName(digest, name), UnboundedWriterName(name)))]
    else j
  }

  /** The environment, when it is a mapping. */
  function EnvOf(j: Job): map<string, Value> {
    if Get(j, "env").Obj? then j["env"].fields else map[]
  }

  predicate Publishes(j: Job) {
    |WritersAmong(Tools(j))| == 1 && Agent(j)
  }

  function PrefixOf(j: Job): (p: string)
    requires Publishes(j)
    ensures |p| > 5 && p[5] == 'o'
  {
    var writer := WritersAmong(Tools(j))[0];
    assert writer in WritersAmong(Tools(j));
    assert writer.s[0] == GENERIC[0] == WRITER_STEM[0];
    ToolPrefix(writer.s)
  }

  function PublishedPrompt(prompt: Value, prefix: string): Value {
    if prompt.Str? && Contains(prompt.s, PLACEHOLDER) then Str(Replace(prompt.s, PLACEHOLDER, prefix)) else prompt
  }

  /** `_publish_writer` */
  function Publish(j: Job): Job {
    if !Publishes(j) then j
    else
      var prefix := PrefixOf(j);
      var prompted := if "prompt" in j then j["prompt" := PublishedPrompt(j["prompt"], prefix)] else j;
      prompted["env" := Obj(EnvOf(j)[PREFIX_ENV := Str(prefix)])]
  }

  function Bind(digest: Digest, j: Job): Job {
    Publish(WithTools(digest, j))
  }

  function BindAll(digest: Digest, jobs: seq<Job>): seq<Job> {
    seq(|jobs|, i requires 0 <= i < |jobs| => Bind(digest, jobs[i]))
  }

  lemma OnceOneMore(items: seq<Value>, i: nat)
    requires i < |items|
    ensures var rest := Once(items[..i]); Once(items[..i + 1]) == if items[i] in rest then rest else rest + [items[i]]
  {
    assert items[..i + 1][..i] == items[..i];
  }

  /** The toolset loop of one lane. */
  method BindTools(tools: seq<Value>, bound: string, stale: string) returns (r: seq<Value>)
    ensures r == BoundTools(tools, bound, stale)
  {
    var mapped: seq<Value> := [];
    for i := 0 to |tools|
      invariant |mapped| == i
      invariant forall k :: 0 <= k < i ==> mapped[k] == Rebound(tools[k], bound, stale)
    {
      mapped := mapped + [if tools[i] == Str(GENERIC) || tools[i] == Str(stale) then Str(bound) else tools[i]];
    }
    assert mapped == ReboundAll(tools, bound, stale);
    if Str(bound) !in mapped {
      mapped := mapped + [Str(bound)];
    }
    assert BoundTools(tools, bound, stale) == Once(mapped);
    r := [];
    assert Once(mapped[..0]) == r && mapped[..|mapped|] == mapped;
    hide *;
    for i := 0 to |mapped|
      invariant r == Once(mapped[..i])
    {
      OnceOneMore(mapped, i);
      if mapped[i] !in r {
        r := r + [mapped[i]];
      }
    }
  }

  /** `bind_contract_writers` */
  method BindContractWriters(digest: Digest, jobs: seq<Job>) returns (out: seq<Job>)
    ensures out == BindAll(digest, jobs)
  {
    hide Publish, BoundTools, ContractWriterName, UnboundedWriterName, Tools;
    out := [];
    for i := 0 to |jobs|
      invariant |out| == i && forall k :: 0 <= k < i ==> out[k] == Bind(digest, jobs[k])
    {
      var job := jobs[i];
      if Agent(job) && Contracted(job) {
        var name := NameText(job);
        var tools := BindTools(Tools(job), ContractWriterName(digest, name), UnboundedWriterName(name));
        job := job[TOOLSETS := List(tools)];
      }
      out := out + [Publish(job)];
    }
  }

  // ---------------------------------------------------------------------------------------------
  // What binding achieves, and when it can be repeated
  // ---------------------------------------------------------------------------------------------

  lemma {:induction false} OnceDistinct(items: seq<Value>)
    ensures Distinct(Once(items))
  {
    if items != [] {
      OnceDistinct(items[..|items| - 1]);
    }
  }

  lemma {:induction false} OnceOfDistinct(items: seq<Value>)
    requires Distinct(items)
    ensures Once(items) == items
  {
    if items != [] {
      var n := |items| - 1;
      assert items[n] !in items[..n];
      OnceOfDistinct(items[..n]);
    }
  }

  lemma ReboundMembers(tools: seq<Value>, bound: string, stale: string, t: Value)
    ensures t in ReboundAll(tools, bound, stale) <==> exists x :: x in tools && Rebound(x, bound, stale) == t
  {
    var mapped := ReboundAll(tools, bound, stale);
    if exists x :: x in tools && Rebound(x, bound, stale) == t {
      var i :| 0 <= i < |tools| && Rebound(tools[i], bound, stale) == t;
      assert mapped[i] == t;
    }
  }

  /** A bound toolset has the lane's own writer, not the generic one, not the stale name, each tool
      once, and every other tool it had. */
  lemma BoundToolsHold(tools: seq<Value>, bound: string, stale: string)
    requires bound != GENERIC
    ensures var r := BoundTools(tools, bound, stale);
            && Distinct(r) && Str(bound) in r && Str(GENERIC) !in r && (stale != bound ==> Str(stale) !in r)
            && forall t :: t != Str(GENERIC) && t != Str(stale) && t != Str(bound) ==> (t in r <==> t in tools)
  {
    var mapped := ReboundAll(tools, bound, stale);
    OnceDistinct(if Str(bound) in mapped then mapped else mapped + [Str(bound)]);
    forall t ensures t in mapped <==> exists x :: x in tools && Rebound(x, bound, stale) == t {
      ReboundMembers(tools, bound, stale, t);
    }
    hide Once, ReboundAll, Distinct;
  }

  lemma BoundToolsTwice(tools: seq<Value>, bound: string, stale: string)
    requires bound != GENERIC
    ensures BoundTools(BoundTools(tools, bound, stale), bound, stale) == BoundTools(tools, bound, stale)
  {
    BoundToolsHold(tools, bound, stale);
    var r := BoundTools(tools, bound, stale);
    hide BoundTools;
    assert forall i :: 0 <= i < |r| ==> r[i] in r;
    assert ReboundAll(r, bound, stale) == r;
    OnceOfDistinct(r);
    OneBinding(r, bound, stale);
  }

  lemma OneBinding(r: seq<Value>, bound: string, stale: string)
    requires ReboundAll(r, bound, stale) == r && Str(bound) in r && Once(r) == r
    ensures BoundTools(r, bound, stale) == r
  {
  }

  /** The digest has the length the engine takes of it. */
  ghost predicate DigestFits(digest: Digest) {
    forall name :: |digest(name)| == DIGEST_LENGTH
  }

  lemma ToolsSet(j: Job, items: seq<Value>)
    ensures var r := j[TOOLSETS := List(items)];
            && Tools(r) == items && NameText(r) == NameText(j)
            && (Agent(r) <==> Agent(j)) && (Contracted(r) <==> Contracted(j))
  {
  }

  lemma WithToolsTwice(digest: Digest, j: Job)
    requires DigestFits(digest)
    ensures WithTools(digest, WithTools(digest, j)) == WithTools(digest, j)
  {
    if Agent(j) && Contracted(j) {
      var bound, stale := ContractWriterName(digest, NameText(j)), UnboundedWriterName(NameText(j));
      WriterNamesSurviveDispatch(digest, NameText(j));
      hide BoundTools, ContractWriterName, UnboundedWriterName, Tools, NameText, Agent, Contracted, DigestFits;
      var items := BoundTools(Tools(j), bound, stale);
      BoundToolsTwice(Tools(j), bound, stale);
      ToolsSet(j, items);
      assert WithTools(digest, j) == j[TOOLSETS := List(items)];
      SetTwice(j, TOOLSETS, List(items));
    }
  }

  lemma SetTwice(j: Job, key: string, v: Value)
    ensures j[key := v][key := v] == j[key := v]
  {
  }

  /** Publishing touches the prompt and the environment only. */
  lemma PublishKeeps(digest: Digest, j: Job)
    ensures forall key :: key != "prompt" && key != "env" ==> Held(Publish(j), key) == Held(j, key)
    ensures ("prompt" in Publish(j) <==> "prompt" in j)
    ensures Publishes(Publish(j)) <==> Publishes(j)
    ensures Publishes(j) ==>
              PrefixOf(Publish(j)) == PrefixOf(j) && EnvOf(Publish(j)) == EnvOf(j)[PREFIX_ENV := Str(PrefixOf(j))]
    ensures WithTools(digest, j) == j ==> WithTools(digest, Publish(j)) == Publish(j)
    ensures Tools(Publish(j)) == Tools(j) && (Agent(Publish(j)) <==> Agent(j))
  {
    hide PublishedPrompt, BoundTools, ContractWriterName, UnboundedWriterName, ToolPrefix, WritersAmong;
    var p := Publish(j);
    assert Get(p, TOOLSETS) == Get(j, TOOLSETS) && Get(p, "no_agent") == Get(j, "no_agent");
    assert Get(p, "output_contract") == Get(j, "output_contract");
    assert "name" in p <==> "name" in j;
    if Publishes(j) {
      assert Get(p, "env").Obj?;
    }
  }

  /** The gate on bound prompts: no placeholder is left in an agent lane's prompt. */
  predicate PlaceholderLeft(j: Job) {
    Agent(j) && Get(j, "prompt").Str? && Contains(j["prompt"].s, PLACEHOLDER)
  }

  lemma PromptChanges(prompt: string, prefix: string)
    requires Contains(prompt, PLACEHOLDER) && |prefix| > 5 && prefix[5] == 'o'
    ensures Replace(prompt, PLACEHOLDER, prefix) != prompt
  {
    assert |PLACEHOLDER| > 5 && PLACEHOLDER[5] == 'O';
    ReplacingChanges(prompt, PLACEHOLDER, prefix, 5);
  }

  lemma PublishTwice(digest: Digest, j: Job)
    requires Publishes(j)
    ensures Publish(Publish(j)) == Publish(j) <==> !PlaceholderLeft(Publish(j))
  {
    PublishKeeps(digest, j);
    var p := Publish(j);
    var prefix := PrefixOf(j);
    assert p["env"] == Obj(EnvOf(p)) && EnvOf(p)[PREFIX_ENV := Str(prefix)] == EnvOf(p);
    hide PrefixOf, EnvOf, Tools;
    if PlaceholderLeft(p) {
      PromptChanges(p["prompt"].s, prefix);
      hide Replace, Contains;
      assert Publish(p)["prompt"] == Str(Replace(p["prompt"].s, PLACEHOLDER, prefix));
    } else {
      hide Replace, Contains, Publishes, Agent;
      assert "prompt" in p ==> PublishedPrompt(p["prompt"], prefix) == p["prompt"];
      SameLookups(Publish(p), p);
    }
  }

  /** Binding the job a second time changes nothing. */
  predicate BindsOnce(digest: Digest, j: Job) {
    Bind(digest, Bind(digest, j)) == Bind(digest, j)
  }

  /** Binding a bound job changes nothing, exactly when binding resolved its placeholders: the text a
      server's name makes together with what follows it can be a placeholder again. */
  lemma BindIdempotentIff(digest: Digest, j: Job)
    requires DigestFits(digest)
    ensures BindsOnce(digest, j) <==> !(Publishes(WithTools(digest, j)) && PlaceholderLeft(Bind(digest, j)))
  {
    WithToolsTwice(digest, j);
    var t := WithTools(digest, j);
    PublishKeeps(digest, t);
    hide WithTools, PlaceholderLeft;
    if Publishes(t) {
      PublishTwice(digest, t);
    }
  }

  lemma PlaceholderHeaded()
    ensures Headed(PLACEHOLDER) && PLACEHOLDER[0] == 'm' && PLACEHOLDER[5] == 'O' && |PLACEHOLDER| > 5
  {
  }

  /** A prompt does not decide which server a job is bound to. */
  lemma PromptSet(digest: Digest, j: Job, prompt: string)
    ensures var k := j["prompt" := Str(prompt)];
            && WithTools(digest, k) == WithTools(digest, j)["prompt" := Str(prompt)]
            && (Publishes(WithTools(digest, k)) <==> Publishes(WithTools(digest, j)))
            && (Publishes(WithTools(digest, j)) ==> PrefixOf(WithTools(digest, k)) == PrefixOf(WithTools(digest, j)))
  {
    var k := j["prompt" := Str(prompt)];
    SamePromptReads(j, prompt);
    SamePromptReads(WithTools(digest, j), prompt);
    hide Tools, Agent, Contracted, NameText, BoundTools, ContractWriterName, UnboundedWriterName, ToolPrefix;
    if Agent(j) && Contracted(j) {
      EitherOrder(j, "prompt", Str(prompt), TOOLSETS, WithTools(digest, k)[TOOLSETS]);
    }
  }

  lemma EitherOrder(j: Job, a: string, v: Value, b: string, w: Value)
    requires a != b
    ensures j[a := v][b := w] == j[b := w][a := v]
  {
  }

  lemma SamePromptReads(j: Job, prompt: string)
    ensures var k := j["prompt" := Str(prompt)];
            Tools(k) == Tools(j) && Agent(k) == Agent(j) && Contracted(k) == Contracted(j) && NameText(k) == NameText(j)
  {
    var k := j["prompt" := Str(prompt)];
    assert Get(k, TOOLSETS) == Get(j, TOOLSETS) && Get(k, "no_agent") == Get(j, "no_agent");
    assert Get(k, "output_contract") == Get(j, "output_contract") && Held(k, "name") == Held(j, "name");
  }

  lemma PlaceholderLeftIff(t: Job, prompt: string)
    requires Publishes(t) && "prompt" in t && t["prompt"] == Str(prompt)
    ensures PlaceholderLeft(Publish(t)) <==> Contains(Replace(prompt, PLACEHOLDER, PrefixOf(t)), PLACEHOLDER)
  {
    var prefix := PrefixOf(t);
    if !Contains(prompt, PLACEHOLDER) {
      NothingToReplace(prompt, PLACEHOLDER, prefix);
    }
    hide Contains, Replace, PrefixOf, Tools, WritersAmong, EnvOf;
    assert Get(Publish(t), "no_agent") == Get(t, "no_agent");
  }

  /** The job binds once, whatever its prompt. */
  ghost predicate AlwaysBindsOnce(digest: Digest, j: Job) {
    forall prompt: string :: BindsOnce(digest, j["prompt" := Str(prompt)])
  }

  /** A job binds once whatever its prompt exactly when it publishes no server, or one whose prefix holds
      no placeholder and ends with no start of one. */
  lemma AlwaysBindsOnceIff(digest: Digest, j: Job)
    requires DigestFits(digest)
    ensures var t := WithTools(digest, j);
            AlwaysBindsOnce(digest, j) <==> (Publishes(t) ==> Clean(PrefixOf(t), PLACEHOLDER))
  {
    var t := WithTools(digest, j);
    PlaceholderHeaded();
    hide WithTools, Publish, PlaceholderLeft, Publishes, PrefixOf, BindsOnce, Contains, Replace, DigestFits;
    forall prompt: string
      ensures BindsOnce(digest, j["prompt" := Str(prompt)]) <==>
                (Publishes(t) ==> !Contains(Replace(prompt, PLACEHOLDER, PrefixOf(t)), PLACEHOLDER))
    {
      PromptSet(digest, j, prompt);
      BindIdempotentIff(digest, j["prompt" := Str(prompt)]);
      if Publishes(t) {
        PlaceholderLeftIff(t["prompt" := Str(prompt)], prompt);
      }
    }
    if Publishes(t) {
      PrefixStarts(t);
      LeavesNoneIff(PLACEHOLDER, PrefixOf(t));
      if !LeavesNone(PLACEHOLDER, PrefixOf(t)) {
        var prompt: string :| Contains(Replace(prompt, PLACEHOLDER, PrefixOf(t)), PLACEHOLDER);
        assert !BindsOnce(digest, j["prompt" := Str(prompt)]);
      }
    }
  }

  lemma PrefixStarts(t: Job)
    requires Publishes(t)
    ensures PrefixOf(t) != [] && PrefixOf(t)[0] == 'm'
  {
    hide WritersAmong, Tools;
  }

  // ---------------------------------------------------------------------------------------------
  // Which server names bind once
  // ---------------------------------------------------------------------------------------------

  lemma PrefixHasNoCapital(server: string)
    requires 'O' !in server
    ensures 'O' !in ToolPrefix(server)
  {
    forall i | 0 <= i < |server| ensures ToolChar(server[i]) != 'O' {
      assert server[i] in server;
    }
  }

  /** What of the placeholder's text decides where it can start. */
  predicate LikePlaceholder(a: string) {
    |a| > 5 && a[0] == 'm' && a[1] == 'c' && a[2] == 'p' && a[5] == 'O'
  }

  predicate EndsLow(s: string) {
    |s| >= 2 && s[|s| - 1] == '_' && s[|s| - 2] == '_'
  }

  /** What holds more than five characters of such a text's start holds a capital. */
  lemma CapitalOf(s: string, a: string, i: nat, k: nat)
    requires LikePlaceholder(a) && 5 < k <= |a| && i + k <= |s| && s[i..i + k] == a[..k]
    ensures 'O' in s
  {
    assert s[i + 5] == s[i..i + k][5] == a[..k][5];
  }

  lemma LastOf(s: string, end: string)
    requires EndsWith(s, end) && end != []
    ensures s != [] && s[|s| - 1] == end[|end| - 1]
  {
    assert s[|s| - 1] == s[|s| - |end|..][|end| - 1];
  }

  lemma LastTwoOf(s: string, end: string)
    requires EndsWith(s, end) && |end| >= 2
    ensures |s| >= 2 && s[|s| - 1] == end[|end| - 1] && s[|s| - 2] == end[|end| - 2]
  {
    LastOf(s, end);
    assert s[|s| - 2] == s[|s| - |end|..][|end| - 2];
  }

  lemma FewAreNoEnd(s: string, a: string, k: nat)
    requires LikePlaceholder(a) && EndsLow(s) && 0 < k < 5
    ensures !EndsWith(s, a[..k])
  {
    var end := a[..k];
    assert end[k - 1] == a[k - 1];
    if EndsWith(s, end) {
      LastOf(s, end);
      if k > 1 {
        LastTwoOf(s, end);
      }
    }
  }

  /** A start of such a text that ends in two underscores has five characters, if it has no capital. */
  lemma StartOfFive(s: string, a: string, k: nat)
    requires LikePlaceholder(a) && 0 < k < |a| && EndsWith(s, a[..k]) && EndsLow(s) && 'O' !in s
    ensures k == 5
  {
    if k > 5 {
      CapitalOf(s, a, |s| - k, k);
    } else if k < 5 {
      FewAreNoEnd(s, a, k);
    }
  }

  lemma CleanLowIff(s: string, a: string)
    requires LikePlaceholder(a) && EndsLow(s) && 'O' !in s
    ensures Clean(s, a) <==> !EndsWith(s, a[..5])
  {
    hide Contains, LikePlaceholder, EndsLow, EndsWith;
    assert |a| > 5 by { LongEnough(a); }
    if Contains(s, a) {
      var i: nat :| OccursAt(a, s, i);
      assert a[..|a|] == a;
      CapitalOf(s, a, i, |a|);
    }
    if k :| 0 < k < |a| && EndsWith(s, a[..k]) {
      StartOfFive(s, a, k);
    }
  }

  lemma LongEnough(a: string)
    requires LikePlaceholder(a)
    ensures |a| > 5
  {
  }

  lemma SuffixOfPrefix(server: string)
    requires |server| >= 3
    ensures EndsWith(ToolPrefix(server), MCP_STEM) <==> EndsWith(server, "mcp")
    ensures EndsLow(ToolPrefix(server))
  {
    var p, n := ToolPrefix(server), |server|;
    var m := |p|;
    assert p[m - 5] == ToolChar(server[n - 3]) && p[m - 4] == ToolChar(server[n - 2])
        && p[m - 3] == ToolChar(server[n - 1]);
    assert p[m - 2] == '_' && p[m - 1] == '_';
    assert p[m - 5..] == [p[m - 5], p[m - 4], p[m - 3], p[m - 2], p[m - 1]];
    assert server[n - 3..] == [server[n - 3], server[n - 2], server[n - 1]];
  }

  lemma PlaceholderStart()
    ensures LikePlaceholder(PLACEHOLDER) && PLACEHOLDER[..5] == MCP_STEM
  {
  }

  /** A server's prefix is clean of the placeholder exactly when its name does not end in `mcp`. */
  lemma CleanServerIff(server: string)
    requires |server| >= 3 && 'O' !in server
    ensures Clean(ToolPrefix(server), PLACEHOLDER) <==> !EndsWith(server, "mcp")
  {
    PrefixHasNoCapital(server);
    SuffixOfPrefix(server);
    PlaceholderStart();
    hide *;
    CleanLowIff(ToolPrefix(server), PLACEHOLDER);
  }

  /** The digest is written in lower-case hexadecimal digits. */
  ghost predicate HexDigest(digest: Digest) {
    forall name, c :: c in digest(name) ==> '0' <= c <= '9' || 'a' <= c <= 'f'
  }

  predicate NameChar(c: char) {
    IsSlugChar(c) || c == '-'
  }

  lemma {:induction false} FoldedChars(s: string)
    ensures forall c :: c in Folded(s) ==> NameChar(c)
  {
    if s != [] {
      FoldedChars(s[..|s| - 1]);
    }
  }

  lemma {:induction false} TrimmedChars(s: string)
    ensures forall c :: c in WithoutLeadingDashes(s) ==> c in s
  {
    if s != [] {
      TrimmedChars(s[1..]);
    }
  }

  /** A lane's own server is named in lower case. */
  lemma WriterNameChars(digest: Digest, job: string)
    requires HexDigest(digest)
    ensures forall c :: c in ContractWriterName(digest, job) ==> NameChar(c)
  {
    FoldedChars(job);
    TrimmedChars(Folded(job));
    assert forall c :: c in WRITER_STEM ==> NameChar(c);
    hide Folded, WithoutLeadingDashes, WithoutTrailingDashes, IsSlugChar;
    var name := UnboundedWriterName(job);
    assert forall c :: c in name ==> NameChar(c);
    assert forall c :: c in digest(name) ==> NameChar(c);
  }

  lemma OwnServerIsPublished(digest: Digest, j: Job)
    requires DigestFits(digest) && Agent(j) && Contracted(j) && Publishes(WithTools(digest, j))
    ensures PrefixOf(WithTools(digest, j)) == ToolPrefix(ContractWriterName(digest, NameText(j)))
  {
    var name := NameText(j);
    var bound, stale := ContractWriterName(digest, name), UnboundedWriterName(name);
    WriterNamesSurviveDispatch(digest, name);
    var t := WithTools(digest, j);
    hide ContractWriterName, UnboundedWriterName, ToolPrefix, DigestFits;
    assert IsWriter(Str(bound));
    BoundToolsHold(Tools(j), bound, stale);
    ToolsSet(j, BoundTools(Tools(j), bound, stale));
    assert Tools(t) == BoundTools(Tools(j), bound, stale);
    hide *;
    PublishedWriter(t, bound);
  }

  lemma PublishedWriter(t: Job, bound: string)
    requires Publishes(t) && Str(bound) in Tools(t) && IsWriter(Str(bound))
    ensures PrefixOf(t) == ToolPrefix(bound)
  {
    hide Tools, Agent, IsWriter, ToolPrefix;
    assert Str(bound) in WritersAmong(Tools(t));
  }

  /** A contracted lane that publishes its server binds once, whatever its prompt, exactly when the name of
      that server does not end in `mcp`. */
  lemma ContractedLaneBindsOnceIff(digest: Digest, j: Job)
    requires DigestFits(digest) && HexDigest(digest)
    requires Agent(j) && Contracted(j) && Publishes(WithTools(digest, j))
    ensures AlwaysBindsOnce(digest, j) <==> !EndsWith(ContractWriterName(digest, NameText(j)), "mcp")
  {
    var server := ContractWriterName(digest, NameText(j));
    WriterNameIsPlain(digest, NameText(j));
    hide *;
    OwnServerIsPublished(digest, j);
    AlwaysBindsOnceIff(digest, j);
    CleanServerIff(server);
  }

  lemma WriterNameIsPlain(digest: Digest, job: string)
    requires DigestFits(digest) && HexDigest(digest)
    ensures |ContractWriterName(digest, job)| >= 3 && 'O' !in ContractWriterName(digest, job)
  {
    WriterNamesSurviveDispatch(digest, job);
    WriterNameChars(digest, job);
    assert !NameChar('O');
    hide ContractWriterName, NameChar;
  }

  /** Such a lane: named `mcp`, with a prompt in which the rest of a placeholder follows one. */
  lemma LaneThatBindsTwice(digest: Digest)
    requires DigestFits(digest)
    ensures var j: Job := map["name" := Str("mcp"), "output_contract" := Obj(map[]),
                              "prompt" := Str(PLACEHOLDER + "OKENGINE_WRITER__")];
            !BindsOnce(digest, j)
  {
    var prompt := PLACEHOLDER + "OKENGINE_WRITER__";
    var j: Job := map["name" := Str("mcp"), "output_contract" := Obj(map[]), "prompt" := Str(prompt)];
    McpLane(digest, j);
    hide *;
    SuffixOfMcp();
    RestMakesWhole(PrefixOf(WithTools(digest, j)));
    ReturningPromptRebinds(digest, j, prompt);
  }

  lemma SuffixOfMcp()
    ensures EndsWith(ToolPrefix("okengine-write-mcp"), MCP_STEM)
  {
    SuffixOfPrefix("okengine-write-mcp");
  }

  lemma RestMakesWhole(prefix: string)
    requires EndsWith(prefix, MCP_STEM)
    ensures Contains(Replace(PLACEHOLDER + "OKENGINE_WRITER__", PLACEHOLDER, prefix), PLACEHOLDER)
  {
    assert PLACEHOLDER[..5] == MCP_STEM && PLACEHOLDER[5..] == "OKENGINE_WRITER__";
    hide *;
    StartBecomesWhole(PLACEHOLDER, prefix, 5);
  }

  lemma ReturningPromptRebinds(digest: Digest, j: Job, prompt: string)
    requires DigestFits(digest)
    requires var t := WithTools(digest, j);
             && Publishes(t) && "prompt" in t && t["prompt"] == Str(prompt)
             && Contains(Replace(prompt, PLACEHOLDER, PrefixOf(t)), PLACEHOLDER)
    ensures !BindsOnce(digest, j)
  {
    hide *;
    BindIdempotentIff(digest, j);
    PlaceholderLeftIff(WithTools(digest, j), prompt);
    BindIs(digest, j);
  }

  lemma BindIs(digest: Digest, j: Job)
    ensures Bind(digest, j) == Publish(WithTools(digest, j))
  {
  }

  lemma McpLane(digest: Digest, j: Job)
    requires j.Keys == {"name", "output_contract", "prompt"} && j["name"] == Str("mcp") && j["output_contract"].Obj?
    ensures var t := WithTools(digest, j);
            && Publishes(t) && PrefixOf(t) == ToolPrefix("okengine-write-mcp")
            && "prompt" in t && t["prompt"] == j["prompt"]
  {
    var server: string := "okengine-write-mcp";
    NameOfMcp(digest);
    BareToolset(server);
    assert Tools(j) == [] && Agent(j) && NameText(j) == "mcp";
    hide BoundTools, ContractWriterName, UnboundedWriterName, ToolPrefix;
    var t := WithTools(digest, j);
    assert Tools(t) == [Str(server)] && Agent(t);
  }

  lemma BareToolset(server: string)
    requires WRITER_STEM <= server
    ensures BoundTools([], server, server) == [Str(server)] && WritersAmong([Str(server)]) == [Str(server)]
  {
    assert [Str(server)][..0] == [];
    assert ReboundAll([], server, server) == [];
    assert Once([]) == [] && WritersAmong([]) == [];
  }

  /** A name in lower case is its own slug. */
  lemma {:induction false} PlainFolds(s: string)
    requires forall c :: c in s ==> IsSlugChar(c)
    ensures Folded(s) == s
  {
    if s != [] {
      var n := |s| - 1;
      assert s[n] in s && Lower(s[n]) == s[n];
      PlainFolds(s[..n]);
      assert s == s[..n] + [s[n]];
    }
  }

  lemma PlainName(digest: Digest, job: string)
    requires job != [] && forall c :: c in job ==> IsSlugChar(c)
    requires |WRITER_STEM + job| <= NAME_TARGET
    ensures ContractWriterName(digest, job) == UnboundedWriterName(job) == WRITER_STEM + job
  {
    PlainFolds(job);
    assert job[0] in job && job[|job| - 1] in job;
  }

  lemma NameOfMcp(digest: Digest)
    ensures ContractWriterName(digest, "mcp") == UnboundedWriterName("mcp") == "okengine-write-mcp"
  {
    assert forall c :: c in "mcp" ==> IsSlugChar(c);
    hide Folded, WithoutLeadingDashes, WithoutTrailingDashes, UnboundedWriterName, ContractWriterName;
    PlainName(digest, "mcp");
    assert WRITER_STEM + "mcp" == "okengine-write-mcp";
  }

  /** After binding, a contracted model lane has its own writer and never the generic one. */
  lemma ContractedLanesAreFenced(digest: Digest, j: Job)
    requires DigestFits(digest) && Agent(j) && Contracted(j)
    ensures var tools := Tools(Bind(digest, j));
            && Str(ContractWriterName(digest, NameText(j))) in tools && Str(GENERIC) !in tools
            && Distinct(tools)
  {
    var name := NameText(j);
    WriterNamesSurviveDispatch(digest, name);
    var items := BoundTools(Tools(j), ContractWriterName(digest, name), UnboundedWriterName(name));
    BoundToolsHold(Tools(j), ContractWriterName(digest, name), UnboundedWriterName(name));
    PublishKeeps(digest, WithTools(digest, j));
    ToolsSet(j, items);
    hide BoundTools, ContractWriterName, UnboundedWriterName, Publish, Tools, Agent, Contracted, NameText, Distinct;
  }

  // ---------------------------------------------------------------------------------------------
  // Unpublishing
  // ---------------------------------------------------------------------------------------------

  /** `_unpublish_writer` */
  function Unpublish(j: Job): Job {
    if !Get(j, "env").Obj? || PREFIX_ENV !in j["env"].fields then j
    else
      var env := j["env"].fields - {PREFIX_ENV};
      var prefix := j["env"].fields[PREFIX_ENV];
      var rest := if env != map[] then j["env" := Obj(env)] else j - {"env"};
      if Get(j, "prompt").Str? && prefix.Str? && prefix.s != ""
      then rest["prompt" := Str(Replace(j["prompt"].s, prefix.s, PLACEHOLDER))]
      else rest
  }

  lemma PlaceholderUnbordered()
    ensures Unbordered(PLACEHOLDER)
  {
    forall k | 0 < k < |PLACEHOLDER| ensures PLACEHOLDER[k..] != PLACEHOLDER[..|PLACEHOLDER| - k] {
      assert PLACEHOLDER[k..][0] == PLACEHOLDER[k] && PLACEHOLDER[..|PLACEHOLDER| - k][0] == 'm';
      assert forall i :: 0 < i < |PLACEHOLDER| ==> PLACEHOLDER[i] != 'm';
    }
  }

  /** Publishing undoes unpublishing on a prompt that has no placeholder. */
  lemma PromptComesBack(prompt: string, prefix: string)
    requires prefix != [] && !Contains(prompt, PLACEHOLDER)
    ensures PublishedPrompt(Str(Replace(prompt, prefix, PLACEHOLDER)), prefix) == Str(prompt)
  {
    PlaceholderUnbordered();
    ReplaceBack(prompt, prefix, PLACEHOLDER);
    var out := Replace(prompt, prefix, PLACEHOLDER);
    if !Contains(out, PLACEHOLDER) {
      NothingToReplace(out, PLACEHOLDER, prefix);
    }
  }

  /** The environment carries a prefix nothing of the job publishes. */
  predicate ForeignPrefix(j: Job) {
    PREFIX_ENV in EnvOf(j) && !Publishes(j)
  }

  /** A bound job without placeholders is regenerated by binding its unpublished form, exactly when the
      prefix in its environment, if there is one, is its own. */
  lemma RebindIff(digest: Digest, j: Job)
    requires DigestFits(digest) && Bind(digest, j) == j && !PlaceholderLeft(j)
    ensures Bind(digest, Unpublish(j)) == j <==> !ForeignPrefix(j)
  {
    BoundIsPublished(digest, j);
    if PREFIX_ENV in EnvOf(j) {
      UnpublishKeepsTools(digest, j);
      if Publishes(j) {
        RepublishedIs(j);
      } else {
        hide WithTools, Publishes;
        assert PREFIX_ENV !in EnvOf(Unpublish(j));
      }
    }
  }

  lemma BoundIsPublished(digest: Digest, j: Job)
    requires DigestFits(digest) && Bind(digest, j) == j
    ensures WithTools(digest, j) == j && Publish(j) == j
  {
    var t := WithTools(digest, j);
    PublishKeeps(digest, t);
    WithToolsTwice(digest, j);
    hide WithTools, Publish;
    assert WithTools(digest, Publish(t)) == Publish(t);
  }

  lemma UnpublishKeepsTools(digest: Digest, j: Job)
    requires WithTools(digest, j) == j
    ensures WithTools(digest, Unpublish(j)) == Unpublish(j)
    ensures Publishes(Unpublish(j)) <==> Publishes(j)
    ensures Publishes(j) ==> PrefixOf(Unpublish(j)) == PrefixOf(j)
  {
    hide Replace, BoundTools, ContractWriterName, UnboundedWriterName, ToolPrefix, WritersAmong;
    var u := Unpublish(j);
    assert Get(u, TOOLSETS) == Get(j, TOOLSETS) && Get(u, "no_agent") == Get(j, "no_agent");
    assert Get(u, "output_contract") == Get(j, "output_contract") && Get(u, "name") == Get(j, "name");
    assert TOOLSETS in u <==> TOOLSETS in j;
    assert "name" in u <==> "name" in j;
  }

  lemma RepublishedIs(j: Job)
    requires Publishes(j) && Publish(j) == j && !PlaceholderLeft(j) && PREFIX_ENV in EnvOf(j)
    requires Publishes(Unpublish(j)) && PrefixOf(Unpublish(j)) == PrefixOf(j)
    ensures Publish(Unpublish(j)) == j
  {
    var prefix := PrefixOf(j);
    assert EnvOf(j)[PREFIX_ENV] == Str(prefix) by {
      assert j["env"] == Obj(EnvOf(j)[PREFIX_ENV := Str(prefix)]);
    }
    assert Agent(j);
    hide PrefixOf, Publishes, Agent;
    var u := Unpublish(j);
    EnvComesBack(EnvOf(j), prefix);
    if "prompt" in j && j["prompt"].Str? {
      PromptComesBack(j["prompt"].s, prefix);
    }
    hide Replace;
    SameLookups(Publish(u), j);
  }

  lemma EnvComesBack(env: map<string, Value>, prefix: string)
    requires PREFIX_ENV in env && env[PREFIX_ENV] == Str(prefix)
    ensures (env - {PREFIX_ENV})[PREFIX_ENV := Str(prefix)] == env
    ensures env - {PREFIX_ENV} == map[] ==> env == map[PREFIX_ENV := Str(prefix)]
  {
    if env - {PREFIX_ENV} == map[] {
      assert (env - {PREFIX_ENV})[PREFIX_ENV := Str(prefix)] == map[PREFIX_ENV := Str(prefix)];
    }
  }
}
