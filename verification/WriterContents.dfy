/** What a lane's write server is called, and what binding writes into a job: `unbounded_writer_name`,
    `contract_writer_name`, `bind_contract_writers` and `_publish_writer` of `scripts/cron_pack_split.py`. */
module WriterContents {
  import opened Graphs
  import opened Jobs
  import opened Replacing
  import opened Values
  import opened WriterBinding

  // ---------------------------------------------------------------------------------------------
  // Server names
  // ---------------------------------------------------------------------------------------------

  /** A letter or a digit. */
  predicate Alphanumeric(c: char) {
    'a' <= c <= 'z' || 'A' <= c <= 'Z' || '0' <= c <= '9'
  }

  predicate Word(w: string) {
    w != [] && forall i :: 0 <= i < |w| ==> Alphanumeric(w[i])
  }

  predicate Gap(g: string) {
    forall i :: 0 <= i < |g| ==> !Alphanumeric(g[i])
  }

  /** The words with the gaps before, between and after them. */
  function Spelled(gaps: seq<string>, words: seq<string>): string
    requires |gaps| == |words| + 1
  {
    if words == [] then gaps[0]
    else
      var n := |words| - 1;
      Spelled(gaps[..n + 1], words[..n]) + words[n] + gaps[n + 1]
  }

  function Lowered(w: string): string {
    seq(|w|, i requires 0 <= i < |w| => if 'A' <= w[i] <= 'Z' then w[i] - 'A' + 'a' else w[i])
  }

  /** The words in lower case, a dash between each and the next. */
  function Dashed(words: seq<string>): string {
    if words == [] then ""
    else
      var n := |words| - 1;
      Dashed(words[..n]) + (if n > 0 then "-" else "") + Lowered(words[n])
  }

  /** Every name is spelled by some words and gaps; the words are never empty, nor the gaps between them. */
  ghost predicate Spelling(gaps: seq<string>, words: seq<string>) {
    && |gaps| == |words| + 1
    && (forall i :: 0 <= i < |words| ==> Word(words[i]))
    && (forall i :: 0 <= i < |gaps| ==> Gap(gaps[i]))
    && (forall i :: 0 < i < |words| ==> gaps[i] != "")
  }

  lemma SpelledParts(gaps: seq<string>, words: seq<string>, w: string, g: string)
    requires |gaps| == |words| + 1
    ensures Spelled(gaps + [g], words + [w]) == Spelled(gaps, words) + w + g
  {
    var n := |words|;
    assert (words + [w])[..n] == words && (gaps + [g])[..n + 1] == gaps;
  }

  lemma SpellingParts(gaps: seq<string>, words: seq<string>, w: string, g: string)
    requires |gaps| == |words| + 1
    ensures Spelling(gaps + [g], words + [w]) <==>
              Spelling(gaps, words) && Word(w) && Gap(g) && (words != [] ==> gaps[|words|] != "")
  {
    hide Word, Gap;
    var more, wider := words + [w], gaps + [g];
    var n := |words|;
    assert more[n] == w && wider[n + 1] == g && wider[n] == gaps[n];
    assert forall i :: 0 <= i < n ==> more[i] == words[i];
    assert forall i :: 0 <= i <= n ==> wider[i] == gaps[i];
  }

  /** The last word and gap, in place of themselves with one more character. */
  lemma SpellingLonger(gaps: seq<string>, words: seq<string>, w: string, g: string, c: char)
    returns (longer: string, wider: string)
    requires |gaps| == |words| + 1 && Spelling(gaps + [g], words + [w]) && (Alphanumeric(c) ==> g == "")
    ensures Spelling(gaps + [wider], words + [longer])
    ensures Spelled(gaps + [wider], words + [longer]) == Spelled(gaps + [g], words + [w]) + [c]
  {
    longer, wider := if Alphanumeric(c) then w + [c] else w, if Alphanumeric(c) then g else g + [c];
    SpellingParts(gaps, words, w, g);
    assert Word(longer) && Gap(wider);
    SpellingParts(gaps, words, longer, wider);
    SpelledParts(gaps, words, w, g);
    SpelledParts(gaps, words, longer, wider);
    hide Spelling, Spelled, Word, Gap;
    var start := Spelled(gaps, words);
    assert start + longer + wider == (start + w + g) + [c];
  }

  /** Any name has a spelling. */
  lemma {:induction false} SpellingOf(text: string) returns (gaps: seq<string>, words: seq<string>)
    ensures Spelling(gaps, words) && Spelled(gaps, words) == text
  {
    gaps, words := [""], [];
    if text != [] {
      var n, c := |text| - 1, text[|text| - 1];
      gaps, words := SpellingOf(text[..n]);
      gaps, words := SpellingMore(gaps, words, c);
      assert text == text[..n] + [c];
      hide Spelling, Spelled;
    }
  }

  lemma SpellingMore(gaps: seq<string>, words: seq<string>, c: char) returns (wide: seq<string>, more: seq<string>)
    requires Spelling(gaps, words)
    ensures Spelling(wide, more) && Spelled(wide, more) == Spelled(gaps, words) + [c]
  {
    var k := |words|;
    if Alphanumeric(c) && (words == [] || gaps[k] != "") {
      wide, more := gaps + [""], words + [[c]];
      SpelledParts(gaps, words, [c], "");
      SpellingParts(gaps, words, [c], "");
      assert Word([c]) && Gap("");
      hide Spelled, Word, Gap;
      assert Spelled(gaps, words) + [c] + "" == Spelled(gaps, words) + [c];
    } else if words == [] {
      wide, more := [gaps[0] + [c]], [];
    } else {
      assert gaps[..k] + [gaps[k]] == gaps && words[..k - 1] + [words[k - 1]] == words;
      hide Spelling, Spelled;
      var longer, wider := SpellingLonger(gaps[..k], words[..k - 1], words[k - 1], gaps[k], c);
      wide, more := gaps[..k] + [wider], words[..k - 1] + [longer];
    }
  }

  lemma FoldOne(s: string, c: char)
    ensures Folded(s + [c]) ==
              if Alphanumeric(c) then Folded(s) + Lowered([c])
              else if Folded(s) != [] && Folded(s)[|Folded(s)| - 1] == '-' then Folded(s)
              else Folded(s) + ['-']
  {
    assert (s + [c])[..|s|] == s;
    assert Lowered([c]) == [Lower(c)];
  }

  lemma {:induction false} FoldWord(s: string, w: string)
    requires forall i :: 0 <= i < |w| ==> Alphanumeric(w[i])
    ensures Folded(s + w) == Folded(s) + Lowered(w)
  {
    hide Folded;
    if w == [] {
      assert s + w == s && Lowered(w) == [];
    } else {
      var n := |w| - 1;
      FoldWord(s, w[..n]);
      FoldOne(s + w[..n], w[n]);
      assert s + w == (s + w[..n]) + [w[n]];
      assert Lowered(w) == Lowered(w[..n]) + Lowered([w[n]]);
    }
  }

  lemma {:induction false} FoldGap(s: string, g: string)
    requires Gap(g)
    ensures Folded(s + g) ==
              if g == [] || (Folded(s) != [] && Folded(s)[|Folded(s)| - 1] == '-') then Folded(s) else Folded(s) + ['-']
  {
    hide Folded;
    if g == [] {
      assert s + g == s;
    } else {
      var n := |g| - 1;
      FoldGap(s, g[..n]);
      FoldOne(s + g[..n], g[n]);
      assert s + g == (s + g[..n]) + [g[n]];
    }
  }

  lemma {:induction false} DashedEnds(words: seq<string>)
    requires words != [] && forall i :: 0 <= i < |words| ==> Word(words[i])
    ensures var d := Dashed(words); d != [] && d[0] != '-' && d[|d| - 1] != '-'
  {
    var n := |words| - 1;
    if n > 0 {
      DashedEnds(words[..n]);
    }
  }

  /** The fold of a spelled name. */
  function FoldedSpelling(gaps: seq<string>, words: seq<string>): string
    requires |gaps| == |words| + 1
  {
    (if gaps[0] != "" then "-" else "") + Dashed(words) + if words != [] && gaps[|words|] != "" then "-" else ""
  }

  lemma {:induction false} FoldSpelled(gaps: seq<string>, words: seq<string>)
    requires Spelling(gaps, words)
    ensures Folded(Spelled(gaps, words)) == FoldedSpelling(gaps, words)
  {
    if words == [] {
      FoldGap("", gaps[0]);
      assert "" + gaps[0] == gaps[0];
    } else {
      var n := |words| - 1;
      FoldSpelled(gaps[..n + 1], words[..n]);
      var before := Spelled(gaps[..n + 1], words[..n]);
      FoldWord(before, words[n]);
      FoldGap(before + words[n], gaps[n + 1]);
      FoldMore(gaps, words);
      hide Folded, Spelled;
    }
  }

  lemma Regrouped(a: string, b: string, c: string, d: string, trail: bool)
    requires d != [] && d[|d| - 1] != '-'
    ensures var f := a + b + c + d;
            && f != [] && f[|f| - 1] != '-'
            && a + (b + c + d) + (if trail then "-" else "") == if trail then f + ['-'] else f
  {
  }

  lemma FoldMore(gaps: seq<string>, words: seq<string>)
    requires Spelling(gaps, words) && words != []
    ensures var n := |words| - 1;
            var f := FoldedSpelling(gaps[..n + 1], words[..n]) + Lowered(words[n]);
            && f != [] && f[|f| - 1] != '-'
            && FoldedSpelling(gaps, words) == if gaps[n + 1] == "" then f else f + ['-']
  {
    assert |gaps| == |words| + 1;
    hide *;
    var n := |words| - 1;
    FoldedParts(gaps, words);
    LoweredEnds(gaps, words);
    Regrouped(if gaps[0] != "" then "-" else "", Dashed(words[..n]), if n > 0 then "-" else "", Lowered(words[n]),
              gaps[n + 1] != "");
  }

  lemma FoldedParts(gaps: seq<string>, words: seq<string>)
    requires Spelling(gaps, words) && words != []
    ensures var n := |words| - 1;
            var lead, sep := if gaps[0] != "" then "-" else "", if n > 0 then "-" else "";
            && FoldedSpelling(gaps[..n + 1], words[..n]) == lead + Dashed(words[..n]) + sep
            && FoldedSpelling(gaps, words)
                 == lead + (Dashed(words[..n]) + sep + Lowered(words[n])) + (if gaps[n + 1] != "" then "-" else "")
  {
    hide Lowered;
    var n := |words| - 1;
    assert gaps[..n + 1][0] == gaps[0];
    assert n > 0 ==> gaps[..n + 1][n] == gaps[n] != "";
  }

  lemma LoweredEnds(gaps: seq<string>, words: seq<string>)
    requires Spelling(gaps, words) && words != []
    ensures var low := Lowered(words[|words| - 1]); low != [] && low[|low| - 1] != '-'
  {
    assert Word(words[|words| - 1]);
  }

  lemma LeadTrimmed(d: string)
    requires d != [] && d[0] != '-'
    ensures WithoutLeadingDashes(d) == d && WithoutLeadingDashes("-" + d) == d
  {
    assert ("-" + d)[1..] == d;
  }

  lemma TrailTrimmed(d: string)
    requires d != [] && d[|d| - 1] != '-'
    ensures WithoutTrailingDashes(d) == d && WithoutTrailingDashes(d + "-") == d
  {
    assert (d + "-")[..|d|] == d;
  }

  lemma Trimmed(f: string, d: string, lead: bool, trail: bool)
    requires d != [] && d[0] != '-' && d[|d| - 1] != '-'
    requires f == (if lead then "-" else "") + d + (if trail then "-" else "")
    ensures WithoutTrailingDashes(WithoutLeadingDashes(f)) == d
  {
    var rest := if trail then d + "-" else d;
    assert f == if lead then "-" + rest else rest;
    LeadTrimmed(rest);
    TrailTrimmed(d);
    hide WithoutLeadingDashes, WithoutTrailingDashes;
  }

  /** A lane's server is named by the words of the lane's name: in lower case, with a dash for whatever
      stands between two of them, and nothing for what stands before the first or after the last. */
  lemma ServerOfWords(gaps: seq<string>, words: seq<string>)
    requires Spelling(gaps, words) && words != []
    ensures UnboundedWriterName(Spelled(gaps, words)) == "okengine-write-" + Dashed(words)
  {
    FoldSpelled(gaps, words);
    DashedEnds(words);
    Trimmed(FoldedSpelling(gaps, words), Dashed(words), gaps[0] != "", gaps[|words|] != "");
    hide Folded, Spelled, Dashed, WithoutLeadingDashes, WithoutTrailingDashes;
  }

  /** A name without a word gives the stem alone. */
  lemma ServerOfNoWords(gap: string)
    requires Gap(gap)
    ensures UnboundedWriterName(gap) == "okengine-write-"
  {
    FoldGap("", gap);
    assert "" + gap == gap;
    assert Folded(gap) == "" || Folded(gap) == ['-'];
    assert WithoutLeadingDashes(['-']) == "" && WithoutLeadingDashes("") == "";
    hide Folded;
    assert WRITER_STEM + "" == WRITER_STEM;
  }

  /** A name of more than 36 characters is cut to its first 27, less the dashes these end with, and ends
      with the digest of the whole; a shorter one is the server's name as it is. */
  lemma BoundedName(digest: Digest, job: string)
    ensures var name, bound := UnboundedWriterName(job), ContractWriterName(digest, job);
            if |name| <= 36 then bound == name
            else
              var n := |bound| - |digest(name)| - 1;
              && 0 <= n <= 27 && bound == name[..n] + "-" + digest(name)
              && (forall i :: n <= i < 27 ==> name[i] == '-') && (n > 0 ==> name[n - 1] != '-')
  {
    hide UnboundedWriterName;
    var name := UnboundedWriterName(job);
    if |name| > 36 {
      var kept := WithoutTrailingDashes(name[..27]);
      assert kept == name[..|kept|];
      assert forall i :: |kept| <= i < 27 ==> name[..27][i] == name[i];
    }
  }

  // ---------------------------------------------------------------------------------------------
  // What binding writes
  // ---------------------------------------------------------------------------------------------

  ghost predicate WriterAt(tools: seq<Value>, i: int) {
    0 <= i < |tools| && tools[i].Str? && (tools[i].s == "okengine-write" || "okengine-write-" <= tools[i].s)
  }

  /** The toolset has one writer, at one place. */
  ghost predicate OneWriter(tools: seq<Value>, i: int) {
    WriterAt(tools, i) && forall k :: WriterAt(tools, k) ==> k == i
  }

  /** The prefix of a server's tools: its name between two marks, with an underscore for what a tool name
      may not have. */
  ghost predicate PrefixFor(server: string, prefix: string) {
    && |prefix| == |server| + 7 && prefix[..5] == "mcp__" && prefix[|server| + 5..] == "__"
    && forall i :: 0 <= i < |server| ==>
         prefix[i + 5] == if Alphanumeric(server[i]) || server[i] == '_' then server[i] else '_'
  }

  /** The toolset of a contracted lane: the lane's own writer for the generic one and for its own name from
      before names were bounded, every other tool it had, and each once. */
  ghost predicate ToolsFrom(digest: Digest, j: Job, k: Job) {
    if Truthy(Get(j, "no_agent")) || !Get(j, "output_contract").Obj? then Held(k, TOOLSETS) == Held(j, TOOLSETS)
    else
      var bound, stale := ContractWriterName(digest, NameText(j)), UnboundedWriterName(NameText(j));
      var tools := Get(k, TOOLSETS);
      && tools.List? && Distinct(tools.items) && Str(bound) in tools.items && Str("okengine-write") !in tools.items
      && (stale != bound ==> Str(stale) !in tools.items)
      && forall t :: t != Str("okengine-write") && t != Str(stale) && t != Str(bound) ==>
           (t in tools.items <==> t in Tools(j))
  }

  /** The environment names the prefix beside what it held, and the prompt has it for the placeholder. */
  ghost predicate PublishedFrom(j: Job, k: Job, prefix: string) {
    && Get(k, "env").Obj?
    && (forall name :: Held(k["env"].fields, name) ==
          if name == "OKENGINE_WRITE_TOOL_PREFIX" then Some(Str(prefix))
          else if Get(j, "env").Obj? then Held(j["env"].fields, name) else None)
    && Held(k, "prompt") ==
         if Get(j, "prompt").Str? then Some(Str(Replace(j["prompt"].s, PLACEHOLDER, prefix))) else Held(j, "prompt")
  }

  /** A model lane with exactly one writer among its tools publishes that writer's prefix. */
  ghost predicate WriterFrom(j: Job, k: Job) {
    if !Truthy(Get(j, "no_agent")) && exists i :: OneWriter(Tools(k), i) then
      exists i, prefix :: OneWriter(Tools(k), i) && PrefixFor(Tools(k)[i].s, prefix) && PublishedFrom(j, k, prefix)
    else Held(k, "env") == Held(j, "env") && Held(k, "prompt") == Held(j, "prompt")
  }

  /** The bound job `k` of a job `j`. */
  ghost predicate BoundFrom(digest: Digest, j: Job, k: Job) {
    && ToolsFrom(digest, j, k) && WriterFrom(j, k)
    && forall key :: key != TOOLSETS && key != "env" && key != "prompt" ==> Held(k, key) == Held(j, key)
  }

  lemma WriterIs(tools: seq<Value>, i: nat)
    requires i < |tools|
    ensures WriterAt(tools, i) <==> IsWriter(tools[i])
  {
  }

  /** The writers among the tools are one exactly when there is one place of one. */
  lemma {:induction false} OneWriterIff(tools: seq<Value>)
    ensures WritersAmong(tools) == [] <==> forall i :: !WriterAt(tools, i)
    ensures |WritersAmong(tools)| == 1 <==> exists i :: OneWriter(tools, i)
    ensures |WritersAmong(tools)| == 1 ==> forall i :: OneWriter(tools, i) ==> tools[i] == WritersAmong(tools)[0]
  {
    if tools != [] {
      var n := |tools| - 1;
      OneWriterIff(tools[..n]);
      WriterIs(tools, n);
      forall i | 0 <= i < n ensures WriterAt(tools, i) <==> WriterAt(tools[..n], i) {
        WriterIs(tools, i);
        WriterIs(tools[..n], i);
      }
      OneWriterMore(tools);
      hide WriterAt, OneWriter, IsWriter;
    }
  }

  lemma EarlierWriter(tools: seq<Value>, i: int)
    requires tools != [] && !WriterAt(tools, |tools| - 1)
    ensures OneWriter(tools[..|tools| - 1], i) <==> OneWriter(tools, i)
  {
    var n := |tools| - 1;
    assert forall k :: WriterAt(tools, k) <==> WriterAt(tools[..n], k);
    hide WriterAt;
  }

  lemma OneWriterMore(tools: seq<Value>)
    requires tools != []
    ensures var n := |tools| - 1;
            && ((exists i :: OneWriter(tools, i)) <==>
                  if WriterAt(tools, n) then forall i :: !WriterAt(tools[..n], i)
                      else exists i :: OneWriter(tools[..n], i))
            && (forall i :: OneWriter(tools, i) ==>
                  if WriterAt(tools, n) then i == n else OneWriter(tools[..n], i) && tools[..n][i] == tools[i])
            && ((forall i :: !WriterAt(tools, i)) <==> !WriterAt(tools, n) && forall i :: !WriterAt(tools[..n], i))
  {
    var n := |tools| - 1;
    assert forall i :: i != n ==> (WriterAt(tools, i) <==> WriterAt(tools[..n], i));
    if WriterAt(tools, n) && forall i :: !WriterAt(tools[..n], i) {
      assert OneWriter(tools, n);
    }
    if !WriterAt(tools, n) {
      forall i ensures OneWriter(tools[..n], i) <==> OneWriter(tools, i) {
        EarlierWriter(tools, i);
      }
    }
    hide WriterAt;
  }

  lemma PrefixIs(server: string)
    ensures PrefixFor(server, ToolPrefix(server))
  {
    assert ToolPrefix(server) == MCP_STEM + Sanitized(server) + "__";
  }

  lemma ToolsWritten(digest: Digest, j: Job)
    ensures ToolsFrom(digest, j, WithTools(digest, j))
    ensures forall key :: key != TOOLSETS ==> Held(WithTools(digest, j), key) == Held(j, key)
  {
    if Agent(j) && Contracted(j) {
      var bound, stale := ContractWriterName(digest, NameText(j)), UnboundedWriterName(NameText(j));
      OwnName(digest, NameText(j));
      BoundToolsHold(Tools(j), bound, stale);
      hide BoundTools, ContractWriterName, UnboundedWriterName, Tools, NameText;
    }
  }

  lemma OwnName(digest: Digest, job: string)
    ensures ContractWriterName(digest, job) != GENERIC
  {
    StemSurvives(job);
    hide UnboundedWriterName, WithoutTrailingDashes;
    assert |ContractWriterName(digest, job)| >= |WRITER_STEM| > |GENERIC|;
  }

  lemma PromptIs(prompt: Value, prefix: string)
    ensures PublishedPrompt(prompt, prefix) ==
              if prompt.Str? then Str(Replace(prompt.s, PLACEHOLDER, prefix)) else prompt
  {
    if prompt.Str? && !Contains(prompt.s, PLACEHOLDER) {
      NothingToReplace(prompt.s, PLACEHOLDER, prefix);
    }
    hide Contains, Replace;
  }

  lemma PublishWrites(j: Job)
    ensures WriterFrom(j, Publish(j))
    ensures forall key :: key != "env" && key != "prompt" ==> Held(Publish(j), key) == Held(j, key)
  {
    var k := Publish(j);
    assert Get(k, TOOLSETS) == Get(j, TOOLSETS);
    assert Tools(k) == Tools(j);
    OneWriterIff(Tools(j));
    hide Tools, OneWriter, WritersAmong;
    if Publishes(j) {
      var i :| OneWriter(Tools(k), i);
      var writer := WritersAmong(Tools(j))[0];
      assert Tools(k)[i] == writer;
      PrefixIs(writer.s);
      PromptIs(Get(j, "prompt"), PrefixOf(j));
      hide PublishedPrompt, ToolPrefix, PrefixFor, Replace;
      assert PublishedFrom(j, k, PrefixOf(j));
    }
  }

  /** A bound job holds, key by key, what is described: its toolset, the prefix its one writer publishes in
      environment and prompt, and everything else as it was. */
  lemma BindWrites(digest: Digest, j: Job)
    ensures BoundFrom(digest, j, Bind(digest, j))
  {
    var t := WithTools(digest, j);
    ToolsWritten(digest, j);
    PublishWrites(t);
    hide WithTools, Publish, OneWriter, PrefixFor, Replace, Tools;
    SameToolsAfter(digest, j, t, Publish(t));
  }

  lemma SameToolsAfter(digest: Digest, j: Job, t: Job, k: Job)
    requires ToolsFrom(digest, j, t) && WriterFrom(t, k)
    requires forall key :: key != TOOLSETS ==> Held(t, key) == Held(j, key)
    requires forall key :: key != "env" && key != "prompt" ==> Held(k, key) == Held(t, key)
    ensures BoundFrom(digest, j, k)
  {
    SameReadings(j, t);
    hide OneWriter, PrefixFor, Tools, ContractWriterName, UnboundedWriterName, NameText, Distinct;
    SameToolset(t, k);
    forall prefix ensures PublishedFrom(t, k, prefix) ==> PublishedFrom(j, k, prefix) {
      hide Replace;
    }
    hide PublishedFrom;
  }

  lemma SameToolset(t: Job, k: Job)
    requires forall key :: key != "env" && key != "prompt" ==> Held(k, key) == Held(t, key)
    ensures Held(k, TOOLSETS) == Held(t, TOOLSETS) && Get(k, TOOLSETS) == Get(t, TOOLSETS)
  {
  }

  lemma SameReadings(j: Job, t: Job)
    requires forall key :: key != TOOLSETS ==> Held(t, key) == Held(j, key)
    ensures Get(t, "no_agent") == Get(j, "no_agent") && Get(t, "env") == Get(j, "env")
    ensures Get(t, "prompt") == Get(j, "prompt")
    ensures Held(t, "env") == Held(j, "env") && Held(t, "prompt") == Held(j, "prompt")
  {
    forall key | key != TOOLSETS ensures Get(t, key) == Get(j, key) {
      assert Held(t, key) == Held(j, key);
    }
  }
}
