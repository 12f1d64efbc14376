/** Capturing live scheduler state into sources and regenerating the deployed fleet from them:
    `sanitize` and `_unpublish_writer`, then binding and stamping, of `scripts/cron_pack_split.py`. */
module Capture {
  import CronStore
  import opened Jobs
  import opened Replacing
  import opened Stamping
  import opened Values
  import opened WriterBinding

  /** The runtime fields the capture strips. */
  predicate Stripped(key: string) {
    key in {
      "next_run_at", "last_run_at", "last_run_success", "last_completed_at",
      "last_error", "last_delivery_error", "after_claim", "after_consumed"
    }
  }

  predicate Marker(key: string) {
    key in {"paused_at", "paused_reason", "paused_by"}
  }

  const STRIPPED: set<string> := {
    "next_run_at", "last_run_at", "last_run_success", "last_completed_at",
    "last_error", "last_delivery_error", "after_claim", "after_consumed"
  }
  const MARKERS: set<string> := {"paused_at", "paused_reason", "paused_by"}

  predicate PausedNow(j: Job) {
    Truthy(Get(j, "paused_at"))
  }

  /** `sanitize`, one job. */
  function Sanitized(j: Job): Job {
    var s := j - STRIPPED;
    var unpaused := if PausedNow(s) then (s - MARKERS)["enabled" := Bool(true)] else s - {"paused_at"};
    if Get(unpaused, "repeat").Obj? then unpaused["repeat" := WithoutCompleted(unpaused["repeat"])] else unpaused
  }

  /** `sanitize` */
  method Sanitize(jobs: seq<Job>) returns (out: seq<Job>)
    ensures |out| == |jobs| && forall i :: 0 <= i < |jobs| ==> out[i] == Sanitized(jobs[i])
  {
    out := [];
    for i := 0 to |jobs|
      invariant |out| == i && forall k :: 0 <= k < i ==> out[k] == Sanitized(jobs[k])
    {
      var j := jobs[i] - STRIPPED;
      if PausedNow(j) {
        j := j - MARKERS;
        j := j["enabled" := Bool(true)];
      } else {
        j := j - {"paused_at"};
      }
      if Get(j, "repeat").Obj? && "completed" in j["repeat"].fields {
        j := j["repeat" := Obj(j["repeat"].fields - {"completed"})];
      }
      out := out + [j];
    }
  }

  /** What the capture makes of one key. */
  function SanitizedAt(j: Job, key: string): Option<Value> {
    if Stripped(key) then None
    else if Marker(key) then (if PausedNow(j) || key == "paused_at" then None else Held(j, key))
    else if key == "enabled" && PausedNow(j) then Some(Bool(true))
    else if key == "repeat" && key in j then Some(WithoutCompleted(j[key]))
    else Held(j, key)
  }

  lemma SanitizedLookup(j: Job, key: string)
    ensures Held(Sanitized(j), key) == SanitizedAt(j, key)
  {
    var s := j - STRIPPED;
    assert PausedNow(s) <==> PausedNow(j);
    assert Stripped(key) <==> key in STRIPPED;
    assert Marker(key) <==> key in MARKERS;
    assert !Stripped("enabled") && !Stripped("repeat") && !Marker("enabled") && !Marker("repeat")
        && !Stripped("paused_at");
    hide Stripped, Marker, PausedNow;
  }

  // ---------------------------------------------------------------------------------------------
  // The life of a live job
  // ---------------------------------------------------------------------------------------------

  /** What happens to a job in the live store: a scheduler tick, which may also drop fields, a counted
      repeat, a pause of any lane with what it records, a resume that keeps or drops what a pause
      recorded, and an operator's plain switch. */
  datatype Event =
    | Tick(updates: map<string, Value>, dropped: set<string>)
    | Count(completed: Value)
    | Pause(at: Value, notes: map<string, Value>)
    | Resume(notes: map<string, Value>)
    | Disable
    | Enable

  /** A tick writes scheduler fields; a pause leaves a mark; both notes are a pause's to write. */
  predicate Allowed(ev: Event) {
    match ev
    case Tick(updates, dropped) => forall key :: key in updates.Keys + dropped ==> SchedulerField(key)
    case Pause(at, notes) => Truthy(at) && Notes(notes)
    case Resume(notes) => Notes(notes)
    case _ => true
  }

  predicate Note(key: string) {
    key in {"paused_reason", "paused_by"}
  }

  predicate Notes(notes: map<string, Value>) {
    forall key :: key in notes ==> Note(key)
  }

  /** The runtime keys of the store, but for the two a pause sets. */
  predicate SchedulerField(key: string) {
    CronStore.RuntimeKey(key) && key != "enabled" && key != "paused_at"
  }

  function Step(live: Job, ev: Event): Job {
    match ev
    case Tick(updates, dropped) => (live - dropped) + updates
    case Count(completed) =>
      if Get(live, "repeat").Obj? then live["repeat" := Obj(live["repeat"].fields["completed" := completed])] else live
    case Pause(at, notes) => (live + notes)["enabled" := Bool(false)]["paused_at" := at]
    case Resume(notes) =>
      ((live - {"paused_reason", "paused_by"}) + notes)["enabled" := Bool(true)]["paused_at" := Null]
    case Disable => live["enabled" := Bool(false)]
    case Enable => live["enabled" := Bool(true)]
  }

  function Live(d: Job, events: seq<Event>): Job {
    if events == [] then d else Step(Live(d, events[..|events| - 1]), events[|events| - 1])
  }

  predicate AllAllowed(events: seq<Event>) {
    forall i :: 0 <= i < |events| ==> Allowed(events[i])
  }

  /** How the job is switched: whether anything ever set `enabled`, whether it bears the mark of a
      pause, and whether its operator wants it off. */
  datatype Switch = Switch(touched: bool, marked: bool, off: bool)

  function Switched(w: Switch, ev: Event): Switch {
    match ev
    case Tick(_, _) => w
    case Count(_) => w
    case Pause(_, _) => Switch(true, true, w.off)
    case Resume(_) => Switch(true, false, false)
    case Disable => Switch(true, w.marked, true)
    case Enable => Switch(true, w.marked, false)
  }

  function SwitchAfter(events: seq<Event>): Switch {
    if events == [] then Switch(false, false, false)
    else Switched(SwitchAfter(events[..|events| - 1]), events[|events| - 1])
  }

  /** A deployed job: it runs, and carries no runtime state. */
  ghost predicate Fresh(d: Job) {
    && Runs(d)
    && (forall key :: key in d ==> !SchedulerField(key) && !Marker(key))
    && (Get(d, "repeat").Obj? ==> "completed" !in d["repeat"].fields)
  }

  predicate Definition(key: string) {
    !SchedulerField(key) && !Marker(key) && key != "enabled" && key != "repeat"
  }

  /** The live job is the deployed one, but for runtime state and its switch. */
  ghost predicate Lives(d: Job, live: Job, w: Switch) {
    && (forall key :: Definition(key) ==> Held(live, key) == Held(d, key))
    && ("repeat" in live <==> "repeat" in d)
    && ("repeat" in d ==>
        WithoutCompleted(live["repeat"]) == d["repeat"] && (live["repeat"].Obj? <==> d["repeat"].Obj?))
    && (w.marked <==> PausedNow(live))
    && (w.marked || w.off ==> w.touched)
    && (!w.touched ==> Held(live, "enabled") == Held(d, "enabled"))
    && (w.touched && !w.marked ==> Held(live, "enabled") == Some(Bool(!w.off)))
  }

  /** A pause that a deploy carries onto a regenerated job is one of these events. */
  lemma CarriedIsAnEvent(job: Job, held: Job)
    requires CronStore.PausedJob(held) && Get(job, "id") == Get(held, "id")
    ensures CronStore.CarriedJob(job, map[Get(held, "id") := held])
         == Step(job, if PausedNow(held) then Pause(held["paused_at"], map[]) else Disable)
  {
    assert job + map[] == job;
  }

  /** Keys a job's definition and its runtime state keep apart. */
  lemma KeysApart()
    ensures !SchedulerField("repeat") && !SchedulerField("enabled") && !SchedulerField("paused_at")
    ensures !SchedulerField("paused_reason") && !SchedulerField("paused_by")
    ensures !Definition("paused_at") && !Definition("paused_reason") && !Definition("paused_by")
    ensures !Definition("enabled") && !Definition("repeat")
    ensures forall key :: Definition(key) ==> !SchedulerField(key)
  {
  }

  lemma StepLives(d: Job, live: Job, w: Switch, ev: Event)
    requires Lives(d, live, w) && Allowed(ev)
    ensures Lives(d, Step(live, ev), Switched(w, ev))
  {
    KeysApart();
    hide SchedulerField, Definition, Runs;
    if ev.Tick? {
      TickLives(d, live, w, ev);
    } else if ev.Count? {
      CountLives(d, live, w, ev);
    } else {
      SwitchLives(d, live, w, ev);
    }
  }

  lemma TickLives(d: Job, live: Job, w: Switch, ev: Event)
    requires Lives(d, live, w) && Allowed(ev) && ev.Tick?
    ensures Lives(d, Step(live, ev), w)
  {
    KeysApart();
    assert forall key :: key in ev.updates || key in ev.dropped ==> SchedulerField(key);
    hide SchedulerField, Definition, Runs, WithoutCompleted, Allowed;
    var next := (live - ev.dropped) + ev.updates;
    assert Get(next, "paused_at") == Get(live, "paused_at");
    forall key | Definition(key) ensures Held(next, key) == Held(d, key) {
      assert Held(live, key) == Held(d, key);
    }
  }

  lemma CountLives(d: Job, live: Job, w: Switch, ev: Event)
    requires Lives(d, live, w) && ev.Count?
    ensures Lives(d, Step(live, ev), w)
  {
    KeysApart();
    hide SchedulerField, Definition, Runs;
    if Get(live, "repeat").Obj? {
      CountForgotten(live["repeat"].fields, ev.completed);
      hide WithoutCompleted;
      var next := Step(live, ev);
      assert Get(next, "paused_at") == Get(live, "paused_at");
      forall key | Definition(key) ensures Held(next, key) == Held(d, key) {
        assert Held(live, key) == Held(d, key);
      }
    }
  }

  lemma SwitchLives(d: Job, live: Job, w: Switch, ev: Event)
    requires Lives(d, live, w) && Allowed(ev) && !ev.Tick? && !ev.Count?
    ensures Lives(d, Step(live, ev), Switched(w, ev))
  {
    KeysApart();
    hide SchedulerField, Definition, Runs, WithoutCompleted;
    var next := Step(live, ev);
    forall key | Definition(key) ensures Held(next, key) == Held(d, key) {
      assert Held(live, key) == Held(d, key);
    }
  }

  lemma CountForgotten(fields: map<string, Value>, completed: Value)
    ensures WithoutCompleted(Obj(fields["completed" := completed])) == WithoutCompleted(Obj(fields))
  {
    assert fields["completed" := completed] - {"completed"} == fields - {"completed"};
    if "completed" !in fields {
      assert fields - {"completed"} == fields;
    }
  }

  lemma {:induction false} HistoryLives(d: Job, events: seq<Event>)
    requires Fresh(d) && AllAllowed(events)
    ensures Lives(d, Live(d, events), SwitchAfter(events))
  {
    if events == [] {
      FreshLives(d);
    } else {
      var n := |events| - 1;
      assert Allowed(events[n]);
      hide Fresh, AllAllowed, Lives, Allowed, Step, Switched;
      HistoryLives(d, events[..n]);
      StepLives(d, Live(d, events[..n]), SwitchAfter(events[..n]), events[n]);
    }
  }

  lemma FreshLives(d: Job)
    requires Fresh(d)
    ensures Lives(d, d, Switch(false, false, false))
  {
    assert Marker("paused_at") && Marker("paused_reason") && Marker("paused_by");
    hide SchedulerField, Definition, Runs;
  }

  // ---------------------------------------------------------------------------------------------
  // Capture
  // ---------------------------------------------------------------------------------------------

  /** The source a capture should write: the deployed job, running unless an operator switched it off. */
  function Intended(d: Job, w: Switch): Job {
    if w.touched then d["enabled" := Bool(!w.off)] else d
  }

  /** Everything the capture has to forget, it forgets: the scheduler left only fields the capture
      strips, an unpaused lane kept no note of a pause, and no paused lane is one its operator wants off. */
  ghost predicate Forgettable(live: Job, w: Switch) {
    && (forall key :: key in live && SchedulerField(key) ==> Stripped(key))
    && (!w.marked ==> forall key :: key in live ==> !Note(key))
    && !(w.marked && w.off)
  }

  /** The keys at which the capture then fails to forget. */
  predicate LeftAt(live: Job, w: Switch, key: string) {
    || (key in live && SchedulerField(key) && !Stripped(key))
    || (key in live && !w.marked && Note(key))
    || (key == "enabled" && w.marked && w.off)
  }

  /** Key by key, the capture gives back what it should, exactly where nothing unforgettable is left. */
  lemma CapturedAt(d: Job, live: Job, w: Switch, key: string)
    requires Fresh(d) && Lives(d, live, w)
    ensures SanitizedAt(live, key) == Held(Intended(d, w), key) <==> !LeftAt(live, w, key)
  {
    KeysApart();
    assert !Stripped("enabled") && !Stripped("repeat") && !Marker("enabled") && !Marker("repeat") && !Note("enabled");
    assert Stripped(key) ==> SchedulerField(key);
    assert Note(key) ==> !Stripped(key) && Marker(key) && key != "paused_at";
    assert Marker(key) ==> !SchedulerField(key) && !Stripped(key) && (key == "paused_at" || Note(key));
    assert key in d ==> !SchedulerField(key) && !Marker(key);
    if Definition(key) {
      assert Held(live, key) == Held(d, key);
    }
    hide SchedulerField, Marker, Stripped, Runs, PausedNow, Note, WithoutCompleted;
  }

  /** After any life in the live store, capture gives back the deployed job, switched as its operator
      wants it and with no trace of a pause or of the scheduler, exactly when nothing unforgettable is
      left. */
  lemma CaptureGivesBackIff(d: Job, events: seq<Event>)
    requires Fresh(d) && AllAllowed(events)
    ensures var live, w := Live(d, events), SwitchAfter(events);
            Sanitized(live) == Intended(d, w) <==> Forgettable(live, w)
  {
    HistoryLives(d, events);
    var live, w := Live(d, events), SwitchAfter(events);
    hide Fresh, AllAllowed, Lives, Live, SwitchAfter;
    SanitizedIff(d, live, w);
  }

  lemma SanitizedIff(d: Job, live: Job, w: Switch)
    requires Fresh(d) && Lives(d, live, w)
    ensures Sanitized(live) == Intended(d, w) <==> Forgettable(live, w)
  {
    var s, c := Sanitized(live), Intended(d, w);
    forall key ensures Held(s, key) == Held(c, key) <==> !LeftAt(live, w, key) {
      SanitizedLookup(live, key);
      CapturedAt(d, live, w, key);
    }
    Leftovers(live, w);
    hide Fresh, Lives, Sanitized, Intended, LeftAt;
    if forall key :: !LeftAt(live, w, key) {
      SameLookups(s, c);
    } else {
      var key :| LeftAt(live, w, key);
      assert Held(s, key) != Held(c, key);
    }
  }

  lemma Leftovers(live: Job, w: Switch)
    ensures Forgettable(live, w) <==> forall key :: !LeftAt(live, w, key)
  {
    hide SchedulerField, Stripped, Note;
    if w.marked && w.off {
      assert LeftAt(live, w, "enabled");
    }
    if key :| key in live && SchedulerField(key) && !Stripped(key) {
      assert LeftAt(live, w, key);
    }
    if key :| !w.marked && key in live && Note(key) {
      assert LeftAt(live, w, key);
    }
  }

  // ---------------------------------------------------------------------------------------------
  // Regeneration
  // ---------------------------------------------------------------------------------------------

  /** The deployed job a source makes. */
  function Deployed(digest: Digest, s: Stamper, source: Job): Job {
    Stamp(s, Bind(digest, source))
  }

  /** The job a capture of the live store and a regeneration make of it. */
  function Regenerated(digest: Digest, s: Stamper, live: Job): Job {
    Deployed(digest, s, Unpublish(Sanitized(live)))
  }

  lemma BoundEitherWay(digest: Digest, j: Job, v: Value)
    requires DigestFits(digest) && Bind(digest, j) == j
    ensures Bind(digest, j["enabled" := v]) == j["enabled" := v]
    ensures PlaceholderLeft(j["enabled" := v]) == PlaceholderLeft(j)
              && ForeignPrefix(j["enabled" := v]) == ForeignPrefix(j)
  {
    BoundIsPublished(digest, j);
    ReadsEitherWay(j, v);
    hide Bind, Tools, Agent, Contracted, NameText, EnvOf, WithTools, Publish;
    ToolsEitherWay(digest, j, v);
    PublishedEitherWay(j, v);
    BindInTwo(digest, j["enabled" := v]);
  }

  lemma BindInTwo(digest: Digest, j: Job)
    requires WithTools(digest, j) == j && Publish(j) == j
    ensures Bind(digest, j) == j
  {
  }

  /** Binding does not look at `enabled`. */
  lemma ReadsEitherWay(j: Job, v: Value)
    ensures var k := j["enabled" := v];
            && Tools(k) == Tools(j) && Agent(k) == Agent(j) && Contracted(k) == Contracted(j)
                && NameText(k) == NameText(j)
            && EnvOf(k) == EnvOf(j) && PlaceholderLeft(k) == PlaceholderLeft(j) && ForeignPrefix(k) == ForeignPrefix(j)
  {
    hide Contains, WritersAmong;
    var k := j["enabled" := v];
    assert Get(k, TOOLSETS) == Get(j, TOOLSETS) && Get(k, "no_agent") == Get(j, "no_agent")
        && Get(k, "env") == Get(j, "env");
    assert Get(k, "output_contract") == Get(j, "output_contract") && Held(k, "name") == Held(j, "name")
        && Get(k, "prompt") == Get(j, "prompt");
  }

  lemma ToolsEitherWay(digest: Digest, j: Job, v: Value)
    requires WithTools(digest, j) == j
    requires var k := j["enabled" := v];
             Tools(k) == Tools(j) && Agent(k) == Agent(j) && Contracted(k) == Contracted(j)
                 && NameText(k) == NameText(j)
    ensures WithTools(digest, j["enabled" := v]) == j["enabled" := v]
  {
    hide Tools, Agent, Contracted, NameText, BoundTools, ContractWriterName, UnboundedWriterName;
    var k := j["enabled" := v];
    if Agent(j) && Contracted(j) {
      assert Held(k, TOOLSETS) == Held(j, TOOLSETS);
      SetAgain(k, TOOLSETS, j[TOOLSETS]);
    }
  }

  lemma PublishedEitherWay(j: Job, v: Value)
    requires Publish(j) == j
    requires var k := j["enabled" := v]; Tools(k) == Tools(j) && Agent(k) == Agent(j) && EnvOf(k) == EnvOf(j)
    ensures Publish(j["enabled" := v]) == j["enabled" := v]
  {
    hide Tools, Agent, EnvOf, PublishedPrompt, ToolPrefix, WritersAmong;
    var k := j["enabled" := v];
    if Publishes(j) {
      var prefix := PrefixOf(j);
      assert Publishes(k) && PrefixOf(k) == prefix;
      hide PrefixOf, Publishes;
      PublishedParts(j, prefix);
      if "prompt" in j {
        SetAgain(k, "prompt", j["prompt"]);
      }
      SetAgain(k, "env", j["env"]);
    }
  }

  lemma PublishedParts(j: Job, prefix: string)
    requires var prompted := if "prompt" in j then j["prompt" := PublishedPrompt(j["prompt"], prefix)] else j;
             prompted["env" := Obj(EnvOf(j)[PREFIX_ENV := Str(prefix)])] == j
    ensures "env" in j && j["env"] == Obj(EnvOf(j)[PREFIX_ENV := Str(prefix)])
    ensures "prompt" in j ==> PublishedPrompt(j["prompt"], prefix) == j["prompt"]
  {
    hide PublishedPrompt, EnvOf;
  }

  /** A deployed job without a placeholder is a fixed point of binding and of stamping. */
  lemma DeployedIsFixed(digest: Digest, s: Stamper, source: Job)
    requires DigestFits(digest) && Sensible(s) && !PlaceholderLeft(Deployed(digest, s, source))
    ensures Bind(digest, Deployed(digest, s, source)) == Deployed(digest, s, source)
    ensures Stamped(s, Deployed(digest, s, source))
  {
    var t := WithTools(digest, source);
    var b := Publish(t);
    var d := Stamp(s, b);
    WithToolsTwice(digest, source);
    PublishKeeps(digest, t);
    StampFinishes(s, b);
    DeployedReads(s, b);
    hide WithTools, Publish, Stamp, Stamped, Sensible, DigestFits;
    ToolsOfDeployed(digest, b, d);
    PublishOfDeployed(digest, s, t);
  }

  /** Stamping leaves what binding reads alone. */
  lemma DeployedReads(s: Stamper, b: Job)
    ensures var d := Stamp(s, b);
            && Tools(d) == Tools(b) && Agent(d) == Agent(b) && Contracted(d) == Contracted(b)
                && NameText(d) == NameText(b)
            && Held(d, TOOLSETS) == Held(b, TOOLSETS)
  {
    NotStamped();
    hide StampKey, Stamp;
    StampElsewhere(s, b, TOOLSETS);
    StampElsewhere(s, b, "no_agent");
    StampElsewhere(s, b, "output_contract");
    StampElsewhere(s, b, "name");
    SameReads(Stamp(s, b), b);
  }

  lemma NotStamped()
    ensures !StampKey(TOOLSETS) && !StampKey("no_agent") && !StampKey("output_contract") && !StampKey("name")
  {
  }

  lemma SameReads(d: Job, b: Job)
    requires Held(d, TOOLSETS) == Held(b, TOOLSETS) && Held(d, "no_agent") == Held(b, "no_agent")
    requires Held(d, "output_contract") == Held(b, "output_contract") && Held(d, "name") == Held(b, "name")
    ensures Tools(d) == Tools(b) && Agent(d) == Agent(b) && Contracted(d) == Contracted(b) && NameText(d) == NameText(b)
  {
    assert Get(d, TOOLSETS) == Get(b, TOOLSETS) && Get(d, "no_agent") == Get(b, "no_agent")
        && Get(d, "output_contract") == Get(b, "output_contract");
    hide Characters, Truthy;
  }

  lemma ToolsOfDeployed(digest: Digest, b: Job, d: Job)
    requires WithTools(digest, b) == b && Held(d, TOOLSETS) == Held(b, TOOLSETS)
    requires Tools(d) == Tools(b) && Agent(d) == Agent(b) && Contracted(d) == Contracted(b)
              && NameText(d) == NameText(b)
    ensures WithTools(digest, d) == d
  {
    hide Tools, Agent, Contracted, NameText, BoundTools, ContractWriterName, UnboundedWriterName;
    if Agent(b) && Contracted(b) {
      SetAgain(d, TOOLSETS, b[TOOLSETS]);
    }
  }

  lemma PublishOfDeployed(digest: Digest, s: Stamper, t: Job)
    requires !PlaceholderLeft(Stamp(s, Publish(t)))
    ensures Publish(Stamp(s, Publish(t))) == Stamp(s, Publish(t))
  {
    var b := Publish(t);
    var d := Stamp(s, b);
    PublishKeeps(digest, t);
    DeployedReads(s, b);
    if Publishes(d) {
      assert Publishes(b) && Publishes(t) && PrefixOf(d) == PrefixOf(b) == PrefixOf(t);
      assert Get(b, "env").Obj? by { hide PublishedPrompt; }
      assert Held(EnvOf(b), PREFIX_ENV) == Some(Str(PrefixOf(t)));
      StampKeepsEnv(s, b, PREFIX_ENV);
      hide Stamp, Tools, WritersAmong, ToolPrefix, PrefixOf, Contains, Replace;
      SetAgain(EnvOf(d), PREFIX_ENV, Str(PrefixOf(t)));
      if "prompt" in d {
        assert Agent(d);
        SetAgain(d, "prompt", d["prompt"]);
      }
      SetAgain(d, "env", Obj(EnvOf(d)));
    }
  }

  lemma IntendedIsFixed(digest: Digest, s: Stamper, d: Job, w: Switch)
    requires DigestFits(digest) && Bind(digest, d) == d && Stamped(s, d) && !PlaceholderLeft(d) && !ForeignPrefix(d)
    ensures var c := Intended(d, w);
            Bind(digest, c) == c && Stamped(s, c) && !PlaceholderLeft(c) && !ForeignPrefix(c)
  {
    hide Bind, Stamped, PlaceholderLeft, ForeignPrefix, DigestFits;
    if w.touched {
      var v := Intended(d, w)["enabled"];
      BoundEitherWay(digest, d, v);
      StampedEitherWay(s, d, v);
    }
  }

  /** A key neither binding nor stamping writes. */
  predicate Bystander(key: string) {
    !StampKey(key) && key != TOOLSETS && key != "prompt" && key != "env"
  }

  lemma RegeneratedElsewhere(digest: Digest, s: Stamper, live: Job, key: string)
    requires Bystander(key)
    ensures Held(Regenerated(digest, s, live), key) == Held(Sanitized(live), key)
  {
    var j := Sanitized(live);
    var u := Unpublish(j);
    var t := WithTools(digest, u);
    hide *;
    BystanderKeys(key);
    UnpublishedElsewhere(j, key);
    ToolsElsewhere(digest, u, key);
    PublishKeeps(digest, t);
    StampElsewhere(s, Publish(t), key);
    RegeneratedIs(digest, s, live);
  }

  lemma BystanderKeys(key: string)
    requires Bystander(key)
    ensures !StampKey(key) && key != TOOLSETS && key != "prompt" && key != "env"
  {
  }

  lemma UnpublishedElsewhere(j: Job, key: string)
    requires Bystander(key)
    ensures Held(Unpublish(j), key) == Held(j, key)
  {
    hide Replace, StampKey;
  }

  lemma ToolsElsewhere(digest: Digest, j: Job, key: string)
    requires Bystander(key)
    ensures Held(WithTools(digest, j), key) == Held(j, key)
  {
    hide BoundTools, ContractWriterName, UnboundedWriterName, Tools, StampKey;
  }

  lemma RegeneratedIs(digest: Digest, s: Stamper, live: Job)
    ensures Regenerated(digest, s, live) == Stamp(s, Publish(WithTools(digest, Unpublish(Sanitized(live)))))
  {
  }

  /** What a capture fails to forget, a regeneration does not touch. */
  lemma LeftoversStay(live: Job, w: Switch, key: string)
    requires LeftAt(live, w, key)
    ensures Bystander(key)
  {
    assert SchedulerField(key) ==> key in CronStore.RUNTIME_FIELDS || key[0] == '_';
  }

  /** Capture then regenerate is the identity on a deployed fleet: whatever its life in the live store, a
      job comes back as it was deployed, switched as its operator wants it, exactly when it left nothing
      unforgettable. */
  lemma CaptureThenRegenerateIff(digest: Digest, s: Stamper, source: Job, events: seq<Event>)
    requires DigestFits(digest) && Sensible(s)
    requires var d := Deployed(digest, s, source);
             Fresh(d) && AllAllowed(events) && !PlaceholderLeft(d) && !ForeignPrefix(d)
    ensures var d, w := Deployed(digest, s, source), SwitchAfter(events);
            Regenerated(digest, s, Live(d, events)) == Intended(d, w) <==> Forgettable(Live(d, events), w)
  {
    var d, w := Deployed(digest, s, source), SwitchAfter(events);
    var live := Live(d, events);
    var c := Intended(d, w);
    DeployedIsFixed(digest, s, source);
    HistoryLives(d, events);
    hide Live, SwitchAfter, AllAllowed, Deployed;
    SanitizedIff(d, live, w);
    if Forgettable(live, w) {
      hide *;
      RegeneratesIntended(digest, s, d, live, w);
    } else {
      Leftovers(live, w);
      var key :| LeftAt(live, w, key);
      hide *;
      NotRegenerated(digest, s, d, live, w, key);
    }
  }

  lemma RegeneratesIntended(digest: Digest, s: Stamper, d: Job, live: Job, w: Switch)
    requires DigestFits(digest) && Sensible(s) && Bind(digest, d) == d && Stamped(s, d)
    requires !PlaceholderLeft(d) && !ForeignPrefix(d) && Sanitized(live) == Intended(d, w)
    ensures Regenerated(digest, s, live) == Intended(d, w)
  {
    var c := Intended(d, w);
    hide Bind, Stamp, Stamped, Unpublish, PlaceholderLeft, ForeignPrefix, Sanitized, Sensible, DigestFits;
    IntendedIsFixed(digest, s, d, w);
    RebindIff(digest, c);
    StampedIsFixed(s, c);
  }

  lemma NotRegenerated(digest: Digest, s: Stamper, d: Job, live: Job, w: Switch, key: string)
    requires Fresh(d) && Lives(d, live, w) && LeftAt(live, w, key)
    ensures Regenerated(digest, s, live) != Intended(d, w)
  {
    SanitizedLookup(live, key);
    CapturedAt(d, live, w, key);
    LeftoversStay(live, w, key);
    hide *;
    RegeneratedElsewhere(digest, s, live, key);
  }
}
