/** The job store the deploy and the scheduler share: `scripts/cron_plus_store.py`. */
module CronStore {
  import opened Values
  import opened Jobs

  const RUNTIME_FIELDS: set<string> := {
    "enabled", "paused_at", "next_run_at", "last_run_at", "last_status", "last_error",
    "last_delivery_error", "last_completed_at", "last_run_success", "after_claim", "after_consumed"
  }

  /** A key the scheduler owns: listed, or starting with an underscore. */
  predicate RuntimeKey(key: string) {
    key in RUNTIME_FIELDS || (key != [] && key[0] == '_')
  }

  /** The ids can key a dictionary. */
  predicate Keyed(jobs: seq<Job>) {
    forall i :: 0 <= i < |jobs| ==> !Get(jobs[i], "id").List? && !Get(jobs[i], "id").Obj?
  }

  // ---------------------------------------------------------------------------------------------
  // Operator pauses
  // ---------------------------------------------------------------------------------------------

  /** `j.get("id") and j.get("enabled") is False` */
  predicate PausedJob(j: Job) {
    Truthy(Get(j, "id")) && Get(j, "enabled") == Bool(false)
  }

  /** The paused lanes by id; a later entry with the same id wins. */
  function PausedById(live: seq<Job>): map<Value, Job> {
    if live == [] then map[]
    else
      var n := |live| - 1;
      var rest := PausedById(live[..n]);
      if PausedJob(live[n]) then rest[Get(live[n], "id") := live[n]] else rest
  }

  lemma {:induction false} PausedByIdMembers(live: seq<Job>)
    ensures forall id :: id in PausedById(live) ==>
              PausedJob(PausedById(live)[id]) && Get(PausedById(live)[id], "id") == id
    ensures forall id :: id in PausedById(live) <==>
              exists i :: 0 <= i < |live| && PausedJob(live[i]) && Get(live[i], "id") == id
    decreases |live|
  {
    if live != [] {
      var n := |live| - 1;
      PausedByIdMembers(live[..n]);
      forall id ensures id in PausedById(live) <==>
                  exists i :: 0 <= i < |live| && PausedJob(live[i]) && Get(live[i], "id") == id
      {
        if id in PausedById(live) && id in PausedById(live[..n]) {
          var i :| 0 <= i < n && PausedJob(live[..n][i]) && Get(live[..n][i], "id") == id;
          assert PausedJob(live[i]);
        }
        if i :| 0 <= i < |live| && PausedJob(live[i]) && Get(live[i], "id") == id {
          if i < n { assert live[..n][i] == live[i]; }
        }
      }
    }
  }

  /** One regenerated job with the pause of its live twin. */
  function CarriedJob(job: Job, paused: map<Value, Job>): Job {
    var id := Get(job, "id");
    if id in paused then
      var held := paused[id];
      var off := job["enabled" := Bool(false)];
      if Truthy(Get(held, "paused_at")) then off["paused_at" := held["paused_at"]] else off
    else job
  }

  function Carried(jobs: seq<Job>, live: seq<Job>, resume: bool): (r: seq<Job>)
    ensures |r| == |jobs|
  {
    if resume then jobs
    else seq(|jobs|, i requires 0 <= i < |jobs| => CarriedJob(jobs[i], PausedById(live)))
  }

  datatype PauseReport = NothingPaused | Rearmed(lanes: nat) | Kept(kept: nat, dropped: int)

  /** How many of the jobs match a paused id. */
  function Matches(jobs: seq<Job>, paused: map<Value, Job>): nat {
    if jobs == [] then 0
    else Matches(jobs[..|jobs| - 1], paused) + if Get(jobs[|jobs| - 1], "id") in paused then 1 else 0
  }

  ghost predicate PausedWith(live: seq<Job>, l: int, id: Value) {
    0 <= l < |live| && PausedJob(live[l]) && Get(live[l], "id") == id
  }

  /** The ids of the paused lanes. */
  function PausedIds(live: seq<Job>): set<Value> {
    set l | 0 <= l < |live| && PausedJob(live[l]) :: Get(live[l], "id")
  }

  /** The regenerated jobs that have the id of a paused lane. */
  function PausedAgain(jobs: seq<Job>, live: seq<Job>): set<int> {
    set i | 0 <= i < |jobs| && Get(jobs[i], "id") in PausedIds(live)
  }

  lemma PausedIdsAre(live: seq<Job>)
    ensures PausedById(live).Keys == PausedIds(live) && |PausedById(live)| == |PausedIds(live)|
    ensures PausedById(live) == map[] <==> PausedIds(live) == {}
  {
    PausedByIdMembers(live);
    hide PausedById;
    forall id ensures id in PausedById(live) <==> id in PausedIds(live) {
    }
    assert PausedById(live).Keys == PausedIds(live);
    assert |PausedById(live)| == |PausedById(live).Keys|;
  }

  lemma OnePausedAgain(jobs: seq<Job>, live: seq<Job>)
    requires jobs != []
    ensures var n := |jobs| - 1;
            |PausedAgain(jobs, live)|
              == |PausedAgain(jobs[..n], live)| + if Get(jobs[n], "id") in PausedIds(live) then 1 else 0
  {
    hide PausedIds, Get;
    var n := |jobs| - 1;
    var before := PausedAgain(jobs[..n], live);
    assert PausedAgain(jobs, live) == if Get(jobs[n], "id") in PausedIds(live) then before + {n} else before;
  }

  lemma {:induction false} MatchesCount(jobs: seq<Job>, live: seq<Job>)
    ensures Matches(jobs, PausedById(live)) == |PausedAgain(jobs, live)|
  {
    hide PausedIds, PausedById, PausedAgain;
    if jobs != [] {
      MatchesCount(jobs[..|jobs| - 1], live);
      PausedIdsAre(live);
      OnePausedAgain(jobs, live);
    } else {
      NonePausedAgain(live);
    }
  }

  lemma NonePausedAgain(live: seq<Job>)
    ensures PausedAgain([], live) == {}
  {
  }

  /** What the deploy says about pauses: how many lanes were paused, how many of the jobs take a pause over,
      and how many paused lanes that leaves. */
  function ReportOf(jobs: seq<Job>, live: seq<Job>, resume: bool): PauseReport {
    var lanes, kept := |PausedIds(live)|, |PausedAgain(jobs, live)|;
    if lanes == 0 then NothingPaused else if resume then Rearmed(lanes) else Kept(kept, lanes - kept)
  }

  lemma ReportIs(jobs: seq<Job>, live: seq<Job>, resume: bool)
    ensures var paused := PausedById(live);
            ReportOf(jobs, live, resume) ==
              if paused == map[] then NothingPaused else if resume then Rearmed(|paused|)
              else Kept(Matches(jobs, paused), |paused| - Matches(jobs, paused))
  {
    PausedIdsAre(live);
    MatchesCount(jobs, live);
    hide PausedIds, PausedAgain, PausedById, Matches;
  }

  lemma NothingCarried(jobs: seq<Job>, live: seq<Job>)
    ensures Matches(jobs[..0], PausedById(live)) == 0
    ensures PausedById(live) == map[] ==> Carried(jobs, live, false) == jobs
  {
    hide PausedById;
  }

  lemma MatchesOneMore(jobs: seq<Job>, paused: map<Value, Job>, i: nat)
    requires i < |jobs|
    ensures Matches(jobs[..i + 1], paused) == Matches(jobs[..i], paused) + if Get(jobs[i], "id") in paused then 1 else 0
  {
    assert jobs[..i + 1][..i] == jobs[..i];
  }

  /** `carry_pauses`: edits the generated jobs in place. */
  method CarryPauses(jobs: array<Job>, live: seq<Job>, resume: bool) returns (report: PauseReport)
    requires Keyed(jobs[..]) && Keyed(live)
    modifies jobs
    ensures jobs[..] == Carried(old(jobs[..]), live, resume)
    ensures report == ReportOf(old(jobs[..]), live, resume)
  {
    var paused := PausedById(live);
    ghost var before := jobs[..];
    ReportIs(before, live, resume);
    NothingCarried(before, live);
    hide PausedById, ReportOf, Matches;
    if paused == map[] {
      assert jobs[..] == Carried(before, live, resume);
      return NothingPaused;
    }
    if resume {
      return Rearmed(|paused|);
    }
    var kept := 0;
    for i := 0 to jobs.Length
      invariant forall k :: 0 <= k < i ==> jobs[k] == CarriedJob(before[k], paused)
      invariant forall k :: i <= k < jobs.Length ==> jobs[k] == before[k]
      invariant kept == Matches(before[..i], paused)
    {
      MatchesOneMore(before, paused, i);
      var job := jobs[i];
      if Get(job, "id") in paused {
        var held := paused[Get(job, "id")];
        job := job["enabled" := Bool(false)];
        if Truthy(Get(held, "paused_at")) {
          job := job["paused_at" := held["paused_at"]];
        }
        jobs[i] := job;
        kept := kept + 1;
      }
    }
    assert before[..|before|] == before;
    assert jobs[..] == Carried(before, live, resume);
    report := Kept(kept, |paused| - kept);
  }

  // ---------------------------------------------------------------------------------------------
  // Drift
  // ---------------------------------------------------------------------------------------------

  /** Every field the deploy wrote still reads the same, runtime fields aside. A key deployed as null
      and a missing key read the same. */
  ghost predicate StillAsDeployed(job: Job, now: Job) {
    forall k :: k in job && !RuntimeKey(k) ==> Get(job, k) == Get(now, k)
  }

  function LiveById(live: seq<Job>): map<Value, Job> {
    if live == [] then map[]
    else
      var n := |live| - 1;
      var rest := LiveById(live[..n]);
      if Truthy(Get(live[n], "id")) then rest[Get(live[n], "id") := live[n]] else rest
  }

  /** No deployed job has drifted. */
  ghost predicate NoDrift(deployed: seq<Job>, live: seq<Job>) {
    forall i :: 0 <= i < |deployed| ==>
      Get(deployed[i], "id") in LiveById(live) && StillAsDeployed(deployed[i], LiveById(live)[Get(deployed[i], "id")])
  }

  datatype DriftLine = Missing(id: Value) | Changed(id: Value, keys: set<string>)

  function ChangedKeys(job: Job, now: Job): set<string> {
    set k | k in job && !RuntimeKey(k) && Get(job, k) != Get(now, k)
  }

  /** The line `drift` writes about one job, if any. */
  function JobDrift(job: Job, byId: map<Value, Job>): seq<DriftLine> {
    var id := Get(job, "id");
    if id !in byId then [Missing(id)]
    else if ChangedKeys(job, byId[id]) != {} then [Changed(id, ChangedKeys(job, byId[id]))]
    else []
  }

  function DriftLines(deployed: seq<Job>, byId: map<Value, Job>): seq<DriftLine> {
    if deployed == [] then []
    else DriftLines(deployed[..|deployed| - 1], byId) + JobDrift(deployed[|deployed| - 1], byId)
  }

  lemma {:induction false} NoLinesIffNoDrift(deployed: seq<Job>, live: seq<Job>)
    ensures DriftLines(deployed, LiveById(live)) == [] <==> NoDrift(deployed, live)
    decreases |deployed|
  {
    if deployed != [] {
      var n := |deployed| - 1;
      var job := deployed[n];
      NoLinesIffNoDrift(deployed[..n], live);
      assert deployed == deployed[..n] + [job];
      DriftOneMore(deployed[..n], job, live);
      if Get(job, "id") in LiveById(live) {
        var now := LiveById(live)[Get(job, "id")];
        assert ChangedKeys(job, now) == {} <==> StillAsDeployed(job, now) by {
          if ChangedKeys(job, now) == {} {
            forall k | k in job && !RuntimeKey(k) ensures Get(job, k) == Get(now, k) {
              assert k !in ChangedKeys(job, now);
            }
          }
        }
      }
    }
  }

  lemma DriftOneMore(deployed: seq<Job>, job: Job, live: seq<Job>)
    ensures NoDrift(deployed + [job], live) <==>
            NoDrift(deployed, live) && Get(job, "id") in LiveById(live)
                && StillAsDeployed(job, LiveById(live)[Get(job, "id")])
  {
    var more := deployed + [job];
    if NoDrift(more, live) {
      forall i | 0 <= i < |deployed|
        ensures Get(deployed[i], "id") in LiveById(live)
                  && StillAsDeployed(deployed[i], LiveById(live)[Get(deployed[i], "id")])
      {
        assert more[i] == deployed[i];
      }
      assert more[|deployed|] == job;
    }
  }

  /** What `drift` has to say about a deployed job: the live store has none of its id, or the last one of
      it reads otherwise on these keys. */
  ghost predicate LineFor(job: Job, live: seq<Job>, line: DriftLine) {
    var id := Get(job, "id");
    match line
    case Missing(missing) => missing == id && (Truthy(id) ==> forall j :: 0 <= j < |live| ==> Get(live[j], "id") != id)
    case Changed(changed, keys) =>
      && changed == id && Truthy(id) && keys != {}
      && exists j: nat :: LastOfItsId(live, j) && Get(live[j], "id") == id && ReadsOtherwise(job, live[j], keys)
  }

  ghost predicate ReadsOtherwise(job: Job, now: Job, keys: set<string>) {
    forall key :: key in keys <==> key in job && !RuntimeKey(key) && Get(now, key) != Get(job, key)
  }

  /** Nothing is to be said about it. */
  ghost predicate Undrifted(job: Job, live: seq<Job>) {
    && Truthy(Get(job, "id"))
    && exists j: nat :: LastOfItsId(live, j) && Get(live[j], "id") == Get(job, "id") && ReadsOtherwise(job, live[j], {})
  }

  /** One line for each deployed job that calls for one, in order. */
  ghost predicate LinesFor(deployed: seq<Job>, live: seq<Job>, lines: seq<DriftLine>) {
    if deployed == [] then lines == []
    else
      var n := |deployed| - 1;
      if Undrifted(deployed[n], live) then LinesFor(deployed[..n], live, lines)
      else
        && lines != [] && LineFor(deployed[n], live, lines[|lines| - 1])
        && LinesFor(deployed[..n], live, lines[..|lines| - 1])
  }

  lemma JobDriftIs(job: Job, live: seq<Job>)
    ensures var lines := JobDrift(job, LiveById(live));
            && (Undrifted(job, live) <==> lines == [])
            && (lines != [] ==> |lines| == 1 && LineFor(job, live, lines[0]))
  {
    var id := Get(job, "id");
    var j := FoundById(live, id);
    hide LiveById;
    if id in LiveById(live) {
      assert ReadsOtherwise(job, live[j], ChangedKeys(job, live[j]));
      forall i: nat | LastOfItsId(live, i) && Get(live[i], "id") == id ensures i == j {
        OneLast(live, i, j);
      }
    }
  }

  lemma {:induction false} DriftLinesAre(deployed: seq<Job>, live: seq<Job>)
    ensures LinesFor(deployed, live, DriftLines(deployed, LiveById(live)))
  {
    if deployed != [] {
      var n := |deployed| - 1;
      DriftLinesAre(deployed[..n], live);
      JobDriftIs(deployed[n], live);
      var before, last := DriftLines(deployed[..n], LiveById(live)), JobDrift(deployed[n], LiveById(live));
      hide JobDrift, LiveById, Undrifted, LineFor;
      if last == [] {
        assert before + last == before;
      } else {
        assert (before + last)[..|before|] == before && (before + last)[|before|] == last[0];
      }
    }
  }

  /** `drift`: one line per deployed job the live store no longer carries as it was written, and none
      exactly when every deployed field outside the runtime ones still reads the same. */
  method Drift(deployed: seq<Job>, live: seq<Job>) returns (lines: seq<DriftLine>)
    requires Keyed(deployed) && Keyed(live)
    ensures lines == DriftLines(deployed, LiveById(live))
    ensures lines == [] <==> NoDrift(deployed, live)
    ensures LinesFor(deployed, live, lines)
  {
    var byId := LiveById(live);
    lines := [];
    for i := 0 to |deployed|
      invariant lines == DriftLines(deployed[..i], byId)
    {
      assert deployed[..i + 1][..i] == deployed[..i];
      var job := deployed[i];
      var id := Get(job, "id");
      if id !in byId {
        lines := lines + [Missing(id)];
      } else {
        var changed := ChangedKeys(job, byId[id]);
        if changed != {} {
          lines := lines + [Changed(id, changed)];
        }
      }
    }
    assert deployed[..|deployed|] == deployed;
    NoLinesIffNoDrift(deployed, live);
    DriftLinesAre(deployed, live);
  }

  // ---------------------------------------------------------------------------------------------
  // What a runtime edit can and cannot do
  // ---------------------------------------------------------------------------------------------

  /** What the scheduler writes although `drift` judges it: the count of a repeat, and what a pause records. */
  predicate JudgedWrite(key: string) {
    key in {"repeat", "paused_reason", "paused_by"}
  }

  /** The job is still the same one and has kept its definition. Runtime keys may have changed, keys it did
      not have may have been added, the notes of a pause come and go, and a repeat may have been counted. */
  ghost predicate KeepsDefinition(before: Job, after: Job) {
    && Get(after, "id") == Get(before, "id")
    && (forall k :: k in before && !RuntimeKey(k) && !JudgedWrite(k) ==> k in after && after[k] == before[k])
    && ("repeat" in before ==>
        "repeat" in after && WithoutCompleted(after["repeat"]) == WithoutCompleted(before["repeat"]))
  }

  /** What the scheduler may persist over what it read: the same jobs, each with its definition. */
  ghost predicate RuntimeEdit(before: seq<Job>, after: seq<Job>) {
    |before| == |after| && forall i :: 0 <= i < |before| ==> KeepsDefinition(before[i], after[i])
  }

  lemma RuntimeEditTransitive(a: seq<Job>, b: seq<Job>, c: seq<Job>)
    requires RuntimeEdit(a, b) && RuntimeEdit(b, c)
    ensures RuntimeEdit(a, c)
  {
    forall i | 0 <= i < |a| ensures KeepsDefinition(a[i], c[i]) {
      assert KeepsDefinition(a[i], b[i]) && KeepsDefinition(b[i], c[i]);
    }
  }

  /** Carrying pauses alters no definition: only `enabled` and `paused_at` of a paused lane. */
  lemma CarryKeepsDefinitions(jobs: seq<Job>, live: seq<Job>, resume: bool)
    ensures RuntimeEdit(jobs, Carried(jobs, live, resume))
    ensures forall i, k :: 0 <= i < |jobs| && k in jobs[i] && k !in {"enabled", "paused_at"} ==>
              k in Carried(jobs, live, resume)[i] && Carried(jobs, live, resume)[i][k] == jobs[i][k]
    ensures forall i, k :: 0 <= i < |jobs| && k in Carried(jobs, live, resume)[i] && k !in {"enabled", "paused_at"} ==>
              k in jobs[i]
    ensures forall i :: 0 <= i < |jobs| && Get(jobs[i], "id") !in PausedById(live) ==>
              Carried(jobs, live, resume)[i] == jobs[i]
  {
    var paused := PausedById(live);
    forall i | 0 <= i < |jobs|
      ensures KeepsDefinition(jobs[i], CarriedJob(jobs[i], paused))
                && SwitchedOnly(jobs[i], CarriedJob(jobs[i], paused))
    {
      CarriedJobKeeps(jobs[i], paused);
    }
    hide KeepsDefinition, CarriedJob, PausedById;
    if resume {
      forall i | 0 <= i < |jobs| ensures KeepsDefinition(jobs[i], jobs[i]) && SwitchedOnly(jobs[i], jobs[i]) {
        KeepsItself(jobs[i]);
      }
    }
    forall i | 0 <= i < |jobs| && Get(jobs[i], "id") !in paused ensures Carried(jobs, live, resume)[i] == jobs[i] {
      NotCarried(jobs[i], paused);
    }
    assert forall i :: 0 <= i < |jobs| ==> SwitchedOnly(jobs[i], Carried(jobs, live, resume)[i]);
  }

  /** Nothing but the two fields of a pause differs. */
  ghost predicate SwitchedOnly(before: Job, after: Job) {
    forall k :: k !in {"enabled", "paused_at"} ==> Held(after, k) == Held(before, k)
  }

  lemma CarriedJobKeeps(job: Job, paused: map<Value, Job>)
    ensures KeepsDefinition(job, CarriedJob(job, paused)) && SwitchedOnly(job, CarriedJob(job, paused))
  {
  }

  lemma KeepsItself(job: Job)
    ensures KeepsDefinition(job, job) && SwitchedOnly(job, job)
  {
  }

  lemma NotCarried(job: Job, paused: map<Value, Job>)
    requires Get(job, "id") !in paused
    ensures CarriedJob(job, paused) == job
  {
  }

  /** The last paused lane of that id. */
  ghost predicate LastPaused(live: seq<Job>, l: nat, id: Value) {
    PausedWith(live, l, id) && forall m :: l < m < |live| ==> !PausedWith(live, m, id)
  }

  lemma {:induction false} PausedByIdIsLast(live: seq<Job>, id: Value, l: nat)
    requires LastPaused(live, l, id)
    ensures id in PausedById(live) && PausedById(live)[id] == live[l]
    decreases |live|
  {
    var n := |live| - 1;
    if l < n {
      assert !PausedWith(live, n, id);
      forall m | l < m < n ensures !PausedWith(live[..n], m, id) {
        assert !PausedWith(live, m, id);
      }
      PausedByIdIsLast(live[..n], id, l);
    }
  }

  /** A pause carries over to every regenerated job with the id, with the time of the last paused lane of
      that id where it has one, and no other job is touched; a deploy that resumes carries none. */
  lemma CarryKeepsPauses(jobs: seq<Job>, live: seq<Job>, i: nat)
    requires i < |jobs|
    ensures var job, after := jobs[i], Carried(jobs, live, false)[i];
            var id := Get(job, "id");
            && Carried(jobs, live, true)[i] == job
            && Get(after, "id") == id
            && (id in PausedById(live) ==> PausedJob(after))
            && ((forall l :: 0 <= l < |live| ==> !PausedWith(live, l, id)) ==> after == job)
            && (forall l: nat :: LastPaused(live, l, id) ==>
                  && Held(after, "enabled") == Some(Bool(false))
                  && Held(after, "paused_at") ==
                       if Truthy(Get(live[l], "paused_at")) then Held(live[l], "paused_at") else Held(job, "paused_at"))
  {
    PausedByIdMembers(live);
    var id := Get(jobs[i], "id");
    forall l: nat | LastPaused(live, l, id) ensures id in PausedById(live) && PausedById(live)[id] == live[l] {
      PausedByIdIsLast(live, id, l);
    }
    assert id in PausedById(live) ==> exists l :: PausedWith(live, l, id) by {
      if l :| 0 <= l < |live| && PausedJob(live[l]) && Get(live[l], "id") == id {
        assert PausedWith(live, l, id);
      }
    }
    hide PausedById, LastPaused;
  }

  // ---------------------------------------------------------------------------------------------
  // When a deploy shows drift
  // ---------------------------------------------------------------------------------------------

  /** The last job with its id. */
  ghost predicate LastOfItsId(jobs: seq<Job>, j: nat) {
    j < |jobs| && forall k :: j < k < |jobs| ==> Get(jobs[k], "id") != Get(jobs[j], "id")
  }

  /** Every job has an id, and reads as the last job with that id on every non-runtime key it has. */
  ghost predicate AgreesWithItself(jobs: seq<Job>) {
    && (forall i :: 0 <= i < |jobs| ==> Truthy(Get(jobs[i], "id")))
    && (forall i, j :: 0 <= i <= j < |jobs| && Get(jobs[i], "id") == Get(jobs[j], "id") && LastOfItsId(jobs, j) ==>
          StillAsDeployed(jobs[i], jobs[j]))
  }

  /** A job's id finds the last job that has it, or nothing. */
  lemma {:induction false} FoundById(jobs: seq<Job>, id: Value) returns (j: nat)
    ensures id in LiveById(jobs) ==>
              LastOfItsId(jobs, j) && Get(jobs[j], "id") == id && LiveById(jobs)[id] == jobs[j] && Truthy(id)
    ensures id !in LiveById(jobs) ==> !Truthy(id) || forall i :: 0 <= i < |jobs| ==> Get(jobs[i], "id") != id
    decreases |jobs|
  {
    j := 0;
    if jobs != [] {
      var n := |jobs| - 1;
      j := FoundById(jobs[..n], id);
      if Get(jobs[n], "id") == id && Truthy(id) {
        j := n;
      }
    }
  }

  lemma OneLast(jobs: seq<Job>, i: nat, j: nat)
    requires LastOfItsId(jobs, i) && LastOfItsId(jobs, j) && Get(jobs[i], "id") == Get(jobs[j], "id")
    ensures i == j
  {
  }

  predicate AddsNothingOf(other: Job, before: Job, after: Job) {
    forall k :: k in other && k in after && !RuntimeKey(k) ==> k in before
  }

  /** Scheduler edits since a deploy gave no job a key that another deployed job of its id has. */
  ghost predicate AddsNothingDeployed(deployed: seq<Job>, live: seq<Job>)
    requires |deployed| == |live|
  {
    forall i, j :: 0 <= i < |deployed| && 0 <= j < |deployed| && Get(deployed[i], "id") == Get(deployed[j], "id") ==>
      AddsNothingOf(deployed[i], deployed[j], live[j])
  }

  /** No deployed repeat has been counted on, and no deployed note of a pause has been touched. */
  ghost predicate JudgedKeysKept(deployed: seq<Job>, live: seq<Job>)
    requires |deployed| == |live|
  {
    forall i :: 0 <= i < |deployed| ==> JudgedKeysKeptOf(deployed[i], live[i])
  }

  predicate JudgedKeysKeptOf(before: Job, after: Job) {
    forall k :: k in before && JudgedWrite(k) ==> Get(after, k) == before[k]
  }

  /** Whatever runtime fields the scheduler rewrote and whatever keys it added since, the deploy shows
      drift exactly when the deployed list disagrees with itself: a job without an id, or two jobs of
      one id that read differently. */
  lemma DriftAfterEditsIff(deployed: seq<Job>, live: seq<Job>)
    requires RuntimeEdit(deployed, live) && AddsNothingDeployed(deployed, live) && JudgedKeysKept(deployed, live)
    ensures NoDrift(deployed, live) <==> AgreesWithItself(deployed)
  {
    hide LiveById;
    if AgreesWithItself(deployed) {
      forall i | 0 <= i < |deployed|
        ensures Get(deployed[i], "id") in LiveById(live)
                  && StillAsDeployed(deployed[i], LiveById(live)[Get(deployed[i], "id")])
      {
        AgreementHolds(deployed, live, i);
      }
    }
    if NoDrift(deployed, live) {
      forall i | 0 <= i < |deployed| ensures Truthy(Get(deployed[i], "id")) {
        var j := FoundById(live, Get(deployed[i], "id"));
      }
      forall i, j | && 0 <= i <= j < |deployed|
                    && Get(deployed[i], "id") == Get(deployed[j], "id") && LastOfItsId(deployed, j)
        ensures StillAsDeployed(deployed[i], deployed[j])
      {
        DriftFree(deployed, live, i, j);
      }
    }
  }

  lemma SameIds(deployed: seq<Job>, live: seq<Job>)
    requires RuntimeEdit(deployed, live)
    ensures forall i :: 0 <= i < |deployed| ==> Get(live[i], "id") == Get(deployed[i], "id")
    ensures forall j :: LastOfItsId(deployed, j) <==> LastOfItsId(live, j)
  {
    assert forall i :: 0 <= i < |deployed| ==> KeepsDefinition(deployed[i], live[i]);
  }

  /** Reading the deployed job and reading it live is the same for the jobs of its id. */
  lemma SameReading(deployed: seq<Job>, live: seq<Job>, i: nat, j: nat)
    requires RuntimeEdit(deployed, live) && AddsNothingDeployed(deployed, live) && JudgedKeysKept(deployed, live)
    requires i < |deployed| && j < |deployed| && Get(deployed[i], "id") == Get(deployed[j], "id")
    ensures StillAsDeployed(deployed[i], live[j]) <==> StillAsDeployed(deployed[i], deployed[j])
  {
    assert KeepsDefinition(deployed[j], live[j]);
    assert AddsNothingOf(deployed[i], deployed[j], live[j]) && JudgedKeysKeptOf(deployed[j], live[j]);
    forall k | k in deployed[i] && !RuntimeKey(k) ensures Get(live[j], k) == Get(deployed[j], k) {
      assert k in live[j] ==> k in deployed[j];
    }
  }

  lemma AgreementHolds(deployed: seq<Job>, live: seq<Job>, i: nat)
    requires RuntimeEdit(deployed, live) && AddsNothingDeployed(deployed, live) && JudgedKeysKept(deployed, live)
              && AgreesWithItself(deployed) && i < |deployed|
    ensures var id := Get(deployed[i], "id"); id in LiveById(live) && StillAsDeployed(deployed[i], LiveById(live)[id])
  {
    hide LiveById, StillAsDeployed;
    SameIds(deployed, live);
    var j := FoundById(live, Get(deployed[i], "id"));
    assert Get(live[i], "id") == Get(deployed[i], "id");
    SameReading(deployed, live, i, j);
  }

  lemma DriftFree(deployed: seq<Job>, live: seq<Job>, i: nat, j: nat)
    requires RuntimeEdit(deployed, live) && AddsNothingDeployed(deployed, live) && JudgedKeysKept(deployed, live)
              && NoDrift(deployed, live)
    requires i <= j < |deployed| && Get(deployed[i], "id") == Get(deployed[j], "id") && LastOfItsId(deployed, j)
    ensures StillAsDeployed(deployed[i], deployed[j])
  {
    hide LiveById, StillAsDeployed;
    SameIds(deployed, live);
    var l := FoundById(live, Get(deployed[i], "id"));
    OneLast(live, j, l);
    SameReading(deployed, live, i, j);
  }

  ghost predicate DistinctIds(jobs: seq<Job>) {
    && (forall i :: 0 <= i < |jobs| ==> Truthy(Get(jobs[i], "id")))
    && (forall i, j :: 0 <= i < j < |jobs| ==> Get(jobs[i], "id") != Get(jobs[j], "id"))
  }

  /** With distinct, non-empty ids (what the fleet gates demand) and whatever the scheduler rewrote and
      added, a deploy shows drift exactly when a deployed repeat was counted on, or a deployed note of a
      pause was touched. */
  lemma DistinctIdsDriftIff(deployed: seq<Job>, live: seq<Job>)
    requires RuntimeEdit(deployed, live) && DistinctIds(deployed)
    ensures NoDrift(deployed, live) <==> JudgedKeysKept(deployed, live)
  {
    hide LiveById, StillAsDeployed, JudgedKeysKeptOf, NoDrift;
    forall i | 0 <= i < |deployed|
      ensures var id := Get(deployed[i], "id"); id in LiveById(live) && LiveById(live)[id] == live[i]
      ensures StillAsDeployed(deployed[i], live[i]) <==> JudgedKeysKeptOf(deployed[i], live[i])
    {
      DistinctFoundAt(deployed, live, i);
      StillIffJudgedKept(deployed[i], live[i]);
    }
    NoDriftPerJob(deployed, live);
  }

  lemma NoDriftPerJob(deployed: seq<Job>, live: seq<Job>)
    requires |deployed| == |live|
    requires forall i :: 0 <= i < |deployed| ==>
               var id := Get(deployed[i], "id"); id in LiveById(live) && LiveById(live)[id] == live[i]
    ensures NoDrift(deployed, live) <==> forall i :: 0 <= i < |deployed| ==> StillAsDeployed(deployed[i], live[i])
  {
    hide LiveById, StillAsDeployed;
  }

  lemma DistinctFoundAt(deployed: seq<Job>, live: seq<Job>, i: nat)
    requires RuntimeEdit(deployed, live) && DistinctIds(deployed) && i < |deployed|
    ensures var id := Get(deployed[i], "id"); id in LiveById(live) && LiveById(live)[id] == live[i]
  {
    hide LiveById;
    SameIds(deployed, live);
    var j := FoundById(live, Get(deployed[i], "id"));
    assert Get(live[i], "id") == Get(deployed[i], "id");
  }

  lemma StillIffJudgedKept(before: Job, after: Job)
    requires KeepsDefinition(before, after)
    ensures StillAsDeployed(before, after) <==> JudgedKeysKeptOf(before, after)
  {
    assert forall k :: JudgedWrite(k) ==> !RuntimeKey(k);
    hide RuntimeKey, JudgedWrite;
  }

  /** Two deployed jobs that share an id but not a definition show drift the moment they land. */
  lemma DuplicateIdsDrift()
    ensures var jobs := [map["id" := Str("x"), "prompt" := Str("a")], map["id" := Str("x"), "prompt" := Str("b")]];
            !NoDrift(jobs, jobs)
  {
    var jobs: seq<Job> := [map["id" := Str("x"), "prompt" := Str("a")], map["id" := Str("x"), "prompt" := Str("b")]];
    assert LastOfItsId(jobs, 1);
    assert !RuntimeKey("prompt") && "prompt" in jobs[0] && Get(jobs[0], "prompt") != Get(jobs[1], "prompt");
    assert !StillAsDeployed(jobs[0], jobs[1]);
    DriftAfterEditsIff(jobs, jobs);
  }

  // ---------------------------------------------------------------------------------------------
  // The store
  // ---------------------------------------------------------------------------------------------

  datatype Document = Unreadable | Readable(jobs: seq<Job>)

  function LiveJobs(d: Document): seq<Job> {
    match d
    case Unreadable => []
    case Readable(jobs) => jobs
  }

  class Store {
    var live: Document      // jobs.json, as the scheduler reads it
    var deployed: Document  // jobs.deployed.json, the record of the last deploy

    constructor ()
      ensures live == deployed == Unreadable
    {
      live, deployed := Unreadable, Unreadable;
    }

    /** `write`, under the lock: an absent or unreadable live store carries no pauses. */
    method Write(incoming: array<Job>, resume: bool) returns (report: PauseReport)
      requires Keyed(incoming[..]) && Keyed(LiveJobs(live))
      modifies this, incoming
      ensures live == deployed == Readable(Carried(old(incoming[..]), LiveJobs(old(live)), resume))
      ensures report == ReportOf(old(incoming[..]), LiveJobs(old(live)), resume)
    {
      report := CarryPauses(incoming, LiveJobs(live), resume);
      deployed := Readable(incoming[..]);
      live := Readable(incoming[..]);
    }
  }
}
