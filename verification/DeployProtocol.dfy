/** The deploy and the scheduler as two processes over one job store and one lock:
    `scripts/cron_plus_store.py`, `write`, interleaved step by step with the scheduler's
    read-modify-write. */
module DeployProtocol {
  import opened Values
  import opened Jobs
  import opened CronStore

  datatype Holder = Nobody | Deploy | Scheduler

  /** Where the deploy is: between steps it remembers the incoming jobs, then the carried ones. */
  datatype DeployAt =
    | DIdle | DLocked(incoming: seq<Job>, resume: bool) | DCarried(jobs: seq<Job>) | DRecorded(jobs: seq<Job>)
    | DWritten

  /** Where the scheduler is: after its read it holds a copy of the whole store. */
  datatype SchedulerAt = SIdle | SLocked | SRead(copy: seq<Job>) | SWritten

  datatype State = State(
    live: seq<Job>,
    deployed: seq<Job>,
    committed: bool,  // the last deploy that wrote its record also wrote the live store
    lock: Holder,
    deployAt: DeployAt,
    schedulerAt: SchedulerAt)

  datatype Step =
    | DeployLock(incoming: seq<Job>, resume: bool) | DeployCarry | DeployRecord | DeployWrite | DeployUnlock
    | DeployCrash
    | SchedulerLock | SchedulerRead | SchedulerWrite(jobs: seq<Job>) | SchedulerUnlock

  predicate Initial(s: State) {
    s.lock == Nobody && s.deployAt == DIdle && s.schedulerAt == SIdle && !s.committed
  }

  ghost predicate Enabled(s: State, step: Step) {
    match step
    case DeployLock(_, _) => s.lock == Nobody && s.deployAt == DIdle
    case DeployCarry => s.deployAt.DLocked?
    case DeployRecord => s.deployAt.DCarried?
    case DeployWrite => s.deployAt.DRecorded?
    case DeployUnlock => s.deployAt == DWritten
    case DeployCrash => s.deployAt != DIdle
    case SchedulerLock => s.lock == Nobody && s.schedulerAt == SIdle
    case SchedulerRead => s.schedulerAt == SLocked
    case SchedulerWrite(jobs) => s.schedulerAt.SRead? && RuntimeEdit(s.schedulerAt.copy, jobs)
    case SchedulerUnlock => s.schedulerAt != SIdle
  }

  /** One step. The scheduler writes an edit of the copy it read, whatever the store holds by then; it
      may let go of the lock at any point. A deploy that dies releases the lock where it stood. */
  ghost function Next(s: State, step: Step): State
    requires Enabled(s, step)
  {
    match step
    case DeployLock(incoming, resume) => s.(lock := Deploy, deployAt := DLocked(incoming, resume))
    case DeployCarry => s.(deployAt := DCarried(Carried(s.deployAt.incoming, s.live, s.deployAt.resume)))
    case DeployRecord => s.(deployed := s.deployAt.jobs, deployAt := DRecorded(s.deployAt.jobs))
    case DeployWrite => s.(live := s.deployAt.jobs, deployAt := DWritten, committed := true)
    case DeployUnlock => s.(lock := Nobody, deployAt := DIdle)
    case DeployCrash => s.(lock := Nobody, deployAt := DIdle, committed := s.committed && !s.deployAt.DRecorded?)
    case SchedulerLock => s.(lock := Scheduler, schedulerAt := SLocked)
    case SchedulerRead => s.(schedulerAt := SRead(s.live))
    case SchedulerWrite(jobs) => s.(live := jobs, schedulerAt := SWritten)
    case SchedulerUnlock => s.(lock := Nobody, schedulerAt := SIdle)
  }

  /** A run: each step enabled where it is taken. */
  ghost predicate IsRun(states: seq<State>, steps: seq<Step>) {
    && |states| == |steps| + 1
    && Initial(states[0])
    && forall i :: 0 <= i < |steps| ==> Enabled(states[i], steps[i]) && states[i + 1] == Next(states[i], steps[i])
  }

  /** The lock excludes; a read copy is never stale; the record and the live store share their
      definitions except between the two writes of one deploy. */
  ghost predicate Inv(s: State) {
    && (s.deployAt != DIdle <==> s.lock == Deploy)
    && (s.schedulerAt != SIdle <==> s.lock == Scheduler)
    && (s.schedulerAt.SRead? ==> s.schedulerAt.copy == s.live)
    && (s.deployAt.DRecorded? ==> s.deployed == s.deployAt.jobs)
    && (s.committed && !s.deployAt.DRecorded? ==> RuntimeEdit(s.deployed, s.live))
  }

  lemma StepKeepsInv(s: State, step: Step)
    requires Inv(s) && Enabled(s, step)
    ensures Inv(Next(s, step))
  {
    if step.SchedulerWrite? && s.committed {
      assert !s.deployAt.DRecorded?;
      RuntimeEditTransitive(s.deployed, s.live, step.jobs);
    }
  }

  lemma {:induction false} RunKeepsInv(states: seq<State>, steps: seq<Step>, k: nat)
    requires IsRun(states, steps) && k < |states|
    ensures Inv(states[k])
    decreases k
  {
    if k > 0 {
      RunKeepsInv(states, steps, k - 1);
      StepKeepsInv(states[k - 1], steps[k - 1]);
    }
  }

  /** The deploy never loses to the scheduler. In every interleaving, once a deploy has committed and
      while none is between its two writes (or died there), and the deployed jobs have distinct,
      non-empty ids, the live store shows drift exactly when a deployed repeat was counted on or a
      deployed note of a pause was touched; no other scheduler write ever shows. With repeated or empty
      ids it shows drift exactly when the deployed list disagrees with itself, unless a job was given a
      key that another deployed job of its id has. */
  lemma DeployIsNeverLost(states: seq<State>, steps: seq<Step>, k: nat)
    requires IsRun(states, steps) && k < |states|
    requires states[k].committed && !states[k].deployAt.DRecorded?
    ensures |states[k].deployed| == |states[k].live|
    ensures DistinctIds(states[k].deployed) ==>
              (NoDrift(states[k].deployed, states[k].live) <==> JudgedKeysKept(states[k].deployed, states[k].live))
    ensures var s := states[k];
            JudgedKeysKept(s.deployed, s.live) && AddsNothingDeployed(s.deployed, s.live) ==>
              (NoDrift(s.deployed, s.live) <==> AgreesWithItself(s.deployed))
  {
    var s := states[k];
    RunKeepsInv(states, steps, k);
    hide NoDrift, DistinctIds, AgreesWithItself, AddsNothingDeployed, JudgedKeysKept;
    if DistinctIds(s.deployed) {
      DistinctIdsDriftIff(s.deployed, s.live);
    }
    if JudgedKeysKept(s.deployed, s.live) && AddsNothingDeployed(s.deployed, s.live) {
      DriftAfterEditsIff(s.deployed, s.live);
    }
  }

  // ---------------------------------------------------------------------------------------------
  // Pauses survive deploys
  // ---------------------------------------------------------------------------------------------

  ghost predicate Mentions(jobs: seq<Job>, id: Value) {
    exists i :: 0 <= i < |jobs| && Get(jobs[i], "id") == id
  }

  /** Nobody takes the lane out of its pause on purpose, and every deploy still ships it. */
  ghost predicate LeavesPaused(s: State, step: Step, id: Value) {
    match step
    case DeployLock(incoming, resume) => !resume && Mentions(incoming, id)
    case SchedulerWrite(jobs) => id in PausedById(s.live) ==> id in PausedById(jobs)
    case _ => true
  }

  ghost predicate PauseInv(s: State, id: Value) {
    && id in PausedById(s.live)
    && (s.deployAt.DLocked? ==> !s.deployAt.resume && Mentions(s.deployAt.incoming, id))
    && (s.deployAt.DCarried? || s.deployAt.DRecorded? ==> id in PausedById(s.deployAt.jobs))
  }

  lemma CarriedStillPaused(jobs: seq<Job>, live: seq<Job>, id: Value)
    requires Mentions(jobs, id) && id in PausedById(live)
    ensures id in PausedById(Carried(jobs, live, false))
  {
    var i :| 0 <= i < |jobs| && Get(jobs[i], "id") == id;
    CarryKeepsPauses(jobs, live, i);
    PausedByIdMembers(Carried(jobs, live, false));
  }

  /** A paused lane stays paused through any interleaving of scheduler writes that do not resume it
      and any number of non-resume deploys that still ship it. */
  lemma {:induction false} PausePersists(states: seq<State>, steps: seq<Step>, id: Value, k: nat)
    requires IsRun(states, steps) && k < |states|
    requires id in PausedById(states[0].live)
    requires forall i :: 0 <= i < |steps| ==> LeavesPaused(states[i], steps[i], id)
    ensures PauseInv(states[k], id)
    decreases k
  {
    if k > 0 {
      PausePersists(states, steps, id, k - 1);
      RunKeepsInv(states, steps, k - 1);
      var s, step := states[k - 1], steps[k - 1];
      assert LeavesPaused(s, step, id);
      if step.DeployCarry? {
        CarriedStillPaused(s.deployAt.incoming, s.live, id);
      }
    }
  }

  // ---------------------------------------------------------------------------------------------
  // Why the lock is needed
  // ---------------------------------------------------------------------------------------------

  /** Without the shared lock the scheduler's copy can be stale: it then persists the old definition
      over a finished deploy, which `drift` reports. */
  lemma StaleCopyLosesTheDeploy()
    ensures var was: seq<Job> := [map["id" := Str("x"), "prompt" := Str("old")]];
            var regenerated: seq<Job> := [map["id" := Str("x"), "prompt" := Str("new")]];
            && RuntimeEdit(was, was)
            && NoDrift(regenerated, Carried(regenerated, was, false))
            && !NoDrift(regenerated, was)
  {
    var a: Job := map["id" := Str("x"), "prompt" := Str("old")];
    var b: Job := map["id" := Str("x"), "prompt" := Str("new")];
    FreshDeployShowsNone(a, b);
    StaleCopyShows(a, b);
  }

  lemma FreshDeployShowsNone(a: Job, b: Job)
    requires b.Keys == {"id", "prompt"} && Truthy(b["id"]) && "enabled" !in a
    ensures NoDrift([b], Carried([b], [a], false))
  {
    assert [a][..0] == [];
    assert PausedById([a]) == map[];
    CarryKeepsDefinitions([b], [a], false);
    assert [b][0] == b;
    DistinctIdsDriftIff([b], Carried([b], [a], false));
  }

  lemma StaleCopyShows(a: Job, b: Job)
    requires "id" in a && "id" in b && a["id"] == b["id"] && Truthy(a["id"])
    requires "prompt" in a && "prompt" in b && a["prompt"] != b["prompt"]
    ensures !NoDrift([b], [a])
  {
    assert [a][..0] == [];
    assert LiveById([a])[a["id"]] == a;
    assert !RuntimeKey("prompt") && Get(b, "prompt") != Get(a, "prompt");
    assert !StillAsDeployed(b, a);
    assert [b][0] == b;
  }
}
