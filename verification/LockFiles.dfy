/** One lock file, system call by system call: `acquire_lockset` opens it and takes its flock, and
    `LockSet.release` unlocks it and then unlinks whatever stands at its path (`okengine/operations/run.py`). */
module LockFiles {
  import opened Values

  /** How far a run has come with the lock; a file is known by its inode. */
  datatype Stage = Opened(inode: nat) | Holding(inode: nat) | Unlocked

  datatype State = State(
    path: Option<nat>,           // the file at the lock's path
    next: nat,                   // the first inode never used
    held: map<nat, string>,      // whose flock is on which file
    runs: map<string, Stage>)    // the runs with business here

  datatype Step =
    | Open(run: string) | Flock(run: string) | Refuse(run: string)
    | Unlock(run: string) | Unlink(run: string)

  const INITIAL := State(None, 0, map[], map[])

  predicate Enabled(s: State, step: Step) {
    match step
    case Open(p) => p !in s.runs
    case Flock(p) => p in s.runs && s.runs[p].Opened? && s.runs[p].inode !in s.held
    case Refuse(p) => p in s.runs && s.runs[p].Opened? && s.runs[p].inode in s.held
    case Unlock(p) => p in s.runs && s.runs[p].Holding?
    case Unlink(p) => p in s.runs && s.runs[p].Unlocked?
  }

  function Next(s: State, step: Step): State
    requires Enabled(s, step)
  {
    match step
    case Open(p) =>
      var inode := if s.path.Some? then s.path.value else s.next;
      s.(path := Some(inode), next := if s.path.Some? then s.next else s.next + 1, runs := s.runs[p := Opened(inode)])
    case Flock(p) =>
      s.(held := s.held[s.runs[p].inode := p], runs := s.runs[p := Holding(s.runs[p].inode)])
    case Refuse(p) => s.(runs := s.runs - {p})
    case Unlock(p) => s.(held := s.held - {s.runs[p].inode}, runs := s.runs[p := Unlocked])
    case Unlink(p) => s.(path := None, runs := s.runs - {p})
  }

  ghost predicate IsRun(states: seq<State>, steps: seq<Step>) {
    && |states| == |steps| + 1
    && states[0] == INITIAL
    && forall i :: 0 <= i < |steps| ==> Enabled(states[i], steps[i]) && states[i + 1] == Next(states[i], steps[i])
  }

  // ---------------------------------------------------------------------------------------------
  // What every run keeps
  // ---------------------------------------------------------------------------------------------

  /** The run has the file open. */
  predicate HasOpen(s: State, p: string) {
    p in s.runs && !s.runs[p].Unlocked?
  }

  predicate Holds(s: State, p: string) {
    p in s.runs && s.runs[p].Holding?
  }

  ghost predicate Inv(s: State) {
    && (forall i, p :: i in s.held && s.held[i] == p ==> p in s.runs && s.runs[p] == Holding(i))
    && (forall p :: Holds(s, p) ==> s.runs[p].inode in s.held && s.held[s.runs[p].inode] == p)
    && (forall p :: HasOpen(s, p) ==> s.runs[p].inode < s.next)
    && (s.path.Some? ==> s.path.value < s.next)
  }

  lemma StepKeepsInv(s: State, step: Step)
    requires Inv(s) && Enabled(s, step)
    ensures Inv(Next(s, step))
  {
  }

  lemma {:induction false} RunKeepsInv(states: seq<State>, steps: seq<Step>, k: nat)
    requires IsRun(states, steps) && k < |states|
    ensures Inv(states[k])
    decreases k
  {
    if k > 0 {
      RunKeepsInv(states, steps, k - 1);
      StepKeepsInv(states[k - 1], steps[k - 1]);
    }
  }

  // ---------------------------------------------------------------------------------------------
  // When the file excludes
  // ---------------------------------------------------------------------------------------------

  /** The step unlinks the file while another run has it open: the release is not one step. */
  ghost predicate Harmful(s: State, step: Step) {
    step.Unlink? && exists q :: q != step.run && HasOpen(s, q) && s.path == Some(s.runs[q].inode)
  }

  /** Every file anybody has open is the one at the path. */
  ghost predicate OneFile(s: State) {
    forall p :: HasOpen(s, p) ==> s.path == Some(s.runs[p].inode)
  }

  lemma StepKeepsOneFile(s: State, step: Step)
    requires OneFile(s) && Enabled(s, step) && !Harmful(s, step)
    ensures OneFile(Next(s, step))
  {
    var t := Next(s, step);
    forall p | HasOpen(t, p) ensures t.path == Some(t.runs[p].inode) {
      assert p in s.runs && step.Unlink? ==> HasOpen(s, p) && p != step.run;
    }
  }

  lemma {:induction false} RunKeepsOneFile(states: seq<State>, steps: seq<Step>, k: nat)
    requires IsRun(states, steps) && k < |states|
    requires forall i :: 0 <= i < k ==> !Harmful(states[i], steps[i])
    ensures OneFile(states[k])
    decreases k
  {
    if k > 0 {
      RunKeepsOneFile(states, steps, k - 1);
      StepKeepsOneFile(states[k - 1], steps[k - 1]);
    }
  }

  /** Until a release unlinks a file another run has open, one run at a time holds the lock. */
  lemma OneHolder(states: seq<State>, steps: seq<Step>, k: nat, p: string, q: string)
    requires IsRun(states, steps) && k < |states|
    requires forall i :: 0 <= i < k ==> !Harmful(states[i], steps[i])
    requires Holds(states[k], p) && Holds(states[k], q)
    ensures p == q
  {
    RunKeepsInv(states, steps, k);
    RunKeepsOneFile(states, steps, k);
    var s := states[k];
    assert HasOpen(s, p) && HasOpen(s, q);
    assert s.held[s.runs[p].inode] == p && s.held[s.runs[q].inode] == q;
  }

  function Last(states: seq<State>): State
    requires states != []
  {
    states[|states| - 1]
  }

  lemma OneMore(states: seq<State>, steps: seq<Step>, step: Step) returns (longer: seq<State>)
    requires IsRun(states, steps) && Enabled(Last(states), step)
    ensures IsRun(longer, steps + [step]) && longer == states + [Next(Last(states), step)]
  {
    hide Enabled, Next;
    longer := states + [Next(Last(states), step)];
  }

  /** And every such release can end with two runs holding it, whichever run comes next. */
  lemma HarmfulUnlinkAdmitsTwo(states: seq<State>, steps: seq<Step>, step: Step, r: string)
    returns (longer: seq<State>, more: seq<Step>, p: string)
    requires IsRun(states, steps) && Enabled(Last(states), step) && Harmful(Last(states), step)
    requires r !in Last(states).runs
    ensures IsRun(longer, more) && |more| > |steps| && more[..|steps| + 1] == steps + [step]
    ensures p != r && Holds(Last(longer), p) && Holds(Last(longer), r)
  {
    var s := Last(states);
    var q :| q != step.run && HasOpen(s, q) && s.path == Some(s.runs[q].inode);
    var i := s.runs[q].inode;
    RunKeepsInv(states, steps, |steps|);
    var s1 := OneMore(states, steps, step);
    StepKeepsInv(s, step);
    assert HasOpen(Last(s1), q) && Last(s1).path == None && r !in Last(s1).runs;
    hide IsRun, Enabled, Next, Harmful, Inv, Holds, HasOpen;
    var s2, e2;
    s2, e2, p := SomebodyHolds(s1, steps + [step], q, r);
    longer, more := NewcomerHolds(s2, e2, p, r);
  }

  /** Whoever has an unlinked file open holds it, or can, or another run does. */
  lemma SomebodyHolds(states: seq<State>, steps: seq<Step>, q: string, r: string)
    returns (longer: seq<State>, more: seq<Step>, p: string)
    requires IsRun(states, steps) && Inv(Last(states)) && Last(states).path == None && r !in Last(states).runs
    requires HasOpen(Last(states), q)
    ensures IsRun(longer, more) && |steps| <= |more| && more[..|steps|] == steps
    ensures Inv(Last(longer)) && Last(longer).path == None && r !in Last(longer).runs && Holds(Last(longer), p)
  {
    longer, more, p := states, steps, q;
    var s := Last(states);
    if s.runs[q].Opened? {
      if s.runs[q].inode in s.held {
        p := s.held[s.runs[q].inode];
      } else {
        StepKeepsInv(s, Flock(q));
        longer := OneMore(states, steps, Flock(q));
        more := steps + [Flock(q)];
      }
    }
  }

  /** With no file at the path, a newcomer makes its own. */
  lemma NewcomerHolds(states: seq<State>, steps: seq<Step>, p: string, r: string)
    returns (longer: seq<State>, more: seq<Step>)
    requires IsRun(states, steps) && Inv(Last(states))
    requires Last(states).path == None && Holds(Last(states), p) && r !in Last(states).runs
    ensures IsRun(longer, more) && more == steps + [Open(r), Flock(r)]
    ensures Holds(Last(longer), p) && Holds(Last(longer), r)
  {
    var s := Last(states);
    assert s.next in s.held ==> HasOpen(s, s.held[s.next]);
    var s1 := OneMore(states, steps, Open(r));
    longer := OneMore(s1, steps + [Open(r)], Flock(r));
    more := steps + [Open(r), Flock(r)];
    assert more == steps + [Open(r)] + [Flock(r)];
  }

  /** It does happen: a run opens the file after another has unlocked and before it unlinks it. */
  lemma HarmfulUnlinkHappens() returns (states: seq<State>, steps: seq<Step>)
    ensures IsRun(states, steps)
    ensures Enabled(Last(states), Unlink("a")) && Harmful(Last(states), Unlink("a")) && "c" !in Last(states).runs
  {
    states, steps := [INITIAL], [];
    states := OneMore(states, steps, Open("a"));
    steps := steps + [Open("a")];
    states := OneMore(states, steps, Flock("a"));
    steps := steps + [Flock("a")];
    states := OneMore(states, steps, Unlock("a"));
    steps := steps + [Unlock("a")];
    states := OneMore(states, steps, Open("b"));
    steps := steps + [Open("b")];
    assert HasOpen(Last(states), "b");
  }
}
