/** The locks and the corpus fence over whole runs of the request protocol: how many workers run at once,
    which locks are never released, and what a restart does to both. */
module RequestLocks {
  import opened RequestProtocol

  // ---------------------------------------------------------------------------------------------
  // Workers of one life of the service
  // ---------------------------------------------------------------------------------------------

  predicate Live(s: State, id: string) {
    id in s.reqs && s.reqs[id].alive
  }

  /** A worker started in this life of the service holds the corpus fence. */
  lemma WorkerHoldsFence(states: seq<State>, events: seq<Event>, k: nat, a: string)
    requires IsRun(states, events) && k < |states|
    requires Live(states[k], a) && states[k].reqs[a].phase != Orphaned
    ensures states[k].fence == Mine(a)
  {
    RunKeepsInv(states, events, k);
    assert ReqInv(states[k].reqs[a]);
  }

  /** So one worker runs at a time: of two live workers one has outlived a restart. */
  lemma OneWorkerPerLife(states: seq<State>, events: seq<Event>, k: nat, a: string, b: string)
    requires IsRun(states, events) && k < |states| && a != b
    requires Live(states[k], a) && Live(states[k], b)
    ensures states[k].reqs[a].phase == Orphaned || states[k].reqs[b].phase == Orphaned
  {
    hide IsRun;
    if states[k].reqs[a].phase != Orphaned {
      WorkerHoldsFence(states, events, k, a);
      if states[k].reqs[b].phase != Orphaned {
        WorkerHoldsFence(states, events, k, b);
      }
    }
  }

  // ---------------------------------------------------------------------------------------------
  // Leaked locks
  // ---------------------------------------------------------------------------------------------

  /** The step after which nobody releases the request's locks: the handler raised between acquiring them
      and the first `try`, or leaving the fence raised while it undid the start. */
  predicate Leaks(e: Event, id: string) {
    e.On? && e.id == id && match e.action
      case EnterFails => true
      case PrepareFails => true
      case SpawnFails(exitRaises) => exitRaises
      case StartFails(exitRaises) => exitRaises
      case _ => false
  }

  ghost predicate HasLeaked(events: seq<Event>, id: string) {
    exists i :: 0 <= i < |events| && Leaks(events[i], id)
  }

  predicate Stuck(p: Phase) {
    p == Leaked || p == Orphaned
  }

  lemma LeakedIsStuck()
    ensures Stuck(Leaked)
  {
  }

  lemma LeakStep(s: State, e: Event, id: string)
    requires Enabled(s, e)
    ensures Leaks(e, id) ==> id in Next(s, e).reqs && Next(s, e).reqs[id].phase == Leaked
    ensures !Leaks(e, id) && id in Next(s, e).reqs && Next(s, e).reqs[id].phase == Leaked ==>
              id in s.reqs && s.reqs[id].phase == Leaked
    ensures id in s.reqs && Stuck(s.reqs[id].phase) ==>
              id in Next(s, e).reqs && Stuck(Next(s, e).reqs[id].phase)
  {
    if e.On? && e.id == id && !e.action.Accept? {
      LeakAct(id, s.reqs[id], e.action);
      assert Next(s, e).reqs[id] == Act(id, s.reqs[id], e.action);
      hide Act, CanAct, Next;
    }
  }

  lemma LeakAct(id: string, r: Req, a: Action)
    requires CanAct(r, a)
    ensures Leaks(On(id, a), id) ==> Act(id, r, a).phase == Leaked
    ensures !Leaks(On(id, a), id) && Act(id, r, a).phase == Leaked ==> r.phase == Leaked
    ensures Stuck(r.phase) ==> Act(id, r, a).phase == r.phase
  {
  }

  lemma {:induction false} LeakedPhase(states: seq<State>, events: seq<Event>, id: string, k: nat)
    requires IsRun(states, events) && k < |states|
    ensures HasLeaked(events[..k], id) ==> id in states[k].reqs && Stuck(states[k].reqs[id].phase)
    ensures id in states[k].reqs && states[k].reqs[id].phase == Leaked ==> HasLeaked(events[..k], id)
    decreases k
  {
    hide *;
    if k > 0 {
      LastIs(states, events);
      LeakedPhase(states, events, id, k - 1);
      RunStep(states, events, k - 1);
      LeakStep(states[k - 1], events[k - 1], id);
      LeakedIsStuck();
      LeakedOneMore(events, id, k);
    } else {
      RunStarts(states, events);
      NothingLeaked(events, id);
    }
  }

  lemma NothingLeaked(events: seq<Event>, id: string)
    ensures !HasLeaked(events[..0], id)
  {
  }

  lemma LeakedOneMore(events: seq<Event>, id: string, k: nat)
    requires 0 < k <= |events|
    ensures HasLeaked(events[..k], id) <==> HasLeaked(events[..k - 1], id) || Leaks(events[k - 1], id)
  {
    var now, before := events[..k], events[..k - 1];
    hide Leaks;
    if i :| 0 <= i < k - 1 && Leaks(before[i], id) {
      assert Leaks(now[i], id);
    }
    if Leaks(events[k - 1], id) {
      assert Leaks(now[k - 1], id);
    }
    if i :| 0 <= i < k && Leaks(now[i], id) {
      assert i < k - 1 ==> Leaks(before[i], id);
    }
  }

  /** A held lock belongs to a request that wants it; and that request is on its way to releasing it
      exactly when it took none of the leaking steps. */
  lemma HeldLockIsOnItsWayIff(states: seq<State>, events: seq<Event>, k: nat, l: string)
    requires IsRun(states, events) && k < |states| && l in states[k].locks
    ensures var id := states[k].locks[l];
            && id in states[k].reqs && l in states[k].reqs[id].wants
            && (OnItsWay(states[k].reqs[id].phase) <==> !HasLeaked(events[..k], id))
  {
    RunKeepsInv(states, events, k);
    LeakedPhase(states, events, states[k].locks[l], k);
    hide ReqInv, HandedInv, FenceSound, HasLeaked, IsRun;
  }

  // ---------------------------------------------------------------------------------------------
  // For good
  // ---------------------------------------------------------------------------------------------

  predicate Restarts(e: Event) {
    e == Restart
  }

  ghost predicate NoRestart(events: seq<Event>, k: nat, m: nat)
    requires k <= m <= |events|
  {
    forall i :: k <= i < m ==> !Restarts(events[i])
  }

  /** A leaked lock stays held, and refuses every request that wants it, for the rest of the life of the
      service. */
  lemma {:induction false} LeakIsForGood(states: seq<State>, events: seq<Event>, k: nat, m: nat, id: string, l: string)
    requires IsRun(states, events) && k <= m < |states| && NoRestart(events, k, m)
    requires id in states[k].reqs && states[k].reqs[id].phase == Leaked && l in states[k].reqs[id].wants
    ensures id in states[m].reqs && states[m].reqs[id].phase == Leaked && l in states[m].reqs[id].wants
    ensures l in states[m].locks && states[m].locks[l] == id
    ensures forall b: string, wants: set<string> :: l in wants ==> !Enabled(states[m], On(b, Accept(wants)))
    decreases m
  {
    hide *;
    if k < m {
      LastIs(states, events);
      EarlierInLife(events, k, m);
      LeakIsForGood(states, events, k, m - 1, id, l);
      RunStep(states, events, m - 1);
      StaysLeaked(states[m - 1], events[m - 1], id, l);
    }
    RunKeepsInv(states, events, m);
    LeakedHolds(states[m], id, l);
  }

  lemma EarlierInLife(events: seq<Event>, k: nat, m: nat)
    requires k < m <= |events| && NoRestart(events, k, m)
    ensures NoRestart(events, k, m - 1) && !Restarts(events[m - 1])
  {
  }

  lemma LeakedHolds(s: State, id: string, l: string)
    requires Inv(s) && id in s.reqs && s.reqs[id].phase == Leaked && l in s.reqs[id].wants
    ensures l in s.locks && s.locks[l] == id
    ensures forall b: string, wants: set<string> :: l in wants ==> !Enabled(s, On(b, Accept(wants)))
  {
    assert LocksSound(s) && Holds(s.reqs[id].phase);
    hide ReqInv, HandedInv, FenceSound, CanAct;
  }

  lemma StaysLeaked(s: State, e: Event, id: string, l: string)
    requires Enabled(s, e) && !Restarts(e)
    requires id in s.reqs && s.reqs[id].phase == Leaked && l in s.reqs[id].wants
    ensures var t := Next(s, e); id in t.reqs && t.reqs[id].phase == Leaked && l in t.reqs[id].wants
  {
  }

  /** The run goes on, within the life of the service. */
  ghost predicate GoesOn(states: seq<State>, events: seq<Event>, longer: seq<State>, more: seq<Event>) {
    && IsRun(states, events) && IsRun(longer, more)
    && |events| <= |more| && events == more[..|events|] && states == longer[..|states|]
    && NoRestart(more, |events|, |more|)
  }

  lemma GoesOnFurther(s0: seq<State>, e0: seq<Event>, s1: seq<State>, e1: seq<Event>, s2: seq<State>, e2: seq<Event>)
    requires GoesOn(s0, e0, s1, e1) && GoesOn(s1, e1, s2, e2)
    ensures GoesOn(s0, e0, s2, e2)
  {
    assert e0 == e1[..|e0|] == e2[..|e1|][..|e0|] == e2[..|e0|];
    assert s0 == s1[..|s0|] == s2[..|s1|][..|s0|] == s2[..|s0|];
    forall i | |e0| <= i < |e2| ensures !Restarts(e2[i]) {
      if i < |e1| {
        assert !Restarts(e1[i]) && e2[..|e1|][i] == e2[i];
      }
    }
  }

  /** The service can still free the lock: the run can go on, without a restart, to where nobody holds it. */
  ghost predicate CanFree(states: seq<State>, events: seq<Event>, l: string) {
    exists longer, more :: GoesOn(states, events, longer, more) && l !in Last(longer).locks
  }

  lemma FreesFurther(s0: seq<State>, e0: seq<Event>, s1: seq<State>, e1: seq<Event>, l: string)
    requires GoesOn(s0, e0, s1, e1) && CanFree(s1, e1, l)
    ensures CanFree(s0, e0, l)
  {
    var s2, e2 :| GoesOn(s1, e1, s2, e2) && l !in Last(s2).locks;
    GoesOnFurther(s0, e0, s1, e1, s2, e2);
  }

  /** One more step of one request. */
  lemma TakesStep(states: seq<State>, events: seq<Event>, id: string, a: Action)
    returns (longer: seq<State>, more: seq<Event>)
    requires IsRun(states, events) && !a.Accept? && Enabled(Last(states), On(id, a))
    ensures GoesOn(states, events, longer, more)
    ensures var s, t := Last(states), Last(longer);
            && t.reqs == s.reqs[id := Act(id, s.reqs[id], a)]
            && t.locks == LocksAfter(s.locks, s.reqs[id], t.reqs[id])
            && t.fence == FenceAfter(s.fence, id, s.reqs[id].phase, t.reqs[id].phase)
  {
    longer, more := Extended(states, events, id, a);
    hide Act, CanAct, LocksAfter, FenceAfter, IsRun;
  }

  /** How far a request is from releasing the fence. */
  function Fences(r: Req): nat {
    if !InFence(r.phase) then 0
    else if r.phase == Reaping && r.alive then 2
    else 1
  }

  function FenceSteps(s: State): nat {
    match s.fence
    case Free => 0
    case Other => 1
    case Mine(id) => if id in s.reqs then Fences(s.reqs[id]) else 0
  }

  /** The step that takes a request nearer to leaving the fence. */
  function FenceStep(r: Req): Action {
    match r.phase
    case Fenced => SpawnFails(false)
    case Reaping => if r.alive then WorkerExits else LeaveFails
    case _ => StartFails(false)
  }

  /** Whoever holds the fence can leave it, while every other request stays as it is. */
  lemma {:induction false} FenceComesFree(states: seq<State>, events: seq<Event>, id: string)
    returns (longer: seq<State>, more: seq<Event>)
    requires IsRun(states, events) && id in Last(states).reqs && !InFence(Last(states).reqs[id].phase)
    ensures GoesOn(states, events, longer, more) && Last(longer).fence == Free
    ensures id in Last(longer).reqs && Last(longer).reqs[id] == Last(states).reqs[id]
    decreases FenceSteps(Last(states))
  {
    var s := Last(states);
    RunKeepsInv(states, events, |events|);
    match s.fence {
      case Free =>
        longer, more := states, events;
      case Other =>
        OneMore(states, events, OtherLeaves);
        longer, more := states + [Next(s, OtherLeaves)], events + [OtherLeaves];
      case Mine(g) =>
        var a := FenceStep(s.reqs[g]);
        NearerToFree(s, g);
        var s1, e1 := TakesStep(states, events, g, a);
        hide IsRun, Inv;
        longer, more := FenceComesFree(s1, e1, id);
        GoesOnFurther(states, events, s1, e1, longer, more);
    }
  }

  lemma NearerToFree(s: State, g: string)
    requires s.fence == Mine(g) && g in s.reqs && InFence(s.reqs[g].phase)
    ensures var r := s.reqs[g];
            && !FenceStep(r).Accept? && Enabled(s, On(g, FenceStep(r)))
            && var after := Act(g, r, FenceStep(r));
            && Fences(after) < Fences(r)
            && FenceAfter(s.fence, g, r.phase, after.phase) == (if InFence(after.phase) then s.fence else Free)
  {
  }

  /** How far a request that has not leaked is from releasing its locks. */
  function LockSteps(r: Req): nat {
    match r.phase
    case Locked => 9
    case Reaping => if r.alive then 8 else 7
    case Unfenced => 6
    case Finalized => 5
    case _ => 1
  }

  function LockStep(r: Req): Action {
    match r.phase
    case Locked => EnterFence
    case Unfenced => FinalizeFails
    case Finalized => ProjectFails
    case Projecting => Release
    case _ => FenceStep(r)
  }

  lemma NearerToRelease(s: State, id: string)
    requires id in s.reqs && OnItsWay(s.reqs[id].phase) && (s.reqs[id].phase == Locked ==> s.fence == Free)
    requires ReqInv(s.reqs[id])
    ensures var r := s.reqs[id];
            && !LockStep(r).Accept? && Enabled(s, On(id, LockStep(r)))
            && var after := Act(id, r, LockStep(r));
            && after.wants == r.wants
            && (Holds(after.phase) ==> OnItsWay(after.phase) && LockSteps(after) < LockSteps(r))
  {
  }

  /** A request that has not leaked can release its locks. */
  lemma {:induction false} WayOut(states: seq<State>, events: seq<Event>, id: string, l: string)
    requires IsRun(states, events) && id in Last(states).reqs
    requires OnItsWay(Last(states).reqs[id].phase) && l in Last(states).reqs[id].wants
    ensures CanFree(states, events, l)
    decreases LockSteps(Last(states).reqs[id])
  {
    var s1, e1 := states, events;
    assert events == events[..|events|] && states == states[..|states|];
    if Last(states).reqs[id].phase == Locked {
      s1, e1 := FenceComesFree(states, events, id);
    }
    RunKeepsInv(s1, e1, |e1|);
    HolderHas(Last(s1), id, l);
    hide *;
    NearerToRelease(Last(s1), id);
    var s2, e2 := TakesStep(s1, e1, id, LockStep(Last(s1).reqs[id]));
    GoesOnFurther(states, events, s1, e1, s2, e2);
    if Holds(Last(s2).reqs[id].phase) {
      WayOut(s2, e2, id, l);
      FreesFurther(states, events, s2, e2, l);
    } else {
      StepFrees(Last(s1), Last(s2), id, l);
      FreedHere(states, events, s2, e2, l);
    }
  }

  lemma HolderHas(s: State, id: string, l: string)
    requires Inv(s) && id in s.reqs && Holds(s.reqs[id].phase) && l in s.reqs[id].wants
    ensures ReqInv(s.reqs[id]) && l in s.locks && s.locks[l] == id
  {
  }

  lemma StepFrees(s: State, t: State, id: string, l: string)
    requires id in s.reqs && id in t.reqs && t.locks == LocksAfter(s.locks, s.reqs[id], t.reqs[id])
    requires OnItsWay(s.reqs[id].phase) && !Holds(t.reqs[id].phase) && l in t.reqs[id].wants
    ensures l !in t.locks
  {
    assert Holds(s.reqs[id].phase);
  }

  lemma FreedHere(states: seq<State>, events: seq<Event>, longer: seq<State>, more: seq<Event>, l: string)
    requires GoesOn(states, events, longer, more) && l !in Last(longer).locks
    ensures CanFree(states, events, l)
  {
  }

  /** In every run a held lock can still be freed without a restart exactly when its holder took none of
      the leaking steps. */
  lemma CanFreeIff(states: seq<State>, events: seq<Event>, l: string)
    requires IsRun(states, events) && l in Last(states).locks
    ensures CanFree(states, events, l) <==> !HasLeaked(events, Last(states).locks[l])
  {
    var id := Last(states).locks[l];
    var n := |events|;
    HeldLockIsOnItsWayIff(states, events, n, l);
    RunKeepsInv(states, events, n);
    assert events[..n] == events;
    assert Holds(Last(states).reqs[id].phase);
    hide IsRun, Inv, HasLeaked;
    if OnItsWay(Last(states).reqs[id].phase) {
      WayOut(states, events, id, l);
    } else {
      forall longer, more | GoesOn(states, events, longer, more) ensures l in Last(longer).locks {
        LeakedStays(states, events, longer, more, id, l);
      }
    }
  }

  lemma LeakedStays(states: seq<State>, events: seq<Event>, longer: seq<State>, more: seq<Event>, id: string, l: string)
    requires GoesOn(states, events, longer, more)
    requires id in Last(states).reqs && Last(states).reqs[id].phase == Leaked && l in Last(states).reqs[id].wants
    ensures l in Last(longer).locks
  {
    assert |longer| == |more| + 1 && |states| == |events| + 1;
    assert longer[|events|] == longer[..|states|][|events|] == Last(states);
    LeakIsForGood(longer, more, |events|, |more|, id, l);
  }

  /** It does happen: while the worker of one request holds the corpus fence, a second request that wants
      other locks times out on the fence, and leaves its lock held. */
  lemma LeakHappens() returns (states: seq<State>, events: seq<Event>)
    ensures IsRun(states, events)
    ensures Live(Last(states), "a") && Last(states).fence == Mine("a") && Last(states).reqs["a"].wants == {"k"}
    ensures "l" in Last(states).locks && Last(states).locks["l"] == "b" && HasLeaked(events, "b")
    ensures !CanFree(states, events, "l")
  {
    hide IsRun, Next, GoesOn, CanFree, HasLeaked;
    states, events := Started("a", {"k"});
    states, events := Extended(states, events, "a", EnterFence);
    states, events := Extended(states, events, "a", Spawn(1));
    states, events := AcceptsMore(states, events, "b", {"l"});
    states, events := Extended(states, events, "b", EnterFails);
    EndsLeaking(events, "b");
    CanFreeIff(states, events, "l");
  }

  lemma EndsLeaking(events: seq<Event>, id: string)
    requires events != [] && Leaks(events[|events| - 1], id)
    ensures HasLeaked(events, id)
  {
  }

  lemma AcceptsMore(states: seq<State>, events: seq<Event>, id: string, wants: set<string>)
    returns (longer: seq<State>, more: seq<Event>)
    requires IsRun(states, events) && Enabled(Last(states), On(id, Accept(wants)))
    ensures IsRun(longer, more) && more == events + [On(id, Accept(wants))]
    ensures |longer| == |states| + 1 && longer[..|states|] == states
    ensures var s := Last(states);
            Last(longer) == s.(reqs := s.reqs[id := Accepted(wants)], locks := Grant(s.locks, wants, id))
  {
    var e := On(id, Accept(wants));
    OneMore(states, events, e);
    hide IsRun;
    longer, more := states + [Next(Last(states), e)], events + [e];
  }

  // ---------------------------------------------------------------------------------------------
  // After a restart
  // ---------------------------------------------------------------------------------------------

  /** The steps by which a second worker comes to share the lock of one that outlives a restart. */
  function Sharing(s: State, b: string, l: string, pid: int): seq<Event> {
    (if s.fence == Other then [OtherLeaves] else [])
    + [Restart, On(b, Accept({l})), On(b, EnterFence), On(b, Spawn(pid))]
  }

  /** A worker that outlives a restart keeps running without its locks and without the fence. Every run that
      reaches a live worker goes on to a second one that shares a lock it wants. */
  lemma OrphanSharesItsLock(states: seq<State>, events: seq<Event>, a: string, b: string, l: string, pid: int)
    returns (longer: seq<State>)
    requires IsRun(states, events) && Live(Last(states), a) && b !in Last(states).reqs
    requires l in Last(states).reqs[a].wants && pid > 0
    ensures IsRun(longer, events + Sharing(Last(states), b, l, pid)) && longer[..|states|] == states
    ensures var s := Last(longer);
            && Live(s, a) && Live(s, b) && s.reqs[a].pid == Last(states).reqs[a].pid && s.reqs[b].pid == pid
            && l in s.reqs[a].wants && l in s.reqs[b].wants
  {
    var s1, e1 := Restarted(states, events, a);
    hide IsRun, Sharing, Grant;
    OrphanKeeps(Last(states).reqs[a]);
    hide Orphan;
    var s2, e2 := AcceptsMore(s1, e1, b, {l});
    longer := ThenStarts(s2, e2, a, b, pid);
    SharingIs(Last(states), events, e1, b, l, pid);
    assert longer[..|states|] == longer[..|s2|][..|states|] == s2[..|s1|][..|states|] == s1[..|states|];
  }
  lemma Restarted(states: seq<State>, events: seq<Event>, a: string) returns (longer: seq<State>, more: seq<Event>)
    requires IsRun(states, events) && Live(Last(states), a)
    ensures IsRun(longer, more) && |states| <= |longer| && longer[..|states|] == states
    ensures more == events + (if Last(states).fence == Other then [OtherLeaves] else []) + [Restart]
    ensures var s, t := Last(states), Last(longer);
            && t.reqs.Keys == s.reqs.Keys && t.reqs[a] == Orphan(s.reqs[a]) && t.locks == map[] && t.fence == Free
  {
    longer, more := states, events;
    LastIs(states, events);
    hide IsRun, Orphan;
    if Last(states).fence == Other {
      OneMore(states, events, OtherLeaves);
      longer, more := states + [Next(Last(states), OtherLeaves)], events + [OtherLeaves];
    }
    var s := Last(longer);
    assert s.reqs == Last(states).reqs && s.fence != Other;
    OneMore(longer, more, Restart);
    longer, more := longer + [Next(s, Restart)], more + [Restart];
  }

  lemma ThenStarts(states: seq<State>, events: seq<Event>, a: string, b: string, pid: int) returns (longer: seq<State>)
    requires IsRun(states, events) && a != b && a in Last(states).reqs && pid > 0
    requires b in Last(states).reqs && Last(states).reqs[b].phase == Locked && Last(states).fence == Free
    ensures IsRun(longer, events + [On(b, EnterFence), On(b, Spawn(pid))])
    ensures |states| <= |longer| && longer[..|states|] == states
    ensures var s, t := Last(states), Last(longer);
            && a in t.reqs && t.reqs[a] == s.reqs[a]
            && b in t.reqs && t.reqs[b] == s.reqs[b].(phase := Spawned, pid := pid, alive := true)
  {
    hide IsRun, LocksAfter, FenceAfter;
    var s1, e1 := Extended(states, events, b, EnterFence);
    var s2, e2 := Extended(s1, e1, b, Spawn(pid));
    longer := s2;
    assert e2 == events + [On(b, EnterFence), On(b, Spawn(pid))];
    assert s2[..|states|] == s2[..|s1|][..|states|] == s1[..|states|];
  }

  lemma SharingIs(s: State, events: seq<Event>, restarted: seq<Event>, b: string, l: string, pid: int)
    requires restarted == events + (if s.fence == Other then [OtherLeaves] else []) + [Restart]
    ensures restarted + [On(b, Accept({l}))] + [On(b, EnterFence), On(b, Spawn(pid))] == events + Sharing(s, b, l, pid)
  {
  }

  lemma OrphanKeeps(r: Req)
    ensures Orphan(r).wants == r.wants && Orphan(r).alive == r.alive && Orphan(r).pid == r.pid
  {
  }

  /** There is such a run. */
  lemma SharedLockHappens() returns (states: seq<State>, events: seq<Event>)
    ensures IsRun(states, events)
    ensures var s := Last(states);
            && Live(s, "a") && Live(s, "b") && s.reqs["a"].pid != s.reqs["b"].pid
            && "l" in s.reqs["a"].wants && "l" in s.reqs["b"].wants
  {
    hide IsRun, Next;
    states, events := Started("a", {"l"});
    states, events := Extended(states, events, "a", EnterFence);
    states, events := Extended(states, events, "a", Spawn(1));
    var longer := OrphanSharesItsLock(states, events, "a", "b", "l", 2);
    states, events := longer, events + Sharing(Last(states), "b", "l", 2);
  }
}
