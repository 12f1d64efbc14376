/** The life of operation requests as a protocol: the request handler, the reaper thread, client reads,
    the corpus fence and service restarts of `okengine-operations/app.py`, interleaved step by step. Reads
    and writes of one file, one `refresh`, and taking or releasing a lock set are single steps (`ReadRaces`
    and `LockFiles` split the last two); pids are not reused. */
module RequestProtocol {
  import opened OperationRequests

  /** How far the handler, then the reaper, has come with a request. `Leaked`: the handler raised and is
      gone, and nobody released the locks. `Orphaned`: the service restarted under it. */
  datatype Phase =
    | Locked | Fenced | Spawned | Receipted | Recorded | Registered
    | Reaping | Unfenced | Finalized | Projecting | Released | Done
    | Aborted | Leaked | Orphaned

  datatype Req = Req(
    wants: set<string>,       // the declared locks
    phase: Phase,
    pid: int,
    alive: bool,              // the worker process
    registered: bool,         // in _PROCESSES
    record: Document,         // the request file; Corrupt stands for not yet written
    receipt: Receipt,
    handedOver: bool)         // the reaper has written the terminal projection

  /** Who holds the exclusive corpus fence: nobody, a writer outside the service, or a request. */
  datatype Fence = Free | Other | Mine(id: string)

  datatype State = State(reqs: map<string, Req>, locks: map<string, string>, fence: Fence)

  const INITIAL := State(map[], map[], Free)

  /** The steps of a request. `EnterFails`: the fence times out, or cannot be entered; `PrepareFails`: the
      logs cannot be opened; `exitRaises`: undoing the start, leaving the fence raises as well. */
  datatype Action =
    | Accept(wants: set<string>) | EnterFence | EnterFails | PrepareFails
    | Spawn(pid: int) | SpawnFails(exitRaises: bool)
    | WriteReceipt | WriteRecord | Register | StartReaper | StartFails(exitRaises: bool)
    | WorkerExits
    | LeaveFence | LeaveFails | Finalize(status: string, now: string) | FinalizeFails
    | Project(now: string) | ProjectFails | Release | Unregister
    | ClientRefresh(now: string)

  datatype Event = On(id: string, action: Action) | OtherEnters | OtherLeaves | Restart

  /** The phases in which the service holds the request's locks. */
  predicate Holds(p: Phase) {
    OnItsWay(p) || p == Leaked
  }

  /** The handler or the reaper is on its way to releasing them. */
  predicate OnItsWay(p: Phase) {
    InFence(p) || p in {Locked, Unfenced, Finalized, Projecting}
  }

  /** The phases in which the request holds the corpus fence. */
  predicate InFence(p: Phase) {
    p in {Fenced, Spawned, Receipted, Recorded, Registered, Reaping}
  }

  predicate InProcesses(p: Phase) {
    p in {Registered, Reaping, Unfenced, Finalized, Projecting, Released}
  }

  function Workers(r: Req): set<int> {
    if r.alive then {r.pid} else {}
  }

  predicate CanAct(r: Req, a: Action) {
    match a
    case Accept(_) => false
    case EnterFence => r.phase == Locked
    case EnterFails => r.phase == Locked
    case PrepareFails => r.phase == Fenced
    case Spawn(pid) => r.phase == Fenced && pid > 0
    case SpawnFails(_) => r.phase == Fenced
    case WriteReceipt => r.phase == Spawned
    case WriteRecord => r.phase == Receipted
    case Register => r.phase == Recorded
    case StartReaper => r.phase == Registered
    case StartFails(_) => r.phase in {Spawned, Receipted, Recorded, Registered}
    case WorkerExits => r.alive
    case LeaveFence => r.phase == Reaping && !r.alive
    case LeaveFails => r.phase == Reaping && !r.alive
    case Finalize(status, _) => r.phase == Unfenced && status in {"succeeded", "degraded", "failed"}
    case FinalizeFails => r.phase == Unfenced
    case Project(_) => r.phase == Finalized && r.record.Stored?
    case ProjectFails => r.phase == Finalized
    case Release => r.phase == Projecting
    case Unregister => r.phase == Released
    case ClientRefresh(_) => r.record.Stored?
  }

  /** `refresh` on a stored record; the handler only stores integer pids, so it never raises. */
  function Refreshed(r: Req, now: string): Req {
    if r.record.Corrupt? then r
    else match Refresh(r.record.record, r.receipt, r.registered, Workers(r), now)
      case Raised => r
      case Refreshed(after) => r.(record := Stored(after))
  }

  function Act(id: string, r: Req, a: Action): Req
    requires CanAct(r, a)
  {
    match a
    case EnterFence => r.(phase := Fenced)
    case EnterFails => r.(phase := Leaked)
    case PrepareFails => r.(phase := Leaked)
    case SpawnFails(exitRaises) => r.(phase := if exitRaises then Leaked else Aborted)
    case Spawn(pid) => r.(phase := Spawned, pid := pid, alive := true)
    case WriteReceipt => r.(phase := Receipted, receipt := Receipt("running", ""))
    case WriteRecord => r.(phase := Recorded, record := Stored(Record(id, id, "running", Pid(r.pid), "")))
    case Register => r.(phase := Registered, registered := true)
    case StartReaper => r.(phase := Reaping)
    case StartFails(exitRaises) =>
      r.(phase := if exitRaises then Leaked else Aborted, registered := false, alive := false)
    case WorkerExits => r.(alive := false)
    case LeaveFence => r.(phase := Unfenced)
    case LeaveFails => r.(phase := Projecting)
    case Finalize(status, now) => r.(phase := Finalized, receipt := Receipt(status, now))
    case FinalizeFails => r.(phase := Projecting)
    case Project(now) => Refreshed(r, now).(phase := Projecting, handedOver := true)
    case ProjectFails => r.(phase := Projecting)
    case Release => r.(phase := Released)
    case Unregister => r.(phase := Done, registered := false)
    case ClientRefresh(now) => Refreshed(r, now)
  }

  function Orphan(r: Req): Req {
    r.(registered := false, phase := if r.phase in {Done, Aborted} then r.phase else Orphaned)
  }

  predicate Enabled(s: State, e: Event) {
    match e
    case Restart => true
    case OtherEnters => s.fence == Free
    case OtherLeaves => s.fence == Other
    case On(id, Accept(wants)) => id !in s.reqs && wants !! s.locks.Keys
    case On(id, a) => id in s.reqs && CanAct(s.reqs[id], a) && (a.EnterFence? ==> s.fence == Free)
  }

  function Grant(locks: map<string, string>, wants: set<string>, id: string): map<string, string> {
    locks + map l | l in wants :: id
  }

  function LocksAfter(locks: map<string, string>, before: Req, after: Req): map<string, string> {
    if Holds(before.phase) && !Holds(after.phase) then locks - after.wants else locks
  }

  /** Leaving the fence releases it, even where leaving raises; so does dropping it unopened. */
  function FenceAfter(fence: Fence, id: string, before: Phase, after: Phase): Fence {
    if InFence(before) && !InFence(after) then Free
    else if !InFence(before) && InFence(after) then Mine(id)
    else fence
  }

  function Next(s: State, e: Event): State
    requires Enabled(s, e)
  {
    match e
    case Restart => State(map id | id in s.reqs :: Orphan(s.reqs[id]), map[], if s.fence == Other then Other else Free)
    case OtherEnters => s.(fence := Other)
    case OtherLeaves => s.(fence := Free)
    case On(id, Accept(wants)) => s.(reqs := s.reqs[id := Accepted(wants)], locks := Grant(s.locks, wants, id))
    case On(id, a) =>
      var before, after := s.reqs[id], Act(id, s.reqs[id], a);
      State(s.reqs[id := after], LocksAfter(s.locks, before, after), FenceAfter(s.fence, id, before.phase, after.phase))
  }

  function Accepted(wants: set<string>): Req {
    Req(wants, Locked, 0, false, false, Corrupt, NoReceipt, false)
  }

  ghost predicate IsRun(states: seq<State>, events: seq<Event>) {
    && |states| == |events| + 1
    && states[0] == INITIAL
    && forall i :: 0 <= i < |events| ==> Enabled(states[i], events[i]) && states[i + 1] == Next(states[i], events[i])
  }

  function Last(states: seq<State>): State
    requires states != []
  {
    states[|states| - 1]
  }

  lemma LastIs(states: seq<State>, events: seq<Event>)
    requires IsRun(states, events)
    ensures |states| == |events| + 1
  {
  }

  lemma RunStarts(states: seq<State>, events: seq<Event>)
    requires IsRun(states, events)
    ensures states[0].reqs == map[]
  {
  }

  lemma RunStep(states: seq<State>, events: seq<Event>, k: nat)
    requires IsRun(states, events) && k < |events|
    ensures |states| == |events| + 1
    ensures Enabled(states[k], events[k]) && states[k + 1] == Next(states[k], events[k])
  {
  }

  // ---------------------------------------------------------------------------------------------
  // The invariant of one request
  // ---------------------------------------------------------------------------------------------

  predicate Terminal(receipt: Receipt) {
    receipt.Receipt? && receipt.status in TERMINAL
  }

  /** The record can only be `running`, `failed` by the crash rule with its worker gone, or what the
      terminal receipt says. */
  predicate RecordSound(r: Req) {
    r.record.Stored? ==>
      var rec := r.record.record;
      && rec.pid == Pid(r.pid) && r.pid > 0
      && (rec.status == "running"
          || (rec.status == "failed" && !r.alive)
          || (Terminal(r.receipt) && rec.status == r.receipt.status))
  }

  predicate ReqInv(r: Req) {
    && RecordSound(r)
    && (r.registered <==> InProcesses(r.phase))
    && (r.receipt.NoReceipt?
        || (r.receipt.Receipt? && r.receipt.status in {"running", "succeeded", "degraded", "failed"}))
    && (r.record.Stored? ==> r.receipt.Receipt?)
    && (InFence(r.phase) || r.phase in {Locked, Unfenced} ==> !Terminal(r.receipt))
    && (r.alive ==> r.phase == Orphaned || (InFence(r.phase) && r.phase != Fenced))
    && (r.phase in {Locked, Fenced, Spawned, Receipted} ==> r.record.Corrupt?)
    && (r.phase in {Receipted, Recorded, Registered, Reaping, Unfenced} ==> r.receipt == Receipt("running", ""))
    && (r.phase == Recorded || r.phase == Done || InProcesses(r.phase) ==> r.record.Stored?)
    && (r.phase == Finalized ==> Terminal(r.receipt))
    && (r.alive || r.phase in {Spawned, Receipted} ==> r.pid > 0)
  }

  /** The record the reaper handed over. */
  predicate HandedInv(r: Req) {
    r.handedOver ==> r.phase in {Projecting, Released, Done, Orphaned} && Terminal(r.receipt) && SaysTheReceipt(r)
  }

  predicate SaysTheReceipt(r: Req) {
    r.record.Stored? && r.receipt.Receipt? && r.record.record.status == r.receipt.status
  }

  lemma ActKeepsReqInv(id: string, r: Req, a: Action)
    requires ReqInv(r) && CanAct(r, a)
    ensures ReqInv(Act(id, r, a))
  {
  }

  lemma ActKeepsHandedInv(id: string, r: Req, a: Action)
    requires ReqInv(r) && HandedInv(r) && CanAct(r, a)
    ensures HandedInv(Act(id, r, a))
  {
  }

  // ---------------------------------------------------------------------------------------------
  // Locks and the fence
  // ---------------------------------------------------------------------------------------------

  ghost predicate LocksSound(s: State) {
    && (forall l :: l in s.locks ==>
        s.locks[l] in s.reqs && Holds(s.reqs[s.locks[l]].phase) && l in s.reqs[s.locks[l]].wants)
    && (forall id, l :: id in s.reqs && Holds(s.reqs[id].phase) && l in s.reqs[id].wants ==>
        l in s.locks && s.locks[l] == id)
  }

  ghost predicate FenceSound(s: State) {
    && (s.fence.Mine? ==> s.fence.id in s.reqs && InFence(s.reqs[s.fence.id].phase))
    && (forall id :: id in s.reqs && InFence(s.reqs[id].phase) ==> s.fence == Mine(id))
  }

  ghost predicate Inv(s: State) {
    && (forall id :: id in s.reqs ==> ReqInv(s.reqs[id]) && HandedInv(s.reqs[id]))
    && LocksSound(s)
    && FenceSound(s)
  }

  lemma AcceptKeepsLocks(s: State, id: string, wants: set<string>)
    requires LocksSound(s) && Enabled(s, On(id, Accept(wants)))
    ensures LocksSound(Next(s, On(id, Accept(wants))))
  {
  }

  lemma ActKeepsLocks(s: State, id: string, a: Action)
    requires LocksSound(s) && !a.Accept? && Enabled(s, On(id, a))
    ensures LocksSound(Next(s, On(id, a)))
  {
    var r, after, t := s.reqs[id], Act(id, s.reqs[id], a), Next(s, On(id, a));
    ActOnLocks(id, r, a);
    assert t.reqs == s.reqs[id := after] && t.locks == LocksAfter(s.locks, r, after);
    hide Act, CanAct, Enabled, Next, Holds;
    forall l | l in t.locks
      ensures t.locks[l] in t.reqs && Holds(t.reqs[t.locks[l]].phase) && l in t.reqs[t.locks[l]].wants
    {
      assert l in s.locks && t.locks[l] == s.locks[l];
    }
    forall x, l | x in t.reqs && Holds(t.reqs[x].phase) && l in t.reqs[x].wants
      ensures l in t.locks && t.locks[l] == x
    {
      assert Holds(s.reqs[x].phase) && l in s.reqs[x].wants && s.locks[l] == x;
      assert x != id ==> !Holds(r.phase) || l !in r.wants;
    }
  }

  /** An action never changes what a request wants, and never takes a lock back. */
  lemma ActOnLocks(id: string, r: Req, a: Action)
    requires CanAct(r, a)
    ensures Act(id, r, a).wants == r.wants
    ensures Holds(Act(id, r, a).phase) ==> Holds(r.phase)
  {
  }

  lemma ActKeepsFence(s: State, id: string, a: Action)
    requires FenceSound(s) && !a.Accept? && Enabled(s, On(id, a))
    ensures FenceSound(Next(s, On(id, a)))
  {
    var r, after, t := s.reqs[id], Act(id, s.reqs[id], a), Next(s, On(id, a));
    assert t.reqs == s.reqs[id := after] && t.fence == FenceAfter(s.fence, id, r.phase, after.phase);
    assert !InFence(r.phase) && InFence(after.phase) ==> s.fence == Free;
    hide Act, CanAct, Enabled, Next, InFence;
    forall x | x in t.reqs && InFence(t.reqs[x].phase) ensures t.fence == Mine(x) {
      assert x != id ==> s.fence == Mine(x);
    }
  }

  lemma AcceptKeepsFence(s: State, id: string, wants: set<string>)
    requires FenceSound(s) && Enabled(s, On(id, Accept(wants)))
    ensures FenceSound(Next(s, On(id, Accept(wants))))
  {
  }

  lemma RestartKeeps(s: State)
    requires Inv(s)
    ensures Inv(Next(s, Restart))
  {
    RestartKeepsReqs(s);
    RestartKeepsNothing(s);
    hide LocksSound, FenceSound, ReqInv, HandedInv, Next;
  }

  lemma RestartKeepsReqs(s: State)
    requires forall id :: id in s.reqs ==> ReqInv(s.reqs[id]) && HandedInv(s.reqs[id])
    ensures var t := Next(s, Restart); forall id :: id in t.reqs ==> ReqInv(t.reqs[id]) && HandedInv(t.reqs[id])
  {
    hide ReqInv, HandedInv, Orphan;
    forall id | id in s.reqs ensures ReqInv(Orphan(s.reqs[id])) && HandedInv(Orphan(s.reqs[id])) {
      OrphanKeepsReqInv(s.reqs[id]);
    }
  }

  /** No lock, no place in the fence. */
  lemma RestartKeepsNothing(s: State)
    ensures LocksSound(Next(s, Restart)) && FenceSound(Next(s, Restart))
  {
    var t := Next(s, Restart);
    forall id | id in t.reqs ensures !Holds(t.reqs[id].phase) && !InFence(t.reqs[id].phase) {
      OrphanHoldsNothing(s.reqs[id]);
    }
    hide Orphan, Holds, InFence, OnItsWay;
  }

  lemma OrphanHoldsNothing(r: Req)
    ensures !Holds(Orphan(r).phase) && !InFence(Orphan(r).phase)
  {
  }

  lemma OrphanKeepsReqInv(r: Req)
    requires ReqInv(r)
    ensures ReqInv(Orphan(r)) && (HandedInv(r) ==> HandedInv(Orphan(r)))
  {
  }

  lemma AcceptKeepsInv(s: State, id: string, wants: set<string>)
    requires Inv(s) && Enabled(s, On(id, Accept(wants)))
    ensures Inv(Next(s, On(id, Accept(wants))))
  {
    AcceptKeepsLocks(s, id, wants);
    AcceptKeepsFence(s, id, wants);
    assert ReqInv(Accepted(wants)) && HandedInv(Accepted(wants));
    assert Next(s, On(id, Accept(wants))).reqs == s.reqs[id := Accepted(wants)];
    hide LocksSound, FenceSound, ReqInv, HandedInv, Accepted, Grant, Next, Enabled;
  }

  lemma ActKeepsInv(s: State, id: string, a: Action)
    requires Inv(s) && !a.Accept? && Enabled(s, On(id, a))
    ensures Inv(Next(s, On(id, a)))
  {
    ActKeepsLocks(s, id, a);
    ActKeepsFence(s, id, a);
    ActKeepsReqInv(id, s.reqs[id], a);
    ActKeepsHandedInv(id, s.reqs[id], a);
    hide LocksSound, FenceSound, ReqInv, HandedInv, Act, CanAct, LocksAfter, FenceAfter;
  }

  lemma StepKeepsInv(s: State, e: Event)
    requires Inv(s) && Enabled(s, e)
    ensures Inv(Next(s, e))
  {
    match e
    case Restart => RestartKeeps(s);
    case On(id, a) =>
      hide Inv, Next, Enabled;
      if a.Accept? {
        AcceptKeepsInv(s, id, a.wants);
      } else {
        ActKeepsInv(s, id, a);
      }
    case _ => hide ReqInv, HandedInv;
  }

  lemma {:induction false} RunKeepsInv(states: seq<State>, events: seq<Event>, k: nat)
    requires IsRun(states, events) && k < |states|
    ensures Inv(states[k])
    decreases k
  {
    if k > 0 {
      hide Inv, Next, Enabled, IsRun;
      LastIs(states, events);
      RunKeepsInv(states, events, k - 1);
      RunStep(states, events, k - 1);
      StepKeepsInv(states[k - 1], events[k - 1]);
    } else {
      hide Next, Enabled;
    }
  }

  // ---------------------------------------------------------------------------------------------
  // What every run guarantees
  // ---------------------------------------------------------------------------------------------

  predicate Reads(e: Event, id: string) {
    e.On? && e.id == id && e.action.ClientRefresh?
  }

  /** A client reads a request that is on disk but not yet registered, and whose worker is already gone. */
  predicate EarlyRead(s: State, e: Event, id: string) {
    Reads(e, id) && id in s.reqs && s.reqs[id].phase == Recorded && !s.reqs[id].alive
  }

  ghost predicate NoEarlyRead(states: seq<State>, events: seq<Event>, id: string, n: nat)
    requires |states| == |events| + 1 && n <= |events|
  {
    forall i :: 0 <= i < n ==> !EarlyRead(states[i], events[i], id)
  }

  lemma EarlierReads(states: seq<State>, events: seq<Event>, id: string, n: nat)
    requires |states| == |events| + 1 && 0 < n <= |events| && NoEarlyRead(states, events, id, n)
    ensures NoEarlyRead(states, events, id, n - 1) && !EarlyRead(states[n - 1], events[n - 1], id)
  {
  }

  lemma ReqInvOf(s: State, id: string)
    requires Inv(s) && id in s.reqs
    ensures ReqInv(s.reqs[id]) && HandedInv(s.reqs[id])
  {
  }

  /** The record says the request has ended. */
  predicate Ended(r: Req) {
    r.record.Stored? && r.record.record.status in TERMINAL
  }

  /** Nobody is left who could finish the request. */
  predicate Abandoned(r: Req) {
    r.phase in {Done, Aborted, Leaked, Orphaned} && !r.alive
  }

  /** What an ending rests on: a terminal receipt, or nobody being left to write one. */
  predicate EndingInv(r: Req) {
    Ended(r) ==> if Terminal(r.receipt) then SaysTheReceipt(r) else Abandoned(r)
  }

  lemma ActKeepsEndingInv(id: string, r: Req, a: Action)
    requires ReqInv(r) && EndingInv(r) && CanAct(r, a)
    requires !(a.ClientRefresh? && r.phase == Recorded && !r.alive)
    ensures EndingInv(Act(id, r, a))
    ensures Ended(r) ==> Ended(Act(id, r, a)) && Act(id, r, a).record.record.status == r.record.record.status
  {
  }

  lemma EndingStep(s: State, e: Event, id: string)
    requires Enabled(s, e) && id in s.reqs && ReqInv(s.reqs[id]) && EndingInv(s.reqs[id]) && !EarlyRead(s, e, id)
    ensures id in Next(s, e).reqs && EndingInv(Next(s, e).reqs[id])
    ensures Ended(s.reqs[id]) ==>
              Ended(Next(s, e).reqs[id]) && Next(s, e).reqs[id].record.record.status == s.reqs[id].record.record.status
  {
    if e.On? && e.id == id && !e.action.Accept? {
      ActKeepsEndingInv(id, s.reqs[id], e.action);
    }
  }

  lemma {:induction false} RunKeepsEndingInv(states: seq<State>, events: seq<Event>, k: nat, id: string)
    requires IsRun(states, events) && k < |states| && NoEarlyRead(states, events, id, k)
    ensures id in states[k].reqs ==> EndingInv(states[k].reqs[id])
    decreases k
  {
    hide *;
    if k > 0 {
      LastIs(states, events);
      EarlierReads(states, events, id, k);
      RunKeepsEndingInv(states, events, k - 1, id);
      RunKeepsInv(states, events, k - 1);
      RunStep(states, events, k - 1);
      if id in states[k - 1].reqs {
        ReqInvOf(states[k - 1], id);
        EndingStep(states[k - 1], events[k - 1], id);
      } else {
        AcceptedIsUnread(states[k - 1], events[k - 1], id);
      }
    } else {
      RunStarts(states, events);
    }
  }

  lemma AcceptedIsUnread(s: State, e: Event, id: string)
    requires Enabled(s, e) && id !in s.reqs
    ensures id in Next(s, e).reqs ==> EndingInv(Next(s, e).reqs[id])
  {
  }

  /** Whatever a request is shown to end with, at any point of any run, is what its receipt says; or it is
      `failed`, and its worker is gone. Unless it was read before it was registered, nobody is then left
      who could finish it: in particular no reaper is registered. */
  lemma EndingsAreFounded(states: seq<State>, events: seq<Event>, k: nat, id: string)
    requires IsRun(states, events) && k < |states| && id in states[k].reqs && Ended(states[k].reqs[id])
    ensures var r := states[k].reqs[id];
            || (Terminal(r.receipt) && SaysTheReceipt(r))
            || (r.record.record.status == "failed" && !r.alive
                && (NoEarlyRead(states, events, id, k) ==> Abandoned(r) && !r.registered && !Terminal(r.receipt)))
  {
    RunKeepsInv(states, events, k);
    assert ReqInv(states[k].reqs[id]);
    if NoEarlyRead(states, events, id, k) {
      RunKeepsEndingInv(states, events, k, id);
    }
  }

  /** An ending is for good: in a run where the request is not read before it is registered, once it has
      been shown to end it is shown to end the same way ever after, through reads, races and restarts. */
  lemma {:induction false} EndingIsForGood(states: seq<State>, events: seq<Event>, k: nat, l: nat, id: string)
    requires IsRun(states, events) && k <= l < |states| && NoEarlyRead(states, events, id, l)
    requires id in states[k].reqs && Ended(states[k].reqs[id])
    ensures id in states[l].reqs && Ended(states[l].reqs[id])
    ensures states[l].reqs[id].record.record.status == states[k].reqs[id].record.record.status
    decreases l
  {
    hide *;
    if k < l {
      LastIs(states, events);
      EarlierReads(states, events, id, l);
      EndingIsForGood(states, events, k, l - 1, id);
      RunKeepsEndingInv(states, events, l - 1, id);
      RunKeepsInv(states, events, l - 1);
      RunStep(states, events, l - 1);
      ReqInvOf(states[l - 1], id);
      EndingStep(states[l - 1], events[l - 1], id);
    }
  }

  /** A client learns the id of a request only once it is registered: such a client never sees an ending
      taken back. */
  lemma KnownIdsEndForGood(states: seq<State>, events: seq<Event>, k: nat, l: nat, id: string)
    requires IsRun(states, events) && k <= l < |states| && id in states[k].reqs && Ended(states[k].reqs[id])
    requires forall i :: 0 <= i < l && Reads(events[i], id) && id in states[i].reqs ==>
              states[i].reqs[id].phase != Recorded
    ensures id in states[l].reqs && Ended(states[l].reqs[id])
    ensures states[l].reqs[id].record.record.status == states[k].reqs[id].record.record.status
  {
    EndingIsForGood(states, events, k, l, id);
  }

  /** A run with one more step. */
  lemma OneMore(states: seq<State>, events: seq<Event>, e: Event)
    requires IsRun(states, events) && Enabled(states[|events|], e)
    ensures IsRun(states + [Next(states[|events|], e)], events + [e])
  {
    hide Enabled, Next;
  }

  /** Every early read does show an ending that can be taken back: the request is then shown `failed`,
      and registering it and reading it again shows it `running`. */
  lemma EarlyReadIsTakenBack(states: seq<State>, events: seq<Event>, id: string, e: Event, then_: string)
    returns (longer: seq<State>)
    requires IsRun(states, events) && EarlyRead(Last(states), e, id)
    ensures IsRun(longer, events + [e, On(id, Register), On(id, ClientRefresh(then_))])
    ensures longer[..|states|] == states
    ensures var n := |states|;
            && id in longer[n].reqs && longer[n].reqs[id].record.Stored?
            && longer[n].reqs[id].record.record.status == "failed"
            && id in longer[n + 2].reqs && longer[n + 2].reqs[id].record.Stored?
            && longer[n + 2].reqs[id].record.record.status == "running"
  {
    var r := Last(states).reqs[id];
    RunKeepsInv(states, events, |events|);
    assert ReqInv(r);
    ThreeActs(id, r, e.action, then_);
    assert e == On(id, e.action);
    hide IsRun, Inv, ReqInv, Act, CanAct;
    longer := ThreeMore(states, events, id, e.action, Register, ClientRefresh(then_));
  }

  /** A run with three more steps of one request. */
  lemma ThreeMore(states: seq<State>, events: seq<Event>, id: string, a1: Action, a2: Action, a3: Action)
    returns (longer: seq<State>)
    requires IsRun(states, events) && id in Last(states).reqs
    requires forall a :: a in [a1, a2, a3] ==> !a.Accept? && !a.EnterFence?
    requires var r := Last(states).reqs[id];
             && CanAct(r, a1) && CanAct(Act(id, r, a1), a2) && CanAct(Act(id, Act(id, r, a1), a2), a3)
    ensures IsRun(longer, events + [On(id, a1), On(id, a2), On(id, a3)])
    ensures |longer| == |states| + 3 && longer[..|states|] == states
    ensures var r, n := Last(states).reqs[id], |states|;
            && id in longer[n].reqs && longer[n].reqs[id] == Act(id, r, a1)
            && id in longer[n + 2].reqs && longer[n + 2].reqs[id] == Act(id, Act(id, Act(id, r, a1), a2), a3)
  {
    hide IsRun, Act, CanAct, LocksAfter, FenceAfter;
    assert a1 in [a1, a2, a3] && a2 in [a1, a2, a3] && a3 in [a1, a2, a3];
    var s1, e1 := Extended(states, events, id, a1);
    var s2, e2 := Extended(s1, e1, id, a2);
    var s3, e3 := Extended(s2, e2, id, a3);
    longer := s3;
    assert e3 == events + [On(id, a1), On(id, a2), On(id, a3)];
    assert s2[..|states|] == s1[..|states|] && s3[..|states|] == s2[..|states|];
    assert s3[|states|] == s2[|states|] == Last(s1);
  }

  lemma ThreeActs(id: string, r: Req, a: Action, then_: string)
    requires a.ClientRefresh? && ReqInv(r) && r.phase == Recorded && !r.alive
    ensures CanAct(r, a) && Act(id, r, a).record.Stored? && Act(id, r, a).record.record.status == "failed"
    ensures var r1 := Act(id, r, a);
            && CanAct(r1, Register)
            && var r2 := Act(id, r1, Register);
            && CanAct(r2, ClientRefresh(then_))
            && var r3 := Act(id, r2, ClientRefresh(then_));
            && r3.record.Stored? && r3.record.record.status == "running"
  {
  }

  /** An early read is possible: a worker that ends at once, read between the two writes. */
  lemma EarlyReadHappens() returns (states: seq<State>, events: seq<Event>)
    ensures IsRun(states, events) && EarlyRead(Last(states), On("x", ClientRefresh("t")), "x")
  {
    hide IsRun, Next;
    states, events := Started("x", {});
    states, events := Extended(states, events, "x", EnterFence);
    states, events := Extended(states, events, "x", Spawn(1));
    states, events := Extended(states, events, "x", WriteReceipt);
    states, events := Extended(states, events, "x", WriteRecord);
    states, events := Extended(states, events, "x", WorkerExits);
  }

  /** The run of one accepted request. */
  lemma Started(id: string, wants: set<string>) returns (states: seq<State>, events: seq<Event>)
    ensures IsRun(states, events) && events == [On(id, Accept(wants))]
    ensures Last(states) == State(map[id := Accepted(wants)], map l | l in wants :: id, Free)
  {
    var e := On(id, Accept(wants));
    OneMore([INITIAL], [], e);
    states, events := [INITIAL] + [Next(INITIAL, e)], [] + [e];
    assert Grant(map[], wants, id) == map l | l in wants :: id;
  }

  /** A run with one more step of one request. */
  lemma Extended(states: seq<State>, events: seq<Event>, id: string, a: Action)
    returns (longer: seq<State>, events': seq<Event>)
    requires IsRun(states, events) && !a.Accept? && Enabled(Last(states), On(id, a))
    ensures IsRun(longer, events') && events' == events + [On(id, a)]
    ensures |longer| == |states| + 1 && longer[..|states|] == states
    ensures var s, t := Last(states), Last(longer);
            && t.reqs == s.reqs[id := Act(id, s.reqs[id], a)]
            && t.locks == LocksAfter(s.locks, s.reqs[id], t.reqs[id])
            && t.fence == FenceAfter(s.fence, id, s.reqs[id].phase, t.reqs[id].phase)
  {
    var e := On(id, a);
    OneMore(states, events, e);
    hide Act, CanAct, LocksAfter, FenceAfter;
    longer, events' := states + [Next(Last(states), e)], events + [e];
  }

  /** Between registering a request and unregistering it every read, of every run, returns exactly what
      the receipt says at that moment. */
  lemma RegisteredReadsTellTheReceipt(states: seq<State>, events: seq<Event>, k: nat, id: string, now: string)
    requires IsRun(states, events) && k < |events| && events[k] == On(id, ClientRefresh(now))
    requires id in states[k].reqs && states[k].reqs[id].registered
    ensures id in states[k + 1].reqs && SaysTheReceipt(states[k + 1].reqs[id])
    ensures states[k + 1].reqs[id].receipt == states[k].reqs[id].receipt
  {
    RunKeepsInv(states, events, k);
    assert ReqInv(states[k].reqs[id]);
    assert states[k + 1] == Next(states[k], events[k]);
    assert states[k + 1].reqs[id] == Refreshed(states[k].reqs[id], now);
  }

  /** Once the receipt is terminal it never changes, every read from then on returns its status, and a
      record that says it once says it for good. */
  lemma {:induction false} TerminalReceiptIsForGood(states: seq<State>, events: seq<Event>, k: nat, l: nat, id: string)
    requires IsRun(states, events) && k <= l < |states| && id in states[k].reqs && Terminal(states[k].reqs[id].receipt)
    ensures id in states[l].reqs && states[l].reqs[id].receipt == states[k].reqs[id].receipt
    ensures l > k && Reads(events[l - 1], id) ==> SaysTheReceipt(states[l].reqs[id])
    ensures SaysTheReceipt(states[k].reqs[id]) ==> SaysTheReceipt(states[l].reqs[id])
    decreases l
  {
    hide *;
    if k < l {
      LastIs(states, events);
      TerminalReceiptIsForGood(states, events, k, l - 1, id);
      RunKeepsInv(states, events, l - 1);
      RunStep(states, events, l - 1);
      ReqInvOf(states[l - 1], id);
      ReceiptStep(states[l - 1], events[l - 1], id);
    }
  }

  lemma ReceiptStep(s: State, e: Event, id: string)
    requires Enabled(s, e) && id in s.reqs && ReqInv(s.reqs[id]) && Terminal(s.reqs[id].receipt)
    ensures id in Next(s, e).reqs && Next(s, e).reqs[id].receipt == s.reqs[id].receipt
    ensures Reads(e, id) ==> SaysTheReceipt(Next(s, e).reqs[id])
    ensures SaysTheReceipt(s.reqs[id]) ==> SaysTheReceipt(Next(s, e).reqs[id])
  {
    if e.On? && e.id == id && !e.action.Accept? {
      ActOnReceipt(id, s.reqs[id], e.action);
    }
  }

  lemma ActOnReceipt(id: string, r: Req, a: Action)
    requires ReqInv(r) && CanAct(r, a) && Terminal(r.receipt)
    ensures Act(id, r, a).receipt == r.receipt
    ensures a.ClientRefresh? ==> SaysTheReceipt(Act(id, r, a))
    ensures SaysTheReceipt(r) ==> SaysTheReceipt(Act(id, r, a))
  {
  }

  /** The terminal record handed over by the reaper is never overwritten: through later client reads,
      restarts and sweeps it keeps agreeing with the receipt, whatever a race wrote before. */
  lemma {:induction false} HandoverIsFinal(states: seq<State>, events: seq<Event>, k: nat, l: nat, id: string)
    requires IsRun(states, events) && k <= l < |states|
    requires id in states[k].reqs && states[k].reqs[id].handedOver
    ensures id in states[l].reqs && states[l].reqs[id].handedOver
    ensures states[l].reqs[id].receipt == states[k].reqs[id].receipt
    ensures Terminal(states[l].reqs[id].receipt)
    ensures states[l].reqs[id].record.Stored?
              && states[l].reqs[id].record.record.status == states[k].reqs[id].receipt.status
    decreases l
  {
    hide *;
    if k < l {
      LastIs(states, events);
      HandoverIsFinal(states, events, k, l - 1, id);
      RunKeepsInv(states, events, l - 1);
      RunStep(states, events, l - 1);
      ReqInvOf(states[l - 1], id);
      HandoverStep(states[l - 1], events[l - 1], id);
    }
    RunKeepsInv(states, events, l);
    ReqInvOf(states[l], id);
    HandedRecord(states[l].reqs[id]);
  }

  lemma HandedRecord(r: Req)
    requires HandedInv(r) && r.handedOver
    ensures Terminal(r.receipt) && r.record.Stored? && r.record.record.status == r.receipt.status
  {
  }

  lemma HandoverStep(s: State, e: Event, id: string)
    requires Enabled(s, e) && id in s.reqs && HandedInv(s.reqs[id]) && s.reqs[id].handedOver
    ensures id in Next(s, e).reqs && Next(s, e).reqs[id].handedOver
    ensures Next(s, e).reqs[id].receipt == s.reqs[id].receipt
  {
    if e.On? && e.id == id && !e.action.Accept? {
      ActAfterHandover(id, s.reqs[id], e.action);
    }
  }

  lemma ActAfterHandover(id: string, r: Req, a: Action)
    requires HandedInv(r) && CanAct(r, a) && r.handedOver
    ensures Act(id, r, a).handedOver && Act(id, r, a).receipt == r.receipt
  {
  }

  predicate Settled(r: Req) {
    && Abandoned(r) && r.record.Stored? && r.record.record.status in TERMINAL
    && (Terminal(r.receipt) ==> r.record.record.status == r.receipt.status)
  }

  /** One read settles an abandoned request. */
  lemma ReadSettles(r: Req, now: string)
    requires ReqInv(r) && Abandoned(r) && r.record.Stored?
    ensures Settled(Refreshed(r, now))
  {
  }

  /** A settled request stays settled, with the status it settled on. */
  lemma {:induction false} SettledForGood(states: seq<State>, events: seq<Event>, k: nat, l: nat, id: string)
    requires IsRun(states, events) && k <= l < |states|
    requires id in states[k].reqs && Settled(states[k].reqs[id])
    ensures id in states[l].reqs && Settled(states[l].reqs[id])
    ensures states[l].reqs[id].record.record.status == states[k].reqs[id].record.record.status
    decreases l
  {
    hide *;
    if k < l {
      LastIs(states, events);
      SettledForGood(states, events, k, l - 1, id);
      RunKeepsInv(states, events, l - 1);
      RunStep(states, events, l - 1);
      ReqInvOf(states[l - 1], id);
      SettledStep(states[l - 1], events[l - 1], id);
    }
  }

  /** So one read of an abandoned request gives it its status for good. */
  lemma ReadSettlesForGood(states: seq<State>, events: seq<Event>, k: nat, l: nat, id: string, now: string)
    requires IsRun(states, events) && k < l < |states| && events[k] == On(id, ClientRefresh(now))
    requires id in states[k].reqs && Abandoned(states[k].reqs[id])
    ensures id in states[k + 1].reqs && Settled(states[k + 1].reqs[id])
    ensures id in states[l].reqs && Settled(states[l].reqs[id])
    ensures states[l].reqs[id].record.record.status == states[k + 1].reqs[id].record.record.status
  {
    RunKeepsInv(states, events, k);
    assert ReqInv(states[k].reqs[id]);
    assert states[k + 1] == Next(states[k], events[k]);
    ReadSettles(states[k].reqs[id], now);
    assert states[k + 1].reqs[id] == Refreshed(states[k].reqs[id], now);
    SettledForGood(states, events, k + 1, l, id);
  }

  lemma SettledStep(s: State, e: Event, id: string)
    requires Enabled(s, e) && id in s.reqs && ReqInv(s.reqs[id]) && Settled(s.reqs[id])
    ensures id in Next(s, e).reqs && Settled(Next(s, e).reqs[id])
    ensures Next(s, e).reqs[id].record.record.status == s.reqs[id].record.record.status
  {
    if e.On? && e.id == id && !e.action.Accept? {
      ActWhenSettled(id, s.reqs[id], e.action);
    }
  }

  lemma ActWhenSettled(id: string, r: Req, a: Action)
    requires ReqInv(r) && CanAct(r, a) && Settled(r)
    ensures Settled(Act(id, r, a)) && Act(id, r, a).record.record.status == r.record.record.status
  {
  }
}
