/** `refresh` as the five steps it is: a client loads the record, reads the receipt, tests `_PROCESSES`,
    tests the worker, and writes back what it has decided, while the handler, the reaper, the worker, other
    clients and restarts go on (`okengine-operations/app.py`). */
module ReadRaces {
  import opened OperationRequests
  import opened RequestProtocol

  datatype Stage = Loaded | Looked | Tested(registered: bool) | Judged

  /** A read under way. `told`: the receipt it saw was terminal; `overtaken`: the handler, the reaper or the
      worker has taken a step since it saw the receipt. */
  datatype Read = Read(id: string, stage: Stage, value: Record, told: bool, overtaken: bool)

  datatype World = World(core: State, clients: map<nat, Read>)

  /** A step of the service, or of the read `n`. */
  datatype Move =
    | Core(e: Event)
    | Load(n: nat, id: string) | Look(n: nat, now: string) | Test(n: nat) | Judge(n: nat, now: string) | Write(n: nat)

  predicate IsRefresh(e: Event) {
    e.On? && e.action.ClientRefresh?
  }

  predicate CanMove(w: World, m: Move) {
    match m
    case Core(e) => !IsRefresh(e) && Enabled(w.core, e)
    case Load(n, id) => n !in w.clients && id in w.core.reqs && w.core.reqs[id].record.Stored?
    case Look(n, _) => n in w.clients && w.clients[n].stage == Loaded && w.clients[n].id in w.core.reqs
    case Test(n) => n in w.clients && w.clients[n].stage == Looked && w.clients[n].id in w.core.reqs
    case Judge(n, _) => n in w.clients && w.clients[n].stage.Tested? && w.clients[n].id in w.core.reqs
    case Write(n) => n in w.clients && w.clients[n].stage == Judged && w.clients[n].id in w.core.reqs
  }

  function Overtake(clients: map<nat, Read>, id: string): map<nat, Read> {
    map n | n in clients :: if clients[n].id == id then clients[n].(overtaken := true) else clients[n]
  }

  function AfterCore(w: World, e: Event): World
    requires Enabled(w.core, e)
  {
    World(Next(w.core, e),
          match e
          case Restart => map[]
          case On(id, _) => Overtake(w.clients, id)
          case _ => w.clients)
  }

  /** The crash rule alone: what `Refresh` does without a receipt. */
  function Verdict(rd: Read, r: Req, now: string): Outcome
    requires rd.stage.Tested?
  {
    Refresh(rd.value, NoReceipt, rd.stage.registered, Workers(r), now)
  }

  function WithRecord(s: State, id: string, value: Record): State
    requires id in s.reqs
  {
    s.(reqs := s.reqs[id := s.reqs[id].(record := Stored(value))])
  }

  function After(w: World, m: Move): World
    requires CanMove(w, m)
  {
    match m
    case Core(e) => AfterCore(w, e)
    case Load(n, id) => w.(clients := w.clients[n := Read(id, Loaded, w.core.reqs[id].record.record, false, false)])
    case Look(n, now) =>
      var rd, r := w.clients[n], w.core.reqs[w.clients[n].id];
      var seen := Read(rd.id, Looked, Projected(rd.value, r.receipt, now), Terminal(r.receipt), false);
      w.(clients := w.clients[n := seen])
    case Test(n) =>
      w.(clients := w.clients[n := w.clients[n].(stage := Tested(w.core.reqs[w.clients[n].id].registered))])
    case Judge(n, now) =>
      (match Verdict(w.clients[n], w.core.reqs[w.clients[n].id], now)
       case Raised => w.(clients := w.clients - {n})
       case Refreshed(value) => w.(clients := w.clients[n := w.clients[n].(stage := Judged, value := value)]))
    case Write(n) =>
      var rd := w.clients[n];
      World(WithRecord(w.core, rd.id, rd.value), w.clients - {n})
  }

  ghost predicate IsHistory(worlds: seq<World>, moves: seq<Move>) {
    && |worlds| == |moves| + 1
    && worlds[0] == World(INITIAL, map[])
    && forall i :: 0 <= i < |moves| ==> CanMove(worlds[i], moves[i]) && worlds[i + 1] == After(worlds[i], moves[i])
  }

  lemma HistoryStep(worlds: seq<World>, moves: seq<Move>, k: nat)
    requires IsHistory(worlds, moves) && k < |moves|
    ensures |worlds| == |moves| + 1 && CanMove(worlds[k], moves[k]) && worlds[k + 1] == After(worlds[k], moves[k])
  {
  }

  lemma HistoryStarts(worlds: seq<World>, moves: seq<Move>)
    requires IsHistory(worlds, moves)
    ensures worlds[0].core.reqs == map[]
  {
  }

  lemma MovesIn(worlds: seq<World>, moves: seq<Move>)
    requires IsHistory(worlds, moves)
    ensures |worlds| == |moves| + 1
  {
  }

  // ---------------------------------------------------------------------------------------------
  // What every history keeps
  // ---------------------------------------------------------------------------------------------

  /** A status that can stand in the record: running, failed with the worker gone, or the receipt's. */
  predicate StatusSound(r: Req, status: string) {
    || status == "running"
    || (status == "failed" && !r.alive)
    || (Terminal(r.receipt) && status == r.receipt.status)
  }

  /** What one refresh at this moment decides. */
  function StatusNow(r: Req): string
    requires r.receipt.Receipt?
  {
    if Terminal(r.receipt) || r.registered || r.alive then r.receipt.status else "failed"
  }

  /** A record but for its status and the time it ended. */
  function Bare(r: Record): Record {
    r.(status := "", finishedAt := "")
  }

  predicate ReadSound(s: State, rd: Read) {
    && rd.id in s.reqs
    && var r := s.reqs[rd.id];
       && r.record.Stored? && r.receipt.Receipt? && r.pid > 0
       && Bare(rd.value) == Bare(r.record.record) && rd.value.pid == Pid(r.pid) && StatusSound(r, rd.value.status)
       && (rd.told ==> Terminal(r.receipt) && rd.value.status == r.receipt.status)
       && (rd.stage != Loaded && !rd.overtaken ==>
           match rd.stage
           case Looked => rd.value.status == r.receipt.status
           case Tested(registered) => rd.value.status == r.receipt.status && registered == r.registered
           case _ => rd.value.status == StatusNow(r))
  }

  ghost predicate WorldInv(w: World) {
    && (forall id :: id in w.core.reqs ==> ReqInv(w.core.reqs[id]))
    && (forall n :: n in w.clients ==> ReadSound(w.core, w.clients[n]))
  }

  /** What no step of a request on disk undoes. */
  lemma ActOnStored(id: string, r: Req, a: Action)
    requires ReqInv(r) && r.record.Stored? && CanAct(r, a)
    ensures var t := Act(id, r, a);
            && t.record.Stored? && t.pid == r.pid && (t.alive ==> r.alive)
            && (Terminal(r.receipt) ==> t.receipt == r.receipt) && t.receipt.Receipt?
            && Bare(t.record.record) == Bare(r.record.record)
  {
  }

  lemma CoreKeepsRead(s: State, e: Event, rd: Read)
    requires Enabled(s, e) && e != Restart && ReadSound(s, rd) && ReqInv(s.reqs[rd.id])
    ensures ReadSound(Next(s, e), if e.On? && e.id == rd.id then rd.(overtaken := true) else rd)
  {
    if e.On? && e.id == rd.id && !e.action.Accept? {
      ActOnStored(rd.id, s.reqs[rd.id], e.action);
      assert Next(s, e).reqs[rd.id] == Act(rd.id, s.reqs[rd.id], e.action);
      hide Act, CanAct, Next, ReqInv;
    } else {
      assert rd.id in Next(s, e).reqs && Next(s, e).reqs[rd.id] == s.reqs[rd.id];
      hide Next, Enabled, ReqInv, StatusNow;
    }
  }

  lemma CoreKeepsReqs(s: State, e: Event)
    requires Enabled(s, e) && forall id :: id in s.reqs ==> ReqInv(s.reqs[id])
    ensures forall id :: id in Next(s, e).reqs ==> ReqInv(Next(s, e).reqs[id])
  {
    match e
    case Restart =>
      hide ReqInv, Orphan;
      forall id | id in s.reqs ensures ReqInv(Orphan(s.reqs[id])) {
        OrphanKeepsReqInv(s.reqs[id]);
      }
    case On(id, a) =>
      if a.Accept? {
        assert ReqInv(Accepted(a.wants));
        hide ReqInv;
      } else {
        ActKeepsReqInv(id, s.reqs[id], a);
        hide ReqInv, Act, CanAct, LocksAfter, FenceAfter;
      }
    case _ =>
  }

  lemma LookSound(s: State, rd: Read, now: string)
    requires ReadSound(s, rd) && ReqInv(s.reqs[rd.id])
    ensures var r := s.reqs[rd.id];
            ReadSound(s, Read(rd.id, Looked, Projected(rd.value, r.receipt, now), Terminal(r.receipt), false))
  {
  }

  lemma JudgeSound(s: State, rd: Read, now: string)
    requires ReadSound(s, rd) && rd.stage.Tested? && ReqInv(s.reqs[rd.id])
    ensures var outcome := Verdict(rd, s.reqs[rd.id], now);
            outcome.Refreshed? && ReadSound(s, rd.(stage := Judged, value := outcome.record))
  {
  }

  lemma SetRead(w: World, n: nat, rd: Read)
    requires WorldInv(w) && ReadSound(w.core, rd)
    ensures WorldInv(w.(clients := w.clients[n := rd]))
  {
    hide ReqInv, ReadSound;
  }

  lemma ReadStepKeeps(w: World, m: Move)
    requires WorldInv(w) && CanMove(w, m) && !m.Core? && !m.Write?
    ensures WorldInv(After(w, m)) && After(w, m).core == w.core
  {
    hide ReqInv, Verdict;
    match m
    case Load(n, id) =>
      assert ReqInv(w.core.reqs[id]);
      LoadSound(w.core, id);
      hide ReadSound, WorldInv;
      SetRead(w, n, Read(id, Loaded, w.core.reqs[id].record.record, false, false));
    case Look(n, now) =>
      assert ReadSound(w.core, w.clients[n]) && ReqInv(w.core.reqs[w.clients[n].id]);
      LookSound(w.core, w.clients[n], now);
      hide ReadSound, WorldInv;
      SetRead(w, n, After(w, m).clients[n]);
    case Test(n) =>
      assert ReadSound(w.core, w.clients[n]) && ReadSound(w.core, After(w, m).clients[n]);
      hide ReadSound, WorldInv;
      SetRead(w, n, After(w, m).clients[n]);
    case Judge(n, now) =>
      assert ReadSound(w.core, w.clients[n]) && ReqInv(w.core.reqs[w.clients[n].id]);
      JudgeSound(w.core, w.clients[n], now);
      hide ReadSound, WorldInv;
      SetRead(w, n, After(w, m).clients[n]);
  }

  lemma LoadSound(s: State, id: string)
    requires id in s.reqs && ReqInv(s.reqs[id]) && s.reqs[id].record.Stored?
    ensures ReadSound(s, Read(id, Loaded, s.reqs[id].record.record, false, false))
  {
  }

  lemma WrittenKeeps(r: Req, value: Record)
    requires ReqInv(r) && r.record.Stored? && value.pid == Pid(r.pid) && r.pid > 0 && StatusSound(r, value.status)
    ensures ReqInv(r.(record := Stored(value)))
  {
  }

  lemma WrittenKeepsRead(s: State, id: string, value: Record, rd: Read)
    requires id in s.reqs && ReadSound(s, rd)
    requires s.reqs[id].record.Stored? && Bare(value) == Bare(s.reqs[id].record.record)
    ensures ReadSound(WithRecord(s, id, value), rd)
  {
  }

  lemma WriteIs(w: World, n: nat)
    requires CanMove(w, Write(n))
    ensures var rd := w.clients[n];
            && rd.stage == Judged && rd.id in w.core.reqs
            && After(w, Write(n)) == World(WithRecord(w.core, rd.id, rd.value), w.clients - {n})
  {
  }

  /** Writing what a sound read decided keeps every request and every read sound. */
  lemma RecordKeeps(w: World, rd: Read)
    requires WorldInv(w) && ReadSound(w.core, rd)
    ensures var s := WithRecord(w.core, rd.id, rd.value);
            && (forall id :: id in s.reqs ==> ReqInv(s.reqs[id]))
            && (forall k :: k in w.clients ==> ReadSound(s, w.clients[k]))
  {
    WrittenKeeps(w.core.reqs[rd.id], rd.value);
    forall k | k in w.clients ensures ReadSound(WithRecord(w.core, rd.id, rd.value), w.clients[k]) {
      WrittenKeepsRead(w.core, rd.id, rd.value, w.clients[k]);
    }
    hide ReqInv, ReadSound;
  }

  lemma WriteKeeps(w: World, n: nat)
    requires WorldInv(w) && CanMove(w, Write(n))
    ensures WorldInv(After(w, Write(n)))
  {
    assert ReadSound(w.core, w.clients[n]);
    WriteIs(w, n);
    hide ReqInv, ReadSound, WithRecord, After, CanMove;
    RecordKeeps(w, w.clients[n]);
  }

  lemma CoreKeepsReads(w: World, e: Event)
    requires WorldInv(w) && CanMove(w, Core(e))
    ensures var t := AfterCore(w, e); forall n :: n in t.clients ==> ReadSound(t.core, t.clients[n])
  {
    hide Next, Enabled;
    var t := AfterCore(w, e);
    forall n | n in t.clients ensures ReadSound(t.core, t.clients[n]) {
      assert ReadSound(w.core, w.clients[n]) && ReqInv(w.core.reqs[w.clients[n].id]);
      hide ReqInv, ReadSound;
      CoreKeepsRead(w.core, e, w.clients[n]);
    }
  }

  lemma CoreKeeps(w: World, e: Event)
    requires WorldInv(w) && CanMove(w, Core(e))
    ensures WorldInv(After(w, Core(e)))
  {
    CoreKeepsReqs(w.core, e);
    CoreKeepsReads(w, e);
    hide ReqInv, ReadSound, Next, Enabled;
  }

  lemma MoveKeeps(w: World, m: Move)
    requires WorldInv(w) && CanMove(w, m)
    ensures WorldInv(After(w, m))
  {
    hide WorldInv, After, CanMove;
    match m
    case Core(e) => CoreKeeps(w, e);
    case Write(n) => WriteKeeps(w, n);
    case _ => ReadStepKeeps(w, m);
  }

  lemma StartKeeps(worlds: seq<World>, moves: seq<Move>)
    requires IsHistory(worlds, moves)
    ensures WorldInv(worlds[0])
  {
    hide After, CanMove;
  }

  lemma {:induction false} HistoryKeeps(worlds: seq<World>, moves: seq<Move>, k: nat)
    requires IsHistory(worlds, moves) && k < |worlds|
    ensures WorldInv(worlds[k])
    decreases k
  {
    hide *;
    if k > 0 {
      MovesIn(worlds, moves);
      HistoryKeeps(worlds, moves, k - 1);
      HistoryStep(worlds, moves, k - 1);
      MoveKeeps(worlds[k - 1], moves[k - 1]);
    } else {
      StartKeeps(worlds, moves);
    }
  }

  // ---------------------------------------------------------------------------------------------
  // Reads that nothing overtakes
  // ---------------------------------------------------------------------------------------------

  function Shown(d: Document): Document {
    match d
    case Corrupt => Corrupt
    case Stored(r) => Stored(r.(finishedAt := ""))
  }

  /** The requests are the same, but perhaps for when the record says they ended. */
  predicate Alike(a: Req, b: Req) {
    a.(record := Shown(a.record)) == b.(record := Shown(b.record))
  }

  ghost predicate AlikeStates(s: State, t: State) {
    && s.locks == t.locks && s.fence == t.fence && s.reqs.Keys == t.reqs.Keys
    && forall id :: id in s.reqs ==> Alike(s.reqs[id], t.reqs[id])
  }

  lemma AlikeRefreshed(a: Req, b: Req, now: string)
    requires Alike(a, b)
    ensures Alike(RequestProtocol.Refreshed(a, now), RequestProtocol.Refreshed(b, now))
  {
  }

  lemma AlikeAct(id: string, a: Req, b: Req, action: Action)
    requires Alike(a, b) && CanAct(a, action)
    ensures CanAct(b, action) && Alike(Act(id, a, action), Act(id, b, action))
  {
    match action
    case ClientRefresh(now) => AlikeRefreshed(a, b, now);
    case Project(now) => AlikeRefreshed(a, b, now);
    case _ => hide RequestProtocol.Refreshed;
  }

  lemma AlikeNext(s: State, t: State, e: Event)
    requires AlikeStates(s, t) && Enabled(s, e)
    ensures Enabled(t, e) && AlikeStates(Next(s, e), Next(t, e))
  {
    match e
    case On(id, a) =>
      if !a.Accept? {
        AlikeAct(id, s.reqs[id], t.reqs[id], a);
        var after, then_ := Act(id, s.reqs[id], a), Act(id, t.reqs[id], a);
        assert LocksAfter(s.locks, s.reqs[id], after) == LocksAfter(t.locks, t.reqs[id], then_);
        hide Act, CanAct, LocksAfter, FenceAfter, Alike;
      }
    case Restart =>
      forall id | id in s.reqs ensures Alike(Orphan(s.reqs[id]), Orphan(t.reqs[id])) {
      }
      hide Orphan, Alike;
    case _ => hide Alike;
  }

  /** What a read writes that nothing has overtaken is what one refresh would write at that moment. */
  lemma WriteIsRefresh(s: State, rd: Read, now: string)
    requires ReadSound(s, rd) && rd.stage == Judged && !rd.overtaken && ReqInv(s.reqs[rd.id])
    ensures Alike(s.reqs[rd.id].(record := Stored(rd.value)), RequestProtocol.Refreshed(s.reqs[rd.id], now))
  {
  }

  /** The same run with every read as one step, taken where the read writes. */
  ghost function AtomicEvents(worlds: seq<World>, moves: seq<Move>, k: nat): seq<Event>
    requires IsHistory(worlds, moves) && k < |worlds|
  {
    if k == 0 then []
    else
      var before := AtomicEvents(worlds, moves, k - 1);
      match moves[k - 1]
      case Core(e) => before + [e]
      case Write(n) => before + [On(worlds[k - 1].clients[n].id, ClientRefresh(""))]
      case _ => before
  }

  /** A read is overtaken when it writes. */
  predicate WritesOvertaken(w: World, m: Move) {
    m.Write? && m.n in w.clients && w.clients[m.n].overtaken
  }

  lemma AlikeStep(w: World, m: Move, s: State)
    requires WorldInv(w) && CanMove(w, m) && !WritesOvertaken(w, m) && AlikeStates(w.core, s)
    ensures m.Core? ==> Enabled(s, m.e) && AlikeStates(After(w, m).core, Next(s, m.e))
    ensures m.Write? ==>
              var e := On(w.clients[m.n].id, ClientRefresh(""));
              Enabled(s, e) && AlikeStates(After(w, m).core, Next(s, e))
    ensures !m.Core? && !m.Write? ==> After(w, m).core == w.core
  {
    hide WorldInv, AlikeStates, Next, Enabled;
    match m
    case Core(e) => AlikeNext(w.core, s, e);
    case Write(n) => AlikeWrite(w, n, s);
    case _ => ReadStepKeeps(w, m);
  }

  lemma AlikeWrite(w: World, n: nat, s: State)
    requires WorldInv(w) && CanMove(w, Write(n)) && !w.clients[n].overtaken && AlikeStates(w.core, s)
    ensures var e := On(w.clients[n].id, ClientRefresh(""));
            Enabled(s, e) && AlikeStates(After(w, Write(n)).core, Next(s, e))
  {
    var rd := w.clients[n];
    assert ReadSound(w.core, rd) && ReqInv(w.core.reqs[rd.id]);
    WriteIs(w, n);
    hide *;
    AlikeRead(w.core, rd, s);
  }

  lemma AlikeRead(s: State, rd: Read, t: State)
    requires ReadSound(s, rd) && rd.stage == Judged && !rd.overtaken && ReqInv(s.reqs[rd.id]) && AlikeStates(s, t)
    ensures var e := On(rd.id, ClientRefresh(""));
            Enabled(t, e) && AlikeStates(WithRecord(s, rd.id, rd.value), Next(t, e))
  {
    var e := On(rd.id, ClientRefresh(""));
    ReadIsOnDisk(s, rd);
    hide *;
    AlikeNext(s, t, e);
    WriteIsRefresh(s, rd, "");
    WrittenAlike(s, rd.id, rd.value, t);
  }

  lemma ReadIsOnDisk(s: State, rd: Read)
    requires ReadSound(s, rd)
    ensures rd.id in s.reqs && s.reqs[rd.id].record.Stored? && Enabled(s, On(rd.id, ClientRefresh("")))
  {
  }

  lemma WrittenAlike(s: State, id: string, value: Record, t: State)
    requires id in s.reqs && s.reqs[id].record.Stored?
    requires Alike(s.reqs[id].(record := Stored(value)), RequestProtocol.Refreshed(s.reqs[id], ""))
    requires var e := On(id, ClientRefresh("")); Enabled(t, e) && AlikeStates(Next(s, e), Next(t, e))
    ensures AlikeStates(WithRecord(s, id, value), Next(t, On(id, ClientRefresh(""))))
  {
    var e := On(id, ClientRefresh(""));
    var more := WithRecord(s, id, value);
    assert Next(s, e).reqs == s.reqs[id := RequestProtocol.Refreshed(s.reqs[id], "")];
    assert Next(s, e).locks == s.locks && Next(s, e).fence == s.fence;
    forall x | x in more.reqs ensures Alike(more.reqs[x], Next(t, e).reqs[x]) {
      assert x in Next(s, e).reqs && Alike(Next(s, e).reqs[x], Next(t, e).reqs[x]);
    }
    hide Next, RequestProtocol.Refreshed;
  }

  lemma EmptyRuns(worlds: seq<World>, moves: seq<Move>)
    requires IsHistory(worlds, moves)
    ensures IsRun([INITIAL], []) && AlikeStates(worlds[0].core, INITIAL)
  {
  }

  /** Reads that nothing overtakes are single steps: a history in which every write is of such a read does
      what the run does in which each of them is one refresh. */
  lemma {:induction false} UndisturbedReadsAreAtomic(worlds: seq<World>, moves: seq<Move>, k: nat)
    returns (states: seq<State>)
    requires IsHistory(worlds, moves) && k < |worlds|
    requires forall i :: 0 <= i < k ==> !WritesOvertaken(worlds[i], moves[i])
    ensures IsRun(states, AtomicEvents(worlds, moves, k)) && AlikeStates(worlds[k].core, Last(states))
    decreases k
  {
    hide IsRun, IsHistory, WorldInv, After, CanMove, AlikeStates, Enabled, Next, WritesOvertaken;
    MovesIn(worlds, moves);
    if k == 0 {
      states := [INITIAL];
      EmptyRuns(worlds, moves);
    } else {
      states := UndisturbedReadsAreAtomic(worlds, moves, k - 1);
      HistoryKeeps(worlds, moves, k - 1);
      HistoryStep(worlds, moves, k - 1);
      var w, m := worlds[k - 1], moves[k - 1];
      var events := AtomicEvents(worlds, moves, k - 1);
      LastIs(states, events);
      AlikeStep(w, m, Last(states));
      if m.Core? {
        OneMore(states, events, m.e);
        states := states + [Next(Last(states), m.e)];
      } else if m.Write? {
        var e := On(w.clients[m.n].id, ClientRefresh(""));
        OneMore(states, events, e);
        states := states + [Next(Last(states), e)];
      }
    }
  }

  // ---------------------------------------------------------------------------------------------
  // Endings
  // ---------------------------------------------------------------------------------------------

  /** Whatever overtakes what: a request is shown to end only as its receipt says, or `failed` with its
      worker gone. */
  lemma EndingsAreSound(worlds: seq<World>, moves: seq<Move>, k: nat, id: string)
    requires IsHistory(worlds, moves) && k < |worlds|
    requires id in worlds[k].core.reqs && Ended(worlds[k].core.reqs[id])
    ensures var r := worlds[k].core.reqs[id];
            (Terminal(r.receipt) && SaysTheReceipt(r)) || (r.record.record.status == "failed" && !r.alive)
  {
    HistoryKeeps(worlds, moves, k);
    assert ReqInv(worlds[k].core.reqs[id]);
  }

  /** And a read that finds the receipt terminal writes what it says, whatever overtakes it. */
  lemma ToldReadsTellTheReceipt(worlds: seq<World>, moves: seq<Move>, k: nat, n: nat)
    requires IsHistory(worlds, moves) && k < |moves| && moves[k] == Write(n)
    requires n in worlds[k].clients && worlds[k].clients[n].told
    ensures var id := worlds[k].clients[n].id;
            && id in worlds[k + 1].core.reqs && Terminal(worlds[k + 1].core.reqs[id].receipt)
            && SaysTheReceipt(worlds[k + 1].core.reqs[id])
  {
    HistoryKeeps(worlds, moves, k);
    assert CanMove(worlds[k], moves[k]) && worlds[k + 1] == After(worlds[k], moves[k]);
    assert ReadSound(worlds[k].core, worlds[k].clients[n]);
  }

  /** A write that can take an ending back: of a read that was overtaken, or of one made before the request
      was registered and after its worker was gone. */
  predicate Disturbs(w: World, m: Move, id: string) {
    && m.Write? && m.n in w.clients && w.clients[m.n].id == id && id in w.core.reqs
    && (w.clients[m.n].overtaken || (w.core.reqs[id].phase == Recorded && !w.core.reqs[id].alive))
  }

  lemma EndingMove(w: World, m: Move, id: string)
    requires WorldInv(w) && CanMove(w, m) && !Disturbs(w, m, id) && id in w.core.reqs && EndingInv(w.core.reqs[id])
    ensures id in After(w, m).core.reqs && EndingInv(After(w, m).core.reqs[id])
    ensures var r, t := w.core.reqs[id], After(w, m).core.reqs[id];
            Ended(r) ==> Ended(t) && t.record.record.status == r.record.record.status
  {
    assert ReqInv(w.core.reqs[id]);
    match m
    case Core(e) =>
      hide EndingInv, ReqInv, Next, Enabled, WorldInv, Ended;
      EndingStep(w.core, e, id);
    case Write(n) =>
      if w.clients[n].id == id {
        assert ReadSound(w.core, w.clients[n]);
        hide WorldInv;
        EndingWrite(w.core.reqs[id], w.core, w.clients[n]);
      } else {
        hide EndingInv, ReqInv, WorldInv;
      }
    case _ =>
      ReadStepKeeps(w, m);
      hide EndingInv, ReqInv, WorldInv, After;
  }

  lemma EndingWrite(r: Req, s: State, rd: Read)
    requires ReadSound(s, rd) && r == s.reqs[rd.id] && ReqInv(r) && EndingInv(r)
    requires rd.stage == Judged && !rd.overtaken && !(r.phase == Recorded && !r.alive)
    ensures var t := r.(record := Stored(rd.value));
            EndingInv(t) && (Ended(r) ==> Ended(t) && t.record.record.status == r.record.record.status)
  {
  }

  ghost predicate Undisturbed(worlds: seq<World>, moves: seq<Move>, id: string, n: nat)
    requires IsHistory(worlds, moves) && n <= |moves|
  {
    forall i :: 0 <= i < n ==> !Disturbs(worlds[i], moves[i], id)
  }

  lemma EarlierMoves(worlds: seq<World>, moves: seq<Move>, id: string, n: nat)
    requires IsHistory(worlds, moves) && 0 < n <= |moves| && Undisturbed(worlds, moves, id, n)
    ensures Undisturbed(worlds, moves, id, n - 1) && !Disturbs(worlds[n - 1], moves[n - 1], id)
  {
    hide After, CanMove, Disturbs;
  }

  lemma {:induction false} HistoryKeepsEndings(worlds: seq<World>, moves: seq<Move>, k: nat, id: string)
    requires IsHistory(worlds, moves) && k < |worlds| && Undisturbed(worlds, moves, id, k)
    ensures id in worlds[k].core.reqs ==> EndingInv(worlds[k].core.reqs[id])
    decreases k
  {
    hide *;
    if k > 0 {
      MovesIn(worlds, moves);
      EarlierMoves(worlds, moves, id, k);
      HistoryKeepsEndings(worlds, moves, k - 1, id);
      HistoryKeeps(worlds, moves, k - 1);
      HistoryStep(worlds, moves, k - 1);
      if id in worlds[k - 1].core.reqs {
        EndingMove(worlds[k - 1], moves[k - 1], id);
      } else {
        NewIsUnread(worlds[k - 1], moves[k - 1], id);
      }
    } else {
      HistoryStarts(worlds, moves);
    }
  }

  lemma NewIsUnread(w: World, m: Move, id: string)
    requires CanMove(w, m) && id !in w.core.reqs
    ensures id in After(w, m).core.reqs ==> EndingInv(After(w, m).core.reqs[id])
  {
    if m.Core? {
      AcceptedIsUnread(w.core, m.e, id);
    }
  }

  /** An ending is for good at this grain as well, in every history in which no read of the request is
      overtaken, and none writes before it is registered with its worker gone. */
  lemma {:induction false} EndingIsForGoodUndisturbed(worlds: seq<World>, moves: seq<Move>, k: nat, l: nat, id: string)
    requires IsHistory(worlds, moves) && k <= l < |worlds| && Undisturbed(worlds, moves, id, l)
    requires id in worlds[k].core.reqs && Ended(worlds[k].core.reqs[id])
    ensures id in worlds[l].core.reqs && Ended(worlds[l].core.reqs[id])
    ensures worlds[l].core.reqs[id].record.record.status == worlds[k].core.reqs[id].record.record.status
    decreases l
  {
    hide *;
    if k < l {
      MovesIn(worlds, moves);
      EarlierMoves(worlds, moves, id, l);
      EndingIsForGoodUndisturbed(worlds, moves, k, l - 1, id);
      HistoryKeepsEndings(worlds, moves, l - 1, id);
      HistoryKeeps(worlds, moves, l - 1);
      HistoryStep(worlds, moves, l - 1);
      EndingMove(worlds[l - 1], moves[l - 1], id);
    }
  }

  // ---------------------------------------------------------------------------------------------
  // An overtaken read
  // ---------------------------------------------------------------------------------------------

  function Now(worlds: seq<World>): World
    requires worlds != []
  {
    worlds[|worlds| - 1]
  }

  /** The request `id` and the read `n` of it, as they are now. */
  predicate Are(w: World, id: string, n: nat, r: Req, rd: Read) {
    id in w.core.reqs && w.core.reqs[id] == r && n in w.clients && w.clients[n] == rd && rd.id == id
  }

  ghost predicate GoesOn(worlds: seq<World>, moves: seq<Move>, longer: seq<World>, more: seq<Move>) {
    && IsHistory(worlds, moves) && IsHistory(longer, more)
    && |worlds| <= |longer| && worlds == longer[..|worlds|] && moves == more[..|moves|]
  }

  lemma GoesOnFurther(w0: seq<World>, m0: seq<Move>, w1: seq<World>, m1: seq<Move>, w2: seq<World>, m2: seq<Move>)
    requires GoesOn(w0, m0, w1, m1) && GoesOn(w1, m1, w2, m2)
    ensures GoesOn(w0, m0, w2, m2)
  {
    assert w0 == w1[..|w0|] == w2[..|w1|][..|w0|] == w2[..|w0|];
    assert m0 == m1[..|m0|] == m2[..|m1|][..|m0|] == m2[..|m0|];
  }

  lemma OneMoreMove(worlds: seq<World>, moves: seq<Move>, m: Move) returns (longer: seq<World>, more: seq<Move>)
    requires IsHistory(worlds, moves) && CanMove(Now(worlds), m)
    ensures longer != [] && IsHistory(longer, more) && GoesOn(worlds, moves, longer, more)
    ensures Now(longer) == After(Now(worlds), m)
  {
    hide CanMove, After;
    longer, more := worlds + [After(Now(worlds), m)], moves + [m];
  }

  /** A step of the request overtakes the read. */
  lemma Overtakes(worlds: seq<World>, moves: seq<Move>, id: string, n: nat, r: Req, rd: Read, a: Action)
    returns (longer: seq<World>, more: seq<Move>)
    requires IsHistory(worlds, moves) && Are(Now(worlds), id, n, r, rd)
    requires CanAct(r, a) && !a.Accept? && !a.ClientRefresh? && !a.EnterFence?
    ensures longer != [] && IsHistory(longer, more) && GoesOn(worlds, moves, longer, more)
    ensures Are(Now(longer), id, n, Act(id, r, a), rd.(overtaken := true))
  {
    longer, more := OneMoreMove(worlds, moves, Core(On(id, a)));
    hide Act, CanAct, IsHistory, GoesOn;
  }

  lemma Begins(worlds: seq<World>, moves: seq<Move>, id: string, n: nat)
    returns (longer: seq<World>, more: seq<Move>, rd: Read)
    requires IsHistory(worlds, moves) && id in Now(worlds).core.reqs && n !in Now(worlds).clients
    requires Now(worlds).core.reqs[id].phase == Reaping && ReqInv(Now(worlds).core.reqs[id])
    ensures longer != [] && IsHistory(longer, more) && GoesOn(worlds, moves, longer, more)
    ensures Are(Now(longer), id, n, Now(worlds).core.reqs[id], rd)
    ensures rd.stage == Looked && rd.value.status == "running" && rd.value.pid == Pid(Now(worlds).core.reqs[id].pid)
  {
    var w1, m1 := OneMoreMove(worlds, moves, Load(n, id));
    longer, more := OneMoreMove(w1, m1, Move.Look(n, "t"));
    GoesOnFurther(worlds, moves, w1, m1, longer, more);
    rd := Now(longer).clients[n];
  }

  /** The reaper gets through, and the request is shown to have succeeded on the way. */
  lemma Reaped(worlds: seq<World>, moves: seq<Move>, id: string, n: nat, r: Req, rd: Read)
    returns (shown: seq<World>, then_: seq<Move>, longer: seq<World>, more: seq<Move>)
    requires IsHistory(worlds, moves) && Are(Now(worlds), id, n, r, rd) && ReqInv(r) && r.phase == Reaping
    ensures shown != [] && longer != []
    ensures GoesOn(worlds, moves, shown, then_) && GoesOn(shown, then_, longer, more)
    ensures Shows(Now(shown), id, "succeeded")
    ensures n in Now(longer).clients && id in Now(longer).core.reqs
    ensures var t := Now(longer).core.reqs[id];
            && !t.alive && !t.registered && t.record.Stored?
            && Are(Now(longer), id, n, t, rd.(overtaken := true))
  {
    hide IsHistory, GoesOn, Are, Act, CanAct;
    var w0, m0, r0, rd0 := worlds, moves, r, rd.(overtaken := true);
    ItselfGoesOn(worlds, moves);
    ReapingActs(id, r);
    if r.alive {
      w0, m0 := Overtakes(worlds, moves, id, n, r, rd, WorkerExits);
      r0 := Act(id, r, WorkerExits);
      rd0 := rd.(overtaken := true);
    } else {
      rd0 := rd;
    }
    var w1, m1 := Overtakes(w0, m0, id, n, r0, rd0, LeaveFence);
    var r1 := Act(id, r0, LeaveFence);
    var w2, m2 := Overtakes(w1, m1, id, n, r1, rd.(overtaken := true), Finalize("succeeded", "t"));
    var r2 := Act(id, r1, Finalize("succeeded", "t"));
    shown, then_ := Overtakes(w2, m2, id, n, r2, rd.(overtaken := true), Project("t"));
    var r3 := Act(id, r2, Project("t"));
    var w4, m4 := Overtakes(shown, then_, id, n, r3, rd.(overtaken := true), Release);
    var r4 := Act(id, r3, Release);
    longer, more := Overtakes(w4, m4, id, n, r4, rd.(overtaken := true), Unregister);
    GoesOnFurther(worlds, moves, w0, m0, w1, m1);
    GoesOnFurther(worlds, moves, w1, m1, w2, m2);
    GoesOnFurther(worlds, moves, w2, m2, shown, then_);
    GoesOnFurther(shown, then_, w4, m4, longer, more);
    ShownNow(Now(shown), id, n, r3, rd.(overtaken := true));
    ShownNow(Now(longer), id, n, Act(id, r4, Unregister), rd.(overtaken := true));
  }

  predicate Shows(w: World, id: string, status: string) {
    id in w.core.reqs && w.core.reqs[id].record.Stored? && w.core.reqs[id].record.record.status == status
  }

  lemma ShownNow(w: World, id: string, n: nat, r: Req, rd: Read)
    requires Are(w, id, n, r, rd)
    ensures id in w.core.reqs && w.core.reqs[id] == r && n in w.clients
  {
  }

  lemma ItselfGoesOn(worlds: seq<World>, moves: seq<Move>)
    requires IsHistory(worlds, moves)
    ensures GoesOn(worlds, moves, worlds, moves)
  {
    assert worlds == worlds[..|worlds|] && moves == moves[..|moves|];
  }

  lemma ReapingActs(id: string, r: Req)
    requires ReqInv(r) && r.phase == Reaping
    ensures r.alive ==> CanAct(r, WorkerExits)
    ensures var r0 := if r.alive then Act(id, r, WorkerExits) else r;
            && CanAct(r0, LeaveFence)
            && var r1 := Act(id, r0, LeaveFence);
            && CanAct(r1, Finalize("succeeded", "t"))
            && var r2 := Act(id, r1, Finalize("succeeded", "t"));
            && CanAct(r2, Project("t"))
            && var r3 := Act(id, r2, Project("t"));
            && r3.record.Stored? && r3.record.record.status == "succeeded" && CanAct(r3, Release)
            && var r4 := Act(id, r3, Release);
            && CanAct(r4, Unregister)
            && var r5 := Act(id, r4, Unregister);
            && !r5.alive && !r5.registered && r5.record.Stored?
  {
    var r0 := if r.alive then Act(id, r, WorkerExits) else r;
    assert r0 == r.(alive := false);
    assert Act(id, r0, LeaveFence) == r0.(phase := Unfenced);
    var r2 := r0.(phase := Finalized, receipt := Receipt("succeeded", "t"));
    assert r2 == Act(id, r0.(phase := Unfenced), Finalize("succeeded", "t"));
    assert r2.record.Stored?;
    hide ReqInv;
    FinalizedActs(id, r2);
  }

  lemma FinalizedActs(id: string, r: Req)
    requires r.phase == Finalized && r.receipt == Receipt("succeeded", "t") && r.record.Stored? && !r.alive
    ensures CanAct(r, Project("t"))
    ensures var r3 := Act(id, r, Project("t"));
            && r3.record.Stored? && r3.record.record.status == "succeeded" && CanAct(r3, Release)
            && var r4 := Act(id, r3, Release);
            && CanAct(r4, Unregister)
            && var r5 := Act(id, r4, Unregister);
            && !r5.alive && !r5.registered && r5.record.Stored?
  {
  }

  /** Then the read, which saw the receipt still running, finds no reaper and no worker. */
  lemma Decides(worlds: seq<World>, moves: seq<Move>, id: string, n: nat, r: Req, rd: Read)
    returns (longer: seq<World>, more: seq<Move>)
    requires IsHistory(worlds, moves) && Are(Now(worlds), id, n, r, rd)
    requires rd.stage == Looked && rd.value.status == "running" && rd.value.pid.Pid? && !r.alive && !r.registered
    ensures longer != [] && IsHistory(longer, more) && GoesOn(worlds, moves, longer, more)
    ensures Shows(Now(longer), id, "failed")
  {
    var w1, m1 := OneMoreMove(worlds, moves, Test(n));
    var w2, m2 := OneMoreMove(w1, m1, Judge(n, "t"));
    longer, more := OneMoreMove(w2, m2, Write(n));
    hide IsHistory, GoesOn;
    GoesOnFurther(worlds, moves, w1, m1, w2, m2);
    GoesOnFurther(worlds, moves, w2, m2, longer, more);
  }

  /** A read can be overtaken: every history that reaches a request being reaped goes on to one that shows
      it `succeeded`, and then `failed`. */
  lemma OvertakenReadTakesBack(worlds: seq<World>, moves: seq<Move>, id: string, n: nat)
    returns (shown: seq<World>, then_: seq<Move>, longer: seq<World>, more: seq<Move>)
    requires IsHistory(worlds, moves) && id in Now(worlds).core.reqs && Now(worlds).core.reqs[id].phase == Reaping
    requires n !in Now(worlds).clients
    ensures shown != [] && longer != []
    ensures GoesOn(worlds, moves, shown, then_) && Shows(Now(shown), id, "succeeded")
    ensures GoesOn(shown, then_, longer, more) && Shows(Now(longer), id, "failed")
  {
    HistoryKeeps(worlds, moves, |moves|);
    var r := Now(worlds).core.reqs[id];
    assert ReqInv(r);
    hide WorldInv, IsHistory, GoesOn, ReqInv;
    var w0, m0, rd := Begins(worlds, moves, id, n);
    var s1, t1, w1, m1 := Reaped(w0, m0, id, n, r, rd);
    shown, then_ := s1, t1;
    var w2, m2 := Decides(w1, m1, id, n, Now(w1).core.reqs[id], rd.(overtaken := true));
    longer, more := w2, m2;
    GoesOnFurther(worlds, moves, w0, m0, shown, then_);
    GoesOnFurther(shown, then_, w1, m1, longer, more);
  }

  /** There is such a history. */
  lemma ReapingHappens() returns (worlds: seq<World>, moves: seq<Move>)
    ensures worlds != [] && IsHistory(worlds, moves)
    ensures "x" in Now(worlds).core.reqs && Now(worlds).core.reqs["x"].phase == Reaping
    ensures Now(worlds).clients == map[]
  {
    hide After, IsHistory, GoesOn;
    worlds, moves := [World(INITIAL, map[])], [];
    ItIsHistory();
    worlds, moves := Takes(worlds, moves, Accept({}), Accepted({}));
    worlds, moves := Takes(worlds, moves, EnterFence, Act("x", Now(worlds).core.reqs["x"], EnterFence));
    worlds, moves := Takes(worlds, moves, Spawn(1), Act("x", Now(worlds).core.reqs["x"], Spawn(1)));
    worlds, moves := Takes(worlds, moves, WriteReceipt, Act("x", Now(worlds).core.reqs["x"], WriteReceipt));
    worlds, moves := Takes(worlds, moves, WriteRecord, Act("x", Now(worlds).core.reqs["x"], WriteRecord));
    worlds, moves := Takes(worlds, moves, Register, Act("x", Now(worlds).core.reqs["x"], Register));
    worlds, moves := Takes(worlds, moves, StartReaper, Act("x", Now(worlds).core.reqs["x"], StartReaper));
  }

  lemma ItIsHistory()
    ensures IsHistory([World(INITIAL, map[])], [])
  {
  }

  lemma Takes(worlds: seq<World>, moves: seq<Move>, a: Action, r: Req) returns (longer: seq<World>, more: seq<Move>)
    requires IsHistory(worlds, moves) && CanMove(Now(worlds), Core(On("x", a))) && Now(worlds).clients == map[]
    requires r == if a.Accept? then Accepted(a.wants) else Act("x", Now(worlds).core.reqs["x"], a)
    ensures longer != [] && IsHistory(longer, more) && "x" in Now(longer).core.reqs && Now(longer).core.reqs["x"] == r
    ensures Now(longer).clients == map[] && (a.Accept? ==> Now(longer).core.fence == Now(worlds).core.fence)
  {
    longer, more := OneMoreMove(worlds, moves, Core(On("x", a)));
    hide IsHistory, CanAct, Act;
  }
}
