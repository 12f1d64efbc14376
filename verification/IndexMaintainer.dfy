/** The search-index maintainer of `okengine-mcp/server.py`: what it marks as indexed, and how much of
    the time it may spend indexing. Times are real numbers; `change` stamps are file modification
    times, all other times are readings of the monotonic clock. */
module IndexMaintainer {

  const DUTY := 3.0

  datatype Config = Config(refreshHours: real, minUpdateSeconds: real)

  function Max(a: real, b: real): real {
    if a >= b then a else b
  }

  /** `_index_update_cooldown` */
  function Cooldown(c: Config, duration: real): real {
    Max(c.minUpdateSeconds, DUTY * duration)
  }

  // ---------------------------------------------------------------------------------------------
  // The newest modification time
  // ---------------------------------------------------------------------------------------------

  /** What a stat of one path of the walk gives: a failed stat, or its modification time. Directories
      and markdown files are looked at; other files are not. */
  datatype Entry = StatFailed | Directory(mtime: real) | Markdown(mtime: real) | OtherFile(mtime: real)

  predicate Seen(e: Entry) {
    e.Directory? || e.Markdown?
  }

  /** `_vault_max_mtime`: the newest time among the directories and markdown files, 0.0 when the tree
      is missing or empty. */
  method VaultMaxMtime(walk: seq<Entry>) returns (newest: real)
    ensures newest >= 0.0
    ensures forall i :: 0 <= i < |walk| && Seen(walk[i]) ==> walk[i].mtime <= newest
    ensures newest > 0.0 ==> exists i :: 0 <= i < |walk| && Seen(walk[i]) && walk[i].mtime == newest
  {
    newest := 0.0;
    for i := 0 to |walk|
      invariant newest >= 0.0
      invariant forall k :: 0 <= k < i && Seen(walk[k]) ==> walk[k].mtime <= newest
      invariant newest > 0.0 ==> exists k :: 0 <= k < i && Seen(walk[k]) && walk[k].mtime == newest
    {
      if Seen(walk[i]) && walk[i].mtime > newest {
        newest := walk[i].mtime;
      }
    }
  }

  // ---------------------------------------------------------------------------------------------
  // One poll, as the thread runs it
  // ---------------------------------------------------------------------------------------------

  datatype Timers = Timers(lastFull: real, lastSeen: real, cooldownUntil: real)

  const INITIAL := Timers(0.0, -1.0, 0.0)

  predicate DueFull(c: Config, t: Timers, now: real) {
    t.lastFull == 0.0 || (c.refreshHours > 0.0 && now - t.lastFull >= c.refreshHours * 3600.0)
  }

  predicate DueUpdate(c: Config, t: Timers, now: real, newest: real) {
    !DueFull(c, t, now) && newest > t.lastSeen && now >= t.cooldownUntil
  }

  /** The timers after a full refresh that began at `now`, ended at `done`, saw `newest` beforehand. */
  function AfterFull(c: Config, t: Timers, now: real, done: real, newest: real, ok: bool): Timers {
    Timers(now, if ok then newest else t.lastSeen, done + Cooldown(c, done - now))
  }

  function AfterUpdate(c: Config, t: Timers, now: real, done: real, newest: real, ok: bool): Timers {
    Timers(t.lastFull, if ok then newest else t.lastSeen, done + Cooldown(c, done - now))
  }

  /** The outside world of one poll: the two clock readings, the newest modification time observed
      before any refresh, and whether the refresh reports success. */
  datatype Poll = Poll(now: real, newest: real, done: real, ok: bool)

  function AfterPoll(c: Config, t: Timers, p: Poll): Timers {
    if DueFull(c, t, p.now) then AfterFull(c, t, p.now, p.done, p.newest, p.ok)
    else if DueUpdate(c, t, p.now, p.newest) then AfterUpdate(c, t, p.now, p.done, p.newest, p.ok)
    else t
  }

  /** The state dictionary of the maintainer thread. */
  class Maintainer {
    const config: Config
    var lastFull: real
    var lastSeen: real
    var cooldownUntil: real

    ghost function State(): Timers
      reads this
    {
      Timers(lastFull, lastSeen, cooldownUntil)
    }

    constructor (config: Config)
      ensures this.config == config && State() == INITIAL
    {
      this.config := config;
      lastFull, lastSeen, cooldownUntil := 0.0, -1.0, 0.0;
    }

    /** `_index_maintainer_step` */
    method Step(p: Poll)
      modifies this
      ensures State() == AfterPoll(config, old(State()), p)
    {
      var dueFull := config.refreshHours > 0.0 && p.now - lastFull >= config.refreshHours * 3600.0;
      if lastFull == 0.0 || dueFull {
        var seenBefore := p.newest;
        lastFull := p.now;
        cooldownUntil := p.done + Cooldown(config, p.done - p.now);
        if p.ok {
          lastSeen := seenBefore;
        }
        return;
      }
      var cur := p.newest;
      if cur > lastSeen && p.now >= cooldownUntil {
        cooldownUntil := p.done + Cooldown(config, p.done - p.now);
        if p.ok {
          lastSeen := cur;
        }
      }
    }
  }

  // ---------------------------------------------------------------------------------------------
  // Interleaving polls with writes
  // ---------------------------------------------------------------------------------------------

  /** Inside a poll: after the newest time was observed, and after the refresh began. `began` is the
      number of changes made before the refresh started to read the vault. */
  datatype Phase =
    | Idle
    | Observed(now: real, newest: real)
    | Refreshing(now: real, newest: real, began: nat)

  /** `changes` are the stamps of all writes so far, in order; `covered` of them were made before the
      start of some refresh that succeeded. */
  datatype World = World(timers: Timers, changes: seq<real>, phase: Phase, covered: nat, observedMax: real)

  datatype Event =
    | Write(stamp: real)
    | Observe(now: real)
    | Skip
    | Begin
    | Finish(done: real, ok: bool)

  function Newest(changes: seq<real>): real {
    if changes == [] then 0.0 else Max(Newest(changes[..|changes| - 1]), changes[|changes| - 1])
  }

  predicate Due(c: Config, w: World)
    requires w.phase.Observed?
  {
    DueFull(c, w.timers, w.phase.now) || DueUpdate(c, w.timers, w.phase.now, w.phase.newest)
  }

  /** Writes may happen at any moment, also between the observation and the refresh and during the
      refresh; their stamps are past every maximum observed so far. */
  predicate Possible(c: Config, w: World, e: Event) {
    match e
    case Write(stamp) => stamp > w.observedMax && stamp > 0.0
    case Observe(_) => w.phase == Idle
    case Skip => w.phase.Observed? && !Due(c, w)
    case Begin => w.phase.Observed? && Due(c, w)
    case Finish(_, _) => w.phase.Refreshing?
  }

  function Next(c: Config, w: World, e: Event): World
    requires Possible(c, w, e)
  {
    match e
    case Write(stamp) => w.(changes := w.changes + [stamp])
    case Observe(now) =>
      var newest := Newest(w.changes);
      w.(phase := Observed(now, newest), observedMax := Max(w.observedMax, newest))
    case Skip => w.(phase := Idle)
    case Begin => w.(phase := Refreshing(w.phase.now, w.phase.newest, |w.changes|))
    case Finish(done, ok) =>
      w.(timers := AfterPoll(c, w.timers, Poll(w.phase.now, w.phase.newest, done, ok)),
         covered := if ok then w.phase.began else w.covered,
         phase := Idle)
  }

  const START := World(INITIAL, [], Idle, 0, -1.0)

  ghost predicate IsRun(c: Config, worlds: seq<World>, events: seq<Event>) {
    && |worlds| == |events| + 1
    && worlds[0] == START
    && forall i :: 0 <= i < |events| ==>
        Possible(c, worlds[i], events[i]) && worlds[i + 1] == Next(c, worlds[i], events[i])
  }

  /** Every change stamped at or before `mark` is among the first `count`. */
  ghost predicate MarkCovers(changes: seq<real>, mark: real, count: nat) {
    forall i :: 0 <= i < |changes| && changes[i] <= mark ==> i < count
  }

  ghost predicate Inv(c: Config, w: World) {
    && w.covered <= |w.changes|
    && MarkCovers(w.changes, w.timers.lastSeen, w.covered)
    && w.timers.lastSeen <= w.observedMax <= Newest(w.changes)
    && (forall i :: 0 <= i < |w.changes| ==> w.changes[i] > 0.0)
    && match w.phase
       case Idle => true
       case Observed(now, newest) =>
         newest <= w.observedMax && w.timers.lastSeen <= newest
       case Refreshing(now, newest, began) =>
         && newest <= w.observedMax && w.timers.lastSeen <= newest && w.covered <= began <= |w.changes|
         && MarkCovers(w.changes, newest, began)
         && (DueFull(c, w.timers, now) || DueUpdate(c, w.timers, now, newest))
  }

  lemma {:induction false} NewestBounds(changes: seq<real>)
    ensures Newest(changes) >= 0.0
    ensures forall i :: 0 <= i < |changes| ==> changes[i] <= Newest(changes)
    decreases |changes|
  {
    if changes != [] { NewestBounds(changes[..|changes| - 1]); }
  }

  lemma WriteKeepsInv(c: Config, w: World, stamp: real)
    requires Inv(c, w) && Possible(c, w, Write(stamp))
    ensures Inv(c, Next(c, w, Write(stamp)))
  {
    var after := w.changes + [stamp];
    assert after[..|w.changes|] == w.changes;
  }

  lemma StepKeepsInv(c: Config, w: World, e: Event)
    requires Inv(c, w) && Possible(c, w, e)
    ensures Inv(c, Next(c, w, e))
    ensures w.covered <= Next(c, w, e).covered
  {
    NewestBounds(w.changes);
    if e.Write? {
      WriteKeepsInv(c, w, e.stamp);
    }
  }

  lemma {:induction false} RunKeepsInv(c: Config, worlds: seq<World>, events: seq<Event>, k: nat)
    requires IsRun(c, worlds, events) && k < |worlds|
    ensures Inv(c, worlds[k])
    decreases k
  {
    if k > 0 {
      RunKeepsInv(c, worlds, events, k - 1);
      StepKeepsInv(c, worlds[k - 1], events[k - 1]);
    }
  }

  /** No write is silently treated as indexed: in every interleaving of writes, failed refreshes and
      refreshes that succeed, each change stamped at or before `lastSeen` was made before the start of
      a refresh that succeeded. */
  lemma NothingSilentlyIndexed(c: Config, worlds: seq<World>, events: seq<Event>, k: nat, i: nat)
    requires IsRun(c, worlds, events) && k < |worlds|
    requires i < |worlds[k].changes| && worlds[k].changes[i] <= worlds[k].timers.lastSeen
    ensures i < worlds[k].covered
    ensures exists b :: 0 <= b < k && events[b].Finish? && events[b].ok && worlds[b].phase.Refreshing?
              && i < worlds[b].phase.began
  {
    RunKeepsInv(c, worlds, events, k);
    var b := CoveredBySuccess(c, worlds, events, k);
  }

  /** `covered` is the start of a refresh that succeeded. */
  lemma {:induction false} CoveredBySuccess(c: Config, worlds: seq<World>, events: seq<Event>, k: nat) returns (b: nat)
    requires IsRun(c, worlds, events) && k < |worlds| && worlds[k].covered > 0
    ensures b < k && events[b].Finish? && events[b].ok && worlds[b].phase.Refreshing?
              && worlds[b].phase.began == worlds[k].covered
    decreases k
  {
    var e := events[k - 1];
    assert worlds[k] == Next(c, worlds[k - 1], e);
    if e.Finish? && e.ok {
      b := k - 1;
    } else {
      b := CoveredBySuccess(c, worlds, events, k - 1);
    }
  }

  ghost predicate Pending(w: World, i: nat) {
    i < |w.changes| && w.changes[i] > w.timers.lastSeen
  }

  /** A pending change stays pending until a refresh succeeds. */
  lemma {:induction false} PendingUntilSuccess(c: Config, worlds: seq<World>, events: seq<Event>, lo: nat, hi: nat,
                                               i: nat)
    requires IsRun(c, worlds, events) && lo <= hi < |worlds|
    requires Pending(worlds[lo], i)
    requires forall k :: lo <= k < hi ==> !(events[k].Finish? && events[k].ok)
    ensures Pending(worlds[hi], i)
    decreases hi
  {
    if lo < hi {
      PendingUntilSuccess(c, worlds, events, lo, hi - 1, i);
      assert worlds[hi] == Next(c, worlds[hi - 1], events[hi - 1]);
    }
  }

  /** And it is not overlooked: the first poll past the cooldown starts a refresh for it. */
  lemma PendingIsPickedUp(c: Config, worlds: seq<World>, events: seq<Event>, k: nat, i: nat)
    requires IsRun(c, worlds, events) && k < |events| && events[k].Observe?
    requires Pending(worlds[k], i) && events[k].now >= worlds[k].timers.cooldownUntil
    ensures worlds[k + 1].phase.Observed? && Due(c, worlds[k + 1])
  {
    NewestBounds(worlds[k].changes);
    assert worlds[k + 1] == Next(c, worlds[k], events[k]);
  }

  // ---------------------------------------------------------------------------------------------
  // The share of time spent indexing
  // ---------------------------------------------------------------------------------------------

  /** Successive polls of one thread: the clock never steps back. */
  ghost predicate ClockMonotone(polls: seq<Poll>) {
    && (forall i :: 0 <= i < |polls| ==> polls[i].now <= polls[i].done)
    && (forall i, j :: 0 <= i < j < |polls| ==> polls[i].done <= polls[j].now)
  }

  /** The timers before each poll, and after the last. */
  ghost predicate IsPolling(c: Config, timers: seq<Timers>, polls: seq<Poll>) {
    && |timers| == |polls| + 1
    && forall i :: 0 <= i < |polls| ==> timers[i + 1] == AfterPoll(c, timers[i], polls[i])
  }

  predicate Indexes(c: Config, t: Timers, p: Poll) {
    DueFull(c, t, p.now) || DueUpdate(c, t, p.now, p.newest)
  }

  /** Time spent refreshing in the polls from `a` up to `b`. */
  ghost function Busy(c: Config, timers: seq<Timers>, polls: seq<Poll>, a: nat, b: nat): real
    requires a <= b <= |polls| <= |timers|
    decreases b
  {
    if a == b then 0.0
    else Busy(c, timers, polls, a, b - 1) +
         if Indexes(c, timers[b - 1], polls[b - 1]) then polls[b - 1].done - polls[b - 1].now else 0.0
  }

  lemma {:induction false} CooldownAccumulates(c: Config, timers: seq<Timers>, polls: seq<Poll>, a: nat, b: nat)
    requires IsPolling(c, timers, polls) && ClockMonotone(polls) && a < b <= |polls|
    requires Indexes(c, timers[a], polls[a])
    requires forall i :: a < i < b ==> !DueFull(c, timers[i], polls[i].now)
    ensures timers[b].cooldownUntil >= polls[a].now + (1.0 + DUTY) * Busy(c, timers, polls, a, b)
    decreases b
  {
    assert timers[b] == AfterPoll(c, timers[b - 1], polls[b - 1]);
    if b - 1 > a {
      CooldownAccumulates(c, timers, polls, a, b - 1);
    } else {
      assert Busy(c, timers, polls, a, a) == 0.0;
    }
  }

  /** From one refresh to a later change-triggered one, with no periodic full refresh between them,
      refreshing took at most a `1/(1 + DUTY)` share of the elapsed time. */
  lemma DutyBound(c: Config, timers: seq<Timers>, polls: seq<Poll>, a: nat, b: nat)
    requires IsPolling(c, timers, polls) && ClockMonotone(polls) && a < b < |polls|
    requires Indexes(c, timers[a], polls[a])
    requires forall i :: a < i < b ==> !DueFull(c, timers[i], polls[i].now)
    requires DueUpdate(c, timers[b], polls[b].now, polls[b].newest)
    ensures polls[b].now - polls[a].now >= (1.0 + DUTY) * Busy(c, timers, polls, a, b)
  {
    CooldownAccumulates(c, timers, polls, a, b);
  }

  /** And an update starts no sooner than the configured minimum after the refresh before it ended. */
  lemma {:induction false} MinimumGap(c: Config, timers: seq<Timers>, polls: seq<Poll>, a: nat, b: nat)
    requires IsPolling(c, timers, polls) && a < b < |polls|
    requires Indexes(c, timers[a], polls[a])
    requires forall i :: a < i < b ==> !Indexes(c, timers[i], polls[i])
    requires DueUpdate(c, timers[b], polls[b].now, polls[b].newest)
    ensures polls[b].now >= polls[a].done + c.minUpdateSeconds
  {
    TimersHold(c, timers, polls, a + 1, b);
    assert timers[a + 1] == AfterPoll(c, timers[a], polls[a]);
  }

  lemma {:induction false} TimersHold(c: Config, timers: seq<Timers>, polls: seq<Poll>, a: nat, b: nat)
    requires IsPolling(c, timers, polls) && a <= b < |timers|
    requires forall i :: a <= i < b ==> !Indexes(c, timers[i], polls[i])
    ensures timers[b] == timers[a]
    decreases b
  {
    if a < b {
      TimersHold(c, timers, polls, a, b - 1);
      assert timers[b] == AfterPoll(c, timers[b - 1], polls[b - 1]);
    }
  }

  /** Whether a poll refreshes next is decided by the last one that did: the vault must hold something
      newer than it marked (its own observation if it succeeded), and the wait after it must be over, the
      configured minimum and three times what it took. */
  lemma RefreshesAgainIff(c: Config, timers: seq<Timers>, polls: seq<Poll>, a: nat, b: nat)
    requires IsPolling(c, timers, polls) && a < b < |polls|
    requires Indexes(c, timers[a], polls[a])
    requires forall i :: a < i < b ==> !Indexes(c, timers[i], polls[i])
    requires !DueFull(c, timers[b], polls[b].now)
    ensures Indexes(c, timers[b], polls[b]) <==>
              && polls[b].newest > (if polls[a].ok then polls[a].newest else timers[a].lastSeen)
              && polls[b].now - polls[a].done >= c.minUpdateSeconds
              && polls[b].now - polls[a].done >= 3.0 * (polls[a].done - polls[a].now)
  {
    TimersHold(c, timers, polls, a + 1, b);
    assert timers[a + 1] == AfterPoll(c, timers[a], polls[a]);
  }

  // ---------------------------------------------------------------------------------------------
  // Periodic full refreshes
  // ---------------------------------------------------------------------------------------------

  predicate Full(c: Config, timers: seq<Timers>, polls: seq<Poll>, i: nat)
    requires i < |polls| <= |timers|
  {
    DueFull(c, timers[i], polls[i].now)
  }

  /** `i` is the last full refresh before `b`. */
  ghost predicate LastFull(c: Config, timers: seq<Timers>, polls: seq<Poll>, i: nat, b: nat)
    requires b <= |polls| <= |timers|
  {
    i < b && Full(c, timers, polls, i) && forall k :: i < k < b ==> !Full(c, timers, polls, k)
  }

  lemma {:induction false} LastFullIsKept(c: Config, timers: seq<Timers>, polls: seq<Poll>, b: nat) returns (i: nat)
    requires IsPolling(c, timers, polls) && timers[0] == INITIAL && 0 < b <= |polls|
    ensures LastFull(c, timers, polls, i, b) && timers[b].lastFull == polls[i].now
    decreases b
  {
    assert timers[b] == AfterPoll(c, timers[b - 1], polls[b - 1]);
    if Full(c, timers, polls, b - 1) {
      i := b - 1;
    } else {
      i := LastFullIsKept(c, timers, polls, b - 1);
    }
  }

  lemma OneLastFull(c: Config, timers: seq<Timers>, polls: seq<Poll>, a: nat, i: nat, b: nat)
    requires b <= |polls| <= |timers| && LastFull(c, timers, polls, a, b) && LastFull(c, timers, polls, i, b)
    ensures a == i
  {
  }

  /** The first poll is a full refresh. A later one is, exactly when the configured period has passed
      since the last began, or that one began at clock zero. */
  lemma FullRefreshIff(c: Config, timers: seq<Timers>, polls: seq<Poll>, a: nat, b: nat)
    requires IsPolling(c, timers, polls) && timers[0] == INITIAL && b < |polls|
    requires LastFull(c, timers, polls, a, b)
    ensures Full(c, timers, polls, 0)
    ensures Full(c, timers, polls, b) <==>
              || polls[a].now == 0.0
              || (c.refreshHours > 0.0 && polls[b].now - polls[a].now >= c.refreshHours * 3600.0)
  {
    var i := LastFullIsKept(c, timers, polls, b);
    OneLastFull(c, timers, polls, a, i, b);
  }

  /** With a period configured, every poll is a full refresh or follows one that began less than a period
      before it. */
  lemma FullRefreshFallsDue(c: Config, timers: seq<Timers>, polls: seq<Poll>, b: nat)
    requires IsPolling(c, timers, polls) && timers[0] == INITIAL && b < |polls| && c.refreshHours > 0.0
    ensures Full(c, timers, polls, b)
            || exists a ::
                0 <= a < b && Full(c, timers, polls, a) && polls[b].now - polls[a].now < c.refreshHours * 3600.0
  {
    if b > 0 {
      var a := LastFullIsKept(c, timers, polls, b);
      FullRefreshIff(c, timers, polls, a, b);
    }
  }
}
