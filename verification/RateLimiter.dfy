/** The reader's request limiter, `okengine-reader/limits.py`, against the full history of the
    requests it admitted. Clock readings are real numbers. */
module RateLimiter {

  const WINDOW := 60.0
  const MAX_KEYS := 4096

  type Times = seq<real>
  type Hits = map<string, Times>

  /** `[t for t in times if t > cutoff]` */
  function Recent(times: Times, cutoff: real): (r: Times)
    ensures |r| <= |times|
    ensures forall t :: t in r <==> t in times && t > cutoff
  {
    if times == [] then []
    else
      var n := |times| - 1;
      var rest := Recent(times[..n], cutoff);
      if times[n] > cutoff then rest + [times[n]] else rest
  }

  /** `_hits.get(key, ())` */
  function HitsOf(hits: Hits, key: string): Times {
    if key in hits then hits[key] else []
  }

  // ---------------------------------------------------------------------------------------------
  // The specification: remember every admission
  // ---------------------------------------------------------------------------------------------

  type History = map<string, Times>

  /** The answer a limiter that forgets nothing gives. */
  predicate Admits(perMin: int, history: History, key: string, now: real) {
    perMin <= 0 || |Recent(HitsOf(history, key), now - WINDOW)| < perMin
  }

  function Admit(history: History, key: string, now: real): History {
    history[key := HitsOf(history, key) + [now]]
  }

  /** The history after one request. A disabled limiter keeps none. */
  function After(perMin: int, history: History, key: string, now: real): History {
    if perMin > 0 && Admits(perMin, history, key, now) then Admit(history, key, now) else history
  }

  // ---------------------------------------------------------------------------------------------
  // Pruning is invisible
  // ---------------------------------------------------------------------------------------------

  lemma {:induction false} RecentAppend(a: Times, t: real, cutoff: real)
    ensures Recent(a + [t], cutoff) == if t > cutoff then Recent(a, cutoff) + [t] else Recent(a, cutoff)
  {
    assert (a + [t])[..|a|] == a;
  }

  /** Dropping what is already too old changes nothing a later, higher cutoff can see. */
  lemma {:induction false} RecentOfRecent(times: Times, low: real, high: real)
    requires low <= high
    ensures Recent(Recent(times, low), high) == Recent(times, high)
    decreases |times|
  {
    if times != [] {
      var n := |times| - 1;
      RecentOfRecent(times[..n], low, high);
      if times[n] > low { RecentAppend(Recent(times[..n], low), times[n], high); }
    }
  }

  lemma {:induction false} RecentNone(times: Times, cutoff: real)
    requires forall i :: 0 <= i < |times| ==> times[i] <= cutoff
    ensures Recent(times, cutoff) == []
    decreases |times|
  {
    if times != [] { RecentNone(times[..|times| - 1], cutoff); }
  }

  /** `hits` answers every request from time `now` on as the full history would. */
  ghost predicate Represents(hits: Hits, history: History, now: real) {
    forall k :: Recent(HitsOf(hits, k), now - WINDOW) == Recent(HitsOf(history, k), now - WINDOW)
  }

  lemma RepresentsLater(hits: Hits, history: History, now: real, later: real)
    requires Represents(hits, history, now) && now <= later
    ensures Represents(hits, history, later)
  {
    forall k ensures Recent(HitsOf(hits, k), later - WINDOW) == Recent(HitsOf(history, k), later - WINDOW) {
      RecentOfRecent(HitsOf(hits, k), now - WINDOW, later - WINDOW);
      RecentOfRecent(HitsOf(history, k), now - WINDOW, later - WINDOW);
    }
  }

  lemma RepresentsPruned(hits: Hits, history: History, key: string, now: real)
    requires Represents(hits, history, now)
    ensures Represents(hits[key := Recent(HitsOf(hits, key), now - WINDOW)], history, now)
  {
    RecentOfRecent(HitsOf(hits, key), now - WINDOW, now - WINDOW);
  }

  lemma PrunedThenExtended(a: Times, b: Times, now: real, low: real)
    requires Recent(a, low) == Recent(b, low)
    ensures Recent(Recent(a, low) + [now], low) == Recent(b + [now], low)
  {
    RecentOfRecent(a, low, low);
    RecentAppend(Recent(a, low), now, low);
    RecentAppend(b, now, low);
  }

  lemma RepresentsAdmitted(hits: Hits, history: History, key: string, now: real)
    requires Represents(hits, history, now)
    ensures Represents(hits[key := Recent(HitsOf(hits, key), now - WINDOW) + [now]], Admit(history, key, now), now)
  {
    hide Recent;
    var low := now - WINDOW;
    PrunedThenExtended(HitsOf(hits, key), HitsOf(history, key), now, low);
    forall k ensures Recent(HitsOf(hits[key := Recent(HitsOf(hits, key), low) + [now]], k), low)
                  == Recent(HitsOf(Admit(history, key, now), k), low) {
      assert Recent(HitsOf(hits, k), low) == Recent(HitsOf(history, k), low);
    }
  }

  predicate Idle(times: Times, cutoff: real) {
    !exists t :: t in times && t > cutoff
  }

  lemma RepresentsEvicted(hits: Hits, idle: set<string>, history: History, now: real)
    requires Represents(hits, history, now)
    requires forall k :: k in idle ==> k in hits && Idle(hits[k], now - WINDOW)
    ensures Represents(hits - idle, history, now)
  {
    forall k ensures Recent(HitsOf(hits - idle, k), now - WINDOW) == Recent(HitsOf(history, k), now - WINDOW) {
      if k in idle {
        forall i | 0 <= i < |hits[k]| ensures hits[k][i] <= now - WINDOW {
          assert hits[k][i] in hits[k];
        }
        RecentNone(hits[k], now - WINDOW);
      }
    }
  }

  // ---------------------------------------------------------------------------------------------
  // The limiter
  // ---------------------------------------------------------------------------------------------

  class Limiter {
    const perMin: int
    var hits: Hits
    /** Every admission so far, and the last clock reading: what the object refines. */
    ghost var history: History
    ghost var clock: real

    ghost predicate Valid()
      reads this
    {
      Represents(hits, history, clock)
    }

    constructor (perMin: int, ghost start: real)
      ensures Valid() && this.perMin == perMin && hits == map[] && history == map[] && clock == start
    {
      this.perMin := perMin;
      hits := map[];
      history := map[];
      clock := start;
    }

    /** `allow`, one call under the lock. It answers as if every admission were still remembered;
        after an eviction pass every key left has a hit in the last minute. */
    method Allow(key: string, now: real) returns (allowed: bool)
      requires Valid()
      requires clock <= now
      modifies this
      ensures Valid()
      ensures allowed == Admits(perMin, old(history), key, now)
      ensures history == After(perMin, old(history), key, now)
      ensures clock == if perMin > 0 then now else old(clock)
      ensures perMin <= 0 ==> hits == old(hits)
      ensures perMin > 0 && allowed && |old(hits).Keys + {key}| > MAX_KEYS ==>
                forall k :: k in hits ==> !Idle(hits[k], now - WINDOW)
    {
      if perMin <= 0 {
        return true;
      }
      RepresentsLater(hits, history, clock, now);
      clock := now;
      var cutoff := now - WINDOW;
      var recent := Recent(HitsOf(hits, key), cutoff);
      if |recent| >= perMin {
        RepresentsPruned(hits, history, key, now);
        hits := hits[key := recent];
        return false;
      }
      RepresentsAdmitted(hits, history, key, now);
      history := Admit(history, key, now);
      hits := hits[key := recent + [now]];
      assert hits.Keys == old(hits).Keys + {key};
      assert |hits| == |hits.Keys|;
      if |hits| > MAX_KEYS {
        var idle := set k | k in hits && Idle(hits[k], cutoff);
        RepresentsEvicted(hits, idle, history, now);
        hits := hits - idle;
      }
      return true;
    }
  }

  // ---------------------------------------------------------------------------------------------
  // What the limit guarantees over any run
  // ---------------------------------------------------------------------------------------------

  datatype Request = Request(key: string, now: real)

  ghost predicate ClockMonotone(requests: seq<Request>) {
    forall i, j :: 0 <= i < j < |requests| ==> requests[i].now <= requests[j].now
  }

  /** The admissions after a run of requests, each answered by the full-history rule. */
  ghost function Run(perMin: int, requests: seq<Request>): History {
    if requests == [] then map[]
    else
      var n := |requests| - 1;
      After(perMin, Run(perMin, requests[..n]), requests[n].key, requests[n].now)
  }

  ghost predicate SortedTimes(times: Times) {
    forall i, j :: 0 <= i < j < |times| ==> times[i] <= times[j]
  }

  /** Any `perMin + 1` consecutive admissions span at least a minute. */
  ghost predicate Spaced(perMin: nat, times: Times) {
    SortedTimes(times) && forall i :: 0 <= i < |times| - perMin ==> times[i + perMin] - times[i] >= WINDOW
  }

  /** If the i-th of sorted times is recent, so are all after it. */
  lemma {:induction false} RecentAtLeast(times: Times, i: nat, cutoff: real)
    requires SortedTimes(times) && i < |times| && times[i] > cutoff
    ensures |Recent(times, cutoff)| >= |times| - i
    decreases |times|
  {
    var n := |times| - 1;
    if i < n {
      assert times[i] <= times[n];
      RecentAtLeast(times[..n], i, cutoff);
    }
  }

  /** If the j-th of sorted times is not recent, neither is any before it. */
  lemma {:induction false} RecentAtMost(times: Times, j: nat, cutoff: real)
    requires SortedTimes(times) && j < |times| && times[j] <= cutoff
    ensures |Recent(times, cutoff)| < |times| - j
    decreases |times|
  {
    var n := |times| - 1;
    if j < n {
      RecentAtMost(times[..n], j, cutoff);
    } else {
      forall i | 0 <= i <= n ensures times[i] <= cutoff {
        if i < n { assert times[i] <= times[n]; }
      }
      RecentNone(times, cutoff);
    }
  }

  lemma SpacedOneMore(perMin: nat, times: Times, now: real)
    requires perMin > 0 && Spaced(perMin, times)
    requires forall t :: t in times ==> t <= now
    requires |Recent(times, now - WINDOW)| < perMin
    ensures Spaced(perMin, times + [now])
  {
    hide Recent;
    var more := times + [now];
    var n := |times|;
    forall i | 0 <= i < |more| - perMin ensures more[i + perMin] - more[i] >= WINDOW {
      if i + perMin < n {
        assert times[i + perMin] - times[i] >= WINDOW;
      } else if times[i] > now - WINDOW {
        RecentAtLeast(times, i, now - WINDOW);
      }
    }
    forall i, j | 0 <= i < j < |more| ensures more[i] <= more[j] {
      if j == n { assert times[i] in times; }
    }
  }

  lemma UnspacedOneMore(perMin: nat, times: Times, now: real)
    requires perMin > 0 && SortedTimes(times) && |Recent(times, now - WINDOW)| >= perMin
    ensures !Spaced(perMin, times + [now])
  {
    hide Recent;
    var j := |times| - perMin;
    var more := times + [now];
    if times[j] <= now - WINDOW {
      RecentAtMost(times, j, now - WINDOW);
    }
    assert more[j] == times[j] && more[j + perMin] == now;
  }

  lemma AdmitsSpaced(perMin: nat, history: History, key: string, now: real)
    requires perMin > 0 && Spaced(perMin, HitsOf(history, key))
    requires forall t :: t in HitsOf(history, key) ==> t <= now
    ensures Admits(perMin, history, key, now) <==> Spaced(perMin, HitsOf(history, key) + [now])
  {
    if Admits(perMin, history, key, now) {
      SpacedOneMore(perMin, HitsOf(history, key), now);
    } else {
      UnspacedOneMore(perMin, HitsOf(history, key), now);
    }
  }

  lemma AfterHolds(perMin: nat, history: History, r: Request, key: string)
    requires perMin > 0
    ensures HitsOf(After(perMin, history, r.key, r.now), key)
         == HitsOf(history, key) + if key == r.key && Admits(perMin, history, key, r.now) then [r.now] else []
  {
    hide Recent;
  }

  /** No request is refused that the limit would bear: after any run the limiter admits one exactly when
      the admissions of its key, with this one, still keep every `perMin + 1` in a row a minute apart; and
      then the key has this one more, and no other key any. */
  lemma AdmitsIff(perMin: nat, requests: seq<Request>, key: string)
    requires perMin > 0 && ClockMonotone(requests) && requests != []
    ensures var n := |requests| - 1;
            var history, r := Run(perMin, requests[..n]), requests[n];
            && (Admits(perMin, history, r.key, r.now) <==> Spaced(perMin, HitsOf(history, r.key) + [r.now]))
            && HitsOf(Run(perMin, requests), key)
                 == HitsOf(history, key)
                    + if key == r.key && Spaced(perMin, HitsOf(history, key) + [r.now]) then [r.now] else []
  {
    hide *;
    var n := |requests| - 1;
    var history, r := Run(perMin, requests[..n]), requests[n];
    EarlierTimes(perMin, requests);
    AdmitsSpaced(perMin, history, r.key, r.now);
    AfterHolds(perMin, history, r, key);
    RunOneMore(perMin, requests);
  }

  lemma EarlierTimes(perMin: nat, requests: seq<Request>)
    requires perMin > 0 && ClockMonotone(requests) && requests != []
    ensures var n := |requests| - 1;
            var times := HitsOf(Run(perMin, requests[..n]), requests[n].key);
            Spaced(perMin, times) && forall t :: t in times ==> t <= requests[n].now
  {
    var n := |requests| - 1;
    RunIsSpaced(perMin, requests[..n], requests[n].key);
    hide Run, Spaced;
    if n > 0 {
      assert requests[n - 1].now <= requests[n].now;
      assert requests[..n][n - 1] == requests[n - 1];
    } else {
      NoneYet(perMin, requests[..n]);
    }
  }

  lemma NoneYet(perMin: nat, requests: seq<Request>)
    requires requests == []
    ensures Run(perMin, requests) == map[]
  {
  }

  lemma RunOneMore(perMin: nat, requests: seq<Request>)
    requires requests != []
    ensures var n := |requests| - 1;
            Run(perMin, requests) == After(perMin, Run(perMin, requests[..n]), requests[n].key, requests[n].now)
  {
  }

  /** Over any run with a clock that does not step back, no key gets more than `perMin` admissions
      into less than a minute. */
  lemma {:induction false} RunIsSpaced(perMin: nat, requests: seq<Request>, key: string)
    requires perMin > 0 && ClockMonotone(requests)
    ensures Spaced(perMin, HitsOf(Run(perMin, requests), key))
    ensures requests != [] ==> forall t :: t in HitsOf(Run(perMin, requests), key) ==> t <= requests[|requests| - 1].now
    decreases |requests|
  {
    hide Spaced, Recent;
    if requests == [] {
      NoTimesSpaced(perMin);
    } else {
      var n := |requests| - 1;
      RunIsSpaced(perMin, requests[..n], key);
      var before := Run(perMin, requests[..n]);
      if n > 0 { assert requests[n - 1].now <= requests[n].now; }
      AfterKeepsSpaced(perMin, before, requests[n], key);
    }
  }

  lemma NoTimesSpaced(perMin: nat)
    ensures Spaced(perMin, [])
  {
  }

  lemma AfterKeepsSpaced(perMin: nat, history: History, r: Request, key: string)
    requires perMin > 0 && Spaced(perMin, HitsOf(history, key))
    requires forall t :: t in HitsOf(history, key) ==> t <= r.now
    ensures Spaced(perMin, HitsOf(After(perMin, history, r.key, r.now), key))
    ensures forall t :: t in HitsOf(After(perMin, history, r.key, r.now), key) ==> t <= r.now
  {
    hide Spaced, Recent;
    if r.key == key && Admits(perMin, history, key, r.now) {
      SpacedOneMore(perMin, HitsOf(history, key), r.now);
    }
  }

  /** The times in the half-open interval `(low, high]`. */
  ghost function InWindow(times: Times, low: real, high: real): Times {
    if times == [] then []
    else
      var n := |times| - 1;
      var rest := InWindow(times[..n], low, high);
      if low < times[n] <= high then rest + [times[n]] else rest
  }

  lemma {:induction false} InWindowBounded(times: Times, low: real, high: real)
    ensures |InWindow(times, low, high)| <= |Recent(times, low)|
    decreases |times|
  {
    if times != [] { InWindowBounded(times[..|times| - 1], low, high); }
  }

  /** Any half-open minute holds at most `perMin` admissions of a key. */
  lemma {:induction false} AtMostPerMinute(perMin: nat, times: Times, low: real)
    requires perMin > 0 && Spaced(perMin, times)
    ensures |InWindow(times, low, low + WINDOW)| <= perMin
    decreases |times|
  {
    if times != [] {
      var n := |times| - 1;
      if times[n] > low + WINDOW {
        assert Spaced(perMin, times[..n]);
        AtMostPerMinute(perMin, times[..n], low);
      } else {
        InWindowBounded(times, low, low + WINDOW);
        if perMin <= n {
          var j := n - perMin;
          assert times[j + perMin] - times[j] >= WINDOW;
          RecentAtMost(times, j, low);
        }
      }
    }
  }

  /** A closed minute can hold more: a request exactly 60 s after another no longer sees it. */
  lemma ClosedMinuteHoldsTwo()
    ensures HitsOf(Run(1, [Request("k", 0.0), Request("k", 60.0)]), "k") == [0.0, 60.0]
  {
    var one := [Request("k", 0.0)];
    var two := [Request("k", 0.0), Request("k", 60.0)];
    assert one[..0] == [] && two[..1] == one;
    assert Run(1, one) == After(1, Run(1, []), "k", 0.0);
    assert Run(1, two) == After(1, Run(1, one), "k", 60.0);
    assert Run(1, []) == map[];
    hide Run;
    FirstAdmission();
    SecondAdmission();
  }

  lemma FirstAdmission()
    ensures After(1, map[], "k", 0.0) == map["k" := [0.0]]
  {
    assert HitsOf(map[], "k") == [] && Recent([], -60.0) == [];
    assert [] + [0.0] == [0.0];
  }

  lemma SecondAdmission()
    ensures After(1, map["k" := [0.0]], "k", 60.0) == map["k" := [0.0, 60.0]]
  {
    assert HitsOf(map["k" := [0.0]], "k") == [0.0];
    assert Recent([0.0], 0.0) == [] by { assert [0.0][..0] == []; }
    assert [0.0] + [60.0] == [0.0, 60.0];
  }
}
