/** Additive writes lose nothing: what merging the gate's payload can and cannot do to a page, for
    any caller, even the page's owner. */
module AdditiveSafety {
  import opened AdditiveGate
  import opened Converge
  import opened ConvergeHistory
  import opened Values

  /** Keys no additive write touches once the page holds them. */
  predicate Fixed(key: string) {
    key in NO_ADD_KEYS || key == "id" || key in DISPLAY_KEYS || key in PROVENANCE_KEYS
  }

  /** `maintained_by`, which the merge stamps. */
  predicate Stamped(key: string) {
    key == "maintained_by"
  }

  lemma KindsOfKeys(key: string)
    ensures Fixed(key) ==> key !in CITATION_KEYS && key != RAW && !Stamped(key) && key != ALIASES
    ensures Stamped(key) ==> key !in CITATION_KEYS && key != RAW
    ensures key == RAW ==> key !in CITATION_KEYS
  {
  }

  /** How a held value may come out of additive writes. Lists extend at the end, a legacy alias string
      may become a list starting with its parts, `raw` and `maintained_by` extend as the lists they are
      read as, and everything else is as it was. */
  ghost predicate Kept(h: Hooks, key: string, before: Value, after: Option<Value>) {
    && after.Some?
    && (Empty(after.value) ==> Empty(before) || key == RAW)
    && if Fixed(key) then after.value == before
       else if key == RAW then AsList(before) <= AsList(after.value)
       else if Stamped(key) then Maintainers(Some(before)) <= Maintainers(after)
       else if before.List? then after.value.List? && before.items <= after.value.items
       else after.value == before || (key == ALIASES && after.value.List? && h.parts(before) <= after.value.items)
  }

  /** `payload` holds only keys the payload of `prev` and `incoming` holds, with their values. */
  ghost predicate Within(payload: Frontmatter, whole: Frontmatter) {
    forall k :: k in payload ==> k in whole && payload[k] == whole[k]
  }

  /** `seen` is the page as the gate compares it: a canonical key may stand beside the held ones, and
      every held key has its value. */
  ghost predicate Shows(seen: Frontmatter, prev: Frontmatter) {
    forall k :: k in prev ==> k in seen && seen[k] == prev[k]
  }

  // ---------------------------------------------------------------------------------------------
  // One additive write
  // ---------------------------------------------------------------------------------------------

  lemma NeverPassed(h: Hooks, seen: Frontmatter, incoming: Frontmatter, key: string)
    requires key in NO_ADD_KEYS || key == "id" || (key in DISPLAY_KEYS && key in seen && !Empty(seen[key]))
    ensures key !in Payload(h, seen, incoming)
  {
  }

  lemma PassedExtends(h: Hooks, seen: Frontmatter, incoming: Frontmatter, key: string)
    requires key in Payload(h, seen, incoming) && key in seen && !Empty(seen[key]) && key != RAW
    ensures var passed := Payload(h, seen, incoming)[key];
            && passed.List?
            && passed.items != []
            && if seen[key].List? then seen[key].items <= passed.items
               else key == ALIASES && h.parts(seen[key]) <= passed.items
  {
  }

  /** Merging any part of the payload keeps every value the page holds. */
  lemma PayloadLosesNothing(rules: Rules, h: Hooks, prev: Frontmatter, seen: Frontmatter, incoming: Frontmatter,
                            payload: Frontmatter, caller: Pack, key: string)
    requires Shows(seen, prev) && Within(payload, Payload(h, seen, incoming))
    requires key in prev && (key == RAW || !Empty(prev[key]))
    requires key == RAW ==> LoneCaptureIsPlain(rules, prev, Call(payload, caller, []))
    ensures Kept(h, key, prev[key], Held(Merge(rules, prev, Call(payload, caller, [])), key))
  {
    var c := Call(payload, caller, []);
    if key in payload && key != RAW {
      PassedExtends(h, seen, incoming, key);
    }
    if Fixed(key) && key !in PROVENANCE_KEYS {
      NeverPassed(h, seen, incoming, key);
    }
    assert key in payload && key != RAW ==> Extended(h, key, prev[key], payload[key]);
    hide *;
    if key == RAW {
      RawKept(rules, h, prev, c);
    } else {
      MergedKept(rules, h, prev, c, key);
    }
  }

  ghost predicate Extended(h: Hooks, key: string, before: Value, passed: Value) {
    && passed.List?
    && passed.items != []
    && if before.List? then before.items <= passed.items else key == ALIASES && h.parts(before) <= passed.items
  }

  /** Merging a key that only extends what is held, or is not sent at all. */
  lemma MergedKept(rules: Rules, h: Hooks, prev: Frontmatter, c: Call, key: string)
    requires key in prev && key != RAW && c.remove == []
    requires key in c.incoming ==>
              (Fixed(key) ==> key in PROVENANCE_KEYS) && Extended(h, key, prev[key], c.incoming[key])
    ensures Kept(h, key, prev[key], Held(Merge(rules, prev, c), key))
  {
    KindsOfKeys(key);
    HeldThroughMerge(rules, prev, c, key);
    hide Merge, Fixed, Stamped, AllCited, OnePerTarget, Maintainers, AsList;
    if Stamped(key) {
      MaintainersExtend(h, key, prev[key], Get(c.incoming, key));
    } else if key in CITATION_KEYS && prev[key].List? {
      CitationsAfterMerge(rules, prev, c, key);
    }
  }

  lemma MaintainersExtend(h: Hooks, key: string, before: Value, passed: Value)
    ensures Stamped(key) && Extended(h, key, before, passed) ==> Maintainers(Some(before)) <= Maintainers(Some(passed))
  {
  }

  /** A held value through a merge that removes nothing: it is kept, or the incoming one stands. */
  lemma HeldThroughMerge(rules: Rules, prev: Frontmatter, c: Call, key: string)
    requires key in prev && c.remove == []
    ensures var after := Held(Merge(rules, prev, c), key);
            && (Stamped(key) ==>
                  Maintainers(Some(if key in c.incoming then c.incoming[key] else prev[key])) <= Maintainers(after)
                  && (after == Some(prev[key]) || (key in c.incoming && after == Some(c.incoming[key]))
                      || (after.Some? && after.value.List? && after.value.items != [])))
            && (key in PROVENANCE_KEYS || (key !in c.incoming && !Stamped(key)) ==> after == Some(prev[key]))
            && (key != RAW && !Stamped(key) && (key in CITATION_KEYS ==> !prev[key].List?) ==>
                  after == Some(prev[key]) || (key in c.incoming && after == Some(c.incoming[key])))
  {
    MergeLookup(rules, prev, c, key);
    hide Merge, Additions, AppendOnlyUnion, Owns;
  }

  lemma RawKept(rules: Rules, h: Hooks, prev: Frontmatter, c: Call)
    requires RAW in prev && c.remove == [] && LoneCaptureIsPlain(rules, prev, c)
    ensures Kept(h, RAW, prev[RAW], Held(Merge(rules, prev, c), RAW))
  {
    MergeLookup(rules, prev, c, RAW);
    KindsOfKeys(RAW);
    if RAW in c.incoming {
      UnionKeepsBothIff(prev[RAW], c.incoming[RAW]);
    }
    hide Merge, Fixed, Stamped, UnionItems, AppendOnlyUnion, AsList, Plain;
  }

  /** Page-deciding keys are not even added: absent or empty, they stay as they were. */
  lemma NeverAdded(rules: Rules, h: Hooks, prev: Frontmatter, seen: Frontmatter, incoming: Frontmatter,
                   payload: Frontmatter, caller: Pack, key: string)
    requires Within(payload, Payload(h, seen, incoming))
              && (key in NO_ADD_KEYS || key in PROVENANCE_KEYS || key == "id")
    ensures Held(Merge(rules, prev, Call(payload, caller, [])), key) == Held(prev, key)
  {
    MergeLookup(rules, prev, Call(payload, caller, []), key);
    if key !in PROVENANCE_KEYS {
      NeverPassed(h, seen, incoming, key);
    }
  }

  /** A page gains an alias only if the write path vetted it: it is no blank, the page does not answer
      to it already, and no other live page does. */
  lemma AliasesAreVetted(rules: Rules, h: Hooks, prev: Frontmatter, incoming: Frontmatter, caller: Pack, a: Value)
    requires var after := Held(Merge(rules, prev, Call(Payload(h, prev, incoming), caller, [])), ALIASES);
             && after.Some? && after.value.List? && a in after.value.items
    ensures a in HeldAliases(h, prev) || Vetted(h, prev, a)
  {
    var payload := Payload(h, prev, incoming);
    MergeLookup(rules, prev, Call(payload, caller, []), ALIASES);
    hide Merge, Vetted, Owns;
  }

  // ---------------------------------------------------------------------------------------------
  // What a write adds, or is reported for
  // ---------------------------------------------------------------------------------------------

  /** The written value is on the page: as sent, or item by item in the list held. */
  ghost predicate Landed(rules: Rules, key: string, value: Value, after: Option<Value>) {
    && after.Some?
    && if key == RAW then forall x :: x in AsList(value) ==> x in AsList(after.value)
       else if key in CITATION_KEYS && after.value.List? then AllCited(rules.render, AsList(value), after.value.items)
       else
         || after.value == value
         || (value.List? && after.value.List? && forall x :: x in value.items ==> x in after.value.items)
  }

  /** Nothing is silently ignored: what an owner's additive write sends either lands on the page or is
      reported as a disagreement. */
  lemma LandsOrIsReported(rules: Rules, h: Hooks, prev: Frontmatter, incoming: Frontmatter, order: seq<string>,
                          caller: Pack, key: string)
    requires Lists(order, incoming) && key in incoming
    requires !Fixed(key) && key != ALIASES && !Stamped(key) && Owns(rules, caller, key)
    requires key == RAW ==> LoneCaptureIsPlain(rules, prev, Call(Payload(h, prev, incoming), caller, []))
    ensures
      || Landed(rules, key, incoming[key], Held(Merge(rules, prev, Call(Payload(h, prev, incoming), caller, [])), key))
      || Disagreement(key, Get(prev, key), incoming[key]) in Disagreements(h, prev, incoming, order)
  {
    var value := incoming[key];
    var c := Call(Payload(h, prev, incoming), caller, []);
    var after := Held(Merge(rules, prev, c), key);
    MergeLookup(rules, prev, c, key);
    if Passed(h, prev, key, value) == Some(value) {
      PassedWholeLands(rules, prev, c, key);
    } else {
      assert Reported(h, prev, incoming, key, value) == [Disagreement(key, Get(prev, key), value)]
          || Get(prev, key) == value
        || (value.List? && Get(prev, key).List? && NotIn(value.items, prev[key].items) == []);
      if Disagreement(key, Get(prev, key), value) in Reported(h, prev, incoming, key, value) {
        ReportedIsListed(h, prev, incoming, order, key, Disagreement(key, Get(prev, key), value));
      } else {
        HeldAlreadyLands(rules, h, prev, incoming, c, key);
      }
    }
  }

  lemma {:induction false} ReportedIsListed(h: Hooks, prev: Frontmatter, incoming: Frontmatter, order: seq<string>,
                                            key: string, d: Disagreement)
    requires AdditiveGate.Within(order, incoming) && key in order
              && d in Reported(h, prev, incoming, key, incoming[key])
    ensures d in Disagreements(h, prev, incoming, order)
  {
    hide Reported;
    var n := |order| - 1;
    assert order == order[..n] + [order[n]];
    if key != order[n] {
      ReportedIsListed(h, prev, incoming, order[..n], key, d);
    }
  }

  lemma PassedWholeLands(rules: Rules, prev: Frontmatter, c: Call, key: string)
    requires key in c.incoming && c.remove == [] && !Fixed(key) && !Stamped(key) && Owns(rules, c.caller, key)
    requires key == RAW ==> LoneCaptureIsPlain(rules, prev, c)
    ensures Landed(rules, key, c.incoming[key], Held(Merge(rules, prev, c), key))
  {
    MergeLookup(rules, prev, c, key);
    hide Merge, Additions, Target;
    if key == RAW {
      if RAW in prev {
        UnionKeepsBothIff(prev[RAW], c.incoming[RAW]);
        hide UnionItems, AppendOnlyUnion, AsList, Plain;
      }
    } else if key in CITATION_KEYS && key in prev && prev[key].List? {
      CitationsAfterMerge(rules, prev, c, key);
    } else if key in CITATION_KEYS && c.incoming[key].List? {
      HeldAreCited(rules, c.incoming[key].items, c.incoming[key].items, c.incoming[key].items);
    }
  }

  lemma HeldAlreadyLands(rules: Rules, h: Hooks, prev: Frontmatter, incoming: Frontmatter, c: Call, key: string)
    requires c.incoming == Payload(h, prev, incoming) && c.remove == []
    requires key in incoming && key in prev && !Empty(prev[key]) && !Fixed(key) && !Stamped(key) && key != ALIASES
              && key != RAW
    requires prev[key] == incoming[key]
              || (incoming[key].List? && prev[key].List? && NotIn(incoming[key].items, prev[key].items) == [])
    ensures Landed(rules, key, incoming[key], Held(Merge(rules, prev, c), key))
  {
    PassedNothing(h, prev, incoming, key);
    hide Payload, Passed, Fixed, Stamped;
    HeldThroughMerge(rules, prev, c, key);
    if incoming[key].List? {
      if prev[key] == incoming[key] {
        NothingNew(prev[key].items, prev[key].items);
      }
      ListAlreadyLands(rules, prev, c, key, incoming[key].items);
    }
  }

  lemma PassedNothing(h: Hooks, prev: Frontmatter, incoming: Frontmatter, key: string)
    requires key in incoming && key in prev && !Empty(prev[key]) && !Fixed(key) && key != ALIASES && key != RAW
    requires prev[key] == incoming[key]
              || (incoming[key].List? && prev[key].List? && NotIn(incoming[key].items, prev[key].items) == [])
    ensures key in Payload(h, prev, incoming) ==> Payload(h, prev, incoming)[key] == prev[key]
  {
    if prev[key] == incoming[key] && prev[key].List? {
      NothingNew(prev[key].items, prev[key].items);
    }
  }

  lemma ListAlreadyLands(rules: Rules, prev: Frontmatter, c: Call, key: string, items: seq<Value>)
    requires key in prev && prev[key].List? && c.remove == [] && key != RAW && !Stamped(key)
    requires NotIn(items, prev[key].items) == []
    requires key in c.incoming ==> c.incoming[key] == prev[key]
    ensures Landed(rules, key, List(items), Held(Merge(rules, prev, c), key))
  {
    assert forall x :: x in items ==> x in NotIn(items, prev[key].items) || x in prev[key].items;
    hide NotIn, Stamped;
    if key in CITATION_KEYS {
      CitationsAlreadyLand(rules, prev, c, key, items);
    } else {
      HeldThroughMerge(rules, prev, c, key);
      hide Merge;
    }
  }

  lemma CitationsAlreadyLand(rules: Rules, prev: Frontmatter, c: Call, key: string, items: seq<Value>)
    requires key in prev && prev[key].List? && c.remove == [] && key != RAW && key in CITATION_KEYS
    requires forall x :: x in items ==> x in prev[key].items
    ensures Landed(rules, key, List(items), Held(Merge(rules, prev, c), key))
  {
    CitationsAfterMerge(rules, prev, c, key);
    hide Merge, Target, OnePerTarget, AllCited;
    HeldAreCited(rules, items, prev[key].items, Merge(rules, prev, c)[key].items);
    assert AsList(List(items)) == items;
    hide AsList;
  }

  lemma HeldAreCited(rules: Rules, some: seq<Value>, held: seq<Value>, after: seq<Value>)
    requires (forall x :: x in some ==> x in held) && held <= after
    ensures AllCited(rules.render, some, after)
  {
    forall x | x in some ensures Cites(rules.render, after, Target(rules.render, x)) {
      assert x in held;
      assert x in after;
    }
  }

  // ---------------------------------------------------------------------------------------------
  // Through the gate
  // ---------------------------------------------------------------------------------------------

  /** One additive write: what it sends, and who writes. */
  datatype Write = Write(incoming: Frontmatter, caller: Pack)

  ghost function GatedCall(g: Gate, prev: Frontmatter, w: Write): Call
    requires Ordered(g)
  {
    Call(GatePayload(g, prev, w.incoming), w.caller, [])
  }

  /** The normalizer gives held keys no other value; it may raise, and may put held values under
      further keys. */
  ghost predicate Faithful(g: Gate, prev: Frontmatter) {
    g.normalize.Some? && g.normalize.value(prev).Some? ==>
      forall k :: k in prev && k in g.normalize.value(prev).value ==> g.normalize.value(prev).value[k] == prev[k]
  }

  lemma GatePayloadIsWithin(g: Gate, prev: Frontmatter, incoming: Frontmatter)
    returns (seen: Frontmatter, incomingN: Frontmatter)
    requires Ordered(g) && Faithful(g, prev)
    ensures Shows(seen, prev) && Within(GatePayload(g, prev, incoming), Payload(g.hooks, seen, incomingN))
  {
    hide Ordered, Payload, DifferentDocument;
    match Canonical(g, prev, incoming)
    case None => seen, incomingN := prev, incoming;
    case Some(pair) => seen, incomingN := pair.0, pair.1;
  }

  /** The write describes a different document by the identity check, or the normalizer raised. */
  ghost predicate Refused(g: Gate, prev: Frontmatter, incoming: Frontmatter)
    requires Ordered(g)
  {
    match Canonical(g, prev, incoming)
    case None => true
    case Some((prevN, incomingN)) =>
      assert Lists(g.keys(incomingN), incomingN);
      DifferentDocument(g, prevN, incomingN)
  }

  /** A write that describes a different document moves nothing but `raw` and the maintainers' stamp;
      one the normalizer cannot read moves nothing but the stamp. */
  lemma RefusedWriteMovesOnlyCaptures(rules: Rules, g: Gate, prev: Frontmatter, w: Write, key: string)
    requires Ordered(g) && Refused(g, prev, w.incoming)
    requires !Stamped(key) && (key == RAW ==> Canonical(g, prev, w.incoming).None?)
    ensures Held(Merge(rules, prev, GatedCall(g, prev, w)), key) == Held(prev, key)
  {
    var payload := GatePayload(g, prev, w.incoming);
    assert key !in payload by { hide Payload, DifferentDocument; }
    MergeLookup(rules, prev, Call(payload, w.caller, []), key);
    hide Merge, GatePayload;
  }

  lemma KeptStaysHeld(h: Hooks, key: string, before: Value, after: Option<Value>)
    requires Kept(h, key, before, after) && !Empty(before) && key != RAW
    ensures !Empty(after.value)
  {
    hide Fixed, Stamped;
  }

  lemma KeptTwice(h: Hooks, key: string, a: Value, b: Value, c: Option<Value>)
    requires Kept(h, key, a, Some(b)) && Kept(h, key, b, c)
    ensures Kept(h, key, a, c)
  {
    hide Fixed, Stamped, Maintainers, AsList;
  }

  ghost function AdditiveRun(rules: Rules, g: Gate, fm: Frontmatter, writes: seq<Write>): Frontmatter
    requires Ordered(g)
  {
    if writes == [] then fm
    else
      var page := AdditiveRun(rules, g, fm, writes[..|writes| - 1]);
      Merge(rules, page, GatedCall(g, page, writes[|writes| - 1]))
  }

  /** The captures a write sends, as the gate reads them. */
  function CapturesSent(g: Gate, w: Write): seq<Value> {
    match g.normalize
    case None => Captures(Held(w.incoming, RAW))
    case Some(fn) =>
      match fn(w.incoming)
      case None => []
      case Some(incoming) => Captures(Held(incoming, RAW))
  }

  /** What every write finds or brings so that a key survives: for `raw`, only captures that read back as
      they are, on the page to begin with and in each write; for any other key, a normalizer that gives
      held keys no other value. */
  ghost predicate Survivable(rules: Rules, g: Gate, fm: Frontmatter, writes: seq<Write>, key: string)
    requires Ordered(g)
  {
    if key == RAW then
      AllPlain(Captures(Held(fm, RAW))) && forall w :: w in writes ==> AllPlain(CapturesSent(g, w))
    else
      forall i :: 0 <= i < |writes| ==> Faithful(g, AdditiveRun(rules, g, fm, writes[..i]))
  }

  /** Any number of additive writes, by anyone, loses nothing the page held before them. */
  lemma {:induction false} AdditiveWritesLoseNothing(rules: Rules, g: Gate, fm: Frontmatter, writes: seq<Write>,
                                                     key: string)
    requires Ordered(g)
    requires key in fm && !Empty(fm[key])
    requires Survivable(rules, g, fm, writes, key)
    ensures Kept(g.hooks, key, fm[key], Held(AdditiveRun(rules, g, fm, writes), key))
    ensures key == RAW ==> AllPlain(Captures(Held(AdditiveRun(rules, g, fm, writes), RAW)))
  {
    hide Ordered, Kept, Empty, AllPlain, CapturesSent;
    if writes == [] {
      KeptAsIs(g.hooks, key, fm[key]);
    } else {
      var n := |writes| - 1;
      var page := AdditiveRun(rules, g, fm, writes[..n]);
      SurvivableSoFar(rules, g, fm, writes, key);
      hide Survivable;
      AdditiveWritesLoseNothing(rules, g, fm, writes[..n], key);
      if key == RAW {
        OneMoreKeepsCaptures(rules, g, fm[key], page, writes[n]);
      } else {
        OneMoreLosesNothing(rules, g, fm[key], page, writes[n], key);
      }
    }
  }

  lemma SurvivableSoFar(rules: Rules, g: Gate, fm: Frontmatter, writes: seq<Write>, key: string)
    requires Ordered(g) && Survivable(rules, g, fm, writes, key) && writes != []
    ensures var n := |writes| - 1;
            && Survivable(rules, g, fm, writes[..n], key)
            && (key == RAW ==> AllPlain(CapturesSent(g, writes[n])))
            && (key != RAW ==> Faithful(g, AdditiveRun(rules, g, fm, writes[..n])))
  {
    var n := |writes| - 1;
    hide Ordered, Faithful, AllPlain, CapturesSent;
    forall i | 0 <= i < n ensures writes[..n][..i] == writes[..i] {
    }
  }

  lemma KeptAsIs(h: Hooks, key: string, v: Value)
    ensures Kept(h, key, v, Some(v))
  {
    hide Fixed, Stamped;
  }

  lemma SentIsPassed(g: Gate, prev: Frontmatter, w: Write)
    requires Ordered(g)
    ensures var payload := GatePayload(g, prev, w.incoming);
            RAW in payload ==> Captures(Held(payload, RAW)) == CapturesSent(g, w)
  {
    hide Ordered, DifferentDocument, AsList;
  }

  lemma OneMoreKeepsCaptures(rules: Rules, g: Gate, before: Value, page: Frontmatter, w: Write)
    requires Ordered(g) && Kept(g.hooks, RAW, before, Held(page, RAW))
    requires AllPlain(Captures(Held(page, RAW))) && AllPlain(CapturesSent(g, w))
    ensures var after := Held(Merge(rules, page, GatedCall(g, page, w)), RAW);
            Kept(g.hooks, RAW, before, after) && AllPlain(Captures(after))
  {
    var c := GatedCall(g, page, w);
    SentIsPassed(g, page, w);
    KindsOfKeys(RAW);
    assert AllPlain(Captures(Held(c.incoming, RAW)));
    hide GatePayload, Ordered, CapturesSent, Fixed;
    CapturesAfterMerge(rules, page, c);
    MergeLookup(rules, page, c, RAW);
    hide Merge, AsList;
    assert Held(Merge(rules, page, c), RAW).Some?;
  }

  lemma OneMoreLosesNothing(rules: Rules, g: Gate, before: Value, page: Frontmatter, w: Write, key: string)
    requires Ordered(g) && Faithful(g, page) && key != RAW
    requires !Empty(before) && Kept(g.hooks, key, before, Held(page, key))
    ensures Kept(g.hooks, key, before, Held(Merge(rules, page, GatedCall(g, page, w)), key))
  {
    assert key in page by { hide Fixed, Stamped, Ordered; }
    KeptStaysHeld(g.hooks, key, before, Held(page, key));
    var seen, incomingN := GatePayloadIsWithin(g, page, w.incoming);
    hide Kept, GatePayload, Ordered;
    PayloadLosesNothing(rules, g.hooks, page, seen, incomingN, GatePayload(g, page, w.incoming), w.caller, key);
    KeptTwice(g.hooks, key, before, page[key], Held(Merge(rules, page, GatedCall(g, page, w)), key));
  }
}
