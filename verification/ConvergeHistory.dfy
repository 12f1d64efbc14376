/** What any history of converge-on-write merges keeps, and what repeating one of them does. */
module ConvergeHistory {
  import opened Converge
  import opened Values

  /** The page after the merges `calls`, under one declared owner and one set of grants. */
  function Run(rules: Rules, fm: Frontmatter, calls: seq<Call>): Frontmatter {
    if calls == [] then fm
    else Merge(rules, Run(rules, fm, calls[..|calls| - 1]), calls[|calls| - 1])
  }

  // ---------------------------------------------------------------------------------------------
  // Ownership
  // ---------------------------------------------------------------------------------------------

  /** A key that ownership alone governs on this page. */
  predicate Governed(fm: Frontmatter, key: string) {
    && key !in SERVER_KEYS
    && key != RAW
    && (key in CITATION_KEYS ==> !(key in fm && fm[key].List?))
  }

  /** A held key that one merge changes or drops was changed or dropped by someone who owns it. */
  lemma ChangedOnlyByAnOwner(rules: Rules, prev: Frontmatter, c: Call, key: string)
    requires key in prev && Governed(prev, key)
    requires Held(Merge(rules, prev, c), key) != Held(prev, key)
    ensures Owns(rules, c.caller, key)
    ensures key in c.remove || (key in c.incoming && c.incoming[key] != prev[key])
  {
    MergeLookup(rules, prev, c, key);
  }

  /** Call `i` is the first to touch the key: its caller owns the field and asked for the change. */
  ghost predicate TakenAt(rules: Rules, fm: Frontmatter, calls: seq<Call>, key: string, i: nat)
    requires key in fm
  {
    && i < |calls|
    && Owns(rules, calls[i].caller, key)
    && Held(Run(rules, fm, calls[..i]), key) == Held(fm, key)
    && (key in calls[i].remove || (key in calls[i].incoming && calls[i].incoming[key] != fm[key]))
  }

  lemma {:induction false} HistoryNeedsAnOwner(rules: Rules, fm: Frontmatter, calls: seq<Call>, key: string)
    requires key in fm && Governed(fm, key)
    requires Held(Run(rules, fm, calls), key) != Held(fm, key)
    ensures exists i :: TakenAt(rules, fm, calls, key, i)
  {
    var n := |calls| - 1;
    if Held(Run(rules, fm, calls[..n]), key) != Held(fm, key) {
      HistoryNeedsAnOwner(rules, fm, calls[..n], key);
      var i: nat :| TakenAt(rules, fm, calls[..n], key, i);
      assert calls[..n][..i] == calls[..i];
      assert TakenAt(rules, fm, calls, key, i);
    } else {
      ChangedOnlyByAnOwner(rules, Run(rules, fm, calls[..n]), calls[n], key);
      assert TakenAt(rules, fm, calls, key, n);
    }
  }

  /** Provenance is set once: no history of merges adds, changes or drops it. */
  lemma {:induction false} ProvenanceIsForever(rules: Rules, fm: Frontmatter, calls: seq<Call>, key: string)
    requires key in PROVENANCE_KEYS
    ensures Held(Run(rules, fm, calls), key) == Held(fm, key)
  {
    if calls != [] {
      var n := |calls| - 1;
      ProvenanceIsForever(rules, fm, calls[..n], key);
      MergeLookup(rules, Run(rules, fm, calls[..n]), calls[n], key);
    }
  }

  // ---------------------------------------------------------------------------------------------
  // Captures
  // ---------------------------------------------------------------------------------------------

  /** The captures a page lists. */
  function Captures(v: Option<Value>): seq<Value> {
    if v.Some? then AsList(v.value) else []
  }

  /** An item that reads back as itself when stored alone. */
  predicate Plain(v: Value) {
    v != Null && v != Str("") && !v.List?
  }

  /** The items the union of two `raw` values has to hold. */
  function UnionItems(prev: Value, new_: Value): seq<Value> {
    AsList(prev) + NotIn(AsList(new_), AsList(prev))
  }

  ghost predicate UnionKeepsBoth(prev: Value, new_: Value) {
    var after := AsList(AppendOnlyUnion(prev, new_));
    AsList(prev) <= after && forall x :: x in AsList(new_) ==> x in after
  }

  /** A value stored alone reads back as itself exactly when it is plain. */
  lemma ReadsBackIff(x: Value)
    ensures x in AsList(x) <==> Plain(x)
    ensures Plain(x) ==> AsList(x) == [x]
  {
    if x.List? {
      forall i | 0 <= i < |x.items| ensures x.items[i] != x {
        assert x.items[i] < x;
      }
    }
  }

  lemma LoneItem(a: seq<Value>, b: seq<Value>, x: Value, after: seq<Value>, plain: bool)
    requires a <= [x] && forall y :: y == x <==> y in a || y in b
    requires (x in after <==> plain) && (plain ==> after == [x])
    ensures (a <= after && forall y :: y in b ==> y in after) <==> plain
  {
    assert a == [] || a == [x];
  }

  lemma UnionOf(prev: Value, new_: Value)
    ensures var items := UnionItems(prev, new_);
            && AsList(prev) <= items
            && (forall x :: x in items <==> x in AsList(prev) || x in AsList(new_))
            && AppendOnlyUnion(prev, new_)
                == (if |items| > 1 then List(items) else if |items| == 1 then items[0] else prev)
            && (|items| != 1 ==> AsList(AppendOnlyUnion(prev, new_)) == items)
  {
    hide NotIn;
  }

  /** A union of captures keeps both sides unless it has a single item, that item being empty or
      itself a list: stored alone, it no longer reads back as one capture. */
  lemma UnionKeepsBothIff(prev: Value, new_: Value)
    ensures UnionKeepsBoth(prev, new_) <==> (|UnionItems(prev, new_)| == 1 ==> Plain(UnionItems(prev, new_)[0]))
    ensures UnionKeepsBoth(prev, new_) ==> AsList(AppendOnlyUnion(prev, new_)) == UnionItems(prev, new_)
  {
    var items, after := UnionItems(prev, new_), AsList(AppendOnlyUnion(prev, new_));
    UnionOf(prev, new_);
    hide UnionItems, AppendOnlyUnion, Plain, AsList, NotIn;
    if |items| == 1 {
      ReadsBackIff(items[0]);
      assert items == [items[0]];
      LoneItem(AsList(prev), AsList(new_), items[0], after, Plain(items[0]));
    }
  }

  ghost predicate AllPlain(items: seq<Value>) {
    forall x :: x in items ==> Plain(x)
  }

  lemma CapturesAfterMerge(rules: Rules, prev: Frontmatter, c: Call)
    requires !Dropped(rules, c, RAW)
    requires AllPlain(Captures(Held(prev, RAW))) && AllPlain(Captures(Held(c.incoming, RAW)))
    ensures var before, after := Captures(Held(prev, RAW)), Captures(Held(Merge(rules, prev, c), RAW));
            && before <= after
            && (forall x :: x in after <==> x in before || x in Captures(Held(c.incoming, RAW)))
  {
    MergeLookup(rules, prev, c, RAW);
    if RAW in prev && RAW in c.incoming {
      var items := UnionItems(prev[RAW], c.incoming[RAW]);
      assert |items| == 1 ==> items[0] in items;
      assert AsList(AppendOnlyUnion(prev[RAW], c.incoming[RAW])) == items;
    }
  }

  /** No capture is ever lost: without an authorised removal, the captures a page ends up with are
      those it had, in place, and those every call sent, whoever owns the page. */
  lemma {:induction false} CapturesAccumulate(rules: Rules, fm: Frontmatter, calls: seq<Call>)
    requires forall c :: c in calls ==> !Dropped(rules, c, RAW) && AllPlain(Captures(Held(c.incoming, RAW)))
    requires AllPlain(Captures(Held(fm, RAW)))
    ensures var after := Captures(Held(Run(rules, fm, calls), RAW));
            && Captures(Held(fm, RAW)) <= after
            && AllPlain(after)
            && (forall c, x :: c in calls && x in Captures(Held(c.incoming, RAW)) ==> x in after)
  {
    if calls != [] {
      var n := |calls| - 1;
      assert calls == calls[..n] + [calls[n]];
      CapturesAccumulate(rules, fm, calls[..n]);
      CapturesAfterMerge(rules, Run(rules, fm, calls[..n]), calls[n]);
    }
  }

  /** The exception is real: the empty capture a one-item list holds is gone after a merge. */
  lemma LoneEmptyCaptureIsLost(rules: Rules, c: Call)
    requires c == Call(map[RAW := List([])], NoPack, [])
    ensures var page: Frontmatter := map[RAW := List([Str("")])];
            Captures(Held(page, RAW)) == [Str("")] && Captures(Held(Merge(rules, page, c), RAW)) == []
  {
    var page: Frontmatter := map[RAW := List([Str("")])];
    MergeLookup(rules, page, c, RAW);
    assert UnionItems(page[RAW], c.incoming[RAW]) == [Str("")];
  }

  // ---------------------------------------------------------------------------------------------
  // Citations
  // ---------------------------------------------------------------------------------------------

  ghost predicate Cites(render: Render, items: seq<Value>, target: string) {
    exists x :: x in items && Target(render, x) == target
  }

  ghost predicate AllCited(render: Render, sent: seq<Value>, items: seq<Value>) {
    forall x :: x in sent ==> Cites(render, items, Target(render, x))
  }

  lemma CitedLonger(render: Render, sent: seq<Value>, items: seq<Value>, longer: seq<Value>)
    requires AllCited(render, sent, items) && items <= longer
    ensures AllCited(render, sent, longer)
  {
    hide Target;
    forall x | x in sent ensures Cites(render, longer, Target(render, x)) {
      var y :| y in items && Target(render, y) == Target(render, x);
      assert y in longer;
    }
  }

  /** No two citations of a list name the same page. */
  ghost predicate OnePerTarget(render: Render, items: seq<Value>) {
    forall i, j :: 0 <= i < j < |items| ==> Target(render, items[i]) != Target(render, items[j])
  }

  lemma {:induction false} AdditionsComplete(render: Render, held: seq<Value>, new_: seq<Value>)
    ensures var added := Additions(render, held, new_);
            && (forall x :: x in added ==> x in new_ && !Cites(render, held, Target(render, x)))
            && AllCited(render, new_, held + added)
            && OnePerTarget(render, added)
  {
    hide Target;
    if new_ != [] {
      var n := |new_| - 1;
      AdditionsComplete(render, held, new_[..n]);
      var rest, added := Additions(render, held, new_[..n]), Additions(render, held, new_);
      assert new_ == new_[..n] + [new_[n]];
      forall x | x in new_ ensures Cites(render, held + added, Target(render, x)) {
        if x in new_[..n] {
          var y :| y in held + rest && Target(render, y) == Target(render, x);
          assert y in held + added;
        } else if added != rest {
          assert x in held + added;
        }
      }
      forall x | x in added ensures !Cites(render, held, Target(render, x)) {
        if x !in rest {
          assert forall y :: y in held ==> y in held + rest;
        }
      }
      forall i, j | 0 <= i < j < |added| ensures Target(render, added[i]) != Target(render, added[j]) {
        if j == |rest| {
          assert added[i] in held + rest;
        }
      }
    }
  }

  /** A list of citations through one merge. */
  lemma CitationsAfterMerge(rules: Rules, prev: Frontmatter, c: Call, key: string)
    requires key in CITATION_KEYS && key in prev && prev[key].List? && !Dropped(rules, c, key)
    ensures var next := Merge(rules, prev, c);
            && key in next && next[key].List? && prev[key].items <= next[key].items
            && AllCited(rules.render, Captures(Held(c.incoming, key)), next[key].items)
            && (forall x :: x in next[key].items ==> x in prev[key].items || x in Captures(Held(c.incoming, key)))
            && (OnePerTarget(rules.render, prev[key].items) ==> OnePerTarget(rules.render, next[key].items))
  {
    MergeLookup(rules, prev, c, key);
    hide Target;
    if key in c.incoming {
      var held, new_ := prev[key].items, AsList(c.incoming[key]);
      AdditionsComplete(rules.render, held, new_);
      var added := Additions(rules.render, held, new_);
      assert added == [] ==> held + added == held;
      assert Merge(rules, prev, c)[key] == List(held + added);
      hide Additions, Merge, Final, AllCited;
      if OnePerTarget(rules.render, held) {
        OnePerTargetJoined(rules.render, held, added);
      }
    } else {
      hide Merge, OnePerTarget;
    }
  }

  lemma OnePerTargetJoined(render: Render, held: seq<Value>, added: seq<Value>)
    requires OnePerTarget(render, held) && OnePerTarget(render, added)
    requires forall x :: x in added ==> !Cites(render, held, Target(render, x))
    ensures OnePerTarget(render, held + added)
  {
    hide Target;
    var all := held + added;
    forall i, j | 0 <= i < j < |all| ensures Target(render, all[i]) != Target(render, all[j]) {
      if i < |held| <= j {
        assert all[j] in added && all[i] in held;
      }
    }
  }

  /** Citations only accumulate: without an authorised removal, a citation list keeps its entries in
      place, ends up citing every page any call cited, and never cites a page twice if it did not. */
  lemma {:induction false} CitationsAccumulate(rules: Rules, fm: Frontmatter, calls: seq<Call>, key: string)
    requires key in CITATION_KEYS && key in fm && fm[key].List?
    requires forall c :: c in calls ==> !Dropped(rules, c, key)
    ensures var after := Run(rules, fm, calls);
            && key in after && after[key].List? && fm[key].items <= after[key].items
            && (forall c :: c in calls ==> AllCited(rules.render, Captures(Held(c.incoming, key)), after[key].items))
            && (OnePerTarget(rules.render, fm[key].items) ==> OnePerTarget(rules.render, after[key].items))
  {
    if calls != [] {
      var n := |calls| - 1;
      assert calls == calls[..n] + [calls[n]];
      CitationsAccumulate(rules, fm, calls[..n], key);
      var before, after := Run(rules, fm, calls[..n]), Run(rules, fm, calls);
      CitationsAfterMerge(rules, before, calls[n], key);
      hide Run, Merge, Dropped, OnePerTarget, AllCited, Captures, Held;
      forall c | c in calls[..n] ensures AllCited(rules.render, Captures(Held(c.incoming, key)), after[key].items) {
        CitedLonger(rules.render, Captures(Held(c.incoming, key)), before[key].items, after[key].items);
      }
    }
  }

  // ---------------------------------------------------------------------------------------------
  // Repeating a merge
  // ---------------------------------------------------------------------------------------------

  lemma HasMember<T>(s: seq<T>)
    requires s != []
    ensures exists x :: x in s
  {
    assert s[0] in s;
  }

  lemma NothingNew(new_: seq<Value>, held: seq<Value>)
    requires forall x :: x in new_ ==> x in held
    ensures NotIn(new_, held) == []
  {
    if NotIn(new_, held) != [] {
      HasMember(NotIn(new_, held));
    }
  }

  lemma NothingToCite(render: Render, held: seq<Value>, new_: seq<Value>)
    requires AllCited(render, new_, held)
    ensures Additions(render, held, new_) == []
  {
    hide Target, Additions;
    AdditionsComplete(render, held, new_);
    if Additions(render, held, new_) != [] {
      HasMember(Additions(render, held, new_));
    }
  }

  /** The single item of a `raw` the merge leaves, if it leaves one, is plain. */
  ghost predicate LoneCaptureIsPlain(rules: Rules, prev: Frontmatter, c: Call) {
    RAW in c.incoming && !Dropped(rules, c, RAW) ==>
      var items := UnionItems(if RAW in prev then prev[RAW] else Null, c.incoming[RAW]);
      |items| == 1 ==> Plain(items[0])
  }

  /** Every key but `raw` is exactly as the first merge left it. */
  lemma RepeatedKey(rules: Rules, prev: Frontmatter, c: Call, key: string)
    requires key != RAW
    ensures Held(Merge(rules, Merge(rules, prev, c), c), key) == Held(Merge(rules, prev, c), key)
  {
    var once := Merge(rules, prev, c);
    MergeLookup(rules, prev, c, key);
    MergeLookup(rules, once, c, key);
    hide Merge, Owns;
    if key in CITATION_KEYS && key in c.incoming && !Dropped(rules, c, key) && key in once && once[key].List? {
      var new_ := AsList(c.incoming[key]);
      RepeatedCitations(rules, prev, c, key);
      NothingToCite(rules.render, once[key].items, new_);
    }
  }

  lemma RepeatedCitations(rules: Rules, prev: Frontmatter, c: Call, key: string)
    requires key in CITATION_KEYS && key in c.incoming && !Dropped(rules, c, key)
    requires Held(Merge(rules, prev, c), key).Some? && Merge(rules, prev, c)[key].List?
    requires (key in prev && prev[key].List?) || Merge(rules, prev, c)[key] == c.incoming[key]
    ensures AllCited(rules.render, AsList(c.incoming[key]), Merge(rules, prev, c)[key].items)
  {
    if key in prev && prev[key].List? {
      CitationsAfterMerge(rules, prev, c, key);
    }
  }

  /** A union taken again, of a value and what it already took in. */
  lemma UnionAgain(prev: Value, new_: Value)
    requires |UnionItems(prev, new_)| == 1 ==> Plain(UnionItems(prev, new_)[0])
    ensures var union := AppendOnlyUnion(prev, new_);
            AppendOnlyUnion(union, new_) == union && UnionItems(union, new_) == UnionItems(prev, new_)
  {
    var items, union := UnionItems(prev, new_), AppendOnlyUnion(prev, new_);
    UnionOf(prev, new_);
    UnionKeepsBothIff(prev, new_);
    NothingNew(AsList(new_), AsList(union));
    assert UnionItems(union, new_) == items;
    UnionOf(union, new_);
    hide UnionItems, AppendOnlyUnion, AsList, NotIn;
  }

  /** Taking a value in again keeps its items, and unwraps a one-item list. */
  lemma UnionWithItself(v: Value)
    requires |AsList(v)| == 1 ==> Plain(AsList(v)[0])
    ensures AsList(AppendOnlyUnion(v, v)) == AsList(v) && UnionItems(v, v) == AsList(v)
    ensures AppendOnlyUnion(v, v) == v <==> !(v.List? && |v.items| == 1)
  {
    NothingNew(AsList(v), AsList(v));
    assert UnionItems(v, v) == AsList(v);
    UnionOf(v, v);
  }

  /** `raw` lists the same captures, and from the second merge on it is stored the same way too. */
  lemma RepeatedCaptures(rules: Rules, prev: Frontmatter, c: Call)
    requires LoneCaptureIsPlain(rules, prev, c)
    ensures var once := Merge(rules, prev, c); var twice := Merge(rules, once, c);
            && Captures(Held(twice, RAW)) == Captures(Held(once, RAW))
            && (Held(twice, RAW) == Held(once, RAW) <==> !Unwraps(rules, prev, c))
            && LoneCaptureIsPlain(rules, once, c) && !Unwraps(rules, once, c)
  {
    var once := Merge(rules, prev, c);
    MergeLookup(rules, prev, c, RAW);
    MergeLookup(rules, once, c, RAW);
    hide Merge, UnionItems, AppendOnlyUnion, NotIn, AsList, Plain;
    if RAW in c.incoming && !Dropped(rules, c, RAW) {
      if RAW in prev {
        UnionAgain(prev[RAW], c.incoming[RAW]);
      } else {
        NullAddsNothing(c.incoming[RAW]);
        UnionWithItself(c.incoming[RAW]);
      }
    }
  }

  lemma NullAddsNothing(v: Value)
    ensures UnionItems(Null, v) == AsList(v)
  {
    NotInNothing(AsList(v));
  }

  /** The one way a repeated merge still rewrites a page: the first merge stored an incoming
      one-item list as the page's first `raw`, and the second stores its item instead. */
  predicate Unwraps(rules: Rules, prev: Frontmatter, c: Call) {
    && RAW !in prev
    && RAW in c.incoming
    && c.incoming[RAW].List?
    && |c.incoming[RAW].items| == 1
    && !Dropped(rules, c, RAW)
  }

  /** Sending a merge again changes nothing, except that a one-item `raw` list is unwrapped once; a
      third time never changes anything. */
  lemma MergeIsIdempotentIff(rules: Rules, prev: Frontmatter, c: Call)
    requires LoneCaptureIsPlain(rules, prev, c)
    ensures var once := Merge(rules, prev, c); var twice := Merge(rules, once, c);
            && (twice == once <==> !Unwraps(rules, prev, c))
            && Captures(Held(twice, RAW)) == Captures(Held(once, RAW))
            && Merge(rules, twice, c) == twice
  {
    hide Merge, LoneCaptureIsPlain, Unwraps, Captures;
    var once := Merge(rules, prev, c);
    var twice := Merge(rules, once, c);
    RepeatedCaptures(rules, prev, c);
    RepeatedCaptures(rules, once, c);
    forall key | key != RAW
      ensures Held(twice, key) == Held(once, key) && Held(Merge(rules, twice, c), key) == Held(twice, key)
    {
      RepeatedKey(rules, prev, c, key);
      RepeatedKey(rules, once, c, key);
    }
    SameLookups(Merge(rules, twice, c), twice);
    if !Unwraps(rules, prev, c) {
      SameLookups(twice, once);
    }
  }
}
