/** Converge-on-write merging of page frontmatter under page and field ownership:
    `merge_frontmatter` of `okengine-mcp/converge.py`. */
module Converge {
  import opened Text
  import opened Values

  type Frontmatter = map<string, Value>

  const SERVER_KEYS: set<string> := {
    "id", "version", "updated", "last_modified_by", "maintained_by", "discovered_by",
    "created", "created_by", "extension_id"
  }
  const PROVENANCE_KEYS: set<string> := {"created", "created_by", "discovered_by", "extension_id"}
  const CITATION_KEYS: set<string> := {"sources", "basis"}
  const RAW := "raw"

  // ---------------------------------------------------------------------------------------------
  // Lists
  // ---------------------------------------------------------------------------------------------

  /** `_as_list` */
  function AsList(v: Value): seq<Value> {
    match v
    case Null => []
    case List(items) => items
    case Str(s) => if s == "" then [] else [v]
    case _ => [v]
  }

  /** `_append_only_union` */
  function AppendOnlyUnion(prev: Value, new_: Value): Value {
    var items := AsList(prev) + NotIn(AsList(new_), AsList(prev));
    if |items| > 1 then List(items)
    else if |items| == 1 then items[0]
    else prev
  }

  /** How Python renders a value with `str`. */
  type Render = Value -> string

  predicate Bracketed(text: string) {
    |text| >= 4 && text[..2] == "[[" && text[|text| - 2..] == "]]"
  }

  function WithoutSuffix(text: string): string {
    if |text| >= 3 && text[|text| - 3..] == ".md" then text[..|text| - 3] else text
  }

  /** `_citation_target`: `[[sources/x]]`, `sources/x.md` and `sources/x#part` are one citation. */
  function Target(render: Render, item: Value): string {
    var text := Strip(render(item));
    var inner := if Bracketed(text) then text[2..|text| - 2] else text;
    WithoutSuffix(Strip(Before(Before(inner, '|'), '#')))
  }

  ghost function Targets(render: Render, items: seq<Value>): set<string> {
    set x | x in items :: Target(render, x)
  }

  /** The citations of `new_` whose target neither `held` nor an earlier one of them has. */
  function Additions(render: Render, held: seq<Value>, new_: seq<Value>): seq<Value> {
    if new_ == [] then []
    else
      var n := |new_| - 1;
      var rest := Additions(render, held, new_[..n]);
      if exists x :: x in held + rest && Target(render, x) == Target(render, new_[n]) then rest else rest + [new_[n]]
  }

  /** One of the items cites what `x` cites. */
  ghost predicate Cited(render: Render, items: seq<Value>, x: Value) {
    exists y :: y in items && Target(render, y) == Target(render, x)
  }

  /** The first sent citation of its target, which the held list does not cite. */
  ghost predicate NewAt(render: Render, held: seq<Value>, new_: seq<Value>, i: nat)
    requires i < |new_|
  {
    !Cited(render, held, new_[i]) && forall j :: 0 <= j < i ==> Target(render, new_[j]) != Target(render, new_[i])
  }

  /** Those among the first `k` sent, in order. */
  ghost function NewCitations(render: Render, held: seq<Value>, new_: seq<Value>, k: nat): seq<Value>
    requires k <= |new_|
  {
    if k == 0 then []
    else NewCitations(render, held, new_, k - 1) + if NewAt(render, held, new_, k - 1) then [new_[k - 1]] else []
  }

  lemma CitedJoined(render: Render, a: seq<Value>, b: seq<Value>, x: Value)
    ensures Cited(render, a + b, x) <==> Cited(render, a, x) || Cited(render, b, x)
  {
    hide Target;
    if y :| y in b && Target(render, y) == Target(render, x) {
      assert y in a + b;
    }
    if y :| y in a && Target(render, y) == Target(render, x) {
      assert y in a + b;
    }
  }

  lemma AdditionsOneMore(render: Render, held: seq<Value>, new_: seq<Value>, k: nat)
    requires k < |new_|
    ensures var rest := Additions(render, held, new_[..k]);
            Additions(render, held, new_[..k + 1])
              == if Cited(render, held + rest, new_[k]) then rest else rest + [new_[k]]
  {
    hide Target;
    assert new_[..k + 1][..k] == new_[..k];
  }

  lemma NewAtIff(render: Render, held: seq<Value>, new_: seq<Value>, k: nat)
    requires k < |new_|
    ensures NewAt(render, held, new_, k) <==> !Cited(render, held, new_[k]) && !Cited(render, new_[..k], new_[k])
  {
    hide Target;
    assert forall j :: 0 <= j < k ==> new_[j] in new_[..k];
  }

  /** The additions are the new citations, in order. */
  lemma {:induction false} AdditionsAreNew(render: Render, held: seq<Value>, new_: seq<Value>, k: nat)
    requires k <= |new_|
    ensures Additions(render, held, new_[..k]) == NewCitations(render, held, new_, k)
    ensures forall x :: Cited(render, held + Additions(render, held, new_[..k]), x) <==>
                          Cited(render, held, x) || Cited(render, new_[..k], x)
  {
    if k > 0 {
      AdditionsAreNew(render, held, new_, k - 1);
      AdditionsOneMore(render, held, new_, k - 1);
      NewAtIff(render, held, new_, k - 1);
      CitedOneMore(render, held, new_, k - 1);
      hide Additions, Cited, NewAt;
    } else {
      assert held + [] == held && new_[..0] == [];
      hide Target;
    }
  }

  lemma CitedOneMore(render: Render, held: seq<Value>, new_: seq<Value>, k: nat)
    requires k < |new_|
    requires forall x :: Cited(render, held + Additions(render, held, new_[..k]), x) <==>
                           Cited(render, held, x) || Cited(render, new_[..k], x)
    ensures forall x :: Cited(render, held + Additions(render, held, new_[..k + 1]), x) <==>
                          Cited(render, held, x) || Cited(render, new_[..k + 1], x)
  {
    var rest := Additions(render, held, new_[..k]);
    AdditionsOneMore(render, held, new_, k);
    hide Additions;
    assert new_[..k + 1] == new_[..k] + [new_[k]];
    assert held + (rest + [new_[k]]) == (held + rest) + [new_[k]];
    forall x ensures Cited(render, held + Additions(render, held, new_[..k + 1]), x) <==>
                       Cited(render, held, x) || Cited(render, new_[..k + 1], x)
    {
      CitedJoined(render, held + rest, [new_[k]], x);
      CitedJoined(render, new_[..k], [new_[k]], x);
      if Cited(render, held + rest, new_[k]) && Cited(render, [new_[k]], x) {
        SameTarget(render, held + rest, new_[k], x);
      }
      hide Cited;
    }
  }

  lemma SameTarget(render: Render, items: seq<Value>, a: Value, x: Value)
    requires Cited(render, items, a) && Cited(render, [a], x)
    ensures Cited(render, items, x)
  {
    hide Target;
  }

  /** `_citation_additions`, with its set of seen targets. */
  method CitationAdditions(render: Render, held: seq<Value>, new_: seq<Value>) returns (added: seq<Value>)
    ensures added == Additions(render, held, new_)
    ensures added == NewCitations(render, held, new_, |new_|)
  {
    var seen := set x | x in held :: Target(render, x);
    added := [];
    for i := 0 to |new_|
      invariant added == Additions(render, held, new_[..i])
      invariant seen == Targets(render, held + added)
    {
      assert new_[..i + 1][..i] == new_[..i];
      var t := Target(render, new_[i]);
      if t !in seen {
        seen := seen + {t};
        assert held + (added + [new_[i]]) == (held + added) + [new_[i]];
        added := added + [new_[i]];
      }
    }
    assert new_[..|new_|] == new_;
    AdditionsAreNew(render, held, new_, |new_|);
  }

  // ---------------------------------------------------------------------------------------------
  // Ownership
  // ---------------------------------------------------------------------------------------------

  datatype Pack = NoPack | Pack(name: string)

  /** The page's declared owner and the per-field grants. */
  datatype Rules = Rules(owner: Pack, grants: map<string, string>, render: Render)

  /** One merge: what the caller sends, who it is, and the fields it wants dropped. */
  datatype Call = Call(incoming: Frontmatter, caller: Pack, remove: seq<string>)

  /** `_owns_field` */
  predicate Owns(rules: Rules, caller: Pack, key: string) {
    || rules.owner.NoPack?
    || (caller.Pack? && caller == rules.owner)
    || (caller.Pack? && key in rules.grants && rules.grants[key] == caller.name)
  }

  // ---------------------------------------------------------------------------------------------
  // The merge, key by key
  // ---------------------------------------------------------------------------------------------

  datatype Kind = Silent | Added | Updated | Unchanged | Conflict

  /** What the first loop makes of one incoming key: the value it leaves, and the list it enters. */
  function Incorporate(rules: Rules, caller: Pack, held: Option<Value>, key: string, new_: Value)
    : (Option<Value>, Kind)
  {
    if key in SERVER_KEYS then
      (if key in PROVENANCE_KEYS then held else Some(new_), Silent)
    else if key in CITATION_KEYS && held.Some? && held.value.List? then
      var added := Additions(rules.render, held.value.items, AsList(new_));
      if added != [] then (Some(List(held.value.items + added)), Updated) else (held, Unchanged)
    else if key == RAW && held.Some? then
      var union := AppendOnlyUnion(held.value, new_);
      (Some(union), if union == held.value then Unchanged else Updated)
    else if held.None? then (Some(new_), Added)
    else if held.value == new_ then (held, Unchanged)
    else if Owns(rules, caller, key) then (Some(new_), Updated)
    else (held, Conflict)
  }

  /** The key after the first loop. */
  function AfterIncoming(rules: Rules, prev: Frontmatter, c: Call, key: string): Option<Value> {
    if key in c.incoming then Incorporate(rules, c.caller, Held(prev, key), key, c.incoming[key]).0 else Held(prev, key)
  }

  /** The page after the first loop. */
  function Incorporated(rules: Rules, prev: Frontmatter, c: Call): Frontmatter {
    map key | key in prev.Keys + c.incoming.Keys && AfterIncoming(rules, prev, c, key).Some?
      :: AfterIncoming(rules, prev, c, key).value
  }

  /** Whether the second loop drops the key. */
  predicate Dropped(rules: Rules, c: Call, key: string) {
    key in c.remove && key !in SERVER_KEYS && Owns(rules, c.caller, key)
  }

  /** The list of maintainers a stored `maintained_by` stands for. */
  function Maintainers(v: Option<Value>): seq<Value> {
    if v.None? then []
    else match v.value
      case List(items) => items
      case other => if Truthy(other) then [other] else []
  }

  function Stamp(v: Option<Value>, name: string): Value {
    var held := Maintainers(v);
    List(if Str(name) in held then held else held + [Str(name)])
  }

  /** The key after the whole merge. */
  function Final(rules: Rules, prev: Frontmatter, c: Call, key: string): Option<Value> {
    var kept := if Dropped(rules, c, key) then None else AfterIncoming(rules, prev, c, key);
    if key == "maintained_by" && c.caller.Pack? then Some(Stamp(kept, c.caller.name)) else kept
  }

  /** The merged page. */
  function Merge(rules: Rules, prev: Frontmatter, c: Call): Frontmatter {
    map key | key in prev.Keys + c.incoming.Keys + {"maintained_by"} && Final(rules, prev, c, key).Some?
      :: Final(rules, prev, c, key).value
  }

  lemma MergeLookup(rules: Rules, prev: Frontmatter, c: Call, key: string)
    ensures Held(Merge(rules, prev, c), key) == Final(rules, prev, c, key)
  {
  }

  // ---------------------------------------------------------------------------------------------
  // The merge, as it runs
  // ---------------------------------------------------------------------------------------------

  datatype Attempt = Change(value: Value) | Removal

  datatype Decision = Decision(
    added: seq<string>,
    updated: seq<string>,
    removed: seq<string>,
    conflicts: seq<(string, Value, Attempt)>,
    same: seq<string>)

  function KindOf(rules: Rules, prev: Frontmatter, c: Call, key: string): Kind
    requires key in c.incoming
  {
    Incorporate(rules, c.caller, Held(prev, key), key, c.incoming[key]).1
  }

  /** Enter a key in the list its kind calls for. */
  function Note(d: Decision, kind: Kind, key: string, held: Value, new_: Value): Decision {
    match kind
    case Silent => d
    case Added => d.(added := d.added + [key])
    case Updated => d.(updated := d.updated + [key])
    case Unchanged => d.(same := d.same + [key])
    case Conflict => d.(conflicts := d.conflicts + [(key, held, Change(new_))])
  }

  /** The decision lists after the incoming keys `order`. */
  function Decided(rules: Rules, prev: Frontmatter, c: Call, order: seq<string>): Decision
    requires forall k :: k in order ==> k in c.incoming
  {
    if order == [] then Decision([], [], [], [], [])
    else
      var n := |order| - 1;
      var d := Decided(rules, prev, c, order[..n]);
      var key := order[n];
      Note(d, KindOf(rules, prev, c, key), key, Get(prev, key), c.incoming[key])
  }

  /** The decision lists after the removals `keys`, from a page `fm`: a field is dropped once, by its
      owner only; anyone else's attempt is a conflict. */
  function DecidedRemovals(rules: Rules, fm: Frontmatter, caller: Pack, keys: seq<string>, d: Decision): Decision {
    if keys == [] then d
    else
      var n := |keys| - 1;
      var before := DecidedRemovals(rules, fm, caller, keys[..n], d);
      var key := keys[n];
      if key in SERVER_KEYS || key !in fm || (Owns(rules, caller, key) && key in keys[..n]) then before
      else if Owns(rules, caller, key) then before.(removed := before.removed + [key])
      else before.(conflicts := before.conflicts + [(key, fm[key], Removal)])
  }

  ghost predicate MergedUpTo(rules: Rules, prev: Frontmatter, c: Call, merged: Frontmatter, keys: seq<string>)
    requires forall k :: k in keys ==> k in c.incoming
  {
    forall key :: Held(merged, key) == if key in keys then AfterIncoming(rules, prev, c, key) else Held(prev, key)
  }

  lemma MergedOneMore(rules: Rules, prev: Frontmatter, c: Call, merged: Frontmatter, keys: seq<string>, key: string,
                      next: Frontmatter)
    requires forall k :: k in keys ==> k in c.incoming
    requires key in c.incoming && key !in keys
    requires MergedUpTo(rules, prev, c, merged, keys)
    requires next == match AfterIncoming(rules, prev, c, key) case None => merged case Some(v) => merged[key := v]
    ensures MergedUpTo(rules, prev, c, next, keys + [key])
  {
    assert AfterIncoming(rules, prev, c, key).None? ==> Held(prev, key).None?;
    hide AfterIncoming;
    forall k ensures Held(next, k) == if k in keys + [key] then AfterIncoming(rules, prev, c, k) else Held(prev, k) {
      assert Held(merged, k) == if k in keys then AfterIncoming(rules, prev, c, k) else Held(prev, k);
    }
  }

  /** One turn of the first loop. */
  method MergeKey(rules: Rules, prev: Frontmatter, c: Call, key: string, merged0: Frontmatter, dec0: Decision)
    returns (merged: Frontmatter, dec: Decision)
    requires key in c.incoming && (key in prev ==> key in merged0 && merged0[key] == prev[key])
    ensures merged == match AfterIncoming(rules, prev, c, key) case None => merged0 case Some(v) => merged0[key := v]
    ensures dec == Note(dec0, KindOf(rules, prev, c, key), key, Get(prev, key), c.incoming[key])
  {
    merged, dec := merged0, dec0;
    var new_ := c.incoming[key];
    assert key in prev ==> merged == merged[key := prev[key]];
    if key in SERVER_KEYS {
      if key !in PROVENANCE_KEYS {
        merged := merged[key := new_];
      }
    } else if key in CITATION_KEYS && key in prev && prev[key].List? {
      var added := CitationAdditions(rules.render, prev[key].items, AsList(new_));
      if added != [] {
        merged := merged[key := List(prev[key].items + added)];
        dec := dec.(updated := dec.updated + [key]);
      } else {
        dec := dec.(same := dec.same + [key]);
      }
    } else if key == RAW && key in prev {
      var union := AppendOnlyUnion(prev[key], new_);
      if union == prev[key] {
        dec := dec.(same := dec.same + [key]);
      } else {
        merged := merged[key := union];
        dec := dec.(updated := dec.updated + [key]);
      }
    } else if key !in prev {
      merged := merged[key := new_];
      dec := dec.(added := dec.added + [key]);
    } else if prev[key] == new_ {
      dec := dec.(same := dec.same + [key]);
    } else if Owns(rules, c.caller, key) {
      merged := merged[key := new_];
      dec := dec.(updated := dec.updated + [key]);
    } else {
      dec := dec.(conflicts := dec.conflicts + [(key, prev[key], Change(new_))]);
    }
  }

  /** The second loop: authorised removals. */
  method RemoveKeys(rules: Rules, c: Call, fm: Frontmatter, dec0: Decision) returns (merged: Frontmatter, dec: Decision)
    ensures dec == DecidedRemovals(rules, fm, c.caller, c.remove, dec0)
    ensures forall key :: Held(merged, key) == if Dropped(rules, c, key) then None else Held(fm, key)
  {
    merged, dec := fm, dec0;
    assert c.remove[..0] == [] && c.remove[..|c.remove|] == c.remove;
    assert RemovedUpTo(rules, c, fm, merged, []);
    for i := 0 to |c.remove|
      invariant dec == DecidedRemovals(rules, fm, c.caller, c.remove[..i], dec0)
      invariant RemovedUpTo(rules, c, fm, merged, c.remove[..i])
    {
      hide RemovedUpTo, DecidedRemovals, Owns;
      var key := c.remove[i];
      RemoveOneMore(rules, c, fm, merged, i, dec0);
      if key in SERVER_KEYS || key !in merged {
      } else if Owns(rules, c.caller, key) {
        merged := merged - {key};
        dec := dec.(removed := dec.removed + [key]);
      } else {
        dec := dec.(conflicts := dec.conflicts + [(key, merged[key], Removal)]);
      }
    }
  }

  ghost predicate RemovedUpTo(rules: Rules, c: Call, fm: Frontmatter, merged: Frontmatter, keys: seq<string>) {
    forall key :: Held(merged, key) ==
      if key in keys && key !in SERVER_KEYS && Owns(rules, c.caller, key) then None else Held(fm, key)
  }

  lemma RemoveOneMore(rules: Rules, c: Call, fm: Frontmatter, merged: Frontmatter, i: nat, d: Decision)
    requires i < |c.remove| && RemovedUpTo(rules, c, fm, merged, c.remove[..i])
    ensures var key := c.remove[i];
            var owned := key !in SERVER_KEYS && key in merged && Owns(rules, c.caller, key);
            && RemovedUpTo(rules, c, fm, if owned then merged - {key} else merged, c.remove[..i + 1])
            && (key !in SERVER_KEYS && key in merged ==> key in fm && merged[key] == fm[key])
            && DecidedRemovals(rules, fm, c.caller, c.remove[..i + 1], d) ==
                 var before := DecidedRemovals(rules, fm, c.caller, c.remove[..i], d);
                 if key in SERVER_KEYS || key !in merged then before
                 else if Owns(rules, c.caller, key) then before.(removed := before.removed + [key])
                 else before.(conflicts := before.conflicts + [(key, merged[key], Removal)])
  {
    var key := c.remove[i];
    assert c.remove[..i + 1] == c.remove[..i] + [key];
    assert c.remove[..i + 1][..i] == c.remove[..i];
    assert Held(merged, key) ==
      if key in c.remove[..i] && key !in SERVER_KEYS && Owns(rules, c.caller, key) then None else Held(fm, key);
    hide Owns;
    var next := if key !in SERVER_KEYS && key in merged && Owns(rules, c.caller, key) then merged - {key} else merged;
    forall k ensures Held(next, k) ==
      if k in c.remove[..i + 1] && k !in SERVER_KEYS && Owns(rules, c.caller, k) then None else Held(fm, k)
    {
      assert Held(merged, k) ==
        if k in c.remove[..i] && k !in SERVER_KEYS && Owns(rules, c.caller, k) then None else Held(fm, k);
    }
  }

  // ---------------------------------------------------------------------------------------------
  // What the decision lists say
  // ---------------------------------------------------------------------------------------------

  /** The page has no declared owner, or the caller is its owner or holds a grant for the field. */
  predicate Authorised(rules: Rules, c: Call, key: string) {
    rules.owner == NoPack
        || (c.caller.Pack? && (c.caller == rules.owner || Held(rules.grants, key) == Some(c.caller.name)))
  }

  /** A held key that ownership governs: no server key, not `raw`, no list of citations. */
  predicate Governed(prev: Frontmatter, key: string) {
    key in prev && key !in SERVER_KEYS && key != RAW && !(key in CITATION_KEYS && prev[key].List?)
  }

  /** The caller sends the field with another value. */
  predicate Differs(prev: Frontmatter, c: Call, key: string) {
    Governed(prev, key) && key in c.incoming && c.incoming[key] != prev[key]
  }

  /** The caller sends a citation of something the held list does not cite. */
  predicate SendsNewCitation(rules: Rules, prev: Frontmatter, c: Call, key: string) {
    && key in CITATION_KEYS && key in prev && prev[key].List? && key in c.incoming
    && exists x :: x in AsList(c.incoming[key]) &&
                   forall y :: y in prev[key].items ==> Target(rules.render, y) != Target(rules.render, x)
  }

  /** The captures leave `raw` as it is: none of them is new and it is not a list of one, which is unwrapped;
      or there is only the one that is the held value itself. */
  predicate RawStays(held: Value, new_: Value) {
    || ((forall x :: x in AsList(new_) ==> x in AsList(held)) && !(held.List? && |held.items| == 1))
    || (AsList(held) == [] && AsList(new_) == [held])
  }

  /** The keys the caller contributes. */
  function AddedKeys(prev: Frontmatter, c: Call): set<string> {
    set key | key in c.incoming && key !in SERVER_KEYS && key !in prev
  }

  /** The held keys the merge changes. */
  function UpdatedKeys(rules: Rules, prev: Frontmatter, c: Call): set<string> {
    set key | key in c.incoming &&
              (|| (Differs(prev, c, key) && Authorised(rules, c, key))
               || SendsNewCitation(rules, prev, c, key)
               || (key == RAW && key in prev && !RawStays(prev[key], c.incoming[key])))
  }

  /** The held keys the caller may not change. */
  function RefusedKeys(rules: Rules, prev: Frontmatter, c: Call): set<string> {
    set key | key in c.incoming && Differs(prev, c, key) && !Authorised(rules, c, key)
  }

  /** The other held keys the caller sends. */
  function SameKeys(rules: Rules, prev: Frontmatter, c: Call): set<string> {
    set key | key in c.incoming && key in prev && key !in SERVER_KEYS
              && key !in UpdatedKeys(rules, prev, c) && key !in RefusedKeys(rules, prev, c)
  }

  /** The fields the caller asks to drop that the page has, once what it sends is merged. */
  predicate Removable(prev: Frontmatter, c: Call, key: string) {
    key in c.remove && key !in SERVER_KEYS && (key in prev || key in c.incoming)
  }

  function RemovedKeys(rules: Rules, prev: Frontmatter, c: Call): set<string> {
    set key | key in c.remove && Removable(prev, c, key) && Authorised(rules, c, key)
  }

  function RefusedRemovals(rules: Rules, prev: Frontmatter, c: Call): set<string> {
    set key | key in c.remove && Removable(prev, c, key) && !Authorised(rules, c, key)
  }

  /** The entries of a list that are in a set, in order. */
  function Picked(order: seq<string>, chosen: set<string>): seq<string> {
    if order == [] then []
    else
      var n := |order| - 1;
      Picked(order[..n], chosen) + if order[n] in chosen then [order[n]] else []
  }

  /** The entries of a list, each where it first appears. */
  function Firsts(order: seq<string>): (r: seq<string>)
    ensures forall x :: x in r <==> x in order
  {
    if order == [] then []
    else
      var n := |order| - 1;
      assert order == order[..n] + [order[n]];
      Firsts(order[..n]) + if order[n] in order[..n] then [] else [order[n]]
  }

  function ChangeConflicts(prev: Frontmatter, c: Call, keys: seq<string>): seq<(string, Value, Attempt)> {
    seq(|keys|, i requires 0 <= i < |keys| => (keys[i], Get(prev, keys[i]), Change(Get(c.incoming, keys[i]))))
  }

  function RemovalConflicts(page: Frontmatter, keys: seq<string>): seq<(string, Value, Attempt)> {
    seq(|keys|, i requires 0 <= i < |keys| => (keys[i], Get(page, keys[i]), Removal))
  }

  /** The decision lists of a merge that leaves `merged`, each in the order of the loop that fills it. */
  ghost predicate Accounted(rules: Rules, prev: Frontmatter, c: Call, order: seq<string>, merged: Frontmatter,
                            dec: Decision) {
    && dec.added == Picked(order, AddedKeys(prev, c))
    && dec.updated == Picked(order, UpdatedKeys(rules, prev, c))
    && dec.same == Picked(order, SameKeys(rules, prev, c))
    && dec.removed == Firsts(Picked(c.remove, RemovedKeys(rules, prev, c)))
    && dec.conflicts == ChangeConflicts(prev, c, Picked(order, RefusedKeys(rules, prev, c)))
                        + RemovalConflicts(merged, Picked(c.remove, RefusedRemovals(rules, prev, c)))
  }

  /** What the page holds under a key once the call is merged, but for the stamp: provenance stays, what an
      authorised caller drops is gone, what it sends lands where it is the server's own key, new, or the
      caller's to change, and everything else stays. What `raw` and held citation lists gain is the union's
      and `CitationAdditions`' to say. */
  ghost predicate LandsAs(rules: Rules, prev: Frontmatter, c: Call, key: string, v: Option<Value>) {
    if key in PROVENANCE_KEYS then v == Held(prev, key)
    else if key in RemovedKeys(rules, prev, c) then v == None
    else if key in c.incoming && key in prev && (key == RAW || (key in CITATION_KEYS && prev[key].List?)) then v.Some?
    else if key in c.incoming
        && (key in SERVER_KEYS || key !in prev || (Differs(prev, c, key) && Authorised(rules, c, key)))
    then v == Some(c.incoming[key])
    else v == Held(prev, key)
  }

  /** The value names the maintainer: it lists it, or is it. */
  predicate Maintains(v: Option<Value>, x: Value) {
    v.Some? && (if v.value.List? then x in v.value.items else Truthy(v.value) && v.value == x)
  }

  /** `w` lists whom `v` names and, for a pack's call, the pack. */
  ghost predicate StampedOver(v: Option<Value>, caller: Pack, w: Option<Value>) {
    if caller.NoPack? then w == v
    else
      && w.Some? && w.value.List?
      && forall x :: x in w.value.items <==> Maintains(v, x) || x == Str(caller.name)
  }

  /** Every key of the merged page holds what it should. */
  ghost predicate Landed(rules: Rules, prev: Frontmatter, c: Call, merged: Frontmatter) {
    && (forall key :: key != "maintained_by" ==> LandsAs(rules, prev, c, key, Held(merged, key)))
    && (exists v ::
        LandsAs(rules, prev, c, "maintained_by", v) && StampedOver(v, c.caller, Held(merged, "maintained_by")))
  }

  lemma KeptLands(rules: Rules, prev: Frontmatter, c: Call, key: string)
    ensures LandsAs(rules, prev, c, key, if Dropped(rules, c, key) then None else AfterIncoming(rules, prev, c, key))
  {
    OwnsIff(rules, c, key);
    hide Owns, Authorised, Additions, AppendOnlyUnion, Target;
    assert RAW !in CITATION_KEYS && RAW !in SERVER_KEYS;
    assert key in CITATION_KEYS ==> key !in SERVER_KEYS;
    assert key in PROVENANCE_KEYS ==> key in SERVER_KEYS;
  }

  lemma StampIs(v: Option<Value>, name: string)
    ensures StampedOver(v, Pack(name), Some(Stamp(v, name)))
  {
  }

  lemma MergeLands(rules: Rules, prev: Frontmatter, c: Call)
    ensures Landed(rules, prev, c, Merge(rules, prev, c))
  {
    hide LandsAs, AfterIncoming, Dropped, Stamp, StampedOver;
    var merged := Merge(rules, prev, c);
    forall key | key != "maintained_by" ensures LandsAs(rules, prev, c, key, Held(merged, key)) {
      MergeLookup(rules, prev, c, key);
      KeptLands(rules, prev, c, key);
    }
    var key := "maintained_by";
    var v := if Dropped(rules, c, key) then None else AfterIncoming(rules, prev, c, key);
    KeptLands(rules, prev, c, key);
    MergeLookup(rules, prev, c, key);
    hide Merge;
    assert StampedOver(v, c.caller, Held(merged, key)) by {
      if c.caller.Pack? {
        StampIs(v, c.caller.name);
      } else {
        Unstamped(v);
      }
    }
  }

  lemma Unstamped(v: Option<Value>)
    ensures StampedOver(v, NoPack, v)
  {
  }

  lemma OwnsIff(rules: Rules, c: Call, key: string)
    ensures Owns(rules, c.caller, key) <==> Authorised(rules, c, key)
  {
  }

  lemma AdditionsLast(render: Render, held: seq<Value>, new_: seq<Value>)
    requires new_ != []
    ensures var n := |new_| - 1;
            var rest := Additions(render, held, new_[..n]);
            Additions(render, held, new_) == [] <==> rest == [] && Cited(render, held, new_[n])
  {
    hide Target;
    var rest := Additions(render, held, new_[..|new_| - 1]);
    assert rest == [] ==> held + rest == held;
  }

  ghost predicate EachCited(render: Render, held: seq<Value>, new_: seq<Value>) {
    forall x :: x in new_ ==> Cited(render, held, x)
  }

  lemma EachCitedLast(render: Render, held: seq<Value>, new_: seq<Value>)
    requires new_ != []
    ensures var n := |new_| - 1;
            EachCited(render, held, new_) <==> EachCited(render, held, new_[..n]) && Cited(render, held, new_[n])
  {
    var n := |new_| - 1;
    assert new_ == new_[..n] + [new_[n]];
    hide Cited;
  }

  /** No citation is added exactly when every one sent is of something the held list cites. */
  lemma {:induction false} NothingAddedIff(render: Render, held: seq<Value>, new_: seq<Value>)
    ensures Additions(render, held, new_) == [] <==> EachCited(render, held, new_)
  {
    if new_ != [] {
      hide Additions, Cited, EachCited;
      NothingAddedIff(render, held, new_[..|new_| - 1]);
      AdditionsLast(render, held, new_);
      EachCitedLast(render, held, new_);
    }
  }

  /** Captures that are all held leave `raw` as it is, but for a list of one, which is unwrapped. */
  lemma HeldCapturesStay(held: Value, new_: Value)
    requires NotIn(AsList(new_), AsList(held)) == []
    ensures AppendOnlyUnion(held, new_) == held <==> !(held.List? && |held.items| == 1)
  {
    assert AsList(held) + NotIn(AsList(new_), AsList(held)) == AsList(held);
    if held.List? && |held.items| == 1 {
      assert held.items[0] < held;
    }
    hide NotIn;
  }

  lemma UnionOfItems(held: Value, new_: Value, items: seq<Value>)
    requires items == AsList(held) + NotIn(AsList(new_), AsList(held))
    ensures AppendOnlyUnion(held, new_) == if |items| > 1 then List(items) else if |items| == 1 then items[0] else held
  {
    hide NotIn, AsList;
  }

  /** The list is what `raw` holds already only if it holds all of it. */
  lemma ListIsHeld(held: Value, items: seq<Value>)
    requires |items| > |AsList(held)|
    ensures List(items) != held
  {
  }

  lemma NothingHeld(held: Value, items: seq<Value>)
    requires AsList(held) == [] && items != []
    ensures (if |items| > 1 then List(items) else items[0]) == held <==> items == [held]
  {
    if |items| > 1 {
      ListIsHeld(held, items);
    }
    hide AsList;
  }

  /** New ones change it, unless the only capture is what `raw` holds already. */
  lemma NewCapturesChange(held: Value, new_: Value)
    requires NotIn(AsList(new_), AsList(held)) != []
    ensures AppendOnlyUnion(held, new_) == held <==> AsList(held) == [] && AsList(new_) == [held]
  {
    hide NotIn, AsList, AppendOnlyUnion;
    var items := AsList(held) + NotIn(AsList(new_), AsList(held));
    UnionOfItems(held, new_, items);
    if AsList(held) == [] {
      NotInNothing(AsList(new_));
      assert items == AsList(new_);
      NothingHeld(held, items);
    } else {
      ListIsHeld(held, items);
    }
  }

  lemma RawStaysIff(held: Value, new_: Value)
    ensures AppendOnlyUnion(held, new_) == held <==> RawStays(held, new_)
  {
    var beyond := NotIn(AsList(new_), AsList(held));
    assert forall x :: x in beyond <==> x in AsList(new_) && x !in AsList(held);
    hide NotIn, AppendOnlyUnion, AsList;
    if beyond == [] {
      HeldCapturesStay(held, new_);
    } else {
      NewCapturesChange(held, new_);
      assert beyond[0] in beyond;
    }
  }

  lemma KindIs(rules: Rules, prev: Frontmatter, c: Call, key: string)
    requires key in c.incoming
    ensures var kind := KindOf(rules, prev, c, key);
            && (kind == Added <==> key in AddedKeys(prev, c))
            && (kind == Updated <==> key in UpdatedKeys(rules, prev, c))
            && (kind == Conflict <==> key in RefusedKeys(rules, prev, c))
            && (kind == Unchanged <==> key in SameKeys(rules, prev, c))
  {
    OwnsIff(rules, c, key);
    assert RAW !in CITATION_KEYS && RAW !in SERVER_KEYS;
    assert key in CITATION_KEYS ==> key !in SERVER_KEYS;
    if key in prev {
      RawStaysIff(prev[key], c.incoming[key]);
      if prev[key].List? {
        NothingAddedIff(rules.render, prev[key].items, AsList(c.incoming[key]));
      }
    }
    hide Owns, Authorised, Additions, Target, AppendOnlyUnion, RawStays, AsList;
  }

  /** What the first loop files where. */
  ghost predicate Filed(rules: Rules, prev: Frontmatter, c: Call, order: seq<string>, d: Decision) {
    && d.added == Picked(order, AddedKeys(prev, c))
    && d.updated == Picked(order, UpdatedKeys(rules, prev, c))
    && d.same == Picked(order, SameKeys(rules, prev, c))
    && d.removed == []
    && d.conflicts == ChangeConflicts(prev, c, Picked(order, RefusedKeys(rules, prev, c)))
  }

  lemma FiledOneMore(rules: Rules, prev: Frontmatter, c: Call, order: seq<string>, d: Decision, key: string)
    requires key in c.incoming && Filed(rules, prev, c, order, d)
    ensures Filed(rules, prev, c, order + [key],
                  Note(d, KindOf(rules, prev, c, key), key, Get(prev, key), c.incoming[key]))
  {
    KindIs(rules, prev, c, key);
    PickedOneMore(order, key, AddedKeys(prev, c));
    PickedOneMore(order, key, UpdatedKeys(rules, prev, c));
    PickedOneMore(order, key, SameKeys(rules, prev, c));
    PickedOneMore(order, key, RefusedKeys(rules, prev, c));
    ConflictsJoined(prev, c, Picked(order, RefusedKeys(rules, prev, c)), key);
    hide KindOf, AddedKeys, UpdatedKeys, SameKeys, RefusedKeys, ChangeConflicts, Picked;
  }

  lemma PickedOneMore(order: seq<string>, key: string, chosen: set<string>)
    ensures Picked(order + [key], chosen) == if key in chosen then Picked(order, chosen) + [key]
              else Picked(order, chosen)
  {
    assert (order + [key])[..|order|] == order;
  }

  lemma ConflictsJoined(prev: Frontmatter, c: Call, keys: seq<string>, key: string)
    requires key in c.incoming
    ensures ChangeConflicts(prev, c, keys + [key])
              == ChangeConflicts(prev, c, keys) + [(key, Get(prev, key), Change(c.incoming[key]))]
  {
  }

  lemma {:induction false} DecidedIsFiled(rules: Rules, prev: Frontmatter, c: Call, order: seq<string>)
    requires forall k :: k in order ==> k in c.incoming
    ensures Filed(rules, prev, c, order, Decided(rules, prev, c, order))
  {
    if order != [] {
      var n := |order| - 1;
      DecidedIsFiled(rules, prev, c, order[..n]);
      FiledOneMore(rules, prev, c, order[..n], Decided(rules, prev, c, order[..n]), order[n]);
      assert order == order[..n] + [order[n]];
      hide Filed, Note, KindOf;
    }
  }

  lemma PageHas(rules: Rules, prev: Frontmatter, c: Call, key: string)
    requires key !in SERVER_KEYS
    ensures key in Incorporated(rules, prev, c) <==> key in prev || key in c.incoming
    ensures key in prev || key in c.incoming ==> AfterIncoming(rules, prev, c, key).Some?
  {
    hide Additions, AppendOnlyUnion, Owns, Target;
  }

  /** A field the caller may not drop is on the page as it is left. */
  lemma RefusedStays(rules: Rules, prev: Frontmatter, c: Call, key: string)
    requires key in RefusedRemovals(rules, prev, c)
    ensures key in Merge(rules, prev, c) && key in Incorporated(rules, prev, c)
    ensures Merge(rules, prev, c)[key] == Incorporated(rules, prev, c)[key]
  {
    PageHas(rules, prev, c, key);
    OwnsIff(rules, c, key);
    MergeLookup(rules, prev, c, key);
    hide AfterIncoming, Authorised, Owns, Merge;
    assert key != "maintained_by";
  }

  lemma {:induction false} PickedMembers(order: seq<string>, chosen: set<string>)
    ensures forall x :: x in Picked(order, chosen) <==> x in order && x in chosen
  {
    if order != [] {
      var n := |order| - 1;
      PickedMembers(order[..n], chosen);
      assert order == order[..n] + [order[n]];
    }
  }

  lemma FirstsOneMore(order: seq<string>, key: string, chosen: set<string>)
    ensures Firsts(Picked(order + [key], chosen))
         == Firsts(Picked(order, chosen)) + if key in chosen && key !in order then [key] else []
  {
    PickedMembers(order, chosen);
    assert (order + [key])[..|order|] == order;
    var picked := Picked(order, chosen);
    assert (picked + [key])[..|picked|] == picked;
    assert picked + [] == picked && Firsts(picked) + [] == Firsts(picked);
  }

  lemma RefusalsOneMore(page: Frontmatter, order: seq<string>, key: string, chosen: set<string>)
    ensures RemovalConflicts(page, Picked(order + [key], chosen))
         == RemovalConflicts(page, Picked(order, chosen)) + if key in chosen then [(key, Get(page, key), Removal)]
             else []
  {
    PickedOneMore(order, key, chosen);
    RefusalsJoined(page, Picked(order, chosen), key);
    hide Picked, RemovalConflicts;
  }

  lemma RefusalsJoined(page: Frontmatter, keys: seq<string>, key: string)
    ensures RemovalConflicts(page, keys + [key]) == RemovalConflicts(page, keys) + [(key, Get(page, key), Removal)]
  {
  }

  lemma RemovalDecided(rules: Rules, prev: Frontmatter, c: Call, keys: seq<string>, d: Decision)
    requires keys != [] && keys[|keys| - 1] in c.remove
    ensures var page, n := Incorporated(rules, prev, c), |keys| - 1;
            var before, key := DecidedRemovals(rules, page, c.caller, keys[..n], d), keys[n];
            DecidedRemovals(rules, page, c.caller, keys, d) ==
              if key in RemovedKeys(rules, prev, c) then
                (if key in keys[..n] then before else before.(removed := before.removed + [key]))
              else if key in RefusedRemovals(rules, prev, c) then
                before.(conflicts := before.conflicts + [(key, Get(Merge(rules, prev, c), key), Removal)])
              else before
  {
    var key := keys[|keys| - 1];
    OwnsIff(rules, c, key);
    if key !in SERVER_KEYS {
      PageHas(rules, prev, c, key);
    }
    if key in RefusedRemovals(rules, prev, c) {
      RefusedStays(rules, prev, c, key);
    }
    hide Incorporated, Merge, Owns, Authorised;
  }

  lemma RemovedNotRefused(rules: Rules, prev: Frontmatter, c: Call, key: string)
    ensures !(key in RemovedKeys(rules, prev, c) && key in RefusedRemovals(rules, prev, c))
  {
  }

  /** What the second loop files where. */
  ghost predicate RemovalsFiled(rules: Rules, prev: Frontmatter, c: Call, keys: seq<string>, d: Decision, r: Decision) {
    && r.added == d.added && r.updated == d.updated && r.same == d.same
    && r.removed == d.removed + Firsts(Picked(keys, RemovedKeys(rules, prev, c)))
    && r.conflicts ==
         d.conflicts + RemovalConflicts(Merge(rules, prev, c), Picked(keys, RefusedRemovals(rules, prev, c)))
  }

  lemma RemovalFiled(rules: Rules, prev: Frontmatter, c: Call, keys: seq<string>, key: string, d: Decision,
                     before: Decision,
                     r: Decision)
    requires RemovalsFiled(rules, prev, c, keys, d, before)
    requires r == if key in RemovedKeys(rules, prev, c) then
                    (if key in keys then before else before.(removed := before.removed + [key]))
                  else if key in RefusedRemovals(rules, prev, c) then
                    before.(conflicts := before.conflicts + [(key, Get(Merge(rules, prev, c), key), Removal)])
                  else before
    ensures RemovalsFiled(rules, prev, c, keys + [key], d, r)
  {
    FirstsOneMore(keys, key, RemovedKeys(rules, prev, c));
    RefusalsOneMore(Merge(rules, prev, c), keys, key, RefusedRemovals(rules, prev, c));
    RemovedNotRefused(rules, prev, c, key);
    hide Firsts, Picked, RemovalConflicts, RemovedKeys, RefusedRemovals, Merge;
  }

  lemma {:induction false} RemovalsAreFiled(rules: Rules, prev: Frontmatter, c: Call, keys: seq<string>, d: Decision)
    requires forall k :: k in keys ==> k in c.remove
    ensures RemovalsFiled(rules, prev, c, keys, d,
                          DecidedRemovals(rules, Incorporated(rules, prev, c), c.caller, keys, d))
  {
    if keys != [] {
      var n := |keys| - 1;
      var page := Incorporated(rules, prev, c);
      RemovalsAreFiled(rules, prev, c, keys[..n], d);
      RemovalDecided(rules, prev, c, keys, d);
      assert keys == keys[..n] + [keys[n]];
      hide *;
      RemovalFiled(rules, prev, c, keys[..n], keys[n], d, DecidedRemovals(rules, page, c.caller, keys[..n], d),
                   DecidedRemovals(rules, page, c.caller, keys, d));
    }
  }

  /** The first loop: the incoming keys. */
  method MergeKeys(rules: Rules, prev: Frontmatter, c: Call, order: seq<string>)
    returns (merged: Frontmatter, dec: Decision)
    requires forall k :: k in order <==> k in c.incoming
    requires forall i, j :: 0 <= i < j < |order| ==> order[i] != order[j]
    ensures MergedUpTo(rules, prev, c, merged, order)
    ensures dec == Decided(rules, prev, c, order)
  {
    merged := prev;
    dec := Decision([], [], [], [], []);
    NothingMerged(rules, prev, c);
    assert order[..0] == [] && order[..|order|] == order;
    hide Decided, Incorporate, AfterIncoming, KindOf, Note, MergedUpTo;
    for i := 0 to |order|
      invariant MergedUpTo(rules, prev, c, merged, order[..i])
      invariant dec == Decided(rules, prev, c, order[..i])
    {
      var key := order[i];
      assert key !in order[..i] && order[..i + 1] == order[..i] + [key];
      NotYetMerged(rules, prev, c, merged, order[..i], key);
      DecidedOneMore(rules, prev, c, order, i);
      ghost var before := merged;
      merged, dec := MergeKey(rules, prev, c, key, merged, dec);
      MergedOneMore(rules, prev, c, before, order[..i], key, merged);
    }
  }

  /** `merge_frontmatter`. `order` is the order in which the incoming mapping lists its keys. */
  method MergeFrontmatter(rules: Rules, prev: Frontmatter, c: Call, order: seq<string>)
    returns (merged: Frontmatter, dec: Decision)
    requires forall k :: k in order <==> k in c.incoming
    requires forall i, j :: 0 <= i < j < |order| ==> order[i] != order[j]
    ensures merged == Merge(rules, prev, c)
    ensures dec == DecidedRemovals(rules, Incorporated(rules, prev, c), c.caller, c.remove,
                                   Decided(rules, prev, c, order))
    ensures Accounted(rules, prev, c, order, merged, dec)
    ensures Landed(rules, prev, c, merged)
  {
    hide Decided, Incorporated, DecidedRemovals, Accounted, Landed, MergedUpTo, Merge, Stamp, Dropped;
    merged, dec := MergeKeys(rules, prev, c, order);
    ghost var page := merged;
    PageIs(rules, prev, c, order, page);
    merged, dec := RemoveKeys(rules, c, merged, dec);
    ghost var kept := merged;
    if c.caller.Pack? {
      merged := merged["maintained_by" := Stamp(Held(merged, "maintained_by"), c.caller.name)];
    }
    MergedIs(rules, prev, c, order, page, kept, merged);
    DecisionIsAccounted(rules, prev, c, order);
    MergeLands(rules, prev, c);
  }

  lemma NothingMerged(rules: Rules, prev: Frontmatter, c: Call)
    ensures MergedUpTo(rules, prev, c, prev, []) && Decided(rules, prev, c, []) == Decision([], [], [], [], [])
  {
  }

  lemma NotYetMerged(rules: Rules, prev: Frontmatter, c: Call, merged: Frontmatter, keys: seq<string>, key: string)
    requires forall k :: k in keys ==> k in c.incoming
    requires MergedUpTo(rules, prev, c, merged, keys) && key !in keys
    ensures Held(merged, key) == Held(prev, key)
  {
  }

  lemma DecisionIsAccounted(rules: Rules, prev: Frontmatter, c: Call, order: seq<string>)
    requires forall k :: k in order <==> k in c.incoming
    ensures Accounted(rules, prev, c, order, Merge(rules, prev, c),
                      DecidedRemovals(rules, Incorporated(rules, prev, c), c.caller, c.remove,
                                      Decided(rules, prev, c, order)))
  {
    var d := Decided(rules, prev, c, order);
    DecidedIsFiled(rules, prev, c, order);
    RemovalsAreFiled(rules, prev, c, c.remove, d);
    hide Decided, DecidedRemovals, Picked, Firsts, Merge, Incorporated, ChangeConflicts, RemovalConflicts;
  }

  lemma DecidedOneMore(rules: Rules, prev: Frontmatter, c: Call, order: seq<string>, i: nat)
    requires i < |order| && forall k :: k in order ==> k in c.incoming
    ensures Decided(rules, prev, c, order[..i + 1]) ==
            Note(Decided(rules, prev, c, order[..i]), KindOf(rules, prev, c, order[i]), order[i],
                 Get(prev, order[i]), c.incoming[order[i]])
  {
    assert order[..i + 1][..i] == order[..i];
  }

  lemma PageIs(rules: Rules, prev: Frontmatter, c: Call, order: seq<string>, page: Frontmatter)
    requires forall k :: k in order <==> k in c.incoming
    requires MergedUpTo(rules, prev, c, page, order)
    ensures page == Incorporated(rules, prev, c)
  {
    hide Incorporate;
    forall key ensures Held(page, key) == Held(Incorporated(rules, prev, c), key) {
      assert Held(page, key) == if key in order then AfterIncoming(rules, prev, c, key) else Held(prev, key);
    }
    SameLookups(page, Incorporated(rules, prev, c));
  }

  lemma MergedIs(rules: Rules, prev: Frontmatter, c: Call, order: seq<string>, page: Frontmatter, kept: Frontmatter,
                 merged: Frontmatter)
    requires forall k :: k in order <==> k in c.incoming
    requires MergedUpTo(rules, prev, c, page, order)
    requires forall key :: Held(kept, key) == if Dropped(rules, c, key) then None else Held(page, key)
    requires merged ==
             if c.caller.Pack? then kept["maintained_by" := Stamp(Held(kept, "maintained_by"), c.caller.name)] else kept
    ensures merged == Merge(rules, prev, c)
  {
    hide Incorporate, Stamp, Dropped;
    forall key ensures Held(page, key) == AfterIncoming(rules, prev, c, key) {
      assert Held(page, key) == if key in order then AfterIncoming(rules, prev, c, key) else Held(prev, key);
    }
    hide AfterIncoming, MergedUpTo;
    var spec := Merge(rules, prev, c);
    forall key ensures Held(merged, key) == Held(spec, key) {
      MergeLookup(rules, prev, c, key);
    }
    hide Merge, Final;
    SameLookups(merged, spec);
  }
}
