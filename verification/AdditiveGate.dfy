/** The additive gate of converge-on-write: `additive_payload` and `additive_gate` of
    `okengine-mcp/converge.py`, and what they guarantee once their payload is merged. */
module AdditiveGate {
  import opened Converge
  import opened Text
  import opened Values

  const ADDITIVE_ACTORS: set<string> := {"cron:entity-backfill", "cron:concept-backfill"}
  const NO_ADD_KEYS: set<string> := {
    "link_stub", "redirect_to", "tombstoned", "status", "superseded_by", "rejected_aliases", "canonical"
  }
  const DISPLAY_KEYS: set<string> := {"title", "name"}
  const ALIASES := "aliases"

  /** What the write path supplies: how names are compared, which aliases another live page does not
      hold (never, when the caller passes no check), the identity of a URL (empty for none), the parts
      of a list stored as one string, and `str`. */
  datatype Hooks = Hooks(
    fold: Value -> string,
    aliasOk: Value -> bool,
    urlIdentity: Value -> string,
    parts: Value -> seq<Value>,
    render: Render)

  datatype Disagreement = Disagreement(key: string, current: Value, incoming: Value)

  // ---------------------------------------------------------------------------------------------
  // The payload, key by key
  // ---------------------------------------------------------------------------------------------

  /** `_empty` */
  predicate Empty(v: Value) {
    v == Null || v == Str("") || v == List([]) || v == Obj(map[])
  }

  function HeldNames(prev: Frontmatter): seq<Value> {
    (if Empty(Get(prev, "name")) then [] else [prev["name"]])
        + (if Empty(Get(prev, "title")) then [] else [prev["title"]])
  }

  function HeldAliases(h: Hooks, prev: Frontmatter): seq<Value> {
    var v := Get(prev, ALIASES);
    if v.List? then v.items else if Empty(v) then [] else h.parts(v)
  }

  /** Every folded name the page answers to. */
  function KnownFolds(h: Hooks, prev: Frontmatter): set<string> {
    set x | x in HeldNames(prev) + HeldAliases(h, prev) :: h.fold(x)
  }

  /** The page already answers to this name. */
  predicate Known(h: Hooks, prev: Frontmatter, v: Value) {
    exists x :: x in HeldNames(prev) + HeldAliases(h, prev) && h.fold(x) == h.fold(v)
  }

  /** `_same_source_url` */
  predicate SameSourceUrl(h: Hooks, prev: Frontmatter, incoming: Frontmatter) {
    var ident := h.urlIdentity(Get(prev, "url"));
    Get(prev, "type") == Str("source") && ident != "" && ident == h.urlIdentity(Get(incoming, "url"))
  }

  /** An alias the gate lets in. */
  predicate Vetted(h: Hooks, prev: Frontmatter, a: Value) {
    Strip(h.render(a)) != "" && !Known(h, prev, a) && h.aliasOk(a)
  }

  /** The vetted ones of `offered`, each once, in order of first appearance. */
  function FreshAliases(h: Hooks, prev: Frontmatter, offered: seq<Value>): (r: seq<Value>)
    ensures forall a :: a in r <==> a in offered && Vetted(h, prev, a)
  {
    if offered == [] then []
    else
      var n := |offered| - 1;
      var rest := FreshAliases(h, prev, offered[..n]);
      assert offered == offered[..n] + [offered[n]];
      if Vetted(h, prev, offered[n]) && offered[n] !in rest then rest + [offered[n]] else rest
  }

  function Offered(h: Hooks, v: Value): seq<Value> {
    if v.List? then v.items else if Truthy(v) then h.parts(v) else []
  }

  /** What passes of one incoming key. */
  function Passed(h: Hooks, prev: Frontmatter, key: string, value: Value): Option<Value> {
    if key == "id" || key in NO_ADD_KEYS then None
    else if key == ALIASES then
      var gained := FreshAliases(h, prev, Offered(h, value));
      if gained == [] then None else Some(List(HeldAliases(h, prev) + gained))
    else if key in DISPLAY_KEYS && HeldNames(prev) != [] then None
    else if key == RAW || Empty(Get(prev, key)) then Some(value)
    else if value.List? && prev[key].List? then Some(List(prev[key].items + NotIn(value.items, prev[key].items)))
    else None
  }

  /** The disagreement one incoming key is reported as, if any. */
  function Reported(h: Hooks, prev: Frontmatter, incoming: Frontmatter, key: string, value: Value): seq<Disagreement> {
    var current := Get(prev, key);
    if key == "id" || key in NO_ADD_KEYS || key == ALIASES then []
    else if key in DISPLAY_KEYS && HeldNames(prev) != [] then
      if SameSourceUrl(h, prev, incoming) || Empty(value) || Known(h, prev, value) then []
      else [Disagreement(key, if Empty(current) then HeldNames(prev)[0] else current, value)]
    else if key == RAW || Empty(current) then []
    else if value.List? && current.List? then
      if NotIn(value.items, current.items) == [] then [] else [Disagreement(key, current, value)]
    else if current == value then []
    else [Disagreement(key, current, value)]
  }

  /** The payload. */
  function Payload(h: Hooks, prev: Frontmatter, incoming: Frontmatter): Frontmatter {
    map key | key in incoming && Passed(h, prev, key, incoming[key]).Some? :: Passed(h, prev, key, incoming[key]).value
  }

  /** The disagreements over the incoming keys `order`. */
  function Disagreements(h: Hooks, prev: Frontmatter, incoming: Frontmatter, order: seq<string>): seq<Disagreement>
    requires Within(order, incoming)
  {
    if order == [] then []
    else
      var n := |order| - 1;
      Disagreements(h, prev, incoming, order[..n]) + Reported(h, prev, incoming, order[n], incoming[order[n]])
  }

  // ---------------------------------------------------------------------------------------------
  // The payload, as it is built
  // ---------------------------------------------------------------------------------------------

  /** `order` is an order in which the mapping lists its keys. */
  ghost predicate Lists(order: seq<string>, fm: Frontmatter) {
    && (forall k :: k in order <==> k in fm)
    && (forall i, j :: 0 <= i < j < |order| ==> order[i] != order[j])
  }

  method CollectFresh(h: Hooks, prev: Frontmatter, offered: seq<Value>, known: set<string>) returns (gained: seq<Value>)
    requires known == KnownFolds(h, prev)
    ensures gained == FreshAliases(h, prev, offered)
  {
    gained := [];
    for i := 0 to |offered|
      invariant gained == FreshAliases(h, prev, offered[..i])
    {
      assert offered[..i + 1][..i] == offered[..i];
      var a := offered[i];
      if Strip(h.render(a)) != "" && h.fold(a) !in known && h.aliasOk(a) {
        if a !in gained {
          gained := gained + [a];
        }
      }
    }
    assert offered[..|offered|] == offered;
  }

  lemma Prefixes(order: seq<string>, fm: Frontmatter)
    requires Lists(order, fm)
    ensures order[..0] == [] && order[..|order|] == order
    ensures forall i :: 0 <= i <= |order| ==> Within(order[..i], fm)
    ensures forall i :: 0 <= i < |order| ==>
              order[i] in fm && order[i] !in order[..i] && order[..i + 1] == order[..i] + [order[i]]
  {
  }

  ghost predicate Within(keys: seq<string>, fm: Frontmatter) {
    forall k :: k in keys ==> k in fm
  }

  /** One turn of the loop of `additive_payload`. */
  method PassKey(h: Hooks, prev: Frontmatter, incoming: Frontmatter, key: string, known: set<string>, out0: Frontmatter,
                 dropped0: seq<Disagreement>)
    returns (out: Frontmatter, dropped: seq<Disagreement>)
    requires key in incoming
    requires known == KnownFolds(h, prev)
    ensures out == match Passed(h, prev, key, incoming[key]) case None => out0 case Some(v) => out0[key := v]
    ensures dropped == dropped0 + Reported(h, prev, incoming, key, incoming[key])
  {
    hide SameSourceUrl, FreshAliases;
    out, dropped := out0, dropped0;
    var value, current := incoming[key], Get(prev, key);
    if key == "id" || key in NO_ADD_KEYS {
    } else if key == ALIASES {
      var gained := CollectFresh(h, prev, Offered(h, value), known);
      if gained != [] {
        out := out[key := List(HeldAliases(h, prev) + gained)];
      }
    } else if key in DISPLAY_KEYS && HeldNames(prev) != [] {
      if !SameSourceUrl(h, prev, incoming) && !Empty(value) && h.fold(value) !in known {
        dropped := dropped + [Disagreement(key, if !Empty(current) then current else HeldNames(prev)[0], value)];
      }
    } else if key == RAW || key !in prev || Empty(current) {
      out := out[key := value];
    } else if value.List? && current.List? {
      var added := NotIn(value.items, current.items);
      out := out[key := List(current.items + added)];
      if added != [] {
        dropped := dropped + [Disagreement(key, current, value)];
      }
    } else if current != value {
      dropped := dropped + [Disagreement(key, current, value)];
    }
  }

  ghost predicate PassedUpTo(h: Hooks, prev: Frontmatter, incoming: Frontmatter, out: Frontmatter, keys: seq<string>)
    requires Within(keys, incoming)
  {
    forall key :: Held(out, key) == if key in keys then Passed(h, prev, key, incoming[key]) else None
  }

  lemma PassedOneMore(h: Hooks, prev: Frontmatter, incoming: Frontmatter, out: Frontmatter, keys: seq<string>,
                      key: string, next: Frontmatter)
    requires Within(keys, incoming)
    requires key in incoming && key !in keys
    requires PassedUpTo(h, prev, incoming, out, keys)
    requires next == match Passed(h, prev, key, incoming[key]) case None => out case Some(v) => out[key := v]
    ensures PassedUpTo(h, prev, incoming, next, keys + [key])
  {
    hide Passed;
    forall k ensures Held(next, k) == if k in keys + [key] then Passed(h, prev, k, incoming[k]) else None {
      assert Held(out, k) == if k in keys then Passed(h, prev, k, incoming[k]) else None;
    }
  }

  lemma DisagreementsOneMore(h: Hooks, prev: Frontmatter, incoming: Frontmatter, order: seq<string>, i: nat)
    requires i < |order| && Within(order[..i], incoming) && Within(order[..i + 1], incoming)
    requires order[i] in incoming
    ensures Disagreements(h, prev, incoming, order[..i + 1]) ==
            Disagreements(h, prev, incoming, order[..i]) + Reported(h, prev, incoming, order[i], incoming[order[i]])
  {
    hide Reported;
    assert order[..i + 1][..i] == order[..i];
  }

  // ---------------------------------------------------------------------------------------------
  // What the payload and the disagreements are
  // ---------------------------------------------------------------------------------------------

  /** The page has a `name` or a `title`. */
  predicate HasName(prev: Frontmatter) {
    !Empty(Get(prev, "name")) || !Empty(Get(prev, "title"))
  }

  /** One of the page's names folds to what `v` folds to. */
  predicate IsNameOf(h: Hooks, prev: Frontmatter, v: Value) {
    || (!Empty(Get(prev, "name")) && h.fold(prev["name"]) == h.fold(v))
    || (!Empty(Get(prev, "title")) && h.fold(prev["title"]) == h.fold(v))
  }

  /** One of its aliases does, listed or written in one string. */
  predicate IsAliasOf(h: Hooks, prev: Frontmatter, v: Value) {
    var held := Get(prev, "aliases");
    if held.List? then exists a :: a in held.items && h.fold(a) == h.fold(v)
    else !Empty(held) && exists a :: a in h.parts(held) && h.fold(a) == h.fold(v)
  }

  /** Both describe a source at the same address. */
  predicate SameSource(h: Hooks, prev: Frontmatter, incoming: Frontmatter) {
    && Get(prev, "type") == Str("source")
    && h.urlIdentity(Get(prev, "url")) != "" && h.urlIdentity(Get(prev, "url")) == h.urlIdentity(Get(incoming, "url"))
  }

  /** The write gives the page a name it does not go by. */
  predicate Renames(h: Hooks, prev: Frontmatter, incoming: Frontmatter, key: string) {
    && key in incoming && HasName(prev) && !Empty(incoming[key])
    && !IsNameOf(h, prev, incoming[key]) && !IsAliasOf(h, prev, incoming[key]) && !SameSource(h, prev, incoming)
  }

  /** A key the payload takes as it comes: no identity, no page-deciding key, no alias, no capture, and no
      name when the page has one. */
  predicate Open(prev: Frontmatter, key: string) {
    key != "id" && key !in NO_ADD_KEYS && key != ALIASES && key != RAW && !(key in DISPLAY_KEYS && HasName(prev))
  }

  /** The write has another value for what the page holds: something new for a list, anything else. */
  predicate Contradicts(prev: Frontmatter, incoming: Frontmatter, key: string) {
    && Open(prev, key) && key in incoming && !Empty(Get(prev, key))
    && if incoming[key].List? && prev[key].List? then exists x :: x in incoming[key].items && x !in prev[key].items
       else incoming[key] != prev[key]
  }

  /** The keys the write disagrees on. */
  function DisputedKeys(h: Hooks, prev: Frontmatter, incoming: Frontmatter): set<string> {
    set key | key in incoming &&
              (Contradicts(prev, incoming, key) || (key in DISPLAY_KEYS && Renames(h, prev, incoming, key)))
  }

  /** What the page is said to hold there: for a name it lacks, the name it has. */
  function SaidToHold(prev: Frontmatter, key: string): Value {
    if !Empty(Get(prev, key)) then prev[key]
    else if !Empty(Get(prev, "name")) then prev["name"]
    else Get(prev, "title")
  }

  function Disputes(prev: Frontmatter, incoming: Frontmatter, keys: seq<string>): seq<Disagreement> {
    seq(|keys|, i requires 0 <= i < |keys| => Disagreement(keys[i], SaidToHold(prev, keys[i]), Get(incoming, keys[i])))
  }

  /** The new items of a list, in order, after the held ones. */
  ghost predicate Extends(held: seq<Value>, sent: seq<Value>, out: seq<Value>) {
    && held <= out && (forall x :: x in out[|held|..] <==> x in sent && x !in held)
    && out[|held|..] == NotIn(sent, held)
  }

  function SentAliases(h: Hooks, value: Value): seq<Value> {
    if value.List? then value.items else if Truthy(value) then h.parts(value) else []
  }

  /** The sent aliases that pass: not blank, nothing the page answers to, approved by the write path. */
  function PassingAliases(h: Hooks, prev: Frontmatter, value: Value): set<Value> {
    set a | a in SentAliases(h, value)
            && Strip(h.render(a)) != "" && h.aliasOk(a) && !IsNameOf(h, prev, a) && !IsAliasOf(h, prev, a)
  }

  /** The items that are in the set, each where it first appears. */
  function FirstOf(items: seq<Value>, chosen: set<Value>): seq<Value> {
    if items == [] then []
    else
      var n := |items| - 1;
      FirstOf(items[..n], chosen) + if items[n] in chosen && items[n] !in items[..n] then [items[n]] else []
  }

  /** What passes of the sent aliases: the held ones, then those, in the order they first appear. */
  ghost predicate AliasesPassed(h: Hooks, prev: Frontmatter, value: Value, out: Option<Value>) {
    var passing := PassingAliases(h, prev, value);
    var held := if Get(prev, "aliases").List? then prev["aliases"].items
                else if Empty(Get(prev, "aliases")) then [] else h.parts(prev["aliases"]);
    out == if passing == {} then None else Some(List(held + FirstOf(SentAliases(h, value), passing)))
  }

  /** What passes of an open key: its value where the page holds nothing, the new items where both are lists. */
  ghost predicate OpenPassed(prev: Frontmatter, key: string, value: Value, out: Option<Value>) {
    if Empty(Get(prev, key)) then out == Some(value)
    else if value.List? && prev[key].List? then
      out.Some? && out.value.List? && Extends(prev[key].items, value.items, out.value.items)
    else out == None
  }

  /** The payload, key by key. */
  ghost predicate PassedRight(h: Hooks, prev: Frontmatter, incoming: Frontmatter, out: Frontmatter) {
    && (forall key :: key in out ==> key in incoming)
    && (forall key :: key in incoming && key == RAW ==> Held(out, key) == Some(incoming[key]))
    && (forall key :: key in incoming && key == ALIASES ==> AliasesPassed(h, prev, incoming[key], Held(out, key)))
    && (forall key :: key in incoming && key != RAW && key != ALIASES && !Open(prev, key) ==> key !in out)
    && (forall key :: key in incoming && Open(prev, key) ==> OpenPassed(prev, key, incoming[key], Held(out, key)))
  }

  lemma KnownIff(h: Hooks, prev: Frontmatter, v: Value)
    ensures Known(h, prev, v) <==> IsNameOf(h, prev, v) || IsAliasOf(h, prev, v)
  {
    var names, aliases := HeldNames(prev), HeldAliases(h, prev);
    assert forall x :: x in names + aliases <==> x in names || x in aliases;
    assert forall x :: x in names <==>
        (!Empty(Get(prev, "name")) && x == prev["name"]) || (!Empty(Get(prev, "title")) && x == prev["title"]);
    hide Empty;
  }

  lemma {:induction false} FreshAreFirst(h: Hooks, prev: Frontmatter, offered: seq<Value>, passing: set<Value>)
    requires forall a :: a in offered ==> (a in passing <==> Vetted(h, prev, a))
    ensures FreshAliases(h, prev, offered) == FirstOf(offered, passing)
  {
    hide Vetted;
    if offered != [] {
      var n := |offered| - 1;
      assert offered == offered[..n] + [offered[n]];
      FreshAreFirst(h, prev, offered[..n], passing);
    }
  }

  lemma FreshAre(h: Hooks, prev: Frontmatter, value: Value)
    ensures Offered(h, value) == SentAliases(h, value)
    ensures forall a :: a in PassingAliases(h, prev, value) <==> a in SentAliases(h, value) && Vetted(h, prev, a)
  {
    forall a ensures Known(h, prev, a) <==> IsNameOf(h, prev, a) || IsAliasOf(h, prev, a) {
      KnownIff(h, prev, a);
    }
    hide Known, IsNameOf, IsAliasOf, Strip;
  }

  lemma AliasesRight(h: Hooks, prev: Frontmatter, value: Value)
    ensures AliasesPassed(h, prev, value, Passed(h, prev, ALIASES, value))
  {
    var sent, passing := SentAliases(h, value), PassingAliases(h, prev, value);
    var gained := FreshAliases(h, prev, sent);
    FreshAre(h, prev, value);
    FreshAreFirst(h, prev, sent, passing);
    assert ALIASES != "id" && ALIASES !in NO_ADD_KEYS;
    hide FreshAliases, FirstOf, PassingAliases, Empty, Offered, SentAliases, Vetted;
    assert gained == [] <==> passing == {} by {
      if gained != [] {
        assert gained[0] in gained;
      }
    }
  }

  lemma PayloadAt(h: Hooks, prev: Frontmatter, incoming: Frontmatter, key: string)
    ensures Held(Payload(h, prev, incoming), key)
         == if key in incoming then Passed(h, prev, key, incoming[key]) else None
  {
    hide Passed;
  }

  lemma ClosedIsRight(h: Hooks, prev: Frontmatter, key: string, value: Value)
    requires key != ALIASES && !Open(prev, key)
    ensures Passed(h, prev, key, value) == if key == RAW then Some(value) else None
  {
    assert RAW != "id" && RAW !in NO_ADD_KEYS && RAW !in DISPLAY_KEYS;
    hide FreshAliases, Empty;
  }

  lemma OpenIsRight(h: Hooks, prev: Frontmatter, key: string, value: Value)
    requires Open(prev, key)
    ensures OpenPassed(prev, key, value, Passed(h, prev, key, value))
  {
    assert HeldNames(prev) == [] <==> !HasName(prev);
    hide FreshAliases, HeldNames, HasName, Extends;
    if value.List? && Get(prev, key).List? {
      ExtendsIs(prev[key].items, value.items);
    }
  }

  lemma PayloadIsRight(h: Hooks, prev: Frontmatter, incoming: Frontmatter)
    ensures PassedRight(h, prev, incoming, Payload(h, prev, incoming))
  {
    var out := Payload(h, prev, incoming);
    hide Payload, Passed, AliasesPassed, Extends, Empty;
    forall key
      ensures key in out ==> key in incoming
      ensures key in incoming ==> Held(out, key) == Passed(h, prev, key, incoming[key])
    {
      PayloadAt(h, prev, incoming, key);
    }
    assert !Open(prev, RAW) && !Open(prev, ALIASES) && RAW != ALIASES;
    hide Open;
    forall key | key in incoming
      ensures key == ALIASES ==> AliasesPassed(h, prev, incoming[key], Held(out, key))
      ensures key != ALIASES && !Open(prev, key) ==> Held(out, key) == if key == RAW then Some(incoming[key]) else None
      ensures Open(prev, key) ==> OpenPassed(prev, key, incoming[key], Held(out, key))
    {
      if key == ALIASES {
        AliasesRight(h, prev, incoming[key]);
      } else if Open(prev, key) {
        OpenIsRight(h, prev, key, incoming[key]);
      } else {
        ClosedIsRight(h, prev, key, incoming[key]);
      }
    }
  }

  lemma ExtendsIs(held: seq<Value>, sent: seq<Value>)
    ensures Extends(held, sent, held + NotIn(sent, held))
  {
    assert (held + NotIn(sent, held))[|held|..] == NotIn(sent, held);
  }

  lemma ReportedIs(h: Hooks, prev: Frontmatter, incoming: Frontmatter, key: string)
    requires key in incoming
    ensures Reported(h, prev, incoming, key, incoming[key])
         == if key in DisputedKeys(h, prev, incoming) then [Disagreement(key, SaidToHold(prev, key), incoming[key])]
             else []
  {
    KnownIff(h, prev, incoming[key]);
    assert HeldNames(prev) == [] <==> !HasName(prev);
    assert HasName(prev) ==> HeldNames(prev)[0] == if !Empty(Get(prev, "name")) then prev["name"] else prev["title"];
    assert "name" in DISPLAY_KEYS && "title" in DISPLAY_KEYS && RAW !in DISPLAY_KEYS && ALIASES !in DISPLAY_KEYS;
    hide Known, IsNameOf, IsAliasOf, HeldNames, Empty;
    if incoming[key].List? && Get(prev, key).List? {
      var beyond := NotIn(incoming[key].items, prev[key].items);
      assert beyond != [] ==> beyond[0] in beyond;
    }
    hide NotIn;
  }

  lemma {:induction false} DisagreementsAre(h: Hooks, prev: Frontmatter, incoming: Frontmatter, order: seq<string>)
    requires Within(order, incoming)
    ensures Disagreements(h, prev, incoming, order)
              == Disputes(prev, incoming, Picked(order, DisputedKeys(h, prev, incoming)))
  {
    if order != [] {
      hide Reported, DisputedKeys, Picked, Disputes;
      var n := |order| - 1;
      DisagreementsAre(h, prev, incoming, order[..n]);
      ReportedIs(h, prev, incoming, order[n]);
      PickedOneMore(order[..n], order[n], DisputedKeys(h, prev, incoming));
      OrderEnds(order);
      DisputesJoined(prev, incoming, Picked(order[..n], DisputedKeys(h, prev, incoming)), order[n]);
    }
  }

  lemma OrderEnds(order: seq<string>)
    requires order != []
    ensures order == order[..|order| - 1] + [order[|order| - 1]]
  {
  }

  lemma DisputesJoined(prev: Frontmatter, incoming: Frontmatter, keys: seq<string>, key: string)
    ensures Disputes(prev, incoming, keys + [key])
         == Disputes(prev, incoming, keys) + [Disagreement(key, SaidToHold(prev, key), Get(incoming, key))]
  {
  }

  /** `additive_payload`, with `dropped` given. */
  method AdditivePayload(h: Hooks, prev: Frontmatter, incoming: Frontmatter, order: seq<string>)
    returns (out: Frontmatter, dropped: seq<Disagreement>)
    requires Lists(order, incoming)
    ensures out == Payload(h, prev, incoming)
    ensures dropped == Disagreements(h, prev, incoming, order)
    ensures PassedRight(h, prev, incoming, out)
    ensures dropped == Disputes(prev, incoming, Picked(order, DisputedKeys(h, prev, incoming)))
  {
    out, dropped := map[], [];
    var known := KnownFolds(h, prev);
    Prefixes(order, incoming);
    assert PassedUpTo(h, prev, incoming, out, []);
    assert Disagreements(h, prev, incoming, []) == [];
    hide Lists, Passed, Reported, KnownFolds, PassedUpTo, Disagreements, PassedRight, Disputes, Picked, DisputedKeys;
    for i := 0 to |order|
      invariant PassedUpTo(h, prev, incoming, out, order[..i])
      invariant dropped == Disagreements(h, prev, incoming, order[..i])
    {
      DisagreementsOneMore(h, prev, incoming, order, i);
      ghost var before := out;
      out, dropped := PassKey(h, prev, incoming, order[i], known, out, dropped);
      PassedOneMore(h, prev, incoming, before, order[..i], order[i], out);
    }
    PayloadIs(h, prev, incoming, order, out);
    PayloadIsRight(h, prev, incoming);
    DisagreementsAre(h, prev, incoming, order);
  }

  lemma PayloadIs(h: Hooks, prev: Frontmatter, incoming: Frontmatter, order: seq<string>, out: Frontmatter)
    requires Lists(order, incoming) && PassedUpTo(h, prev, incoming, out, order)
    ensures out == Payload(h, prev, incoming)
  {
    hide Passed;
    forall key ensures Held(out, key) == Held(Payload(h, prev, incoming), key) {
      assert Held(out, key) == if key in order then Passed(h, prev, key, incoming[key]) else None;
    }
    SameLookups(out, Payload(h, prev, incoming));
  }

  // ---------------------------------------------------------------------------------------------
  // The gate
  // ---------------------------------------------------------------------------------------------

  /** The drift normalizer, absent or raising on some mappings, and the identity check, absent or a
      test of the disagreements. */
  datatype Gate = Gate(
    hooks: Hooks,
    normalize: Option<Frontmatter -> Option<Frontmatter>>,
    identity: Option<seq<Disagreement> -> bool>,
    keys: Frontmatter -> seq<string>)

  datatype Mode = Replacing | Adding | AddingSameUrl

  /** `lane_actor(actor) in ADDITIVE_ACTORS`, or inside `create_redirect` */
  predicate Additive(actor: string, createRedirect: bool) {
    Before(actor, '@') in ADDITIVE_ACTORS || createRedirect
  }

  ghost predicate Ordered(g: Gate) {
    forall fm :: Lists(g.keys(fm), fm)
  }

  /** The page and the write as the payload compares them, unless the normalizer raises. */
  function Canonical(g: Gate, prev: Frontmatter, incoming: Frontmatter): Option<(Frontmatter, Frontmatter)> {
    match g.normalize
    case None => Some((prev, incoming))
    case Some(fn) =>
      if fn(prev).None? || fn(incoming).None? then None else Some((prev + fn(prev).value, fn(incoming).value))
  }

  predicate DifferentDocument(g: Gate, prev: Frontmatter, incoming: Frontmatter)
    requires Within(g.keys(incoming), incoming)
  {
    g.identity.Some? && g.identity.value(Disagreements(g.hooks, prev, incoming, g.keys(incoming)))
  }

  function OnlyCaptures(fm: Frontmatter): Frontmatter {
    map key | key in fm && key == RAW :: fm[key]
  }

  /** What the gate lets through of an additive write. */
  ghost function GatePayload(g: Gate, prev: Frontmatter, incoming: Frontmatter): Frontmatter
    requires Ordered(g)
  {
    match Canonical(g, prev, incoming)
    case None => map[]
    case Some((prevN, incomingN)) =>
      assert Lists(g.keys(incomingN), incomingN);
      var payload := Payload(g.hooks, prevN, incomingN);
      if DifferentDocument(g, prevN, incomingN) then OnlyCaptures(payload) else payload
  }

  /** The page as the gate compares it: its own keys, and over them the schema's names for them. */
  function SeenPage(g: Gate, prev: Frontmatter): Frontmatter {
    match g.normalize
    case None => prev
    case Some(fn) => if fn(prev).None? then prev else prev + fn(prev).value
  }

  /** The write as the gate compares it: under the schema's names. */
  function SeenWrite(g: Gate, incoming: Frontmatter): Frontmatter {
    match g.normalize
    case None => incoming
    case Some(fn) => if fn(incoming).None? then incoming else fn(incoming).value
  }

  predicate Raises(g: Gate, prev: Frontmatter, incoming: Frontmatter) {
    g.normalize.Some? && (g.normalize.value(prev).None? || g.normalize.value(incoming).None?)
  }

  /** The disagreements of a write with a page, in the order of the write. */
  function Disputed(g: Gate, prev: Frontmatter, incoming: Frontmatter): seq<Disagreement> {
    Disputes(prev, incoming, Picked(g.keys(incoming), DisputedKeys(g.hooks, prev, incoming)))
  }

  /** What an additive write comes to. */
  ghost predicate Gated(g: Gate, prev0: Frontmatter, incoming0: Frontmatter, payload: Frontmatter, mode: Mode,
                        dropped: seq<Disagreement>)
  {
    if Raises(g, prev0, incoming0) then
      payload == map[] && mode == Adding && dropped == Disputed(g, prev0, incoming0)
    else
      var prev, incoming := SeenPage(g, prev0), SeenWrite(g, incoming0);
      && dropped == Disputed(g, prev, incoming)
      && if g.identity.Some? && g.identity.value(dropped) then
           mode == Adding && payload.Keys <= {RAW} && Held(payload, RAW) == Held(incoming, RAW)
         else
           && PassedRight(g.hooks, prev, incoming, payload)
           && mode == if SameSource(g.hooks, prev, incoming) then AddingSameUrl else Adding
  }

  /** The identity check takes any disagreement about a name for another document. */
  ghost predicate FlagsNames(g: Gate) {
    g.identity.Some? && forall ds: seq<Disagreement> :: (exists d :: d in ds && d.key in DISPLAY_KEYS) ==>
        g.identity.value(ds)
  }

  /** The write goes by a name the page does not answer to. */
  predicate UnderAnotherName(g: Gate, prev0: Frontmatter, incoming0: Frontmatter) {
    !Raises(g, prev0, incoming0) &&
      var prev, incoming := SeenPage(g, prev0), SeenWrite(g, incoming0);
      Renames(g.hooks, prev, incoming, "name") || Renames(g.hooks, prev, incoming, "title")
  }

  lemma AnotherNameIsDisputed(g: Gate, prev: Frontmatter, incoming: Frontmatter, key: string)
    requires Ordered(g) && key in DISPLAY_KEYS && Renames(g.hooks, prev, incoming, key)
    ensures exists d :: d in Disputed(g, prev, incoming) && d.key == key
  {
    var picked := Picked(g.keys(incoming), DisputedKeys(g.hooks, prev, incoming));
    PickedMembers(g.keys(incoming), DisputedKeys(g.hooks, prev, incoming));
    assert Lists(g.keys(incoming), incoming);
    hide Picked, Contradicts, Renames;
    assert key in picked;
    var i :| 0 <= i < |picked| && picked[i] == key;
    assert Disputes(prev, incoming, picked)[i].key == key;
  }

  /** Under such a name, with such a check, a write passes nothing but its captures. */
  lemma AnotherNameAddsNothing(g: Gate, prev0: Frontmatter, incoming0: Frontmatter, payload: Frontmatter, mode: Mode,
                               dropped: seq<Disagreement>)
    requires Ordered(g) && Gated(g, prev0, incoming0, payload, mode, dropped)
    ensures FlagsNames(g) && UnderAnotherName(g, prev0, incoming0) ==> payload.Keys <= {RAW}
  {
    if FlagsNames(g) && UnderAnotherName(g, prev0, incoming0) {
      var prev, incoming := SeenPage(g, prev0), SeenWrite(g, incoming0);
      var key := if Renames(g.hooks, prev, incoming, "name") then "name" else "title";
      AnotherNameIsDisputed(g, prev, incoming, key);
      hide PassedRight, Renames, Disputed, SeenPage, SeenWrite, Ordered;
    }
  }

  /** `additive_gate`. `remove` is the parsed list of fields to drop. */
  method ApplyGate(g: Gate, actor: string, createRedirect: bool, prev0: Frontmatter, incoming0: Frontmatter,
                   remove: seq<string>)
    returns (payload: Frontmatter, removeList: seq<string>, mode: Mode, dropped: seq<Disagreement>)
    requires Ordered(g)
    ensures !Additive(actor, createRedirect) ==>
              payload == incoming0 && removeList == remove && mode == Replacing && dropped == []
    ensures Additive(actor, createRedirect) ==>
              payload == GatePayload(g, prev0, incoming0) && removeList == [] && mode != Replacing
    ensures Additive(actor, createRedirect) ==>
              var (prev, incoming) :=
                match Canonical(g, prev0, incoming0) case None => (prev0, incoming0) case Some(pair) => pair;
              dropped == Disagreements(g.hooks, prev, incoming, g.keys(incoming))
    ensures mode == AddingSameUrl <==>
              && Additive(actor, createRedirect)
              && Canonical(g, prev0, incoming0).Some?
              && var (prev, incoming) := Canonical(g, prev0, incoming0).value;
                 SameSourceUrl(g.hooks, prev, incoming) && !DifferentDocument(g, prev, incoming)
    ensures Additive(actor, createRedirect) ==> Gated(g, prev0, incoming0, payload, mode, dropped)
    ensures Additive(actor, createRedirect) && FlagsNames(g) && UnderAnotherName(g, prev0, incoming0) ==>
              payload.Keys <= {RAW}
  {
    hide Payload, Disagreements, Lists, PassedRight, Disputes, DisputedKeys, Picked, UnderAnotherName, FlagsNames;
    if !Additive(actor, createRedirect) {
      return incoming0, remove, Replacing, [];
    }
    var prev, incoming := prev0, incoming0;
    assert Lists(g.keys(incoming0), incoming0);
    if g.normalize.Some? {
      var prevN, incomingN := g.normalize.value(prev0), g.normalize.value(incoming0);
      if prevN.None? || incomingN.None? {
        payload, dropped := AdditivePayload(g.hooks, prev0, incoming0, g.keys(incoming0));
        assert Gated(g, prev0, incoming0, map[], Adding, dropped);
        AnotherNameAddsNothing(g, prev0, incoming0, map[], Adding, dropped);
        return map[], [], Adding, dropped;
      }
      prev, incoming := prev0 + prevN.value, incomingN.value;
    }
    assert Lists(g.keys(incoming), incoming);
    payload, dropped := AdditivePayload(g.hooks, prev, incoming, g.keys(incoming));
    removeList := [];
    if g.identity.Some? && g.identity.value(dropped) {
      OnlyCapturesAre(g.hooks, prev, incoming, payload);
      payload, mode := OnlyCaptures(payload), Adding;
    } else {
      mode := if SameSourceUrl(g.hooks, prev, incoming) then AddingSameUrl else Adding;
    }
    assert Gated(g, prev0, incoming0, payload, mode, dropped);
    AnotherNameAddsNothing(g, prev0, incoming0, payload, mode, dropped);
  }

  lemma OnlyCapturesAre(h: Hooks, prev: Frontmatter, incoming: Frontmatter, payload: Frontmatter)
    requires PassedRight(h, prev, incoming, payload)
    ensures OnlyCaptures(payload).Keys <= {RAW} && Held(OnlyCaptures(payload), RAW) == Held(incoming, RAW)
  {
    assert RAW in payload ==> RAW in incoming;
    hide AliasesPassed, OpenPassed, Open;
  }
}
