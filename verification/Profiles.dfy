/** Application profiles and their single inheritance: the merge helpers, the manifest checks and
    `_load_profile` of `scripts/application_profiles.py`. */
module Profiles {
  import opened Graphs
  import opened Text
  import opened Values

  // ---------------------------------------------------------------------------------------------
  // Versions and floors
  // ---------------------------------------------------------------------------------------------

  datatype Version = Version(major: nat, minor: nat, patch: nat)

  predicate AllDigits(s: string) {
    s != [] && forall i :: 0 <= i < |s| ==> '0' <= s[i] <= '9'
  }

  function Number(s: string): nat
    requires forall i :: 0 <= i < |s| ==> '0' <= s[i] <= '9'
  {
    if s == [] then 0 else Number(s[..|s| - 1]) * 10 + (s[|s| - 1] - '0') as nat
  }

  /** The text after the first `c`, or nothing. */
  function Beyond(text: string, c: char): string {
    if text == [] then [] else if text[0] == c then text[1..] else Beyond(text[1..], c)
  }

  /** `_version` */
  function ParseVersion(text: string): Option<Version> {
    var major, rest := Before(text, '.'), Beyond(text, '.');
    var minor, patch := Before(rest, '.'), Beyond(rest, '.');
    if AllDigits(major) && AllDigits(minor) && AllDigits(patch)
    then Some(Version(Number(major), Number(minor), Number(patch)))
    else None
  }

  /** `_floor`: what `>=X.Y.Z` asks for. */
  function Floor(v: Value): Option<Version> {
    if v.Str? && ">=" <= v.s then ParseVersion(v.s[2..]) else None
  }

  /** `a >= b`, as Python compares tuples. */
  predicate NotBelow(a: Version, b: Version) {
    a.major > b.major || (a.major == b.major && (a.minor > b.minor || (a.minor == b.minor && a.patch >= b.patch)))
  }

  // ---------------------------------------------------------------------------------------------
  // Manifests
  // ---------------------------------------------------------------------------------------------

  type Fields = map<string, Value>

  datatype Role = Role(
    minimum: Option<int>,
    fields: Option<seq<Value>>,
    operations: Option<seq<Value>>,
    allowMultiple: Option<bool>)

  datatype Contract = Contract(
    minimum: Option<int>,
    fields: Option<seq<Value>>,
    operations: Option<seq<Value>>,
    roles: map<string, Role>)

  datatype Stage = Stage(id: string, after: seq<string>, rest: Fields)

  datatype Extends = Extends(profile: string, version: Value)

  /** A manifest whose entries have the shapes the catalog format gives them; an absent entry of a
      manifest that extends another is inherited. `header` is every key the merge copies as it is. */
  datatype Manifest = Manifest(
    id: string,
    version: string,
    header: Fields,
    extends_: Option<Extends>,
    requirements: Option<Fields>,
    contract: Option<Contract>,
    loop: Option<seq<Stage>>,
    surfaces: Option<seq<Value>>,
    queues: Option<seq<Value>>,
    measures: Option<seq<Value>>,
    policy: Option<Fields>)

  function OrElse<T>(v: Option<T>, default_: T): T {
    if v.Some? then v.value else default_
  }

  const EMPTY_ROLE := Role(None, None, None, None)
  const EMPTY_CONTRACT := Contract(None, None, None, map[])

  // ---------------------------------------------------------------------------------------------
  // Merging
  // ---------------------------------------------------------------------------------------------

  /** The entries of `p`, and over them those of `c`, each as `f` makes it of what `p` holds; nothing
      when `f` refuses one. */
  function Overlay<V>(p: map<string, V>, c: map<string, V>, f: (Option<V>, string, V) -> Option<V>)
    : Option<map<string, V>>
  {
    if exists k :: k in c && f(Held(p, k), k, c[k]).None? then None
    else Some(map k | k in p.Keys + c.Keys :: if k in c then f(Held(p, k), k, c[k]).value else p[k])
  }

  /** `_ordered_union` */
  function OrderedUnion(p: seq<Value>, c: seq<Value>): seq<Value> {
    p + NotIn(c, p)
  }

  function UnionIfGiven(p: Option<seq<Value>>, c: Option<seq<Value>>): Option<seq<Value>> {
    if c.None? then p else Some(OrderedUnion(OrElse(p, []), c.value))
  }

  function MaxIfGiven(p: Option<int>, c: Option<int>): Option<int> {
    if c.None? then p
    else var inherited := OrElse(p, 1); Some(if c.value > inherited then c.value else inherited)
  }

  /** `_merge_floor` */
  function MergeFloor(p: Value, c: Value): Option<Value> {
    if Floor(p).None? || Floor(c).None? then None
    else Some(if NotBelow(Floor(c).value, Floor(p).value) then c else p)
  }

  function MergeRow(p: Option<Value>, dependency: string, c: Value): Option<Value> {
    if p.Some? then MergeFloor(p.value, c) else Some(c)
  }

  function MergeRequirement(p: Option<Value>, key: string, c: Value): Option<Value> {
    if c.Obj? && p.Some? && p.value.Obj? then
      match Overlay(p.value.fields, c.fields, MergeRow)
      case None => None
      case Some(rows) => Some(Obj(rows))
    else if p.Some? && key == "engine" then MergeFloor(p.value, c)
    else Some(c)
  }

  /** `_merge_role_contract` */
  function MergeRole(p0: Option<Role>, role: string, c: Role): Option<Role> {
    var p := OrElse(p0, EMPTY_ROLE);
    if p.allowMultiple == Some(false) && c.allowMultiple == Some(true) then None
    else Some(Role(
      MaxIfGiven(p.minimum, c.minimum),
      UnionIfGiven(p.fields, c.fields),
      UnionIfGiven(p.operations, c.operations),
      if c.allowMultiple.Some? then c.allowMultiple else p.allowMultiple))
  }

  /** `_merge_binding_contract` */
  function MergeContract(p: Contract, c: Contract): Option<Contract> {
    match Overlay(p.roles, c.roles, MergeRole)
    case None => None
    case Some(roles) => Some(Contract(
      MaxIfGiven(p.minimum, c.minimum),
      UnionIfGiven(p.fields, c.fields),
      UnionIfGiven(p.operations, c.operations),
      roles))
  }

  function MergePolicyEntry(p: Option<Value>, key: string, c: Value): Option<Value> {
    if p == Some(Bool(true)) && c != Bool(true) then None else Some(c)
  }

  /** The last stage of that id. */
  function StageOf(stages: seq<Stage>, id: string): Option<Stage> {
    if stages == [] then None
    else if stages[|stages| - 1].id == id then Some(stages[|stages| - 1])
    else StageOf(stages[..|stages| - 1], id)
  }

  /** The inherited stages, then the child's new ones; a child may repeat an inherited stage, and may
      not redefine one. */
  function MergeStages(p: seq<Stage>, c: seq<Stage>): Option<seq<Stage>> {
    if c == [] then Some(p)
    else
      var row := c[|c| - 1];
      match MergeStages(p, c[..|c| - 1])
      case None => None
      case Some(stages) =>
        match StageOf(stages, row.id)
        case None => Some(stages + [row])
        case Some(prior) => if prior == row then Some(stages) else None
  }

  /** `_merge_profiles` */
  function MergeProfiles(p: Manifest, c: Manifest): Option<Manifest> {
    var requirements := Overlay(OrElse(p.requirements, map[]), OrElse(c.requirements, map[]), MergeRequirement);
    var contract := MergeContract(OrElse(p.contract, EMPTY_CONTRACT), OrElse(c.contract, EMPTY_CONTRACT));
    var loop := MergeStages(OrElse(p.loop, []), OrElse(c.loop, []));
    var policy := Overlay(OrElse(p.policy, map[]), OrElse(c.policy, map[]), MergePolicyEntry);
    if requirements.None? || contract.None? || loop.None? || policy.None? then None
    else Some(Manifest(
      c.id, c.version, p.header + c.header, if c.extends_.Some? then c.extends_ else p.extends_,
      requirements, contract, loop,
      Some(OrderedUnion(OrElse(p.surfaces, []), OrElse(c.surfaces, []))),
      Some(OrderedUnion(OrElse(p.queues, []), OrElse(c.queues, []))),
      Some(OrderedUnion(OrElse(p.measures, []), OrElse(c.measures, []))),
      policy))
  }

  // ---------------------------------------------------------------------------------------------
  // The loops of the merge
  // ---------------------------------------------------------------------------------------------

  ghost predicate OverlaidUpTo<V>(p: map<string, V>, c: map<string, V>, f: (Option<V>, string, V) -> Option<V>,
                                  merged: map<string, V>, done: set<string>)
    requires done <= c.Keys
  {
    && (forall k :: Held(merged, k) == if k in done then f(Held(p, k), k, c[k]) else Held(p, k))
    && (forall k :: k in done ==> f(Held(p, k), k, c[k]).Some?)
  }

  lemma OverlaidOneMore<V>(p: map<string, V>, c: map<string, V>, f: (Option<V>, string, V) -> Option<V>,
                           merged: map<string, V>, rest: set<string>, key: string, v: V)
    requires OverlaidUpTo(p, c, f, merged, c.Keys - rest)
    requires key in c && key in rest && f(Held(p, key), key, c[key]) == Some(v)
    ensures OverlaidUpTo(p, c, f, merged[key := v], c.Keys - (rest - {key}))
  {
    var done := c.Keys - rest;
    assert c.Keys - (rest - {key}) == done + {key};
    forall k ensures Held(merged[key := v], k) == if k in done + {key} then f(Held(p, k), k, c[k]) else Held(p, k) {
      assert Held(merged, k) == if k in done then f(Held(p, k), k, c[k]) else Held(p, k);
    }
  }

  lemma OverlaidAll<V>(p: map<string, V>, c: map<string, V>, f: (Option<V>, string, V) -> Option<V>,
                       merged: map<string, V>)
    requires OverlaidUpTo(p, c, f, merged, c.Keys)
    ensures Overlay(p, c, f) == Some(merged)
  {
    var whole := Overlay(p, c, f).value;
    forall k ensures Held(merged, k) == Held(whole, k) {
      assert Held(merged, k) == if k in c.Keys then f(Held(p, k), k, c[k]) else Held(p, k);
    }
    SameLookups(merged, whole);
  }

  /** The loop over a child's entries that the four merges share, in whatever order they come. */
  method OverlayEntries<V>(p: map<string, V>, c: map<string, V>, f: (Option<V>, string, V) -> Option<V>)
    returns (r: Option<map<string, V>>)
    ensures r == Overlay(p, c, f)
  {
    var merged, rest := p, c.Keys;
    assert OverlaidUpTo(p, c, f, merged, c.Keys - rest);
    hide OverlaidUpTo, Overlay;
    while rest != {}
      invariant rest <= c.Keys
      invariant OverlaidUpTo(p, c, f, merged, c.Keys - rest)
      decreases |rest|
    {
      var key :| key in rest;
      var v := f(Held(p, key), key, c[key]);
      if v.None? {
        OverlayRefused(p, c, f, key);
        return None;
      }
      OverlaidOneMore(p, c, f, merged, rest, key, v.value);
      merged, rest := merged[key := v.value], rest - {key};
    }
    assert c.Keys - rest == c.Keys;
    OverlaidAll(p, c, f, merged);
    r := Some(merged);
  }

  lemma OverlayRefused<V>(p: map<string, V>, c: map<string, V>, f: (Option<V>, string, V) -> Option<V>, key: string)
    requires key in c && f(Held(p, key), key, c[key]).None?
    ensures Overlay(p, c, f).None?
  {
  }

  /** The operating-loop merge, with its table of stages by id. */
  method ComposeStages(p: seq<Stage>, c: seq<Stage>) returns (r: Option<seq<Stage>>)
    ensures r == MergeStages(p, c)
  {
    var stages := p;
    var inherited: map<string, Stage> := map[];
    for i := 0 to |p|
      invariant forall id :: Held(inherited, id) == StageOf(p[..i], id)
    {
      inherited := inherited[p[i].id := p[i]];
      assert p[..i + 1][..i] == p[..i];
    }
    assert p[..|p|] == p;
    for i := 0 to |c|
      invariant MergeStages(p, c[..i]) == Some(stages)
      invariant forall id :: Held(inherited, id) == StageOf(stages, id)
    {
      var row := c[i];
      assert c[..i + 1][..i] == c[..i];
      assert Held(inherited, row.id) == StageOf(stages, row.id);
      if row.id in inherited {
        if inherited[row.id] != row {
          RefusedFromHere(p, c, i + 1);
          return None;
        }
      } else {
        assert (stages + [row])[..|stages|] == stages;
        stages := stages + [row];
        inherited := inherited[row.id := row];
      }
    }
    assert c[..|c|] == c;
    r := Some(stages);
  }

  lemma {:induction false} RefusedFromHere(p: seq<Stage>, c: seq<Stage>, i: nat)
    requires i <= |c| && MergeStages(p, c[..i]).None?
    ensures MergeStages(p, c).None?
  {
    if i < |c| {
      var n := |c| - 1;
      assert c[..n][..i] == c[..i];
      RefusedFromHere(p, c[..n], i);
    } else {
      assert c[..i] == c;
    }
  }

  /** `_merge_profiles`, as it runs. */
  method ComposeProfiles(p: Manifest, c: Manifest) returns (r: Option<Manifest>)
    ensures r == MergeProfiles(p, c)
  {
    var requirements := OverlayEntries(OrElse(p.requirements, map[]), OrElse(c.requirements, map[]), MergeRequirement);
    var pc, cc := OrElse(p.contract, EMPTY_CONTRACT), OrElse(c.contract, EMPTY_CONTRACT);
    var roles := OverlayEntries(pc.roles, cc.roles, MergeRole);
    var stages := ComposeStages(OrElse(p.loop, []), OrElse(c.loop, []));
    var policy := OverlayEntries(OrElse(p.policy, map[]), OrElse(c.policy, map[]), MergePolicyEntry);
    if requirements.None? || roles.None? || stages.None? || policy.None? {
      return None;
    }
    var contract := Contract(MaxIfGiven(pc.minimum, cc.minimum), UnionIfGiven(pc.fields, cc.fields),
                             UnionIfGiven(pc.operations, cc.operations), roles.value);
    r := Some(Manifest(
      c.id, c.version, p.header + c.header, if c.extends_.Some? then c.extends_ else p.extends_,
      requirements, Some(contract), stages,
      Some(OrderedUnion(OrElse(p.surfaces, []), OrElse(c.surfaces, []))),
      Some(OrderedUnion(OrElse(p.queues, []), OrElse(c.queues, []))),
      Some(OrderedUnion(OrElse(p.measures, []), OrElse(c.measures, []))),
      policy));
  }

  // ---------------------------------------------------------------------------------------------
  // Manifest checks
  // ---------------------------------------------------------------------------------------------

  predicate LowerCase(c: char) {
    'a' <= c <= 'z'
  }

  /** The id pattern: a lower-case letter, then lower-case letters, digits and the separator. */
  predicate IdOf(s: string, separator: char) {
    s != [] && LowerCase(s[0]) && forall c :: c in s ==> LowerCase(c) || '0' <= c <= '9' || c == separator
  }

  predicate IsName(v: Value) {
    v.Str? && v.s != ""
  }

  ghost predicate NamesOnce(items: seq<Value>) {
    Distinct(items) && forall v :: v in items ==> IsName(v)
  }

  ghost predicate ValidRole(id: string, r: Role) {
    && IdOf(id, '_')
    && OrElse(r.minimum, 1) >= 1
    && r.fields.Some? && r.fields.value != [] && NamesOnce(r.fields.value)
    && NamesOnce(OrElse(r.operations, []))
  }

  ghost predicate ValidContract(c: Contract, inherited: bool) {
    && (c.minimum.None? ==> inherited) && (c.minimum.Some? ==> c.minimum.value >= 1)
    && (c.fields.None? ==> inherited) && (c.fields.Some? ==> c.fields.value != [])
    && (c.operations.None? ==> inherited) && (c.operations.Some? ==> c.operations.value != [])
    && (forall role :: role in c.roles ==> ValidRole(role, c.roles[role]))
  }

  ghost predicate UniqueIds(stages: seq<Stage>) {
    forall i, j :: 0 <= i < j < |stages| ==> stages[i].id != stages[j].id
  }

  ghost predicate NamedBefore(stages: seq<Stage>, i: nat, id: string)
    requires i <= |stages|
  {
    exists j :: 0 <= j < i && stages[j].id == id
  }

  /** Every stage comes after the stages it depends on. */
  ghost predicate InOrder(stages: seq<Stage>) {
    forall i, a :: 0 <= i < |stages| && a in stages[i].after ==> NamedBefore(stages, i, a)
  }

  ghost predicate ValidLoop(stages: seq<Stage>, inherited: bool) {
    && stages != []
    && (forall s :: s in stages ==> s.id != "")
    && UniqueIds(stages)
    && (inherited || InOrder(stages))
  }

  ghost predicate ValidList(v: Option<seq<Value>>, inherited: bool) {
    (v.None? ==> inherited) && (v.Some? ==> v.value != [] && Distinct(v.value))
  }

  /** `validate_profile_manifest` reports nothing. */
  ghost predicate ValidManifest(m: Manifest, inherited: bool) {
    && Get(m.header, "schema_version") == Num(1)
    && IdOf(m.id, '-')
    && ParseVersion(m.version).Some?
    && (m.extends_.Some? ==>
          var e := m.extends_.value; IdOf(e.profile, '-') && e.profile != m.id && Floor(e.version).Some?)
    && (m.requirements.None? ==> inherited)
    && (m.requirements.Some? ==> Get(m.requirements.value, "extensions").Obj?)
    && (m.contract.None? ==> inherited) && (m.contract.Some? ==> ValidContract(m.contract.value, inherited))
    && (m.loop.None? ==> inherited) && (m.loop.Some? ==> ValidLoop(m.loop.value, inherited))
    && ValidList(m.surfaces, inherited) && ValidList(m.queues, inherited) && ValidList(m.measures, inherited)
    && (m.policy.None? ==> inherited)
  }

  datatype LoopError = EmptyLoop | UnnamedStage | DuplicateStage | Unresolved(stage: string, missing: set<string>)

  /** The id checks: a stage without an id is reported before a repeated one. */
  method CheckIds(stages: seq<Stage>) returns (error: Option<LoopError>)
    ensures error == (if exists s :: s in stages && s.id == "" then Some(UnnamedStage)
                      else if !UniqueIds(stages) then Some(DuplicateStage) else None)
  {
    var ids: set<string>, unnamed, repeated := {}, false, false;
    for i := 0 to |stages|
      invariant forall id :: id in ids <==> NamedBefore(stages, i, id)
      invariant unnamed <==> exists s :: s in stages[..i] && s.id == ""
      invariant repeated <==> !UniqueIds(stages[..i])
    {
      CheckedOneMore(stages, i);
      hide UniqueIds, NamedBefore;
      unnamed := unnamed || stages[i].id == "";
      repeated := repeated || stages[i].id in ids;
      ids := ids + {stages[i].id};
    }
    assert stages[..|stages|] == stages;
    error := if unnamed then Some(UnnamedStage) else if repeated then Some(DuplicateStage) else None;
  }

  /** The dependencies of stage `i` that no stage before it provides. */
  ghost predicate MissingAt(stages: seq<Stage>, i: nat, missing: set<string>)
    requires i < |stages|
  {
    forall a :: a in missing <==> a in stages[i].after && !NamedBefore(stages, i, a)
  }

  /** The error reports the unresolved dependencies of one of the first `n` stages. */
  ghost predicate Reports(stages: seq<Stage>, n: nat, e: LoopError)
    requires n <= |stages|
  {
    && e.Unresolved? && e.missing != {}
    && exists i :: 0 <= i < n && stages[i].id == e.stage && MissingAt(stages, i, e.missing)
  }

  ghost predicate InOrderUpTo(stages: seq<Stage>, n: nat)
    requires n <= |stages|
  {
    forall i, a :: 0 <= i < n && a in stages[i].after ==> NamedBefore(stages, i, a)
  }

  /** The dependency checks, with their set of known stages. */
  method CheckDependencies(stages: seq<Stage>) returns (errors: seq<LoopError>)
    ensures errors == [] <==> InOrder(stages)
    ensures forall e :: e in errors <==> Reports(stages, |stages|, e)
  {
    errors := [];
    var known: set<string> := {};
    for i := 0 to |stages|
      invariant forall id :: id in known <==> NamedBefore(stages, i, id)
      invariant errors == [] <==> InOrderUpTo(stages, i)
      invariant forall e :: e in errors <==> Reports(stages, i, e)
    {
      var missing := set a | a in stages[i].after && a !in known;
      CheckedOneMore(stages, i);
      assert MissingAt(stages, i, missing);
      DependenciesOneMore(stages, i, missing);
      hide NamedBefore, InOrderUpTo, MissingAt, UniqueIds, Reports;
      if missing != {} {
        errors := errors + [Unresolved(stages[i].id, missing)];
      }
      known := known + {stages[i].id};
    }
  }

  lemma DependenciesOneMore(stages: seq<Stage>, i: nat, missing: set<string>)
    requires i < |stages| && MissingAt(stages, i, missing)
    ensures InOrderUpTo(stages, i + 1) <==> InOrderUpTo(stages, i) && missing == {}
    ensures forall e :: Reports(stages, i + 1, e) <==>
              Reports(stages, i, e) || (missing != {} && e == Unresolved(stages[i].id, missing))
  {
    hide NamedBefore;
    if missing != {} {
      var a :| a in missing;
      assert a in stages[i].after && !NamedBefore(stages, i, a);
    }
    forall e ensures Reports(stages, i + 1, e) <==>
                       Reports(stages, i, e) || (missing != {} && e == Unresolved(stages[i].id, missing))
    {
      if e.Unresolved? && MissingAt(stages, i, e.missing) {
        OneMissing(stages, i, missing, e.missing);
      }
    }
  }

  lemma OneMissing(stages: seq<Stage>, i: nat, a: set<string>, b: set<string>)
    requires i < |stages| && MissingAt(stages, i, a) && MissingAt(stages, i, b)
    ensures a == b
  {
    hide NamedBefore;
  }

  /** The operating-loop checks. */
  method ValidateLoop(stages: seq<Stage>, inherited: bool) returns (errors: seq<LoopError>)
    ensures errors == [] <==> ValidLoop(stages, inherited)
    ensures forall e :: e in errors && e.Unresolved? ==> Reports(stages, |stages|, e)
    ensures UniqueIds(stages) && (forall s :: s in stages ==> s.id != "") && !inherited ==>
              forall e :: Reports(stages, |stages|, e) ==> e in errors
  {
    if stages == [] {
      return [EmptyLoop];
    }
    var error := CheckIds(stages);
    if error.Some? {
      return [error.value];
    }
    if inherited {
      return [];
    }
    errors := CheckDependencies(stages);
  }

  lemma CheckedOneMore(stages: seq<Stage>, i: nat)
    requires i < |stages|
    ensures forall id :: NamedBefore(stages, i + 1, id) <==> NamedBefore(stages, i, id) || id == stages[i].id
    ensures (exists s :: s in stages[..i + 1] && s.id == "") <==>
              (exists s :: s in stages[..i] && s.id == "") || stages[i].id == ""
    ensures UniqueIds(stages[..i + 1]) <==> UniqueIds(stages[..i]) && !NamedBefore(stages, i, stages[i].id)
  {
    NamedOneMore(stages, i);
    var longer, shorter := stages[..i + 1], stages[..i];
    assert longer == shorter + [stages[i]];
    UniqueOneMore(shorter, stages[i]);
    hide UniqueIds;
    assert NamedBefore(stages, i, stages[i].id) <==> exists s :: s in shorter && s.id == stages[i].id by {
      if exists s :: s in shorter && s.id == stages[i].id {
        var s :| s in shorter && s.id == stages[i].id;
        var j :| 0 <= j < i && shorter[j] == s;
        assert stages[j].id == stages[i].id;
      }
      if NamedBefore(stages, i, stages[i].id) {
        var j :| 0 <= j < i && stages[j].id == stages[i].id;
        assert shorter[j] in shorter;
      }
    }
  }

  lemma NamedOneMore(stages: seq<Stage>, i: nat)
    requires i < |stages|
    ensures forall id :: NamedBefore(stages, i + 1, id) <==> NamedBefore(stages, i, id) || id == stages[i].id
  {
    assert NamedBefore(stages, i + 1, stages[i].id);
  }

  lemma UniqueOneMore(stages: seq<Stage>, s: Stage)
    ensures UniqueIds(stages + [s]) <==> UniqueIds(stages) && !exists t :: t in stages && t.id == s.id
  {
    var longer := stages + [s];
    if UniqueIds(longer) {
      forall j, k | 0 <= j < k < |stages| ensures stages[j].id != stages[k].id {
        assert longer[j].id != longer[k].id;
      }
      forall t | t in stages ensures t.id != s.id {
        var j :| 0 <= j < |stages| && stages[j] == t;
        assert longer[j].id != longer[|stages|].id;
      }
    }
  }

  // ---------------------------------------------------------------------------------------------
  // Loading
  // ---------------------------------------------------------------------------------------------

  datatype LoadError =
    | InvalidId(id: string)
    | InheritanceCycle(path: seq<string>)
    | UnknownProfile(id: string)
    | WrongId(id: string, declared: string)
    | InvalidManifest(id: string)
    | ParentFails(id: string, parent: string, cause: LoadError)
    | ParentTooOld(id: string, parent: string)
    | Weakens(id: string)
    | EffectiveInvalid(id: string)

  datatype Loaded = Ok(profile: Manifest) | Err(error: LoadError)

  /** The readable manifests of the engine's catalog, by directory. */
  type Catalog = map<string, Manifest>

  ghost function Elements(s: seq<string>): set<string> {
    set x | x in s
  }

  /** `_load_profile` */
  ghost function Load(catalog: Catalog, id: string, ancestry: seq<string>): Loaded
    decreases catalog.Keys - Elements(ancestry)
  {
    if !IdOf(id, '-') then Err(InvalidId(id))
    else if id in ancestry then Err(InheritanceCycle(ancestry + [id]))
    else if id !in catalog then Err(UnknownProfile(id))
    else
      var child := catalog[id];
      if child.id != id then Err(WrongId(id, child.id))
      else if !ValidManifest(child, child.extends_.Some?) then Err(InvalidManifest(id))
      else if child.extends_.None? then Ok(child)
      else
        var e := child.extends_.value;
        assert id in catalog.Keys - Elements(ancestry) && id !in catalog.Keys - Elements(ancestry + [id]);
        assert Elements(ancestry) <= Elements(ancestry + [id]);
        match Load(catalog, e.profile, ancestry + [id])
        case Err(cause) => Err(ParentFails(id, e.profile, cause))
        case Ok(parent) =>
          var version := ParseVersion(parent.version);
          if version.None? || !NotBelow(version.value, Floor(e.version).value) then Err(ParentTooOld(id, e.profile))
          else
            match MergeProfiles(parent, child)
            case None => Err(Weakens(id))
            case Some(effective) => if ValidManifest(effective, false) then Ok(effective) else Err(EffectiveInvalid(id))
  }
}
