/** Inheritance never weakens: what a loaded application profile owes to every profile it descends
    from. */
module ProfileInheritance {
  import opened Graphs
  import opened Profiles
  import opened Text
  import opened Values

  // ---------------------------------------------------------------------------------------------
  // Being at least as demanding
  // ---------------------------------------------------------------------------------------------

  ghost predicate FloorAtLeast(new_: Value, old_: Value) {
    new_ == old_ || (Floor(new_).Some? && Floor(old_).Some? && NotBelow(Floor(new_).value, Floor(old_).value))
  }

  ghost predicate RowsAtLeast(new_: Fields, old_: Fields) {
    forall dep :: dep in old_ ==> dep in new_ && FloorAtLeast(new_[dep], old_[dep])
  }

  ghost predicate RequirementAtLeast(new_: Value, old_: Value) {
    FloorAtLeast(new_, old_) || (new_.Obj? && old_.Obj? && RowsAtLeast(new_.fields, old_.fields))
  }

  predicate Protected(key: string) {
    key == "extensions" || key == "engine"
  }

  ghost predicate RequiresAtLeast(new_: Fields, old_: Fields) {
    forall key :: Protected(key) && key in old_ ==> key in new_ && RequirementAtLeast(new_[key], old_[key])
  }

  ghost predicate Includes(new_: seq<Value>, old_: seq<Value>) {
    forall v :: v in old_ ==> v in new_
  }

  ghost predicate RoleAtLeast(new_: Role, old_: Role) {
    && OrElse(new_.minimum, 1) >= OrElse(old_.minimum, 1)
    && Includes(OrElse(new_.fields, []), OrElse(old_.fields, []))
    && Includes(OrElse(new_.operations, []), OrElse(old_.operations, []))
    && (old_.allowMultiple == Some(false) ==> new_.allowMultiple == Some(false))
  }

  ghost predicate RolesAtLeast(new_: map<string, Role>, old_: map<string, Role>) {
    forall role :: role in old_ ==> role in new_ && RoleAtLeast(new_[role], old_[role])
  }

  ghost predicate ContractAtLeast(new_: Contract, old_: Contract) {
    && OrElse(new_.minimum, 1) >= OrElse(old_.minimum, 1)
    && Includes(OrElse(new_.fields, []), OrElse(old_.fields, []))
    && Includes(OrElse(new_.operations, []), OrElse(old_.operations, []))
    && RolesAtLeast(new_.roles, old_.roles)
  }

  ghost predicate PolicyAtLeast(new_: Fields, old_: Fields) {
    forall key :: Held(old_, key) == Some(Bool(true)) ==> Held(new_, key) == Some(Bool(true))
  }

  ghost predicate HasStages(new_: seq<Stage>, old_: seq<Stage>) {
    forall s :: s in old_ ==> s in new_
  }

  /** `m` asks for everything `d` asks for: floors and minimums no lower, every required field,
      operation, surface, queue, measure and stage, every prohibition, every true policy. */
  ghost predicate Meets(m: Manifest, d: Manifest) {
    && RequiresAtLeast(OrElse(m.requirements, map[]), OrElse(d.requirements, map[]))
    && ContractAtLeast(OrElse(m.contract, EMPTY_CONTRACT), OrElse(d.contract, EMPTY_CONTRACT))
    && HasStages(OrElse(m.loop, []), OrElse(d.loop, []))
    && Includes(OrElse(m.surfaces, []), OrElse(d.surfaces, []))
    && Includes(OrElse(m.queues, []), OrElse(d.queues, []))
    && Includes(OrElse(m.measures, []), OrElse(d.measures, []))
    && PolicyAtLeast(OrElse(m.policy, map[]), OrElse(d.policy, map[]))
  }

  lemma RequirementTransitive(a: Value, b: Value, c: Value)
    requires RequirementAtLeast(a, b) && RequirementAtLeast(b, c)
    ensures RequirementAtLeast(a, c)
  {
    hide ParseVersion;
    if a.Obj? && b.Obj? && c.Obj? {
      assert RowsAtLeast(a.fields, b.fields) && RowsAtLeast(b.fields, c.fields);
      forall dep | dep in c.fields ensures dep in a.fields && FloorAtLeast(a.fields[dep], c.fields[dep]) {
        assert dep in b.fields;
      }
    }
  }

  lemma RequiresTransitive(a: Fields, b: Fields, c: Fields)
    requires RequiresAtLeast(a, b) && RequiresAtLeast(b, c)
    ensures RequiresAtLeast(a, c)
  {
    hide RequirementAtLeast;
    forall key | Protected(key) && key in c ensures key in a && RequirementAtLeast(a[key], c[key]) {
      RequirementTransitive(a[key], b[key], c[key]);
    }
  }

  lemma RolesTransitive(a: map<string, Role>, b: map<string, Role>, c: map<string, Role>)
    requires RolesAtLeast(a, b) && RolesAtLeast(b, c)
    ensures RolesAtLeast(a, c)
  {
    forall role | role in c ensures role in a && RoleAtLeast(a[role], c[role]) {
      assert RoleAtLeast(a[role], b[role]) && RoleAtLeast(b[role], c[role]);
    }
  }

  lemma MeetsTransitive(a: Manifest, b: Manifest, c: Manifest)
    requires Meets(a, b) && Meets(b, c)
    ensures Meets(a, c)
  {
    RequiresTransitive(OrElse(a.requirements, map[]), OrElse(b.requirements, map[]), OrElse(c.requirements, map[]));
    RolesTransitive(OrElse(a.contract, EMPTY_CONTRACT).roles, OrElse(b.contract, EMPTY_CONTRACT).roles,
                    OrElse(c.contract, EMPTY_CONTRACT).roles);
    hide RequiresAtLeast, RolesAtLeast;
  }

  lemma MeetsItself(m: Manifest)
    ensures Meets(m, m)
  {
  }

  // ---------------------------------------------------------------------------------------------
  // One merge
  // ---------------------------------------------------------------------------------------------

  lemma RowsMerged(p: Fields, c: Fields, r: Fields)
    requires Overlay(p, c, MergeRow) == Some(r)
    ensures RowsAtLeast(r, p) && RowsAtLeast(r, c)
  {
    hide Floor;
    forall dep | dep in c
      ensures dep in r && FloorAtLeast(r[dep], c[dep]) && (dep in p ==> FloorAtLeast(r[dep], p[dep]))
    {
      assert MergeRow(Held(p, dep), dep, c[dep]) == Some(r[dep]);
      if dep in p {
        NotBelowTotal(c[dep], p[dep]);
      }
    }
  }

  lemma NotBelowTotal(a: Value, b: Value)
    requires Floor(a).Some? && Floor(b).Some?
    ensures NotBelow(Floor(a).value, Floor(b).value) || NotBelow(Floor(b).value, Floor(a).value)
  {
    hide Floor;
  }

  /** A requirement keeps what both sides ask for when it is `engine`, when the parent has none, or
      when both sides are tables. */
  lemma RequirementMerged(p: Option<Value>, key: string, c: Value, r: Value)
    requires MergeRequirement(p, key, c) == Some(r)
    requires key == "engine" || p.None? || (p.value.Obj? && c.Obj?)
    ensures RequirementAtLeast(r, c) && (p.Some? ==> RequirementAtLeast(r, p.value))
  {
    hide ParseVersion, Overlay;
    if c.Obj? && p.Some? && p.value.Obj? {
      RowsMerged(p.value.fields, c.fields, r.fields);
    } else if p.Some? {
      NotBelowTotal(c, p.value);
    }
  }

  lemma RequiresMerged(p: Fields, c: Fields, r: Fields)
    requires Overlay(p, c, MergeRequirement) == Some(r)
    requires "extensions" in p && "extensions" in c ==> p["extensions"].Obj? && c["extensions"].Obj?
    ensures RequiresAtLeast(r, p) && RequiresAtLeast(r, c)
  {
    hide RequirementAtLeast, MergeRequirement;
    forall key | Protected(key) && key in c
      ensures key in r && RequirementAtLeast(r[key], c[key]) && (key in p ==> RequirementAtLeast(r[key], p[key]))
    {
      assert MergeRequirement(Held(p, key), key, c[key]) == Some(r[key]);
      RequirementMerged(Held(p, key), key, c[key], r[key]);
    }
    forall key | Protected(key) && key in p && key !in c ensures key in r && RequirementAtLeast(r[key], p[key]) {
      RequirementItself(p[key]);
    }
  }

  lemma RequirementItself(v: Value)
    ensures RequirementAtLeast(v, v)
  {
  }

  lemma UnionIncludesBoth(p: seq<Value>, c: seq<Value>)
    ensures Includes(OrderedUnion(p, c), p) && Includes(OrderedUnion(p, c), c)
  {
    hide NotIn;
  }

  lemma ListMerged(p: Option<seq<Value>>, c: Option<seq<Value>>)
    ensures var r := OrElse(UnionIfGiven(p, c), []);
            Includes(r, OrElse(p, [])) && Includes(r, OrElse(c, [])) && OrElse(p, []) <= r
  {
    UnionIncludesBoth(OrElse(p, []), OrElse(c, []));
  }

  lemma RoleMerged(p: Option<Role>, role: string, c: Role, r: Role)
    requires MergeRole(p, role, c) == Some(r)
    requires p.Some? ==> OrElse(p.value.minimum, 1) >= 1
    ensures RoleAtLeast(r, c) && (p.Some? ==> RoleAtLeast(r, p.value))
  {
    var inherited := OrElse(p, EMPTY_ROLE);
    ListMerged(inherited.fields, c.fields);
    ListMerged(inherited.operations, c.operations);
    hide UnionIfGiven, Includes;
    if c.allowMultiple.Some? {
      var allowed: bool := c.allowMultiple.value;
      assert allowed || !allowed;
    }
  }

  lemma RolesMerged(p: map<string, Role>, c: map<string, Role>, r: map<string, Role>)
    requires Overlay(p, c, MergeRole) == Some(r)
    requires forall role :: role in p ==> OrElse(p[role].minimum, 1) >= 1
    ensures RolesAtLeast(r, p) && RolesAtLeast(r, c)
  {
    hide RoleAtLeast, MergeRole;
    forall role | role in c
      ensures role in r && RoleAtLeast(r[role], c[role]) && (role in p ==> RoleAtLeast(r[role], p[role]))
    {
      assert MergeRole(Held(p, role), role, c[role]) == Some(r[role]);
      RoleMerged(Held(p, role), role, c[role], r[role]);
    }
    forall role | role in p && role !in c ensures role in r && RoleAtLeast(r[role], p[role]) {
      RoleItself(p[role]);
    }
  }

  lemma RoleItself(r: Role)
    ensures RoleAtLeast(r, r)
  {
  }

  lemma ContractMerged(p: Contract, c: Contract, r: Contract)
    requires MergeContract(p, c) == Some(r)
    requires OrElse(p.minimum, 1) >= 1 && forall role :: role in p.roles ==> OrElse(p.roles[role].minimum, 1) >= 1
    ensures ContractAtLeast(r, p) && ContractAtLeast(r, c)
  {
    ListMerged(p.fields, c.fields);
    ListMerged(p.operations, c.operations);
    RolesMerged(p.roles, c.roles, r.roles);
    hide UnionIfGiven, Includes, RolesAtLeast, Overlay;
  }

  lemma {:induction false} StageOfIn(stages: seq<Stage>, id: string)
    ensures StageOf(stages, id).Some? ==> StageOf(stages, id).value in stages && StageOf(stages, id).value.id == id
    ensures StageOf(stages, id).None? ==> forall s :: s in stages ==> s.id != id
  {
    if stages != [] {
      assert stages == stages[..|stages| - 1] + [stages[|stages| - 1]];
      StageOfIn(stages[..|stages| - 1], id);
    }
  }

  /** The merged loop starts with the parent's and has every stage of both, and no other. */
  lemma {:induction false} StagesMerged(p: seq<Stage>, c: seq<Stage>, r: seq<Stage>)
    requires MergeStages(p, c) == Some(r)
    ensures p <= r && HasStages(r, c)
    ensures forall s :: s in r ==> s in p || s in c
    ensures UniqueIds(p) ==> UniqueIds(r)
  {
    if c != [] {
      var n := |c| - 1;
      var stages := MergeStages(p, c[..n]).value;
      assert c == c[..n] + [c[n]];
      StagesMerged(p, c[..n], stages);
      StageOfIn(stages, c[n].id);
      UniqueOneMore(stages, c[n]);
      hide UniqueIds;
    }
  }

  /** With ids used once on each side, the merge is refused exactly for a redefined stage. */
  lemma {:induction false} StagesRefusedIff(p: seq<Stage>, c: seq<Stage>)
    requires UniqueIds(p) && UniqueIds(c)
    ensures MergeStages(p, c).None? <==> exists s, t :: s in p && t in c && s.id == t.id && s != t
  {
    if c != [] {
      var n := |c| - 1;
      assert c == c[..n] + [c[n]];
      UniqueOneMore(c[..n], c[n]);
      hide UniqueIds;
      StagesRefusedIff(p, c[..n]);
      if MergeStages(p, c[..n]).Some? {
        var stages := MergeStages(p, c[..n]).value;
        StagesMerged(p, c[..n], stages);
        StageOfIn(stages, c[n].id);
        RedefinedAt(p, c, stages);
      }
    }
  }

  lemma RedefinedAt(p: seq<Stage>, c: seq<Stage>, stages: seq<Stage>)
    requires c != [] && UniqueIds(stages) && p <= stages
    requires forall s :: s in stages ==> s in p || s in c[..|c| - 1]
    requires forall t :: t in c[..|c| - 1] ==> t.id != c[|c| - 1].id
    requires forall s, t :: s in p && t in c[..|c| - 1] && s.id == t.id ==> s == t
    ensures var row := c[|c| - 1]; var prior := StageOf(stages, row.id);
            (prior.Some? && prior.value != row) <==> exists s, t :: s in p && t in c && s.id == t.id && s != t
  {
    var row := c[|c| - 1];
    assert c == c[..|c| - 1] + [row];
    StageOfIn(stages, row.id);
    var prior := StageOf(stages, row.id);
    if prior.Some? {
      assert prior.value in p && row in c;
      forall s | s in p && s.id == row.id ensures s == prior.value {
        OneStagePerId(stages, s, prior.value);
      }
    }
  }

  lemma OneStagePerId(stages: seq<Stage>, s: Stage, t: Stage)
    requires UniqueIds(stages) && s in stages && t in stages && s.id == t.id
    ensures s == t
  {
    var i :| 0 <= i < |stages| && stages[i] == s;
    var j :| 0 <= j < |stages| && stages[j] == t;
    assert !(i < j) && !(j < i);
  }

  lemma PolicyMerged(p: Fields, c: Fields, r: Fields)
    requires Overlay(p, c, MergePolicyEntry) == Some(r)
    ensures PolicyAtLeast(r, p) && PolicyAtLeast(r, c)
  {
    forall key | key in c
      ensures Held(r, key) == Some(c[key]) && (Held(p, key) == Some(Bool(true)) ==> c[key] == Bool(true))
    {
      assert MergePolicyEntry(Held(p, key), key, c[key]) == Some(r[key]);
    }
  }

  lemma ShapesOf(m: Manifest, inherited: bool)
    requires ValidManifest(m, inherited)
    ensures m.requirements.Some? ==> "extensions" in m.requirements.value && m.requirements.value["extensions"].Obj?
    ensures var c := OrElse(m.contract, EMPTY_CONTRACT);
            OrElse(c.minimum, 1) >= 1 && forall role :: role in c.roles ==> OrElse(c.roles[role].minimum, 1) >= 1
  {
    hide IdOf, ParseVersion, Floor, ValidLoop, ValidList, NamesOnce;
    var c := OrElse(m.contract, EMPTY_CONTRACT);
    forall role | role in c.roles ensures OrElse(c.roles[role].minimum, 1) >= 1 {
      assert ValidRole(role, c.roles[role]);
    }
  }

  /** A merge is at least as demanding as the parent and as the child, and starts with the parent's
      operating loop. */
  lemma MergeWeakensNeither(p: Manifest, c: Manifest, m: Manifest)
    requires MergeProfiles(p, c) == Some(m)
    requires ValidManifest(p, false) && ValidManifest(c, true)
    ensures Meets(m, p) && Meets(m, c)
    ensures OrElse(p.loop, []) <= OrElse(m.loop, [])
  {
    ShapesOf(p, false);
    ShapesOf(c, true);
    hide ValidManifest;
    RequiresMerged(OrElse(p.requirements, map[]), OrElse(c.requirements, map[]), m.requirements.value);
    ContractMerged(OrElse(p.contract, EMPTY_CONTRACT), OrElse(c.contract, EMPTY_CONTRACT), m.contract.value);
    StagesMerged(OrElse(p.loop, []), OrElse(c.loop, []), m.loop.value);
    PolicyMerged(OrElse(p.policy, map[]), OrElse(c.policy, map[]), m.policy.value);
    UnionIncludesBoth(OrElse(p.surfaces, []), OrElse(c.surfaces, []));
    UnionIncludesBoth(OrElse(p.queues, []), OrElse(c.queues, []));
    UnionIncludesBoth(OrElse(p.measures, []), OrElse(c.measures, []));
    hide RequiresAtLeast, ContractAtLeast, PolicyAtLeast, Includes, OrderedUnion, Overlay, MergeContract, MergeStages,
         UniqueIds;
  }

  // ---------------------------------------------------------------------------------------------
  // What inheritance does not protect
  // ---------------------------------------------------------------------------------------------

  /** Several bindings of the role are allowed; silence means they are not. */
  predicate Multiple(r: Role) {
    r.allowMultiple == Some(true)
  }

  /** Only an explicit `false` is protected: a merged role allows what its parent does not exactly when
      the parent is silent and the child says `true`. */
  lemma MultiplicityWeakenedIff(p: Role, role: string, c: Role, r: Role)
    requires MergeRole(Some(p), role, c) == Some(r)
    ensures Multiple(r) && !Multiple(p) <==> p.allowMultiple.None? && Multiple(c)
  {
    if p.allowMultiple.Some? {
      var allowed: bool := p.allowMultiple.value;
      assert allowed || !allowed;
    }
    if c.allowMultiple.Some? {
      var allowed: bool := c.allowMultiple.value;
      assert allowed || !allowed;
    }
  }

  /** A merged requirement keeps what the parent asks for exactly when it is `engine`, or a table on
      both sides, or the child happened to ask for as much: any other one is simply replaced. */
  lemma RequirementKeptIff(p: Value, key: string, c: Value, r: Value)
    requires MergeRequirement(Some(p), key, c) == Some(r)
    ensures RequirementAtLeast(r, p) <==> key == "engine" || (p.Obj? && c.Obj?) || RequirementAtLeast(c, p)
  {
    if key == "engine" || (p.Obj? && c.Obj?) {
      RequirementMerged(Some(p), key, c, r);
    }
  }

  // ---------------------------------------------------------------------------------------------
  // The effective manifest is valid, but for its loop
  // ---------------------------------------------------------------------------------------------

  lemma DistinctJoined(a: seq<Value>, b: seq<Value>)
    requires Distinct(a) && Distinct(b) && forall v :: v in b ==> v !in a
    ensures Distinct(a + b)
  {
    var s := a + b;
    forall i, j | 0 <= i < j < |s| ensures s[i] != s[j] {
      if i < |a| <= j {
        assert s[j] in b && s[i] in a;
      }
    }
  }

  lemma {:induction false} NotInDistinct(items: seq<Value>, held: seq<Value>)
    requires Distinct(items)
    ensures Distinct(NotIn(items, held))
  {
    if items != [] {
      var n := |items| - 1;
      assert forall i :: 0 <= i < n ==> items[i] != items[n];
      assert items[n] !in items[..n];
      NotInDistinct(items[..n], held);
      assert items[n] !in NotIn(items[..n], held);
      if items[n] !in held {
        DistinctJoined(NotIn(items[..n], held), [items[n]]);
      }
    }
  }

  lemma UnionDistinct(p: seq<Value>, c: seq<Value>)
    requires Distinct(p) && Distinct(c)
    ensures Distinct(OrderedUnion(p, c))
  {
    NotInDistinct(c, p);
    DistinctJoined(p, NotIn(c, p));
  }

  lemma RoleStaysValid(p: Option<Role>, role: string, c: Role, r: Role)
    requires (p.Some? ==> ValidRole(role, p.value)) && ValidRole(role, c) && MergeRole(p, role, c) == Some(r)
    ensures ValidRole(role, r)
  {
    var fields := if p.Some? then p.value.fields.value else [];
    var operations := if p.Some? then OrElse(p.value.operations, []) else [];
    UnionDistinct(fields, c.fields.value);
    UnionDistinct(operations, OrElse(c.operations, []));
    hide Distinct, IdOf, IsName;
  }

  lemma ContractStaysValid(p: Contract, c: Contract, r: Contract)
    requires ValidContract(p, false) && ValidContract(c, true) && MergeContract(p, c) == Some(r)
    ensures ValidContract(r, false)
  {
    hide ValidRole, MergeRole;
    forall role | role in r.roles ensures ValidRole(role, r.roles[role]) {
      if role in c.roles {
        assert MergeRole(Held(p.roles, role), role, c.roles[role]) == Some(r.roles[role]);
        RoleStaysValid(Held(p.roles, role), role, c.roles[role], r.roles[role]);
      }
    }
  }

  /** Every stage of the child waits only for stages of the parent and for its own earlier ones. */
  ghost predicate WaitsForKnown(p: seq<Stage>, c: seq<Stage>) {
    forall i, a :: 0 <= i < |c| && a in c[i].after ==> NamedBefore(p, |p|, a) || NamedBefore(c, i, a)
  }

  /** The stage names after a merge are those of both sides. */
  lemma NamedOnEitherSide(p: seq<Stage>, c: seq<Stage>, r: seq<Stage>, id: string)
    requires MergeStages(p, c) == Some(r)
    ensures NamedBefore(r, |r|, id) <==> NamedBefore(p, |p|, id) || NamedBefore(c, |c|, id)
  {
    StagesMerged(p, c, r);
    hide MergeStages, UniqueIds;
    if j :| 0 <= j < |r| && r[j].id == id {
      assert r[j] in r;
    }
    if j :| 0 <= j < |p| && p[j].id == id {
      assert r[j].id == id;
    }
    if j :| 0 <= j < |c| && c[j].id == id {
      assert c[j] in c && c[j] in r;
    }
  }

  lemma InOrderOneMore(stages: seq<Stage>, row: Stage)
    ensures InOrder(stages + [row]) <==>
              InOrder(stages) && forall a :: a in row.after ==> NamedBefore(stages, |stages|, a)
  {
    var r := stages + [row];
    forall i, a | 0 <= i <= |stages| ensures NamedBefore(r, i, a) <==> NamedBefore(stages, i, a) {
      if j :| 0 <= j < i && stages[j].id == a {
        assert r[j].id == a;
      }
    }
    assert forall i :: 0 <= i < |stages| ==> r[i] == stages[i];
    assert r[|stages|] == row;
  }

  lemma WaitsOneMore(p: seq<Stage>, c: seq<Stage>)
    requires c != []
    ensures var n := |c| - 1;
            WaitsForKnown(p, c) <==>
              && WaitsForKnown(p, c[..n])
              && forall a :: a in c[n].after ==> NamedBefore(p, |p|, a) || NamedBefore(c[..n], n, a)
  {
    var n := |c| - 1;
    forall i, a | 0 <= i <= n ensures NamedBefore(c[..n], i, a) <==> NamedBefore(c, i, a) {
      if j :| 0 <= j < i && c[j].id == a {
        assert c[..n][j].id == a;
      }
    }
  }

  /** The merged loop is in order exactly when the child waits only for stages it can know. */
  lemma {:induction false} LoopInOrderIff(p: seq<Stage>, c: seq<Stage>, r: seq<Stage>)
    requires InOrder(p) && MergeStages(p, c) == Some(r)
    ensures InOrder(r) <==> WaitsForKnown(p, c)
    decreases |c|
  {
    if c != [] {
      var n := |c| - 1;
      var stages := MergeStages(p, c[..n]).value;
      LoopInOrderIff(p, c[..n], stages);
      WaitsOneMore(p, c);
      StageOfIn(stages, c[n].id);
      forall a ensures NamedBefore(stages, |stages|, a) <==> NamedBefore(p, |p|, a) || NamedBefore(c[..n], n, a) {
        NamedOnEitherSide(p, c[..n], stages, a);
      }
      InOrderOneMore(stages, c[n]);
      hide WaitsForKnown;
      if r == stages && InOrder(stages) {
        InOrderKnows(stages, c[n]);
      }
    }
  }

  lemma InOrderKnows(stages: seq<Stage>, row: Stage)
    requires InOrder(stages) && row in stages
    ensures forall a :: a in row.after ==> NamedBefore(stages, |stages|, a)
  {
    var i :| 0 <= i < |stages| && stages[i] == row;
    forall a | a in row.after ensures NamedBefore(stages, |stages|, a) {
      assert NamedBefore(stages, i, a);
    }
  }

  /** A merge of a valid profile and a valid child is valid exactly when every stage of the child waits
      only for stages of the parent and for its own earlier ones: the merge helpers do not check that. */
  lemma MergeIsValidIff(p: Manifest, c: Manifest, m: Manifest)
    requires ValidManifest(p, false) && ValidManifest(c, true) && c.extends_.Some? && MergeProfiles(p, c) == Some(m)
    ensures ValidManifest(m, false) <==> WaitsForKnown(p.loop.value, OrElse(c.loop, []))
  {
    ContractStaysValid(p.contract.value, OrElse(c.contract, EMPTY_CONTRACT), m.contract.value);
    StagesMerged(p.loop.value, OrElse(c.loop, []), m.loop.value);
    LoopInOrderIff(p.loop.value, OrElse(c.loop, []), m.loop.value);
    ExtensionsStay(p.requirements.value, OrElse(c.requirements, map[]), m.requirements.value);
    ListStaysValid(p.surfaces, c.surfaces);
    ListStaysValid(p.queues, c.queues);
    ListStaysValid(p.measures, c.measures);
    hide OrderedUnion, Overlay, MergeContract, MergeStages, UniqueIds, InOrder, IdOf, ParseVersion, Floor,
         ValidContract, Distinct, WaitsForKnown;
  }

  lemma ExtensionsStay(p: Fields, c: Fields, r: Fields)
    requires Get(p, "extensions").Obj? && ("extensions" in c ==> c["extensions"].Obj?)
    requires Overlay(p, c, MergeRequirement) == Some(r)
    ensures Get(r, "extensions").Obj?
  {
    if "extensions" in c {
      assert MergeRequirement(Held(p, "extensions"), "extensions", c["extensions"]) == Some(r["extensions"]);
    }
  }

  lemma ListStaysValid(p: Option<seq<Value>>, c: Option<seq<Value>>)
    requires ValidList(p, false) && ValidList(c, true)
    ensures ValidList(Some(OrderedUnion(OrElse(p, []), OrElse(c, []))), false)
  {
    UnionDistinct(p.value, OrElse(c, []));
  }

  /** Under any valid profile, a valid child that only adds a stage waiting for a stage nobody has passes
      the merge, and the effective manifest is not valid. */
  lemma DanglingStagePassesTheMerge(p: Manifest, c: Manifest, row: Stage, nowhere: string)
    requires ValidManifest(p, false) && ValidManifest(c, true) && c.extends_.Some?
    requires c.requirements.None? && c.contract.None? && c.policy.None? && c.loop == Some([row])
    requires !NamedBefore(p.loop.value, |p.loop.value|, row.id)
    requires nowhere in row.after && !NamedBefore(p.loop.value, |p.loop.value|, nowhere)
    ensures MergeProfiles(p, c).Some? && !ValidManifest(MergeProfiles(p, c).value, false)
  {
    AddedStage(p.loop.value, row);
    hide ValidManifest, MergeStages;
    MergeIsValidIff(p, c, MergeProfiles(p, c).value);
    assert !WaitsForKnown(p.loop.value, [row]) by {
      assert nowhere in [row][0].after && !NamedBefore([row], 0, nowhere);
    }
  }

  lemma AddedStage(p: seq<Stage>, row: Stage)
    requires !NamedBefore(p, |p|, row.id)
    ensures MergeStages(p, [row]) == Some(p + [row])
  {
    StageOfIn(p, row.id);
    assert [row][..0] == [];
  }

  const HEADER: Fields := map["schema_version" := Num(1)]
  const ONE: Option<seq<Value>> := Some([Str("a")])
  const COLLECT := Stage("collect", [], map[])
  const REVIEW := Stage("review", ["triage"], map[])
  const BASE := Manifest("base", "1.0.0", HEADER, None, Some(map["extensions" := Obj(map[])]),
                         Some(Contract(Some(1), ONE, ONE, map[])), Some([COLLECT]), ONE, ONE, ONE, Some(map[]))
  const CHILD := Manifest("child", "1.0.0", HEADER, Some(Extends("base", Str(">=1.0.0"))), None, None, Some([REVIEW]),
                          None, None, None, None)

  /** For example. */
  lemma DanglingExample()
    ensures ValidManifest(BASE, false) && ValidManifest(CHILD, true)
    ensures MergeProfiles(BASE, CHILD).Some? && !ValidManifest(MergeProfiles(BASE, CHILD).value, false)
  {
    BaseIsValid();
    ChildIsValid();
    assert !NamedBefore([COLLECT], 1, "review") && !NamedBefore([COLLECT], 1, "triage");
    hide *;
    DanglingStagePassesTheMerge(BASE, CHILD, REVIEW, "triage");
  }

  lemma BaseIsValid()
    ensures ValidManifest(BASE, false)
  {
    VersionOne();
    hide ParseVersion, Floor;
  }

  lemma ChildIsValid()
    ensures ValidManifest(CHILD, true)
  {
    VersionOne();
    hide ParseVersion, Floor;
  }

  lemma VersionOne()
    ensures ParseVersion("1.0.0").Some? && Floor(Str(">=1.0.0")).Some?
  {
    assert ">=1.0.0"[2..] == "1.0.0";
    var rest: string := "0.0";
    assert Before("1.0.0", '.') == "1" && Beyond("1.0.0", '.') == rest;
    assert Before(rest, '.') == "0" && Beyond(rest, '.') == "0";
    assert Before("0", '.') == "0" && Beyond("0", '.') == "";
  }

  // ---------------------------------------------------------------------------------------------
  // Chains of any length
  // ---------------------------------------------------------------------------------------------

  /** Each profile of the chain extends the next. */
  ghost predicate IsChain(catalog: Catalog, chain: seq<string>) {
    && chain != []
    && forall i :: 0 <= i < |chain| - 1 ==> Parent(catalog, chain[i]) == Some(chain[i + 1])
  }

  ghost function Parent(catalog: Catalog, id: string): Option<string> {
    if id in catalog && catalog[id].extends_.Some? then Some(catalog[id].extends_.value.profile) else None
  }

  lemma ChainTail(catalog: Catalog, chain: seq<string>)
    requires IsChain(catalog, chain) && |chain| > 1
    ensures Parent(catalog, chain[0]) == Some(chain[1]) && IsChain(catalog, chain[1..])
  {
    hide Parent;
    forall i | 0 <= i < |chain[1..]| - 1 ensures Parent(catalog, chain[1..][i]) == Some(chain[1..][i + 1]) {
      assert chain[1..][i] == chain[i + 1];
    }
  }

  /** What a successful load has done at its first step. */
  lemma LoadedStep(catalog: Catalog, id: string, ancestry: seq<string>)
    requires Load(catalog, id, ancestry).Ok?
    ensures id in catalog && id !in ancestry
    ensures var p := Load(catalog, id, ancestry).profile;
            && Meets(p, catalog[id])
            && match Parent(catalog, id)
               case None => true
               case Some(parent) =>
                 && Load(catalog, parent, ancestry + [id]).Ok?
                 && Meets(p, Load(catalog, parent, ancestry + [id]).profile)
                 && OrElse(Load(catalog, parent, ancestry + [id]).profile.loop, []) <= OrElse(p.loop, [])
  {
    hide IdOf, NotBelow, ParseVersion, Floor, Meets, ValidManifest, MergeProfiles;
    MeetsItself(catalog[id]);
    match Parent(catalog, id)
    case None =>
    case Some(parent) =>
      LoadedIsValid(catalog, parent, ancestry + [id]);
      MergeWeakensNeither(Load(catalog, parent, ancestry + [id]).profile, catalog[id],
                          Load(catalog, id, ancestry).profile);
  }

  lemma LoadedIsValid(catalog: Catalog, id: string, ancestry: seq<string>)
    requires Load(catalog, id, ancestry).Ok?
    ensures ValidManifest(Load(catalog, id, ancestry).profile, false)
  {
    hide IdOf, NotBelow, ParseVersion, Floor, ValidManifest, MergeProfiles;
  }

  /** The chain a profile is reached by matters only for the cycle check. */
  lemma {:induction false} LoadIgnoresAncestry(catalog: Catalog, id: string, ancestry: seq<string>, fewer: seq<string>)
    requires Load(catalog, id, ancestry).Ok? && forall x :: x in fewer ==> x in ancestry
    ensures Load(catalog, id, fewer) == Load(catalog, id, ancestry)
    decreases catalog.Keys - Elements(ancestry)
  {
    hide IdOf, NotBelow, ParseVersion, Floor, ValidManifest, MergeProfiles;
    match Parent(catalog, id)
    case None =>
    case Some(parent) =>
      FewerLeft(catalog, id, ancestry);
      LoadIgnoresAncestry(catalog, parent, ancestry + [id], fewer + [id]);
  }

  /** A profile that loads has every ancestor loading too, and is at least as demanding as each of them,
      as written and as loaded, however long the chain; each ancestor's operating loop opens its own. */
  lemma {:induction false} LoadedMeetsEveryAncestor(catalog: Catalog, id: string, ancestry: seq<string>,
                                                    chain: seq<string>, k: nat)
    requires Load(catalog, id, ancestry).Ok?
    requires IsChain(catalog, chain) && chain[0] == id && k < |chain|
    ensures chain[k] in catalog && Load(catalog, chain[k], []).Ok?
    ensures var p, ancestor := Load(catalog, id, ancestry).profile, Load(catalog, chain[k], []).profile;
            Meets(p, catalog[chain[k]]) && Meets(p, ancestor) && OrElse(ancestor.loop, []) <= OrElse(p.loop, [])
    decreases |chain|
  {
    LoadedStep(catalog, id, ancestry);
    var p := Load(catalog, id, ancestry).profile;
    if k == 0 {
      LoadIgnoresAncestry(catalog, id, ancestry, []);
      hide Load;
      MeetsItself(p);
    } else {
      ChainTail(catalog, chain);
      var parent := Load(catalog, chain[1], ancestry + [id]).profile;
      hide Parent, IsChain, Load, Meets;
      LoadedMeetsEveryAncestor(catalog, chain[1], ancestry + [id], chain[1..], k - 1);
      MeetsTransitive(p, parent, catalog[chain[k]]);
      MeetsTransitive(p, parent, Load(catalog, chain[k], []).profile);
    }
  }

  lemma {:induction false} LoadedChainAvoidsAncestry(catalog: Catalog, id: string, ancestry: seq<string>,
                                                     chain: seq<string>)
    requires Load(catalog, id, ancestry).Ok? && IsChain(catalog, chain) && chain[0] == id
    ensures Distinct(chain) && forall x :: x in chain ==> x !in ancestry && x in catalog
    decreases |chain|
  {
    LoadedStep(catalog, id, ancestry);
    hide Load, Meets;
    assert chain == [chain[0]] + chain[1..];
    if |chain| > 1 {
      ChainTail(catalog, chain);
      LoadedChainAvoidsAncestry(catalog, chain[1], ancestry + [id], chain[1..]);
      assert id in ancestry + [id];
      hide Parent, IsChain;
      DistinctConsed(id, chain[1..]);
    }
  }

  lemma DistinctConsed(id: string, rest: seq<string>)
    requires Distinct(rest) && id !in rest
    ensures Distinct([id] + rest)
  {
    var chain := [id] + rest;
    forall i, j | 0 <= i < j < |chain| ensures chain[i] != chain[j] {
      assert chain[j] == rest[j - 1];
    }
  }

  /** A profile whose line of descent comes back to itself, at any distance, does not load. */
  lemma CyclesAreRejected(catalog: Catalog, chain: seq<string>)
    requires IsChain(catalog, chain) && !Distinct(chain)
    ensures Load(catalog, chain[0], []).Err?
  {
    hide Load, Distinct;
    if Load(catalog, chain[0], []).Ok? {
      LoadedChainAvoidsAncestry(catalog, chain[0], [], chain);
    }
  }

  ghost predicate EndsAtRoot(catalog: Catalog, chain: seq<string>) {
    chain != [] && chain[|chain| - 1] in catalog && Parent(catalog, chain[|chain| - 1]).None?
  }

  /** A profile that loads descends from a profile without a parent. */
  lemma {:induction false} LoadedHasARoot(catalog: Catalog, id: string, ancestry: seq<string>)
    returns (chain: seq<string>)
    requires Load(catalog, id, ancestry).Ok?
    ensures IsChain(catalog, chain) && chain[0] == id && EndsAtRoot(catalog, chain)
    decreases catalog.Keys - Elements(ancestry)
  {
    LoadedStep(catalog, id, ancestry);
    hide Load, Meets, Parent, IsChain, EndsAtRoot;
    match Parent(catalog, id)
    case None =>
      SingleChain(catalog, id);
      chain := [id];
    case Some(parent) =>
      FewerLeft(catalog, id, ancestry);
      var rest := LoadedHasARoot(catalog, parent, ancestry + [id]);
      ChainConsed(catalog, id, rest);
      chain := [id] + rest;
  }

  lemma SingleChain(catalog: Catalog, id: string)
    requires id in catalog && Parent(catalog, id).None?
    ensures IsChain(catalog, [id]) && EndsAtRoot(catalog, [id])
  {
  }

  lemma FewerLeft(catalog: Catalog, id: string, ancestry: seq<string>)
    requires id in catalog && id !in ancestry
    ensures catalog.Keys - Elements(ancestry + [id]) < catalog.Keys - Elements(ancestry)
  {
    assert id in catalog.Keys - Elements(ancestry) && id !in catalog.Keys - Elements(ancestry + [id]);
    assert Elements(ancestry) <= Elements(ancestry + [id]);
  }

  lemma ChainConsed(catalog: Catalog, id: string, rest: seq<string>)
    requires IsChain(catalog, rest) && Parent(catalog, id) == Some(rest[0])
    ensures IsChain(catalog, [id] + rest) && ([id] + rest)[0] == id
    ensures EndsAtRoot(catalog, rest) ==> EndsAtRoot(catalog, [id] + rest)
  {
    hide Parent;
    var chain := [id] + rest;
    forall i | 0 <= i < |chain| - 1 ensures Parent(catalog, chain[i]) == Some(chain[i + 1]) {
      if i > 0 {
        assert chain[i] == rest[i - 1] && chain[i + 1] == rest[i];
      }
    }
  }
}
