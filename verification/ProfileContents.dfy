/** What a merged profile holds, entry by entry, and when a merge is refused: `_merge_profiles` and its
    helpers in `scripts/application_profiles.py`. */
module ProfileContents {
  import opened ProfileInheritance
  import opened Profiles
  import opened Values

  // ---------------------------------------------------------------------------------------------
  // Entries
  // ---------------------------------------------------------------------------------------------

  /** `s` is what is left of `t` when some items are dropped. */
  ghost predicate PickedFrom(s: seq<Value>, t: seq<Value>) {
    s == [] || (t != [] && (PickedFrom(s, t[..|t| - 1])
                            || (s[|s| - 1] == t[|t| - 1] && PickedFrom(s[..|s| - 1], t[..|t| - 1]))))
  }

  /** How often `v` is among the items. */
  function Count(s: seq<Value>, v: Value): nat {
    if s == [] then 0 else Count(s[..|s| - 1], v) + if s[|s| - 1] == v then 1 else 0
  }

  /** The parent's items, then the child's that the parent does not have, as often and in the order the
      child has them. */
  ghost predicate ListOf(p: seq<Value>, c: seq<Value>, m: seq<Value>) {
    && p <= m && PickedFrom(m[|p|..], c)
    && forall v :: Count(m[|p|..], v) == if v in p then 0 else Count(c, v)
  }

  ghost predicate ListIfGiven(p: Option<seq<Value>>, c: Option<seq<Value>>, m: Option<seq<Value>>) {
    if c.None? then m == p else m.Some? && ListOf(OrElse(p, []), c.value, m.value)
  }

  /** What the parent asks for, or the child if that is more; asking for nothing is asking for one. */
  ghost predicate MinimumOf(p: Option<int>, c: Option<int>, m: Option<int>) {
    if c.None? then m == p
    else
      && m.Some? && m.value >= c.value && m.value >= OrElse(p, 1)
      && (m.value == c.value || m.value == OrElse(p, 1))
  }

  ghost predicate RoleOf(p: Role, c: Role, m: Role) {
    && MinimumOf(p.minimum, c.minimum, m.minimum)
    && ListIfGiven(p.fields, c.fields, m.fields) && ListIfGiven(p.operations, c.operations, m.operations)
    && m.allowMultiple == (if c.allowMultiple.Some? then c.allowMultiple else p.allowMultiple)
  }

  /** A role of the parent's alone is the parent's; one the child names is merged over the parent's. */
  ghost predicate RoleAt(p: map<string, Role>, c: map<string, Role>, m: map<string, Role>, role: string) {
    if role in c then role in m && RoleOf(OrElse(Held(p, role), EMPTY_ROLE), c[role], m[role])
    else Held(m, role) == Held(p, role)
  }

  ghost predicate ContractOf(p: Contract, c: Contract, m: Contract) {
    && MinimumOf(p.minimum, c.minimum, m.minimum)
    && ListIfGiven(p.fields, c.fields, m.fields) && ListIfGiven(p.operations, c.operations, m.operations)
    && forall role :: RoleAt(p.roles, c.roles, m.roles, role)
  }

  /** Both are floors, and the merged one is the child's unless the parent's is higher. */
  ghost predicate FloorOf(p: Value, c: Value, m: Value) {
    && Floor(p).Some? && Floor(c).Some?
    && m == if NotBelow(Floor(c).value, Floor(p).value) then c else p
  }

  ghost predicate RowAt(p: Fields, c: Fields, m: Fields, dependency: string) {
    if dependency in p && dependency in c then dependency in m && FloorOf(p[dependency], c[dependency], m[dependency])
    else Held(m, dependency) == if dependency in c then Held(c, dependency) else Held(p, dependency)
  }

  ghost predicate RowsOf(p: Fields, c: Fields, m: Fields) {
    forall dependency :: RowAt(p, c, m, dependency)
  }

  /** What only one asks for stays; where both ask, tables are merged floor by floor, the engine's floor
      is the higher, and anything else is the child's. */
  ghost predicate RequirementAt(p: Fields, c: Fields, m: Fields, key: string) {
    if key in p && key in c then
      && key in m
      && (if p[key].Obj? && c[key].Obj? then m[key].Obj? && RowsOf(p[key].fields, c[key].fields, m[key].fields)
          else if key == "engine" then FloorOf(p[key], c[key], m[key])
          else m[key] == c[key])
    else Held(m, key) == if key in c then Held(c, key) else Held(p, key)
  }

  ghost predicate RequirementsOf(p: Fields, c: Fields, m: Fields) {
    forall key :: RequirementAt(p, c, m, key)
  }

  /** The child's entries, and under other keys the parent's. */
  ghost predicate Overlaid(p: Fields, c: Fields, m: Fields) {
    forall key :: Held(m, key) == if key in c then Held(c, key) else Held(p, key)
  }

  /** The loop is the parent's stages, then the child's that the parent does not have. */
  ghost predicate LoopOf(p: seq<Stage>, c: seq<Stage>, m: seq<Stage>) {
    p <= m && HasStages(m, c) && (forall s :: s in m ==> s in p || s in c) && (UniqueIds(p) ==> UniqueIds(m))
  }

  /** `m` is the child `c` merged over its parent `p`. */
  ghost predicate MergedFrom(p: Manifest, c: Manifest, m: Manifest) {
    && m.id == c.id && m.version == c.version && Overlaid(p.header, c.header, m.header)
    && m.extends_ == (if c.extends_.Some? then c.extends_ else p.extends_)
    && m.requirements.Some?
    && RequirementsOf(OrElse(p.requirements, map[]), OrElse(c.requirements, map[]), m.requirements.value)
    && m.contract.Some?
    && ContractOf(OrElse(p.contract, EMPTY_CONTRACT), OrElse(c.contract, EMPTY_CONTRACT), m.contract.value)
    && m.loop.Some? && LoopOf(OrElse(p.loop, []), OrElse(c.loop, []), m.loop.value)
    && m.surfaces.Some? && ListOf(OrElse(p.surfaces, []), OrElse(c.surfaces, []), m.surfaces.value)
    && m.queues.Some? && ListOf(OrElse(p.queues, []), OrElse(c.queues, []), m.queues.value)
    && m.measures.Some? && ListOf(OrElse(p.measures, []), OrElse(c.measures, []), m.measures.value)
    && m.policy.Some? && Overlaid(OrElse(p.policy, map[]), OrElse(c.policy, map[]), m.policy.value)
  }

  // ---------------------------------------------------------------------------------------------
  // When a merge is refused
  // ---------------------------------------------------------------------------------------------

  predicate IsFloor(v: Value) {
    Floor(v).Some?
  }

  /** Some floor that both ask for cannot be read. */
  ghost predicate UnreadableFloor(p: Fields, c: Fields) {
    || (exists key, dep :: && key in p && key in c && p[key].Obj? && c[key].Obj?
                           && dep in p[key].fields && dep in c[key].fields
                           && !(IsFloor(p[key].fields[dep]) && IsFloor(c[key].fields[dep])))
    || ("engine" in p && "engine" in c && !(p["engine"].Obj? && c["engine"].Obj?)
        && !(IsFloor(p["engine"]) && IsFloor(c["engine"])))
  }

  /** A role the parent binds once is bound several times. */
  ghost predicate LoosenedRole(p: map<string, Role>, c: map<string, Role>) {
    exists role :: role in p && role in c && p[role].allowMultiple == Some(false) && c[role].allowMultiple == Some(true)
  }

  /** A policy the parent holds true is anything else. */
  ghost predicate DroppedPolicy(p: Fields, c: Fields) {
    exists key :: key in p && key in c && p[key] == Bool(true) && c[key] != Bool(true)
  }

  ghost predicate RedefinedStage(p: seq<Stage>, c: seq<Stage>) {
    exists s, t :: s in p && t in c && s.id == t.id && s != t
  }

  // ---------------------------------------------------------------------------------------------
  // The helpers give what is described
  // ---------------------------------------------------------------------------------------------

  lemma {:induction false} NotInPicks(c: seq<Value>, p: seq<Value>)
    ensures PickedFrom(NotIn(c, p), c)
  {
    if c != [] {
      var n := |c| - 1;
      NotInPicks(c[..n], p);
      var rest := NotIn(c[..n], p);
      if c[n] in p {
        assert NotIn(c, p) == rest;
      } else {
        assert NotIn(c, p) == rest + [c[n]] && (rest + [c[n]])[..|rest|] == rest;
      }
    }
  }

  lemma CountOneMore(s: seq<Value>, x: Value, v: Value)
    ensures Count(s + [x], v) == Count(s, v) + if v == x then 1 else 0
  {
    assert (s + [x])[..|s|] == s;
  }

  lemma {:induction false} NotInCounts(c: seq<Value>, p: seq<Value>, v: Value)
    ensures Count(NotIn(c, p), v) == if v in p then 0 else Count(c, v)
  {
    if c != [] {
      var n := |c| - 1;
      NotInCounts(c[..n], p, v);
      CountOneMore(NotIn(c[..n], p), c[n], v);
      assert c[n] in p ==> NotIn(c, p) == NotIn(c[..n], p);
    }
  }

  lemma UnionIs(p: seq<Value>, c: seq<Value>)
    ensures ListOf(p, c, OrderedUnion(p, c))
  {
    NotInPicks(c, p);
    forall v ensures Count(NotIn(c, p), v) == if v in p then 0 else Count(c, v) {
      NotInCounts(c, p, v);
    }
    assert OrderedUnion(p, c)[|p|..] == NotIn(c, p);
  }

  lemma UnionIfGivenIs(p: Option<seq<Value>>, c: Option<seq<Value>>)
    ensures ListIfGiven(p, c, UnionIfGiven(p, c))
  {
    hide ListOf, OrderedUnion;
    if c.Some? {
      UnionIs(OrElse(p, []), c.value);
    }
  }

  lemma RoleIs(p: Option<Role>, role: string, c: Role)
    ensures MergeRole(p, role, c).None? <==>
              p.Some? && p.value.allowMultiple == Some(false) && c.allowMultiple == Some(true)
    ensures MergeRole(p, role, c).Some? ==> RoleOf(OrElse(p, EMPTY_ROLE), c, MergeRole(p, role, c).value)
  {
    var q := OrElse(p, EMPTY_ROLE);
    UnionIfGivenIs(q.fields, c.fields);
    UnionIfGivenIs(q.operations, c.operations);
    hide ListIfGiven, UnionIfGiven;
  }

  lemma ContractIs(p: Contract, c: Contract)
    ensures MergeContract(p, c).None? <==> LoosenedRole(p.roles, c.roles)
    ensures MergeContract(p, c).Some? ==> ContractOf(p, c, MergeContract(p, c).value)
  {
    forall role | role in c.roles
      ensures MergeRole(Held(p.roles, role), role, c.roles[role]).None? <==>
                role in p.roles && p.roles[role].allowMultiple == Some(false)
                && c.roles[role].allowMultiple == Some(true)
      ensures MergeRole(Held(p.roles, role), role, c.roles[role]).Some? ==>
                RoleOf(OrElse(Held(p.roles, role), EMPTY_ROLE), c.roles[role],
                       MergeRole(Held(p.roles, role), role, c.roles[role]).value)
    {
      RoleIs(Held(p.roles, role), role, c.roles[role]);
    }
    UnionIfGivenIs(p.fields, c.fields);
    UnionIfGivenIs(p.operations, c.operations);
    hide MergeRole, RoleOf, ListIfGiven, UnionIfGiven;
  }

  lemma FloorIs(p: Value, c: Value)
    ensures MergeFloor(p, c).None? <==> !(IsFloor(p) && IsFloor(c))
    ensures MergeFloor(p, c).Some? ==> FloorOf(p, c, MergeFloor(p, c).value)
  {
    hide Floor, NotBelow;
  }

  /** Some floor of both tables cannot be read. */
  ghost predicate UnreadableRow(p: Fields, c: Fields) {
    exists dep :: dep in p && dep in c && !(IsFloor(p[dep]) && IsFloor(c[dep]))
  }

  lemma RowsAre(p: Fields, c: Fields)
    ensures Overlay(p, c, MergeRow).None? <==> UnreadableRow(p, c)
    ensures Overlay(p, c, MergeRow).Some? ==> RowsOf(p, c, Overlay(p, c, MergeRow).value)
  {
    forall dep | dep in c && dep in p
      ensures MergeRow(Held(p, dep), dep, c[dep]).None? <==> !(IsFloor(p[dep]) && IsFloor(c[dep]))
      ensures MergeRow(Held(p, dep), dep, c[dep]).Some? ==>
                FloorOf(p[dep], c[dep], MergeRow(Held(p, dep), dep, c[dep]).value)
    {
      FloorIs(p[dep], c[dep]);
    }
    forall dep | dep in c && dep !in p ensures MergeRow(Held(p, dep), dep, c[dep]) == Some(c[dep]) {
    }
    hide MergeRow, FloorOf, IsFloor;
  }

  /** The requirement under a key that both have cannot be merged. */
  ghost predicate UnreadableAt(p: Fields, c: Fields, key: string)
    requires key in p && key in c
  {
    if p[key].Obj? && c[key].Obj? then UnreadableRow(p[key].fields, c[key].fields)
    else key == "engine" && !(IsFloor(p[key]) && IsFloor(c[key]))
  }

  lemma RequirementIs(p: Fields, c: Fields, m: Fields, key: string)
    requires key in c
    ensures MergeRequirement(Held(p, key), key, c[key]).None? <==> key in p && UnreadableAt(p, c, key)
    ensures (MergeRequirement(Held(p, key), key, c[key]).Some?
               && Held(m, key) == MergeRequirement(Held(p, key), key, c[key])) ==> RequirementAt(p, c, m, key)
  {
    if key in p {
      if p[key].Obj? && c[key].Obj? {
        RowsAre(p[key].fields, c[key].fields);
      } else {
        FloorIs(p[key], c[key]);
      }
    }
    hide Overlay, RowsOf, FloorOf, IsFloor, UnreadableRow, MergeFloor;
  }

  lemma UnreadableSomewhere(p: Fields, c: Fields)
    ensures UnreadableFloor(p, c) <==> exists key :: key in p && key in c && UnreadableAt(p, c, key)
  {
    hide IsFloor;
    if key, dep :| && key in p && key in c && p[key].Obj? && c[key].Obj?
                   && dep in p[key].fields && dep in c[key].fields
                   && !(IsFloor(p[key].fields[dep]) && IsFloor(c[key].fields[dep])) {
      assert UnreadableRow(p[key].fields, c[key].fields);
      assert UnreadableAt(p, c, key);
    }
    if "engine" in p && "engine" in c && !(p["engine"].Obj? && c["engine"].Obj?)
       && !(IsFloor(p["engine"]) && IsFloor(c["engine"])) {
      assert UnreadableAt(p, c, "engine");
    }
  }

  lemma RequirementsAre(p: Fields, c: Fields)
    ensures Overlay(p, c, MergeRequirement).None? <==> UnreadableFloor(p, c)
    ensures Overlay(p, c, MergeRequirement).Some? ==> RequirementsOf(p, c, Overlay(p, c, MergeRequirement).value)
  {
    UnreadableSomewhere(p, c);
    forall key | key in c
      ensures MergeRequirement(Held(p, key), key, c[key]).None? <==> key in p && UnreadableAt(p, c, key)
    {
      RequirementIs(p, c, map[], key);
    }
    if Overlay(p, c, MergeRequirement).Some? {
      var m := Overlay(p, c, MergeRequirement).value;
      forall key ensures RequirementAt(p, c, m, key) {
        if key in c {
          RequirementIs(p, c, m, key);
        }
      }
    }
    hide MergeRequirement, RequirementAt, UnreadableAt, UnreadableFloor;
  }

  lemma PolicyIs(p: Fields, c: Fields)
    ensures Overlay(p, c, MergePolicyEntry).None? <==> DroppedPolicy(p, c)
    ensures Overlay(p, c, MergePolicyEntry).Some? ==> Overlaid(p, c, Overlay(p, c, MergePolicyEntry).value)
  {
  }

  lemma LoopIs(p: seq<Stage>, c: seq<Stage>)
    ensures MergeStages(p, c).Some? ==> LoopOf(p, c, MergeStages(p, c).value)
  {
    hide UniqueIds, HasStages, MergeStages;
    if MergeStages(p, c).Some? {
      StagesMerged(p, c, MergeStages(p, c).value);
    }
  }

  lemma HeaderIs(p: Fields, c: Fields)
    ensures Overlaid(p, c, p + c)
  {
  }

  /** A merged profile holds, entry by entry, what is described, and nothing else. */
  lemma MergeHolds(p: Manifest, c: Manifest)
    requires MergeProfiles(p, c).Some?
    ensures MergedFrom(p, c, MergeProfiles(p, c).value)
  {
    RequirementsAre(OrElse(p.requirements, map[]), OrElse(c.requirements, map[]));
    ContractIs(OrElse(p.contract, EMPTY_CONTRACT), OrElse(c.contract, EMPTY_CONTRACT));
    PolicyIs(OrElse(p.policy, map[]), OrElse(c.policy, map[]));
    LoopIs(OrElse(p.loop, []), OrElse(c.loop, []));
    UnionIs(OrElse(p.surfaces, []), OrElse(c.surfaces, []));
    UnionIs(OrElse(p.queues, []), OrElse(c.queues, []));
    UnionIs(OrElse(p.measures, []), OrElse(c.measures, []));
    HeaderIs(p.header, c.header);
    hide Overlay, MergeContract, MergeStages, OrderedUnion, RequirementsOf, ContractOf, ListOf, LoopOf, Overlaid,
         UnreadableFloor, LoosenedRole, DroppedPolicy;
  }

  /** A merge is refused exactly when a floor both ask for cannot be read, a role bound once is loosened,
      a stage is redefined, or a true policy is dropped. */
  lemma MergeRefusedIff(p: Manifest, c: Manifest)
    requires UniqueIds(OrElse(p.loop, [])) && UniqueIds(OrElse(c.loop, []))
    ensures MergeProfiles(p, c).None? <==>
              || UnreadableFloor(OrElse(p.requirements, map[]), OrElse(c.requirements, map[]))
              || LoosenedRole(OrElse(p.contract, EMPTY_CONTRACT).roles, OrElse(c.contract, EMPTY_CONTRACT).roles)
              || RedefinedStage(OrElse(p.loop, []), OrElse(c.loop, []))
              || DroppedPolicy(OrElse(p.policy, map[]), OrElse(c.policy, map[]))
  {
    RequirementsAre(OrElse(p.requirements, map[]), OrElse(c.requirements, map[]));
    ContractIs(OrElse(p.contract, EMPTY_CONTRACT), OrElse(c.contract, EMPTY_CONTRACT));
    PolicyIs(OrElse(p.policy, map[]), OrElse(c.policy, map[]));
    StagesRefusedIff(OrElse(p.loop, []), OrElse(c.loop, []));
    hide Overlay, MergeContract, MergeStages, OrderedUnion, RequirementsOf, ContractOf, Overlaid, UniqueIds,
         UnreadableFloor, LoosenedRole, DroppedPolicy;
  }
}
