/** When packs compose: the errors of `merge_packs` of `scripts/cron_pack_split.py`, said of the engine half
    and the packs themselves. */
module Composability {
  import opened Graphs
  import opened Jobs
  import opened PackComposition
  import opened PackGraphs
  import opened Values

  /** The pack adds its own jobs under names the engine half does not use. */
  ghost predicate ShadowsNothing(e: Engine, pk: Pack) {
    forall d, b :: d in pk.domain && b in e.jobs && Named(d) && Named(b) ==> Name(d) != Name(b)
  }

  /** The prompt is for an engine-template lane the engine half has, it is text or an entry with a text and
      no unknown key, and its contract composes with that of the lane. */
  ghost predicate CanDrive(e: Engine, lane: string, v: Value) {
    && lane in e.tierOf && e.tierOf[lane] == "engine-template"
    && (v.Str? || (v.Obj? && Get(v.fields, "prompt").Str?
                   && forall key :: key in v.fields ==>
                       key == "prompt" || key == "prompt_file" || key == "output_contract"))
    && exists i :: 0 <= i < |e.jobs| && IsNamed(e.jobs[i], lane) && ComposesWith(e, e.jobs[i], v)
                && forall k :: i < k < |e.jobs| ==> !IsNamed(e.jobs[k], lane)
  }

  predicate ComposesWith(e: Engine, base: Job, v: Value) {
    e.compose(Get(base, "output_contract"), PolicyOf(v)).Some?
  }

  /** The names of the instances a pack's prompts make, in order. */
  function InstanceNames(name: string, prompts: seq<(string, Value)>): seq<string> {
    seq(|prompts|, i requires 0 <= i < |prompts| => prompts[i].0 + "@" + name)
  }

  /** The prefixed names of a pack's own jobs, in order. */
  function PrefixedNames(name: string, domain: seq<Job>): seq<string>
    requires AllNamed(domain)
  {
    seq(|domain|, i requires 0 <= i < |domain| => name + ":" + Name(domain[i]))
  }

  function NamesAdded(pk: Pack): seq<string>
    requires AllNamed(pk.domain)
  {
    InstanceNames(pk.name, pk.prompts) + PrefixedNames(pk.name, pk.domain)
  }

  function AllNamesAdded(packs: seq<Pack>): seq<string>
    requires forall pk :: pk in packs ==> AllNamed(pk.domain)
  {
    if packs == [] then [] else AllNamesAdded(packs[..|packs| - 1]) + NamesAdded(packs[|packs| - 1])
  }

  /** Nothing a composition would report. */
  ghost predicate Compatible(e: Engine, packs: seq<Pack>)
    requires forall pk :: pk in packs ==> AllNamed(pk.domain)
  {
    && (forall pk :: pk in packs ==> ShadowsNothing(e, pk))
    && (forall pk, p :: pk in packs && p in pk.prompts ==> CanDrive(e, p.0, p.1))
    && (forall pk, qk, p, q :: pk in packs && qk in packs && p in pk.prompts && q in qk.prompts && p.0 == q.0 ==>
          pk.name == qk.name)
    && Distinct(AllNamesAdded(packs))
  }

  // ---------------------------------------------------------------------------------------------
  // Steps
  // ---------------------------------------------------------------------------------------------

  lemma SoundIff(e: Engine, x: Step)
    ensures Sound(e, x) <==> match x
                             case Open(pk) => ShadowsNothing(e, pk)
                             case Drive(_, lane, v) => CanDrive(e, lane, v)
                             case Own(_, d) => Named(d)
  {
    match x
    case Open(pk) =>
      forall d, b | d in pk.domain && b in e.jobs && Named(d) && Named(b) && Name(d) == Name(b)
        ensures JobNamed(e.jobs, Name(d)).Some?
      {
        assert IsNamed(b, Name(d));
      }
      hide JobNamed;
    case Drive(pk, lane, v) => DriveSoundIff(e, pk, lane, v);
    case Own(_, _) =>
  }

  lemma DriveSoundIff(e: Engine, pk: Pack, lane: string, v: Value)
    ensures IsTemplate(e, lane) && Minted(e, Drive(pk, lane, v)).Some? <==> CanDrive(e, lane, v)
  {
    hide RewriteAfter;
    if JobNamed(e.jobs, lane).Some? {
      var i := LastNamed(e.jobs, lane);
      hide JobNamed;
      var base := e.jobs[i];
      InstanceIff(e, pk, base, lane, v);
      hide Instance;
      forall k | 0 <= k < |e.jobs| && IsNamed(e.jobs[k], lane)
          && (forall l :: k < l < |e.jobs| ==> !IsNamed(e.jobs[l], lane))
        ensures k == i
      {
      }
    } else {
      hide JobNamed, Instance;
    }
  }

  lemma InstanceIff(e: Engine, pk: Pack, base: Job, lane: string, v: Value)
    ensures Instance(e, pk, base, lane, v).Some? <==>
              (v.Str? || (v.Obj? && Get(v.fields, "prompt").Str?
                          && forall key :: key in v.fields ==>
                              key == "prompt" || key == "prompt_file" || key == "output_contract"))
              && ComposesWith(e, base, v)
  {
    var r := RewriteAfter(e, pk, base);
    assert Get(r, "output_contract") == Get(base, "output_contract");
    hide RewriteAfter;
  }

  /** No two prompts for one lane come from packs of different names. */
  ghost predicate OneDriverEach(steps: seq<Step>) {
    forall x, y :: x in steps && y in steps && x.Drive? && y.Drive? && x.lane == y.lane ==> x.pk.name == y.pk.name
  }

  lemma FitsIff(e: Engine, before: seq<Step>, x: Step)
    ensures Fits(e, before, x) <==>
              && Sound(e, x) && (x.Drive? ==> FreeLane(before, x.pk, x.lane))
              && (MintedName(x).Some? ==> MintedName(x).value !in MintedNames(before))
  {
    hide Minted, MintedNames, FreeLane, JobNamed;
  }

  lemma {:induction false} ComposableSteps(e: Engine, steps: seq<Step>)
    ensures Composable(e, steps) <==>
              (forall x :: x in steps ==> Sound(e, x)) && OneDriverEach(steps) && Distinct(MintedNames(steps))
    decreases |steps|
  {
    if steps != [] {
      var n := |steps| - 1;
      var before, x := steps[..n], steps[n];
      assert steps == before + [x];
      ComposableSteps(e, before);
      FitsIff(e, before, x);
      hide Sound, Fits, MintedName;
      OneDriverMore(before, x);
      DistinctMore(MintedNames(before), MintedName(x));
    }
  }

  lemma OneDriverMore(before: seq<Step>, x: Step)
    ensures OneDriverEach(before + [x]) <==> OneDriverEach(before) && (x.Drive? ==> FreeLane(before, x.pk, x.lane))
  {
    assert x in before + [x];
    assert forall y :: y in before ==> y in before + [x];
  }

  lemma DistinctMore(names: seq<string>, n: Option<string>)
    ensures Distinct(names + ToList(n)) <==> Distinct(names) && (n.Some? ==> n.value !in names)
  {
    var more := names + ToList(n);
    assert forall i :: 0 <= i < |names| ==> more[i] == names[i];
    if n.Some? {
      assert more[|names|] == n.value;
      if n.value in names {
        var i :| 0 <= i < |names| && names[i] == n.value;
        assert more[i] == more[|names|];
      }
    }
  }

  // ---------------------------------------------------------------------------------------------
  // Packs
  // ---------------------------------------------------------------------------------------------

  lemma NamesOneMore(steps: seq<Step>, x: Step)
    ensures MintedNames(steps + [x]) == MintedNames(steps) + ToList(MintedName(x))
  {
    hide MintedName;
    assert (steps + [x])[..|steps|] == steps;
  }

  lemma {:induction false} NamesJoined(a: seq<Step>, b: seq<Step>)
    ensures MintedNames(a + b) == MintedNames(a) + MintedNames(b)
    decreases |b|
  {
    if b == [] {
      assert a + b == a && MintedNames(b) == [];
    } else {
      hide MintedName, MintedNames;
      var n := |b| - 1;
      assert a + b == (a + b[..n]) + [b[n]] && b == b[..n] + [b[n]];
      NamesJoined(a, b[..n]);
      NamesOneMore(a + b[..n], b[n]);
      NamesOneMore(b[..n], b[n]);
    }
  }

  lemma {:induction false} DriveNames(pk: Pack, prompts: seq<(string, Value)>)
    ensures MintedNames(DriveSteps(pk, prompts)) == InstanceNames(pk.name, prompts)
    decreases |prompts|
  {
    if prompts != [] {
      var n := |prompts| - 1;
      DriveNames(pk, prompts[..n]);
      assert DriveSteps(pk, prompts)[..n] == DriveSteps(pk, prompts[..n]);
    }
  }

  lemma {:induction false} OwnNames(pk: Pack, domain: seq<Job>)
    requires AllNamed(domain)
    ensures MintedNames(OwnSteps(pk, domain)) == PrefixedNames(pk.name, domain)
    decreases |domain|
  {
    if domain != [] {
      var n := |domain| - 1;
      OwnNames(pk, domain[..n]);
      assert OwnSteps(pk, domain)[..n] == OwnSteps(pk, domain[..n]);
    }
  }

  lemma PackNames(pk: Pack)
    requires AllNamed(pk.domain)
    ensures MintedNames(StepsOf(pk)) == NamesAdded(pk)
  {
    StepsAre(pk);
    NamesAre(pk);
    hide *;
    var drives, owns := DriveSteps(pk, pk.prompts), OwnSteps(pk, pk.domain);
    DriveNames(pk, pk.prompts);
    OwnNames(pk, pk.domain);
    OpenNames(pk);
    NamesJoined([Open(pk)], drives);
    NamesJoined([Open(pk)] + drives, owns);
    assert [] + InstanceNames(pk.name, pk.prompts) == InstanceNames(pk.name, pk.prompts);
  }

  lemma StepsAre(pk: Pack)
    ensures StepsOf(pk) == [Open(pk)] + DriveSteps(pk, pk.prompts) + OwnSteps(pk, pk.domain)
  {
  }

  lemma NamesAre(pk: Pack)
    requires AllNamed(pk.domain)
    ensures NamesAdded(pk) == InstanceNames(pk.name, pk.prompts) + PrefixedNames(pk.name, pk.domain)
  {
  }

  lemma OpenNames(pk: Pack)
    ensures MintedNames([Open(pk)]) == []
  {
    assert [Open(pk)][..0] == [];
  }

  lemma {:induction false} PacksNames(packs: seq<Pack>)
    requires forall pk :: pk in packs ==> AllNamed(pk.domain)
    ensures MintedNames(AllSteps(packs)) == AllNamesAdded(packs)
    decreases |packs|
  {
    if packs != [] {
      var n := |packs| - 1;
      PacksNames(packs[..n]);
      PackNames(packs[n]);
      NamesJoined(AllSteps(packs[..n]), StepsOf(packs[n]));
      hide MintedNames, NamesAdded, StepsOf;
    }
  }

  lemma StepIn(packs: seq<Pack>, x: Step)
    ensures x in AllSteps(packs) <==>
            x.pk in packs && match x
                             case Open(_) => true
                             case Drive(_, lane, v) => (lane, v) in x.pk.prompts
                             case Own(_, d) => d in x.pk.domain
  {
    StepsOfAll(packs, x);
    StepsOfPack(x.pk, x);
    hide StepsOf, AllSteps;
  }

  lemma SoundPacks(e: Engine, packs: seq<Pack>)
    requires forall pk :: pk in packs ==> AllNamed(pk.domain)
    ensures (forall x :: x in AllSteps(packs) ==> Sound(e, x)) <==>
              && (forall pk :: pk in packs ==> ShadowsNothing(e, pk))
              && (forall pk, p :: pk in packs && p in pk.prompts ==> CanDrive(e, p.0, p.1))
  {
    hide AllSteps, Sound, ShadowsNothing, CanDrive;
    forall x ensures x in AllSteps(packs) ==> (Sound(e, x) <==> match x
                                                               case Open(pk) => ShadowsNothing(e, pk)
                                                               case Drive(_, lane, v) => CanDrive(e, lane, v)
                                                               case Own(_, d) => Named(d))
    {
      SoundIff(e, x);
    }
    forall x ensures x in AllSteps(packs) <==>
                     x.pk in packs && match x
                                      case Open(_) => true
                                      case Drive(_, lane, v) => (lane, v) in x.pk.prompts
                                      case Own(_, d) => d in x.pk.domain
    {
      StepIn(packs, x);
    }
    if forall x :: x in AllSteps(packs) ==> Sound(e, x) {
      forall pk | pk in packs ensures ShadowsNothing(e, pk) {
        assert Open(pk) in AllSteps(packs);
      }
      forall pk, p | pk in packs && p in pk.prompts ensures CanDrive(e, p.0, p.1) {
        assert p == (p.0, p.1);
        assert Drive(pk, p.0, p.1) in AllSteps(packs);
      }
    }
  }

  lemma DriverPacks(packs: seq<Pack>)
    ensures OneDriverEach(AllSteps(packs)) <==>
              forall pk, qk, p, q :: pk in packs && qk in packs && p in pk.prompts && q in qk.prompts && p.0 == q.0 ==>
                pk.name == qk.name
  {
    hide AllSteps;
    forall x ensures x in AllSteps(packs) && x.Drive? <==>
        x.Drive? && x.pk in packs && (x.lane, x.prompt) in x.pk.prompts {
      StepIn(packs, x);
    }
    if OneDriverEach(AllSteps(packs)) {
      forall pk, qk, p, q | pk in packs && qk in packs && p in pk.prompts && q in qk.prompts && p.0 == q.0
        ensures pk.name == qk.name
      {
        assert p == (p.0, p.1) && q == (q.0, q.1);
        var x, y := Drive(pk, p.0, p.1), Drive(qk, q.0, q.1);
        assert x in AllSteps(packs) && y in AllSteps(packs);
      }
    }
  }

  /** A composition reports no error exactly when no pack uses a name of the engine half, every prompt can
      drive its lane, no lane is driven by two packs, and no name is added twice. */
  lemma ComposableIff(e: Engine, packs: seq<Pack>)
    requires forall pk :: pk in packs ==> AllNamed(pk.domain)
    ensures Composable(e, AllSteps(packs)) <==> Compatible(e, packs)
  {
    ComposableSteps(e, AllSteps(packs));
    PacksNames(packs);
    SoundPacks(e, packs);
    DriverPacks(packs);
    hide Composable, AllSteps, MintedNames, Sound, CanDrive, ShadowsNothing, OneDriverEach, AllNamesAdded, Distinct;
  }
}
