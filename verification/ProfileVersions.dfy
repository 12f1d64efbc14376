/** What versions and floors mean, and that inheritance keeps to them: `_version`, `_floor` and the version
    check of `_load_profile` in `scripts/application_profiles.py`. */
module ProfileVersions {
  import opened ProfileInheritance
  import opened Profiles
  import opened Text
  import opened Values

  // ---------------------------------------------------------------------------------------------
  // Reading a version
  // ---------------------------------------------------------------------------------------------

  /** A number as it is written in decimal. */
  function Decimal(n: nat): (s: string)
    ensures AllDigits(s)
  {
    var digit := ['0' + (n % 10) as char];
    if n < 10 then digit else Decimal(n / 10) + digit
  }

  function Written(v: Version): string {
    Decimal(v.major) + "." + Decimal(v.minor) + "." + Decimal(v.patch)
  }

  lemma {:induction false} DecimalReads(n: nat)
    ensures Number(Decimal(n)) == n
  {
    var s := Decimal(n);
    if n >= 10 {
      DecimalReads(n / 10);
      assert s[..|s| - 1] == Decimal(n / 10);
    } else {
      assert s[..0] == [];
    }
  }

  lemma {:induction false} CutAtDot(head: string, tail: string)
    requires forall i :: 0 <= i < |head| ==> head[i] != '.'
    ensures Before(head + "." + tail, '.') == head && Beyond(head + "." + tail, '.') == tail
  {
    var text := head + "." + tail;
    if head == [] {
      assert text == ['.'] + tail;
    } else {
      assert text[1..] == head[1..] + "." + tail;
      CutAtDot(head[1..], tail);
    }
  }

  lemma {:induction false} NoDotCut(text: string)
    requires forall i :: 0 <= i < |text| ==> text[i] != '.'
    ensures Before(text, '.') == text && Beyond(text, '.') == []
  {
    if text != [] {
      NoDotCut(text[1..]);
    }
  }

  lemma {:induction false} DotCut(text: string)
    ensures text == Before(text, '.') || text == Before(text, '.') + "." + Beyond(text, '.')
    ensures Beyond(text, '.') != [] ==> text == Before(text, '.') + "." + Beyond(text, '.')
    ensures forall i :: 0 <= i < |Before(text, '.')| ==> Before(text, '.')[i] != '.'
  {
    if text != [] && text[0] != '.' {
      DotCut(text[1..]);
      assert text == [text[0]] + text[1..];
    }
  }

  /** Three numbers between dots, and nothing else. */
  ghost predicate Spells(text: string, v: Version, major: string, minor: string, patch: string) {
    && AllDigits(major) && AllDigits(minor) && AllDigits(patch)
    && text == major + "." + (minor + "." + patch)
    && v == Version(Number(major), Number(minor), Number(patch))
  }

  lemma SpelledParses(text: string, v: Version, major: string, minor: string, patch: string)
    requires Spells(text, v, major, minor, patch)
    ensures ParseVersion(text) == Some(v)
  {
    CutAtDot(major, minor + "." + patch);
    CutAtDot(minor, patch);
    NoDotCut(patch);
  }

  /** A text is read as a version exactly when it spells it. */
  lemma ParsesIff(text: string, v: Version)
    ensures ParseVersion(text) == Some(v) <==>
              exists major, minor, patch :: Spells(text, v, major, minor, patch)
  {
    if ParseVersion(text) == Some(v) {
      var major, rest := Before(text, '.'), Beyond(text, '.');
      var minor, patch := Before(rest, '.'), Beyond(rest, '.');
      DotCut(text);
      DotCut(rest);
      assert Spells(text, v, major, minor, patch);
    }
    if major, minor, patch :| Spells(text, v, major, minor, patch) {
      SpelledParses(text, v, major, minor, patch);
    }
  }

  /** Writing a version and reading it gives it back, as a version and as a floor. */
  lemma VersionRoundTrip(v: Version)
    ensures ParseVersion(Written(v)) == Some(v) && Floor(Str(">=" + Written(v))) == Some(v)
  {
    var major, minor, patch := Decimal(v.major), Decimal(v.minor), Decimal(v.patch);
    DecimalReads(v.major);
    DecimalReads(v.minor);
    DecimalReads(v.patch);
    assert Written(v) == major + "." + (minor + "." + patch);
    assert (">=" + Written(v))[2..] == Written(v);
    hide ParseVersion, Decimal, Number, AllDigits;
    assert Spells(Written(v), v, major, minor, patch) by { DecimalsSpell(v); }
    SpelledParses(Written(v), v, major, minor, patch);
  }

  lemma DecimalsSpell(v: Version)
    ensures Spells(Written(v), v, Decimal(v.major), Decimal(v.minor), Decimal(v.patch))
  {
    DecimalReads(v.major);
    DecimalReads(v.minor);
    DecimalReads(v.patch);
    assert Written(v) == Decimal(v.major) + "." + (Decimal(v.minor) + "." + Decimal(v.patch));
    hide Decimal, Number;
  }

  /** Nothing but `>=` and a version is a floor. */
  lemma FloorIff(value: Value, v: Version)
    ensures Floor(value) == Some(v) <==>
              value.Str? && exists text :: value.s == ">=" + text && ParseVersion(text) == Some(v)
  {
    hide ParseVersion;
    if Floor(value) == Some(v) {
      assert value.s == ">=" + value.s[2..];
    }
    if value.Str? {
      if text :| value.s == ">=" + text && ParseVersion(text) == Some(v) {
        assert value.s[2..] == text;
      }
    }
  }

  /** Versions are ordered by their first number, then their second, then their third. */
  lemma VersionsOrdered(a: Version, b: Version)
    ensures a == b ==> NotBelow(a, b)
    ensures a != b ==> (NotBelow(a, b) <==> !NotBelow(b, a))
    ensures a.major > b.major ==> NotBelow(a, b)
    ensures a.major == b.major && a.minor > b.minor ==> NotBelow(a, b)
    ensures a.major == b.major && a.minor == b.minor && a.patch > b.patch ==> NotBelow(a, b)
  {
  }

  // ---------------------------------------------------------------------------------------------
  // The floors of a chain
  // ---------------------------------------------------------------------------------------------

  /** The version is at least what the child declares. */
  ghost predicate MeetsFloor(version: string, declared: Value) {
    exists v, f :: ParseVersion(version) == Some(v) && Floor(declared) == Some(f) && NotBelow(v, f)
  }

  lemma LoadedFloor(catalog: Catalog, id: string, ancestry: seq<string>)
    requires Load(catalog, id, ancestry).Ok? && catalog[id].extends_.Some?
    ensures id in catalog
    ensures var e := catalog[id].extends_.value;
            && Load(catalog, e.profile, ancestry + [id]).Ok?
            && MeetsFloor(Load(catalog, e.profile, ancestry + [id]).profile.version, e.version)
  {
    hide IdOf, NotBelow, ParseVersion, MergeProfiles;
    var e := catalog[id].extends_.value;
    assert Floor(e.version).Some?;
    hide Floor, ValidManifest;
  }

  /** A profile keeps its own id and version when it loads. */
  lemma LoadedIsItself(catalog: Catalog, id: string, ancestry: seq<string>)
    requires Load(catalog, id, ancestry).Ok?
    ensures var p := Load(catalog, id, ancestry).profile; p.id == id && p.version == catalog[id].version
  {
    hide IdOf, NotBelow, ParseVersion, Floor, ValidManifest, Overlay, MergeContract, MergeStages, OrderedUnion;
  }

  /** Along the whole line of descent of a profile that loads, every parent is at least at the version its
      child declares. */
  lemma {:induction false} FloorsAreMet(catalog: Catalog, id: string, ancestry: seq<string>, chain: seq<string>, k: nat)
    requires Load(catalog, id, ancestry).Ok? && IsChain(catalog, chain) && chain[0] == id && k + 1 < |chain|
    ensures chain[k] in catalog && catalog[chain[k]].extends_.Some? && chain[k + 1] in catalog
    ensures MeetsFloor(catalog[chain[k + 1]].version, catalog[chain[k]].extends_.value.version)
    decreases |chain|
  {
    hide Load, Meets, MeetsFloor;
    LoadedStep(catalog, id, ancestry);
    ChainTail(catalog, chain);
    ParentIs(catalog, id);
    hide Parent, IsChain;
    if k == 0 {
      LoadedFloor(catalog, id, ancestry);
      LoadedStep(catalog, chain[1], ancestry + [id]);
      LoadedIsItself(catalog, chain[1], ancestry + [id]);
    } else {
      FloorsAreMet(catalog, chain[1], ancestry + [id], chain[1..], k - 1);
    }
  }

  lemma ParentIs(catalog: Catalog, id: string)
    ensures Parent(catalog, id).Some? ==>
              id in catalog && catalog[id].extends_.Some?
                  && Parent(catalog, id).value == catalog[id].extends_.value.profile
  {
  }

  /** A valid manifest whose parent loads is one that can be tried. */
  ghost predicate HasLoadedParent(catalog: Catalog, id: string, ancestry: seq<string>) {
    && IdOf(id, '-') && id !in ancestry && id in catalog && catalog[id].id == id && catalog[id].extends_.Some?
    && ValidManifest(catalog[id], true)
    && Load(catalog, catalog[id].extends_.value.profile, ancestry + [id]).Ok?
  }

  /** It loads exactly when the parent is at the version it declares, the merge with the parent as loaded is
      accepted, and its stages wait only for stages it can know; what loads is that merge. */
  lemma LoadsIff(catalog: Catalog, id: string, ancestry: seq<string>)
    requires HasLoadedParent(catalog, id, ancestry)
    ensures var child := catalog[id];
            var parent := Load(catalog, child.extends_.value.profile, ancestry + [id]).profile;
            && parent.loop.Some?
            && (Load(catalog, id, ancestry).Ok? <==>
                  && MeetsFloor(parent.version, child.extends_.value.version)
                  && MergeProfiles(parent, child).Some?
                  && WaitsForKnown(parent.loop.value, OrElse(child.loop, [])))
            && (Load(catalog, id, ancestry).Ok? ==>
                MergeProfiles(parent, child) == Some(Load(catalog, id, ancestry).profile))
  {
    var child := catalog[id];
    var e := child.extends_.value;
    var parent := Load(catalog, e.profile, ancestry + [id]).profile;
    LoadedIsValid(catalog, e.profile, ancestry + [id]);
    assert parent.loop.Some?;
    LoadUnfolds(catalog, id, ancestry);
    hide Load, ValidManifest, MergeProfiles, WaitsForKnown, MeetsFloor;
    if MergeProfiles(parent, child).Some? {
      MergeIsValidIff(parent, child, MergeProfiles(parent, child).value);
    }
  }

  lemma MeetsFloorIff(version: string, declared: Value)
    ensures MeetsFloor(version, declared) <==>
              && ParseVersion(version).Some? && Floor(declared).Some?
              && NotBelow(ParseVersion(version).value, Floor(declared).value)
  {
    hide ParseVersion, Floor, NotBelow;
  }

  lemma LoadUnfolds(catalog: Catalog, id: string, ancestry: seq<string>)
    requires HasLoadedParent(catalog, id, ancestry)
    ensures var child := catalog[id];
            var parent := Load(catalog, child.extends_.value.profile, ancestry + [id]).profile;
            && ValidManifest(child, true)
            && (Load(catalog, id, ancestry).Ok? <==>
                  && MeetsFloor(parent.version, child.extends_.value.version)
                  && MergeProfiles(parent, child).Some?
                  && ValidManifest(MergeProfiles(parent, child).value, false))
            && (Load(catalog, id, ancestry).Ok? ==>
                MergeProfiles(parent, child) == Some(Load(catalog, id, ancestry).profile))
  {
    var e := catalog[id].extends_.value;
    assert Floor(e.version).Some?;
    MeetsFloorIff(Load(catalog, e.profile, ancestry + [id]).profile.version, e.version);
    hide ValidManifest, MergeProfiles, IdOf, NotBelow, ParseVersion, Floor, MeetsFloor;
  }
}
