/** Resolving wiki links against a prebuilt index or by a live scan:
    `okengine-mcp/output_contract_enforce.py`. The vault has no symlinks. */
module LinkIndex {
  import opened Text

  // ---------------------------------------------------------------------------------------------
  // Paths
  // ---------------------------------------------------------------------------------------------

  /** `"/".join(parts)` */
  function Join(parts: seq<string>): string
    requires parts != []
  {
    if |parts| == 1 then parts[0] else parts[0] + "/" + Join(parts[1..])
  }

  /** `text.split("/")` */
  function Split(text: string): (parts: seq<string>)
    ensures parts != []
  {
    if text == [] then [[]]
    else
      var rest := Split(text[1..]);
      if text[0] == '/' then [[]] + rest else [[text[0]] + rest[0]] + rest[1..]
  }

  ghost predicate NoSlash(parts: seq<string>) {
    forall i :: 0 <= i < |parts| ==> '/' !in parts[i]
  }

  lemma {:induction false} SplitOfPart(part: string, text: string)
    requires '/' !in part
    ensures Split(part + text) == [part + Split(text)[0]] + Split(text)[1..]
    decreases |part|
  {
    if part == [] {
      assert part + text == text;
      assert [] + Split(text)[0] == Split(text)[0];
    } else {
      assert (part + text)[1..] == part[1..] + text;
      SplitOfPart(part[1..], text);
      assert [part[0]] + (part[1..] + Split(text)[0]) == part + Split(text)[0];
    }
  }

  lemma {:induction false} SplitJoin(parts: seq<string>)
    requires parts != [] && NoSlash(parts)
    ensures Split(Join(parts)) == parts
    decreases |parts|
  {
    if |parts| == 1 {
      SplitOfPart(parts[0], "");
      assert parts[0] + "" == parts[0];
    } else {
      SplitJoin(parts[1..]);
      var tail := "/" + Join(parts[1..]);
      assert parts[0] + "/" + Join(parts[1..]) == parts[0] + tail;
      assert tail[1..] == Join(parts[1..]);
      SplitOfPart(parts[0], tail);
      assert Split(tail) == [[]] + parts[1..];
      assert parts[0] + [] == parts[0];
    }
  }

  lemma {:induction false} JoinSplit(text: string)
    ensures NoSlash(Split(text)) && Join(Split(text)) == text
    decreases |text|
  {
    if text != [] {
      JoinSplit(text[1..]);
      var rest := Split(text[1..]);
      if text[0] == '/' {
        assert ([[]] + rest)[1..] == rest;
        assert [] + "/" + Join(rest) == text;
      } else {
        var parts := [[text[0]] + rest[0]] + rest[1..];
        if |rest| == 1 {
          assert [text[0]] + rest[0] == text;
        } else {
          assert parts[1..] == rest[1..];
          assert [text[0]] + rest[0] + "/" + Join(rest[1..]) == [text[0]] + (rest[0] + "/" + Join(rest[1..]));
        }
      }
    }
  }

  lemma JoinInjective(a: seq<string>, b: seq<string>)
    requires a != [] && b != [] && NoSlash(a) && NoSlash(b)
    ensures Join(a) == Join(b) <==> a == b
  {
    SplitJoin(a);
    SplitJoin(b);
  }

  // ---------------------------------------------------------------------------------------------
  // The vault
  // ---------------------------------------------------------------------------------------------

  /** A page below the wiki root: its folders, and its file name including `.md`. */
  datatype Page = Page(folders: seq<string>, file: string)

  predicate IsMarkdown(file: string) {
    |file| >= 3 && file[|file| - 3..] == ".md"
  }

  /** `PurePath.stem` of a name ending in `.md`: a name that starts with its only dot has no suffix. */
  function Stem(file: string): string
    requires IsMarkdown(file)
  {
    if file == ".md" then file else file[..|file| - 3]
  }

  /** What a walk of the file system yields: every page once, its folders among the directories. */
  datatype Vault = Vault(pages: seq<Page>, directories: set<seq<string>>)

  ghost predicate ValidPage(p: Page, directories: set<seq<string>>) {
    && IsMarkdown(p.file) && '/' !in p.file && NoSlash(p.folders)
    && (forall d :: 1 <= d <= |p.folders| ==> p.folders[..d] in directories)
  }

  ghost predicate ValidVault(v: Vault) {
    && (forall i :: 0 <= i < |v.pages| ==> ValidPage(v.pages[i], v.directories))
    && (forall i, j :: 0 <= i < j < |v.pages| ==> v.pages[i] != v.pages[j])
  }

  predicate Under(scope: seq<string>, p: Page) {
    scope <= p.folders
  }

  // ---------------------------------------------------------------------------------------------
  // Counting pages
  // ---------------------------------------------------------------------------------------------

  /** Pages below `scope` whose stem is `stem`: what the index tabulates. */
  ghost function StemCount(pages: seq<Page>, scope: seq<string>, stem: string): nat
    requires forall i :: 0 <= i < |pages| ==> IsMarkdown(pages[i].file)
  {
    if pages == [] then 0
    else
      var p := pages[|pages| - 1];
      StemCount(pages[..|pages| - 1], scope, stem) + if Under(scope, p) && Stem(p.file) == stem then 1 else 0
  }

  /** Pages below `scope` with this file name: what the scan globs for. */
  ghost function FileCount(pages: seq<Page>, scope: seq<string>, file: string): nat {
    if pages == [] then 0
    else
      var p := pages[|pages| - 1];
      FileCount(pages[..|pages| - 1], scope, file) + if Under(scope, p) && p.file == file then 1 else 0
  }

  lemma {:induction false} FileCountMonotone(pages: seq<Page>, scope: seq<string>, outer: seq<string>, file: string)
    requires outer <= scope
    ensures FileCount(pages, scope, file) <= FileCount(pages, outer, file)
    decreases |pages|
  {
    if pages != [] { FileCountMonotone(pages[..|pages| - 1], scope, outer, file); }
  }

  lemma {:induction false} FileCountPositive(pages: seq<Page>, scope: seq<string>, file: string)
    ensures FileCount(pages, scope, file) > 0 <==>
              exists i :: 0 <= i < |pages| && Under(scope, pages[i]) && pages[i].file == file
    decreases |pages|
  {
    if pages != [] {
      var n := |pages| - 1;
      FileCountPositive(pages[..n], scope, file);
      if exists i :: 0 <= i < n && Under(scope, pages[i]) && pages[i].file == file {
        var i :| 0 <= i < n && Under(scope, pages[i]) && pages[i].file == file;
        assert pages[..n][i] == pages[i];
      }
    }
  }

  lemma StemIs(f: string, stem: string)
    requires IsMarkdown(f) && stem != []
    ensures Stem(f) == stem <==> f == stem + ".md" || (f == ".md" && stem == ".md")
    ensures stem + ".md" != ".md"
  {
    assert f == f[..|f| - 3] + f[|f| - 3..];
    assert (stem + ".md")[..|stem|] == stem;
    assert |stem + ".md"| > 3;
  }

  /** A stem is its file name without `.md`, except that a file named exactly `.md` is its own stem. */
  lemma {:induction false} StemCountIsFileCount(pages: seq<Page>, scope: seq<string>, stem: string)
    requires forall i :: 0 <= i < |pages| ==> IsMarkdown(pages[i].file)
    requires stem != []
    ensures StemCount(pages, scope, stem)
         == FileCount(pages, scope, stem + ".md") + if stem == ".md" then FileCount(pages, scope, ".md") else 0
    decreases |pages|
  {
    if pages != [] {
      var n := |pages| - 1;
      StemCountIsFileCount(pages[..n], scope, stem);
      StemIs(pages[n].file, stem);
    }
  }

  // ---------------------------------------------------------------------------------------------
  // The index
  // ---------------------------------------------------------------------------------------------

  type Scoped = map<(string, string), nat>

  function Lookup(scoped: Scoped, key: (string, string)): nat {
    if key in scoped then scoped[key] else 0
  }

  function Logical(p: Page): string
    requires IsMarkdown(p.file)
  {
    var text := Join(p.folders + [p.file]);
    if |text| >= 3 then text[..|text| - 3] else text
  }

  /** The string a page is reached by exactly names its folders and its file without `.md`. */
  lemma {:induction false} LogicalIs(p: Page, parts: seq<string>)
    requires IsMarkdown(p.file) && '/' !in p.file && NoSlash(p.folders)
    requires parts != [] && NoSlash(parts)
    ensures Logical(p) == Join(parts) <==> p.folders + [p.file] == parts[..|parts| - 1] + [parts[|parts| - 1] + ".md"]
  {
    JoinEndsWithLast(p.folders + [p.file]);
    var full := parts[..|parts| - 1] + [parts[|parts| - 1] + ".md"];
    JoinLastExtended(parts, ".md");
    JoinInjective(p.folders + [p.file], full);
    var text := Join(p.folders + [p.file]);
    assert text == text[..|text| - 3] + ".md";
    assert Join(full)[..|Join(full)| - 3] == Join(parts);
  }

  lemma {:induction false} JoinLastExtended(parts: seq<string>, tail: string)
    requires parts != []
    ensures Join(parts[..|parts| - 1] + [parts[|parts| - 1] + tail]) == Join(parts) + tail
    decreases |parts|
  {
    var full := parts[..|parts| - 1] + [parts[|parts| - 1] + tail];
    if |parts| > 1 {
      JoinLastExtended(parts[1..], tail);
      assert full[1..] == parts[1..][..|parts| - 2] + [parts[1..][|parts| - 2] + tail];
      assert parts[0] + "/" + (Join(parts[1..]) + tail) == (parts[0] + "/" + Join(parts[1..])) + tail;
    }
  }

  lemma JoinEndsWithLast(parts: seq<string>)
    requires parts != [] && IsMarkdown(parts[|parts| - 1])
    ensures |Join(parts)| >= 3 && Join(parts)[|Join(parts)| - 3..] == ".md"
  {
    var last := parts[|parts| - 1];
    var cut := parts[..|parts| - 1] + [last[..|last| - 3]];
    JoinLastExtended(cut, ".md");
    assert last == last[..|last| - 3] + ".md";
    assert cut[..|cut| - 1] + [cut[|cut| - 1] + ".md"] == parts;
  }

  /** Index entries are right for every scope of proper path parts. */
  ghost predicate Tabulates(scoped: Scoped, pages: seq<Page>)
    requires forall i :: 0 <= i < |pages| ==> IsMarkdown(pages[i].file)
  {
    forall scope, stem :: scope != [] && NoSlash(scope) ==>
      Lookup(scoped, (Join(scope), stem)) == StemCount(pages, scope, stem)
  }

  /** Half way through one page: the scopes shorter than `depth` have been counted. */
  ghost predicate TabulatesUpTo(scoped: Scoped, pages: seq<Page>, p: Page, depth: nat)
    requires IsMarkdown(p.file) && forall i :: 0 <= i < |pages| ==> IsMarkdown(pages[i].file)
  {
    forall scope, stem :: scope != [] && NoSlash(scope) ==>
      Lookup(scoped, (Join(scope), stem)) == StemCount(pages, scope, stem) +
        if |scope| < depth && Under(scope, p) && stem == Stem(p.file) then 1 else 0
  }

  lemma TabulateOneDepth(scoped: Scoped, pages: seq<Page>, p: Page, depth: nat)
    requires IsMarkdown(p.file) && NoSlash(p.folders) && 1 <= depth <= |p.folders|
    requires forall i :: 0 <= i < |pages| ==> IsMarkdown(pages[i].file)
    requires TabulatesUpTo(scoped, pages, p, depth)
    ensures var key := (Join(p.folders[..depth]), Stem(p.file));
            TabulatesUpTo(scoped[key := Lookup(scoped, key) + 1], pages, p, depth + 1)
  {
    var here := p.folders[..depth];
    var key := (Join(here), Stem(p.file));
    var next := scoped[key := Lookup(scoped, key) + 1];
    forall scope, stem | scope != [] && NoSlash(scope)
      ensures Lookup(next, (Join(scope), stem)) == StemCount(pages, scope, stem) +
                if |scope| < depth + 1 && Under(scope, p) && stem == Stem(p.file) then 1 else 0
    {
      JoinInjective(scope, here);
      assert Lookup(scoped, (Join(scope), stem)) == StemCount(pages, scope, stem) +
               if |scope| < depth && Under(scope, p) && stem == Stem(p.file) then 1 else 0;
    }
  }

  lemma TabulateOnePage(scoped: Scoped, pages: seq<Page>, p: Page)
    requires IsMarkdown(p.file) && forall i :: 0 <= i < |pages| ==> IsMarkdown(pages[i].file)
    requires TabulatesUpTo(scoped, pages, p, |p.folders| + 1)
    ensures Tabulates(scoped, pages + [p])
  {
    assert (pages + [p])[..|pages|] == pages;
    forall scope, stem | scope != [] && NoSlash(scope)
      ensures Lookup(scoped, (Join(scope), stem)) == StemCount(pages + [p], scope, stem)
    {
      assert Under(scope, p) ==> |scope| <= |p.folders|;
    }
  }

  ghost predicate ListsExactly(exact: set<string>, pages: seq<Page>)
    requires forall i :: 0 <= i < |pages| ==> IsMarkdown(pages[i].file)
  {
    forall link :: link in exact <==>
        exists i :: 0 <= i < |pages| && pages[i].folders != [] && link == Logical(pages[i])
  }

  lemma ListOneMore(exact: set<string>, pages: seq<Page>, p: Page)
    requires IsMarkdown(p.file) && forall i :: 0 <= i < |pages| ==> IsMarkdown(pages[i].file)
    requires ListsExactly(exact, pages)
    ensures ListsExactly(if p.folders != [] then exact + {Logical(p)} else exact, pages + [p])
  {
    hide Logical;
    var more := pages + [p];
    var next := if p.folders != [] then exact + {Logical(p)} else exact;
    forall link
      ensures link in next <==> exists i :: 0 <= i < |more| && more[i].folders != [] && link == Logical(more[i])
    {
      if link in exact {
        var i :| 0 <= i < |pages| && pages[i].folders != [] && link == Logical(pages[i]);
        assert more[i] == pages[i];
      }
      if p.folders != [] && link == Logical(p) {
        assert more[|pages|] == p;
      }
    }
  }

  /** `link_index`: one pass over the vault fills the set of exact links and the counting table. Pages
      directly under the root are not linkable and are skipped. */
  method BuildIndex(v: Vault) returns (exact: set<string>, scoped: Scoped)
    requires ValidVault(v)
    ensures IndexOf(exact, scoped, v)
  {
    exact, scoped := {}, map[];
    assert v.pages[..0] == [];
    assert forall i :: 0 <= i < |v.pages| ==> ValidPage(v.pages[i], v.directories);
    assert ListsExactly(exact, []) && Tabulates(scoped, []);
    hide ListsExactly, Tabulates, Logical, NoSlash;
    for i := 0 to |v.pages|
      invariant ListsExactly(exact, v.pages[..i])
      invariant Tabulates(scoped, v.pages[..i])
    {
      var p := v.pages[i];
      assert v.pages[..i] + [p] == v.pages[..i + 1];
      ListOneMore(exact, v.pages[..i], p);
      if p.folders != [] {
        exact := exact + {Logical(p)};
      }
      scoped := CountPage(scoped, p, v.pages[..i]);
    }
    assert v.pages[..|v.pages|] == v.pages;
  }

  /** The inner loop: count one page under each of its scopes. */
  method CountPage(scoped0: Scoped, p: Page, ghost pages: seq<Page>) returns (scoped: Scoped)
    requires IsMarkdown(p.file) && NoSlash(p.folders)
    requires forall i :: 0 <= i < |pages| ==> IsMarkdown(pages[i].file)
    requires Tabulates(scoped0, pages)
    ensures Tabulates(scoped, pages + [p])
  {
    scoped := scoped0;
    var depth := 1;
    assert TabulatesUpTo(scoped, pages, p, 1);
    while depth <= |p.folders|
      invariant 1 <= depth <= |p.folders| + 1
      invariant TabulatesUpTo(scoped, pages, p, depth)
    {
      var key := (Join(p.folders[..depth]), Stem(p.file));
      TabulateOneDepth(scoped, pages, p, depth);
      scoped := scoped[key := Lookup(scoped, key) + 1];
      depth := depth + 1;
    }
    TabulateOnePage(scoped, pages, p);
  }

  // ---------------------------------------------------------------------------------------------
  // Resolving a link
  // ---------------------------------------------------------------------------------------------

  /** `raw.strip().removesuffix(".md")` */
  function Target(raw: string): string {
    var text := Strip(raw);
    if IsMarkdown(text) then text[..|text| - 3] else text
  }

  /** The shape tests: at least one folder, no empty, `.` or `..` part, no backslash. */
  predicate WellShaped(target: string) {
    var parts := Split(target);
    && !(target != [] && (target[0] == '/' || target[|target| - 1] == '/'))
    && '\\' !in target
    && |parts| >= 2
    && forall i :: 0 <= i < |parts| ==> parts[i] !in {"", ".", ".."}
  }

  ghost predicate Direct(v: Vault, parts: seq<string>)
    requires parts != []
  {
    exists i :: 0 <= i < |v.pages| && v.pages[i] == Page(parts[..|parts| - 1], parts[|parts| - 1] + ".md")
  }

  /** Branch one: the prebuilt index. */
  predicate ResolvesIndexed(exact: set<string>, scoped: Scoped, raw: string) {
    var target := Target(raw);
    var parts := Split(target);
    WellShaped(target) && (target in exact || IndexCounts(scoped, parts))
  }

  predicate IndexCounts(scoped: Scoped, parts: seq<string>)
    requires |parts| >= 2
  {
    var stem := parts[|parts| - 1];
    Lookup(scoped, (Join(parts[..|parts| - 1]), stem)) == 1 && Lookup(scoped, (parts[0], stem)) == 1
  }

  /** What the live scan decides. */
  ghost predicate ScanVerdict(v: Vault, raw: string) {
    var target := Target(raw);
    var parts := Split(target);
    WellShaped(target) && (Direct(v, parts) || ScanCounts(v.pages, parts))
  }

  /** One page of that name in the namespace, and it lies below the scope. */
  ghost predicate ScanCounts(pages: seq<Page>, parts: seq<string>)
    requires |parts| >= 2
  {
    var file := parts[|parts| - 1] + ".md";
    FileCount(pages, parts[..1], file) == 1 && FileCount(pages, parts[..|parts| - 1], file) == 1
  }

  lemma {:induction false} MoreMatches(pages: seq<Page>, k: nat, scope: seq<string>, file: string)
    requires k <= |pages|
    ensures FileCount(pages[..k], scope, file) <= FileCount(pages, scope, file)
    decreases |pages|
  {
    if k < |pages| {
      assert pages[..|pages| - 1][..k] == pages[..k];
      MoreMatches(pages[..|pages| - 1], k, scope, file);
    } else {
      assert pages[..k] == pages;
    }
  }

  lemma NoFolderNoPage(v: Vault, scope: seq<string>, file: string)
    requires ValidVault(v) && scope != [] && scope !in v.directories
    ensures FileCount(v.pages, scope, file) == 0
  {
    FileCountPositive(v.pages, scope, file);
    forall i | 0 <= i < |v.pages| ensures !Under(scope, v.pages[i]) {
      if Under(scope, v.pages[i]) { FolderExists(v, scope, i); }
    }
  }

  lemma FolderExists(v: Vault, scope: seq<string>, i: nat)
    requires ValidVault(v) && scope != [] && i < |v.pages| && Under(scope, v.pages[i])
    ensures scope in v.directories
  {
    assert ValidPage(v.pages[i], v.directories);
    assert v.pages[i].folders[..|scope|] == scope;
  }

  /** Branch two: the live scan. */
  method ResolvesByScan(v: Vault, raw: string) returns (ok: bool)
    requires ValidVault(v)
    ensures ok == ScanVerdict(v, raw)
  {
    var target := Target(raw);
    if !WellShaped(target) {
      return false;
    }
    var parts := Split(target);
    var scope, namespace := parts[..|parts| - 1], parts[..1];
    var file := parts[|parts| - 1] + ".md";
    if Page(scope, file) in v.pages {
      return true;
    }
    assert !Direct(v, parts);
    if scope !in v.directories {
      NoFolderNoPage(v, scope, file);
      return false;
    }
    if namespace !in v.directories {
      NoFolderNoPage(v, namespace, file);
      return false;
    }
    ok := ScanNamespace(v.pages, scope, namespace, file);
  }

  lemma CountOneMore(pages: seq<Page>, i: nat, scope: seq<string>, file: string)
    requires i < |pages|
    ensures FileCount(pages[..i + 1], scope, file) ==
            FileCount(pages[..i], scope, file) + if Under(scope, pages[i]) && pages[i].file == file then 1 else 0
  {
    assert pages[..i + 1][..i] == pages[..i];
  }

  /** The glob of the namespace, with its early exit on the second match. */
  method ScanNamespace(pages: seq<Page>, scope: seq<string>, namespace: seq<string>, file: string) returns (ok: bool)
    requires namespace <= scope
    ensures ok <==> FileCount(pages, namespace, file) == 1 && FileCount(pages, scope, file) == 1
  {
    var matches, parentHits := 0, 0;
    assert pages[..0] == [] && pages[..|pages|] == pages;
    assert FileCount([], namespace, file) == FileCount([], scope, file) == 0;
    hide FileCount;
    for i := 0 to |pages|
      invariant matches == FileCount(pages[..i], namespace, file) <= 1
      invariant parentHits == FileCount(pages[..i], scope, file)
    {
      CountOneMore(pages, i, namespace, file);
      CountOneMore(pages, i, scope, file);
      if Under(namespace, pages[i]) && pages[i].file == file {
        matches := matches + 1;
        if Under(scope, pages[i]) {
          parentHits := parentHits + 1;
        }
        if matches > 1 {
          MoreMatches(pages, i + 1, namespace, file);
          return false;
        }
      }
    }
    ok := matches == 1 && parentHits == 1;
  }

  // ---------------------------------------------------------------------------------------------
  // Index and scan
  // ---------------------------------------------------------------------------------------------

  ghost predicate IndexOf(exact: set<string>, scoped: Scoped, v: Vault)
    requires ValidVault(v)
  {
    ListsExactly(exact, v.pages) && Tabulates(scoped, v.pages)
  }

  lemma ExactIsDirect(exact: set<string>, scoped: Scoped, v: Vault, target: string)
    requires ValidVault(v) && IndexOf(exact, scoped, v) && WellShaped(target)
    ensures target in exact <==> Direct(v, Split(target))
  {
    var parts := Split(target);
    JoinSplit(target);
    var n := |parts| - 1;
    forall i | 0 <= i < |v.pages|
      ensures v.pages[i].folders != [] && target == Logical(v.pages[i]) <==>
              v.pages[i] == Page(parts[..n], parts[n] + ".md")
    {
      var p := v.pages[i];
      assert ValidPage(p, v.directories);
      LogicalIs(p, parts);
      var a, b := p.folders + [p.file], parts[..n] + [parts[n] + ".md"];
      if a == b {
        assert a[..|a| - 1] == p.folders && b[..|b| - 1] == parts[..n];
        assert a[|a| - 1] == b[|b| - 1];
      }
    }
  }

  /** The pages named exactly `.md` below a scope: the only ones whose stem keeps its suffix. */
  ghost function BareCount(v: Vault, scope: seq<string>): nat {
    FileCount(v.pages, scope, ".md")
  }

  /** The two verdicts differ on a link: its last part is `.md`, no page answers to it exactly, and in
      its namespace either one bare page is the only page with that stem, or a bare page hides the one
      page the scan finds. */
  ghost predicate BarePageConfuses(v: Vault, parts: seq<string>)
    requires |parts| >= 2
  {
    var scope, namespace := parts[..|parts| - 1], parts[..1];
    && parts[|parts| - 1] == ".md" && !Direct(v, parts)
    && BareCount(v, namespace) >= 1
    && (if FileCount(v.pages, namespace, ".md.md") == 0
        then BareCount(v, namespace) == 1 && BareCount(v, scope) == 1
        else FileCount(v.pages, namespace, ".md.md") == 1 && FileCount(v.pages, scope, ".md.md") == 1)
  }

  /** For every vault and every link the index and the scan give the same verdict, except exactly the
      links a bare `.md` page confuses. */
  lemma IndexAgreesWithScanIff(exact: set<string>, scoped: Scoped, v: Vault, raw: string)
    requires ValidVault(v) && IndexOf(exact, scoped, v)
    ensures ResolvesIndexed(exact, scoped, raw) == ScanVerdict(v, raw) <==>
            !(WellShaped(Target(raw)) && BarePageConfuses(v, Split(Target(raw))))
  {
    var target := Target(raw);
    if WellShaped(target) {
      ExactIsDirect(exact, scoped, v, target);
      CountsAgreeUnlessConfused(scoped, v, target);
      hide Split, Direct, IndexOf, ValidVault, Target, IndexCounts, ScanCounts, BarePageConfuses;
    }
  }

  lemma CountsAgreeUnlessConfused(scoped: Scoped, v: Vault, target: string)
    requires ValidVault(v) && Tabulates(scoped, v.pages) && WellShaped(target)
    ensures var parts := Split(target);
            (Direct(v, parts) || IndexCounts(scoped, parts)) == (Direct(v, parts) || ScanCounts(v.pages, parts)) <==>
            !BarePageConfuses(v, parts)
  {
    LookupsAreCounts(scoped, v, target);
    hide FileCount, Split, Join, Direct, ValidVault, Lookup, StemCount, Tabulates;
    var parts := Split(target);
    var scope, namespace, stem := parts[..|parts| - 1], parts[..1], parts[|parts| - 1];
    FileCountMonotone(v.pages, scope, namespace, stem + ".md");
    FileCountMonotone(v.pages, scope, namespace, ".md");
    assert ".md" + ".md" == ".md.md";
    var fs, fn := FileCount(v.pages, scope, stem + ".md"), FileCount(v.pages, namespace, stem + ".md");
    var bs, bn := BareCount(v, scope), BareCount(v, namespace);
    assert IndexCounts(scoped, parts) <==>
        fs + (if stem == ".md" then bs else 0) == 1 && fn + (if stem == ".md" then bn else 0) == 1;
    assert ScanCounts(v.pages, parts) <==> fn == 1 && fs == 1;
    assert BarePageConfuses(v, parts) <==>
        stem == ".md" && !Direct(v, parts) && bn >= 1 && (if fn == 0 then bn == 1 && bs == 1 else fn == 1 && fs == 1);
    hide *;
    CountArithmetic(Direct(v, parts), stem == ".md", fs, fn, bs, bn);
  }

  lemma CountArithmetic(direct: bool, bare: bool, fs: nat, fn: nat, bs: nat, bn: nat)
    requires fs <= fn && bs <= bn
    ensures (direct || (fs + (if bare then bs else 0) == 1 && fn + (if bare then bn else 0) == 1)) ==
            (direct || (fn == 1 && fs == 1)) <==>
            !(bare && !direct && bn >= 1 && (if fn == 0 then bn == 1 && bs == 1 else fn == 1 && fs == 1))
  {
  }

  /** The two lookups of the indexed branch, in terms of the names the scan globs for. */
  lemma LookupsAreCounts(scoped: Scoped, v: Vault, target: string)
    requires ValidVault(v) && Tabulates(scoped, v.pages) && WellShaped(target)
    ensures var parts := Split(target);
            var stem := parts[|parts| - 1];
            && Lookup(scoped, (Join(parts[..|parts| - 1]), stem))
               == FileCount(v.pages, parts[..|parts| - 1], stem + ".md")
                   + (if stem == ".md" then BareCount(v, parts[..|parts| - 1]) else 0)
            && Lookup(scoped, (parts[0], stem))
               == FileCount(v.pages, parts[..1], stem + ".md") + (if stem == ".md" then BareCount(v, parts[..1]) else 0)
  {
    var parts := Split(target);
    var scope, namespace, stem := parts[..|parts| - 1], parts[..1], parts[|parts| - 1];
    JoinSplit(target);
    assert forall i :: 0 <= i < |v.pages| ==> ValidPage(v.pages[i], v.directories);
    StemCountIsFileCount(v.pages, scope, stem);
    StemCountIsFileCount(v.pages, namespace, stem);
    assert Join(namespace) == parts[0];
    hide Join, Split, StemCount, FileCount;
    assert NoSlash(scope) && NoSlash(namespace);
  }

  /** In a vault without a page named exactly `.md` the two agree on every link. */
  lemma IndexAgreesWithScan(exact: set<string>, scoped: Scoped, v: Vault, raw: string)
    requires ValidVault(v) && IndexOf(exact, scoped, v)
    requires forall i :: 0 <= i < |v.pages| ==> v.pages[i].file != ".md"
    ensures ResolvesIndexed(exact, scoped, raw) == ScanVerdict(v, raw)
  {
    IndexAgreesWithScanIff(exact, scoped, v, raw);
    if WellShaped(Target(raw)) {
      FileCountPositive(v.pages, Split(Target(raw))[..1], ".md");
    }
  }

  /** The smallest vault on which they differ: one page `ns/.md`. The audit resolves `ns/.md.md`,
      the live check does not. */
  lemma BarePageExample(exact: set<string>, scoped: Scoped, v: Vault)
    requires v == Vault([Page(["ns"], ".md")], {["ns"]})
    requires ValidVault(v) && IndexOf(exact, scoped, v)
    ensures ResolvesIndexed(exact, scoped, "ns/.md.md") && !ScanVerdict(v, "ns/.md.md")
  {
    BarePageTarget();
    BarePageCounts(v);
    IndexAgreesWithScanIff(exact, scoped, v, "ns/.md.md");
    hide *;
    BarePageMisses(v);
  }

  lemma BarePageMisses(v: Vault)
    requires Target("ns/.md.md") == "ns/.md" && Split("ns/.md") == ["ns", ".md"]
    requires BarePageConfuses(v, ["ns", ".md"]) && FileCount(v.pages, ["ns"], ".md.md") == 0
    ensures !ScanVerdict(v, "ns/.md.md")
  {
    hide Target, Split, FileCount;
    assert ["ns", ".md"][..1] == ["ns"] && ".md" + ".md" == ".md.md";
  }

  lemma BarePageCounts(v: Vault)
    requires v == Vault([Page(["ns"], ".md")], {["ns"]})
    ensures FileCount(v.pages, ["ns"], ".md.md") == 0
    ensures BarePageConfuses(v, ["ns", ".md"])
  {
    assert v.pages[..0] == [];
    assert ["ns", ".md"][..1] == ["ns"];
    assert ".md" != ".md.md" by { assert |".md.md"| == 6; }
  }

  lemma BarePageTarget()
    ensures Target("ns/.md.md") == "ns/.md"
    ensures Split("ns/.md") == ["ns", ".md"]
    ensures WellShaped("ns/.md")
  {
    BarePageParts();
    hide Split;
    assert "ns/.md.md"[..6] == "ns/.md";
  }

  lemma BarePageParts()
    ensures Split("ns/.md") == ["ns", ".md"]
  {
    var parts := ["ns", ".md"];
    assert Join(parts) == "ns/.md" by { assert parts[1..] == [".md"]; }
    hide Split, Join;
    SplitJoin(parts);
  }

  /** A success that is not exact means what the rule promises: exactly one page of that name in the
      whole namespace, and it lies under the link's own scope. */
  lemma ShardOmittingSuccess(v: Vault, raw: string) returns (i: nat)
    requires ValidVault(v) && ScanVerdict(v, raw) && !Direct(v, Split(Target(raw)))
    ensures i < |v.pages|
    ensures var parts := Split(Target(raw));
            && Under(parts[..|parts| - 1], v.pages[i]) && v.pages[i].file == parts[|parts| - 1] + ".md"
            && forall j :: 0 <= j < |v.pages| && Under(parts[..1], v.pages[j]) && v.pages[j].file == v.pages[i].file ==>
                j == i
  {
    var parts := Split(Target(raw));
    var scope, namespace, file := parts[..|parts| - 1], parts[..1], parts[|parts| - 1] + ".md";
    FileCountPositive(v.pages, scope, file);
    i :| 0 <= i < |v.pages| && Under(scope, v.pages[i]) && v.pages[i].file == file;
    forall j | 0 <= j < |v.pages| && Under(namespace, v.pages[j]) && v.pages[j].file == file ensures j == i {
      assert namespace <= scope;
      if j < i { TwoMatches(v.pages, j, i, namespace, file); }
      if i < j { TwoMatches(v.pages, i, j, namespace, file); }
    }
  }

  lemma {:induction false} TwoMatches(pages: seq<Page>, i: nat, j: nat, scope: seq<string>, file: string)
    requires i < j < |pages|
    requires Under(scope, pages[i]) && pages[i].file == file && Under(scope, pages[j]) && pages[j].file == file
    ensures FileCount(pages, scope, file) >= 2
    decreases |pages|
  {
    var n := |pages| - 1;
    if j < n {
      TwoMatches(pages[..n], i, j, scope, file);
    } else {
      FileCountPositive(pages[..n], scope, file);
      assert pages[..n][i] == pages[i];
    }
  }

  // ---------------------------------------------------------------------------------------------
  // What a link resolves to
  // ---------------------------------------------------------------------------------------------

  /** A part a link may have. */
  predicate Ordinary(part: string) {
    part != "" && part != "." && part != ".." && '\\' !in part
  }

  lemma {:induction false} JoinedChars(parts: seq<string>, c: char)
    requires parts != [] && c != '/'
    ensures c in Join(parts) <==> exists i :: 0 <= i < |parts| && c in parts[i]
    decreases |parts|
  {
    if |parts| > 1 {
      JoinedChars(parts[1..], c);
      if i :| 0 <= i < |parts| && c in parts[i] && i > 0 {
        assert c in parts[1..][i - 1];
      }
    }
  }

  lemma {:induction false} JoinedEnds(parts: seq<string>)
    requires parts != [] && NoSlash(parts)
    ensures |parts| > 1 || parts[0] != "" ==> Join(parts) != []
    ensures |Join(parts)| > 0 ==> (Join(parts)[0] == '/' <==> parts[0] == "" && |parts| > 1)
    ensures |Join(parts)| > 0 ==> (Join(parts)[|Join(parts)| - 1] == '/' <==> parts[|parts| - 1] == "" && |parts| > 1)
    decreases |parts|
  {
    if |parts| > 1 {
      var rest := Join(parts[1..]);
      JoinedEnds(parts[1..]);
      assert Join(parts) == parts[0] + "/" + rest;
      if rest == [] {
        assert |parts[1..]| == 1 && parts[1..][0] == "";
        assert Join(parts)[|Join(parts)| - 1] == '/';
      } else {
        assert Join(parts)[|Join(parts)| - 1] == rest[|rest| - 1];
        assert |parts[1..]| == 1 ==> rest == parts[1];
      }
    }
  }

  predicate Dotted(part: string) {
    part == "" || part == "." || part == ".."
  }

  lemma ShapeOf(target: string, parts: seq<string>)
    requires Split(target) == parts
    ensures WellShaped(target) <==>
              && !(target != [] && (target[0] == '/' || target[|target| - 1] == '/'))
              && '\\' !in target && |parts| >= 2
              && forall i :: 0 <= i < |parts| ==> !Dotted(parts[i])
  {
    hide Split;
  }

  /** The shape tests ask for two parts at least, each ordinary. */
  lemma ShapeIff(parts: seq<string>)
    requires parts != [] && NoSlash(parts)
    ensures WellShaped(Join(parts)) <==> |parts| >= 2 && forall i :: 0 <= i < |parts| ==> Ordinary(parts[i])
  {
    SplitJoin(parts);
    JoinedChars(parts, '\\');
    JoinedEnds(parts);
    ShapeOf(Join(parts), parts);
    hide Split, Join, WellShaped, NoSlash;
    assert forall i :: 0 <= i < |parts| ==> (Ordinary(parts[i]) <==> !Dotted(parts[i]) && '\\' !in parts[i]);
    assert Dotted("");
    hide Dotted, Ordinary;
  }

  ghost predicate MatchesAt(pages: seq<Page>, scope: seq<string>, file: string, i: int) {
    0 <= i < |pages| && Under(scope, pages[i]) && pages[i].file == file
  }

  lemma {:induction false} OneAtMost(pages: seq<Page>, scope: seq<string>, file: string, i: nat)
    requires forall j :: MatchesAt(pages, scope, file, j) ==> j == i
    ensures FileCount(pages, scope, file) <= 1
    decreases |pages|
  {
    if pages != [] {
      var n := |pages| - 1;
      forall j | MatchesAt(pages[..n], scope, file, j) ensures j == i && i < n {
        assert MatchesAt(pages, scope, file, j);
      }
      OneAtMost(pages[..n], scope, file, i);
      if MatchesAt(pages, scope, file, n) {
        FileCountPositive(pages[..n], scope, file);
        assert forall j :: 0 <= j < n && Under(scope, pages[..n][j]) && pages[..n][j].file == file ==>
            MatchesAt(pages[..n], scope, file, j);
      }
    }
  }

  /** The only page of that name below the namespace lies below the scope. */
  ghost predicate OnlyMatch(pages: seq<Page>, scope: seq<string>, namespace: seq<string>, file: string) {
    exists i :: MatchesAt(pages, scope, file, i) && forall j :: MatchesAt(pages, namespace, file, j) ==> j == i
  }

  lemma CountsAreOneIff(pages: seq<Page>, scope: seq<string>, namespace: seq<string>, file: string)
    requires namespace <= scope
    ensures FileCount(pages, namespace, file) == 1 && FileCount(pages, scope, file) == 1 <==>
              OnlyMatch(pages, scope, namespace, file)
  {
    hide FileCount;
    FileCountPositive(pages, scope, file);
    FileCountMonotone(pages, scope, namespace, file);
    if FileCount(pages, namespace, file) == 1 && FileCount(pages, scope, file) == 1 {
      var i :| 0 <= i < |pages| && Under(scope, pages[i]) && pages[i].file == file;
      assert MatchesAt(pages, scope, file, i);
      forall j | MatchesAt(pages, namespace, file, j) ensures j == i {
        if j < i { TwoMatches(pages, j, i, namespace, file); }
        if i < j { TwoMatches(pages, i, j, namespace, file); }
      }
    }
    if i :| MatchesAt(pages, scope, file, i) && forall j :: MatchesAt(pages, namespace, file, j) ==> j == i {
      OneAtMost(pages, namespace, file, i);
    }
  }

  /** `raw` writes the link of these parts: with `.md` or without, and any white space around it. */
  ghost predicate Writes(raw: string, parts: seq<string>, before: string, after: string)
    requires parts != []
  {
    var link := Join(parts);
    && link != [] && !Space(link[0]) && !Space(link[|link| - 1])
    && (forall i :: 0 <= i < |before| ==> Space(before[i])) && (forall i :: 0 <= i < |after| ==> Space(after[i]))
    && (raw == before + (link + ".md") + after || (raw == before + link + after && !IsMarkdown(link)))
  }

  lemma WritesTarget(raw: string, parts: seq<string>, before: string, after: string)
    requires parts != [] && Writes(raw, parts, before, after)
    ensures Target(raw) == Join(parts)
  {
    var link := Join(parts);
    hide Join;
    if raw == before + (link + ".md") + after {
      var text := link + ".md";
      assert text[0] == link[0] && text[|text| - 3..] == ".md" && text[..|text| - 3] == link;
      StripOf(before, text, after);
    } else {
      StripOf(before, link, after);
    }
  }

  /** What a link resolves to, whichever way it is written: it has two parts at least, each ordinary, and
      either its page exists, or exactly one page of its name exists in its namespace and lies below its
      folders. */
  lemma ResolvesIff(v: Vault, raw: string, parts: seq<string>, before: string, after: string)
    requires ValidVault(v) && parts != [] && NoSlash(parts) && Writes(raw, parts, before, after)
    ensures ScanVerdict(v, raw) <==>
              && |parts| >= 2 && (forall i :: 0 <= i < |parts| ==> Ordinary(parts[i]))
              && var scope, file := parts[..|parts| - 1], parts[|parts| - 1] + ".md";
                 || Page(scope, file) in v.pages
                 || OnlyMatch(v.pages, scope, parts[..1], file)
  {
    WritesTarget(raw, parts, before, after);
    SplitJoin(parts);
    ShapeIff(parts);
    hide Target, Join, Split, WellShaped, Ordinary, OnlyMatch, FileCount, ValidVault;
    if |parts| >= 2 {
      CountsAreOneIff(v.pages, parts[..|parts| - 1], parts[..1], parts[|parts| - 1] + ".md");
    }
  }
}
