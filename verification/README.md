# OKEngine: models and proofs

This project models the decision-making parts of OKEngine, the knowledge-vault engine, and proves what
they promise. Everything is pure logic or in-memory state; files, processes, clocks and the network enter
as inputs or as steps that may happen in any order.

| part of the engine | files |
|---|---|
| dependency gates (`after:` ordering of cron lanes, layer boundaries) | `Graphs`, `Ordering`, `ArchitectureBoundaries` |
| composing a cron fleet from an engine half and packs | `PackComposition`, `Composability`, `PackGraphs`, `PackAlone` |
| write servers, splitting and merging a fleet, stamping, capturing live state | `Replacing`, `WriterBinding`, `WriterContents`, `CronSplit`, `CronParts`, `CronRoundTrip`, `Stamping`, `StampContents`, `Capture` |
| the job store shared by deploy and scheduler | `CronStore`, `DeployProtocol` |
| converge-on-write merging of page frontmatter, and its additive gate | `Converge`, `Citations`, `ConvergeHistory`, `AdditiveGate`, `AdditiveSafety` |
| application-profile inheritance | `Profiles`, `ProfileContents`, `ProfileInheritance`, `ProfileVersions` |
| sharding the test suite and checking the shards | `Packing`, `ShardWeights`, `SuiteShards`, `TightPacking`, `ShardVerification` |
| the search-index maintainer | `IndexMaintainer` |
| operation requests, reaper and crash recovery | `OperationRequests`, `RequestProtocol`, `ReadRaces` |
| operation locks and the corpus fence | `RequestLocks`, `LockFiles` |
| the reader's rate limiter | `RateLimiter` |
| wiki-link resolution by index and by scan | `LinkIndex` |
| shared vocabulary | `Values`, `Jobs`, `Text` |

JSON values are the datatype `Value`; frontmatter, jobs and environments are finite maps of strings to
values; prompts are strings of code points, and `str.replace` is defined on them. Loops of the original
are methods with loops, each proved equal to a specification function or to an outright statement;
protocols are state machines whose lemmas range over every run. The classes (`RateLimiter.Limiter`,
`CronStore.Store`, `IndexMaintainer.Maintainer`, `OperationRequests.Service`) hold the fields the original
updates in place.

## Where the code does not do what it says

Each of these is a lemma. Those whose name ends in `Iff` say exactly when the code keeps the promise.

- A union of `raw` captures loses one that is empty or itself a list when it is the page's only one
  (`ConvergeHistory.UnionKeepsBothIff`).
- Repeating a merge rewrites the page once more when a one-item list was its first `raw`
  (`ConvergeHistory.MergeIsIdempotentIff`).
- `merge helpers preserve validated contracts`, says a comment in `_load_profile`; a child's operating loop
  may name stages that come later or nowhere (`ProfileInheritance.MergeIsValidIff`, `DanglingExample`).
- A role's `allow_multiple` is protected only when written `false`, though absence means `false`
  (`ProfileInheritance.MultiplicityWeakenedIff`).
- `sanitize` does not strip `last_status` or a key that starts with an underscore, which the job store counts
  among the runtime fields; it keeps the notes of a pause on a lane that is no longer paused; and it switches
  on a lane that was switched off when it was paused, or while it was (`Capture.CaptureGivesBackIff`).
- Binding a bound prompt again can change it, when the name of a contracted lane's server ends in `mcp`: its
  prefix and the text after it can then spell the placeholder (`WriterBinding.ContractedLaneBindsOnceIff`,
  `LaneThatBindsTwice`).
- An engine job whose prompt file is named by the empty string loses its prompt across the split, and an
  engine-template lane is lost when its prompt file is not named by a string or cannot be read, or its prompt
  is not text (`CronRoundTrip.EngineBackIff`, `TemplateBackIff`).
- The link index resolves links the live scan does not when a page is named exactly `.md`
  (`LinkIndex.IndexAgreesWithScanIff`).
- The plan leaves a shard empty when too few files have a positive weight (`SuiteShards.PlanPassesIff`).
- A deploy shows drift at once when two of its jobs share an id and read differently
  (`CronStore.DriftAfterEditsIff`, `DuplicateIdsDrift`).
- A tick that counts a repeat shows as drift, since `drift` does not ignore `repeat`
  (`CronStore.DistinctIdsDriftIff`).
- A request whose worker is gone while its receipt still says `running`, or whose terminal receipt has no
  finish time, gets a new finish time with every read (`OperationRequests.FinishTimeSettles`).
- A request read after its record is written and before it is registered, its worker already gone, shows
  `failed` and can then show `running` (`RequestProtocol.EarlyReadIsTakenBack`, `EarlyReadHappens`). Its id is
  given out only after that.
- A client whose read is overtaken by the reaper, the receipt read while it still said `running` and the test
  for the worker made once nothing is registered any more, overwrites `succeeded` with `failed`
  (`ReadRaces.OvertakenReadTakesBack`). Reads that nothing overtakes act as one step, and an ending they show
  is never taken back (`ReadRaces.UndisturbedReadsAreAtomic`, `EndingIsForGoodUndisturbed`).
- The locks of a request leak when its handler raises between acquiring them and its first `try`, as it does
  when the corpus fence times out, or when leaving the fence raises while a start is undone: no step but a
  restart releases them (`RequestLocks.CanFreeIff`, `LeakHappens`).
- A worker that outlives a restart loses its locks and the corpus fence, and a second worker can run beside it
  on the same lock (`RequestLocks.OrphanSharesItsLock`, `SharedLockHappens`).
- Releasing a lock file unlocks it before it unlinks it, so two runs can come to hold one lock
  (`LockFiles.HarmfulUnlinkAdmitsTwo`, `HarmfulUnlinkHappens`); it is the corpus fence that keeps the workers
  of one life of the service apart (`RequestLocks.OneWorkerPerLife`).

## Model

| member | source | states |
|---|---|---|
| `Ordering.ValidateOrdering` | scripts/cron_pack_split.py:1407-1458 | errors are empty if and only if every enabled job's dependencies name other enabled jobs and no dependency is circular; the order always puts dependencies first and lists exactly the names that are neither on nor behind a cycle, each once; every bad dependency is reported for what it is, and the names on or behind a cycle are reported in ascending order |
| `Ordering.OrderLive` | scripts/cron_pack_split.py:1428-1458 | the same for the deployed set, with the per-entry errors first |
| `Ordering.BuildGraph` | scripts/cron_pack_split.py:1428-1445 | reading the entries reports each bad one and leaves an adjacency list and in-degree table that describe exactly the good ones |
| `Ordering.Kahn` | scripts/cron_pack_split.py:1446-1454 | the queue loop yields a topological order and leaves only names that wait for another name left over |
| `Ordering.UnplacedIffDownstream` | scripts/cron_pack_split.py:1446-1457 | what such an order leaves out is exactly what lies on a cycle or downstream of one |
| `Ordering.ResolveIffNoError` | scripts/cron_pack_split.py:1433-1443 | no entry error is reported if and only if every dependency names another deployed job |
| `ArchitectureBoundaries.CycleReportedIffOnCycle` | ci/architecture_boundaries.py:25-34 | the recursive search answers yes for a layer if and only if the layer lies on a cycle of the dependency graph |
| `ArchitectureBoundaries.ReachesAlongSimpleWalk` | ci/architecture_boundaries.py:25-30 | pruning the layers already on the path loses no answer that a simple path gives |
| `ArchitectureBoundaries.ReachesIsSound` | ci/architecture_boundaries.py:25-30 | a found answer is a real path |
| `ArchitectureBoundaries.ValidateDependencies` | ci/architecture_boundaries.py:20-35 | one error per layer on a cycle, each once, and one for a layer set that differs from the declared one; none exactly when the graph is declared and acyclic |
| `PackComposition.MergePacks` | scripts/cron_pack_split.py:965-1051 | errors are empty if and only if no pack shadows an engine lane, every prompt is readable and for an engine-template lane no other pack drives, and no minted name repeats; then the fleet is the pure-engine jobs followed, pack by pack, by an instance for each prompt, which is the lane with the pack's prompt, its prompt file if it names one, and its contract composed onto the engine's, and by each of the pack's own jobs, all under their new names and with renamed dependencies |
| `Composability.ComposableIff` | scripts/cron_pack_split.py:965-1051 | the composition has no error if and only if no own name of a pack is an engine lane's, every prompt is readable, for an engine-template lane that is there, and composes with that lane's contract, no two packs drive one lane, and no new name is given twice |
| `PackComposition.ShadowErrors` | scripts/cron_pack_split.py:219-240 | exactly the pack's own names that an engine lane has are reported |
| `PackGraphs.ComposedNamesAreDistinct` | scripts/cron_pack_split.py:1020-1050 | without errors, pack-derived names are pairwise distinct and each engine-template lane has at most one instance |
| `PackGraphs.MintedKeepsDefinition` | scripts/cron_pack_split.py:1026-1048 | composition changes no key of a job but its name, its dependencies, an instance's prompt and contract, and the pack marker of a pack's own job that has none |
| `PackGraphs.StepImage` | scripts/cron_pack_split.py:1007-1048 | a minted job has the renamed name, runs when its base does, and depends on the renamed dependencies, in order |
| `PackGraphs.EdgeForward` | scripts/cron_pack_split.py:1000-1012 | renaming carries every dependency of a pack's own fleet into the composed fleet |
| `PackGraphs.EdgeBack` | scripts/cron_pack_split.py:1000-1012 | and every dependency of a renamed job comes from one of the pack's own fleet |
| `PackGraphs.RenamingIsIsomorphism` | scripts/cron_pack_split.py:989-1012 | renaming is an isomorphism of a pack's own dependency graph onto its part of the composed one: it carries every edge over, leaves no edge into a renamed job unaccounted for, and tells names apart |
| `PackGraphs.CycleBack` | scripts/cron_pack_split.py:1407-1458 | every cycle of a composed fleet is the renaming of a cycle of the engine half or of one pack |
| `PackGraphs.ComposedSoundIffEachAlone` | scripts/cron_pack_split.py:965-1051 | the ordering gate accepts the composed fleet if and only if it accepts the engine half alone and each pack alone, when names do not reach across packs |
| `PackGraphs.IsolatedByOrdinaryNames` | scripts/cron_pack_split.py:978-986 | names do not reach across when engine names have no `@` or `:`, pure-engine lanes depend on pure-engine lanes, and a pack's jobs depend on those, lanes it drives, and its own jobs |
| `PackAlone.SinglePackVerdict` | scripts/cron_pack_split.py:933-962 | the fleet the single-pack path merges and binds gets the same verdict as the pack's unrenamed jobs |
| `PackAlone.BoundVerdict` | scripts/cron_pack_split.py:714-734 | binding a fleet to its writers does not change the verdict of the ordering gate |
| `PackAlone.BoundFleetSoundIffEachAlone` | scripts/cron_pack_split.py:965-1051 | the composed fleet as it is deployed, bound, passes the ordering gate if and only if the engine half alone and each pack alone do |
| `WriterBinding.WriterNamesSurviveDispatch` | scripts/cron_pack_split.py:526-552 | a lane's own server name is at most 36 characters, so no write tool's dispatched name exceeds 64, and it is never the generic server |
| `WriterBinding.BindContractWriters` | scripts/cron_pack_split.py:714-734 | binding a list of jobs binds each, in order |
| `WriterContents.BindWrites` | scripts/cron_pack_split.py:680-734 | a bound job holds its toolset, in environment and prompt the prefix of its writer if it is a model lane with exactly one, and every other key as it was |
| `WriterContents.ServerOfWords` | scripts/cron_pack_split.py:530-534 | a lane's server is named by the words of the lane's name, in lower case, with one dash for whatever stands between two of them |
| `WriterContents.ServerOfNoWords` | scripts/cron_pack_split.py:530-534 | a name without a word gives the stem alone |
| `WriterContents.SpellingOf` | scripts/cron_pack_split.py:530-534 | every name is some words with gaps before, between and after them |
| `WriterContents.BoundedName` | scripts/cron_pack_split.py:537-552 | a server name of more than 36 characters is cut to 27, less the dashes these end with, and ends with the digest of the whole; any other stays |
| `WriterBinding.BoundToolsHold` | scripts/cron_pack_split.py:722-732 | a bound toolset has the lane's own server, not the generic one, not the lane's unbounded name, no tool twice, and every other tool it had |
| `WriterBinding.ContractedLanesAreFenced` | scripts/cron_pack_split.py:714-734 | a contracted model lane ends up with its own server and never the generic, actor-less one |
| `WriterBinding.AlwaysBindsOnceIff` | scripts/cron_pack_split.py:680-734 | binding a job twice is binding it once whatever its prompt, if and only if it publishes no server, or one whose prefix holds no placeholder and ends with no start of one |
| `WriterBinding.CleanServerIff` | scripts/cron_pack_split.py:670-688 | a server name without a capital `O` has such a prefix, if and only if it does not end in `mcp` |
| `WriterBinding.ContractedLaneBindsOnceIff` | scripts/cron_pack_split.py:714-734 | a contracted lane that publishes its own server binds once whatever its prompt, if and only if that server's name does not end in `mcp` |
| `WriterBinding.LaneThatBindsTwice` | scripts/cron_pack_split.py:680-734 | a contracted lane named `mcp`, with the rest of a placeholder after one in its prompt, is changed by binding it again |
| `WriterBinding.PromptComesBack` | scripts/cron_pack_split.py:1326-1327 | expanding the placeholder undoes replacing the prefix by it, on every prompt without a placeholder |
| `WriterBinding.RebindIff` | scripts/cron_pack_split.py:1313-1328 | binding the unpublished form of a bound job gives the job back, if and only if the prefix in its environment is one it publishes itself |
| `Replacing.ReplaceBack` | scripts/cron_pack_split.py:687-688 | replacing `a` by `b` and then `b` by `a` gives the text back when `b` does not occur in it and no end of `b` is a start of `b` |
| `Replacing.LeavesNoneIff` | scripts/cron_pack_split.py:687-688 | replacing `a` by a `b` that starts like it leaves no `a` in any text, if and only if `b` holds no `a` and ends with no start of `a` |
| `CronSplit.Split` | scripts/cron_pack_split.py:368-405 | each job goes to the part its markers and tier call for, in order; an unclassified job stops the split |
| `CronParts.SplitSorts` | scripts/cron_pack_split.py:352-405 | a split sorts every job into the part its marker, tier or name puts it in, each part in order, an engine job without the prompt its file supplies, a template lane without its prompt, which the pack half keeps with its contract; it is refused if and only if some job belongs to no part |
| `CronSplit.Merge` | scripts/cron_pack_split.py:933-962 | prompts are re-attached, contracts composed, undriven lanes dropped when tiers are given, and everything bound |
| `CronParts.MergeAttaches` | scripts/cron_pack_split.py:933-962 | a merge gives the engine jobs that ship, in order, each with the pack's prompt, its prompt file if it names one, and the pack's contract composed onto the engine's, then the pack's own jobs and the extensions', all bound; it is refused if and only if a prompt supplied for an engine job cannot be used |
| `CronRoundTrip.RoundTrip` | scripts/cron_pack_split.py:368-405 | for a uniquely named, classified, bound and keepable fleet, splitting, reading the prompt files and merging gives the same sources, each job once |
| `CronRoundTrip.TemplateBack` | scripts/cron_pack_split.py:385-400 | an engine-template lane comes back from its stub and its prompt entry |
| `CronRoundTrip.EngineBackIff` | scripts/cron_pack_split.py:380-384 | a bound engine job comes back from its engine half, if and only if the file its prompt is left to has a name |
| `CronRoundTrip.TemplateBackIff` | scripts/cron_pack_split.py:324-400 | a bound engine-template lane, with a contract that composes with itself if it has a prompt, comes back, if and only if its prompt file, if it names one, is named by a string and can be read, and a prompt without a file is text |
| `Stamping.StampIdempotent` | scripts/cron_pack_split.py:284-296 | stamping a stamped job changes nothing |
| `Stamping.NothingMoreToAdd` | scripts/cron_pack_split.py:246-263 | a stamped prompt has every text it needs, so nothing is appended twice |
| `Stamping.ContractTwice` | scripts/cron_pack_split.py:165-186 | the contract stamp, with its environment and selection manifest, is stable |
| `StampContents.StampWrites` | scripts/cron_pack_split.py:128-296 | a deployed job holds, key by key, its schedule in the scheduler's form, its own or a minted id, its contract's digest and, per selected item, manifest and receipt modes, an environment that names lane, digest and manifest, its prompt with the texts it lacked, and the prompt's size; every other key is the source's |
| `Capture.Sanitize` | scripts/cron_pack_split.py:99-121 | each job is captured by itself, in order |
| `Capture.CaptureGivesBackIff` | scripts/cron_pack_split.py:99-121 | after any history of ticks, counts, pauses, resumes and operator switches, capture gives the deployed job with only `enabled` made explicit (a pause undone, an operator's disable kept), if and only if the scheduler left only fields the capture strips, an unpaused lane kept no note of a pause, and no paused lane is one its operator wants off |
| `Capture.CarriedIsAnEvent` | scripts/cron_plus_store.py:66-72 | the pause a deploy carries onto a regenerated job is one of the events of such a history |
| `Capture.DeployedIsFixed` | scripts/cron_pack_split.py:284-296 | a deployed job without a placeholder is a fixed point of binding and of stamping |
| `Capture.CaptureThenRegenerateIff` | scripts/cron_pack_split.py:99-121 | capture, unpublish, bind and stamp give the deployed job back, switched as its operator wants it, if and only if the live job meets that same condition |
| `CronStore.CarryPauses` | scripts/cron_plus_store.py:51-75 | the generated jobs are edited in place to the ones with pauses carried, and the report counts the paused ids, the jobs that take a pause over, and the difference |
| `CronStore.CarryKeepsDefinitions` | scripts/cron_plus_store.py:66-72 | only `enabled` and `paused_at` of jobs whose id is paused change |
| `CronStore.CarryKeepsPauses` | scripts/cron_plus_store.py:66-72 | a regenerated job with a paused id is switched off, with the time of the last paused lane of that id if it has one; any other job, and every job of a resuming deploy, is as generated |
| `CronStore.Store.Write` | scripts/cron_plus_store.py:98-125 | store and deployed snapshot become the same list, with the pauses of the store as it was under the lock, and the report counts these |
| `CronStore.Drift` | scripts/cron_plus_store.py:128-146 | the report is empty if and only if every deployed field outside the runtime ones reads the same in the live store; otherwise it has, in order, one line for each deployed job that is missing or reads otherwise, with exactly the keys that do |
| `CronStore.DriftAfterEditsIff` | scripts/cron_plus_store.py:128-146 | after scheduler edits that rewrite runtime fields and add keys, none of them one that another deployed job of the id has, a deploy shows drift if and only if some deployed job has no id or reads otherwise than the last deployed job of its id |
| `CronStore.DuplicateIdsDrift` | scripts/cron_plus_store.py:128-146 | two deployed jobs with one id and two prompts show drift the moment they land |
| `CronStore.DistinctIdsDriftIff` | scripts/cron_plus_store.py:128-146 | with distinct, non-empty ids and any scheduler edits, pauses with their notes and counted repeats included, a deploy shows drift if and only if a deployed repeat was counted on or a deployed note of a pause was touched |
| `DeployProtocol.DeployIsNeverLost` | scripts/cron_plus_store.py:98-146 | in every interleaving of deploys, crashes and lock-guarded scheduler writes, a committed deploy of jobs with distinct, non-empty ids shows drift only for a counted deployed repeat or a touched deployed note of a pause, and for those it does; the same with repeated ids when the list agrees with itself |
| `DeployProtocol.PausePersists` | scripts/cron_plus_store.py:51-75 | a paused lane stays paused through any interleaving of non-resuming scheduler writes and non-resume deploys that still ship it |
| `DeployProtocol.StaleCopyLosesTheDeploy` | scripts/cron_plus_store.py:1-24 | a scheduler that wrote back a copy read before the deploy would lose it, and `drift` would say so |
| `Converge.MergeFrontmatter` | okengine-mcp/converge.py:323-398 | every key holds what the rules call for: provenance stays, what an authorised call drops is gone, what it sends lands where it is new, the server's own or the caller's to change, and the rest stays; each decision list holds exactly the keys it is for, in order, a refused change with both values, a refused removal with the value that stays |
| `Converge.CitationAdditions` | okengine-mcp/converge.py:69-77 | exactly the sent citations that are the first of their target and whose target the stored ones do not name are added, in order |
| `Citations.CitesTarget` | okengine-mcp/converge.py:62-66 | a target written plain or as a link, with or without `.md`, a label or a section, and any white space around it, is one citation |
| `ConvergeHistory.ChangedOnlyByAnOwner` | okengine-mcp/converge.py:311-320 | a held key outside the server, `raw` and list-citation keys changes or disappears only in a call by its owner or grant holder that asked for it |
| `ConvergeHistory.HistoryNeedsAnOwner` | okengine-mcp/converge.py:311-398 | over any history, a key that is not as it was has a first call that changed it, by an owner |
| `ConvergeHistory.ProvenanceIsForever` | okengine-mcp/converge.py:40-44 | no history of merges adds, changes or drops `created`, `created_by`, `discovered_by` or `extension_id` |
| `ConvergeHistory.UnionKeepsBothIff` | okengine-mcp/converge.py:80-93 | the union of two `raw` values keeps both sides, if and only if it has more or less than one item or that item is neither empty nor a list |
| `ConvergeHistory.CapturesAccumulate` | okengine-mcp/converge.py:46-52 | without an authorised removal a page keeps the captures it had, in place, and holds every capture any call sent, whoever owns the page |
| `ConvergeHistory.CitationsAccumulate` | okengine-mcp/converge.py:54-59 | without an authorised removal a citation list keeps its entries in place, cites every page any call cited, and never cites one page twice if it did not before |
| `ConvergeHistory.CitationsAfterMerge` | okengine-mcp/converge.py:69-77 | the same for one merge, which adds no citation nobody sent |
| `ConvergeHistory.MergeIsIdempotentIff` | okengine-mcp/converge.py:323-398 | repeating a merge changes nothing, if and only if it did not store a one-item list as the page's first `raw`; the captures listed are the same either way, and a third merge never changes anything |
| `ConvergeHistory.LoneEmptyCaptureIsLost` | okengine-mcp/converge.py:80-93 | a page whose only capture is empty loses it in a merge |
| `AdditiveGate.AdditivePayload` | okengine-mcp/converge.py:185-255 | the loop passes, key by key, exactly what may be added, and reports exactly the keys that contradict the page, in order, each with the value the page holds; a sent `title` or `name` does so if and only if it is not empty, folds to none of the page's names and aliases, and the two are not the same source URL, and it is reported with the held value of its key, or else the first held name |
| `AdditiveGate.ApplyGate` | okengine-mcp/converge.py:258-295 | a caller that is not additive passes unchanged; an additive one gets the payload of the canonical page and write, or only its captures when it describes another document, or nothing when the normalizer raises, with no removal and every disagreement reported; with an identity check that flags a name, a write under a name the page does not answer to passes nothing but `raw` |
| `AdditiveSafety.PayloadLosesNothing` | okengine-mcp/converge.py:185-255 | merging the payload, even for the owner, keeps every non-empty held value: lists extend at the end, a legacy alias string keeps its parts, page-deciding keys and provenance are as they were |
| `AdditiveSafety.AdditiveWritesLoseNothing` | okengine-mcp/converge.py:258-398 | the same over any number of gated additive writes by anyone: for `raw` when every capture, on the page and sent, reads back as it is, for any other key whatever the `raw`, when the normalizer gives held keys no other value |
| `AdditiveSafety.NeverAdded` | okengine-mcp/converge.py:112-118 | an additive write does not even add an id, a page-deciding key or provenance |
| `AdditiveSafety.AliasesAreVetted` | okengine-mcp/converge.py:219-232 | a page gains an alias only if it is not blank, the page does not answer to it, and the write path approved it |
| `AdditiveSafety.LandsOrIsReported` | okengine-mcp/converge.py:216-255 | what an owner's additive write sends, outside the keys never taken, either lands on the page or is reported as a disagreement |
| `AdditiveSafety.RefusedWriteMovesOnlyCaptures` | okengine-mcp/converge.py:280-291 | a write that describes another document moves only `raw` and the maintainers' stamp; one the normalizer cannot read moves only the stamp |
| `Profiles.OverlayEntries` | scripts/application_profiles.py:117-167 | the loop over a child's entries, in any order, gives each entry as its rule makes it of what the parent holds, or refuses |
| `Profiles.ComposeStages` | scripts/application_profiles.py:183-195 | the stage table gives the parent's stages followed by the child's new ones, or refuses |
| `Profiles.ComposeProfiles` | scripts/application_profiles.py:170-207 | the whole merge, entry by entry |
| `ProfileContents.MergeHolds` | scripts/application_profiles.py:105-207 | a merged profile holds, entry by entry, what the rules make of parent and child, and nothing neither has: id, version and header the child's, lists the parent's followed by the child's new items, minimums and floors the higher, roles and policies the child's over the parent's |
| `ProfileContents.MergeRefusedIff` | scripts/application_profiles.py:109-207 | a merge is refused if and only if a floor both ask for cannot be read, a role bound once is loosened, a stage is redefined, or a true policy is dropped |
| `Profiles.ValidateLoop` | scripts/application_profiles.py:293-315 | no error if and only if the loop is non-empty, its ids are given and unique, and every stage comes after those it depends on (the last for profiles without a parent); where ids are in order, every stage with a dependency no earlier stage provides is reported, with exactly those |
| `ProfileInheritance.StagesMerged` | scripts/application_profiles.py:183-195 | the merged operating loop starts with the parent's, has every stage of both and no other, and keeps ids unique |
| `ProfileInheritance.StagesRefusedIff` | scripts/application_profiles.py:185-194 | stages are refused if and only if the child redefines one |
| `ProfileInheritance.MergeWeakensNeither` | scripts/application_profiles.py:170-207 | a merge has floors and minimums no lower, and every field, operation, role, surface, queue, measure, stage and true policy, of both parent and child |
| `ProfileInheritance.MultiplicityWeakenedIff` | scripts/application_profiles.py:145-150 | a merged role allows what its parent does not, if and only if the parent is silent and the child allows it |
| `ProfileInheritance.RequirementKeptIff` | scripts/application_profiles.py:117-135 | a merged requirement asks for at least the parent's, if and only if it is `engine`, a table on both sides, or the child asked for as much |
| `ProfileInheritance.LoopInOrderIff` | scripts/application_profiles.py:183-195 | the merged operating loop is in order, if and only if every stage of the child waits only for stages of the parent and for its own earlier ones |
| `ProfileInheritance.MergeIsValidIff` | scripts/application_profiles.py:87-91 | the merge of a valid profile and a valid child is valid, if and only if every stage of the child waits only for stages of the parent and for its own earlier ones |
| `ProfileInheritance.DanglingStagePassesTheMerge` | scripts/application_profiles.py:87-91 | under any valid profile, a valid child that only adds a stage waiting for a stage nobody has merges into a manifest that is not valid |
| `ProfileInheritance.DanglingExample` | scripts/application_profiles.py:87-91 | two valid manifests of which that is so |
| `ProfileInheritance.LoadedMeetsEveryAncestor` | scripts/application_profiles.py:52-92 | a profile that loads asks for everything every ancestor does, as written and as loaded, over a chain of any length, and each ancestor's operating loop opens its own |
| `ProfileInheritance.CyclesAreRejected` | scripts/application_profiles.py:52-57 | a profile whose line of descent comes back to itself, at any distance, does not load |
| `ProfileInheritance.LoadedHasARoot` | scripts/application_profiles.py:52-75 | a profile that loads descends from one without a parent |
| `ProfileVersions.FloorsAreMet` | scripts/application_profiles.py:78-86 | along a line of descent of any length, each ancestor loaded with a version no lower than the floor its child declares |
| `ProfileVersions.LoadsIff` | scripts/application_profiles.py:52-92 | a valid profile whose parent loads does so itself, if and only if the parent's version meets the declared floor, the merge is accepted, and the profile's stages wait only for stages of the parent and for their own earlier ones |
| `ProfileVersions.ParsesIff` | scripts/application_profiles.py:95-97 | a text is a version if and only if it is three runs of digits with dots between them, and then it is the version of their numbers |
| `ProfileVersions.VersionRoundTrip` | scripts/application_profiles.py:95-97 | a version written out is read back |
| `ProfileVersions.FloorIff` | scripts/application_profiles.py:100-102 | a floor is `>=` followed by a version |
| `ProfileVersions.VersionsOrdered` | scripts/application_profiles.py:78-86 | versions compare by major, then minor, then patch number, any two of them one way or the other |
| `Packing.LoadBesideItsFiles` | ci/suite_shards.py:67-80 | a shard's load is at most the average plus (1 - 1/m) times any file on it |
| `Packing.WithinFourThirds` | ci/suite_shards.py:67-80 | heaviest first onto the lightest shard is within 4/3 - 1/(3m) of any other split into m shards |
| `Packing.HeavyFileFits` | ci/suite_shards.py:74-77 | a file heavier than a third of what some split achieves still fits within it |
| `Packing.NoShardEmptyIff` | ci/suite_shards.py:67-80 | every shard gets a file if and only if there are enough files and all but the lightest of the first m weigh something |
| `SuiteShards.Pack` | ci/suite_shards.py:72-78 | the loop over loads and shards computes the heaviest-first packing |
| `SuiteShards.MakePlan` | ci/suite_shards.py:67-80 | fewer than one shard is refused; otherwise the plan is returned if and only if it passes its own check, or else what is wrong with it; it is the heaviest-first packing by weights that are the recorded durations and, without one, the median of those recorded for these files, each shard in ascending order; with none recorded, distinct files are planned if and only if they are at least as many as the shards, whose sizes then differ by at most one |
| `SuiteShards.PlanIsUnique` | ci/suite_shards.py:67-80 | there is one such plan |
| `ShardWeights.WeightsWeigh` | ci/suite_shards.py:59-64 | a file weighs its recorded duration; without one, a recorded duration of these files with at most half of them below it and more than half at or below it, or 1.0 when there is none |
| `ShardWeights.MedianIsUnique` | ci/suite_shards.py:59-64 | there is one such duration |
| `SuiteShards.UnrecordedPlanPasses` | ci/suite_shards.py:67-103 | with no duration recorded, a plan of distinct files passes its check if and only if there are as many files as shards |
| `SuiteShards.PlanIgnoresListing` | ci/suite_shards.py:67-80 | the plan depends on which files there are, not on the order they are listed in |
| `SuiteShards.PlanIsNearBest` | ci/suite_shards.py:59-80 | with the recorded or fallback weights, every shard of the plan is within 4/3 - 1/(3m) of any other split |
| `TightPacking.FourThirdsIsTight` | ci/suite_shards.py:59-80 | for every number m of shards the plan attains that factor: for two files of each weight from 2m - 1 down to m + 1 and three of weight m it has a shard of 4m - 1, and another split has none above 3m |
| `TightPacking.NoSplitIsBetter` | ci/suite_shards.py:59-80 | and no split of those files has every shard below 3m |
| `SuiteShards.VerifyPartition` | ci/suite_shards.py:83-103 | missing, doubled, unknown and empty are exactly what they say, and nothing is reported if and only if every file has one shard and every shard a file |
| `SuiteShards.PlanPassesIff` | ci/suite_shards.py:67-103 | a plan of distinct files passes if and only if there are at least as many files as shards and all but one of the shards can get a file of positive weight |
| `ShardVerification.Verify` | ci/suite_shards.py:121-166 | accepts exactly the trustworthy artifacts; a refusal says what is so: the split's problems, the first shard that strays or whose report cannot be trusted, what was never or additionally collected |
| `ShardVerification.AcceptedMeansExactlyOnce` | ci/suite_shards.py:144-164 | what is accepted ran every node id of the full collection exactly once, and nothing else |
| `ShardVerification.ExactlyOnceIsAccepted` | ci/suite_shards.py:121-166 | and every orderly run that did so is accepted |
| `ShardVerification.OneShardPerNode` | ci/suite_shards.py:144-158 | in a valid split a node id belongs to one shard |
| `ShardVerification.EveryLayerIsRead` | ci/suite_shards.py:106-114 | a report's node ids are those of every layer, in order |
| `ShardVerification.NodeFileIs` | ci/suite_shards.py:117-118 | a node id's file is what stands before its first two colons in a row, or all of it |
| `IndexMaintainer.VaultMaxMtime` | okengine-mcp/server.py:920-947 | the newest time among the entries that count, 0.0 when there is none |
| `IndexMaintainer.Maintainer.Step` | okengine-mcp/server.py:950-983 | one poll turns the three timers into what the full-refresh, change and cooldown rules call for |
| `IndexMaintainer.NothingSilentlyIndexed` | okengine-mcp/server.py:950-983 | in every interleaving of writes and failing or succeeding refreshes, a change stamped at or before `last_seen` was made before the start of a refresh that succeeded |
| `IndexMaintainer.PendingUntilSuccess` | okengine-mcp/server.py:950-983 | a pending change stays pending until a refresh succeeds |
| `IndexMaintainer.PendingIsPickedUp` | okengine-mcp/server.py:950-983 | the first poll past the cooldown starts a refresh for it |
| `IndexMaintainer.DutyBound` | okengine-mcp/server.py:910-917 | between a refresh and a later change-triggered one, without a periodic one, refreshing takes at most a share 1/(1 + DUTY) of the time |
| `IndexMaintainer.MinimumGap` | okengine-mcp/server.py:910-917 | a change-triggered refresh starts no sooner than the configured minimum after the one before it ended |
| `IndexMaintainer.RefreshesAgainIff` | okengine-mcp/server.py:910-983 | a poll that is no full refresh refreshes, if and only if something is newer than what the last refresh marked, the configured minimum has passed since that ended, and three times what it took |
| `IndexMaintainer.FullRefreshIff` | okengine-mcp/server.py:950-983 | the first poll is a full refresh; a later one is, if and only if the configured period has passed since the last one began, or that began at clock zero |
| `IndexMaintainer.FullRefreshFallsDue` | okengine-mcp/server.py:950-983 | with a period configured, every poll is a full refresh or follows one that began less than a period before it |
| `OperationRequests.EndedIff` | okengine-operations/app.py:198-232 | over any number of refreshes without a terminal receipt, an unfinished record has ended if and only if some refresh found its worker gone and no reaper registered, and no later one found it running |
| `OperationRequests.TerminalReceiptWins` | okengine-operations/app.py:198-232 | once a refresh has read a terminal receipt the record keeps its status through any number of later ones, even where the receipt is lost or garbled |
| `OperationRequests.SettledStaysSettled` | okengine-operations/app.py:198-232 | with worker and reaper gone the first refresh ends the record and no number of later ones with the same receipt changes its status |
| `OperationRequests.RefreshOnce` | okengine-operations/app.py:198-232 | one refresh: when it raises, and the status and finish time it leaves; nothing else moves |
| `OperationRequests.FinishTimeSettles` | okengine-operations/app.py:198-232 | with worker and reaper gone, any number of refreshes leaves the terminal receipt's finish time; a terminal receipt without one, and one that still says the run is under way, let it follow the clock of the last refresh; with neither it is the time of the first |
| `OperationRequests.Service.RefreshRequest` | okengine-operations/app.py:198-232 | the stored record becomes the refreshed one, and no other record changes |
| `OperationRequests.Service.ReconcileRequests` | okengine-operations/app.py:235-264 | every listed record is swept once and no other changes; the counters are the number of unfinished records, of those whose status moved, and of those that cannot be read or refreshed; a freshly started service leaves no readable unfinished record with its worker gone |
| `RequestProtocol.EndingsAreFounded` | okengine-operations/app.py:149-232 | at every point of every run, what a request has ended with is what its receipt says, or it is `failed` and the worker is gone; unless it was read before it was registered, nobody is then left who could finish it; a refresh is one step here |
| `RequestProtocol.EndingIsForGood` | okengine-operations/app.py:198-232 | in every run where a request is not read before it is registered, its ending never changes and is never taken back; a refresh is one step here |
| `RequestProtocol.KnownIdsEndForGood` | okengine-operations/app.py:319-354 | a client that learned the id when it was given out never sees an ending taken back; a refresh is one step here |
| `RequestProtocol.EarlyReadIsTakenBack` | okengine-operations/app.py:326-350 | every run that ends before such an early read extends to one in which the request shows `failed` and then `running` |
| `RequestProtocol.EarlyReadHappens` | okengine-operations/app.py:326-350 | there is such a run |
| `RequestProtocol.RegisteredReadsTellTheReceipt` | okengine-operations/app.py:149-232 | between registering and unregistering, every read of every run returns what the receipt says at that moment; a refresh is one step here |
| `RequestProtocol.TerminalReceiptIsForGood` | okengine-operations/app.py:198-232 | a terminal receipt never changes, and every later read returns its status; a refresh is one step here |
| `RequestProtocol.HandoverIsFinal` | okengine-operations/app.py:173-195 | the terminal record the reaper writes is never overwritten, through later reads, restarts and sweeps; a refresh is one step here |
| `RequestProtocol.SettledForGood` | okengine-operations/app.py:198-232 | a settled request keeps its status for good; a refresh is one step here |
| `RequestProtocol.ReadSettlesForGood` | okengine-operations/app.py:198-232 | one read of a request nobody is left to finish settles it, for good; a refresh is one step here |
| `ReadRaces.UndisturbedReadsAreAtomic` | okengine-operations/app.py:198-232 | with every read split into load, receipt, `_PROCESSES` test, worker test and write, any history in which no read is overtaken when it writes does what the run does in which each read is one refresh |
| `ReadRaces.EndingIsForGoodUndisturbed` | okengine-operations/app.py:198-232 | in such histories, if no read before registration writes with the worker gone, an ending is never taken back |
| `ReadRaces.EndingsAreSound` | okengine-operations/app.py:198-232 | whatever overtakes what, a request is shown to end only as its receipt says, or `failed` with its worker gone |
| `ReadRaces.ToldReadsTellTheReceipt` | okengine-operations/app.py:198-232 | whatever overtakes it, a read that finds the receipt terminal writes what it says |
| `ReadRaces.OvertakenReadTakesBack` | okengine-operations/app.py:173-232 | every history that reaches a request being reaped goes on to one that shows it `succeeded` and then `failed` |
| `ReadRaces.ReapingHappens` | okengine-operations/app.py:294-354 | there is such a history |
| `RequestLocks.WorkerHoldsFence` | okengine-operations/app.py:173-195 | a live worker started in this life of the service holds the corpus fence |
| `RequestLocks.OneWorkerPerLife` | okengine-operations/app.py:294-354 | of two live workers, whatever locks they want, one has outlived a restart |
| `RequestLocks.HeldLockIsOnItsWayIff` | okengine-operations/app.py:311-353 | in every run a held lock belongs to a request that wants it, and that request is on its way to releasing it, if and only if its handler raised nothing between acquiring the locks and its first `try` and leaving the fence raised nothing while its start was undone |
| `RequestLocks.CanFreeIff` | okengine-operations/app.py:311-353 | a held lock can still be freed without a restart, if and only if its holder took none of those steps |
| `RequestLocks.LeakIsForGood` | okengine-operations/app.py:311-331 | a leaked lock stays held, and every request that wants it is refused, until the service restarts |
| `RequestLocks.LeakHappens` | okengine-operations/app.py:311-325 | a request that times out on the fence while another one's worker holds it leaks a lock the other does not want |
| `RequestLocks.OrphanSharesItsLock` | okengine-operations/app.py:235-264 | every run that reaches a live worker goes on, over a restart, to a second live worker sharing a lock it wants |
| `RequestLocks.SharedLockHappens` | okengine-operations/app.py:235-264 | there is such a run |
| `LockFiles.OneHolder` | src/okengine/operations/run.py:114-167 | until a release unlinks a lock file another run has open, one run at a time holds the lock |
| `LockFiles.HarmfulUnlinkAdmitsTwo` | src/okengine/operations/run.py:121-132 | every run that comes to such a release goes on to two runs holding the lock |
| `LockFiles.HarmfulUnlinkHappens` | src/okengine/operations/run.py:121-132 | there is such a run |
| `RateLimiter.Limiter.Allow` | okengine-reader/limits.py:37-53 | answers as if every past admission were still kept; after an eviction every remaining key has a hit in the last minute |
| `RateLimiter.RunIsSpaced` | okengine-reader/limits.py:37-53 | over any run with a clock that does not step back, no key gets more than `per_min` admissions within less than a minute |
| `RateLimiter.AtMostPerMinute` | okengine-reader/limits.py:28-53 | such admissions put at most `per_min` into any half-open minute |
| `RateLimiter.AdmitsIff` | okengine-reader/limits.py:37-53 | after any run a request is admitted, if and only if its key's admissions with this one still keep every `per_min` + 1 in a row a minute apart; no other key gains any |
| `RateLimiter.ClosedMinuteHoldsTwo` | okengine-reader/limits.py:37-53 | a closed minute can hold one more |
| `LinkIndex.BuildIndex` | okengine-mcp/output_contract_enforce.py:17-39 | one pass fills the set of exact links and the table of stems per scope of the whole vault |
| `LinkIndex.ResolvesByScan` | okengine-mcp/output_contract_enforce.py:42-83 | the live branch, early exit included, gives the verdict that counting pages gives |
| `LinkIndex.ScanNamespace` | okengine-mcp/output_contract_enforce.py:68-83 | true if and only if exactly one page of that name is in the namespace and it is under the scope |
| `LinkIndex.IndexAgreesWithScanIff` | okengine-mcp/output_contract_enforce.py:17-83 | index and scan give the same verdict for every vault and link, except exactly the links a page named `.md` confuses |
| `LinkIndex.IndexAgreesWithScan` | okengine-mcp/output_contract_enforce.py:17-83 | without such a page they agree on every link |
| `LinkIndex.BarePageExample` | okengine-mcp/output_contract_enforce.py:17-83 | the smallest vault on which they differ |
| `LinkIndex.ShardOmittingSuccess` | okengine-mcp/output_contract_enforce.py:68-83 | a success that is not exact means exactly one page of that name in the namespace, under the link's own scope |
| `LinkIndex.ResolvesIff` | okengine-mcp/output_contract_enforce.py:42-83 | a link, with `.md` or without and any white space around it, resolves if and only if it has two parts at least, each ordinary, and its page exists or exactly one page of its name is in its namespace and that is under its folders |

## Left out

- MergePacks: unnamed jobs, dependency lists that cannot be iterated, and dictionaries or lists as dependency entries, which raise in the original.
- ComposedSoundIffEachAlone: assumes that names do not reach across packs; without that the composed fleet can resolve a dependency a pack alone cannot.
- RoundTrip: reading prompt files is a parameter that may fail; contract composition is a parameter with `compose(c, c) = c` on the contracts concerned; entries are compared as values, not as rendered JSON.
- BindContractWriters: SHA-256 is a parameter of the right length, so two lanes deriving one server name are not excluded; lower-casing is that of ASCII; an environment that is not a mapping, which raises when published to, counts as empty; toolsets that are mappings count as empty.
- CaptureThenRegenerateIff: the restoring of jitter schedules and model profiles from the sources, and cron-plus itself: a resume is taken to switch the lane on and leave `paused_at` null, with either note of the pause kept, dropped or rewritten.
- StampIdempotent: SHA-1 ids, contract digests, UTF-8 sizes and the two appended texts are parameters, known only by what the pipeline relies on.
- MergeFrontmatter: Python's equality of booleans with numbers, and of numbers of different types; `str` of a value is a parameter.
- AdditivePayload: the name-folding, alias check, URL identity and list-splitting functions are parameters; a missing alias check is one that approves nothing.
- ApplyGate: the comma-separated `remove` argument is already parsed.
- AdditiveWritesLoseNothing: for keys other than `raw` the normalizer may raise and may add keys, but gives no held key another value; for `raw`, captures that are empty or lists are excluded, as `UnionKeepsBothIff` says they must be.
- MergeIsIdempotentIff: a single capture that is empty or a list is excluded; what a merge does to it is `UnionKeepsBothIff`.
- CapturesAccumulate: items that are empty or lists are excluded, as `UnionKeepsBothIff` says they must be.
- ComposeProfiles: manifests have the shapes of the catalog format; the checks on unknown keys, on value types and on YAML itself are not modelled, nor are booleans standing for integers.
- OverlayEntries: which of several refused entries is named in the error, since the entries come in any order.
- LoadedMeetsEveryAncestor: requirement tables other than `extensions` and `engine` are not claimed, since the code protects them only in part (`RequirementKeptIff`).
- PlanIsNearBest: weights are exact reals, not floats.
- VerifyPartition: the rendering of the report.
- Allow: the lock, and floating-point rounding of the clock.
- IndexAgreesWithScan: symbolic links, and glob characters in a link; a stem is what Python 3.12 makes of a name.
- NothingSilentlyIndexed: one maintainer, qmd present, and change times that advance past every time observed; coalesced refreshes and progress counters are not modelled.
- DeployIsNeverLost: the scheduler takes the lock, keeps the jobs and their ids, and leaves their keys alone but for runtime fields, the notes of a pause, the count of a repeat, and keys it adds; what cron-plus does otherwise is not modelled.
- DriftAfterEditsIff: an added key that another deployed job of the same id has is excluded; with distinct ids there is none.
- RegisteredReadsTellTheReceipt: process ids are not reused; what reads of several steps can do to it is `ReadRaces`.
- UndisturbedReadsAreAtomic: the reaper's own projection is one step, since it reads a receipt that is final.
- OneWorkerPerLife: a worker that survives both signals of `abort_start`, and workers started by other processes.
- HeldLockIsOnItsWayIff: acquiring and releasing a lock set are single steps, and locks other processes hold are not modelled; a fence whose context is dropped unclosed is taken to be released.
- OneHolder: one lock file; a run that fails to lock it is refused whoever is recorded as its holder.
- ValidateOrdering: the wording of errors.
- Parsing of YAML, JSON and markdown, and the path checks around them.
- The reader, cockpit, chat, exports and authentication.
- Long lists of independent field checks (most of the profile, binding and contract validators): each is settled by reading one branch.
- `output_contract.compose` beyond what merging needs of it.
- The tier-1, foreign-writer and reserved-writer gates, and `validate_unique_ids`.
- Characters outside ASCII in white space and among digits, and Unicode case folding.
- The deployed file's sorting by name, and its leaving out of switched-off jobs.
- `progress` and the receipt's path in a request record.
