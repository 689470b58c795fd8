# Verified model of the indexing and query orchestration

The repository indexes a Python code base into a graph and answers questions about it by planning
rounds of specialist calls. This project models the parts of it that have to be right over whole runs,
and proves what they are for.

## What is modelled

- **Indexing.** A pass compares stored hashes, purges files that are gone, deletes what changed and
  writes files, modules, classes, callables, parameters, docstrings and imports by key
  (`GraphStore`, `ParsedFiles`, `IndexPass`, `PassAgreement`, `Indexer`). Contents, hashing and parsing are functions;
  a hash is injective and a parse records the path and hash it was made from. The main results: a
  pass keeps every file's nodes equal to what its content yields, and exactly when it does; the
  incremental pass leaves the nodes of the full one, and exactly when they agree in every walk order.
- **Name resolution.** Relative imports, import bindings, re-exports followed for at most four hops,
  and the resolution of one reference (`RelativeImports`, `ImportBindings`, `RewriteOrbits`,
  `FromImports`, `NameResolution`, `ResolutionOrder`, `HopBound`, `NameIndexes`, `ImportListings`,
  `EdgeRows`).
  The re-export table rebuilt from the graph equals the one computed from the parse, and the rows
  emitted for a file do not depend on the mode of the pass. `EdgeLoss` says exactly which of those
  edges an incremental pass loses and which it keeps too long.
- **Index version.** The serialisation fed to the digest, with a decoder (`IndexVersion`).
- **Parsing.** The walk that records definitions and the collector of calls, over a syntax tree of
  definitions, scopeless blocks and expressions (`SyntaxTrees`, `Definitions`, `DefinitionCollector`,
  `CallCollection`, `CallAttribution`).
- **Rate limiting.** The sliding-window limiter, its refinement of the unpruned history and its
  optimality (`RateLimiter`, `WindowHistory`, `WindowOptimality`).
- **Accounting.** The token ledger and the request budget, in real arithmetic, and the plan phase as
  a step system over an arbitrary clock (`TokenLedgers`, `RequestBudgets`).
- **Plan execution.** Graph, analyst and indexer tasks as a step system in which any call may be
  skipped, fail or time out, with an event between two of the tasks; the calls follow from what was
  found (`ToolPlans`, `CallFanout`, `PlanExecutor`).
- **Evidence.** Merging of rounds and the refinement loop (`EvidenceMerge`, `RefinementLoop`), and
  trimming of the evidence tree to the prompt budget (`JsonTrees`, `PromptBudget`, `PromptStall`,
  `PromptProgress`, `PromptSizes`).
- **Index jobs.** The gateway's polling loop composed with the indexer's lock (`IndexJobs`).
- **Conversation memory.** The rolling summary over two tables, refining a conversation with a folded
  prefix (`Conversations`, `ConversationMemory`).

Code that changes state in place is modelled by methods and classes proved against functions; the
theorems are lemmas about those functions and about runs of steps.

## Where the code and its documentation differ

- `resolve_relative_module` promises an empty answer above the repository root; the code returns the
  text after the dots. `RelativeImports` states exactly when the promise holds.
- The parser keeps one alias for a whole `from` statement, and the indexer reads `from x import x` as
  `import x`. A statement binds its names as written exactly when it is not of that form, and its
  items all say the same or none is renamed (`FromImports.BindsAsWrittenExactly`).
- The default order of trimming does not bring a prompt within budget by clipping a long snippet. A
  clip takes the excess and adds a suffix of 16 characters, whose newline counts twice in the dumped
  JSON: whatever the prompt was over before, it is four tokens over afterwards, or five. With a long
  snippet left the loop then stops or gets to cutting lists within three more turns or never, and
  `PromptProgress.GetsThroughExactly` says when; the prompt as it is measured is an instance
  (`PromptSizes.PromptGetsThroughExactly`). Where characters of a snippet are escaped in the dump a
  clip may take more than it was asked to, and `PromptStall.ClipFitsExactly` says when that is enough.
- With no recent turns to keep, summarising folds nothing, because the slice up to `-0` is empty
  (`Conversations`).
- A failed baseline poll of an idle indexer that has a report, or a first pass that ends without a
  report, lets an old report pass for a new one; nothing else does
  (`IndexJobs.FreshExactlyWhenTheBaselineHolds`).
- An incremental pass keeps the nodes and import edges of a full pass but not its CALLS and
  INHERITS_FROM edges: one from a skipped file into a re-indexed one is deleted and written again only
  if a re-indexed file gives it too (`EdgeLoss.LostEdges`).
- A call that ignores its timeout is abandoned a grace period later, which comes out of the reserve
  kept for synthesis; `RequestBudgets.ReserveSurvivesExactly` says when the reserve is there all the
  same.

## Model

| member | source | states |
|---|---|---|
| `DottedNames.ParentIsNextPrefix` | core/src/core/indexing/indexer.py:1230-1236 | cutting a name at its last dot steps to the next shorter dotted prefix, so a loop of such cuts visits every one |
| `DottedNames.ParentDropsAComponent` | core/src/core/indexing/indexer.py:1122-1127 | cutting the text of a component list at its last dot drops its last component |
| `RelativeImports.ResolveRelativeModule` | core/src/core/indexing/indexer.py:1106-1130 | the string loop computes the resolver's answer for every text, level and module kind |
| `RelativeImports.ResolvesByTheLanguageRule` | core/src/core/indexing/indexer.py:1106-1130 | for all levels, well-formed names, packages and plain modules the answer is the module PEP 328 names while one exists, and the bare text after the dots once the base is used up |
| `RelativeImports.EmptyAboveRootExactlyForBareDots` | core/src/core/indexing/indexer.py:1119-1129 | the promised empty answer above the root is given exactly when nothing follows the dots |
| `RelativeImports.AboveRootIsNotAlwaysEmpty` | core/src/core/indexing/indexer.py:1128-1129 | the import `..x` inside the plain module `a.b` resolves to `x` |
| `ImportBindings.EarliestOfferWins` | core/src/core/indexing/indexer.py:1155-1193 | of all bindings a file's imports offer under one local name the first is kept, and nothing is bound that none offered |
| `ImportBindings.BindingsFromImports` | core/src/core/indexing/indexer.py:1155-1193 | the loop over statements and names leaves exactly the first offer for each local name |
| `ImportBindings.EveryListedNameIsBound` | core/src/core/indexing/indexer.py:1155-1193 | for every parsed statement: it binds the target of every name it lists exactly when it carries no alias or lists one name over and over, and is not taken for a plain `import` |
| `FromImports.CollectFrom` | core/src/core/indexing/parser.py:564-582 | the record of a `from` statement: its dotted source, its names in order, and the alias of a single item or the only one given |
| `FromImports.PlainExactlyForNamesakes` | core/src/core/indexing/indexer.py:1181 | the record of a `from` statement is taken for a plain `import` exactly for `from x import x` |
| `FromImports.BindsAsWrittenExactly` | core/src/core/indexing/parser.py:564-582 | for every grammatical `from` statement: parsed and bound, each local name has its own target exactly when it is not `from x import x`, and all items say the same or none is renamed |
| `FromImports.NamesakeBindsTheModule` | core/src/core/indexing/indexer.py:1181-1185 | `from x import x`, such as `from datetime import datetime`, binds `x` to the module `x` |
| `FromImports.OneAliasHidesTheOtherName` | core/src/core/indexing/parser.py:573-577 | `from m import a as x, b` binds `x` and not `b` |
| `FromImports.TwoAliasesAreDropped` | core/src/core/indexing/parser.py:573-579 | `from m import a as x, b as y` binds `a` and `b` and neither alias |
| `ImportBindings.LoadModuleBindings` | core/src/core/indexing/indexer.py:1196-1227 | the table rebuilt from Import nodes has an entry for exactly the named modules with rows, each computed from its own rows in order |
| `ImportBindings.ReloadedBindingsAreTheParsedOnes` | core/src/core/indexing/indexer.py:747-758 | bindings rebuilt from the stored rows of a file equal those computed from its parse |
| `RewriteOrbits.FirstHitIsFirst` | core/src/core/indexing/indexer.py:1255-1284 | a bounded search of an orbit returns its first hit, or nothing when the bound is reached without one |
| `RewriteOrbits.RepetitionIsHopeless` | core/src/core/indexing/indexer.py:1268-1284 | once an orbit repeats without a hit it never hits, so the `visited` exit loses nothing |
| `NameResolution.OwningModule` | core/src/core/indexing/indexer.py:1230-1236 | the loop returns the nearest dotted prefix, the name itself included, that is a module |
| `NameResolution.EnclosingClass` | core/src/core/indexing/indexer.py:1245-1252 | the loop returns the nearest proper dotted prefix that is a class |
| `NameResolution.OwnerIsTheLongestPrefix` | core/src/core/indexing/indexer.py:1230-1252 | both lookups return the longest dotted prefix in the set |
| `NameResolution.FollowReexports` | core/src/core/indexing/indexer.py:1255-1284 | the loop with its `visited` set and hop bound answers as the search of the rewrite orbit without them |
| `NameResolution.FollowFindsTheFirstIndexed` | core/src/core/indexing/indexer.py:1255-1284 | the answer is `v` exactly when `v` is the first indexed name among the first five elements of the rewrite orbit |
| `HopBound.RewritingCanGrowForever` | core/src/core/indexing/indexer.py:1242-1284 | a rewritten name can grow forever without repeating, so the bound is needed |
| `HopBound.FifthHopIsNotTaken` | core/src/core/indexing/indexer.py:1242-1284 | a name indexed five hops away is not found |
| `NameResolution.FirstIndexed` | core/src/core/indexing/indexer.py:1287-1301 | the loop over candidates, repeated ones skipped, returns the first that leads anywhere |
| `NameResolution.ResolveName` | core/src/core/indexing/indexer.py:1304-1383 | the branches and loops compute the resolution function for every table and reference |
| `NameResolution.ResolutionIsSound` | core/src/core/indexing/indexer.py:1304-1383 | a result is indexed; it is reached from the nearest class's attribute for a one-segment `self.`/`cls.` reference, otherwise from the first spelling that reaches anything, or it is the unique visible bare-name match of a name without a dot |
| `ResolutionOrder.ResolutionIgnoresTableOrder` | core/src/core/indexing/indexer.py:1094-1103 | resolution does not depend on the order in which names entered the tables |
| `GraphStore.Store.Delete` | core/src/core/graph/upserts.py:569-587 | the batch delete removes every node owned by the paths and every edge at such a node, and nothing else |
| `GraphStore.Store.Merge` | core/src/core/graph/upserts.py:182-282 | MERGE row by row: insert, or overwrite by key |
| `GraphStore.Store.Link` | core/src/core/graph/upserts.py:503-544 | an edge is there afterwards exactly when it was there or is a row with both its ends present; no node changes |
| `GraphStore.LastRowWins` | core/src/core/graph/upserts.py:182-282 | after a merge a key holds what its last row wrote, or what it held before |
| `ParsedFiles.BatchesNode` | core/src/core/indexing/indexer.py:719-731 | writing label by label leaves at each key what writing file by file would |
| `IndexPass.PassKeepsConsistency` | core/src/core/indexing/indexer.py:343-391 | a pass in either mode leaves each file's nodes and import edges exactly those of the content it settles on, the same contents in both modes |
| `IndexPass.IncrementalEqualsFull` | core/src/core/indexing/indexer.py:343-391 | from any consistent graph an incremental and a full pass leave the same File and entity nodes and import edges, whatever the walk order |
| `PassAgreement.ModesAgreeExactlyWhenKeysAreDistinct` | core/src/core/indexing/indexer.py:343-391 | from a consistent graph the incremental and the full pass leave the same nodes for every pair of walk orders if and only if no two files that parse contribute the same key |
| `IndexPass.ConsistentExactlyWhenKeysAreDistinct` | core/src/core/indexing/indexer.py:343-391 | the graph after a pass is consistent with some contents if and only if no two settled files contribute the same key |
| `IndexPass.SecondPassIndexesNothing` | core/src/core/indexing/indexer.py:343-391 | without parse errors a second incremental pass skips every file and changes nothing |
| `IndexPass.MovedFileKeepsItsEntities` | core/src/core/indexing/indexer.py:373-391 | purge and delete come before upsert, so a moved file's entities end up under its new path and nothing is left under the old |
| `NameIndexes.FillIndex` | core/src/core/indexing/indexer.py:1094-1103 | the index lists exactly the given names, each once under its short name |
| `ImportListings.ListingGivesStoredRows` | core/src/core/indexing/indexer.py:103-109 | on a consistent graph any result of the import query holds each file's import rows in source order |
| `EdgeRows.FittedTablesAreTheSame` | core/src/core/indexing/indexer.py:672-758 | tables filled from any batch and the graph are the same up to order |
| `EdgeRows.EmittedRowsDoNotDependOnTheMode` | core/src/core/indexing/indexer.py:747-888 | for every file the CALLS and INHERITS_FROM rows emitted with an incremental pass's tables equal those emitted with a full pass's |
| `EdgeRows.EdgeSurvivesExactlyBetweenUntouchedFiles` | core/src/core/graph/upserts.py:578-586 | an edge between entities outlives a pass's deletes exactly when the files of both its ends are left alone |
| `Indexer.BuildTables` | core/src/core/indexing/indexer.py:672-758 | the tables filled from batch and graph fit every file of a consistent graph |
| `Indexer.BuildReexports` | core/src/core/indexing/indexer.py:747-758 | the re-export table read back from the graph and overridden by the batch answers for each module as its own imports do |
| `Indexer.EmitCalls` | core/src/core/indexing/indexer.py:861-888 | one row per resolved call in order, and rows plus unresolved make up the file's calls |
| `Indexer.EmitInherits` | core/src/core/indexing/indexer.py:803-827 | one row per base that resolves to another class, in order |
| `Indexer.UpsertParsedFiles` | core/src/core/indexing/indexer.py:719-888 | writes the batch's nodes and import edges, then exactly the rows its tables resolve, and counts the unresolved calls |
| `Indexer.ScanTree` | core/src/core/indexing/indexer.py:352-374 | the walk sorts files into skipped, failed and re-indexed by comparing stored hashes |
| `Indexer.IndexRepository` | core/src/core/indexing/indexer.py:343-419 | the whole pass: the structural pass followed by its resolved edges; consistency kept, tables fitting, seen = skipped + indexed + parse errors, and the purge count |
| `EdgeLoss.BatchEmitsExactly` | core/src/core/indexing/indexer.py:803-888 | the batch's rows give an edge exactly when some re-indexed file's references give it |
| `EdgeLoss.EdgesAfterPass` | core/src/core/indexing/indexer.py:343-419 | after a pass a CALLS or INHERITS_FROM edge is there exactly when it survived the deletes, or a re-indexed file gives it and both its ends are there |
| `EdgeLoss.PassLeavesNoDangling` | core/src/core/indexing/indexer.py:343-419 | no pass leaves an edge without its ends |
| `EdgeLoss.WhatTheIncrementalPassLoses` | core/src/core/indexing/indexer.py:343-419 | for every edge: it is in the full pass's final graph and not in the incremental one's exactly when only skipped files give it and it did not survive; and the other way round exactly when it survived, a full pass would have taken it, and no file gives it |
| `EdgeLoss.LostEdges` | core/src/core/indexing/indexer.py:343-419 | of the edges a graph has and a full pass keeps, an incremental pass loses exactly those with an end whose file is gone or re-indexed and that no re-indexed file gives |
| `IndexVersion.ComputeIndexVersion` | core/src/core/indexing/indexer.py:1397-1412 | the loop feeds the digest the sorted serialisation of the dict |
| `IndexVersion.SortedListingIsUnique` | core/src/core/indexing/indexer.py:1407 | a listing sorted by path is determined by its members |
| `IndexVersion.ParsedIsTheInverse` | core/src/core/indexing/indexer.py:1407-1411 | a decoder of records gives back the items that were fed |
| `IndexVersion.OrderDoesNotMatter` | core/src/core/indexing/indexer.py:1397-1412 | the fed text does not depend on insertion order |
| `IndexVersion.VersionTextIsCanonical` | core/src/core/indexing/indexer.py:1397-1412 | with NUL-free paths and newline-free hashes two dicts feed the same text exactly when they are equal |
| `IndexVersion.SeparatorsMustNotOccurInside` | core/src/core/indexing/indexer.py:1408-1411 | dropping either condition, two different dicts feed the same text |
| `Definitions.EveryDefinitionIsFoundOnce` | core/src/core/indexing/parser.py:632-712 | the walk finds every function and class at every depth and through every scopeless block exactly once, with the definitions around it, and nothing else |
| `Definitions.FoundIsPlaced` | core/src/core/indexing/parser.py:654-712 | whatever the walk finds stands at its address in its scopes |
| `Definitions.PlacedIsFound` | core/src/core/indexing/parser.py:654-712 | every definition with an address is found |
| `DefinitionCollector.Collector.Collect` | core/src/core/indexing/parser.py:632-712 | the recursive walk appends to the four lists exactly the records of what it finds, after what they held |
| `DefinitionCollector.Collector.CollectBlock` | core/src/core/indexing/parser.py:614-629 | a scopeless block's bodies are walked in the same namespace, list after list |
| `DefinitionCollector.CollectModule` | core/src/core/indexing/parser.py:480-495 | a module's lists are the records of its whole walk |
| `CallAttribution.RecordsAreNamedByTheirScopes` | core/src/core/indexing/parser.py:925-926 | a definition's qualified name is the dotted join of its scope path and name, its parent the scope path |
| `CallAttribution.ListsHoldTheirRoles` | core/src/core/indexing/parser.py:655-690 | classes, functions and methods partition what is found: a callable is a method exactly when the nearest scope is a class |
| `CallCollection.CalleeName` | core/src/core/indexing/parser.py:864-885 | the loop down an attribute chain returns its dotted name exactly when the chain is rooted in a name |
| `CallCollection.CallCollector.VisitExpr` | core/src/core/indexing/parser.py:851-861 | every name-rooted call in an expression is recorded, outer calls first |
| `CallCollection.CallCollector.VisitStmt` | core/src/core/indexing/parser.py:811-849 | nested definitions are passed over whole; everything else in a statement is visited in order |
| `CallCollection.CollectCalls` | core/src/core/indexing/parser.py:804-808 | a callable's calls are those of its body |
| `CallAttribution.BlockCallsSplit` | core/src/core/indexing/parser.py:614-629 | a block's calls are its own and those of its statement lists, whatever the order of the visit |
| `CallAttribution.CallsGoToTheInnermostCallable` | core/src/core/indexing/parser.py:655-664 | what is recorded over a module equals, call for call, what a single walk carrying the innermost callable attributes |
| `CallAttribution.CallsAreConserved` | core/src/core/indexing/parser.py:811-862 | recorded calls and calls outside any callable's body or in headers make up all name-rooted calls of the module, none counted twice |
| `RateLimiter.SlidingWindowRateLimiter.Allow` | core/src/core/gateway.py:881-902 | one call: the key's deque pruned, the answer, the new deque, every other key untouched |
| `RateLimiter.KeysAreIndependent` | core/src/core/gateway.py:893-902 | a key's deque depends on that key's arrivals alone in any interleaving |
| `WindowHistory.AllowCountsTheWholeHistory` | core/src/core/gateway.py:891-902 | a request is granted exactly when fewer than the cap of all past admissions lie in (now - window, now] |
| `WindowHistory.AllowInAnyInterleaving` | core/src/core/gateway.py:891-902 | the same for a run that interleaves many keys |
| `WindowHistory.DequeStaysBounded` | core/src/core/gateway.py:894-901 | each deque stays sorted and no longer than the cap |
| `WindowHistory.NoWindowOverflows` | core/src/core/gateway.py:873-902 | no window, wherever placed, ever holds more admissions than the cap |
| `WindowOptimality.GreedyStaysAhead` | core/src/core/gateway.py:891-902 | in every prefix at least as many requests are admitted as by any policy that respects the window bound |
| `WindowOptimality.JthAdmissionIsNeverLater` | core/src/core/gateway.py:891-902 | the j-th admission is never later than the other policy's |
| `TokenLedgers.TokenLedger.Record` | core/src/core/observability/ledger.py:79-120 | one charge added to the request's counts, unrounded cost and both buckets; other requests untouched |
| `TokenLedgers.TokenLedger.Snapshot` | core/src/core/observability/ledger.py:155-167 | the totals of the open entry, or zeroes |
| `TokenLedgers.TokenLedger.Close` | core/src/core/observability/ledger.py:169-180 | the totals, and the entry removed |
| `TokenLedgers.BreakdownsAddUp` | core/src/core/observability/ledger.py:98-119 | over any charges both breakdowns add up to the entry: counts exactly, costs within calls x 5e-9 |
| `TokenLedgers.SnapshotAddsUp` | core/src/core/observability/ledger.py:182-193 | the same for what a snapshot reports, with one more rounding |
| `TokenLedgers.EntryIsTheSumOfItsCharges` | core/src/core/observability/ledger.py:91-97 | an entry's counts and unrounded cost are the sums over its charges |
| `TokenLedgers.PurposeBucketsHoldTheirCharges` | core/src/core/observability/ledger.py:98-107 | a purpose has a bucket exactly when some charge had that purpose, and it counts exactly those |
| `TokenLedgers.ModelBucketsHoldTheirCharges` | core/src/core/observability/ledger.py:108-116 | the same for models |
| `TokenLedgers.RequestsAreIndependent` | core/src/core/observability/ledger.py:71-180 | however requests interleave, each entry is that of its own charges since it was last opened or closed |
| `TokenLedgers.TotalsNeverShrink` | core/src/core/observability/ledger.py:91-97 | with non-negative usage the totals a budget reads never go down |
| `TokenLedgers.CachingSavesTheRateDifference` | core/src/core/llm/pricing.py:158-186 | every prompt token is billed once; caching saves exactly the difference of the two rates |
| `TokenLedgers.CostIsNonNegative` | core/src/core/llm/pricing.py:158-186 | non-negative rates and completion give a non-negative cost |
| `RequestBudgets.ScaledReserve` | core/src/core/orchestration/budget.py:23-43 | the scaled reserve is never below the floor or zero, and is the floor up to a typical prompt |
| `RequestBudgets.SynthesisEndsBeforeTheMargin` | core/src/core/orchestration/budget.py:180-214 | synthesis ends the safety margin before the deadline, is skipped exactly when that leaves nothing, and gets all that is left unless the cap is less |
| `RequestBudgets.RequestBudget.Check` | core/src/core/orchestration/budget.py:216-251 | the sticky answer, or the first ceiling found afresh |
| `RequestBudgets.RequestBudget.ApplyPromptReserve` | core/src/core/orchestration/budget.py:157-178 | the reserve follows the prompt and never falls below a positive floor |
| `RequestBudgets.RequestBudget.AllowNewCall` | core/src/core/orchestration/budget.py:253-273 | allowed exactly when no ceiling is tripped and specialists have time left |
| `RequestBudgets.FlagIsNeverStale` | core/src/core/orchestration/budget.py:232-251 | over any run of charges, waits and checks a raised flag names a ceiling a fresh look still finds tripped |
| `RequestBudgets.CheckIsAsGoodAsRecomputing` | core/src/core/orchestration/budget.py:216-251 | a check answers none exactly when no ceiling is tripped at that moment |
| `RequestBudgets.ReopeningLeavesTheFlag` | core/src/core/observability/ledger.py:71-77 | after reopening a request with any flag, limits and clock, a check keeps the flag, and the flag names a tripped ceiling exactly when there is none, the deadline is over, or the ceiling on tokens or cost is not positive |
| `RequestBudgets.PlanNeverStarvesSynthesis` | core/src/core/orchestration/executor.py:547-566 | over any number of rounds and any interleaving of calls, planning leaves synthesis at least min(maximum, base reserve - margin - grace) |
| `RequestBudgets.SynthesisGetsItsMeasuredTime` | core/src/core/settings.py:582-623 | with validated settings and calls that return in time synthesis gets at least min(maximum, measured p95) |
| `RequestBudgets.StuckCallTakesTheGrace` | core/src/core/resilience/retry.py:106-109 | the bound is reached: one call that never answers costs synthesis the whole cancellation grace |
| `RequestBudgets.ReserveSurvivesExactly` | core/src/core/orchestration/budget.py:180-214 | every run of the plan leaves synthesis min(maximum, base reserve - margin) if and only if there is no grace, or the reserve is no more than the margin, or the maximum is zero or at most base reserve - margin - grace |
| `ToolPlans.EarlyStartIsForPatternsOnly` | core/src/core/orchestration/executor.py:281-308 | the analyst may start early exactly when its whole tool plan is the pattern search |
| `ToolPlans.NoGraphWorkWhenEarly` | core/src/core/orchestration/executor.py:421-434 | and then the graph task has no tool to run |
| `CallFanout.SelectCandidates` | core/src/core/orchestration/executor.py:363-393 | the loop over the ranked hits takes hits with an identity not taken before, up to the limit |
| `CallFanout.SelectedIsSelection` | core/src/core/orchestration/executor.py:383-393 | no identity is selected twice, never more than the limit, and below the limit every identity of the pool is selected |
| `CallFanout.ExpandRelations` | core/src/core/orchestration/executor.py:652-724 | the loop over names issues the relationship calls of the specification |
| `CallFanout.RelationCallsExactly` | core/src/core/orchestration/executor.py:668-724 | a relationship call is made exactly for each tool of the plan and each resolved name that is not empty |
| `CallFanout.NoRelationCallTwice` | core/src/core/orchestration/executor.py:668-672 | and no such call is made twice |
| `CallFanout.Analyse` | core/src/core/orchestration/executor.py:922-1043 | the loops over hits issue the analysis calls of the specification, tool by tool |
| `CallFanout.ClassOrFunction` | core/src/core/orchestration/executor.py:937-967 | a hit is analysed as a class or as a function, never both |
| `PlanExecutor.RunsAreBounded` | core/src/core/orchestration/executor.py:1160-1171 | every run ends: it takes at most 2t + 8 max(l, t) + 6 max(l, t, e) + 12 steps for t search terms, e entities and the candidate limit l, whatever was found |
| `PlanExecutor.NoDeadlock` | core/src/core/orchestration/executor.py:1146-1171 | in every reachable state that is not the end some task can go on, whatever calls failed, timed out or were skipped |
| `PlanExecutor.EveryAgentEndsWithAStatus` | core/src/core/orchestration/executor.py:523-525 | at the end every planned agent with a task has a status of its own |
| `PlanExecutor.EveryStatusIsHonest` | core/src/core/orchestration/executor.py:746-800 | the graph task is degraded exactly when it had no tools or a lookup failed, the analyst exactly when it had no tools or no call of its came back, the indexer exactly when its call failed |
| `PlanExecutor.AnalystReadsAfterTheLastWrite` | core/src/core/orchestration/executor.py:642-645 | what the analyst read is what stands at every later point: the graph task never writes it again |
| `PlanExecutor.CoordinatesAreWhatWasFound` | core/src/core/orchestration/executor.py:624-645 | the coordinates are what the lookups found, written at most once in a run |
| `PlanExecutor.EveryIssuedCallIsRecorded` | core/src/core/orchestration/executor.py:541-566 | every call that went out is on record for its agent, abandoned ones included |
| `PlanExecutor.NothingIsWrittenUnderAnEarlyStart` | core/src/core/orchestration/executor.py:1153-1156 | when the analyst need not wait the graph task writes no coordinates in the whole run |
| `PlanExecutor.OnlyPlannedToolsAreRecorded` | core/src/core/orchestration/executor.py:541-548 | only tools of an agent's plan are recorded for it, abandoned calls included |
| `PlanExecutor.PrefixTellsTheAgent` | core/src/core/orchestration/executor.py:527-528 | an entry of the record starts with an agent's prefix exactly when it is that agent's |
| `PlanExecutor.ToolsUnder` | core/src/core/orchestration/executor.py:1190-1192 | filtering by prefix gives exactly the agent's own calls, in order |
| `PlanExecutor.RecordIsSplitExactly` | core/src/core/orchestration/executor.py:1190-1192 | every call is in its own agent's list as often as it is on record and in no other's |
| `JsonTrees.GetAfterPut` | core/src/core/orchestration/prompt_budget.py:297-301 | a write is read back |
| `JsonTrees.PutWhatIsThere` | core/src/core/orchestration/prompt_budget.py:297-301 | writing what is there changes nothing |
| `JsonTrees.PutTwice` | core/src/core/orchestration/prompt_budget.py:297-301 | the later of two writes at one path stands |
| `JsonTrees.PutElsewhere` | core/src/core/orchestration/prompt_budget.py:297-301 | a write leaves every path that neither extends it nor is extended by it |
| `JsonTrees.VisitsAreReads` | core/src/core/orchestration/prompt_budget.py:284-294 | whatever the walk visits is what a read along its path finds |
| `JsonTrees.ReadsAreVisited` | core/src/core/orchestration/prompt_budget.py:284-294 | the walk visits everything a read can reach |
| `JsonTrees.WeightAfterPut` | core/src/core/orchestration/prompt_budget.py:297-301 | a write changes the tree's weight by what it puts in for what it takes out |
| `PromptBudget.FindLongest` | core/src/core/orchestration/prompt_budget.py:316-325 | the loop over the walk returns the first of the longest candidates above the floor |
| `PromptBudget.LongestIsTheFirstMaximum` | core/src/core/orchestration/prompt_budget.py:316-325 | which is a maximum, and the first, or there is none above the floor |
| `PromptBudget.NoCandidateExactlyWhenNothingIsLong` | core/src/core/orchestration/prompt_budget.py:345-357 | a round finds nothing exactly when no reachable snippet or list is above its floor |
| `PromptBudget.Working.TrimLongest` | core/src/core/orchestration/prompt_budget.py:311-368 | one round: the candidate clipped or cut in place, and one entry added to the record |
| `PromptBudget.Working.TrimOnce` | core/src/core/orchestration/prompt_budget.py:243-252 | one turn trims the first kind that has a candidate, in the given order |
| `PromptBudget.ApplyPromptBudget` | core/src/core/orchestration/prompt_budget.py:203-261 | for any measure the loop returns the state after the turns it describes, and a record exactly when something was dropped |
| `PromptBudget.WhyItStops` | core/src/core/orchestration/prompt_budget.py:238-252 | on exit the prompt fits, every turn dropped something, or nothing trimmable is left |
| `PromptBudget.ResultIsTrimmedFromInput` | core/src/core/orchestration/prompt_budget.py:203-261 | the result has the input's keys, lists cut to non-empty prefixes, and strings changed only where long and under a snippet key |
| `PromptBudget.DropSaysWhatHappened` | core/src/core/orchestration/prompt_budget.py:327-368 | a round's record gives the sizes before and after: a list keeps half its items, a snippet loses the excess and gains the suffix, or goes |
| `PromptBudget.ListRoundShrinks` | core/src/core/orchestration/prompt_budget.py:345-368 | every list round makes the tree strictly smaller |
| `PromptBudget.SnippetRoundShrinksExactly` | core/src/core/orchestration/prompt_budget.py:329-333 | a snippet round makes the tree smaller exactly when more than 16 characters are too many |
| `PromptBudget.SnippetRoundIsNoChangeExactly` | core/src/core/orchestration/prompt_budget.py:329-333 | it changes nothing exactly when 16 characters are too many and the longest snippet already ends with the suffix |
| `PromptBudget.FourTokensOverIsStuck` | core/src/core/orchestration/prompt_budget.py:238-252 | for any measure at all, four tokens over budget and clipped before, a snippets-first loop never trims again |
| `PromptBudget.StuckWithAListToCut` | core/src/core/orchestration/prompt_budget.py:243-252 | such a payload exists with a list that could still be cut |
| `PromptStall.ClipFitsExactly` | core/src/core/orchestration/prompt_budget.py:235-333 | for every measure that adds up over characters: a clip that keeps something brings the prompt within budget exactly when the cut part costs more than its length by what the suffix costs, less the characters the token count was rounded up by |
| `PromptStall.ClipLeavesFourOver` | core/src/core/orchestration/prompt_budget.py:235-333 | where only a newline may cost two, such a clip leaves the prompt four tokens over whatever the overage was, or five |
| `PromptStall.NoClipFitsTheBudget` | core/src/core/orchestration/prompt_budget.py:235-252 | over every snippets-first run from plain snippets the prompt is four or five tokens over whenever a clip was the last thing done: no clip makes it fit |
| `PromptProgress.SameLengthStaysLongest` | core/src/core/orchestration/prompt_budget.py:316-333 | a string as long as the longest snippet, put in its place, is the one chosen next |
| `PromptProgress.JamIsForGood` | core/src/core/orchestration/prompt_budget.py:235-252 | for every measure in which only a newline may cost two: four tokens over with a long snippet left, and not about to go to five over, the loop clips snippets for good; it never fits and never cuts a list |
| `PromptProgress.ThreeTurnsOrNever` | core/src/core/orchestration/prompt_budget.py:235-252 | after a clip that keeps something the loop stops or gets to cutting lists within three turns or never: within three exactly when no long snippet is left, or only one at most four characters too long while the prompt is five over, or will be once that one is clipped |
| `PromptProgress.GetsThroughExactly` | core/src/core/orchestration/prompt_budget.py:235-252 | for every payload with plain snippets, every budget and every such measure, the loop stops or gets to cutting lists exactly when the prompt fits, or no long snippet is there, or the longest goes whole and the rest gets through, or its clip lets the loop through as above |
| `PromptProgress.LongSnippetNeverFits` | core/src/core/orchestration/prompt_budget.py:235-252 | for every number of turns: a snippet longer than the excess by more than 64 characters, 68 where a newline costs two, is never got through; no list is cut and the prompt stays four or five tokens over |
| `PromptSizes.PromptSizeIsAdditive` | core/src/core/orchestration/prompt_budget.py:50-59 | the length of the dumped prompt adds up over the characters of its strings, the newline of the suffix counting twice |
| `PromptSizes.NoClipFitsThePrompt` | core/src/core/orchestration/prompt_budget.py:130-147 | so for the prompt as it is measured, and snippets that need no escapes, no clip makes it fit |
| `PromptSizes.PromptGetsThroughExactly` | core/src/core/orchestration/prompt_budget.py:203-252 | the exact condition of getting through, for the prompt as it is measured and snippets that need no escapes |
| `PromptSizes.LongSnippetSpoilsThePrompt` | core/src/core/orchestration/prompt_budget.py:203-261 | for that prompt, with a snippet longer than the excess by more than 68 characters all 64 rounds go into snippets, no list is cut, and the prompt ends four or five tokens over its budget |
| `EvidenceMerge.MergeAgentOutputs` | core/src/core/orchestration/evidence.py:305-325 | the loop merges agent by agent |
| `EvidenceMerge.MergeAgent` | core/src/core/orchestration/evidence.py:328-354 | one agent's merge, branch by branch |
| `EvidenceMerge.UnionIsOrdered` | core/src/core/orchestration/evidence.py:329-332 | the tools are an order-keeping union with no new repeats |
| `EvidenceMerge.MergeOneIsAssociativeExactly` | core/src/core/orchestration/evidence.py:328-354 | merging rounds of one agent is associative exactly when no key of three successful outputs goes from a non-empty list to something else and back to a list |
| `EvidenceMerge.MergeIsAssociativeExactly` | core/src/core/orchestration/evidence.py:305-325 | the same for whole rounds |
| `EvidenceMerge.OkIsTheDisjunction` | core/src/core/orchestration/evidence.py:333-354 | an agent is ok after a merge exactly when it was in either round |
| `RefinementLoop.RunRefinementLoop` | core/src/core/orchestration/loop.py:60-156 | at most the configured number of rounds run, all allowed to start, the next one not; the outputs are merged in order |
| `RefinementLoop.OnceOkStaysOk` | core/src/core/orchestration/loop.py:113-117 | an agent ok after some round is ok after every later one |
| `RefinementLoop.ListEvidenceSurvives` | core/src/core/orchestration/evidence.py:338-345 | list evidence from every round in which the agent succeeded survives, in order |
| `RefinementLoop.GraphHitsAreNeverLost` | core/src/core/orchestration/evidence.py:383-406 | graph hits found in a round that succeeded are found after every later merge |
| `IndexJobs.PassesNeverOverlap` | agents/indexer/src/indexer/__main__.py:65-109 | whoever asks and however passes end, at most one pass is under way, the newest, and only under the lock |
| `IndexJobs.FollowIndexJob` | gateway/src/gateway/app.py:622-677 | over any turns of which some decides, the loop ends at the first that does, with its decision |
| `IndexJobs.PacedTurnsDecide` | gateway/src/gateway/app.py:669-677 | polls a positive interval apart pass any deadline, and then some turn decides |
| `IndexJobs.PollsAreBounded` | gateway/src/gateway/app.py:637-677 | the number of polls is bounded by timeout and interval, and by the start grace until the pass is seen running |
| `IndexJobs.WhyAJobFails` | gateway/src/gateway/app.py:655-676 | a job fails only after a broken dispatch and two unreachable polls, or when a clock ran out; never started means never seen running |
| `IndexJobs.PolledReportIsFresh` | gateway/src/gateway/app.py:663-666 | with a pass running at the baseline or a baseline that was read, and passes that end with reports, a polled report is that of the last pass, which finished after the baseline |
| `IndexJobs.FreshExactlyWhenTheBaselineHolds` | gateway/src/gateway/app.py:597-666 | for every run of the indexer: whatever the polls see, a polled report is that of a pass that finished after the baseline, if and only if a pass was running at the baseline or the baseline is the last report, and the first pass to end after it makes a report |
| `IndexJobs.FailedBaselineReturnsAnOldReport` | gateway/src/gateway/app.py:597-666 | in any run in which the baseline does not hold, a poll of the same idle state returns the last report though nothing has finished since |
| `IndexJobs.PassWithoutReportLetsTheOldOneThrough` | agents/indexer/src/indexer/__main__.py:80-109 | in any run, polls around the end of a first pass without a report return the report before it |
| `IndexJobs.PassWithoutReportReturnsTheOldOne` | agents/indexer/src/indexer/__main__.py:80-109 | such a run exists, with the baseline's own report let through |
| `IndexJobs.IndexJobRecord.Run` | gateway/src/gateway/app.py:578-619 | a pending job goes through running to exactly one of done and failed, with a report only when done and an error only when failed |
| `Conversations.FoldedTurnsAreTheCoveredPrefix` | core/src/core/memory/service.py:213-281 | over any run no turn is lost and the folded turns are a prefix and exactly those the summary covers |
| `Conversations.AppendSettles` | core/src/core/memory/service.py:142-176 | with at least one turn kept, after an append that did not fail the conversation fits the budget or at most that many turns are unfolded |
| `Conversations.SummarisingKeepsTheLast` | core/src/core/memory/service.py:232-235 | a summarisation that does not fail leaves exactly the last kept turns unfolded |
| `Conversations.KeepingNoneFoldsNothing` | core/src/core/memory/service.py:232-235 | with none kept nothing is ever folded |
| `Conversations.SettlingNeedsKeep` | core/src/core/memory/service.py:142-176 | for every conversation, budget and provider: an append settles exactly when no summary was needed, or one was made and something is kept, or the summary and all unfolded turns fit together |
| `ConversationMemory.MemoryService.AppendTurn` | core/src/core/memory/service.py:142-176 | the tables go to what the append means for the session, the turn stays even on failure, other sessions are untouched |
| `ConversationMemory.MemoryService.SummarizeSession` | core/src/core/memory/service.py:213-281 | folds all but the last kept turns, or nothing when the provider fails; other sessions are untouched |
| `ConversationMemory.MemoryService.CheckNeedsSummary` | core/src/core/memory/service.py:344-353 | true exactly when summary and unfolded turns exceed the budget and more turns than kept are unfolded |
| `ConversationMemory.MemoryService.GetContext` | core/src/core/memory/service.py:178-211 | the summary and, in order, the longest suffix of unfolded turns that fits beside it |
| `ConversationMemory.PickRecent` | core/src/core/memory/service.py:200-210 | newest first until one does not fit is the longest fitting suffix |

## Left out

- Containment, DEPENDS_ON and decorator edges, Decorator and Meta nodes, and embeddings: written the same way as the modelled batches.
- The MATCH guards of parameter, docstring and import rows: their owner is always written before them in the same pass.
- The one-file pass `index_file`: it is the same delete and upsert for a batch of one.
- The order and paging of graph reads beyond the position order of imports; Neo4j, Cypher text and retries.
- `_resolve_name` called with absent tables: the indexer always passes them. Its index maps each qualified name to itself and is modelled as a set.
- Hashing, UTF-8 and the parser of Python source: an injective function, strings for bytes, and a syntax tree.
- Where imports stand in a file, parameters, decorators, docstrings and spans of definitions: recorded from one node each.
- Symbolic links, the saved report on disk, task cancellation from outside and two summarisations of one session at once: excluded by hypothesis.
- Floating point: times and costs are real numbers.
- Settings are read again at every charge in the source; each recorded charge carries the settings it was made under.
- Regular expressions of routing and of relationship wording, entity extraction, evidence assessment and follow-up plans: their answers are inputs.
- PlanExecutor.AnalystReadsAfterTheLastWrite: a plan names each agent at most once, as its set of agents; with the graph agent listed twice there would be two writers.
- CallFanout.SelectCandidates: the pool is given in the order of its ranking; the sort key is not modelled.
- PromptBudget.ApplyPromptBudget: the tree is a value; that the deep copy shares nothing with the caller's payload, and aliases inside the payload, are not captured. It holds for any measure; `PromptSizes` has the one in use, with the text around the payload as a number of characters.
- PromptProgress.GetsThroughExactly: snippets whose characters cost one each in the dump; one with newlines, quotes or other escapes may lose more than the excess in a clip, which `PromptStall.ClipFitsExactly` covers for each single clip.
- `compact_neighbor_payloads` and the rendering of paths in the truncation record: paths are kept as they are.
- EvidenceMerge.MergeAgent: outputs hold JSON values; pydantic models inside outputs are taken as their dumped form.
- IndexJobs.FollowIndexJob: the polls and the clock are an input; the order of events inside one poll is not modelled.
- ConversationMemory.MemoryService.SummarizeSession: the provider is a function of the summary and the folded turns, its answer already stripped; SQL, timestamps and the response cache are not modelled.
- DefinitionCollector.Collector.Collect: recursion follows the tree; Python's recursion limit is not modelled.
- Circuit breakers, sessions, synthesis, streaming, authentication, evaluation and reporting.
