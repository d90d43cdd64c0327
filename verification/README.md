# Verification model of go-sqletch

go-sqletch checks a SQL template once and then composes exponentially many statements
("shapes") from it at run time: optional fragments switched by guard atoms, case blocks,
sort keys, lists and filter trees. This project models the parts that must carry one
verified form over to every shape, and proves that they do.

* **Composer, renderer and filter trees** (`FilterTree`, `ShapeKeys`, `Pieces`,
  `Composing`, `TreeBinds`, `Templates`, `Rendering`, `SourceMaps`, `Lowering`,
  `Conformance`, `Selections`). The compile-time renderer numbers placeholders by name, the
  runtime composer by bind source; both are shown to mean one emission, and the fragment
  lowering between them is part of the theorem.
* **The composed-statement cache as a concurrent protocol** (`CacheKeys`, `CacheState`,
  `Eviction`, `CacheProtocol`, `CacheSafety`, `CacheLedger`, `CacheTheorems`) and as an
  object (`CacheObject`). Threads take arbitrary turns at the granularity of single atomic
  reads, stores and critical sections; theorems quantify over all schedules.
* **Policy weaving and enforcement** (`SqlTokens`, `ClauseScanning`, `SqlGrammar`,
  `ClauseReading`, `ClauseTheorems`, `ClauseFaults`, `Weaving`, `Enforcing`, `Splicing`,
  `SplicedTokens`, `JoinScanning`, `JoinTrees`, `JoinGating`, `JoinLanding`,
  `JoinSearching`, `JoinTheorems`, `OnWeaving`, `OnEnforcing`, `SetOpScanning`,
  `SetOpTheorems`, `SetOpWeaving`, `SetOpEnforcing`). The token scans are proved against a precedence grammar
  with a three-valued evaluator, against join trees with the row semantics of section 7.5 of
  SQL-92, and against a grammar of set operations.
* **Whole-shape-space analyses** (`Nullability`, `PresenceMemo`, `NullSoundness`,
  `Resolution`) and the file-pattern walker (`PathWalks`, `PathTheorems`, `PathOrder`).

Loops that update variables in the source are methods with loop invariants, tied to a
function of their inputs; what the source promises is then proved about that function.
Objects whose methods update fields are classes.

## Where the code does not do what was expected of it

* **A filter tree with one predicate.** The renderer always prints an outer pair of
  parentheses (internal/ast/render.go:417-428), while `And` of a single supplied tree is that
  tree (runtime/tree.go:65-67). `Conformance` therefore asks for the maximal tree, which
  "all predicates" builds exactly from two predicates on (`CombineIsMaximal`); with one, the
  texts always differ by two bytes (`LonePredicateDiffers`).
* **Join gating.** An accepted ON does not always scope. `JoinGatingExact` gives the exact
  condition for every join tree; three families of statements are shown to leak
  (`CrossGroupLeaks`, `NestedOnLeaks`, `NaturalOuterLeaks`), and `OwnOnScopes` names the
  ordinary joins on which none does. Since neither a second ON nor a USING ends the scan of
  an ON, the text may also go behind something that is no condition (`UsingRunGarbles`,
  `KeywordRunGarbles`, `LooseRunWraps`).
* **A fresh cache entry may be its own victim**: exactly when every other entry is touched
  (`FreshSurvives`).
* **Hits on evicted entries.** A hit served from the snapshot after its entry was evicted is
  counted on an entry whose count was already folded; the hit ledger has a term for it
  (`HitsConserved`).

## What is assumed

* The lexer is any function that cuts text into contiguous tokens (`WellBehaved`), and the
  SQL parser supplies trees: FROM items, join trees, column references, WITH definitions.
* Templates: at most 64 distinct guard atoms, all known; parameter names known and at most
  32767; at most one filter tree; under dollar style no parameter name shared by two
  predicates; a non-empty text for the empty list on expanding dialects.
* Cache: query names stand for one fragment table each; keys carry tree encodings made by
  the runtime.
* Clauses: no BETWEEN ... AND and no `@in` inside the clause; no column spelled like an infix
  word; constructs only as whole top-level conjuncts, as structural rule R1 demands.
* Set operations: constructs that stand for an ORDER BY or GROUP BY are at statement level, never
  inside parentheses behind a core's FROM, as their documentation demands.
* Nullability: every item that a join of the maximal statement may null-extend is flagged as
  its nullable side, and switched-off joins only drop guarded relations.
* Resolution: relation names are distinct in the maximal rendering, and the catalog knows the
  columns of every relation that may answer to a bare name.

## Model

| member | source | states |
|---|---|---|
| Conformance.Conformance | runtime/runtime.go:404-532 | For every template and every shape (guard mask, ordinals, order sequences, list arity 0 or 1, empty or maximal tree), composing the lowered table gives byte for byte the renderer's SQL, and entry by entry the bind plan stands for the renderer's parameter sequence, in both placeholder styles; the lowered table is well formed |
| Conformance.CombineIsMaximal | runtime/tree.go:53-69 | The tree that "all predicates supplied" builds is the maximal tree exactly when there are at least two predicates |
| Conformance.LonePredicateDiffers | internal/ast/render.go:414-428 | With one predicate the two emitters disagree: the rendered item is always exactly two bytes longer than what the runtime composes for it |
| Pieces.RenamingKeepsText | runtime/runtime.go:316-337 | Two emissions whose placeholders stand for corresponding sources, one numbered by parameter name and one by bind source, have the same bytes and corresponding bind lists |
| Pieces.NumbersResolve | runtime/runtime.go:308-337 | Whatever number a placeholder carries, that entry of the finished bind plan is the source it was emitted for |
| Composing.ComposeTreeStyle | runtime/runtime.go:404-532 | The emission loop over the fragment table, with all its cursors, produces the composition function's text, bind plan or error |
| Composing.Composer.Place | runtime/runtime.go:316-337 | One placeholder is appended: a fresh number, or under dollar style the number its source already has |
| Composing.Composer.EmitFrom | runtime/runtime.go:339-347 | A case is emitted run by run with its placeholders, shifted by the tree argument base |
| Composing.Composer.EmitTree | runtime/runtime.go:354-378 | A validated tree is emitted in order, each leaf at its own argument base, which ends behind the leaf's arguments |
| Composing.Composer.EmitFrag | runtime/runtime.go:416-529 | One fragment advances text, binds and the ordinal, order and list cursors as the composition function says, or fails with its error |
| Rendering.RenderCore | internal/ast/render.go:297-441 | The renderer's loop over template items yields the rendering function's SQL, parameter sequence and segments, or its lexing error |
| Rendering.Renderer.Placeholder | internal/ast/render.go:458-470 | A name gets its number: by first occurrence under dollar style, a new one each time otherwise |
| Rendering.Renderer.EmitText | internal/ast/render.go:500-540 | A text is printed token by token, each `:name` replaced by a placeholder, with one segment per piece |
| Lowering.BuildFrags | internal/codegen/frags.go:20-118 | The loop over the items builds the lowered fragment table, index maps and guard masks included |
| Lowering.ParamSpans | internal/codegen/frags.go:120-138 | The spans and indices of exactly the known `:name` tokens up to the first lexing failure |
| SourceMaps.SourceMapExact | internal/ast/render.go:72-101 | In every rendering each offset of the SQL lies in exactly one segment, and unless it is synthesized its byte equals the template byte at the mapped offset |
| SourceMaps.RenderExact | internal/ast/render.go:472-540 | The segments of every rendering tile its SQL without gaps and tell the truth about every byte |
| SourceMaps.ToTemplate | internal/ast/render.go:83-101 | The binary search finds the covering segment and answers with its template offset |
| TreeBinds.TreePlaceholdersResolve | runtime/runtime.go:354-378 | The k-th placeholder of a validated tree, wherever the tree stands and in either style, carries a number whose bind entry is in range and resolves to the value its own leaf was given |
| TreeBinds.TreeBindsOwn | runtime/tree.go:259-296 | Every placeholder of every leaf indexes the flattened arguments inside that leaf's own slice |
| TreeBinds.EqualEncodingEqualStatement | runtime/tree.go:222-255 | Two accepted trees with equal encodings compose to the same statement and bind plan under every key, whatever their values |
| TreeBinds.ResolveArgs | runtime/runtime.go:214-231 | Every bind is resolved against the parameter values, the flattened tree arguments, or one element of a list |
| FilterTree.EncodingDecidesShape | runtime/tree.go:222-255 | Two supplied trees have the same encoding exactly when they have the same structure, values aside |
| FilterTree.CheckCapsWalk | runtime/tree.go:126-149 | The counting walk rejects a tree exactly when its node count, depth or argument count is over the limit |
| FilterTree.LeafArity | runtime/tree.go:202-210 | The loop finds the arity of a case |
| FilterTree.ArityBounds | runtime/tree.go:202-210 | The arity is the least argument count that admits every index of the case |
| ShapeKeys.KeyCanonicity | runtime/runtime.go:122-187 | Two keys whose trees are encodings have the same text exactly when they are the same key, nil and empty order sequences told apart |
| ShapeKeys.AppendTo | runtime/runtime.go:130-187 | The section-by-section loop writes exactly that text behind what was there |
| ShapeKeys.KeysEqual | runtime/runtime.go:1179-1201 | The field-by-field loops decide equality of keys |
| Selections.OrderSeq | runtime/runtime.go:617-637 | A sort-key slice is taken over unchanged exactly when every key is in range and none is selected twice; otherwise the error names the first value at fault |
| Selections.AcceptedComposes | runtime/runtime.go:424-452 | A sequence that was let through never makes the composition fail |
| Selections.ChooseOrdinal | runtime/runtime.go:589-608 | Enum values that name a case map one to one onto ordinals below the limit, 0 onto the default; every other value is an error |
| CacheTheorems.AnswersAreOwed | runtime/runtime.go:906-1067 | In every run of any number of threads, every finished access, whatever path it took, returns what composing its own style, query, key and tree gives |
| CacheTheorems.NeverCollides | runtime/runtime.go:1013-1048 | Under a request's lookup text the map never holds another key, so the drop-and-recompute branches are dead |
| CacheTheorems.WithinCapacity | runtime/runtime.go:1049-1062 | With the mutex free, map and snapshot hold at most `cap` entries each, at most 2*cap are retained, and the byte ceiling holds or one entry remains |
| CacheTheorems.Consistent | runtime/runtime.go:1049-1120 | At every moment list and map hold the same entries, byte totals are their sums, and inserts less evictions is their number |
| CacheTheorems.HolderProgress | runtime/runtime.go:1049-1120 | Each step of the mutex holder lowers a measure or unlocks, so the eviction loops end |
| CacheTheorems.WaitingKeepsFuel | runtime/runtime.go:1069-1078 | Steps of all other threads, touches included, leave that measure alone |
| CacheTheorems.SnapshotsAmortized | runtime/runtime.go:1124-1158 | Snapshots taken are at most 2*(cap + forced evictions + inserts/cap) + mutex hits/cap + 2*limit calls, in every run |
| CacheTheorems.FlushIsNear | runtime/runtime.go:987-1002 | Over histories: between two states of any run with no publish in between, fewer than `cap` mutex hits have been counted, whatever all threads do |
| CacheTheorems.HitsConserved | runtime/observe.go:95-112 | Every hit counted is in the folded or resident total, or was counted on an entry that had already left |
| CacheTheorems.StatsNeverDecrease | runtime/observe.go:95-112 | No statistics call reports fewer hits than the one before, although hits are counted while it walks the entries |
| CacheSafety.StepSafe | runtime/runtime.go:906-1067 | One step of one thread keeps the whole invariant, for that thread and for all others |
| CacheSafety.NoCollision | runtime/runtime.go:1013-1048 | Whatever the map holds under a request's text has that request's key |
| CacheProtocol.FoundServes | runtime/runtime.go:957-967 | An entry found under a request's text may be served: its key is the request's and its statement the one owed |
| CacheKeys.MapKeyInjective | runtime/runtime.go:934-949 | The lookup text identifies style, query name and key, for any query name |
| CacheKeys.SameTextSameAnswer | runtime/runtime.go:934-967 | Requests with the same lookup text are owed the same statement and bind plan even when their trees carry different values |
| CacheKeys.OwedIsComposed | runtime/runtime.go:872-890 | Composing the request a call turns into, after the cap check and validation, is what the call is owed |
| CacheKeys.CapsAreValidated | runtime/runtime.go:872-882 | The cap check in front of the encoding refuses nothing that validation would accept |
| CacheLedger.StepBooked | runtime/runtime.go:1124-1158 | Every step keeps the ledger that charges each publish to inserts, mutex hits, forced evictions or limit calls |
| CacheLedger.StepHits | runtime/observe.go:95-112 | Every step keeps the hit ledger, and a statistics walk in progress never falls behind the last report |
| Eviction.EvictOne | runtime/runtime.go:1098-1120 | Under any interleaved touches exactly one entry goes, within one examination more than there are entries |
| Eviction.SecondChance | runtime/runtime.go:1098-1120 | Without concurrent touches the victim is the back-most untouched entry, the ones behind it move to the front in order with their bits cleared; when all are touched the original back goes |
| Eviction.FreshSurvives | runtime/runtime.go:1049-1060 | A freshly inserted entry survives the eviction its insertion causes if and only if some other entry is untouched |
| CacheObject.ComposedCache.Touch | runtime/runtime.go:1074-1078 | Sets the entry's reference bit and changes nothing else |
| CacheObject.ComposedCache.Remove | runtime/runtime.go:1086-1093 | Takes one entry out of list, map and byte totals and folds its hits |
| CacheObject.ComposedCache.EvictOne | runtime/runtime.go:1098-1120 | The loop over the list's back equals the eviction function |
| CacheObject.ComposedCache.Publish | runtime/runtime.go:1124-1140 | Publishes exactly when a publish is due, and otherwise only counts |
| CacheObject.ComposedCache.PublishNow | runtime/runtime.go:1147-1158 | The snapshot becomes the map's current content and the counters start over |
| CacheObject.ComposedCache.SetMaxBytes | runtime/runtime.go:833-841 | Evicts from the back until the ceiling holds or one entry remains, and publishes |
| CacheObject.ComposedCache.Insert | runtime/runtime.go:1049-1054 | A new entry goes to the front of the list, into the map and into every counter |
| CacheObject.ComposedCache.LookFast | runtime/runtime.go:957-968 | The lock-free lookup answers only with an entry of the snapshot under that text and key |
| CacheObject.ComposedCache.LookLocked | runtime/runtime.go:970-1016 | The locked lookup serves a resident entry exactly when the map has the text, and accounts for the hit |
| CacheObject.ComposedCache.Miss | runtime/runtime.go:1032-1062 | An entry the map lacks is counted, inserted, and published after evictions have brought the bounds back |
| CacheObject.ComposedCache.Entry | runtime/runtime.go:906-1067 | One access keeps every invariant and returns the entry of its own request, or its composition error |
| CacheObject.ComposedCache.Stats | runtime/observe.go:95-112 | The walk over the entries adds up the total of all hits |
| CacheObject.AccessedGood | runtime/runtime.go:906-1067 | An access keeps every invariant of the shared state |
| ClauseTheorems.WhereIsClause | internal/policy/splice.go:347-414 | On every statement of the token grammar, the scan returns exactly the WHERE clause: its start and end, whether an OR-class operator stands outside all parentheses and CASEs, and if not its top-level conjuncts in order |
| ClauseTheorems.SegmentsAreConjuncts | internal/policy/splice.go:204-222 | The segments are the top-level conjuncts, one each, token for token |
| ClauseTheorems.NoWhere | internal/policy/splice.go:347-414 | A statement without a WHERE at its top level yields the empty result |
| ClauseFaults.StrayArm | internal/policy/splice.go:86-110 | An arm keyword outside any CASE, behind an expression or where an operand must follow, and an END behind an expression, anywhere at the clause's top level, make the result unreadable, whatever follows |
| ClauseFaults.UnclosedCase | internal/policy/splice.go:86-110 | A CASE still open at the end of the statement or at a semicolon makes the result unreadable, wherever at the top level it opened, whatever complete and half arms it has, and with further CASEs open inside it or not |
| ClauseFaults.HoleInCase | internal/policy/splice.go:317-330 | A construct anywhere inside a CASE, in its subject, before an arm or within one, nested or not, makes the result unreadable, whatever follows |
| ClauseScanning.WhereClause | internal/policy/splice.go:347-414 | The loop over the token stream equals the scan function |
| ClauseScanning.ExprScan.Step | internal/policy/splice.go:275-312 | One token moves all fields of the scan as the step function says |
| ClauseScanning.ExprScan.Construct | internal/policy/splice.go:317-330 | One construct flushes the segment and may end the clause |
| ClauseScanning.ExprScan.Ident | internal/policy/splice.go:86-104 | The CASE counter and its fault flag |
| SqlTokens.NormalizedTokens | internal/policy/splice.go:815-852 | The loop builds the normalized tokens of a text |
| SqlGrammar.ConjunctsDecide | internal/policy/splice.go:963-978 | Under three-valued logic an expression is true on a row exactly when all its top-level conjuncts are |
| Enforcing.WeavingScopes | internal/policy/weave.go:162-183 | For every shape: the woven statement differs only in its WHERE, and that clause, read by the precedence grammar, is true on a row exactly when the original clause and every policy conjunct are, with a top-level OR or without |
| Enforcing.WhereSynthesized | internal/policy/weave.go:162-183 | A statement without a WHERE gets one, in front of its tail clause or at its end offset, that is true exactly when every policy conjunct is |
| Enforcing.WeaveInserts | internal/policy/weave.go:162-188 | The inserted texts turn the statement's clause into the woven clause and touch nothing else |
| Enforcing.WovenIsEnforced | internal/policy/enforce.go:115-132 | Where the statement has a WHERE: the enforcing re-scan of the woven statement is readable, sees no top-level OR and finds every policy conjunct as a segment; a second weave has nothing to insert |
| Enforcing.SynthesizedIsEnforced | internal/policy/enforce.go:115-132 | Where it has none: every conjunct is needed, and the re-scan finds the WHERE that was made, without a top-level OR, holding every one of them; a second weave has nothing to insert |
| Enforcing.SegsContainLoop | internal/policy/splice.go:963-978 | The search through the segments, bare or in one pair of parentheses |
| Enforcing.ConjTokensEqual | internal/policy/splice.go:892-916 | The token-by-token comparison under the dialect's case rule |
| Weaving.WovenMeans | internal/policy/weave.go:162-183 | In every shape the woven clause means the conjunction of policies and original clause |
| Weaving.ShapeSpells | internal/policy/weave.go:162-183 | The expression of a shape is spelled by the tokens that shape prints, constructs included |
| Weaving.AssembleInsertions | internal/policy/weave.go:162-183 | The case split over the WHERE slot builds the insertion list |
| Weaving.JoinParenthesized | internal/policy/weave.go:282-288 | The loop spells the conjunction of the parenthesized predicates |
| OnWeaving.OnWeavingScopes | internal/policy/weave.go:143-151 | Weaving behind a condition in its place changes nothing around it, and the new condition is true exactly when the old one and every policy conjunct are |
| OnEnforcing.WovenOnScopes | internal/policy/weave.go:143-151 | End to end: the insertions for the ON that the search located turn the statement's join tree into the one with the woven condition, and unless the landing leaks, every row of the woven tree null-extends the relation or has a tuple that satisfies the predicate, in every world in which that condition decides the join |
| OnEnforcing.WovenOnIsEnforced | internal/policy/enforce.go:212-221 | On the woven statement the enforcing search, from the tokens again, finds an ON, does not refuse it, and reads it without a top-level OR and with every policy conjunct among its segments; a second weave has nothing to insert |
| OnEnforcing.LooseRunWraps | internal/policy/weave.go:143-151 | In `x JOIN b JOIN a ON p ON q` with an OR at the top level of p or q, the parentheses are put around `p ON q`, keyword and all |
| OnWeaving.AssembleOnInsertions | internal/policy/weave.go:143-151 | The two insertion forms for an ON |
| Splicing.SpliceItems | internal/policy/splice.go:1001-1079 | The loop over items and pending insertions equals the splice function |
| Splicing.SpliceKeepsTemplate | internal/policy/splice.go:1001-1079 | Removing the synthesized items from the woven template gives back the original text and the order of its constructs |
| Splicing.SpliceInsertsAll | internal/policy/splice.go:985-1079 | Every insertion whose offset lies in or at the end of a skeleton item arrives once, in order of offset, priority and creation |
| Splicing.SpliceKeepsSpans | internal/policy/splice.go:1001-1079 | Original pieces keep their source position; synthesized items cover no source text |
| SplicedTokens.SpliceTokens | internal/policy/splice.go:985-1079 | The scanned elements of the spliced items are those of the template with every insertion's tokens at its offset, for any lexer that the cuts do not disturb |
| JoinTheorems.JoinGatingExact | internal/policy/splice.go:469-678 | Whenever an ON is found and not refused: the scan reads the run of qualifiers that begins there, and is unreadable only if a later condition begins with a name END; it ends behind a condition of this very join tree exactly when the run lands in one; and then conjoining there makes every output row of the whole tree null-extend the relation or satisfy the predicate if and only if that join is not RIGHT or FULL with the relation in its right operand |
| JoinTheorems.OwnOnScopes | internal/policy/splice.go:698-739 | When the introducing join owns an ON that no further qualifier follows, an accepted result always scopes |
| JoinTheorems.CrossGroupLeaks | internal/policy/splice.go:608-635 | `x FULL JOIN a CROSS JOIN b ON p` is accepted although unscoped rows come through |
| JoinTheorems.NestedOnLeaks | internal/policy/splice.go:658-674 | `x FULL JOIN b JOIN a ON p ON q` is accepted with the conjunct at the end of q, and unscoped rows come through |
| JoinTheorems.UsingRunGarbles | internal/policy/splice.go:658-674 | `x JOIN b JOIN a ON p USING (c)` is accepted and readable, and the conjunct goes behind the columns of the USING, where no condition ends |
| JoinTheorems.KeywordRunGarbles | internal/policy/splice.go:645-674 | `x JOIN b JOIN a ON p ON offset = 1` is accepted, and the conjunct goes right behind the second ON, where no condition ends; with a name END instead the scan is unreadable |
| JoinTheorems.NaturalOuterLeaks | internal/policy/splice.go:750-811 | `x FULL JOIN y NATURAL LEFT OUTER JOIN a ON p` is accepted although unscoped rows come through |
| JoinSearching.SearchAgrees | internal/policy/splice.go:469-678 | From any position in any join tree the token search meets exactly the ON, crossing and refusal evidence that the tree says it meets |
| JoinScanning.LocateOn | internal/policy/splice.go:469-678 | The loop equals the search function |
| JoinScanning.OnSearch.Step | internal/policy/splice.go:566-674 | One token moves the search's fields as the step function says |
| JoinScanning.NaturalIntroducesRight | internal/policy/splice.go:750-811 | The forward loop decides whether the run of join keywords before the reference contains NATURAL |
| JoinTrees.JoinKeepsScope | internal/policy/splice.go:698-717 | Enclosing joins only combine scoped rows or null-extend the whole group |
| JoinTrees.OwnJoinScopes | internal/policy/splice.go:698-739 | Conjoining to the ON of a join scopes the operand that the join does not preserve |
| SetOpTheorems.SplitSound | internal/policy/setop.go:83-100 | On any input the cores of a successful split are disjoint intervals in document order, each running from a token to the first end at its depth, and an offset is attributed to a core exactly when that core, and no other, has an unwoven token there |
| SetOpTheorems.SplitExact | internal/policy/setop.go:70-82 | Every statement of the grammar (WITH clauses, nested parentheses, ALL and DISTINCT, set-level tails) is accepted, and its cores are exactly its leaf queries in document order |
| SetOpTheorems.BranchesExact | internal/policy/setop.go:278-329 | There is one branch per leaf, with the leaf's first word and the WHERE that the whole-statement scan would read of that leaf alone |
| SetOpTheorems.BranchWhere | internal/policy/setop.go:289-329 | Reading a core inside a statement equals reading its tokens as a statement of their own |
| SetOpEnforcing.BranchSlots | internal/policy/setop.go:278-329 | The slot of a branch in all three cases: behind its first top-level WHERE; else, behind a FROM, in front of the first tail keyword outside parentheses or ORDER BY or GROUP BY construct; else at the end of its last element |
| SetOpEnforcing.SetOpWeaves | internal/policy/weave.go:153-183 | The insertions of all branches together turn the statement into the same set operation of the woven leaves, which is on the grammar and splits again |
| SetOpEnforcing.SetOpIsEnforced | internal/policy/enforce.go:106-132 | A second split has the same branches; each one's own WHERE is readable, without a top-level OR, and holds every conjunct of that branch; a branch that needs none is untouched; a second weave has nothing to insert anywhere |
| SetOpScanning.QueryFrom | internal/policy/setop.go:167-192 | The recursive descent ends, never moves back, and its cores are in order and disjoint |
| SetOpScanning.ScanSetOp | internal/policy/setop.go:83-100 | The scan succeeds exactly when the depths close, the grammar function succeeds and only semicolons follow; its branches and attribution are those of the cores |
| SetOpScanning.SetOpElems | internal/policy/setop.go:103-148 | The flattening loop computes depths and dots, and fails on unbalanced parentheses |
| SetOpScanning.SetOpParser.Query | internal/policy/setop.go:167-192 | The cursor, branches and attribution after a query |
| SetOpScanning.SetOpParser.Operand | internal/policy/setop.go:254-274 | The cursor, branches and attribution after an operand |
| SetOpScanning.SetOpParser.Core | internal/policy/setop.go:278-329 | The cursor, the new branch and the attribution after a core |
| SetOpScanning.SetOpParser.SkipWith | internal/policy/setop.go:196-237 | A WITH clause is skipped to behind its last body, or the scan fails |
| SetOpScanning.SetOpParser.SkipParen | internal/policy/setop.go:240-250 | A parenthesis is skipped to behind its match |
| NullSoundness.VerdictSound | internal/nullability/nullability.go:307-350 | A source-attributed column judged non-null is not NULL in any row of any shape, along any path of derived tables and CTEs through which the engine may attribute it |
| NullSoundness.Analyze | internal/nullability/nullability.go:92-242 | The whole analysis, presence walk and IS NOT NULL filters included, gives one verdict per column, and every non-null verdict is sound for every database and shape |
| NullSoundness.LevelsCanBeOk | internal/nullability/nullability.go:48-66 | What the soundness theorem asks of the join trees of its databases can be met, for any tuples and conditions |
| NullSoundness.CleanIsNonNull | internal/nullability/nullability.go:443-535 | Where no exposure of a table carries a hazard, a NOT NULL column of it is never NULL along any path |
| NullSoundness.NarrowedIsNonNull | internal/nullability/nullability.go:134-168 | A skeleton IS NOT NULL test narrows its column soundly when the table has one instance at all levels and nothing poisons it |
| NullSoundness.OnlyPath | internal/nullability/nullability.go:134-168 | A table with one instance and no poisoned exposure has one path, its own FROM item |
| NullSoundness.FilteredColumns | internal/nullability/nullability.go:154-168 | The loop collects exactly the narrowed columns, none for an UPDATE |
| NullSoundness.Present | internal/nullability/nullability.go:48-66 | A FROM item that is neither guarded nor flagged as nullable side is present in every row of every shape |
| PresenceMemo.PresenceOf | internal/nullability/nullability.go:443-639 | The memoized walk computes the same presence map as the plain recursive walk |
| PresenceMemo.NodesHavePlaces | internal/nullability/nullability.go:537-548 | A parse node is always entered with the same environment and flag, which is what lets the memo leave them out of its key |
| PresenceMemo.PresenceWalk.Descend | internal/nullability/nullability.go:593-639 | A stored or fresh contribution adds what descending into the body adds, and stays stored |
| PresenceMemo.PresenceWalk.Collect | internal/nullability/nullability.go:443-535 | One level adds the events of its named relations and derived tables |
| PresenceMemo.MergePresence | internal/nullability/nullability.go:557-569 | The merge loop adds counts and accumulates hazards |
| PresenceMemo.PoisonAll | internal/nullability/nullability.go:647-658 | The loop poisons every known table of a list |
| Nullability.EnterDefinition | internal/nullability/nullability.go:409-423 | A definition's body, in the environment fixed where it was written, weighs less than any level from which it can be referenced |
| Nullability.EnterDerived | internal/nullability/nullability.go:593-639 | A derived table in the whole environment of its level weighs less than the level |
| Nullability.ScopeWeight | internal/nullability/nullability.go:449-477 | The environment of a level weighs exactly what its definitions add |
| Nullability.BuildScope | internal/nullability/nullability.go:463-478 | The loop that extends both environments side by side |
| Resolution.ResolutionSteady | internal/rules/resolved.go:27-122 | A reference that anything answers to binds to one and the same relation in every shape that contains it if and only if neither SQLETCH114 nor SQLETCH115 is reported for it, and then to the relation of the maximal rendering |
| Resolution.StarSteady | internal/rules/resolved.go:100-122 | A star takes its columns from the same relations in every shape if and only if SQLETCH117 is not reported for it |
| Resolution.CheckResolved | internal/rules/resolved.go:27-161 | The two loops report exactly the ambiguous references, the scope violations and the star expansions |
| Resolution.CheckRef | internal/rules/resolved.go:35-98 | One reference's turn: skipped, ambiguous, in violation, or fine |
| Resolution.CheckStar | internal/rules/resolved.go:100-122 | One target's turn |
| Resolution.IndexNames | internal/rules/resolved.go:202-237 | The name map keeps the last relation of a folded name |
| Resolution.ColumnCandidates | internal/rules/resolved.go:289-304 | The relations that have the column, in order |
| Resolution.FragAt | internal/rules/resolved.go:252-274 | The guards of the first extent that covers an offset |
| PathOrder.WalkExact | internal/pathpat/pathpat.go:160-181 | On a tree without symbolic links and within the budget, the walk reports exactly the files whose path splits into the pattern's segments, each once, each with the captures of the split whose `**` are shortest, earliest first |
| PathTheorems.DerivationsExact | internal/pathpat/pathpat.go:305-428 | The derivations tried are exactly the segment assignments, with no pruned or dot directory under `**` |
| PathTheorems.CapturesNames | internal/pathpat/pathpat.go:432-449 | A capture is the run of names its segments consumed |
| PathWalks.Walk | internal/pathpat/pathpat.go:160-181 | The walk ends on every file system, cycles of links included; it gives up exactly when the entries it has to examine are more than the budget, and otherwise reports the first derivation of each path |
| PathWalks.Walker.MatchAt | internal/pathpat/pathpat.go:305-371 | One segment: spans, visited set and names are restored, and the matches of its derivations are added |
| PathWalks.Walker.MatchStar | internal/pathpat/pathpat.go:375-428 | A `**` stops here or takes one more directory, with the same restoration |
| PathWalks.Walker.EmitHere | internal/pathpat/pathpat.go:432-449 | A path is recorded with its captures unless it already was |
| PathWalks.EnterDecreases | internal/pathpat/pathpat.go:261-289 | Entering a directory uses up a link target or goes down the tree: why cycles end |
| PathWalks.EmitExact | internal/pathpat/pathpat.go:432-449 | Every derived path is reported, none twice, and nothing else |

## Left out

- Integer widths: ordinals, keys and counters are unbounded, except that guard words are 64-bit vectors, table indices are truncated to int16, and the limits the code checks are checked; uint64 and int64 counters do not wrap in the model.
- Selections.OrderSeq: keeps the 64-bit duplicate mask as the set of its bits.
- Observer callbacks, `sync.Pool` buffers and `TopShapes`: no effect on statements, binds or the counters modelled.
- CacheObject.ComposedCache.Entry: one thread at a time; interleavings are the subject of the protocol model, whose steps are the same functions. Entries are indices into an arena that only grows, so aliasing of entry pointers is index equality.
- The Go memory model below atomic load and store.
- Case folding is ASCII only; Unicode case mapping of keywords is not modelled.
- ClauseTheorems.WhereIsClause: does not cover BETWEEN ... AND and `@in` inside a clause, where the scan cuts a segment in two, nor names spelled like infix words.
- Weaving: upserts, nested data modification, opt-outs and which policies apply where (`analyzeApplicability`, `applyActive`) only decide to refuse; "no diagnostics" is the hypothesis.
- Enforcing.WeavingScopes: treats the WHERE insertions of one statement or branch; ON insertions are treated separately in OnWeaving, and the interplay of both in one splice only through SpliceInsertsAll.
- Enforcing.WovenIsEnforced: a conjunct that is already present is recognised by its spelling, so that it means the policy is left to the spelling.
- OnEnforcing.WovenOnScopes: asks that the run lands in a condition and, if an OR stands at its top level, consists of that one ON; what the other runs become is stated by UsingRunGarbles, KeywordRunGarbles and LooseRunWraps, and is no statement of the grammar.
- SplicedTokens.SpliceTokens: the lexer's indifference to the cuts is a hypothesis, not derived from a lexer.
- ClauseScanning.WhereClause: text that the lexer rejects, which the code reports as unreadable, is not part of this model; the loop starts from tokens.
- SqlTokens.NormalizedTokens: starts from tokens; the nil result for text that does not lex is not part of this model.
- JoinScanning.LocateOn: starts from tokens, so lexing failures are not part of this model, nor are references outside skeleton text, which the code refuses.
- SetOpScanning.SetOpElems: starts from tokens; the failure on text that does not lex is not part of this model.
- Rendering.RenderCore: the list of fragment ranges that the renderer also returns is not part of this model; `Resolution` takes the guarded extents as given.
- NullSoundness.Analyze: the suppression of source attribution for scalar-subquery projections (internal/nullability/nullability.go:209-218) only turns verdicts into those of expression columns, and is not part of this model.
- NullSoundness.VerdictSound: verdicts of expression columns (total functions, strict aggregates), overrides, the view check and the resolution of the tested column's name are not part of this model.
- Resolution.CheckResolved: the warning for optional NOT NULL columns and the FOR UPDATE combination are not part of this model, nor are bare references inside subqueries, which the code skips.
- PathWalks.Walk: the final sort by path, the list of consulted directories and unreadable directories are not part of this model; patterns are taken as compiled segments and captures, so `Compile` and the substitution of captures are not modelled.
- PathOrder.WalkExact: excludes patterns whose last segment is literal, which the code reports without checking that the file exists, and trees with symbolic links, for which termination is shown.
- The template scanner, shape enumeration and naming, code generation of Go source, configuration, lints, the language server, drivers and all other input and output.
