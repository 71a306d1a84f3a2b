# Memscribe: a verified model

Memscribe turns the logs of coding assistants into events, and events and commits
into a stream of nodes: conversations, decisions, code episodes, and the edges that
bind a decision to the edits it led to. This project models four parts of it in
Dafny and proves what they promise on every input, every run or every store.

**The core.** `Binder`, `NodePrep` and `GitMine` are the three stages from a batch of
commits to the prepared stream. The binder picks one decision for each episode,
counts 2x2 tables over all arcs, and sorts. `BinderLaws`, `Contingency`,
`GitMineLaws` and `GitMineLimits` prove what comes out of the stages and of their
composition.
`AdrScanner` is the scanner for references to decision records, on bytes.

**Adapters.** `Ctx` holds the mutable parse context. What a record does to it is a
list of operations; running the operations is the specification. Each adapter
(`Codex`, `Claude`, `Otel`, `Chat`, `Cursor`) is a class whose methods update the
context, proved equal to running the operations that its `...Plan` module names.
The laws over whole runs (`CtxLaws`, `CtxFirings` and the `...Laws` modules) are
about those runs: dense numbers, distinct ids, outcomes, replay, repeated delivery,
sessions, and which calls are reported (`ChatReports`).

**Hand-written parsers.** `V4aPatch`, `FrontMatterModel` and `FrontMatterForms`,
`DocScan`, `DecisionsTable`, `StatusWords`, `GovernanceDocModel` and `Otlp` hold the
index-driven loops, proved against declarative specifications, and the round trips.

**Stores.** `OpenCodeStore`, `HermesStore`, `CursorStore` and `CursorReader` join rows
into records. For OpenCode and Hermes the theorem goes from the tables through the
join and the parser to the events.

Sequences of characters are Unicode scalar values (the scanner and the bytes of a raw
record: one character a byte), and timestamps are whole nanoseconds. Code outside the
model, such as the content hash, the JSON reader and the regular expressions, is a
value of function type (`Events.Host`, `GitMine.Oracle`,
`GovernanceDocModel.Patterns`), and the theorems hold for every such value. A sort is
the stable insertion sort of `Sorting`, whose result is proved to be a sorted
permutation and unique where elements do not tie.

## Where the code and its prose differ

The model follows the code. The lemma that shows a difference is named beside it.

- The binder's cap of 1800 s admits gaps up to, not including, 1801 s (`BinderLaws.GapWindow`), and its choice is independent of scan order exactly without ties (`BinderLaws.ChoiceOrderFreeExactly`, `BinderLaws.TieFollowsScanOrder`).
- The token test of the reference scanner slices one byte after white space, so white space of several bytes makes it panic (`AdrScanner.ScanLine`, `AdrScanner.PanicWitness`).
- `implemented`, `final`, `published` and 18 more words fold into `accepted` and make a document effective (`GovernanceDocModel.ProseHoldsExactly`, `GovernanceWitness.FinalIsEffective`).
- A hyphen ends a word, so `TBD-free` counts as a placeholder (`DocScan.HyphenEndsAWord`).
- A flow list in front matter replaces an earlier list, a block list adds to it, so the two forms agree under an exact condition only (`FrontMatterForms.FormsAgreeExactly`).
- Records that no branch of the Codex adapter recognises stand under no guard, so a replay repeats each of them, and is silent exactly when there is none (`CodexLaws.ReplayFixedPoint`, `CodexLaws.ReplaySilentExactly`). Messages with an unknown role stand under a guard and are not repeated. A `turn_context` record shows it (`CodexLaws.TurnContextRepeats`). Lines that are not JSON are dropped by Codex (`CodexLaws.InvalidJsonDropped`).
- Claude records may be delivered more than once, lines that are neither JSON nor blank may not: each repeat of one adds an event (`ClaudeLaws.OnceSufficesExactly`, `ClaudeLaws.RepeatsCounted`).
- The id of a V4A edit is keyed on the path only, so a later section for a path is dropped although the comment says that edits of one call do not collapse (`CodexEdits.EveryEditExactly`, `CodexEdits.SecondHunkLost`). The id of an edit from an applied patch holds the line number (`CodexEdits.ChangeIdsFollowLine`).
- A patch body that starts with an empty line loses it (`V4aPatch.BodyVerbatim`).
- The chat adapters and the Cursor adapter record an outcome before they test whether its result was seen, so a suppressed result still overwrites it. The outcome map mirrors the stream under distinct ids (`ChatLaws.OutcomesMirror`, `CursorLaws.OutcomesMirror`), step by step under an exact condition (`ChatLaws.ResultStepExactly`, `CursorLaws.ResultStepExactly`), and not in general (`ChatOutcomes.SharedStoreDiverges`, `CursorLaws.AnsweredTwiceDiverges`).
- Calls that share an id are reported once. Hermes gives all calls of a row that carry no id one id, OpenCode gives them the empty one, so all but the first are lost (`ChatReports.LossExactly`, `HermesLaws.EveryCallReported`, `HermesLaws.TwoIdlessCalls`, `OpenCodeLaws.EveryCallReported`, `OpenCodeLaws.IdlessReportedOnce`, `OpenCodeWitness.TwoIdlessParts`).
- OpenTelemetry events are deduplicated after they are numbered, so a repeat always leaves a gap (`OtelRuns.RepeatExactly`, `OtelRuns.DenseIffNoRepeat`). A repeat also sets the outcome of its call back, so the outcome map follows the stream under an exact condition only (`OtelOutcomes.RecordStepExactly`, `OtelOutcomes.RunMirrorsExactly`, `OtelOutcomes.LiteralGoesStale`).
- Episodes of a commit sort after their decision only when the commit is split into at most two parts (`GitMineLimits.EpisodesFollowExactly`), and commits that share a short sha may bind each other's files (`GitMineLimits.BindsOwnExactly`).
- A composer's id is read from its value, not from its key, and composers that share one stay in row order, so the reading of a Cursor store depends on row order after all (`CursorReader.RowOrderShowsExactly`). OpenCode and Hermes tables would show the same without their primary keys (`OpenCodeStore.RowOrderShowsExactly`, `HermesStore.RowOrderShowsExactly`).

## Model

| member | source | states |
|---|---|---|
| `Binder.Bind` | crates/memscribe-core/src/binder.rs:39-111 | one pass over the episodes, one over the arcs, then the sort: the returned edges are those of the batch specification whose laws are proved in `BinderLaws` |
| `Binder.ChooseDecision` | crates/memscribe-core/src/binder.rs:55-81 | the inner loop with its five filters leaves the choice that `BestIsLatest` characterises |
| `Binder.AttachCorrelations` | crates/memscribe-core/src/binder.rs:136-172 | in place, every edge whose decision bound at least two arcs gets the tuple of its own (decision, path), every other edge is left as it was |
| `Binder.CountBound` | crates/memscribe-core/src/binder.rs:138-141 | the first counting pass knows for every decision how many arcs it bound |
| `Binder.TallyArcs` | crates/memscribe-core/src/binder.rs:155-168 | one sweep over the arcs counts the four cells of an arc's table, paths compared by components |
| `BinderLaws.GapWindow` | crates/memscribe-core/src/binder.rs:68-70 | an episode is admitted exactly when the gap is non-negative and under 1801 s, because whole seconds truncate |
| `BinderLaws.BestIsLatest` | crates/memscribe-core/src/binder.rs:55-81 | the choice governs the episode and no governing decision is later; there is none exactly when nothing governs |
| `BinderLaws.BestOrderFree` | crates/memscribe-core/src/binder.rs:71-81 | decisions that do not tie may be scanned in any order |
| `BinderLaws.FirstLatestWins` | crates/memscribe-core/src/binder.rs:75-78 | of tied latest decisions the one scanned first is kept |
| `BinderLaws.ChoiceOrderFreeExactly` | crates/memscribe-core/src/binder.rs:71-81 | the choice is the same for every scan order if and only if no two different decisions tie for latest, which the comment in the code leaves out |
| `BinderLaws.TieFollowsScanOrder` | crates/memscribe-core/src/binder.rs:71-81 | two decisions at one time and turn: each governs the edit in the scan order that meets it first |
| `BinderLaws.TallyCounts` | crates/memscribe-core/src/binder.rs:155-168 | the four cells partition the batch, and rows and columns are the counts of the decision and of the path |
| `BinderLaws.CorrelationOrderFree` | crates/memscribe-core/src/binder.rs:136-172 | a correlation depends on the arcs only as a bag |
| `BinderLaws.CorrelationSane` | crates/memscribe-core/src/binder.rs:136-172 | an edge whose decision reaches the threshold carries the correlation of a table that counts its own arc, at least two arcs of its decision, and all arcs of the batch |
| `BinderLaws.EdgeCountExact` | crates/memscribe-core/src/binder.rs:50-101 | the edges into a node number exactly the episodes of that node that some live decision of the session precedes by under 1801 s |
| `BinderLaws.EdgesExact` | crates/memscribe-core/src/binder.rs:83-109 | every edge comes from one bond with its own correlation, present iff the decision bound at least 2 arcs, and edges are sorted |
| `BinderLaws.EdgesTemporal` | crates/memscribe-core/src/binder.rs:88-101 | on every edge use precedes generation, in one session, by under 1801 s |
| `BinderLaws.BindOrderFree` | crates/memscribe-core/src/binder.rs:39-111 | permuting decisions and episodes leaves the whole edge list, correlations included, unchanged |
| `Contingency.CrossBound` | crates/memscribe-core/src/binder.rs:176-219 | the squared cross product is at most the product of the four marginals |
| `Contingency.PhiBound` | crates/memscribe-core/src/binder.rs:176-219 | phi squared is in [0, 1] and chi squared is at most N |
| `Contingency.ProportionsOrdered` | crates/memscribe-core/src/binder.rs:176-219 | with the arc counted, 0 < support <= confidence <= 1 and lift is the plain ratio, so the zero-denominator branches are not taken |
| `Contingency.LiftMeansAssociation` | crates/memscribe-core/src/binder.rs:176-219 | lift above 1, n11·N above the product of its marginals and a positive cross product are equivalent |
| `Contingency.PhiNearest` | crates/memscribe-core/src/binder.rs:176-219 | rounded phi has the size nearest to the exact root, and is non-zero with the sign of the cross product exactly when the root is at least half a unit |
| `Contingency.RoundNearest` | crates/memscribe-core/src/binder.rs:222-228 | rounding errs by at most half a unit and keeps [0, 1] |
| `Contingency.CorrelationFields` | crates/memscribe-core/src/binder.rs:176-219 | support is at most confidence and both are at most 1, phi lies in [-1, 1], every field is its exact value to half a unit of the sixth decimal, and no zero denominator is met |
| `Paths.SpellingsAgree` | crates/memscribe-core/src/binder.rs:155-168 | doubled slashes, inner dots and a trailing slash spell the same path, so they share an arc and its counts; a leading dot makes another path |
| `NodePrep.Prepare` | crates/memscribe-core/src/nodeprep.rs:31-77 | four pushing loops and a sort give the merged stream |
| `NodePrep.PushAll` | crates/memscribe-core/src/nodeprep.rs:34-67 | each loop appends its kind under its key |
| `NodePrep.MergeCanonical` | crates/memscribe-core/src/nodeprep.rs:31-77 | the stream is a sorted permutation of all inputs by (seq, rank, secondary) |
| `NodePrep.BindingsLast` | crates/memscribe-core/src/nodeprep.rs:58-76 | every binding comes after every conversation, decision and episode, also one at the largest sequence number |
| `NodePrep.PrepareOrderFree` | crates/memscribe-core/src/nodeprep.rs:31-77 | with distinct keys the stream does not depend on input order |
| `GitMine.GitSegmentation` | crates/memscribe-core/src/gitcommit.rs:513-605 | the nested loops produce the segmentation of the classified commits |
| `GitMine.MineCommitNodes` | crates/memscribe-core/src/gitcommit.rs:610-614 | segmentation, binder and node preparation composed |
| `GitMineLaws.EpisodeBindsLast` | crates/memscribe-core/src/gitcommit.rs:536-598 | with distinct short shas and at least one part a commit, an episode is bound to the last split part of its own commit, over all commits together |
| `GitMineLaws.BindingCount` | crates/memscribe-core/src/gitcommit.rs:513-614 | with at least one part a commit, the bindings number the sum of min(files, 40) over classified commits, also where commits share a session |
| `GitMineLaws.BindingsStayInCommit` | crates/memscribe-core/src/gitcommit.rs:513-614 | every binding joins a decision and an episode of one commit, the decision being its last part |
| `GitMineLaws.CommitsInOrder` | crates/memscribe-core/src/gitcommit.rs:513-614 | with at most 1000 parts a commit, all non-binding nodes of a commit precede those of any later commit |
| `GitMineLaws.EveryNodeHasCommit` | crates/memscribe-core/src/gitcommit.rs:513-614 | every non-binding node of the stream belongs to some commit |
| `GitMineLaws.MinedNodesDistinct` | crates/memscribe-core/src/gitcommit.rs:580-597 | with distinct shas, episode node ids are pairwise distinct |
| `GitMineLimits.BindsOwnExactly` | crates/memscribe-core/src/gitcommit.rs:513-614 | where commits may share a short sha, an episode is bound to the last part of its own commit iff no other one is dated a second later, or at the same second and listed later; else to the last part of such a commit |
| `GitMineLimits.EpisodeFollowsExactly` | crates/memscribe-core/src/gitcommit.rs:522-524 | in the stream the j-th episode stands after the decision it is bound to iff the commit has at most j + 2 parts |
| `GitMineLimits.EpisodesFollowExactly` | crates/memscribe-core/src/gitcommit.rs:522-524 | all episodes of a commit follow their decision, as the comment says, iff it has at most two parts or touches no file |
| `AdrScanner.ScanLine` | crates/memscribe-core/src/gitcommit.rs:314-374 | the jumping scan appends exactly the accepted numbers in order of position, and panics exactly on a line where the token slice is not on a character boundary |
| `AdrScanner.LooksLikeLookalike` | crates/memscribe-core/src/gitcommit.rs:378-403 | the token test, or a panic exactly when white space of more than one byte stands before the token |
| `AdrScanner.ScanAdrRefs` | crates/memscribe-core/src/gitcommit.rs:301-309 | the result is strictly increasing, within 1..=99999, and holds exactly the referred numbers |
| `AdrScanner.SkipLosesNothing` | crates/memscribe-core/src/gitcommit.rs:314-374 | jumping to the end of the digits loses no match |
| `AdrScanner.NumbersExact` | crates/memscribe-core/src/gitcommit.rs:314-374 | a number is listed iff some later position holds a word-bounded, plausible reference outside URLs and code spans |
| `AdrScanner.NarrowSpacesScannable` | crates/memscribe-core/src/gitcommit.rs:378-403 | under one-byte white space no slice panics |
| `AdrScanner.PanicWitness` | crates/memscribe-core/src/gitcommit.rs:382-391 | a no-break space before a reference is well-formed text on which the scan panics |
| `Ctx.ParseCtx.AllocSeq` | crates/memscribe-core/src/adapter.rs:72-76 | hands out the counter and advances it by one |
| `Ctx.ParseCtx.FirstSeen` | crates/memscribe-core/src/adapter.rs:79-81 | true iff the id was not recorded; records it |
| `Ctx.ParseCtx.MakeEvent` | crates/memscribe-adapters/src/util.rs:74-100 | one event stamped with session, project and the next number |
| `Ctx.ParseCtx.UnknownEvent` | crates/memscribe-adapters/src/util.rs:106-131 | the fallback event, with no dedup guard |
| `CtxLaws.RunDense` | crates/memscribe-adapters/src/util.rs:74-100 | over any stream the numbers are consecutive from the counter on |
| `CtxLaws.RunFresh` | crates/memscribe-core/src/adapter.rs:79-81 | over any stream recognised events have pairwise distinct ids that were not seen before |
| `CtxLaws.RunMirrors` | crates/memscribe-adapters/src/codex.rs:634-677 | over any stream the outcome map is what the emitted results say, last one winning |
| `CtxLaws.LastOutcomesMeaning` | crates/memscribe-adapters/src/codex.rs:634-677 | the outcome of a call is the flag of the last emitted result that names it |
| `CtxLaws.OutcomeStepExactly` | crates/memscribe-adapters/src/cursor.rs:1004-1028 | an outcome recorded in front of its guarded result keeps the map in line with the stream iff the result is emitted under a non-empty id or the map said the same already |
| `CtxFirings.RunShows` | crates/memscribe-adapters/src/cursor.rs:1004-1028 | over any stream with distinct guards and non-empty call ids the outcome map is what the emitted results say |
| `CodexAdapterModel.ParseRecords` | crates/memscribe-adapters/src/codex.rs:59-107 | a whole stream through one fresh context leaves the context and the events of the run |
| `CodexAdapterModel.CodexAdapter.ParseRecord` | crates/memscribe-adapters/src/codex.rs:84-107 | one record leaves exactly the context and events its operations describe |
| `CodexAdapterModel.CodexAdapter.ParseSessionMeta` | crates/memscribe-adapters/src/codex.rs:111-170 | rebinds session and project, then emits behind the guard of the rebound session |
| `CodexAdapterModel.CodexAdapter.FlattenContent` | crates/memscribe-adapters/src/codex.rs:379-412 | the text and the parts of the content items, folded in order |
| `CodexAdapterModel.CodexAdapter.EmitToolResult` | crates/memscribe-adapters/src/codex.rs:634-677 | records the outcome and emits the result only behind the guard of the result's id |
| `CodexAdapterModel.CodexAdapter.ParsePatchApplyEnd` | crates/memscribe-adapters/src/codex.rs:684-774 | the result, then one guarded edit for each changed path in path order |
| `CodexAdapterModel.CodexAdapter.EmitV4aEdits` | crates/memscribe-adapters/src/codex.rs:919-949 | one guarded edit per section, its id keyed on the path only |
| `CodexAdapterModel.CodexAdapter.CountUnifiedLines` | crates/memscribe-adapters/src/codex.rs:807-821 | counts marked lines, file headers left out |
| `CodexLaws.PlanShaped` | crates/memscribe-adapters/src/codex.rs:84-179 | every record of every kind guards its recognised events by their own ids and pairs each outcome with its result |
| `CodexLaws.RunInvariants` | crates/memscribe-adapters/src/codex.rs:635-677 | over every stream: numbers are 0, 1, 2, ..., recognised ids are distinct, and the outcome map is exactly the last emitted result of each non-empty call id |
| `CodexLaws.ReplayFixedPoint` | crates/memscribe-adapters/src/codex.rs:84-179 | from any context, replaying a stream in the context it left emits exactly one event for each record that no branch recognises, and changes nothing but the counter |
| `CodexLaws.ReplaySilentExactly` | crates/memscribe-adapters/src/codex.rs:84-179 | the replay is silent, and the context untouched, iff every record that is JSON is recognised by some branch |
| `CodexLaws.TurnContextRepeats` | crates/memscribe-adapters/src/codex.rs:84-107 | a `turn_context` record is repeated by its replay, from any context |
| `CodexLaws.InvalidJsonDropped` | crates/memscribe-adapters/src/codex.rs:59-65 | lines that are not JSON make no difference to events or context, wherever they stand |
| `CodexEdits.EditsEmitFirst` | crates/memscribe-adapters/src/codex.rs:919-949 | edits with unseen ids: the emitted edits are those of the kept sections, in order |
| `CodexEdits.FirstPerPathExact` | crates/memscribe-adapters/src/codex.rs:919-949 | the kept sections are exactly those that stand first of their path, in order; nothing is dropped iff the paths are pairwise distinct |
| `CodexEdits.LegacyCallEdits` | crates/memscribe-adapters/src/codex.rs:417-480 | a fresh legacy call gives its call event and one edit per distinct path, the first section winning |
| `CodexEdits.EveryEditExactly` | crates/memscribe-adapters/src/codex.rs:919-949 | every section of a call becomes an edit, as the comment at 929-930 promises, iff no path repeats |
| `CodexEdits.SecondHunkLost` | crates/memscribe-adapters/src/codex.rs:919-949 | a patch that changes one file twice: two sections are read, one is kept |
| `CodexEdits.AppliedPatchEdits` | crates/memscribe-adapters/src/codex.rs:684-774 | a fresh applied patch gives its result and then one edit for each changed path and no other, in ascending order of path |
| `CodexEdits.ChangeIdsFollowLine` | crates/memscribe-adapters/src/codex.rs:736-748 | the id of an edit from an applied patch is kept by the same bytes iff they come from the same line |
| `V4aPatch.Parse` | crates/memscribe-adapters/src/codex.rs:1015-1059 | the loop over lines with an open section gives the sections of the patch |
| `V4aPatch.SectionsExact` | crates/memscribe-adapters/src/codex.rs:1015-1059 | on any input sections match headers one to one; each body is its lines joined after dropping leading empty ones, and the counts are that body's |
| `V4aPatch.BodiesConserve` | crates/memscribe-adapters/src/codex.rs:1015-1059 | no plain line after the first header is lost, doubled or moved |
| `V4aPatch.RoundTrip` | crates/memscribe-adapters/src/codex.rs:1015-1070 | parsing undoes printing |
| `V4aPatch.BodyVerbatim` | crates/memscribe-adapters/src/codex.rs:1038-1052 | the body comes back verbatim iff it does not start with an empty line that another line follows |
| `ClaudeAdapterModel.ClaudeAdapter.ParseRecord` | crates/memscribe-adapters/src/claude_code.rs:173-251 | one record leaves exactly the context and events its operations describe |
| `ClaudeAdapterModel.ClaudeAdapter.ParseTurn` | crates/memscribe-adapters/src/claude_code.rs:262-452 | the turn, then its numbered calls, results and the file edit |
| `ClaudeAdapterModel.ClaudeAdapter.CollectBlocks` | crates/memscribe-adapters/src/claude_code.rs:275-365 | the block loop folds text, thinking, parts, calls and results |
| `ClaudeAdapterModel.ClaudeAdapter.ParseFileEdit` | crates/memscribe-adapters/src/claude_code.rs:456-530 | the hunk lines and their marked counts |
| `ClaudeLaws.AtLeastOnceIsExactlyOnce` | crates/memscribe-adapters/src/claude_code.rs:173-251 | re-delivering byte-identical JSON records at any later positions changes neither the events nor the context |
| `ClaudeLaws.DeliveriesAgree` | crates/memscribe-adapters/src/claude_code.rs:173-251 | two deliveries of the same records, however repeated, give the same run |
| `ClaudeLaws.RedeliverySilentExactly` | crates/memscribe-adapters/src/claude_code.rs:42-49 | one more delivery of a line already delivered changes nothing iff the line is JSON or blank |
| `ClaudeLaws.RepeatsCounted` | crates/memscribe-adapters/src/claude_code.rs:42-49 | over any stream the repeats add exactly one event for each repeated line that is neither, and move the counter so much further |
| `ClaudeLaws.OnceSufficesExactly` | crates/memscribe-adapters/src/claude_code.rs:42-49 | dropping every repeat from a stream changes nothing iff each repeated line is JSON or blank |
| `ClaudeLaws.TurnTextJoins` | crates/memscribe-adapters/src/claude_code.rs:583-591 | the text of a turn is its non-empty text blocks joined by line feeds; every block gives one part |
| `Otlp.DecodeUndoesEncode` | crates/memscribe-adapters/src/otel.rs:571-604 | reading is a left inverse of the AnyValue encoding |
| `Otlp.EncodableIffNullFree` | crates/memscribe-adapters/src/otel.rs:571-604 | exactly the values without a null can be encoded; the empty AnyValue is read as an empty object, not as a null |
| `OtelAdapterModel.OtelAdapter.Parse` | crates/memscribe-adapters/src/otel.rs:50-105 | one record: latch the session, dispatch, build, then drop events whose id was seen |
| `OtelAdapterModel.OtelAdapter.DedupEvents` | crates/memscribe-adapters/src/otel.rs:357-362 | keeps the events with unseen ids and records them |
| `OtelAdapterModel.OtelAdapter.ExecuteToolEvents` | crates/memscribe-adapters/src/otel.rs:174-240 | call, result and file edit of a tool operation |
| `OtelAdapterModel.OtelAdapter.DialogueEvents` | crates/memscribe-adapters/src/otel.rs:273-354 | prompt, input and output turns of a dialogue operation |
| `OtelLaws.ShapesAgree` | crates/memscribe-adapters/src/otel.rs:433-475 | flat and nested records of the same attributes agree on every attribute |
| `OtelLaws.SameEventKinds` | crates/memscribe-adapters/src/otel.rs:50-354 | equal attributes give the same event kinds in the same order, for every operation: those of a tool operation up to its call id, equal iff it has one or the bytes hash alike; an unrecognised record is kept whole |
| `OtelLaws.ShapesGiveSameKinds` | crates/memscribe-adapters/src/otel.rs:50-604 | so the flat and the nested shape give matching event kinds, for every record |
| `OtelLaws.ShapesAgreeOnU64` | crates/memscribe-adapters/src/otel.rs:477-488 | unsigned attributes agree also when integers are decimal strings |
| `OtelLaws.TextualIntegersAgree` | crates/memscribe-adapters/src/otel.rs:477-484 | decimal text and the number it shows are the same unsigned attribute |
| `OtelRuns.IdsDistinct` | crates/memscribe-adapters/src/otel.rs:376-386 | the ids one record gives its events are pairwise distinct |
| `OtelRuns.RecordEffect` | crates/memscribe-adapters/src/otel.rs:50-372 | a JSON record leaves exactly: the session and project latched, the counter past all built events, the name and outcome of its call set, all its ids seen |
| `OtelRuns.DenseExactly` | crates/memscribe-adapters/src/otel.rs:357-364 | the numbers of a record are without a gap iff none of its ids was seen, which is iff nothing is dropped |
| `OtelRuns.RepeatExactly` | crates/memscribe-adapters/src/otel.rs:357-364 | bytes that came before, from any location and after anything: no event, always a gap, the name and outcome of the call set back, session and project only when unset |
| `OtelRuns.RepeatAtOnce` | crates/memscribe-adapters/src/otel.rs:357-364 | repeated at once, a record changes the counter and nothing else |
| `OtelRuns.RunRises` | crates/memscribe-adapters/src/otel.rs:357-364 | over any stream the emitted numbers rise strictly |
| `OtelRuns.RunDenseExactly` | crates/memscribe-adapters/src/otel.rs:357-364 | over any stream they are without a gap iff every JSON record brings only unseen ids |
| `OtelRuns.DenseIffNoRepeat` | crates/memscribe-adapters/src/otel.rs:357-386 | with an injective hash without colons: iff no JSON record is repeated |
| `OtelRuns.RunFreshIds` | crates/memscribe-adapters/src/otel.rs:357-364 | over any stream recognised events have distinct ids |
| `OtelOutcomes.RecordStepExactly` | crates/memscribe-adapters/src/otel.rs:174-240 | a record keeps the outcome map in line with the stream iff it reports no outcome, or emits its result under a non-empty call id, or the map said the same already |
| `OtelOutcomes.RunMirrorsExactly` | crates/memscribe-adapters/src/otel.rs:174-372 | over any stream the map is what the emitted results say after every record iff every record keeps it in line |
| `OtelOutcomes.RunMirrorsWhenNew` | crates/memscribe-adapters/src/otel.rs:174-240 | so it is without repeats and empty call ids |
| `OtelOutcomes.OutcomeGoesStale` | crates/memscribe-adapters/src/otel.rs:174-240 | a success, a failure and the success again leave the call a success in the context and a failure in the stream |
| `OtelOutcomes.LiteralGoesStale` | crates/memscribe-adapters/src/otel.rs:174-240 | two literal records that do so |
| `FrontMatterModel.Parse` | crates/memscribe-core/src/governance_doc.rs:414-525 | the two nested loops give the front matter of the document |
| `FrontMatterModel.ScanLines` | crates/memscribe-core/src/governance_doc.rs:426-485 | the outer loop, up to the closing fence or nothing |
| `FrontMatterModel.ReadBlock` | crates/memscribe-core/src/governance_doc.rs:460-478 | the inner loop takes exactly the items of the block list |
| `FrontMatterModel.Locality` | crates/memscribe-core/src/governance_doc.rs:414-525 | nothing after the closing fence changes the result |
| `FrontMatterForms.FormsAgree` | crates/memscribe-core/src/governance_doc.rs:402-482 | flow list and block list of the same selectors give the same front matter |
| `FrontMatterForms.FlowGives` | crates/memscribe-core/src/governance_doc.rs:402-482 | a list closed by a fence is read as exactly its selectors |
| `FrontMatterForms.FormsAgreeExactly` | crates/memscribe-core/src/governance_doc.rs:454-482 | whatever follows, the forms agree iff no list stands before and no item follows, or a flow list follows before the fence, or no fence closes |
| `FrontMatterForms.BlockGives` | crates/memscribe-core/src/governance_doc.rs:460-482 | closed by a fence, a block list is read as the earlier selectors followed by its own |
| `DocScan.IsWholeWordMatch` | crates/memscribe-core/src/governance_doc.rs:202-223 | the restarting search finds a hit iff the word occurs with no letter or digit on either side |
| `DocScan.HyphenEndsAWord` | crates/memscribe-core/src/governance_doc.rs:197-223 | a hyphen ends a word, so the harmless example the comment gives is a match |
| `DocScan.FindStatusSection` | crates/memscribe-core/src/governance_doc.rs:587-611 | the nested loops give the status of the document's lines |
| `DocScan.StatusIsSection` | crates/memscribe-core/src/governance_doc.rs:587-611 | the status is the last non-empty line of the first status section, wherever it stands |
| `DocScan.LastNonBlankMeaning` | crates/memscribe-core/src/governance_doc.rs:594-608 | a non-blank line after which the section holds only blank lines is the status, trimmed |
| `DocScan.AllBlankMeaning` | crates/memscribe-core/src/governance_doc.rs:594-608 | there is no status iff all lines of the section are blank |
| `DocScan.AppendedLineWins` | crates/memscribe-core/src/governance_doc.rs:583-611 | appending a non-blank line that is no heading to the first status section makes it the status |
| `DocScan.BodyBeforeFirstH2` | crates/memscribe-core/src/governance_doc.rs:564-581 | the lines between the first heading and the first second-level heading |
| `StatusWords.Canonical` | crates/memscribe-core/src/governance_doc.rs:251-313 | the result is always one of the six canonical statuses |
| `StatusWords.AcceptedExactly` | crates/memscribe-core/src/governance_doc.rs:286-307 | a status is accepted iff its normal form is one of the accepted words |
| `StatusWords.CaseInsensitive` | crates/memscribe-core/src/governance_doc.rs:251-262 | letter case makes no difference |
| `StatusWords.PaddingIgnored` | crates/memscribe-core/src/governance_doc.rs:251-262 | white space around a status makes no difference |
| `StatusWords.NoteIgnored` | crates/memscribe-core/src/governance_doc.rs:319-328 | a trailing parenthesised note makes no difference |
| `StatusWords.NearSynonymsFold` | crates/memscribe-core/src/governance_doc.rs:286-307 | `implemented`, `final` and `published` fold into `accepted` |
| `DecisionsTable.ParseDecisionsTable` | crates/memscribe-core/src/governance_doc.rs:641-701 | the nested loops give the first table with records |
| `DecisionsTable.ReadRows` | crates/memscribe-core/src/governance_doc.rs:660-692 | the row loop gives the records, rows without epitome left out |
| `DecisionsTable.RowRoundTrip` | crates/memscribe-core/src/governance_doc.rs:703-706 | splitting a rendered row gives its cells back |
| `DecisionsTable.TableRoundTrip` | crates/memscribe-core/src/governance_doc.rs:641-713 | a rendered table reads back as the records its cells describe, in order, whatever stands around it |
| `GovernanceDocModel.QualityAndEffect` | crates/memscribe-core/src/governance_doc.rs:846-1062 | for every input: recall-only iff the state is unknown; effective iff a fully parsed accepted decision record; a document with the whole word `tbd` is not classified |
| `GovernanceDocModel.EffectiveExactly` | crates/memscribe-core/src/governance_doc.rs:846-1062 | which documents come out effective |
| `GovernanceDocModel.ProseHoldsExactly` | crates/memscribe-core/src/governance_doc.rs:25-31 | code and prose on effectiveness agree iff the status is no near-synonym of accepted |
| `GovernanceWitness.FinalIsEffective` | crates/memscribe-core/src/governance_doc.rs:286-307 | a document declared `final` is effective, which the prose at 111-115 denies |
| `ChatAdapterModel.ChatAdapter.ParseRecord` | crates/memscribe-adapters/src/opencode.rs:119-145 | one flat record leaves exactly the context and events its operations describe |
| `ChatAdapterModel.ChatAdapter.ParseMessage` | crates/memscribe-adapters/src/opencode.rs:355-469 | a guarded turn, then each call with its result |
| `ChatAdapterModel.ChatAdapter.ParseSessionStart` | crates/memscribe-adapters/src/opencode.rs:321-353 | binds the session before its guard, the project behind it |
| `ChatAdapterModel.ChatAdapter.ParseCalls` | crates/memscribe-adapters/src/opencode.rs:408-467 | the call loop |
| `ChatLaws.RunInvariants` | crates/memscribe-adapters/src/opencode.rs:355-469 | over any stream numbers are dense and recognised ids distinct |
| `ChatLaws.ResultStepExactly` | crates/memscribe-adapters/src/opencode.rs:442-465 | one answered call keeps the outcome map in line with the stream iff its result is emitted under a non-empty id or the map said the same already |
| `ChatLaws.OutcomesMirror` | crates/memscribe-adapters/src/opencode.rs:442-465 | over any stream with distinct guarded ids and no empty call id, the outcome map is what the emitted results say |
| `ChatOutcomes.SharedCallExactly` | crates/memscribe-adapters/src/opencode.rs:442-465 | two messages that answer one call: the map holds the second outcome, the stream the first, so they agree iff the outcomes do |
| `ChatOutcomes.SharedStoreDiverges` | crates/memscribe-adapters/src/opencode.rs:225-465 | a store with two parts for one call, completed and then failed: reported as a success, recorded as a failure |
| `ChatReports.CallsReport` | crates/memscribe-adapters/src/opencode.rs:408-440 | the calls of a message are reported under their new ids, each once and in order |
| `ChatReports.ReportedOnce` | crates/memscribe-adapters/src/opencode.rs:425-440 | over any stream no call id is reported twice |
| `ChatReports.StreamReports` | crates/memscribe-adapters/src/opencode.rs:355-440 | over a stream of distinct record ids the reported calls are the first of each new id among those offered, in order |
| `ChatReports.LossExactly` | crates/memscribe-adapters/src/opencode.rs:355-440 | so they number the distinct ids, and every call is reported iff no id repeats |
| `CtxFirings.ExecFires` | crates/memscribe-adapters/src/opencode.rs:355-469 | operations with distinct unseen guards say everything they hold, in order |
| `CtxFirings.RunFires` | crates/memscribe-adapters/src/opencode.rs:355-469 | so does a whole run |
| `ChatTools.FindOwn` | crates/memscribe-adapters/src/opencode.rs:442-445 | with distinct call ids a call finds its own result and no other |
| `ChatTools.ToolsFire` | crates/memscribe-adapters/src/opencode.rs:408-467 | each call event comes with its result right after it iff it has an outcome |
| `OpenCodeStore.StoreReader.ReadNative` | crates/memscribe-adapters/src/opencode.rs:181-303 | the loops over sessions, messages and parts give the joined records |
| `OpenCodeStore.StoreReader.JoinParts` | crates/memscribe-adapters/src/opencode.rs:233-282 | the part loop keeps text, calls and results of one message |
| `OpenCodeStore.StoreOrderFree` | crates/memscribe-adapters/src/opencode.rs:192-217 | with ids unique in their session, the records do not depend on the order the tables list their rows in |
| `OpenCodeStore.RowOrderShowsExactly` | crates/memscribe-adapters/src/opencode.rs:192-217 | with unique messages and parts they do not iff no two different sessions share an id |
| `OpenCodeLaws.JoinMeaning` | crates/memscribe-adapters/src/opencode.rs:233-282 | the join is made of the message's own parts in part order |
| `OpenCodeLaws.NoLeak` | crates/memscribe-adapters/src/opencode.rs:236-239 | parts of other messages make no difference |
| `OpenCodeLaws.TextJoins` | crates/memscribe-adapters/src/opencode.rs:244-251 | the text is the message's own text parts joined by line feeds, leading empty ones dropped |
| `OpenCodeLaws.StreamIsStore` | crates/memscribe-adapters/src/opencode.rs:225-469 | join then parse: the events are, in order, exactly the turns, calls and results of the rows, each under its own session and message |
| `OpenCodeLaws.OneCallPerToolPart` | crates/memscribe-adapters/src/opencode.rs:252-265 | there is exactly one call per tool part of a user or assistant message |
| `OpenCodeLaws.StorePaired` | crates/memscribe-adapters/src/opencode.rs:266-278 | every result stands right after the call it answers, under the same parent |
| `OpenCodeLaws.EveryCallReported` | crates/memscribe-adapters/src/opencode.rs:252-440 | a message read for the first time reports as many calls as its tool parts have distinct new ids, all of them iff these are distinct and new |
| `OpenCodeLaws.IdlessMessageReportsOne` | crates/memscribe-adapters/src/opencode.rs:252-440 | a message whose tool parts name no call reports one of them, or none if the empty id came before |
| `OpenCodeLaws.IdlessReportedOnce` | crates/memscribe-adapters/src/opencode.rs:252-257 | parts without an id share the empty one, which a whole stream reports once at most |
| `OpenCodeWitness.TwoIdlessParts` | crates/memscribe-adapters/src/opencode.rs:252-440 | a store with two tool parts that name no call: its stream reports one |
| `HermesStore.StoreReader.ReadNative` | crates/memscribe-adapters/src/hermes.rs:182-302 | sessions in order, each with its records |
| `HermesStore.StoreReader.IndexAnswers` | crates/memscribe-adapters/src/hermes.rs:238-245 | the first pass holds exactly the last answer of every call |
| `HermesStore.StoreReader.ReadRows` | crates/memscribe-adapters/src/hermes.rs:238-299 | the two-pass hash join gives the records of the naive reading |
| `HermesStore.StoreOrderFree` | crates/memscribe-adapters/src/hermes.rs:194-218 | with ids unique in their session, the records do not depend on the order the tables list their rows in |
| `HermesStore.RowOrderShowsExactly` | crates/memscribe-adapters/src/hermes.rs:194-218 | with unique message rows they do not iff no two different sessions share an id |
| `HermesStore.LastAnswerMeaning` | crates/memscribe-adapters/src/hermes.rs:238-245 | the answer is the content of the last tool row that names the call |
| `HermesLaws.RecordsOneToOne` | crates/memscribe-adapters/src/hermes.rs:247-299 | records match the rows that are not tool rows one to one and in order; no tool row speaks |
| `HermesLaws.SpokenCounts` | crates/memscribe-adapters/src/hermes.rs:247-250 | no such row is lost or doubled |
| `HermesLaws.StreamIsStore` | crates/memscribe-adapters/src/hermes.rs:207-471 | join then parse: one turn per spoken row, its calls, and after each call its last answer if there is one |
| `HermesLaws.IdlessCallsCollide` | crates/memscribe-adapters/src/hermes.rs:268-272 | the calls of a row that carry no id all get one id, so they are distinct iff there is at most one |
| `HermesLaws.EveryCallReported` | crates/memscribe-adapters/src/hermes.rs:251-440 | a row read for the first time reports as many calls as it has distinct new ids; every call is reported iff its ids are distinct and none came before |
| `HermesLaws.IdlessRowReportsOne` | crates/memscribe-adapters/src/hermes.rs:268-440 | a row whose calls carry no id reports one call, or none if the id came before |
| `HermesLaws.TwoIdlessCalls` | crates/memscribe-adapters/src/hermes.rs:268-440 | a row with two such calls: two are stored, one is reported |
| `CursorStore.RangeIsPrefix` | crates/memscribe-adapters/src/cursor.rs:434-436 | the keys from `p:` up to `p;` are exactly those with prefix `p:` |
| `CursorStore.LoadBubbles` | crates/memscribe-adapters/src/cursor.rs:485-526 | the range lookup returns the prefix filter of the table |
| `CursorStore.SharedKeyExactly` | crates/memscribe-adapters/src/cursor.rs:485-493 | a key can belong to two composers iff one id is the other or extends it by a colon |
| `CursorStore.BubblesDisjoint` | crates/memscribe-adapters/src/cursor.rs:485-493 | so bubble sets are disjoint when no id extends another |
| `CursorStore.RankTable` | crates/memscribe-adapters/src/cursor.rs:533-538 | the table holds the last position of each header |
| `CursorStore.OrderBubbles` | crates/memscribe-adapters/src/cursor.rs:532-554 | sorts the array in place by (last header rank, createdAt, bubbleId) |
| `CursorStore.OrderedMeaning` | crates/memscribe-adapters/src/cursor.rs:528-554 | the same bubbles, named ones first and in header order |
| `CursorStore.OrderIndependent` | crates/memscribe-adapters/src/cursor.rs:532-554 | with unique keys the order of table rows does not show |
| `CursorReader.LoadComposers` | crates/memscribe-adapters/src/cursor.rs:434-482 | the composers with a readable id among the prefixed rows |
| `CursorReader.ReadStore` | crates/memscribe-adapters/src/cursor.rs:313-365 | composers in id order, each with its header and its ordered bubbles |
| `CursorReader.StoreOrderFree` | crates/memscribe-adapters/src/cursor.rs:313-365 | the whole reading is independent of row order |
| `CursorReader.RowOrderShowsExactly` | crates/memscribe-adapters/src/cursor.rs:330-334 | the reading is independent of row order, as the comment says, iff composers that share an id give the same records |
| `CursorAdapterModel.CursorAdapter.ParseRecord` | crates/memscribe-adapters/src/cursor.rs:220-287 | one record leaves exactly the context and events its operations describe |
| `CursorAdapterModel.CursorAdapter.CollectBlocks` | crates/memscribe-adapters/src/cursor.rs:877-901 | the block loop keeps non-empty texts and numbered tool calls |
| `CursorAdapterModel.CursorAdapter.ParseMessage` | crates/memscribe-adapters/src/cursor.rs:913-1066 | a guarded turn, then calls, results and edits, each behind its own guard |
| `CursorLaws.RunInvariants` | crates/memscribe-adapters/src/cursor.rs:220-287 | over any stream numbers are dense and recognised ids distinct |
| `CursorLaws.ResultStepExactly` | crates/memscribe-adapters/src/cursor.rs:1004-1028 | one result keeps the outcome map in line with the stream iff it is emitted under a non-empty id or the map said the same already |
| `CursorLaws.OutcomesMirror` | crates/memscribe-adapters/src/cursor.rs:1004-1028 | over any stream with distinct guarded ids and no empty call id, the outcome map is what the emitted results say |
| `CursorLaws.AnsweredTwiceDiverges` | crates/memscribe-adapters/src/cursor.rs:1004-1028 | one record with two results for a call: the stream says it succeeded, the map that it failed |
| `CursorLaws.RecordStamps` | crates/memscribe-adapters/src/cursor.rs:244-256 | whatever ran before, a record's events carry the session it names, else the one in force |
| `CursorLaws.SessionsTracked` | crates/memscribe-adapters/src/cursor.rs:244-256 | sessions never bleed: in any stream, an event carries the session of the last record up to its own that names one, else the initial one |

## Left out

- The p-value of a correlation (`erfc`, `exp`) and IEEE rounding: proportions are exact rationals, and phi is the six-decimal number whose square brackets phi squared.
- Wrap-around of 64-bit counters and of sequence arithmetic: counters are natural numbers; node preparation assumes sequence numbers that fit 64 bits.
- The JSON reader and writer: texts are read by `Host.fromJson`; the stream theorems of OpenCode and Hermes assume that the records written by the join read back as themselves.
- The content hash: any function; the lemmas of `CodexEdits` assume that it is injective, and `OtelRuns.DenseIffNoRepeat` also that it prints no colon.
- The readers of timestamps and the keyword sniff of free-text tool output: `Host.parseTs` and `Host.textIsOk`.
- Regular expressions of the governance classifier (pipe-separated status, title suffix, document id): `GovernanceDocModel.Patterns`.
- `classify_commit`, `split_coordinated` and the polarity analysis: `GitMine.Oracle`; the segmenter, the gate, redaction and the pipeline around them are not part of this model, and neither are `segmenter.rs` and `node.rs`, whose record fields are taken from their use.
- SQLite access, discovery, environment variables, sinks, the command line and the live tail: no logic to prove. Tables are sequences of rows, and rows that the driver cannot read are not in them.
- `normalize_bubble` and `normalize_tool` of the Cursor reader: field copying from a bubble to a flat record; `CursorReader.ReadStore` stops before it.
- Copilot, Gemini, Windsurf, VS Code and Zed adapters, schema fingerprints, the registry and `stub_parse`: the same context pattern, or finite tables.
- The range limits of the time crate, beyond the requirement that a commit epoch leaves room for one more second.
- OtelLaws.ShapesGiveSameKinds: is stated for integers encoded as JSON numbers; with decimal strings raw JSON attributes keep the string, so only unsigned attributes agree (`OtelLaws.ShapesAgreeOnU64`).
- CursorReader.StoreOrderFree: asks for distinct composer ids, because composers that share an id stay in row order; `CursorReader.RowOrderShowsExactly` says when that shows.
- OpenCodeStore.StoreOrderFree: asks for ids that are unique in their session, because rows that share an id stay in table order; `OpenCodeStore.RowOrderShowsExactly` says when that shows for sessions.
- HermesStore.StoreOrderFree: asks for the same; `HermesStore.RowOrderShowsExactly` says when that shows for sessions.
- OpenCodeStore.RowOrderShowsExactly: asks for unique messages and parts, which are primary keys of their tables.
- HermesStore.RowOrderShowsExactly: asks for unique message rows, for the same reason.
- GitMineLaws.EpisodeBindsLast: asks for distinct 12-character sha prefixes, because commits that share one share a session; `GitMineLimits.BindsOwnExactly` says what happens then.
- GitMineLaws.BindingsStayInCommit: asks for the same.
- GitMineLaws.CommitsInOrder: asks for at most 1000 parts a commit, because a longer one runs into the numbers of the next.
- Windows paths: `Paths.Components` splits at the forward slash only.
