# fmtkit, modelled and proved

fmtkit formats and lints a work tree. What makes it hard to get right is not the formatting, which other libraries do, but what it does
around them: it skips files and directories because something vouches for them, it runs a helper process over one pipe, it rewrites programs
in steps and checks each one, and it splices text. This project models those parts and proves what they are for. `dafny verify
dfyconfig.toml` checks all of it.

**Watching and remembering** (`Kernels`, `Kqueue`, `Watches`, `Watching`, `WatchRuns`, `Rootedness`, `Doubts`; `Sightings`, `Listings`,
`Finds`, `Memories`, `Walks`, `Histories`, `StaleStores`, `WatchedWalks`; `Caches`). A long-lived process does not look at files that a
kernel watch, a stored listing or a settled stamp vouches for. The file system is a graph of inodes and names, the environment may do
anything between any two calls, and the kernel's contract is a hypothesis: it reports changes of watched inodes and of their names. Proved:
what is not looked at is what a full comparison, a full walk or a read would find, over any number of runs and any interleaving, and for
what exactly.

**The Go helper** (`Tickets`, `Protocol`, `ProtocolRuns`; `Wire`, `WireRoundTrip`, `RustCodec`, `GoCodec`, `GoldenFrames`). Client and
helper are one transition system: pending map, outbox, pipes, jobs, workers, replies, crashes and failing writes. Proved over every
interleaving: each ticket has at most one answer and it is its own, also after ids wrap; the first failure stays; the helper's bounded
queues never deadlock; shutdown answers what was asked, and a helper that is gone leaves no request waiting. Below it, both codecs are
proved against one format, in both directions, and that format against the repository's golden files.

**Programs that stay the same** (`Fingerprint`, `Walker`, `FreeForms`, `Passes`, `Reorders`, `Sameness`, `SameForms`, `SamePrograms`,
`LogicalOperators`, `LogicalChains`; `ConstRuns`, `ConstReorder`, `ConstActs`, `ConstIff`). The fingerprint walker's stack machine computes
a recursive normal form, for any hash; body wrapping and the reorders keep it; two programs have one fingerprint exactly when they differ by
no more than what the steps own, said of their syntax trees alone; equal forms of logical expressions evaluate alike; and it is settled
exactly which runs of consts that may be reordered end in the same state. The hash is a parameter, and equality of forms follows from
equality of hashes only where the hash is assumed free of collisions.

**Loops, edits and text** (`Pipeline`, `Traces`, `HostLoop`, `StepNames`; `Sorting`, `EditSets`, `LintFixes`; `Complexity`, `Counts`,
`ScoreParts`, `Scoring`; `Placeholders`, `RawBlocks`, `RawRestore`, `RawScan`, `RawRespace`, `RawStays`, `RawAgain`, `RawRounds`,
`RawWritten`; `TypeOrder`, `DeclRegions`, `Rewrites`, `Embeds`). The format loop's budgets and fixed point with parsing, fingerprints and
steps as parameters; edit sets and the fix loop built on them; the one-pass complexity scorer against a naive walk of each function;
scanning for raw blocks, masking and restoring them over and over, and mapping offsets back; the Go source splicing.

Code that changes things step by step is a class or a loop here, proved against a function or a predicate; code made of expressions is
functions. Text is a sequence of characters, a path a sequence of names.

## Where the code falls short of what it says

Each is kept as the code has it, with an input that shows it and the condition under which the promise holds.

- A watch is only as good as the directories above it. When a directory cannot be watched, because it cannot be read or was replaced while
  it was being added, what is below it can change unseen although it is registered (`Rootedness.Unnoticed`). Registrations hold exactly
  when each has its parent registered (`Rootedness.StandsIffRooted`). `covers` asks for that entry by entry, so comparisons go on being
  right where it fails (`WatchRuns.Session`); the walk's clean directories are promised only while no directory is missing.
- That guard has one gap. When such a directory can be watched in a later run, `covers` begins to trust what was registered below it
  before, without looking whether it still is what was registered. Watching a directory is right exactly when nothing below it was waiting
  for it (`Doubts.AdoptingIsRightIff`); otherwise a later change can be missed (`Doubts.ChangeIsMissed`). What this concerns is in doubt,
  and comparisons are right for everything else; nothing is in doubt until this happens (`Watching.StaysCertain`).
- `trusted` in the walk is documented as "every ignore file above it is unchanged since the listing was stored". That fails after a run
  with a narrower filter (`StaleStores.NarrowRunGoesStale`) and after one that met an ignore file written within the last two seconds
  (`StaleStores.JustWrittenRulesGoStale`). It holds after exactly the runs of `Memories.SavedIsCoherentIff`, and over whole histories that
  share a filter and in which nothing comes back: no stamp, no repository boundary, no ignore file that was not there for long enough to
  settle (`Histories.NeverBack`, `Histories.Runs`).
- Saving drops the store when a rules file outside the tree was just written, by its modification time; trusting it also looks at the
  change time. So a store filtered by rules whose file was just replaced by an older one is kept, and a later run replays a stale listing
  from it (`StaleStores.ReplayGoesStale`). What a save keeps is truthful exactly when both times have settled
  (`StaleStores.KeptIsTruthfulIff`).
- A `Fresh` of the cache that is held over the start of another run, and a path that is swapped for another file between its stamp and its
  read, lead to hits with another file's outcome (`Caches.HeldOverHits`, `Caches.SwappedHits`). Remembering is right exactly when the
  stamp is dropped anyway, or the bytes are those of the stamped file and one of its times had settled when it was looked up
  (`Caches.RightToRememberIff`). Settling by modification time alone is exact only while nobody sets modification times back
  (`Caches.StandsAgainstBackdating`).
- Reordering consts takes templates and object spreads for free of side effects, but they convert objects and run getters. Two templates
  that convert an object which counts end with each other's values (`ConstIff.CountedAreExchanged`). An accepted run is safe exactly when
  nothing that moves, or is moved past, may convert an object (`ConstIff.ReorderIsRightIff`).
- A type is reported when it comes late among the declarations in the order they begin in, and a `//go:embed` group that is matched to a
  variable further down makes that variable begin there. So the rewrite can move a variable while nothing is reported
  (`TypeOrder.UnreportedYetMoved`), exactly when such a group is before an earlier declaration (`TypeOrder.UnreportedIsUnmovedIff`).
- The clamp in `declSourceRegions` is documented as a safeguard, because a doc comment cannot reach back past the declaration before. A
  group of directives that was attached to a variable can. The clamp acts exactly when the group begins before the line after that
  declaration (`DeclRegions.ClampActsIff`); the group then stays with what is before it, which does not tear a declaration.
- "Each declaration travels as the literal bytes it was written as" holds exactly when every declaration is the last on its line and the
  last line of the file is ended (`DeclRegions.WholeIffEnded`). Spacing runs before gofmt, so neither is given: a type at the end of a
  file without a final line break is moved without its closing line (`Rewrites.TypeIsTorn`).
- A round whose steps undo each other counts as one that changed nothing, since only the text is compared
  (`Traces.ThereAndBack`). A round returns its input as unchanged exactly when no step has anything to say about it or the changes lead
  back to it (`Traces.UnchangedIff`).
- `allocate_id` never returns when all 2^32 - 1 ids are pending (`Tickets.FreeUnlessFull`).

## Model

| member | source | states |
|---|---|---|
| EditSets.OrderedIsPermutation | crates/core/src/edit.rs:110-112 | Ordering keeps every edit exactly once, each under its own position; starts ascend, then ends, and edits of the same range keep the order they were pushed in. |
| EditSets.NeighboursSuffice | crates/core/src/edit.rs:114-121 | In that order, if no edit overlaps the next one, no two edits of the whole set overlap, and each begins where the one before has ended. |
| EditSets.EditSet.Apply | crates/core/src/edit.rs:108-139 | Succeeds exactly when no two edits overlap; then each offset of the source becomes what was inserted there in the order of pushing, what replaces the text that begins there, and the character itself if nothing replaces it; a conflict names two edits of the set that do overlap. |
| EditSets.EditSet.Splice | crates/core/src/edit.rs:123-138 | The splicing loop with its cursor gives the same text as replacing one range after another from right to left. |
| EditSets.RightToLeftAppends | crates/core/src/edit.rs:127-136 | Edits that lie before a tail of the text leave the tail as it was. |
| EditSets.RightToLeftEdits | crates/core/src/edit.rs:123-138 | Replacing from right to left gives, offset by offset, what was inserted there, what replaces the text there, and else the character itself. |
| EditSets.OrderedEdits | crates/core/src/edit.rs:108-112 | Ordering edits that do not overlap leaves that text as it is: of insertions at one offset the order of pushing stays. |
| EditSets.EditSet.RetainNonOverlapping | crates/core/src/edit.rs:92-104 | What is kept is the greedy choice in the order of preference: a pairwise disjoint part of the set, and maximal, as each edit left out overlaps one that is kept and comes before it. |
| EditSets.GreedyIsSorted | crates/core/src/edit.rs:92-104 | The kept edits are left in the order of preference. |
| EditSets.UnopposedStays | crates/core/src/edit.rs:97-101 | An edit that overlaps none is kept as often as it was pushed. |
| EditSets.GreedyDrops | crates/core/src/edit.rs:97-101 | An edit that overlaps a kept one stays left out of a greedy choice as the choice grows. |
| EditSets.EditSet.Normalize | crates/core/src/edit.rs:84-88 | Keeps, in push order, the edits that change the text, each once. |
| EditSets.NormalizedIsStable | crates/core/src/edit.rs:84-88 | A set without no-ops and duplicates is left alone by normalizing. |
| EditSets.NormalizedDisjoint | crates/core/src/edit.rs:84-88 | Normalizing never turns a set that can be applied into one that conflicts. |
| LintFixes.NewUnit | crates/lint/src/oxc_bridge.rs:226-233 | A unit spans exactly its edits, with an edit at either end of it, and no edits make no unit. |
| LintFixes.ChosenIsDisjoint | crates/lint/src/lib.rs:107-122 | The edits of the chosen units are pairwise disjoint and in range when each unit's own are, and lie past the end given. |
| LintFixes.ChosenNext | crates/lint/src/lib.rs:112-119 | A unit is chosen exactly when it starts past the end of the last one chosen before it. |
| LintFixes.TriedInOrder | crates/lint/src/lib.rs:107-108 | Every unit is tried once, by start and then by end. |
| LintFixes.ApplyFixes | crates/lint/src/lib.rs:107-127 | Applying the chosen fixes never conflicts; nothing is returned only when the text would be the same. |
| LintFixes.FixedIsEdited | crates/lint/src/lib.rs:107-127 | The result is the text edited offset by offset with the chosen edits that change something, each once. |
| LintFixes.RoundsKeepParsing | crates/lint/src/lib.rs:77-97 | However many rounds run, the text parses exactly when the source did, and a source that does not parse is left alone. |
| LintFixes.Lint | crates/lint/src/lib.rs:64-103 | The diagnostics are those of exactly the text that is returned, after at most ten rounds; the text parses when the source did, and is only reported as fixed when it differs. |
| StepNames.Union | crates/ts/src/pipeline.rs:139-143 | The names of several rounds, each once, in the order they first came up. |
| StepNames.InOrderOfAppearance | crates/ts/src/pipeline.rs:139-143 | Of the names of all changes each is kept once, and they stand in the order in which each first came up. |
| Pipeline.RunRound | crates/ts/src/pipeline.rs:184-264 | The budgeted loop computes the schedule's round, parsing at most one text more than the budgets add up to. |
| Traces.RoundHasTrace | crates/ts/src/pipeline.rs:184-264 | A round that formats is a chain of changes: each is what the first stage that may act, from where the round stands, proposes as another text; no stage before it proposes one or refuses, and every text parses to the fingerprint of the first. |
| Traces.TraceDecides | crates/ts/src/pipeline.rs:184-264 | Such a chain, with nothing left to change at its end, is what the round does; there is no other. |
| Traces.UnchangedIff | crates/ts/src/pipeline.rs:184-264 | A round returns its input with no step applied exactly when the input parses and no stage that may act proposes another text or refuses, or the changes lead back to the input and end there. |
| Traces.ThereAndBack | crates/ts/src/pipeline.rs:184-264 | Two steps of which one undoes the other: the round reports no change although both acted. |
| Pipeline.RoundKeeps | crates/ts/src/pipeline.rs:181-212 | A round's output parses to the input's fingerprint; no step is reported exactly when the output is the input; an input that parses never ends in a syntax error. |
| Pipeline.FullSchedule | crates/ts/src/pipeline.rs:69-92 | One round of the full schedule parses at most 37 texts. |
| Pipeline.FullOrder | crates/ts/src/pipeline.rs:69-98 | The full schedule is the four structural passes, the formatter, the three fluent passes and the four structural passes again. |
| Pipeline.FormattingTwice | crates/ts/src/pipeline.rs:127-151 | A result is a fixed point of the round, and running again returns it unchanged with no step applied. |
| Pipeline.GivesUpExactly | crates/ts/src/pipeline.rs:134-150 | A run gives up exactly when the first round and each of the three extra ones changed the text. |
| Pipeline.RunKeeps | crates/ts/src/pipeline.rs:116-151 | A whole run keeps the fingerprint of its input, is repeatable, and never blames a parsable input. |
| Pipeline.Run | crates/ts/src/pipeline.rs:127-151 | The outer loop ends after at most four rounds with the fixed point or the failure it stands for. |
| Traces.RunIsSettled | crates/ts/src/pipeline.rs:127-151 | What a run returns parses, and on it no stage that may act proposes another text or refuses, unless changes of it lead back to it. |
| HostLoop.FormatWith | crates/hosts/src/lib.rs:75-99 | The first text that the next round leaves alone is the result; the run gives up exactly when all four rounds change the text, and an unchanged first round is returned as it is. |
| Walker.TakesItself | crates/ts/src/fingerprint.rs:189-196 | A child takes its own span from the bodies of its parent exactly when it is a bare body. |
| Walker.SortRunsOf | crates/ts/src/fingerprint.rs:384-397 | The loop over a list sorts each maximal run of imports or consts and nothing else. |
| Walker.Walker.CloseNode | crates/ts/src/fingerprint.rs:151-177 | The children above the frame's start become one entry, with what is below untouched. |
| Walker.Walker.EnterNode | crates/ts/src/fingerprint.rs:181-236 | Pushes the node's frame, and before it the one of a synthetic block around a bare body, and takes the body's span from the parent. |
| Walker.Walker.LeaveNode | crates/ts/src/fingerprint.rs:238-255 | A transparent node leaves its children, a skipped one none, any other becomes one entry; a bare body's block is closed around it. |
| Walker.Walker.Visit | crates/ts/src/fingerprint.rs:180-255 | For every tree in which the parts of an if or of a loop are at different places, the stack machine computes the recursive normal form: it appends exactly the entries of the node to the shared stack, and otherwise only the body's span is gone from the innermost frame. |
| Walker.FingerprintFile | crates/ts/src/fingerprint.rs:61-81 | The fingerprint is the hash of the root's entries and of the comments as a multiset. |
| FreeForms.HashedEntries | crates/ts/src/fingerprint.rs:5-9 | Hashing on the way up is hashing the normal form: the form does not depend on the hash. |
| FreeForms.EqualPrintsAreEqualForms | crates/ts/src/fingerprint.rs:5-9 | Without collisions, equal hashes are equal normal forms and only those. |
| FreeForms.EqualFingerprints | crates/ts/src/fingerprint.rs:61-81 | Without collisions, files with equal fingerprints have equal normal forms and the same comments up to order. |
| SamePrograms.HeadsDecide | crates/ts/src/fingerprint.rs:5-9 | Tag and payload tell every two kinds of node apart, except where a keyword behind a const, a quoting, a test or a template language is not compared. |
| SameForms.EntriesAreItems | crates/ts/src/fingerprint.rs:189-255 | What a node adds to its parent is what its items come to: itself, or what is below it where it vanishes, words of JSX text, or a block around a bare body. |
| SamePrograms.FormsDecide | crates/ts/src/fingerprint.rs:11-47 | Two nodes have one normal form exactly when they are the same but for what the steps may change. |
| SamePrograms.FingerprintsDecide | crates/ts/src/fingerprint.rs:5-47 | Without collisions, two files have one fingerprint exactly when their programs differ by no more than parentheses, empty statements, chain grouping, wrapped bodies, JSX spacing, the order inside a maximal run of imports or consts, and how the kinds of class members are mixed, and have the same comments up to order. |
| SamePrograms.NeighboursDecide | crates/ts/src/fingerprint.rs:26-28 | Two statements of a program may change places unseen exactly when they are the same, or both are imports, or both are consts. |
| Passes.ExpressionIsOneEntry | crates/ts/src/fingerprint.rs:13-15 | An expression outside a logical chain adds exactly one entry, through any parentheses. |
| Passes.BlockOfOne | crates/ts/src/fingerprint.rs:22-23 | A block of one statement adds what that statement adds as a bare body. |
| Passes.WrapKeepsFingerprint | crates/ts/src/passes/body_wrap.rs:32-66 | Putting any choice of bare bodies in blocks leaves the fingerprint as it is, for every program. |
| Reorders.SortFlat | crates/ts/src/passes/class_reorder.rs:48-50 | Sorting class members by kind and sorting what they hash to is the same, both being stable. |
| Reorders.PermuteInside | crates/ts/src/fingerprint.rs:384-397 | Part of a run may be permuted inside any list without a trace, wherever the maximal run around it begins and ends. |
| Reorders.MovesAreInvisible | crates/ts/src/passes/declaration_reorder.rs:48-95 | Moving single-line entries first in every run leaves the list's normal form as it is. |
| Reorders.ReorderKeepsFingerprint | crates/ts/src/passes/declaration_reorder.rs:15-95 | The class, import and const reorders, wherever they act, leave the fingerprint as it is, for every program. |
| LogicalChains.FormsAreLinks | crates/ts/src/fingerprint.rs:198-206 | What the walk makes of a logical expression is the list of operands of its chains, through parentheses. |
| LogicalChains.LinksEvaluate | crates/ts/src/fingerprint.rs:15-19 | Evaluating that list as a chain, left to right with short-circuiting, gives the expression's value and its trace. |
| LogicalChains.SameFingerprintSameEvaluation | crates/ts/src/fingerprint.rs:15-19 | Logical expressions with equal fingerprints evaluate to the same value with the same effects and stop at the same operand, for every behaviour of the operands. |
| LogicalChains.Regrouping | crates/ts/src/fingerprint.rs:15-19 | Regrouping three operands is invisible exactly when both operators are the same one. |
| ConstRuns.IsUnused | crates/ts/src/passes/declaration_reorder.rs:121-136 | Whether no later single-line declaration mentions a name that a multiline one binds. |
| ConstRuns.CanReorderConsts | crates/ts/src/passes/declaration_reorder.rs:104-137 | The loop with its early returns accepts exactly the runs of plain side-effect-free declarations in which no moved declaration uses a name it would overtake. |
| ConstRuns.SideEffectFreeIff | crates/ts/src/passes/declaration_reorder.rs:139-168 | Exactly the expressions none of whose parts, however deep, has an effect are taken for free of side effects; what stands in the body of a function is not a part. |
| ConstRuns.NamesIff | crates/ts/src/passes/declaration_reorder.rs:167-190 | The names an expression mentions are those of its parts, however deep, labels and function bodies included. |
| ConstReorder.SafeDeclare | crates/ts/src/passes/declaration_reorder.rs:139-168 | A side-effect-free declaration that converts only primitives leaves the world alone and binds the same values in any state alike on what it mentions. |
| ConstReorder.SwapTwo | crates/ts/src/passes/declaration_reorder.rs:104-137 | Two such declarations that do not mention each other may change places. |
| ConstReorder.ReorderKeepsState | crates/ts/src/passes/declaration_reorder.rs:75-79 | If a run is accepted, evaluates without error and is calm, moving its single-line declarations first ends in the same environment and the same world, whatever converting an object does. |
| ConstIff.KeptIsCalm | crates/ts/src/passes/declaration_reorder.rs:104-168 | A run in which a template or a spread in a declaration that is overtaken, or overtakes, may convert an object ends differently for some conversion. |
| ConstIff.ReorderIsRightIff | crates/ts/src/passes/declaration_reorder.rs:104-168 | An accepted run ends as it did, whatever converting an object does, exactly when it is calm or reads one of its names too early to evaluate at all. |
| ConstIff.CountedAreExchanged | crates/ts/src/passes/declaration_reorder.rs:139-168 | Two templates that convert one object which counts its conversions are accepted, and end with each other's values. |
| ConstActs.EvalDiffers | crates/ts/src/passes/declaration_reorder.rs:139-168 | An expression the pass takes for side-effect-free, and in which a template or spread may convert an object, tells two worlds apart. |
| ScoreParts.Deepen | crates/ts/src/complexity/scorer.rs:167-176 | A function scored at a depth is its own score plus that depth once per weighted increment, so subtracting the base is exact and never underflows. |
| ScoreParts.RunsAreMaximal | crates/ts/src/complexity/scorer.rs:291-312 | The runs counted in one walk of a logical tree are the maximal runs of one operator in its in-order sequence. |
| Counts.OperatorsStandBetween | crates/ts/src/complexity/scorer.rs:291-312 | The operators of a logical tree are those between its operands, in source order. |
| Counts.BranchesAreDecisions | crates/ts/src/complexity/mod.rs:5-7 | The cyclomatic number counts the decisions among the nodes a function owns: conditions, loops, catches, cases with a test, logical operators and logical assignments. |
| Counts.CognitiveIsTotal | crates/ts/src/complexity/mod.rs:8-11 | The cognitive score is a sum over the nodes: one and the nesting depth for each structure but an `else if`, one for each `else`, `else if` and labelled jump, and the number of runs of one operator for each chain. |
| ScoreParts.AssignOneMore | crates/ts/src/complexity/scorer.rs:110-149 | The keys of a node's parts, walked one after another, are those of the parts walked together. |
| ScoreParts.NamedApart | crates/ts/src/complexity/scorer.rs:119-132 | Same-named functions on different lines have keys of their own, whatever came between, as long as the name is not the key of something unnamed. |
| ScoreParts.WorstIsMaximum | crates/ts/src/complexity/mod.rs:14-16 | What a key holds is the greatest cyclomatic number among its functions. |
| ScoreParts.ReportedScores | crates/ts/src/complexity/mod.rs:6-16 | Each function that made a key has its own cognitive score there, or the greatest number of 32 bits if that is less, and each key is at least every cyclomatic number that reports under it. |
| Scoring.FunctionFills | crates/ts/src/complexity/scorer.rs:110-184 | Opening a function, walking its body and closing it records that function, scored as if it stood alone, and the functions inside it. |
| Scoring.Scorer.Named | crates/ts/src/complexity/scorer.rs:119-132 | The key of a named function is the one its name and line resolve to in the table so far. |
| Scoring.Scorer.Anonymous | crates/ts/src/complexity/scorer.rs:137-149 | An anonymous function reports under the one around it, or under one common key. |
| Scoring.Scorer.CloseFunction | crates/ts/src/complexity/scorer.rs:160-184 | The deferred subtraction yields the function's own score, which the function around it still sees in full. |
| Scoring.Scorer.IfChain | crates/ts/src/complexity/scorer.rs:269-289 | The leading condition costs one plus the depth, every other link one; depth is back where it was. |
| Scoring.Scorer.LogicalChain | crates/ts/src/complexity/scorer.rs:291-312 | A chain adds a branch per operator and counts the runs behind the operator before it. |
| Scoring.Scorer.Visit | crates/ts/src/complexity/scorer.rs:314-503 | Each visit leaves the depth as it was, adds the node's own naive costs to the innermost function, and records each function below with its naive scores. |
| Scoring.ScoreProgram | crates/ts/src/complexity/scorer.rs:76-100 | One walk gives every key the score of a separate walk of its function and the worst cyclomatic number of its functions. |
| Caches.ReadStands | crates/cache/src/lib.rs:200-221 | A settled stamp, taken before the bytes were read, stands for them even if the file was written in between. |
| Caches.StandsAgainstBackdating | crates/cache/src/lib.rs:258-275 | Where modification times can be set back, a stamp goes on standing for its bytes exactly when the change time has settled too. |
| Caches.Cache.Read | crates/cache/src/lib.rs:200-221 | A hit is the outcome stored under the key of the bytes the file holds at that moment, whether the stamp or the bytes answered; bytes whose outcome is stored always hit, and their stamp is remembered; a miss hands out the bytes and changes nothing. |
| Caches.Cache.Remember | crates/cache/src/lib.rs:258-275 | The path's stamp is pointed at the key it was read with only once it has settled, and what the cache holds still stands. |
| Caches.Cache.PutFresh | crates/cache/src/lib.rs:249-256 | A failed outcome, and in format mode one that changed the file, is never kept; any other is kept with its stamp, and the cache is dirty exactly when something new is kept. |
| Caches.Cache.GetStamped | crates/cache/src/lib.rs:234-247 | A stamp answers exactly when it is the remembered one and its outcome is still stored. |
| Caches.Cache.Flush | crates/cache/src/lib.rs:354-420 | Pruning keeps only stamps whose outcomes are kept. |
| Caches.FlushKeepsUsed | crates/cache/src/lib.rs:354-420 | Within the budget a flush keeps everything, past it exactly the outcomes that were asked for or stored since the one before; each is the one stored last, and unused again. |
| Caches.ReadIsCurrent | crates/cache/src/lib.rs:200-221 | A stamp that will be remembered belongs to the bytes that were read. |
| Caches.RightToRememberIff | crates/cache/src/lib.rs:258-275 | Remembering a file that was looked up is right, whatever the environment did and does, exactly when its stamp is not kept, or the bytes came from the file of the stamp and one of its times had settled by the look. |
| Caches.HeldOverHits | crates/cache/src/lib.rs:147-153 | A file is looked up, held over the start of the next run and put; the following lookup hits with the outcome of bytes the file no longer has. |
| Caches.SwappedHits | crates/cache/src/lib.rs:200-221 | A path names another file while its bytes are read; the following lookup hits with the outcome of bytes the file never had. |
| Kernels.StepKeepsSound | crates/discover/src/watch.rs:1-24 | Whatever the environment does, rooted registrations lead to what is watched or a report is queued that they do not. |
| Kernels.StaysLive | crates/discover/src/watch.rs:1-24 | As long as nothing above it was reported gone, a registered path names what is watched for it. |
| Kqueue.Watcher.Add | crates/discover/src/watch/kqueue.rs:49-92 | No report is lost while paths are opened and registered; afterwards, what was followed holds, and so does what is new with every directory above it registered and none of them later than something below; and if nothing changes meanwhile and no path is refused, everything that is there is watched. |
| Kqueue.Watcher.CheckAll | crates/discover/src/watch/kqueue.rs:70-91 | The identity check drops what a path no longer names, and what is left of the followed paths holds. |
| Kqueue.CheckedIsSound | crates/discover/src/watch/kqueue.rs:70-91 | Registrations checked one after another, each at another moment, hold together at the last one if they are rooted. |
| Kqueue.Watcher.Drain | crates/discover/src/watch/kqueue.rs:113-154 | Each change since the last drain of what is followed is in what is returned, or the paths it concerns are no longer watched; what stays watched holds, with an empty queue; and what was covered is so still, unless it is mentioned. |
| Kqueue.LeftIsReady | crates/discover/src/watch/kqueue.rs:113-173 | Once the queue is empty, forgetting what is reported gone leaves only registrations that hold. |
| Kqueue.Watcher.RetainFiles | crates/discover/src/watch/kqueue.rs:103-111 | Dropping files takes nothing from the paths that are kept. |
| Watches.PickReported | crates/discover/src/git.rs:519-541 | The entries picked are those to recheck and those a report may concern, in index order, each once. |
| Watches.Wanted | crates/discover/src/watch.rs:209-229 | Each picked file is to be watched with every directory above it. |
| Watches.Ancestors | crates/discover/src/watch.rs:258-262 | The directories above a path are exactly its proper prefixes. |
| Watches.SortOut | crates/discover/src/git.rs:480-510 | Suspects are the entries not vouched for; what to recheck are those and the ones no watch covers. |
| Watches.Covers | crates/discover/src/watch.rs:231-235 | A path is covered when it and every directory above it are watched. |
| Watches.QuietRunIsFull | crates/discover/src/git.rs:460-515 | If nothing changes during a run, its suspects are exactly those of a comparison of the whole index, among the entries it looked at and all that are not in doubt. |
| Watching.TakenBaseline | crates/discover/src/watch.rs:119-151 | After a drain, an index entry that is not to be looked at was vouched for at that moment, is named by what was taken, or was in doubt. |
| Watching.StaysCertain | crates/discover/src/watch.rs:231-235 | Whatever is covered is followed, unless a directory was registered above something registered before. |
| Doubts.AdoptingIsRightIff | crates/discover/src/watch/kqueue.rs:49-92 | Watching one more directory leaves everything covered live or reported gone, whatever happened to that directory meanwhile, exactly when it completes what is above nothing registered before. |
| Doubts.ChangeIsMissed | crates/discover/src/git.rs:460-515 | A directory is replaced while only a file in it and the root are watched, and is then watched: the new file is vouched for and covered, and its next change is not reported. |
| Watching.TakenClean | crates/discover/src/watch.rs:119-151 | After a drain, each directory still clean is at that moment what was seen of it. |
| Watching.Watch.Begin | crates/discover/src/watch.rs:119-151 | Taking the reports, giving up on too many, and starting over all lead to a watch that may be relied on for the run, with any registry; nothing is in doubt if all that is covered is followed. |
| Watching.Watch.Pick | crates/discover/src/git.rs:460-480 | Under the index of the last run exactly rechecked and reported entries are picked, otherwise all; every other one was vouched for at the drain, unless it was in doubt. |
| Watching.Watch.WatchedSuspects | crates/discover/src/git.rs:460-515 | With any registry, the suspects are exactly the entries not vouched for, each at its look or else, if not in doubt, at the drain, though under the index of the last run only rechecked and reported entries are looked at; the next run may rely on the watch. |
| Watching.Watch.Refresh | crates/discover/src/git.rs:480-500 | Watching what is looked at, and dropping what the index no longer names, loses no report of what is followed. |
| Watching.Watch.WatchedBeforeIsKept | crates/discover/src/watch.rs:172-177 | A directory followed since before the run is what the walk saw of it, or a report is queued. |
| Watching.Watch.Confirm | crates/discover/src/watch.rs:193-205 | A followed directory watched only now, and still with the stamps the walk saw, may count as clean. |
| Watching.Watch.Settle | crates/discover/src/watch.rs:169-206 | Only directories a walk saw are added to the clean ones; the next run may rely on those that are followed, and on all of them as long as every directory above what is watched is watched too. |
| WatchRuns.RunOnce | crates/discover/src/git.rs:228-257 | One run's suspects, if it compares the index, are right entry by entry, each at a moment of that run, whatever could not be watched; something is in doubt afterwards only if the run registered a directory above something registered before. |
| WatchRuns.Session | crates/discover/src/git.rs:80-103 | Over any number of runs, some that compare the index and some that only walk, each interleaved with any changes, until watching stops: every comparison is right at moments after the run before it; nothing is in doubt before some run registered a directory above something registered earlier; and clean directories are what was seen as long as every directory above what is watched could be watched. |
| WatchedWalks.CleanSightsAreTrue | crates/discover/src/walk/git.rs:148-155 | What the watch vouches for once the reports are taken is true of the tree the walk sees. |
| WatchedWalks.TrueSightsAreSeen | crates/discover/src/walk/git.rs:105-126 | What the walk tells the watch was there at moments since the reports were taken. |
| WatchedWalks.WatchedRun | crates/discover/src/git.rs:80-103 | One run with a watch and a memory, while the environment moves: the tree is what its walk saw, each directory at a moment of its own; if nothing came back, the walk, which replays stored listings and what the watch vouches for, finds what looking at everything in that tree would, and watch and memory stand for the next run. |
| WatchedWalks.WatchedRuns | crates/discover/src/git.rs:80-103 | Over any number of runs that share a watch and a memory, each finds what looking at everything would in what its walk saw, after every history of the moments at which the runs took place in which, up to that run, nothing had come back and settled stamps meant what they always do. |
| Rootedness.Unnoticed | crates/discover/src/watch/kqueue.rs:49-92 | A directory that is not registered, though something below it is, can be replaced without a report. |
| Rootedness.StandsIffRooted | crates/discover/src/watch.rs:231-235 | Registrations that hold go on holding or are reported, whatever the environment does, exactly when each has the directory above it registered. |
| Listings.DeepestDecides | crates/discover/src/walk/git.rs:259-273 | The deepest layer that decides on a path has the say, and what is outside the tree only when none does. |
| Listings.IsIgnored | crates/discover/src/walk/git.rs:259-273 | The loop up the layers decides as the layers do in that order. |
| Listings.Keep | crates/discover/src/walk/git.rs:236-246 | A listing keeps the names that are not ignored, in order. |
| Finds.FindsExactly | crates/discover/src/walk/git.rs:105-203 | A full walk finds a path exactly when its name is among the files of a directory that is there and entered with every directory above it, none of them ignored or another repository, and the path itself is not ignored; and as often as its name is listed. |
| Memories.ReplayIsCurrent | crates/discover/src/walk/git.rs:105-126 | A stored listing whose stamps fit, made under the ignore files that are above it now, is what listing the directory now would yield. |
| Memories.SaveKeepsCoherence | crates/discover/src/memory.rs:195-233 | If what lies below changed rules was listed again, and what was listed has the current rules stored above it, a save keeps the store coherent. |
| Memories.SavedIsCoherentIff | crates/discover/src/memory.rs:216-224 | For a store with every listing's parents in it, exactly those runs keep it coherent. |
| Memories.FewerIsCoherent | crates/discover/src/memory.rs:213-222 | Dropping listings past the budget keeps a store coherent. |
| Memories.Memory.Begin | crates/discover/src/memory.rs:143-151 | The store is trusted exactly when it was made under the same settled rules outside the tree. |
| Memories.Memory.Save | crates/discover/src/memory.rs:195-233 | What is stored after a run, and that it is truthful if the rules in force were those their settled stamps stand for, or nothing is kept. |
| Walks.WalkedStep | crates/discover/src/walk/git.rs:166-178 | A directory that is listed, entered and there is walked, if the one above it is. |
| Walks.Walk.Vouched | crates/discover/src/walk/git.rs:148-155 | The watch vouches only for the stored listing with the stamps that were seen. |
| Walks.Walk.Stored | crates/discover/src/walk/git.rs:105-126 | A stored listing is taken exactly when the directory is trusted and the stamps of the directory and of its ignore file fit. |
| Walks.Walk.Visit | crates/discover/src/walk/git.rs:105-146 | If what is remembered stands and the watch vouches rightly, a walk with its memory finds below any directory what the walk that lists everything finds, in the same order; whether or not they do, what it tells the watch is what it saw. |
| Walks.EntersAllRelists | crates/discover/src/walk/git.rs:105-146 | A run that enters every directory there is a listing of relists what it must. |
| Walks.Run | crates/discover/src/walk/git.rs:53-96 | A run over a coherent store finds what a full walk does, and one that enters everything leaves a coherent store. |
| Histories.WalkedFrom | crates/discover/src/walk/git.rs:166-178 | What is walked was listed by the directory above it, which is no nested repository, and entered. |
| Histories.StillSure | crates/discover/src/walk/git.rs:100-105 | After any history in which nothing comes back, each listing that a run may replay was made under the ignore files that are there. |
| Histories.StillWalked | crates/discover/src/walk/git.rs:105-178 | A stored directory that is still there, with the rules above it stored as they are, is walked unless they ignore it. |
| Histories.SaveStays | crates/discover/src/memory.rs:195-233 | A save leaves only listings made under the rules stored above them, or that no later run will meet. |
| Histories.RunAgain | crates/discover/src/memory.rs:137-233 | After any history, what one more run saw is true; and if nothing came back and settled stamps mean what they always do, it finds what looking at everything finds, and the memory stands for the run after it. |
| Histories.Runs | crates/discover/src/walk/git.rs:105-146 | Over any number of runs with one filter, each run finds what looking at everything would if, up to that run, nothing that was found otherwise had come back and settled stamps meant what they always do, those of rules outside the tree by the time they were written. |
| Histories.ComesAndGoes | crates/discover/src/walk/git.rs:137-140 | An ignore file, the only thing in a work tree, that is made and deleted between runs brings nothing back, if the run that met it found it settled and the directory has a stamp of its own afterwards. |
| StaleStores.NarrowRunGoesStale | crates/discover/src/memory.rs:216-224 | A run that enters less stores a directory's new rules without what they make of a sibling, whose stale listing then passes for current. |
| StaleStores.JustWrittenRulesGoStale | crates/discover/src/memory.rs:174-179 | An ignore file that was just written filters what is remembered below its directory, while the directory itself is not remembered; when it is gone again, the stale listing passes for current. |
| StaleStores.KeptIsTruthfulIff | crates/discover/src/memory.rs:201-207 | Every store that a save keeps is truthful exactly when the rules outside the tree had settled, change times included, while the save asks for the times they were written only. |
| StaleStores.ReplayGoesStale | crates/discover/src/memory.rs:195-207 | One run stores what it listed by rules that were changed just now but written long ago; they change again within the tick, and the next run replays the stale listing. |
| Tickets.AllocateId | crates/go/src/client.rs:311-324 | The counter stops at the first free id from where it is, skipping zero and wrapping at 2^32. |
| Tickets.FreeUnlessFull | crates/go/src/client.rs:311-324 | The loop ends exactly when fewer than 2^32 - 1 ids are pending. |
| Tickets.Shared.Submit | crates/go/src/client.rs:187-222 | A request that is too large is answered at once, one after a failure is refused with it, and any other is registered under a free id. |
| Tickets.Shared.FailAll | crates/go/src/client.rs:327-338 | The first failure stays, and every pending request is answered with it. |
| Tickets.Shared.DeliverReply | crates/go/src/client.rs:340-350 | A reply answers the request registered under its id; any other id is a protocol failure. |
| Tickets.RegisterKeeps | crates/go/src/client.rs:187-222 | A registered request keeps one open mailbox for each pending id and none twice. |
| Tickets.DeliverKeeps | crates/go/src/client.rs:340-350 | Delivering keeps each ticket answered once at most, with its own reply. |
| Protocol.StepKeepsFlow | go/helper/main.go:50-169 | In every step of either process, each pending id has exactly one frame on its way, unless some were lost. |
| Protocol.RegisteredFits | crates/go/src/client.rs:311-324 | An id that is taken again after wrapping has no old frame left that could be taken for its own. |
| Protocol.StepKeepsRight | go/helper/main.go:50-169 | In every step, each frame on its way under a pending id is for the request registered under it. |
| ProtocolRuns.StepKeepsOrder | go/helper/main.go:104-131 | Shutdown and the end of the stream stay behind every request. |
| ProtocolRuns.StepKeepsInv | crates/go/src/client.rs:187-465 | Every step of every thread of both processes keeps the invariant. |
| ProtocolRuns.SubmittedWaits | crates/go/src/client.rs:187-222 | A request within the limit, before any failure, waits under its id with exactly one new frame on its way, its own; nothing else changes. |
| ProtocolRuns.SubmittedEnds | crates/go/src/client.rs:187-203 | A request over the limit is answered at once and sends nothing; one after a failure changes nothing. |
| ProtocolRuns.StepIsLater | crates/go/src/client.rs:327-350 | No step changes the first failure or an answer once given. |
| ProtocolRuns.RunKeepsInv | crates/go/src/client.rs:187-465 | Over any interleaving, the invariant holds, and failures and answers stay. |
| ProtocolRuns.AnswersAreOwn | crates/go/src/client.rs:187-222 | In every reachable state each ticket has at most one answer: the helper's reply to its own request, the first failure, or, exactly when the request is over the limit, that it was too large. |
| ProtocolRuns.FailureIsFinal | crates/go/src/client.rs:327-338 | Once there is a failure it stays the first one, nothing is pending, and every later request is refused with it. |
| ProtocolRuns.CleanEndIsComplete | crates/go/src/client.rs:226-254 | When the helper ends without loss or failure, it was asked to, and every request within the limit has its own reply. |
| ProtocolRuns.SomethingMoves | go/helper/main.go:50-131 | While requests are pending and nothing was lost, some thread can move a frame on, however full the helper's bounded queues are and as long as the pipes take what is written. |
| ProtocolRuns.MovesArrive | go/helper/main.go:50-169 | Each such move brings the frames nearer to their answers and loses none. |
| ProtocolRuns.EveryRequestIsAnswered | go/helper/main.go:50-131 | So a bounded number of moves gives every request within the limit its own reply. |
| ProtocolRuns.GoneIsSettled | crates/go/src/client.rs:417-463 | Once the helper is gone, or frames were lost, the reader alone settles every request: what arrived is delivered, every other request fails with why the helper ended, and the reader stops. |
| ProtocolRuns.CrashIsGone | crates/go/src/client.rs:226-254 | The helper may crash at any moment, with whatever is in it; it is then gone. |
| WireRoundTrip.ManyRoundTrip | crates/go/src/proto.rs:324-355 | Elements written one after another are read back in order, whatever follows them. |
| WireRoundTrip.GuardIsExact | crates/go/src/proto.rs:409-417 | The bound on a list's count turns away only lists that could not be read to the end anyway. |
| WireRoundTrip.ReplyRoundTrip | crates/go/src/proto.rs:166-194 | A reply is read back as it was written, whatever follows it. |
| WireRoundTrip.RequestRoundTrip | crates/go/src/proto.rs:154-164 | A request is read back as it was written, whatever follows it. |
| WireRoundTrip.PayloadCanonical | crates/go/src/proto.rs:293-355 | A payload that is accepted is byte for byte the encoding of what it was decoded to. |
| WireRoundTrip.FrameRoundTrip | crates/go/src/proto.rs:127-147 | Every frame within the limit is decoded to itself and its length, whatever follows it. |
| WireRoundTrip.FrameCanonical | crates/go/src/proto.rs:240-252 | What is decoded is exactly the bytes used, and within the limit. |
| WireRoundTrip.SubmittedIsAccepted | crates/go/src/proto.rs:149-152 | A request that passes the size check is as long as predicted and accepted on the other side. |
| GoldenFrames.HelloIsGolden | crates/go/src/proto.rs:434-481 | The greeting of the repository's golden files is encoded to that file, byte for byte. |
| GoldenFrames.ProcessIsGolden | crates/go/src/proto.rs:434-481 | So is the request, with its three texts and five flags. |
| GoldenFrames.ReplyIsGolden | crates/go/src/proto.rs:434-481 | So is the reply with its three lists. |
| GoldenFrames.ErrorIsGolden | crates/go/src/proto.rs:434-481 | So is the reply that is only an error, under the greatest id. |
| GoldenFrames.ShutdownIsGolden | crates/go/src/proto.rs:434-481 | So is the shutdown. |
| RustCodec.Encode | crates/go/src/proto.rs:127-147 | Appending, then patching the length, writes exactly the frame's bytes behind what was there. |
| RustCodec.Decode | crates/go/src/proto.rs:240-252 | The cursor accepts exactly the frames of the format and says how many bytes they took. |
| RustCodec.DecodeBody | crates/go/src/proto.rs:293-311 | A body is decoded by its kind, and only if nothing is left over. |
| RustCodec.Stream.Fill | crates/go/src/proto.rs:254-278 | Reading in pieces of any size, through interruptions, yields the stream's bytes in order, fewer only at its end. |
| RustCodec.Stream.ReadFrame | crates/go/src/proto.rs:254-278 | The chunked reader accepts exactly what decoding the whole stream accepts, leaves the rest, and tells a clean end from a cut frame. |
| GoCodec.Decoder.ReadCount | go/helper/proto/proto.go:376-390 | After a failure the decoder stays failed and returns nothing; before one it reads the count the format has. |
| GoCodec.DecodeRequest | go/helper/proto/proto.go:197-216 | The decoder with its sticky error accepts exactly the payloads that are requests and nothing more. |
| GoCodec.AcceptRequest | go/helper/proto/proto.go:197-216 | A payload is accepted exactly when it is the encoding of some request, and then of the one returned. |
| GoCodec.AcceptReply | go/helper/proto/proto.go:252-280 | A payload is accepted exactly when it is the encoding of some reply, and then of the one returned. |
| GoCodec.EncodeReply | go/helper/proto/proto.go:218-250 | The helper's encoding of a reply is the client's. |
| GoCodec.EncodeRequest | go/helper/proto/proto.go:181-195 | The helper's encoding of a request is the client's. |
| GoCodec.RepliesAreRead | go/helper/proto/proto.go:147-161 | The frame a worker sends is one the client reads back as that reply. |
| GoCodec.ReadFrame | go/helper/proto/proto.go:112-145 | The helper's reader splits a stream into the same frames as the client's. |
| TypeOrder.DesiredIsStable | go/helper/spacing/typeorder.go:208-255 | The wanted order is a permutation in which types keep their order and so does everything else. |
| TypeOrder.AnchorsStay | go/helper/spacing/typeorder.go:241-252 | An anchored declaration stays at its place, with the same declarations before it. |
| TypeOrder.WantedIffInOrder | go/helper/spacing/typeorder.go:208-293 | Among declarations in the order they begin in, nothing would move exactly when no type comes late. |
| TypeOrder.UnmovedIff | go/helper/spacing/typeorder.go:74-90 | A file stays as it is exactly when its declarations are in the order they begin in, directives included, and no type comes late among them. |
| TypeOrder.UnreportedIsUnmovedIff | go/helper/spacing/typeorder.go:36-90 | A file in which no type is reported stays as it is exactly when no directive is before an earlier declaration than its own. |
| TypeOrder.UnmovedIsUnreported | go/helper/spacing/typeorder.go:36-68 | Nothing is reported of a file that stays as it is. |
| TypeOrder.UnreportedYetMoved | go/helper/spacing/embeds.go:24-36 | A directive, a type, then the variable of the directive: nothing is reported, and the variable moves. |
| TypeOrder.DesiredIsIdempotent | go/helper/spacing/typeorder.go:208-255 | Ordering a second time changes nothing. |
| TypeOrder.Order | go/helper/spacing/typeorder.go:218-255 | The loop that fills and flushes segments computes the wanted order. |
| TypeOrder.IsOutOfOrder | go/helper/spacing/typeorder.go:267-293 | The scan reports exactly the orders in which a type comes after something else before the next barrier. |
| TypeOrder.DesiredFilePermutes | go/helper/spacing/typeorder.go:208-255 | With its imports a file keeps every declaration once. |
| DeclRegions.LineStartIs | go/helper/spacing/gaps.go:544-566 | Looked up in the table, the start of an offset's line is at a line break or the start of the file, with no break in between. |
| DeclRegions.NextLineIs | go/helper/spacing/gaps.go:556-566 | The start of the next line is right after the first break behind the offset. |
| DeclRegions.NoNextLine | go/helper/spacing/gaps.go:556-566 | Past the last line, the table gives the start of the last line and not the end of the file. |
| DeclRegions.LinesApart | go/helper/spacing/typeorder.go:143-150 | With a break between two offsets, the line after one begins no later than the line of the other. |
| DeclRegions.ClampActsIff | go/helper/spacing/typeorder.go:143-150 | The clamp acts exactly when the comment begins before the line after the declaration before; a region has its comment exactly when the comment follows that declaration. |
| DeclRegions.StartIs | go/helper/spacing/typeorder.go:129-150 | Each region begins a line, between the line after the declaration before and the line after its own. |
| DeclRegions.Starts | go/helper/spacing/typeorder.go:129-153 | The loop with its clamp gives every region the start that is meant. |
| DeclRegions.Regions | go/helper/spacing/typeorder.go:129-170 | For any declarations, regions begin and end at line breaks, each ends where the next begins, and each has its comment exactly when that follows the declaration before; all declarations are whole exactly when each ends its line. |
| DeclRegions.WholeIffEnded | go/helper/spacing/typeorder.go:123-170 | Every declaration is whole in its region exactly when there is a line break between it and the next one, and one after the last. |
| DeclRegions.LastLineIsCut | go/helper/spacing/typeorder.go:155-166 | When the last line of the file is not ended, the region of the declaration on it ends before that line. |
| DeclRegions.TilesAreWhole | go/helper/spacing/typeorder.go:123-128 | Put together, the regions are the text from the first to the last: no byte is lost or taken twice. |
| DeclRegions.Splice | go/helper/spacing/typeorder.go:92-117 | The output is what comes before the first region, the picked regions in order, and what comes after the last region of the source. |
| DeclRegions.PermutedPieces | go/helper/spacing/typeorder.go:92-117 | Picking in another order of the same declarations picks the same pieces of text. |
| Rewrites.LocatesPermutation | go/helper/spacing/typeorder.go:98-103 | Looking up each declaration of the wanted order gives a permutation of the declarations' positions. |
| Rewrites.RestPermutes | go/helper/spacing/typeorder.go:208-255 | The wanted order begins with the same imports and goes on with the same declarations. |
| Rewrites.SpliceInOrder | go/helper/spacing/typeorder.go:88-120 | The pieces of the output are the regions of the source in another order, each declaration whole in its own exactly when each ends its line. |
| Rewrites.Rewrite | go/helper/spacing/typeorder.go:74-121 | A file in the wanted order is left alone; any other becomes its header, the regions of its declarations in the wanted order, and what came after the last, with a region to begin at. |
| Rewrites.TypeIsTorn | go/helper/spacing/typeorder.go:155-166 | A type that ends the file without a line break is moved without its last line, which stays at the end of the file. |
| Embeds.Match | go/helper/spacing/embeds.go:136-169 | A group with a directive is matched only to the declaration that follows it next, a doc comment with a directive before any other group, and no declaration that a directive leads to is missed; comments without a directive may be anywhere. |
| Embeds.MatchesApart | go/helper/spacing/embeds.go:136-169 | From each matched group to its declaration nothing else is matched. |
| Embeds.SortedMovesFit | go/helper/spacing/embeds.go:108-112 | In whatever order the map gives them, the sorted moves are disjoint and go from the bottom up. |
| Embeds.Repair | go/helper/spacing/embeds.go:114-131 | Moving one group after another in place gives the closed form: before each declaration what stood between, then the group. |
| Embeds.GroupIsAbove | go/helper/spacing/embeds.go:65-69 | Each moved group ends up whole and right above its declaration. |
| Embeds.OthersKeepOrder | go/helper/spacing/embeds.go:114-131 | Lines outside the moved groups keep their order. |
| Embeds.LinesAreKept | go/helper/spacing/embeds.go:114-131 | Every line is there once afterwards, but for a blank line right after a moved group. |
| Embeds.FewDropped | go/helper/spacing/embeds.go:119-121 | At most one line is dropped for each move. |
| Embeds.RepairSource | go/helper/spacing/embeds.go:70-132 | Every directive that is detached from its declaration is moved, with the moves of the whole file made in place. |
| Placeholders.FoundWherePut | crates/hosts/src/raw.rs:80-82 | In a text with nothing like a placeholder before it, a placeholder is found first where it was put. |
| Placeholders.FreeJoin | crates/hosts/src/raw.rs:25-28 | Joining two texts at a tag or a line break makes no new placeholder. |
| RawScan.ReadTag | crates/hosts/src/raw.rs:205-229 | The loops over a tag's name and attributes find the end of the opening tag past every quoted `>`, or none. |
| RawScan.FirstClosing | crates/hosts/src/raw.rs:231-248 | The closing tag found is the first of that name, though the search gives up where the name would not fit. |
| RawScan.ReadClosing | crates/hosts/src/raw.rs:231-248 | The loop from one `</` to the next finds that first closing tag. |
| RawScan.ReadClosingTemplate | crates/hosts/src/raw.rs:250-272 | Counting opening tags between closing ones finds the closing tag at which the nesting is back to nothing. |
| RawScan.NestingEnds | crates/hosts/src/raw.rs:250-272 | The closing tag found is the first before which as many templates were closed as were opened, but for the one it closes. |
| RawScan.Scan | crates/hosts/src/raw.rs:137-203 | The loop over a document yields its elements in order: comments, self-closing tags and what is no tag passed over, and nothing after an element that is never closed. |
| RawScan.FoundAreChained | crates/hosts/src/raw.rs:137-203 | What is found in any document are elements, each between its own tags, one after another. |
| RawWritten.WrittenIsFound | crates/hosts/src/raw.rs:137-272 | In a document put together from prose, comments, other tags and blocks with any quoted attributes, the scanner finds exactly its blocks, each where it stands. |
| RawWritten.FoundAsWritten | crates/hosts/src/raw.rs:137-203 | The name, opening tag and body of a found block are the ones written. |
| RawRounds.KeptIsTagged | crates/hosts/src/raw.rs:25-57 | The bodies that masking takes of what the scanner finds are in order and each between its own tags, for every document. |
| RawRounds.MaskDocument | crates/hosts/src/raw.rs:25-57 | Scanning, asking which elements are raw, and masking those that are not blank is one mask of the document, and there is one exactly when it has no placeholder's text and something to mask. |
| RawBlocks.Mask | crates/hosts/src/raw.rs:33-57 | Of raw bodies in order, every one that is not blank, and nothing else, is replaced by its placeholder, with where and how long it is; a document that has the placeholder's text already is left alone. |
| RawBlocks.OriginalOffset | crates/hosts/src/raw.rs:61-73 | The loop with its subtractions never underflows, for any offset, and finds the offset by the last placeholder before it. |
| RawBlocks.InsideFill | crates/hosts/src/raw.rs:61-73 | An offset inside a placeholder goes to where its body begins. |
| RawBlocks.OutsideFills | crates/hosts/src/raw.rs:61-73 | Any other offset goes to the same character of the original, outside of every body, and the end to the end. |
| RawBlocks.OffsetsKeepOrder | crates/hosts/src/raw.rs:61-73 | Offsets keep their order. |
| RawRestore.RestoresOne | crates/hosts/src/raw.rs:80-89 | A body takes the place of its placeholder and of what is around it between its tags, and a closing tag keeps its own indentation. |
| RawRestore.RestoresUpto | crates/hosts/src/raw.rs:75-92 | In any formatted document with each placeholder still alone between its tags, every body is put back in its place. |
| RawRestore.MaskRestores | crates/hosts/src/raw.rs:75-92 | Restoring the masked text gives the document with each raw body normalized and nothing else changed. |
| RawRestore.NormalAgain | crates/hosts/src/raw.rs:99-106 | A body that was put back normalizes to itself. |
| RawBlocks.NormalizeIs | crates/hosts/src/raw.rs:98-106 | A body is normalized to the part from the start of its first line that is not blank, indentation included, to its last character that is not white space; only a blank body is none. |
| RawStays.ElementsMove | crates/hosts/src/raw.rs:137-272 | When white space right behind an opening tag or right before a closing one is replaced by other white space, the scanner finds the same elements, moved. |
| RawRounds.SameElementsAgain | crates/hosts/src/raw.rs:25-92 | In the restored document the scanner finds the same elements, with the same names and opening tags, and each raw body normalized and on lines of its own. |
| RawRounds.RoundIsStable | crates/hosts/src/raw.rs:75-92 | Masking and restoring once more changes nothing, for any document. |
| RawRounds.MaskAgain | crates/hosts/src/raw.rs:25-57 | Masking the restored document yields the same bodies, and putting those back gives the same document. |
| RawRounds.RoundTrip | crates/hosts/src/raw.rs:77-92 | Restoring the mask of any document gives it with its raw bodies on lines of their own; the result can be masked again, has the same bodies, and is restored to itself. |

## Left out

- Kqueue.Watcher.Drain: events that the kernel merges into one, and descriptor numbers that are used again, are not modelled; a handle is never reused.
- Kqueue.Watcher.Add: the directories above the root of the work tree are not watched by the code and not part of the model's file system.
- Watching.Watch.Settle: of the clean directories, only the followed ones are promised to the next run once a directory above a registered path is not watched; the others can be wrong, by `Rootedness.Unnoticed`.
- WatchRuns.Session: promises nothing of an entry in doubt that a run did not look at; without that it is false, by `Doubts.ChangeIsMissed`.
- Watches.SortOut: an index with two entries for one path, which a merge conflict makes, is not told apart from one with different paths.
- Walks.Walk.Visit: the tree is what the walk sees, one look at each directory; it walks them one after another in the listing's order, and a directory that cannot be read is not modelled.
- Finds.FindsExactly: every file is taken; the further choice among file names by `keep`, any function of the path, is not modelled.
- Walks.Run: states one run over a coherent store, whatever the walk enters; over many runs see `Histories.Runs`.
- WatchedWalks.WatchedRuns: all runs walk the whole tree with one filter, and its root is there; names and texts are tied to the file system by stamps only; ends after a run in which a directory above a registered path could not be watched, or watching failed.
- Histories.Runs: promises nothing of a run after something that was found otherwise has come back; there it would be false, as the concrete histories show.
- Memories.Memory.Save: the comparison of the index with the tree that is stored beside the listings, and the encoding of the store, are not modelled.
- Caches.Cache.Read: hashes are free of collisions, files have one name each per moment, and shards, marks and the file format of the cache are not modelled.
- Caches.Cache.Flush: which unused outcomes go is not modelled beyond the budget rule.
- ProtocolRuns.RunKeepsInv: frames are read and written whole; the handshake, standard error, exit messages and time-outs are not modelled.
- ProtocolRuns.EveryRequestIsAnswered: for one worker or more, which is what the helper starts; with none its queues would have no room and one worker would hand frames over directly.
- ProtocolRuns.SomethingMoves: pipes take whatever is written, the writers keep no frames back in their buffers, and a reply over the frame limit is not modelled; so a standstill for these reasons is not excluded.
- Tickets.Shared.Submit: requires a free id, where the code would loop for ever.
- RustCodec.Decode: strings are bytes; rejecting or replacing invalid UTF-8 and the two encodings of paths are not modelled.
- GoCodec.AppendFrame: a length that the format has no room for wraps around, and nothing is promised then.
- Walker.FingerprintFile: node types, payloads and spans are numbers; hashing of string keys, JSX words and embedded templates is covered by kinds of node, not by oxc's own types.
- SamePrograms.FingerprintsDecide: of programs as a parser gives them (`SameForms.Grammatical`); a template element without text and one in another language have the same form.
- LogicalChains.SameFingerprintSameEvaluation: operands are opaque; their values and effects are any function of their own normal form and of what happened before.
- ConstIff.ReorderIsRightIff: two objects with the same parts are the same value, reading a name runs no code, and what converting or spreading an object does is any function of the object, the names and what was done before.
- Reorders.ReorderKeepsFingerprint: the text the passes write, comments that make them decline, and blank lines are not modelled; the reordered tree is.
- Pipeline.Run: parsing, fingerprints and what steps propose are functions of the text; a step that depended on anything else would not be covered.
- Scoring.ScoreProgram: names are given; rendering them from the syntax around a function and from the class is not modelled, nor is a cyclomatic number past 32 bits.
- LintFixes.Lint: rules and their diagnostics are a function of the text; that they propose units which are internally disjoint is required.
- RawWritten.WrittenIsFound: a template block holds no other template; for those that do, see `RawScan.NestingEnds`.
- RawRounds.RoundTrip: whether an element is raw is any function of its name and opening tag, as `is_raw` is; reading the `lang` and `type` attributes is not modelled, and offsets count characters where the code counts bytes.
- RawRestore.RestoresUpto: what the formatter does is any document that still has each placeholder alone between its tags, in order.
- Rewrites.Rewrite: takes the declarations, and the offsets of them and of their comments, from Go's parser; `//line` comments, which change the line numbers the code looks up, are not modelled.
- Embeds.Match: a directive behind a var declaration, on the line the declaration begins on, is excluded, as columns are not modelled (the code then moves that whole line); a directive inside `var ( ... )` leads to the declaration after it, as in the code.
- Kqueue's twin for Linux, `inotify.rs`, which adds a watch without the identity check, is not modelled.
- Blank-line insertion in Go sources, and collapsing the blank line under a directive, are not modelled.
- Lint rules, oxc, markup and Markdown formatters, configuration, the command line, `serve` and reports are not modelled.
