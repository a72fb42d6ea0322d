# Verification of the composer, diff, residency, conflict and palette cores

A Dafny model of eleven independent cores of the application, with proofs of what each of them
promises: an optimal line diff, a transcript window that never loses the reader, spacer heights that
add up, connected components, conflict resolution, per-chat composer state behind one shared box, a
boot snapshot that comes back, decision queues that answer once, a contrast lift and a cascade index.

`dafny verify dfyconfig.toml` checks everything.

| file | models |
|---|---|
| `Ints.dfy`, `Text.dfy`, `Lines.dfy` | minimum and maximum; the string operations of the diff and the conflict parser; splitting a file into lines |
| `Alignment.dfy` | longest common subsequences, independent of any algorithm: the yardstick of the diff |
| `DiffScript.dfy`, `Diff.dfy` | what a diff is, and the dense, linear-space and coarse ways to one |
| `ServerDelta.dfy` | the server's twin of the two counts |
| `WordDiff.dfy`, `HunkWindow.dfy` | the characters that changed in a line; the window on whole hunks |
| `Cohesion.dfy` | union-find with path halving, and the components it computes |
| `Turns.dfy`, `Residency.dfy`, `Spacer.dfy` | what a view draws, its prose runs, the window of mounted ordinals, the height of the rest |
| `Conflict.dfy` | merge-conflict hunks, and resolving them one by one |
| `Attachments.dfy`, `Composer.dfy` | one pill row and one text box that stand for a list and a draft per chat |
| `BootSnapshot.dfy` | capture of the newest turns within two budgets, and the inverse |
| `DecisionDock.dfy` | queues of questions with several hosts, several removers and one settle-once rule |
| `Contrast.dfy` | the bisection on an 8-bit blend, and the authored greys |
| `Cascade.dfy` | the inverted index of rule pairs, and which rule of a pair wins |

Conventions.

- A `char` is one UTF-16 code unit. Pixels, luminances and scores are `real`.
- Where the source changes things step by step, the model does: objects and module state are classes
  whose methods reassign their fields, tables and rows are arrays, loops are loops. Each such method is
  proved against a function of the old state, and the promises are lemmas about that function, most of
  them over whole runs (`Run`, `Play`, `Session`).
- `Composer.Desk`, the state those lemmas are about, holds the composer's own fields but for the pill row
  and its stash, for which it has one map of lists: only there is `ComposerState.Play` more than a tie.
- A loop body of the source that is too long for one proof is a method of its own here
  (`DenseStep`, `GrowHead`, `HunkOrLine`, `Under`, ...), called where the source has it in line.
- Iteration over a Python set or over the keys of a rule is an arbitrary choice at each step, so results
  hold for every order. A JavaScript map that is iterated is a sequence of rows in insertion order.
- Every lemma says `{:induction false}`: inductions are written out, none is left to the tool.

Where the code and its own documentation differ, the model follows the code, and a lemma says exactly
when the documentation is right:

- `windowHunks` keeps "`context` lines" of context for every context but 0, where taking the last 0 rows
  takes all of them (`HunkWindow.ContextRule`).
- A final newline is invisible to the diff except in a file that is otherwise empty
  (`Lines.FinalNewlineInvisible`).
- The widening of a window to whole prose runs leaves an edge alone that rests on an ordinal nothing is
  drawn at; a plan can end up there, and the two spacers then count the cut run twice
  (`Turns.SliceSplits`, `Residency.PlansNeverCutIff`, `Spacer.SpacersAddUp`).
- The order in which conflicts are resolved can matter, though only in a file without a final newline
  (`Conflict.OrderFreeIff`).
- A pending draft save means that the live draft is the text that scheduled it only when the save is the
  live chat's own, and a failed send put back under another chat loses the live chat's pending save
  (`Composer.FlushSendsScheduledIff`, `Composer.LiveSaveLostIff`, `Attachments.LiveSaveLostIff`).
- A turn with a hole is not dropped when a snapshot is regrouped, it is cut at the hole
  (`BootSnapshot.SeatedWholeIff`, `BootSnapshot.HoleIsCutNotDropped`).
- A line ending rewritten from one convention to the other is invisible to the diff unless a newline has
  two carriage returns in front of it on one side (`Lines.CrlfInvisibleIff`).
- The frame that settles a run's ask retires one card of it; a second one, filed under another queue,
  stays (`DecisionDock.SettleClearsIff`).
- With nothing pending the server holds the current text and files only while nothing has gone past the
  one slot (`Composer.StepStoredIff`, `Attachments.StepStoredIff`; a new composer is up to date by
  `Composer.NewDeskStored` and `Attachments.NewShelfStored`).
- `wordDiff` answers nothing for lines that share no word, but also for some that do share one
  (`WordDiff.SharedInkCanBeMissed`, `WordDiff.EnoughInCommon`).
- `wins` asked with the later rule first gives a tie within one stylesheet to the wrong rule, and moving
  a sheet out of its layer does not flip every pair against another layer, only those it lost
  (`Cascade.WinsReversedIff`, `Cascade.UnlayerFlipsIff`).
- `darkest_legible_grey` is the lightest legible grey only when white is not legible or every grey is
  (`Contrast.LightestIff`).

## Model

| member | source | states |
|---|---|---|
| Lines.SplitLines | static-src/diff.ts:65-82 | the loop computes the lines of a text: none for an empty one, no row for the final newline, one carriage return stripped per line |
| Lines.FinalNewlineInvisible | static-src/diff.ts:58-62 | adding only the final newline changes no line, exactly when the file is not empty |
| Lines.CrlfInvisibleIff | static-src/diff.ts:41-82 | writing a carriage return in front of every newline changes no line, exactly when no newline has one already |
| Lines.LinesOfLoses | static-src/diff.ts:41-47 | without carriage returns, the lines joined give the text back up to its final newline |
| Text.NormalizeEqualIffSameWords | static-src/diff.ts:255-292 | with white space ignored, two lines compare equal exactly when they hold the same words |
| Text.SpaceIs | static-src/diff.ts:260-265 | what counts as white space |
| Alignment.AlignmentBound | static-src/diff.ts:101-115 | no alignment of two sequences is longer than the recursive LCS |
| Alignment.AlignmentWitness | static-src/diff.ts:101-115 | some alignment is as long as the recursive LCS, so the recursion is the length of a longest one |
| Alignment.ReverseLcs | static-src/diff.ts:217-221 | reading both sides backwards leaves the LCS length alone |
| Alignment.LcsSymmetric | internal/buffer/linediff.go:51-80 | exchanging the two sides leaves the LCS length alone |
| Alignment.LcsFromTheEnd | static-src/diff.ts:121-144 | the LCS recursion holds from the last elements too, which is what a row-by-row table uses |
| Alignment.SplitWitness | static-src/diff.ts:211-232 | wherever the old side is cut, some cut of the new side keeps the whole LCS length |
| Diff.LcsTable | static-src/diff.ts:101-115 | every cell of the table filled in place is the LCS length of the two suffixes that start there |
| Diff.LcsLastRow | static-src/diff.ts:121-144 | two swapped rolling rows end with the LCS of the old range against every prefix of the new one |
| Diff.HirschbergDiff | static-src/diff.ts:151-238 | for every non-empty old range and every new range the recursion ends in a walk over both ranges whose context rows number exactly their LCS |
| Diff.SplitPoint | static-src/diff.ts:211-232 | the best cut found from a forward and a reversed backward row loses nothing: the two halves' LCS lengths add up to the whole's |
| Diff.DenseDiff | static-src/diff.ts:297-374 | the forward walk over the dense table is a walk over both slices with LCS many context rows |
| Diff.ExactDiff | static-src/diff.ts:297-374 | both exact algorithms, whichever the size picks, keep the same number of lines, the LCS |
| Diff.TrimEnds | static-src/diff.ts:255-292 | the two trimming loops find the longest common prefix and then the longest common suffix of the rest |
| Diff.TrimLosesNothing | static-src/diff.ts:255-292 | the LCS is the common ends plus the LCS of the middle |
| Diff.DiffMiddle | static-src/diff.ts:297-374 | the middle is diffed exactly within the time budget and deleted and added whole past it |
| Diff.DiffLineArrays | static-src/diff.ts:255-292 | on every path the result is a diff of the two inputs: deleted and context rows rebuild the old lines in order, new numbers run 1 to n; with white space ignored context joins lines of the same words, otherwise the same lines, and how many it joins is exact |
| Diff.ComparedByWords | static-src/diff.ts:260-265 | with white space ignored every context row joins lines of the same words and the lines kept are those of the lines' words; otherwise those of the lines themselves |
| Diff.BudgetIs | static-src/diff.ts:297-374 | whatever the longest common ends are, the middle is compared exactly when its sides multiply to at most 25 million cells, and then the LCS is kept, else the ends alone |
| Diff.EveryDiffCosts | static-src/diff.ts:255-292 | no diff of the same files keeps more lines than the LCS, and its additions and deletions are what it does not keep |
| Diff.LineDiff | static-src/diff.ts:245-253 | a diff of the two texts, within the budget one that no other diff beats in kept lines; texts whose lines hold the same words, or with the flag off the same lines, show no change at all |
| Diff.LineDelta | static-src/diff.ts:388-391 | added and removed counts, within the budget the least any diff can show |
| Diff.Tally | static-src/diff.ts:28-40 | the three counts of a diff's rows |
| ServerDelta.SplitDiffLines | internal/buffer/linediff.go:29-49 | the server's split makes the same lines as the client's, though it tests the last piece and strips always |
| ServerDelta.LcsLen | internal/buffer/linediff.go:51-80 | the LCS length, whichever side is put along the rows |
| ServerDelta.LineDelta | internal/buffer/linediff.go:82-116 | early return, trim, budget and count agree with the client's two counts on every pair of texts |
| DiffScript.DiffIffWalk | static-src/diff.ts:151-292 | a script is a diff of two files exactly when it walks both of them from first line to last |
| WordDiff.SplitWords | static-src/diff.ts:449-469 | the tokens are words, gaps and single characters that tile the line, maximal each |
| WordDiff.TilesUnique | static-src/diff.ts:449-469 | a line has only one such tokenisation |
| WordDiff.CutsBetween | static-src/diff.ts:424-469 | a line is cut between any two characters but two of an identifier (letters, digits, `_`, `$`, anything past ASCII) and two blanks |
| WordDiff.PushRange | static-src/diff.ts:473-481 | adding a token's range, merged when it touches the last one, keeps ranges sorted and apart and cuts exactly that token more |
| WordDiff.WordDiff | static-src/diff.ts:490-548 | when it answers, cutting the ranges out of either line leaves the same text, made of the tokens the walk keeps, a longest common sequence, and not blank, with ranges in bounds, sorted, never touching and few enough; when it does not, the lines are equal or empty or too long, or such marks would be blank or too many |
| WordDiff.MarksNeedSharedInk | static-src/diff.ts:525-542 | marked lines share a token that is not blank |
| WordDiff.EnoughInCommon | static-src/diff.ts:484-542 | lines whose tokens have more in common than one side has blank tokens keep ink, so only the number of ranges can still make the answer nothing |
| WordDiff.SharedInkCanBeMissed | static-src/diff.ts:484-542 | two lines that share a word of which nothing but the blank is kept |
| HunkWindow.Segment | static-src/diff.ts:601-651 | the lines fall into alternating changed and context runs |
| HunkWindow.WindowHunks | static-src/diff.ts:601-651 | the window shows, up to the first hunk that is refused, all hunks whole and of the context exactly the lines near a hunk, counts the hunks it leaves out exactly, and for a positive context never exceeds max(maxRows, context + first hunk) + 2 context rows |
| HunkWindow.ContextRule | static-src/diff.ts:590-600 | a context line is kept exactly when it is within `context` lines of a hunk, if and only if the context is not 0 or no context line comes before a change |
| HunkWindow.ZeroContextKeepsContext | static-src/diff.ts:601-651 | with a context of 0 a context line above a change is kept |
| Cohesion.Forest.constructor | scripts/cohesion.py:96-96 | starts with no names |
| Cohesion.Forest.Find | scripts/cohesion.py:98-103 | ends, answers the root, inserts a new name as its own set, and path halving changes no root |
| Cohesion.Forest.Union | scripts/cohesion.py:105-108 | merges exactly the two sets |
| Cohesion.EdgeIff | scripts/cohesion.py:87-126 | two methods belong together directly exactly when one reaches the other's name or both reach a name that is no method's |
| Cohesion.Components | scripts/cohesion.py:87-126 | for every list of methods and every order of the reached sets, the groups are the components of "calls a sibling or reaches a common name that is no method", listed by size |
| Cohesion.ComponentsPartition | scripts/cohesion.py:87-126 | every method is in the groups once per listing, each group is connected, no two groups are, largest first |
| Turns.FirstPlanSeq | static-src/block-window.ts:111-118 | finds the first plan entry of a lane, or none |
| Turns.RendersIff | static-src/block-window.ts:82-105 | a plan is drawn exactly when it is the first of its lane, a steer in the main lane only, any other entry exactly when it is of the lane and none of the five kinds that draw nothing |
| Turns.OnePlanDrawn | static-src/block-window.ts:111-118 | a view draws one plan at most |
| Turns.CostIsCount | static-src/block-window.ts:176-190 | the cost is the number of ordinals so drawn, and of tool calls among them |
| Turns.CostOf | static-src/block-window.ts:176-190 | the number of drawn entries and of drawn tool calls, where an entry is drawn under the rule of `RendersIff` |
| Turns.RendersNothing | static-src/block-window.ts:200-211 | says whether a turn draws no entry at all |
| Turns.RunStart | static-src/block-window.ts:278-295 | the walk down ends at the run's first member |
| Turns.RunEnd | static-src/block-window.ts:298-316 | the walk up ends at the run's last member |
| Turns.RunBounds | static-src/block-window.ts:278-316 | those two are the least and the greatest member of the run |
| Turns.ProseRuns | static-src/block-window.ts:258-274 | members of one run have one range, runs are disjoint, and nothing but text is drawn inside one |
| Turns.SliceTurn | static-src/block-window.ts:237-253 | the clamped range widened at text edges |
| Turns.SliceCovers | static-src/block-window.ts:230-253 | the widened range covers the clamped one, stays in the turn, and widening again changes nothing |
| Turns.SliceSplits | static-src/block-window.ts:237-253 | a widened edge cuts a run exactly when the edge asked for rests on no text and cuts one |
| Turns.SliceCanSplit | static-src/block-window.ts:237-253 | such an edge exists |
| Residency.Grow | static-src/block-window.ts:375-415 | growing ends; the window holds the seed, what is drawn inside is within the budget or is the seed alone, and neither side can take another ordinal |
| Residency.FlagsDraw | static-src/block-window.ts:336-358 | the window's flags are that rule, and what they charge is that count |
| Residency.PlanResidency | static-src/block-window.ts:325-426 | the plan is one grown window around the anchor, cut into each turn's widened part; each ordinal is charged when the rule of `RendersIff` draws it (`FlagsDraw`) |
| Residency.OverscanHeld | static-src/block-window.ts:15-23 | with the default budgets each side of the anchor holds the overscan or reaches the end, for every mix of ordinals |
| Residency.SequenceCost | static-src/block-window.ts:176-190 | the turns' summed cost is what the window is charged for all of them |
| Residency.WholeSequenceFits | static-src/block-window.ts:318-324 | when that fits the budget, the window is the whole sequence |
| Residency.EveryTurnWhole | static-src/block-window.ts:318-324 | and then every turn is planned whole |
| Residency.TouchedConsecutive | static-src/block-window.ts:417-424 | planned turns are consecutive and every one strictly inside is planned whole |
| Residency.ReaderPlanned | static-src/block-window.ts:345-375 | the reader's turn is always planned and its plan holds the reader's ordinal |
| Residency.HeadEdgeSplits | static-src/block-window.ts:375-424 | a first edge inside a turn always follows a drawn ordinal, and cuts a prose run exactly when that is text, the next ordinal draws nothing and the run goes on |
| Residency.TailEdgeSplits | static-src/block-window.ts:375-424 | the same for the last edge |
| Residency.PlansNeverCutIff | static-src/block-window.ts:318-426 | no plan of any reader and any budget cuts one of a turn's runs, if and only if no undrawn ordinal lies strictly inside one |
| Residency.GapIsCut | static-src/block-window.ts:318-426 | a reader in such a gap with no budget gets no plan that leaves the run whole |
| Residency.PlanCanSplit | static-src/block-window.ts:375-424 | a turn and a budget for which it does |
| Spacer.HeightCache.RecordEntryHeight | static-src/block-heights.ts:193-200 | files one measurement and touches no other turn |
| Spacer.HeightCache.RecordRowHeight | static-src/block-heights.ts:205-212 | files one row's measurement under its first ordinal and touches no other turn |
| Spacer.HeightCache.ForgetHeights | static-src/block-heights.ts:283-288 | forgets the named turns and no others |
| Spacer.HeightCache.SpacerHeight | static-src/block-heights.ts:221-280 | the loop's sum of heights and gaps is the height of what stands before the range, or behind it, each prose run charged once |
| Spacer.RowAnswersForItsRun | static-src/block-heights.ts:202-262 | a run is charged what its row measured whenever a row of exactly that run was, and the estimate otherwise |
| Spacer.MeasuredEntryHeight | static-src/block-heights.ts:221-280 | a spacer over one measured entry is what was recorded, and a gap more when that is something |
| Spacer.MeasuredRunHeight | static-src/block-heights.ts:202-280 | the same for one measured prose run |
| Spacer.UnmeasuredHeight | static-src/block-heights.ts:111-190 | with nothing recorded it is the estimate and the gap: for every kind of entry and of call what it pays, with and without a result |
| Spacer.RecordingMoves | static-src/block-heights.ts:193-280 | recording an entry moves every spacer over it by the difference to its price, and no other spacer |
| Spacer.HeightSplit | static-src/block-heights.ts:221-280 | two stretches that meet are worth what they are worth as one, plus the run the second one charges again |
| Spacer.RechargedIffSplit | static-src/block-heights.ts:221-280 | a run is charged again exactly when the edge cuts one |
| Spacer.SpacersAddUp | static-src/block-heights.ts:214-280 | head and tail spacer at one edge add up to the same total exactly when no run is cut, or the cut run's second half is worth nothing; otherwise the excess is that worth |
| Spacer.DocumentHeight | static-src/block-heights.ts:214-280 | with both edges on run boundaries, the spacers and the mounted range make up the whole turn wherever the window stands |
| Conflict.MarkExact | static-src/conflict.ts:39-42 | no line is a marker of two kinds |
| Conflict.MarkIs | static-src/conflict.ts:39-42 | a marker is seven of its character, and but for the separator nothing or a blank and a label behind |
| Conflict.ParseConflicts | static-src/conflict.ts:46-110 | the nested scan finds the hunks of the declarative reading: the first opener with a separator before any other opener and an end after it, its sides cut at the first base marker, then on behind it |
| Conflict.FindMarkers | static-src/conflict.ts:62-88 | base, separator and end of the hunk a line opens, or proof that it opens none |
| Conflict.ParseJoin | static-src/conflict.ts:46-141 | parsing then joining is the identity on every text |
| Conflict.WrittenConflict | static-src/conflict.ts:46-135 | a conflict written out, with or without its common ancestor, is read back with its labels and sides wherever it stands, and resolving it leaves the text around it and ours, theirs, or ours followed by theirs |
| Conflict.ReparseShrinks | static-src/conflict.ts:116-141 | ours, theirs and both each leave at least three lines fewer after parsing again |
| Conflict.SessionEnds | static-src/editor-conflict.ts:327-344 | so resolving and parsing again ends on every input, whatever is chosen |
| Conflict.ResolvingRemovesOne | static-src/conflict.ts:116-135 | on a newline-ended file whose only markers are its hunks' own, resolving removes exactly that hunk, moves those behind it up by what it gave up, and leaves no stray marker |
| Conflict.OrderDoesNotMatter | static-src/editor-conflict.ts:327-344 | on such a file every order of the same choices ends in the text with each hunk replaced by its choice |
| Conflict.OrderFreeIff | static-src/editor-conflict.ts:327-344 | with or without a final newline: the order is irrelevant exactly unless there is none, the file opens with a hunk that vanishes, and one empty line is left in the end |
| Conflict.OrderCanMatter | static-src/editor-conflict.ts:327-344 | a file for which it matters |
| Attachments.AttachmentRow.constructor | static-src/attachments.ts:53-95 | starts with nothing attached anywhere |
| Attachments.AttachmentRow.AddAttachment | static-src/attachments.ts:147-155 | adds a path to the live chat's list once and schedules that list |
| Attachments.AttachmentRow.AddAttachmentTo | static-src/attachments.ts:169-187 | the same for a named chat, live or parked, nothing under a stale generation |
| Attachments.AttachmentRow.RemoveAttachment | static-src/attachments.ts:190-193 | removes a path from the live list and schedules it |
| Attachments.AttachmentRow.TakeAttachments | static-src/attachments.ts:204-211 | hands out the live list, empties it, and sends the empty list at once |
| Attachments.AttachmentRow.FlushAttachments | static-src/attachments.ts:244-252 | sends the live list when a save is pending |
| Attachments.AttachmentRow.StashAttachments | static-src/attachments.ts:222-237 | parks the row under its chat, after the flush under the outgoing id |
| Attachments.AttachmentRow.RestoreAttachments | static-src/attachments.ts:255-266 | puts a chat's list on the row, repeated paths once |
| Attachments.AttachmentRow.DropAttachments | static-src/attachments.ts:274-282 | forgets a chat's list and moves its generation |
| Attachments.AttachmentRow.SeedAttachments | static-src/attachments.ts:293-317 | takes the server's list for a chat never touched |
| Attachments.AttachmentRow.AdoptRemoteAttachments | static-src/attachments.ts:329-339 | takes another device's list for any chat but the live one |
| Attachments.AttachmentRow.Play | static-src/attachments.ts:147-339 | every run on the shared row and the stash is the same run on a plain map from chat to list |
| Attachments.SwitchKeepsLists | static-src/attachments.ts:222-266 | moving between chats changes no chat's list |
| Attachments.ShowKeepsIff | static-src/attachments.ts:255-266 | a restore without a stash first keeps every list exactly when the row is empty |
| Attachments.OthersKeepTheirs | static-src/attachments.ts:147-339 | an operation changes at most the list of the chat it is for |
| Attachments.StagedAfter | static-src/attachments.ts:147-339 | what each operation leaves in its chat's list: one more path at the end, one path fewer, nothing, the list handed in, or the list as it was |
| Attachments.SavesExactly | static-src/attachments.ts:94-252 | exactly what waits and what has been sent after any operation |
| Attachments.MarksExactly | static-src/attachments.ts:147-339 | which chats count as touched, and which one is on screen, after any operation |
| Attachments.SeedNeverOverwrites | static-src/attachments.ts:284-317 | though a seed overwrites what is parked without looking, at any moment of any run it changes no list that is there |
| Attachments.GenerationCountsDrops | static-src/attachments.ts:70-80 | over any run a chat's generation is unchanged exactly when the chat was not dropped |
| Attachments.RestoreIffNotDropped | static-src/attachments.ts:157-187 | a restore with a token from before a run brings the file back exactly when the run did not drop the chat, and otherwise changes nothing |
| Attachments.SentFilesStayGone | static-src/attachments.ts:195-211 | a take sends the empty list at once, and over every run in which nothing is staged for the chat again no later save carries a file of it |
| Attachments.StagingFills | static-src/attachments.ts:147-339 | what counts as staging there does fill an empty list, but under a stale token or without files |
| Attachments.EverySaveWasTrue | static-src/attachments.ts:97-118 | over every run, whatever is sent or left pending is a list its own chat really had |
| Attachments.LiveSaveLostIff | static-src/attachments.ts:94-110 | the one shared slot loses the live chat's pending save exactly when a file is added to another chat's parked list that lacks it, under a token that is not stale |
| Attachments.StepStoredIff | static-src/attachments.ts:239-252 | what an operation leaves is on the server or waiting, exactly when it is no file added to a parked list, no foreign list for the live chat and no list for a chat dropped while its save waited |
| Attachments.IdleMeansStored | static-src/attachments.ts:239-252 | over every run without those, with nothing pending the server holds the current list of every chat staged into |
| Composer.ComposerState.constructor | static-src/composer-state.ts:64-89 | starts with no draft, an empty box and an empty row |
| Composer.ComposerState.NoteComposerText | static-src/composer-state.ts:121-130 | records the box as the live chat's draft and schedules it, unless nothing changed or no chat is live |
| Composer.ComposerState.FlushComposerDraft | static-src/composer-state.ts:151-156 | sends the live draft, read from the map, when a save is pending |
| Composer.ComposerState.SaveComposerState | static-src/composer-state.ts:165-169 | flushes under the outgoing chat and hands the row over |
| Composer.ComposerState.RestoreComposerState | static-src/composer-state.ts:175-179 | shows a chat's draft and files |
| Composer.ComposerState.RetargetComposer | static-src/composer-state.ts:203-206 | both in one step |
| Composer.ComposerState.SeedComposerState | static-src/composer-state.ts:219-232 | takes the server's draft for a chat without one, and fills only an empty box |
| Composer.ComposerState.RestoreFailedSend | static-src/composer-state.ts:254-266 | puts a failed send's text back under its own chat, unless a draft is there |
| Composer.ComposerState.RestoreRefusedEdit | static-src/composer-state.ts:276-291 | undoes an edit only while the draft is still what the edit wrote; for another chat the pending live save goes out first |
| Composer.ComposerState.AdoptRemoteComposerState | static-src/composer-state.ts:304-310 | a remote frame changes any chat but the live one |
| Composer.ComposerState.DropComposerState | static-src/composer-state.ts:325-332 | forgets a chat, and empties the box when it was live |
| Composer.ComposerState.Play | static-src/composer-state.ts:121-332 | every run of the class, row and stash included, is the run of `Step` that the lemmas below are about |
| Composer.MoveKeepsAll | static-src/composer-state.ts:181-206 | a move changes no draft and no file list and leaves the box showing the incoming chat's draft |
| Composer.LeaveAndCome | static-src/composer-state.ts:165-179 | leaving a chat keeps the box and every draft and flushes; coming to one shows its draft, and what was left on the row is gone |
| Composer.OthersKeepTheirDraft | static-src/composer-state.ts:121-332 | a draft changes only by typing while live, or by what arrives for that chat under its own condition |
| Composer.DraftAfter | static-src/composer-state.ts:121-332 | and then it is the text that was typed, seeded, put back, restored or received |
| Composer.BoxAfter | static-src/composer-state.ts:121-332 | what the box shows after any operation: arriving text only when it found the box empty or, for a refused edit, as the edit left it |
| Composer.SavesExactly | static-src/composer-state.ts:121-291 | exactly what waits and what has been sent after any operation |
| Composer.RowFollows | static-src/composer-state.ts:158-332 | which operation the row is put through by each of the composer's |
| Composer.DraftSurvives | static-src/composer-state.ts:208-266 | a draft that is not empty survives every run of seeds, failed sends, moves, saves, previews and file operations, and of anything done to other chats, typing into them included |
| Composer.BoxAlwaysShowsDraft | static-src/composer-state.ts:133-143 | over every run without a history preview the box shows the live chat's draft |
| Composer.EverySaveWasTrue | static-src/composer-state.ts:121-156 | over every run, whatever is sent or left pending is a draft its own chat really had |
| Composer.SavesAreTrue | static-src/composer-state.ts:121-291 | what an operation schedules or flushes is its own chat's draft at that moment |
| Composer.LiveSaveLostIff | static-src/composer-state.ts:254-291 | the live chat's pending save is lost exactly by a failed send's text put back under another chat that has no draft |
| Composer.StepStoredIff | static-src/composer-state.ts:145-156 | what an operation leaves is on the server or waiting, exactly when it is no failed send put back under another chat, no frame passed over for the live chat and no text for a chat dropped while its save waited |
| Composer.IdleMeansStored | static-src/composer-state.ts:145-156 | over every run without those, with nothing pending the server holds every draft |
| Composer.FlushSendsScheduledIff | static-src/composer-state.ts:145-156 | over every run with some chat on screen throughout, a flush sends the text that scheduled the pending save exactly when that save is the live chat's, which then has a draft |
| Composer.DropOutdatesSave | static-src/composer-state.ts:145-156 | without that: a chat dropped and opened again sends an empty text for its old save |
| Composer.FrameOutdatesSave | static-src/composer-state.ts:145-156 | and one changed by a remote frame before it is opened sends the newer text |
| Composer.BlurCanSendAnother | static-src/composer-state.ts:145-156 | after such a failed send a blur sends the live chat's empty text, and the other text is never sent |
| BootSnapshot.LightenKeepsPlace | static-src/boot-snapshot.ts:353-366 | lightening keeps turn, number and kind, leaves entries without tool output alone, and is done after one pass |
| BootSnapshot.LightenBounds | static-src/boot-snapshot.ts:372-407 | a lightened tool entry keeps its keys, loses its spans, and of every text exactly what its limit allows |
| BootSnapshot.AdmitPrefix | static-src/boot-snapshot.ts:306-319 | the longest front of a turn within both caps |
| BootSnapshot.NewestWindow | static-src/boot-snapshot.ts:258-293 | of the last three turns of the order, as many whole newest ones as fit together, or a front of the next one when that leaves nothing |
| BootSnapshot.WindowUnique | static-src/boot-snapshot.ts:258-293 | that describes one window only |
| BootSnapshot.OnlyNewest | static-src/boot-snapshot.ts:258-293 | every captured entry is of one of the last three turns of the order |
| BootSnapshot.NewestIsWhole | static-src/boot-snapshot.ts:258-293 | the newest turn is captured whole, last, whenever it is stored and fits alone |
| BootSnapshot.WindowFits | static-src/boot-snapshot.ts:31-43 | whatever an entry costs, a window is within both caps |
| BootSnapshot.TurnsFromEntries | static-src/boot-snapshot.ts:326-351 | on any list, each entry goes to its own turn and stays there exactly when it is next in line; turns are in order of their first entries |
| BootSnapshot.SeatedContiguous | static-src/boot-snapshot.ts:321-351 | on any list, every seated turn is numbered 0, 1, 2, ... |
| BootSnapshot.SeatedWholeIff | static-src/boot-snapshot.ts:321-351 | a turn is seated whole exactly when its entries are contiguous from 0, and not at all exactly when none is numbered 0 |
| BootSnapshot.HoleIsCutNotDropped | static-src/boot-snapshot.ts:321-324 | a turn with a hole is seated up to the hole |
| BootSnapshot.CaptureComesBack | static-src/boot-snapshot.ts:258-351 | what is captured from the store regroups into exactly the whole newest of its last three turns, lightened, in order and with their close, or into a front of a single one |
| DecisionDock.DecisionQueues.constructor | static-src/decision-dock.ts:128-145 | starts with no queue |
| DecisionDock.DecisionQueues.PushDecision | static-src/decision-dock.ts:287-299 | appends to the chat's queue unless the same ask is waiting there |
| DecisionDock.DecisionQueues.DropDecisions | static-src/decision-dock.ts:309-314 | takes exactly the chat's decisions |
| DecisionDock.DecisionQueues.DropRunDecisions | static-src/decision-dock.ts:323-334 | takes exactly the decisions filed under a run |
| DecisionDock.DecisionQueues.DropRunAsks | static-src/decision-dock.ts:366-390 | takes exactly the run's asks from every queue, and its held words |
| DecisionDock.DecisionQueues.DropTurnDecisions | static-src/decision-dock.ts:417-432 | takes exactly the chat's decisions that belong to no run |
| DecisionDock.DecisionQueues.CollapseSettledDecision | static-src/decision-dock.ts:534-564 | takes the one settled request and answers its run, or says there was none |
| DecisionDock.DecisionQueues.CollapseSettledRunInput | static-src/decision-dock.ts:613-641 | takes the first card of the run's ask, by walking the queues, and the words held for it |
| DecisionDock.DecisionQueues.Settle | static-src/decision-dock.ts:703-718 | a click submits a decision and takes it exactly when it is still queued |
| DecisionDock.DecisionQueues.HoldAnswer | static-src/decision-dock.ts:670-692 | keeps the words of an answer, or forgets them when the step continues without one |
| DecisionDock.DecisionQueues.HasPendingDecision | static-src/decision-dock.ts:444-447 | a chat has a decision pending exactly when it has a queue |
| DecisionDock.DecisionQueues.RunPendingAsks | static-src/decision-dock.ts:465-493 | counts the run's asks over every queue, collects their nodes, and takes the first text |
| DecisionDock.DecisionQueues.Play | static-src/decision-dock.ts:287-718 | every run of the class is the run of the plain state |
| DecisionDock.RunOrderly | static-src/decision-dock.ts:287-718 | over every interleaving: no queue is empty, no ask is queued twice in one, each queue is in order of arrival, and no answer goes out twice |
| DecisionDock.GoneForGood | static-src/decision-dock.ts:694-718 | a decision that has left its queue never comes back and is never submitted any more, whatever card is clicked |
| DecisionDock.ClickAnswers | static-src/decision-dock.ts:694-718 | a click on a queued decision submits it and takes it and no other; on any other it changes nothing |
| DecisionDock.OnlyClicksAnswer | static-src/decision-dock.ts:694-718 | nothing else submits |
| DecisionDock.AnsweredIffClicked | static-src/decision-dock.ts:694-718 | over every run a decision is submitted exactly when it was clicked while it was queued |
| DecisionDock.OthersStay | static-src/decision-dock.ts:287-641 | every decision an operation does not name, by chat, run prefix, run, request or ask, stays queued; a run's ask survives the end of a turn |
| DecisionDock.TakesExactly | static-src/decision-dock.ts:287-564 | and every one it does name leaves |
| DecisionDock.OneCardLeaves | static-src/decision-dock.ts:603-641 | but of a settled ask only the card of the first queue that holds one |
| DecisionDock.ArrivalQueues | static-src/decision-dock.ts:287-299 | what arrives comes last in its own queue, unless one of its kind and identity waits there |
| DecisionDock.AsksAre | static-src/decision-dock.ts:465-493 | a run waits for the decisions filed under it or naming it, each counted once |
| DecisionDock.FirstTextIs | static-src/decision-dock.ts:465-493 | the words shown are those of the first ask that has any |
| DecisionDock.NothingPending | static-src/decision-dock.ts:358-390 | once a run's asks are dropped, it waits for nothing |
| DecisionDock.KeptOk | static-src/decision-dock.ts:366-432 | no remover leaves an empty queue or disturbs the order of what it leaves |
| DecisionDock.SettleClearsIff | static-src/decision-dock.ts:603-641 | the frame that settles a run's ask leaves no card of it waiting, exactly when at most one queue held one |
| DecisionDock.SettleCanLeaveOne | static-src/decision-dock.ts:603-641 | an ask filed under its chat and under its run keeps its second card |
| DecisionDock.WordsComeBack | static-src/decision-dock.ts:643-692 | the words of an answer are still held when the ask comes back, over every run in which neither the ask nor its run ended and it was not answered anew |
| DecisionDock.WordsExactly | static-src/decision-dock.ts:643-692 | exactly what words are held for an ask after any operation |
| DecisionDock.WordsEnd | static-src/decision-dock.ts:652-661 | once the ask or its run is over its words are gone |
| Contrast.SrgbIsTransfer | scripts/css-ansi-palette.py:125-134 | the sRGB curve, its power of 2.4 included, runs from 0 to 1 and never falls |
| Contrast.Primaries | scripts/css-ansi-palette.py:137-143 | what red, green, blue, white and black are worth |
| Contrast.RatioIs | scripts/css-ansi-palette.py:146-150 | the ratio is the lighter luminance over the darker, 0.05 added to each, whichever comes first |
| Contrast.MixIsNearest | scripts/css-ansi-palette.py:153-165 | a mixed channel is the nearest integer, half a unit counted up |
| Contrast.BlendToContrast | scripts/css-ansi-palette.py:168-190 | says whether the target clears the floor, and if so returns a blend by some k 256ths that clears where k - 1 does not |
| Contrast.EdgeIsLeast | scripts/css-ansi-palette.py:168-190 | where clearing is upward closed, no weaker blend clears and every stronger one does |
| Contrast.LiftIsNearLeast | scripts/css-ansi-palette.py:120-190 | no real factor at or below the step before reaches the floor, and every one that does, up to the step, blends to within one unit per channel of the lift |
| Contrast.BlendMoves | scripts/css-ansi-palette.py:153-165 | a blend towards white or black moves every channel one way only |
| Contrast.AnExtremeClears | scripts/css-ansi-palette.py:146-150 | against one background white or black always reaches 4.5 |
| Contrast.InkIsUpwardClosed | scripts/css-ansi-palette.py:113-118 | against one background clearing is upward closed towards white and towards black, for every ink below the floor |
| Contrast.InkIsRealUpwardClosed | scripts/css-ansi-palette.py:113-118 | and so it is over all real factors, which is what the least real lift is measured against |
| Contrast.FillIsUpwardClosed | scripts/css-ansi-palette.py:168-190 | for every set of inks and every fill that does not carry them all: towards an extreme that does, carrying them is upward closed, over the 256ths and over all real factors |
| Contrast.EnsureContrast | scripts/css-ansi-palette.py:193-217 | the colour itself when it clears, else the lift away from what it must stand out from, else the other one, else the better extreme |
| Contrast.FirstLeadsAway | scripts/css-ansi-palette.py:193-217 | no blend towards the extreme that is tried first comes nearer to what the colour is to stand out from |
| Contrast.EnsuredClearsIff | scripts/css-ansi-palette.py:193-217 | for any score the result clears exactly when the colour, white or black does |
| Contrast.InkIsLegible | scripts/css-ansi-palette.py:193-217 | an ink always comes out legible by the least number of 256ths, so the last fallback is never taken |
| Contrast.WorstIs | scripts/css-ansi-palette.py:312-324 | a fill's score is the ratio of one of its inks, and no ink has a smaller one |
| Contrast.FillIsLeast | scripts/css-ansi-palette.py:312-324 | a fill that can be lifted is lifted by the least number of 256ths towards the first extreme that carries every ink |
| Contrast.DarkestLegibleGrey | scripts/css-ansi-palette.py:236-248 | every grey up to the answer is legible and the next is not; 0 when black is not legible |
| Contrast.LightestIff | scripts/css-ansi-palette.py:236-248 | on every surface the answer is the lightest legible grey exactly when white is not legible or every grey is |
| Contrast.LightestFails | scripts/css-ansi-palette.py:236-248 | on every grey of luminance 0.175 to 11/60 the walk stops below that grey though white is legible |
| Contrast.LightestCanFail | scripts/css-ansi-palette.py:236-248 | grey 117 is such a surface for the sRGB curve |
| Contrast.RampLevels | scripts/css-ansi-palette.py:251-291 | the ramp runs from black to the quietest grey without falling, each level the integer nearest to its third, and has four levels exactly when that is at least 3 |
| Cascade.CollideSymmetric | scripts/css-cascade-audit.py:432-445 | competing is symmetric |
| Cascade.NamesAre | scripts/css-cascade-audit.py:463-484 | a rule's names are the classes and ids it asks for, an id under the class of its name |
| Cascade.CollideIff | scripts/css-cascade-audit.py:432-445 | rules that something can match compete exactly when they set one property, share a name, some element matches both, and, unless pairs are to be found loosely, the names of one are among the other's |
| Cascade.Collect | scripts/css-cascade-audit.py:463-484 | the index lists every rule under each of its bridged names and no other |
| Cascade.CollidingPairs | scripts/css-cascade-audit.py:487-506 | yields exactly the pairs an all-pairs comparison would, each once, the earlier rule first, with the properties they share |
| Cascade.PairsAre | scripts/css-cascade-audit.py:487-506 | so two rules are paired exactly when they compete, and once |
| Cascade.WinsIsCascade | scripts/css-cascade-audit.py:448-460 | asked with the earlier rule first, `wins` follows layer, specificity, place in the bundle |
| Cascade.SpecIsWeight | scripts/css-cascade-audit.py:448-460 | specificity compares as one number whose places are ids, classes and elements |
| Cascade.WinsReversedIff | scripts/css-cascade-audit.py:448-460 | asked the other way round it does so exactly when layer, specificity or stylesheet differ |
| Cascade.TieInOneSheet | scripts/css-cascade-audit.py:448-460 | a pair for which it does not |
| Cascade.UnlayerFlipsIff | scripts/css-cascade-audit.py:4-21 | exactly which pairs flip when any set of stylesheets leaves its layers, in terms of layer, specificity and order, whether one of the two rules leaves or both |
| Cascade.UnlayerCanKeep | scripts/css-cascade-audit.py:4-21 | a competing pair of two layers that does not flip |

## Left out

- `wordMarks`, which pairs deleted with added lines by position: the marks of one pair are modelled.
- The order in which equal-sized groups are listed by `components` follows the source's stable sort; no lemma is about it.
- `runCardOwners` and `turnOrdinalOf` of the block window, and the pointer tier that picks the height estimates: the estimates are a parameter.
- AI suggestions in the conflict editor, whose text is arbitrary, and the overlay that draws hunks.
- The debounce library: one slot with schedule, flush and a timer. It is not claimed that every chat's save reaches the server; `LiveSaveLostIff` says when one does not.
- Composer state before its saver is wired: the model starts afterwards. Elements, listeners and reactive signals are not modelled; the box and the row are fields, and a store record is a parameter.
- Sizes of entries: any function of an entry. Nothing is claimed about lightening making an entry cheaper. IndexedDB, decoding and painting of the snapshot, and its list of chats.
- A tool payload's fields other than output, spans and input are one opaque value, and so is any JSON value that is not a text.
- The dock's hosts as elements, their phases, announcements and toasts: a click is an operation on any decision ever shown. Payloads are reduced to node, text and workflow id.
- The palette's own colours, and the ink that gives a fill its direction: the direction is that of any colour. The packing of a colour into one integer, and the rounding of luminances.
- Parsing of Go and CSS by regular expression, the OKLCH arithmetic and the reports of the three scripts.
- Network, storage, server-sent events, layout measurement, animation and clipboard.
