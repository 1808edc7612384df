# Apple-Notes-style checkbox reordering, modelled in Dafny

The plugin watches clicks on checkboxes in a Markdown note. A short while after
a click it rewrites the note so that, in every block of consecutive checkbox
lines, the unchecked items come first and the checked items follow. Each item
keeps its text, the width of its indentation (counted in characters and
rewritten as that many spaces), and its order among items of the same state.

The model covers the whole reordering path of `main.ts`:

- the line pattern `^(\s*)-\s*\[([ x])\]\s*(.*)$` and its three captures
  (`checkbox_line.dfy`, module `CheckboxLine`);
- `findCheckboxGroups`, the single forward scan that splits the lines into
  groups (`segmenter.dfy`, module `Segmenter`);
- `reorderGroup`, the two filters, and `hasGroupChanged`, the comparison loop
  (`reorder.dfy`, module `Reorder`);
- `replaceGroupInEditor` and the loop of `reorderCheckboxes`, over an editor
  that holds the note as a sequence of lines (`patcher.dfy`, module `Patcher`);
- the plugin object: its settings, the debounced click handler, the timer
  callback and `onunload`, over a table of pending timers
  (`plugin.dfy`, module `Debounce`);
- the model's results on a few concrete lines and a two-line note, proved
  (`scenarios.dfy`, module `Scenarios`).

`option.dfy` holds the `Option` type that stands for `null` and failed matches.

How the pieces are specified:

- The pattern is modelled twice: `Decomposes` is the set of lines it accepts,
  stated over where its parts begin, and `MatchLine` is a deterministic scanner.
  The lemmas prove the two agree. They also prove the captures are the ones
  leftmost-greedy backtracking returns.
- `FindCheckboxGroups` is the plugin's loop. It is proved to return
  `Segment(lines)`, the groups of the maximal runs of checkbox lines. The
  `Segment*` lemmas then prove what the groups are: maximal, in line order,
  covering every checkbox line, and holding each line once.
- `Pass(lines)` is the note after one run of `reorderCheckboxes`. The method
  `ReorderCheckboxes` is proved to leave the editor holding exactly `Pass` of
  its old content. The `Pass*` lemmas prove:
  - lines outside groups are untouched;
  - unchanged groups are untouched;
  - a changed group is replaced by its rendered reordering;
  - checkbox lines stay checkbox lines;
  - the group structure of the new note is the old one, reordered;
  - a second pass changes nothing.

Details of `main.ts` the model follows:
- Between `-` and `[`, and after `]`, the pattern accepts any `\s` character,
  not only spaces. This includes tabs, no-break spaces and the other ECMAScript
  white space.
- The captured text never starts with white space, because the `\s*` before it
  is greedy.
- The captured text never contains a line terminator, because `.` does not
  match one and `$` only matches at the very end. A line ending in `\r` is a
  checkbox line only when nothing but white space follows `]`, and its text is
  then empty (`- [x]` followed by `\r` is a checked item with empty text).
- The code keeps a line-offset accumulator (`main.ts:60,68`) and passes it to
  `replaceGroupInEditor`, whose body never uses it. It sums the lengths of all
  groups, not any shift in line numbers, so it would be wrong if it were used.
  No offset is needed: a reordered group has as many lines as the original, so
  the line numbers found before the loop remain valid after every replacement.
- A rewritten line is written as `' '.repeat(indentLevel)` followed by exactly
  `- [m] ` (`main.ts:132-134`). Its indent becomes spaces, so a tab or a no-break
  space becomes one space, and the spacing around `-`, `[` and `]` becomes single
  spaces: `-[x]foo` is written back as `- [x] foo`. Lines of unchanged groups are
  not rewritten.
- After a timer fires, `reorderTimeout` keeps the stale handle. It is never
  reset to `null`.

## Model

| member | source | states |
|---|---|---|
| CheckboxLine.SkipSpaces | main.ts:78 | each `\s*` of the pattern takes the whole white-space run: the result ends the run, and every character skipped is white space |
| CheckboxLine.MatchLine | main.ts:78-83 | a match's indent is a position inside the line, and its text has no leading white space and no line terminator |
| CheckboxLine.MatchLineAccepts | main.ts:78-80 | the line matches exactly when it decomposes as white space, `-`, white space, `[`, a space or `x`, `]`, white space, and a tail free of line terminators |
| CheckboxLine.MatchLineCaptures | main.ts:78-83 | for any such decomposition: the indent is the length of the leading white-space run; the item is checked exactly when the marker is `x`; the text is the shortest tail any decomposition leaves, and is itself a decomposition's tail |
| Segmenter.ItemAt | main.ts:85-90 | the `CheckboxItem` record made of line `i` carries that line number and the matcher's indent, checked state and text |
| Segmenter.RunEnd | main.ts:76-96 | the run of checkbox lines starting at `i` ends at the first line that is not a checkbox, or at the end |
| Segmenter.Runs | main.ts:72-104 | every span listed is a non-empty run of checkbox lines, lies at or after `i`, and ends at a non-checkbox line or at the end of the note |
| Segmenter.Groups | main.ts:85-101 | one group per run, holding the items of that run's lines |
| Segmenter.Segment | main.ts:92-101 | no group returned is empty: a group is pushed only when it holds an item |
| Segmenter.ScanKeepsState | main.ts:76-97 | after each line the accumulated groups are those of the runs already closed, and the current group is the items of the open run |
| Segmenter.ScanComputesGroups | main.ts:99-103 | closing the open group after the last line gives exactly the groups of all runs |
| Segmenter.FindCheckboxGroups | main.ts:72-104 | the loop returns `Segment(lines)` |
| Segmenter.RunsStartAfterGap | main.ts:91-95 | every run starts at the first line scanned or right after a non-checkbox line |
| Segmenter.RunsAreOrdered | main.ts:92-100 | runs come in line order, with at least one non-checkbox line between neighbours |
| Segmenter.RunsCover | main.ts:80-90 | every checkbox line lies in some run |
| Segmenter.GroupItem | main.ts:81-90 | item `k` of a run's group sits on line `start + k` and carries that line's indent, marker and text |
| Segmenter.SegmentAt | main.ts:72-104 | there is one group per run, and group `a` is the group of run `a` |
| Segmenter.SegmentItem | main.ts:85-90 | item `k` of a group sits `k` lines below the group's first line and is the match of that line |
| Segmenter.GroupItems | main.ts:81-90 | a run's group has one item per line of the run, on consecutive lines, each the match of its line |
| Segmenter.MaximalRunStart | main.ts:91-95 | the line above a maximal run is not a checkbox line |
| Segmenter.MaximalRunEnd | main.ts:91-101 | the line below a maximal run is not a checkbox line, or the run reaches the end of the note |
| Segmenter.GroupOfMaximalRun | main.ts:72-104 | a maximal run's group is a maximal group |
| Segmenter.SegmentGroupsAreMaximal | main.ts:72-104 | each returned group is non-empty, sits on consecutive lines whose matches are its items, and is bounded by the edge of the note or by non-checkbox lines |
| Segmenter.SegmentIsOrdered | main.ts:92-100 | groups come in line order with a gap of at least one line between neighbours |
| Segmenter.SegmentCoversCheckboxLines | main.ts:80-96 | a line is a checkbox line exactly when some group holds an item for it |
| Segmenter.SegmentItemsAreDistinct | main.ts:85-90 | no line is held by two items |
| Segmenter.SegmentWithoutCheckboxes | main.ts:91-103 | a note without checkbox lines yields no groups |
| Segmenter.SegmentOfAllCheckboxes | main.ts:76-101 | a non-empty note of only checkbox lines yields one group holding every line in order |
| Segmenter.RunEndDependsOnlyOnCheckboxLines | main.ts:80-96 | where a run ends depends only on which lines are checkbox lines |
| Segmenter.RunsDependOnlyOnCheckboxLines | main.ts:80-96 | where the runs lie depends only on which lines are checkbox lines |
| Reorder.ReorderGroup | main.ts:106-112 | the reordered group has as many items as the group |
| Reorder.WithStatus | main.ts:108-109 | the filter keeps no more items than it is given, all of the requested state |
| Reorder.WithStatusAppend | main.ts:108-109 | filtering distributes over concatenation |
| Reorder.WithStatusOfUniform | main.ts:108-109 | filtering a group of one state keeps all of it by that state and nothing by the other |
| Reorder.WithStatusSplits | main.ts:108-109 | together the two filters hold every item of the group, each as often as in the group |
| Reorder.ReorderIsPermutation | main.ts:106-112 | the reordered group has the same length and the same items, counted with multiplicity, as the group |
| Reorder.ReorderIsPartitioned | main.ts:106-112 | no checked item comes before an unchecked one in the result |
| Reorder.ReorderIsStable | main.ts:108-111 | the unchecked items, and the checked items, keep their relative order |
| Reorder.PartitionedSplit | main.ts:108-111 | a partitioned group is its unchecked items followed by its checked items |
| Reorder.StablePartitionIsUnique | main.ts:106-112 | any partitioned sequence that keeps both orders is the result |
| Reorder.ReorderIsIdempotent | main.ts:106-112 | reordering twice is reordering once |
| Reorder.ReorderFixesPartitioned | main.ts:106-112 | reordering leaves a group as it is exactly when the group is already partitioned |
| Reorder.GroupDiffers | main.ts:114-125 | identical groups are never reported changed |
| Reorder.View | main.ts:118-119 | the view holds each item's text and checked state, position by position |
| Reorder.GroupDiffersIffViewsDiffer | main.ts:114-125 | the comparison ignores line numbers and indentation: two groups differ exactly when their texts-and-states differ |
| Reorder.ReorderChangesIffUnpartitioned | main.ts:63-64 | a group is reported changed exactly when it has a checked item above an unchecked one |
| Reorder.UnchangedIsReordered | main.ts:63-64 | a group reported unchanged is its own reordering |
| Reorder.UniformGroupIsUnchanged | main.ts:114-125 | groups of at most one item, and groups all of one state, are reported unchanged |
| Reorder.HasGroupChanged | main.ts:114-125 | the length test and the early-return loop return exactly `GroupDiffers` |
| Patcher.Spaces | main.ts:132 | `n` spaces |
| Patcher.RenderItem | main.ts:132-134 | a rendered line is as long as the indent, the six characters `- [`, marker, `] `, and the text |
| Patcher.RenderItemLayout | main.ts:132-134 | a rendered line is `indentLevel` spaces, then `- [`, `x` or a space as the item is checked or not, and `] `, then the text |
| Patcher.RenderGroup | main.ts:131-135 | one rendered line per item, in order |
| Patcher.RenderRoundTrip | main.ts:78-83 | a rendered item whose text the matcher could have produced is matched back with that item's indent, state and text |
| Patcher.RenderedLineHasNoNewline | main.ts:132-134 | a rendered line holds no `\n` when the item's text holds no line terminator |
| Patcher.JoinLines | main.ts:140 | `join('\n')` begins with the first line, followed by `\n` when there is a second |
| Patcher.SplitLines | main.ts:55 | `split('\n')` gives at least one piece, and no piece holds `\n` |
| Patcher.SplitLinesOfLine | main.ts:55 | a string without `\n` splits into itself alone |
| Patcher.SplitLinesAfterLine | main.ts:55 | splitting a line, a `\n` and a rest gives the line followed by the pieces of the rest |
| Patcher.SplitJoinLines | main.ts:140 | joining a non-empty list of lines free of `\n` with `\n` and splitting again gives back the list |
| Patcher.JoinSplitLines | main.ts:55 | joining the pieces of a split with `\n` gives back the string |
| Patcher.RenderedBlockLines | main.ts:131-140 | the block written for a non-empty group with clean texts reads back as its rendered lines; an empty group's block is one empty line |
| Patcher.Editor.constructor | main.ts:53-55 | the editor holds the note's lines |
| Patcher.Editor.ReplaceRange | main.ts:137-140 | the lines from `from` up to `to` give way to the pieces between the `\n`s of the replacement text, which ends in `\n`; all other lines stay |
| Patcher.ReplaceGroupInEditor | main.ts:127-141 | the lines from the group's first line through its last line are replaced by the pieces of the rendered reordered group joined by `\n`: the rendered lines themselves when the group is not empty and its texts are clean, and one empty line when it is empty |
| Patcher.SegmentIsWellPlaced | main.ts:57 | the groups found sit on consecutive lines inside the note, apart and in order |
| Patcher.ChangedIffMoved | main.ts:63-64 | `hasGroupChanged(group, reorderGroup(group))`, the test each round branches on, holds exactly when reordering moves an item of the group |
| Patcher.Patch | main.ts:63-67 | one round of the loop keeps the note's length |
| Patcher.PatchPrefix | main.ts:62-69 | the rounds keep the note's length |
| Patcher.Pass | main.ts:49-70 | the pass keeps the number of lines |
| Patcher.PatchAt | main.ts:63-67 | a round changes only the group's own lines, and each to what the comparison calls for |
| Patcher.PatchPrefixOutside | main.ts:62-69 | a line outside the groups handled so far is unchanged |
| Patcher.PatchPrefixInside | main.ts:62-69 | later rounds leave the lines of an earlier group as that group's round wrote them |
| Patcher.PassLine | main.ts:62-69 | after the pass, line `j` of group `a` is what group `a`'s own round made of it |
| Patcher.PassRewritesChangedGroup | main.ts:64-66 | each line of a changed group becomes the rendering of the reordered group's item at that position |
| Patcher.PassKeepsUnchangedGroup | main.ts:64 | an unchanged group keeps its lines |
| Patcher.PassKeepsOtherLines | main.ts:49-70 | a line that is not a checkbox line is unchanged |
| Patcher.ReorderKeepsCleanText | main.ts:106-112 | reordering a group whose texts are clean gives a group whose texts are clean |
| Patcher.SegmentTextIsClean | main.ts:81-90 | every text in a group found in the note is one the matcher produced |
| Patcher.ReorderedTextIsClean | main.ts:83 | every item of a reordered group carries a text the matcher produced |
| Patcher.PassIsPassOf | main.ts:49-70 | the pass satisfies the line-by-line description used by the remaining lemmas |
| Patcher.ChangedLineMatches | main.ts:131-140 | a rewritten line is matched as the reordered group's item at that position |
| Patcher.UnchangedLineMatches | main.ts:64 | a line of an unchanged group is matched as the reordered item at its position |
| Patcher.LineMatchesAfter | main.ts:62-69 | after the pass, each group line is matched as the reordered item at its position |
| Patcher.MatchesAfter | main.ts:62-69 | the same fact, for the sequence of the new note's matches |
| Patcher.LocateCheckboxLine | main.ts:80-96 | every checkbox line is line `start + k` of some group `a` |
| Patcher.CheckboxLineStaysAfter | main.ts:62-69 | a checkbox line is still a checkbox line after the pass |
| Patcher.CheckboxLinesAfter | main.ts:62-69 | a line is a checkbox line after the pass exactly when it was one before |
| Patcher.RunsAfter | main.ts:62-69 | the new note has its checkbox lines, and so its runs, where the old note had them |
| Patcher.Relined | main.ts:85-86 | item `k` moved to line `start + k`, all else as it was |
| Patcher.ItemOfMatch | main.ts:81-90 | a run's item at position `k` is what the matcher read on that line |
| Patcher.GroupOfMatchedRun | main.ts:81-90 | a run whose matches are the items of `r` groups into `r`, moved onto the run's lines |
| Patcher.GroupLinesMatchAfter | main.ts:62-69 | after the pass, the lines of group `a` are matched as its reordered items |
| Patcher.RegroupedAfter | main.ts:62-69 | a note with the same runs, whose lines in group `a` are matched as that group's reordered items, has the reordering, on the same lines, as its group `a` |
| Patcher.GroupAfter | main.ts:62-69 | the new note has as many groups, and group `a` is the reordering of old group `a` on the same lines |
| Patcher.GroupsPartitionedAfter | main.ts:62-69 | after the pass no group has a checked item above an unchecked one |
| Patcher.PassKeepsCheckboxLines | main.ts:49-70 | the pass keeps every checkbox line a checkbox line and every other line another line |
| Patcher.PassRewritesGroupsInOrder | main.ts:49-70 | the groups of the new note are the old groups reordered, each on its old lines |
| Patcher.PassLeavesGroupsPartitioned | main.ts:49-70 | every group of the new note is partitioned |
| Patcher.PatchPrefixOfPartitioned | main.ts:62-69 | when every group is already partitioned the loop writes nothing |
| Patcher.PassIsIdempotent | main.ts:49-70 | a second pass leaves the note as the first left it |
| Patcher.ReorderGroupInEditor | main.ts:63-67 | one round of the loop: an unchanged group leaves the editor as it is; a changed one is replaced by the split block of its rendered reordering; for a group with clean texts the result is `Patch` of the old lines |
| Patcher.ReorderCheckboxes | main.ts:49-70 | with no active note nothing happens; otherwise the editor ends holding `Pass` of its old lines |
| Debounce.Window.constructor | main.ts:22 | no timer is pending |
| Debounce.Window.SetTimeout | main.ts:45-47 | a fresh positive handle is returned and its timer is added to the pending ones |
| Debounce.Window.ClearTimeout | main.ts:40-42 | the handle's timer, if pending, is removed; nothing else changes |
| Debounce.Window.Fire | main.ts:45-46 | a firing timer leaves the pending table |
| Debounce.Plugin.constructor | main.ts:21-26 | the plugin starts with the loaded settings and no recorded timer |
| Debounce.Plugin.HandleCheckboxClick | main.ts:37-47 | with reordering off nothing changes; otherwise the pending table holds exactly one timer, new, with the configured delay, and it is the recorded one |
| Debounce.Plugin.OnDocumentClick | main.ts:29-34 | a click on anything but an element with the checkbox class, or any click while reordering is off, changes nothing; a checkbox click while reordering is on leaves exactly one pending timer, the recorded one, with the configured delay |
| Debounce.Plugin.OnTimeout | main.ts:45-46 | after the recorded timer fires no timer is pending, the note is `Pass` of its old lines, and `reorderTimeout` still holds the fired handle |
| Debounce.Plugin.OnUnload | main.ts:143-147 | no timer is pending afterwards |
| Debounce.IsSet | main.ts:40 | `null` and `0` are falsy and every positive handle is truthy |
| Debounce.RecordedHandleIsTruthy | main.ts:40-41 | with the plugin's invariant, the test on `reorderTimeout` is true exactly when a handle is recorded |
| Debounce.AtMostOnePending | main.ts:37-47 | at most one timer is ever pending, and a pending timer is the recorded one |
| Scenarios.TightCheckboxMatches | main.ts:78-83 | `-[x]foo` is a checked item with text `foo` and indent 0 |
| Scenarios.UpperCaseMarkerIsText | main.ts:78 | `- [X] foo` is not a checkbox line |
| Scenarios.CarriageReturnLineIsText | main.ts:55 | `- [ ] a` followed by `\r` is not a checkbox line |
| Scenarios.CarriageReturnAfterMarkerIsEmptyItem | main.ts:78-83 | `- [x]` followed by `\r` is a checked item with empty text and indent 0 |
| Scenarios.NoteLinesMatch | main.ts:78-83 | the two lines of the sample note match with indent 2 |
| Scenarios.SameLineSameItem | main.ts:81-90 | two items the matcher reads from the same line are the same item |
| Scenarios.TwoCheckboxLinesAreOneGroup | main.ts:72-104 | two lines that both match form one group of their two items |
| Scenarios.NoteIsOneGroup | main.ts:72-104 | the sample note is one group of two items |
| Scenarios.NoteGroupIsReordered | main.ts:106-125 | its group is reordered to-do first and reported changed |
| Scenarios.PairIsSwapped | main.ts:49-70 | a two-line note that is one changed group, reordered into its second item then its first, comes out with its two lines swapped |
| Scenarios.DoneAboveTodo | main.ts:49-70 | the pass swaps the done line and the to-do line |
| Scenarios.PairIsRewritten | main.ts:49-70 | a two-line note that is one changed group, reordered into its second item then its first, comes out as the renderings of those two items |
| Scenarios.CheckedAboveUncheckedSwaps | main.ts:106-125 | a checked item above an unchecked one: the two swap and the group is reported changed |
| Scenarios.TabNoteLinesMatch | main.ts:78-83 | a tab before `- [x] a` and before `- [ ] b` counts as an indent of one character |
| Scenarios.TabNoteIsOneGroup | main.ts:72-104 | the tab-indented note is one group of its two items |
| Scenarios.TabItemsRendered | main.ts:131-135 | its items are written with one space of indent |
| Scenarios.TabIndentBecomesSpace | main.ts:49-70 | the pass turns the tab-indented `- [x] a`, `- [ ] b` into ` - [ ] b`, ` - [x] a`: swapped, each tab written as a space |
| Scenarios.DefaultClickSchedulesOneTimer | main.ts:8-11 | a plugin built from the default settings schedules one 300 ms timer on a checkbox click, and records it |

## Left out

- `main-simple.ts` only logs on load and unload; there is nothing in it to model.
- The host application is not modelled. Finding the active Markdown view becomes
  the `Editor?` parameter of `ReorderCheckboxes`, with `null` for no view. Reading the
  content and splitting it at `\n` becomes an editor that already holds the lines.
- Patcher.Editor.ReplaceRange: models the editor's content as its lines and only
  replacement texts that end in `\n`, the one form the plugin passes; the lines from
  `from` up to `to` give way to the pieces of the text before that final `\n`. The
  plugin's range ends at the start of the line after the group. When the group ends
  on the note's last line, that position lies past the end of the note and is
  clipped by the editor. The extra trailing newline this may leave is not modelled.
- `modified` and `baseIndentLevel` are never read, and `replaceGroupInEditor` ignores
  the `lineOffset` it is passed; all three are left out.
- The settings tab, `loadSettings` and `saveSettings` are left out; the plugin is
  built from settings already loaded.
- `onload` itself is left out: it only loads settings, adds the tab and registers
  the listener that `OnDocumentClick` models.
- Time is left out. Timers are an abstract table of pending handles. Firing a
  timer is an event the caller chooses. Debounce.Window.SetTimeout: hands out
  handles in increasing order; this is one admissible choice of the positive
  handles a browser returns. The window serves only this plugin's timers.
- Characters are Unicode scalar values, while the plugin's strings are UTF-16.
  Lone surrogates cannot be written in the model. `\s` is the fixed set of
  ECMAScript white space and line terminators.
