/**
 * Writing a reordered group back (`replaceGroupInEditor`) and the pass over
 * the whole note (`reorderCheckboxes`).
 *
 * The editor is modelled by its content split at `\n`, a sequence of lines,
 * and `replaceRange` from the start of one line to the start of another by
 * the replacement of that slice of lines with the pieces of the new text.
 * `Pass` is the note after the pass: the groups found in the original lines,
 * each patched in turn when the comparison reports a change.
 */
module Patcher {
  import opened Optional
  import opened CheckboxLine
  import opened Segmenter
  import opened Reorder

  /** `' '.repeat(n)`. */
  function Spaces(n: nat): (s: string)
    ensures |s| == n && forall k :: 0 <= k < n ==> s[k] == ' '
  {
    seq(n, _ => ' ')
  }

  /** The line the plugin writes for an item: indent, `- [`, the marker, `] `, text. */
  function RenderItem(it: CheckboxItem): (s: string)
    ensures |s| == it.indentLevel + 6 + |it.text|
  {
    Spaces(it.indentLevel) + "- [" + [if it.isChecked then 'x' else ' '] + "] " + it.text
  }

  /** The rendered line is the indent, then `- [`, the marker and `] `, then the text. */
  lemma RenderItemLayout(it: CheckboxItem)
    ensures RenderItem(it)[..it.indentLevel] == Spaces(it.indentLevel)
    ensures RenderItem(it)[it.indentLevel..it.indentLevel + 6] == "- [" + [if it.isChecked then 'x' else ' '] + "] "
    ensures RenderItem(it)[it.indentLevel + 6..] == it.text
  {
  }

  /** The rendered lines of a group, one per item (the `map` in `replaceGroupInEditor`). */
  function RenderGroup(g: seq<CheckboxItem>): (ls: seq<string>)
    ensures |ls| == |g|
    ensures forall k :: 0 <= k < |g| ==> ls[k] == RenderItem(g[k])
  {
    seq(|g|, k requires 0 <= k < |g| => RenderItem(g[k]))
  }

  /** A rendered line is matched again, with the item's indent, marker and text, as long
      as the text is one the matcher can produce. */
  lemma RenderRoundTrip(it: CheckboxItem)
    requires CleanText(it.text)
    ensures MatchLine(RenderItem(it)) == Some(CheckboxMatch(it.indentLevel, it.isChecked, it.text))
  {
    var line, n := RenderItem(it), it.indentLevel;
    assert line[n] == '-' && line[n + 1] == ' ' && line[n + 2] == '[' && line[n + 4] == ']' && line[n + 5] == ' ';
    assert line[n + 3] == if it.isChecked then 'x' else ' ';
    assert line[n + 6..] == it.text;
    assert SpacesIn(line, 0, n);
    assert NoTerminatorFrom(line, n + 6) by {
      forall k | n + 6 <= k < |line| ensures !IsLineTerminator(line[k]) {
        assert line[k] == it.text[k - n - 6];
      }
    }
    assert Decomposes(line, n, n + 2, n + 6);
    MatchLineCaptures(line, n, n + 2, n + 6);
  }

  /** A rendered line holds no `\n` when the item's text holds no line terminator. */
  lemma RenderedLineHasNoNewline(it: CheckboxItem)
    requires CleanText(it.text)
    ensures '\n' !in RenderItem(it)
  {
    var line, n := RenderItem(it), it.indentLevel;
    RenderItemLayout(it);
    forall k | 0 <= k < |line| ensures line[k] != '\n' {
      if k < n {
        assert line[k] == line[..n][k];
      } else if k < n + 6 {
        assert line[k] == line[n..n + 6][k - n];
      } else {
        assert line[k] == line[n + 6..][k - n - 6] == it.text[k - n - 6];
      }
    }
  }

  /** `ls.join('\n')`. */
  function JoinLines(ls: seq<string>): (s: string)
    ensures |ls| > 0 ==> |ls[0]| <= |s| && s[..|ls[0]|] == ls[0]
    ensures |ls| > 1 ==> |ls[0]| < |s| && s[|ls[0]|] == '\n'
  {
    if |ls| == 0 then "" else if |ls| == 1 then ls[0] else ls[0] + "\n" + JoinLines(ls[1..])
  }

  /** `s.split('\n')`: the pieces of `s` between its `\n`s; the empty string gives one
      empty piece. */
  function SplitLines(s: string): (ls: seq<string>)
    ensures |ls| > 0
    ensures forall k :: 0 <= k < |ls| ==> '\n' !in ls[k]
  {
    if s == [] then [""]
    else
      var rest := SplitLines(s[1..]);
      if s[0] == '\n' then [""] + rest else [[s[0]] + rest[0]] + rest[1..]
  }

  /** A string without `\n` splits into itself alone. */
  lemma {:induction false} SplitLinesOfLine(x: string)
    requires '\n' !in x
    ensures SplitLines(x) == [x]
  {
    if x != [] {
      SplitLinesOfLine(x[1..]);
      assert [x[0]] + x[1..] == x;
    }
  }

  /** Splitting `x + "\n" + y`, with no `\n` in `x`, gives `x` and then the pieces of `y`. */
  lemma {:induction false} SplitLinesAfterLine(x: string, y: string)
    requires '\n' !in x
    ensures SplitLines(x + "\n" + y) == [x] + SplitLines(y)
  {
    var s := x + "\n" + y;
    if x == [] {
      assert s[0] == '\n' && s[1..] == y;
    } else {
      assert s[0] == x[0] && s[1..] == x[1..] + "\n" + y;
      SplitLinesAfterLine(x[1..], y);
      assert [x[0]] + x[1..] == x;
    }
  }

  /** Joining lines free of `\n` and splitting again gives back the lines. */
  lemma {:induction false} SplitJoinLines(ls: seq<string>)
    requires |ls| > 0 && forall k :: 0 <= k < |ls| ==> '\n' !in ls[k]
    ensures SplitLines(JoinLines(ls)) == ls
  {
    if |ls| == 1 {
      SplitLinesOfLine(ls[0]);
    } else {
      SplitJoinLines(ls[1..]);
      SplitLinesAfterLine(ls[0], JoinLines(ls[1..]));
    }
  }

  /** Splitting a string and joining the pieces gives back the string. */
  lemma {:induction false} JoinSplitLines(s: string)
    ensures JoinLines(SplitLines(s)) == s
  {
    if s != [] {
      var rest := SplitLines(s[1..]);
      JoinSplitLines(s[1..]);
      if s[0] == '\n' {
        assert ([""] + rest)[1..] == rest;
      } else if |rest| == 1 {
        assert [s[0]] + s[1..] == s;
      } else {
        var ls := [[s[0]] + rest[0]] + rest[1..];
        assert ls[1..] == rest[1..];
        assert JoinLines(rest) == rest[0] + "\n" + JoinLines(rest[1..]);
        assert [s[0]] + s[1..] == s;
      }
    }
  }

  /** The block the plugin writes for a group, `newLines.join('\n')` without its final
      `\n`, splits back into the rendered lines when the group is not empty and its texts
      are clean; an empty group's block is one empty line. */
  lemma RenderedBlockLines(r: seq<CheckboxItem>)
    requires forall k :: 0 <= k < |r| ==> CleanText(r[k].text)
    ensures r != [] ==> SplitLines(JoinLines(RenderGroup(r))) == RenderGroup(r)
    ensures r == [] ==> SplitLines(JoinLines(RenderGroup(r))) == [""]
  {
    var ls := RenderGroup(r);
    forall k | 0 <= k < |ls| ensures '\n' !in ls[k] {
      RenderedLineHasNoNewline(r[k]);
    }
    if r != [] {
      SplitJoinLines(ls);
    }
  }

  /** The editor: its content as lines. */
  class Editor {
    var lines: seq<string>

    constructor (content: seq<string>)
      ensures lines == content
    {
      lines := content;
    }

    /** `replaceRange(text, {line: from, ch: 0}, {line: to, ch: 0})` for a `text` that ends
        in `\n`: the lines `from` up to `to` give way to the pieces of `text` before that
        final `\n`. */
    method ReplaceRange(from: nat, to: nat, text: string)
      requires from <= to <= |lines|
      requires |text| > 0 && text[|text| - 1] == '\n'
      modifies this
      ensures lines == old(lines)[..from] + SplitLines(text[..|text| - 1]) + old(lines)[to..]
    {
      lines := lines[..from] + SplitLines(text[..|text| - 1]) + lines[to..];
    }
  }

  /** `replaceGroupInEditor`: the lines from the first item's line through the last
      item's line give way to the rendered reordered group, joined by `\n`. */
  method ReplaceGroupInEditor(editor: Editor, originalGroup: seq<CheckboxItem>, reorderedGroup: seq<CheckboxItem>)
    requires |originalGroup| > 0
    requires originalGroup[0].line <= originalGroup[|originalGroup| - 1].line < |editor.lines|
    modifies editor
    ensures editor.lines ==
      old(editor.lines)[..originalGroup[0].line] + SplitLines(JoinLines(RenderGroup(reorderedGroup)))
      + old(editor.lines)[originalGroup[|originalGroup| - 1].line + 1..]
    ensures reorderedGroup != [] && (forall k :: 0 <= k < |reorderedGroup| ==> CleanText(reorderedGroup[k].text)) ==>
      editor.lines ==
        old(editor.lines)[..originalGroup[0].line] + RenderGroup(reorderedGroup)
        + old(editor.lines)[originalGroup[|originalGroup| - 1].line + 1..]
    ensures reorderedGroup == [] ==>
      editor.lines ==
        old(editor.lines)[..originalGroup[0].line] + [""]
        + old(editor.lines)[originalGroup[|originalGroup| - 1].line + 1..]
  {
    var startLine := originalGroup[0].line;
    var endLine := originalGroup[|originalGroup| - 1].line;
    var newLines := RenderGroup(reorderedGroup);
    var text := JoinLines(newLines) + "\n";
    assert text[..|text| - 1] == JoinLines(newLines);
    editor.ReplaceRange(startLine, endLine + 1, text);
    if reorderedGroup == [] || forall k :: 0 <= k < |reorderedGroup| ==> CleanText(reorderedGroup[k].text) {
      if reorderedGroup == [] {
        assert newLines == [];
      } else {
        RenderedBlockLines(reorderedGroup);
      }
    }
  }

  /** `g` holds consecutive lines of a note of `n` lines. */
  predicate IsContiguous(g: seq<CheckboxItem>, n: nat) {
    && |g| > 0
    && (forall k :: 0 <= k < |g| ==> g[k].line == g[0].line + k)
    && g[0].line + |g| <= n
  }

  /** Groups of consecutive lines, in line order and apart from each other. */
  predicate WellPlaced(gs: seq<seq<CheckboxItem>>, n: nat) {
    && (forall a :: 0 <= a < |gs| ==> IsContiguous(gs[a], n))
    && (forall a, b :: 0 <= a < b < |gs| ==> gs[a][0].line + |gs[a]| <= gs[b][0].line)
  }

  /** Line `i` is one of the group's lines. */
  predicate InGroup(g: seq<CheckboxItem>, i: nat) {
    |g| > 0 && g[0].line <= i < g[0].line + |g|
  }

  lemma LineOfInGroup(g: seq<CheckboxItem>, n: nat, i: nat)
    ensures IsContiguous(g, n) && InGroup(g, i) ==> g[i - g[0].line].line == i
  {
  }

  /** The plugin rewrites a group exactly when the comparison reports a change. */
  predicate Changed(g: seq<CheckboxItem>) {
    GroupDiffers(g, ReorderGroup(g))
  }

  /** A group is reported changed exactly when reordering moves one of its items. */
  lemma ChangedIffMoved(g: seq<CheckboxItem>)
    ensures Changed(g) <==> ReorderGroup(g) != g
  {
    ReorderChangesIffUnpartitioned(g);
    ReorderFixesPartitioned(g);
  }

  lemma SegmentIsWellPlaced(lines: seq<string>)
    ensures WellPlaced(Segment(lines), |lines|)
  {
    var gs: seq<seq<CheckboxItem>> := Segment(lines);
    SegmentGroupsAreMaximal(lines);
    SegmentIsOrdered(lines);
    forall a | 0 <= a < |gs| ensures IsContiguous(gs[a], |lines|) {
      assert MatchesItem(lines, gs[a][|gs[a]| - 1]);
    }
  }

  /** One round of the loop: the group is rewritten when it changed. */
  function Patch(c: seq<string>, g: seq<CheckboxItem>): (r: seq<string>)
    requires IsContiguous(g, |c|)
    ensures |r| == |c|
  {
    if Changed(g) then c[..g[0].line] + RenderGroup(ReorderGroup(g)) + c[g[|g| - 1].line + 1..]
    else c
  }

  lemma PatchIsReplacement(c: seq<string>, g: seq<CheckboxItem>)
    requires IsContiguous(g, |c|)
    ensures Changed(g) ==> Patch(c, g) == c[..g[0].line] + RenderGroup(ReorderGroup(g)) + c[g[|g| - 1].line + 1..]
    ensures !Changed(g) ==> Patch(c, g) == c
  {
  }

  /** The note after the first `k` rounds of the loop. */
  function PatchPrefix(lines: seq<string>, gs: seq<seq<CheckboxItem>>, k: nat): (r: seq<string>)
    requires k <= |gs| && WellPlaced(gs, |lines|)
    ensures |r| == |lines|
  {
    if k == 0 then lines else Patch(PatchPrefix(lines, gs, k - 1), gs[k - 1])
  }

  /** The note after `reorderCheckboxes`. */
  function Pass(lines: seq<string>): (r: seq<string>)
    ensures |r| == |lines|
  {
    SegmentIsWellPlaced(lines);
    PatchPrefix(lines, Segment(lines), |Segment(lines)|)
  }

  /** What a changed group's line becomes, and an unchanged group's stays. */
  function NewLine(lines: seq<string>, g: seq<CheckboxItem>, i: nat): (l: string)
    requires IsContiguous(g, |lines|) && InGroup(g, i)
  {
    if Changed(g) then RenderItem(ReorderGroup(g)[i - g[0].line]) else lines[i]
  }

  lemma PatchAt(c: seq<string>, g: seq<CheckboxItem>, i: nat)
    requires IsContiguous(g, |c|) && i < |c|
    ensures InGroup(g, i) ==> Patch(c, g)[i] == NewLine(c, g, i)
    ensures !InGroup(g, i) ==> Patch(c, g)[i] == c[i]
  {
    if Changed(g) {
      var s := g[0].line;
      if i >= s + |g| {
        assert Patch(c, g)[i] == c[g[|g| - 1].line + 1..][i - s - |g|];
      }
    }
  }

  lemma {:induction false} PatchPrefixOutside(lines: seq<string>, gs: seq<seq<CheckboxItem>>, k: nat, i: nat)
    requires k <= |gs| && WellPlaced(gs, |lines|) && i < |lines|
    requires forall a :: 0 <= a < k ==> !InGroup(gs[a], i)
    ensures PatchPrefix(lines, gs, k)[i] == lines[i]
  {
    if k > 0 {
      PatchPrefixOutside(lines, gs, k - 1, i);
      PatchAt(PatchPrefix(lines, gs, k - 1), gs[k - 1], i);
    }
  }

  lemma {:induction false} PatchPrefixInside(lines: seq<string>, gs: seq<seq<CheckboxItem>>, k: nat, a: nat, i: nat)
    requires k <= |gs| && WellPlaced(gs, |lines|) && a < k && InGroup(gs[a], i)
    ensures PatchPrefix(lines, gs, k)[i] == NewLine(lines, gs[a], i)
  {
    var c := PatchPrefix(lines, gs, k - 1);
    PatchAt(c, gs[k - 1], i);
    if a == k - 1 {
      PatchPrefixOutside(lines, gs, k - 1, i);
    } else {
      PatchPrefixInside(lines, gs, k - 1, a, i);
    }
  }

  /** Line `j` of group `a` after the pass. */
  lemma PassLine(lines: seq<string>, a: nat, j: nat)
    requires a < |Segment(lines)| && j < |Segment(lines)[a]|
    ensures IsContiguous(Segment(lines)[a], |lines|) && InGroup(Segment(lines)[a], Segment(lines)[a][0].line + j)
    ensures Pass(lines)[Segment(lines)[a][0].line + j] == NewLine(lines, Segment(lines)[a], Segment(lines)[a][0].line + j)
  {
    var gs: seq<seq<CheckboxItem>> := Segment(lines);
    SegmentIsWellPlaced(lines);
    PatchPrefixInside(lines, gs, |gs|, a, gs[a][0].line + j);
  }

  /** A group the comparison reports changed is rewritten into its reordered rendering. */
  lemma PassRewritesChangedGroup(lines: seq<string>, a: nat, j: nat)
    requires a < |Segment(lines)| && j < |Segment(lines)[a]| && Changed(Segment(lines)[a])
    ensures Segment(lines)[a][0].line + j < |lines|
    ensures |ReorderGroup(Segment(lines)[a])| == |Segment(lines)[a]|
    ensures Pass(lines)[Segment(lines)[a][0].line + j] == RenderItem(ReorderGroup(Segment(lines)[a])[j])
  {
    PassLine(lines, a, j);
  }

  /** A group the comparison reports unchanged keeps its lines. */
  lemma PassKeepsUnchangedGroup(lines: seq<string>, a: nat, j: nat)
    requires a < |Segment(lines)| && j < |Segment(lines)[a]| && !Changed(Segment(lines)[a])
    ensures Segment(lines)[a][0].line + j < |lines|
    ensures Pass(lines)[Segment(lines)[a][0].line + j] == lines[Segment(lines)[a][0].line + j]
  {
    PassLine(lines, a, j);
  }

  /** Lines that are not checkbox lines are left alone. */
  lemma PassKeepsOtherLines(lines: seq<string>, i: nat)
    requires i < |lines| && !IsCheckbox(lines[i])
    ensures Pass(lines)[i] == lines[i]
  {
    var gs: seq<seq<CheckboxItem>> := Segment(lines);
    SegmentIsWellPlaced(lines);
    SegmentCoversCheckboxLines(lines, i);
    forall a | 0 <= a < |gs| ensures !InGroup(gs[a], i) {
      LineOfInGroup(gs[a], |lines|, i);
    }
    PatchPrefixOutside(lines, gs, |gs|, i);
  }

  /** Reordering keeps the texts, so it keeps them clean. */
  lemma ReorderKeepsCleanText(g: seq<CheckboxItem>)
    ensures (forall k :: 0 <= k < |g| ==> CleanText(g[k].text)) ==>
      forall j :: 0 <= j < |ReorderGroup(g)| ==> CleanText(ReorderGroup(g)[j].text)
  {
    if forall k :: 0 <= k < |g| ==> CleanText(g[k].text) {
      ReorderIsPermutation(g);
      forall j | 0 <= j < |ReorderGroup(g)| ensures CleanText(ReorderGroup(g)[j].text) {
        assert ReorderGroup(g)[j] in multiset(g);
      }
    }
  }

  /** Every text in a group found in the note is one the matcher produced. */
  lemma SegmentTextIsClean(lines: seq<string>, a: nat)
    requires a < |Segment(lines)|
    ensures forall k :: 0 <= k < |Segment(lines)[a]| ==> CleanText(Segment(lines)[a][k].text)
  {
    forall k | 0 <= k < |Segment(lines)[a]| ensures CleanText(Segment(lines)[a][k].text) {
      SegmentItem(lines, a, k);
    }
  }

  /** Every item of a reordered group carries a text the matcher produced. */
  lemma ReorderedTextIsClean(lines: seq<string>, a: nat, j: nat)
    requires a < |Segment(lines)| && j < |ReorderGroup(Segment(lines)[a])|
    ensures CleanText(ReorderGroup(Segment(lines)[a])[j].text)
  {
    SegmentTextIsClean(lines, a);
    ReorderKeepsCleanText(Segment(lines)[a]);
  }

  /** Line `j` of group `a` in `after` is what the pass makes of it. */
  ghost predicate RewrittenLine(lines: seq<string>, after: seq<string>, a: nat, j: nat)
    requires a < |Segment(lines)| && j < |Segment(lines)[a]|
  {
    var g := Segment(lines)[a];
    var i := g[0].line + j;
    && i < |lines| && i < |after|
    && (Changed(g) ==> |ReorderGroup(g)| == |g| && after[i] == RenderItem(ReorderGroup(g)[j]))
    && (!Changed(g) ==> after[i] == lines[i])
  }

  /** `after` is, line by line, what the pass makes of `lines`. */
  ghost predicate IsPassOf(lines: seq<string>, after: seq<string>) {
    && |after| == |lines|
    && (forall i :: 0 <= i < |lines| && !IsCheckbox(lines[i]) ==> after[i] == lines[i])
    && (forall a, j :: 0 <= a < |Segment(lines)| && 0 <= j < |Segment(lines)[a]| ==>
          RewrittenLine(lines, after, a, j))
  }

  lemma PassIsPassOf(lines: seq<string>)
    ensures IsPassOf(lines, Pass(lines))
  {
    forall i | 0 <= i < |lines| && !IsCheckbox(lines[i]) ensures Pass(lines)[i] == lines[i] {
      PassKeepsOtherLines(lines, i);
    }
    forall a, j | 0 <= a < |Segment(lines)| && 0 <= j < |Segment(lines)[a]|
      ensures RewrittenLine(lines, Pass(lines), a, j)
    {
      if Changed(Segment(lines)[a]) {
        PassRewritesChangedGroup(lines, a, j);
      } else {
        PassKeepsUnchangedGroup(lines, a, j);
      }
    }
  }

  lemma ChangedLineMatches(lines: seq<string>, after: seq<string>, a: nat, k: nat)
    requires a < |Segment(lines)| && k < |Segment(lines)[a]| && Changed(Segment(lines)[a])
    requires RewrittenLine(lines, after, a, k)
    ensures |ReorderGroup(Segment(lines)[a])| == |Segment(lines)[a]|
    ensures MatchLine(after[Segment(lines)[a][0].line + k]) == Some(CheckboxMatch(
      ReorderGroup(Segment(lines)[a])[k].indentLevel, ReorderGroup(Segment(lines)[a])[k].isChecked,
      ReorderGroup(Segment(lines)[a])[k].text))
  {
    ReorderedTextIsClean(lines, a, k);
    RenderRoundTrip(ReorderGroup(Segment(lines)[a])[k]);
  }

  lemma UnchangedLineMatches(lines: seq<string>, after: seq<string>, a: nat, k: nat)
    requires a < |Segment(lines)| && k < |Segment(lines)[a]| && !Changed(Segment(lines)[a])
    requires RewrittenLine(lines, after, a, k)
    ensures |ReorderGroup(Segment(lines)[a])| == |Segment(lines)[a]|
    ensures MatchLine(after[Segment(lines)[a][0].line + k]) == Some(CheckboxMatch(
      ReorderGroup(Segment(lines)[a])[k].indentLevel, ReorderGroup(Segment(lines)[a])[k].isChecked,
      ReorderGroup(Segment(lines)[a])[k].text))
  {
    SegmentItem(lines, a, k);
    UnchangedIsReordered(Segment(lines)[a]);
  }

  /** Each line of a group, after the pass, is matched as the item the reordered group
      holds at that position. */
  lemma LineMatchesAfter(lines: seq<string>, after: seq<string>, a: nat, k: nat)
    requires IsPassOf(lines, after) && a < |Segment(lines)| && k < |Segment(lines)[a]|
    ensures Segment(lines)[a][0].line + k < |after|
    ensures |ReorderGroup(Segment(lines)[a])| == |Segment(lines)[a]|
    ensures MatchLine(after[Segment(lines)[a][0].line + k]) == Some(CheckboxMatch(
      ReorderGroup(Segment(lines)[a])[k].indentLevel, ReorderGroup(Segment(lines)[a])[k].isChecked,
      ReorderGroup(Segment(lines)[a])[k].text))
  {
    assert RewrittenLine(lines, after, a, k);
    if Changed(Segment(lines)[a]) {
      ChangedLineMatches(lines, after, a, k);
    } else {
      UnchangedLineMatches(lines, after, a, k);
    }
  }

  lemma MatchesAfter(lines: seq<string>, after: seq<string>, a: nat, k: nat)
    requires IsPassOf(lines, after) && a < |Segment(lines)| && k < |Segment(lines)[a]|
    ensures Segment(lines)[a][0].line + k < |after|
    ensures |ReorderGroup(Segment(lines)[a])| == |Segment(lines)[a]|
    ensures Matches(after)[Segment(lines)[a][0].line + k] == Some(CheckboxMatch(
      ReorderGroup(Segment(lines)[a])[k].indentLevel, ReorderGroup(Segment(lines)[a])[k].isChecked,
      ReorderGroup(Segment(lines)[a])[k].text))
  {
    LineMatchesAfter(lines, after, a, k);
    MatchesAt(after, Segment(lines)[a][0].line + k);
  }

  /** The group and position that hold a checkbox line. */
  lemma LocateCheckboxLine(lines: seq<string>, i: nat) returns (a: nat, k: nat)
    requires i < |lines| && IsCheckbox(lines[i])
    ensures a < |Segment(lines)| && k < |Segment(lines)[a]|
    ensures Segment(lines)[a][0].line + k == i
  {
    var ms := Matches(lines);
    var rs := Runs(ms, 0);
    var gs: seq<seq<CheckboxItem>> := Segment(lines);
    SegmentCoversCheckboxLines(lines, i);
    a, k :| 0 <= a < |gs| && 0 <= k < |gs[a]| && gs[a][k].line == i;
    GroupItem(lines, rs[a], 0);
    GroupItem(lines, rs[a], k);
  }

  lemma CheckboxLineStaysAfter(lines: seq<string>, after: seq<string>, i: nat)
    requires IsPassOf(lines, after) && i < |lines| && IsCheckbox(lines[i])
    ensures IsCheckbox(after[i])
  {
    var a, k := LocateCheckboxLine(lines, i);
    LineMatchesAfter(lines, after, a, k);
  }

  lemma CheckboxLinesAfter(lines: seq<string>, after: seq<string>, i: nat)
    requires IsPassOf(lines, after) && i < |lines|
    ensures IsCheckbox(after[i]) <==> IsCheckbox(lines[i])
  {
    if IsCheckbox(lines[i]) {
      CheckboxLineStaysAfter(lines, after, i);
    }
  }

  lemma RunsAfter(lines: seq<string>, after: seq<string>)
    requires IsPassOf(lines, after)
    ensures SameCheckboxLines(Matches(lines), Matches(after))
    ensures Runs(Matches(after), 0) == Runs(Matches(lines), 0)
  {
    var ms, ms' := Matches(lines), Matches(after);
    forall k | 0 <= k < |ms| ensures ms[k].Some? == ms'[k].Some? {
      CheckboxLinesAfter(lines, after, k);
      MatchesAt(lines, k);
      MatchesAt(after, k);
    }
    RunsDependOnlyOnCheckboxLines(ms, ms', 0);
  }

  /** The item `g[k]` moved to line `start + k`. */
  function Relined(g: seq<CheckboxItem>, start: nat): (r: seq<CheckboxItem>)
    ensures |r| == |g|
    ensures forall k :: 0 <= k < |g| ==> r[k] == g[k].(line := start + k)
  {
    seq(|g|, k requires 0 <= k < |g| => g[k].(line := start + k))
  }

  /** The item a run's group holds at position `k` is what the matcher read there. */
  lemma ItemOfMatch(ms: seq<Option<CheckboxMatch>>, sp: Span, k: nat, it: CheckboxItem)
    requires IsRun(ms, sp) && k < sp.end - sp.start
    requires ms[sp.start + k] == Some(CheckboxMatch(it.indentLevel, it.isChecked, it.text))
    ensures Group(ms, sp)[k] == it.(line := sp.start + k)
  {
    assert Group(ms, sp)[k] == ItemAt(ms, sp.start + k);
  }

  /** A run whose matches are those of `r`, position by position, groups into `r` moved
      onto the run's lines. */
  lemma GroupOfMatchedRun(ms: seq<Option<CheckboxMatch>>, sp: Span, r: seq<CheckboxItem>, start: nat)
    requires IsRun(ms, sp) && start == sp.start && |r| == sp.end - sp.start
    requires forall k :: 0 <= k < |r| ==>
      ms[start + k] == Some(CheckboxMatch(r[k].indentLevel, r[k].isChecked, r[k].text))
    ensures Group(ms, sp) == Relined(r, start)
  {
    forall k | 0 <= k < |r| ensures Group(ms, sp)[k] == Relined(r, sp.start)[k] {
      ItemOfMatch(ms, sp, k, r[k]);
    }
  }

  /** After the pass, the lines of group `a` are matched as the items of its reordering. */
  lemma GroupLinesMatchAfter(lines: seq<string>, after: seq<string>, a: nat)
    requires IsPassOf(lines, after) && a < |Segment(lines)|
    ensures |ReorderGroup(Segment(lines)[a])| == |Segment(lines)[a]|
    ensures Segment(lines)[a][0].line + |Segment(lines)[a]| <= |after|
    ensures forall k :: 0 <= k < |Segment(lines)[a]| ==>
      Matches(after)[Segment(lines)[a][0].line + k] == Some(CheckboxMatch(
        ReorderGroup(Segment(lines)[a])[k].indentLevel, ReorderGroup(Segment(lines)[a])[k].isChecked,
        ReorderGroup(Segment(lines)[a])[k].text))
  {
    var g := Segment(lines)[a];
    MatchesAfter(lines, after, a, |g| - 1);
    forall k | 0 <= k < |g|
      ensures Matches(after)[g[0].line + k] == Some(CheckboxMatch(
        ReorderGroup(g)[k].indentLevel, ReorderGroup(g)[k].isChecked, ReorderGroup(g)[k].text))
    {
      MatchesAfter(lines, after, a, k);
    }
  }

  /** A note with the same runs as `lines`, whose lines in group `a` are matched as the
      items of that group's reordering, has that reordering as its group `a`. */
  lemma RegroupedAfter(lines: seq<string>, after: seq<string>, a: nat, start: nat)
    requires Runs(Matches(after), 0) == Runs(Matches(lines), 0) && a < |Segment(lines)|
    requires start == Segment(lines)[a][0].line
    requires |ReorderGroup(Segment(lines)[a])| == |Segment(lines)[a]|
    requires start + |Segment(lines)[a]| <= |after|
    requires forall k :: 0 <= k < |Segment(lines)[a]| ==>
      Matches(after)[start + k] == Some(CheckboxMatch(
        ReorderGroup(Segment(lines)[a])[k].indentLevel, ReorderGroup(Segment(lines)[a])[k].isChecked,
        ReorderGroup(Segment(lines)[a])[k].text))
    ensures |Segment(after)| == |Segment(lines)|
    ensures Segment(after)[a] == Relined(ReorderGroup(Segment(lines)[a]), start)
  {
    var ms := Matches(lines);
    SegmentAt(lines, a);
    SegmentAt(after, a);
    var sp := Runs(ms, 0)[a];
    GroupItem(lines, sp, 0);
    GroupOfMatchedRun(Matches(after), sp, ReorderGroup(Segment(lines)[a]), start);
  }

  lemma GroupAfter(lines: seq<string>, after: seq<string>, a: nat)
    requires IsPassOf(lines, after) && a < |Segment(lines)|
    ensures |Segment(after)| == |Segment(lines)|
    ensures Segment(after)[a] == Relined(ReorderGroup(Segment(lines)[a]), Segment(lines)[a][0].line)
  {
    RunsAfter(lines, after);
    GroupLinesMatchAfter(lines, after, a);
    RegroupedAfter(lines, after, a, Segment(lines)[a][0].line);
  }

  lemma GroupsPartitionedAfter(lines: seq<string>, after: seq<string>)
    requires IsPassOf(lines, after)
    ensures forall a :: 0 <= a < |Segment(after)| ==> IsPartitioned(Segment(after)[a])
  {
    RunsAfter(lines, after);
    assert |Segment(after)| == |Segment(lines)|;
    forall a | 0 <= a < |Segment(after)| ensures IsPartitioned(Segment(after)[a]) {
      GroupAfter(lines, after, a);
      ReorderIsPartitioned(Segment(lines)[a]);
    }
  }

  /** The pass keeps every checkbox line a checkbox line and every other line another line. */
  lemma PassKeepsCheckboxLines(lines: seq<string>, i: nat)
    requires i < |lines|
    ensures IsCheckbox(Pass(lines)[i]) <==> IsCheckbox(lines[i])
  {
    PassIsPassOf(lines);
    CheckboxLinesAfter(lines, Pass(lines), i);
  }

  /** Each group of the rewritten note holds the same lines as before, and reads as the
      original group reordered: the items of `reorderGroup`, each on its new line. */
  lemma PassRewritesGroupsInOrder(lines: seq<string>, a: nat)
    requires a < |Segment(lines)|
    ensures |Segment(Pass(lines))| == |Segment(lines)|
    ensures Segment(Pass(lines))[a] == Relined(ReorderGroup(Segment(lines)[a]), Segment(lines)[a][0].line)
  {
    PassIsPassOf(lines);
    GroupAfter(lines, Pass(lines), a);
  }

  /** After the pass no group has a checked item above an unchecked one. */
  lemma PassLeavesGroupsPartitioned(lines: seq<string>)
    ensures forall a :: 0 <= a < |Segment(Pass(lines))| ==> IsPartitioned(Segment(Pass(lines))[a])
  {
    PassIsPassOf(lines);
    GroupsPartitionedAfter(lines, Pass(lines));
  }

  lemma {:induction false} PatchPrefixOfPartitioned(lines: seq<string>, gs: seq<seq<CheckboxItem>>, k: nat)
    requires k <= |gs| && WellPlaced(gs, |lines|)
    requires forall a :: 0 <= a < |gs| ==> IsPartitioned(gs[a])
    ensures PatchPrefix(lines, gs, k) == lines
  {
    if k > 0 {
      PatchPrefixOfPartitioned(lines, gs, k - 1);
      ReorderChangesIffUnpartitioned(gs[k - 1]);
    }
  }

  /** A second pass changes nothing. */
  lemma PassIsIdempotent(lines: seq<string>)
    ensures Pass(Pass(lines)) == Pass(lines)
  {
    var after := Pass(lines);
    PassLeavesGroupsPartitioned(lines);
    SegmentIsWellPlaced(after);
    PatchPrefixOfPartitioned(after, Segment(after), |Segment(after)|);
  }

  /** One round of the loop of `reorderCheckboxes`: the group is reordered, compared
      with the original, and written back when the comparison reports a change. */
  method ReorderGroupInEditor(editor: Editor, group: seq<CheckboxItem>)
    requires IsContiguous(group, |editor.lines|)
    modifies editor
    ensures Changed(group) ==>
      editor.lines ==
        old(editor.lines)[..group[0].line] + SplitLines(JoinLines(RenderGroup(ReorderGroup(group))))
        + old(editor.lines)[group[|group| - 1].line + 1..]
    ensures !Changed(group) ==> editor.lines == old(editor.lines)
    ensures (forall k :: 0 <= k < |group| ==> CleanText(group[k].text)) ==>
      editor.lines == Patch(old(editor.lines), group)
  {
    var reorderedGroup := ReorderGroup(group);
    var changed := HasGroupChanged(group, reorderedGroup);
    PatchIsReplacement(editor.lines, group);
    ReorderKeepsCleanText(group);
    if changed {
      ReplaceGroupInEditor(editor, group, reorderedGroup);
    }
  }

  /** `reorderCheckboxes`: with no active note nothing happens; otherwise every group found
      in the content is reordered and, when the comparison reports a change, written back. */
  method ReorderCheckboxes(editor: Editor?)
    modifies editor
    ensures editor != null ==> editor.lines == Pass(old(editor.lines))
  {
    if editor == null {
      return;
    }
    var lines := editor.lines;
    var checkboxGroups := FindCheckboxGroups(lines);
    SegmentIsWellPlaced(lines);
    var k := 0;
    while k < |checkboxGroups|
      invariant k <= |checkboxGroups|
      invariant editor.lines == PatchPrefix(lines, checkboxGroups, k)
    {
      SegmentTextIsClean(lines, k);
      ReorderGroupInEditor(editor, checkboxGroups[k]);
      k := k + 1;
    }
  }
}
