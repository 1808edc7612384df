/**
 * The group segmenter (`findCheckboxGroups`): split the lines of a note into
 * maximal contiguous runs of checkbox lines.
 *
 * `Runs` describes the runs as half-open line ranges, `Segment` the groups of
 * items they hold; the method `FindCheckboxGroups` is the plugin's single
 * forward pass and is proved to compute `Segment`.
 */
module Segmenter {
  import opened Optional
  import opened CheckboxLine

  predicate IsCheckbox(line: string) {
    MatchLine(line).Some?
  }

  /** The matcher's verdict on every line; segmentation looks at nothing else. */
  function Matches(lines: seq<string>): (ms: seq<Option<CheckboxMatch>>)
    ensures |ms| == |lines|
  {
    if lines == [] then [] else Matches(lines[..|lines| - 1]) + [MatchLine(lines[|lines| - 1])]
  }

  lemma {:induction false} MatchesAt(lines: seq<string>, i: nat)
    requires i < |lines|
    ensures Matches(lines)[i] == MatchLine(lines[i])
  {
    if i < |lines| - 1 {
      MatchesAt(lines[..|lines| - 1], i);
    }
  }

  /** The item made of line `i`. */
  function ItemAt(ms: seq<Option<CheckboxMatch>>, i: nat): (it: CheckboxItem)
    requires i < |ms| && ms[i].Some?
    ensures it.line == i
    ensures ms[i] == Some(CheckboxMatch(it.indentLevel, it.isChecked, it.text))
  {
    CheckboxItem(i, ms[i].value.text, ms[i].value.isChecked, ms[i].value.indentLevel)
  }

  /** The half-open line range [start, end). */
  datatype Span = Span(start: nat, end: nat)

  /** A non-empty range of checkbox lines. */
  predicate IsRun(ms: seq<Option<CheckboxMatch>>, sp: Span) {
    && sp.start < sp.end <= |ms|
    && forall k :: sp.start <= k < sp.end ==> ms[k].Some?
  }

  /** A run that cannot be extended on either side. */
  predicate IsMaximalRun(ms: seq<Option<CheckboxMatch>>, sp: Span) {
    && IsRun(ms, sp)
    && (sp.start == 0 || ms[sp.start - 1].None?)
    && (sp.end == |ms| || ms[sp.end].None?)
  }

  /** The end of the run of checkbox lines that starts at `i`. */
  function RunEnd(ms: seq<Option<CheckboxMatch>>, i: nat): (e: nat)
    requires i <= |ms|
    ensures i <= e <= |ms|
    ensures forall k :: i <= k < e ==> ms[k].Some?
    ensures e == |ms| || ms[e].None?
    decreases |ms| - i
  {
    if i == |ms| || ms[i].None? then i else RunEnd(ms, i + 1)
  }

  /** The runs of checkbox lines in `ms[i..]`, in line order. */
  function Runs(ms: seq<Option<CheckboxMatch>>, i: nat): (rs: seq<Span>)
    requires i <= |ms|
    ensures forall a :: 0 <= a < |rs| ==>
      && IsRun(ms, rs[a]) && i <= rs[a].start
      && (rs[a].end == |ms| || ms[rs[a].end].None?)
    decreases |ms| - i
  {
    if i == |ms| then []
    else if ms[i].None? then Runs(ms, i + 1)
    else
      var e := RunEnd(ms, i);
      [Span(i, e)] + Runs(ms, e)
  }

  /** The items of one run, one per line. */
  function Group(ms: seq<Option<CheckboxMatch>>, sp: Span): (g: seq<CheckboxItem>)
    requires IsRun(ms, sp)
  {
    seq(sp.end - sp.start, k requires 0 <= k < sp.end - sp.start => ItemAt(ms, sp.start + k))
  }

  function Groups(ms: seq<Option<CheckboxMatch>>, rs: seq<Span>): (gs: seq<seq<CheckboxItem>>)
    requires forall a :: 0 <= a < |rs| ==> IsRun(ms, rs[a])
    ensures |gs| == |rs|
    ensures forall a :: 0 <= a < |rs| ==> gs[a] == Group(ms, rs[a])
  {
    if rs == [] then [] else [Group(ms, rs[0])] + Groups(ms, rs[1..])
  }

  /** The groups `findCheckboxGroups` returns for `lines`. */
  function Segment(lines: seq<string>): (gs: seq<seq<CheckboxItem>>)
    ensures forall a :: 0 <= a < |gs| ==> gs[a] != []
  {
    var ms := Matches(lines);
    Groups(ms, Runs(ms, 0))
  }

  /** The state of the scan after the lines before `i`: `groups` holds the groups of the
      closed runs `done`, and `currentGroup` those of the open run [start, i). */
  ghost predicate ScanState(ms: seq<Option<CheckboxMatch>>, i: nat, start: nat, done: seq<Span>,
                            groups: seq<seq<CheckboxItem>>, currentGroup: seq<CheckboxItem>)
  {
    && start <= i <= |ms|
    && (forall a :: 0 <= a < |done| ==> IsRun(ms, done[a]))
    && groups == Groups(ms, done)
    && (currentGroup == [] ==> start == i && done + Runs(ms, i) == Runs(ms, 0))
    && (currentGroup != [] ==>
          && start < i && IsRun(ms, Span(start, i)) && RunEnd(ms, start) == RunEnd(ms, i)
          && currentGroup == Group(ms, Span(start, i))
          && done + Runs(ms, start) == Runs(ms, 0))
  }

  /** What the scan holds after the lines before `i`: the closed groups and the open one. */
  datatype ScanResult = ScanResult(groups: seq<seq<CheckboxItem>>, current: seq<CheckboxItem>)

  function Scan(ms: seq<Option<CheckboxMatch>>, i: nat): (r: ScanResult)
    requires i <= |ms|
  {
    if i == 0 then ScanResult([], [])
    else
      var prev := Scan(ms, i - 1);
      if ms[i - 1].Some? then ScanResult(prev.groups, prev.current + [ItemAt(ms, i - 1)])
      else if |prev.current| > 0 then ScanResult(prev.groups + [prev.current], [])
      else prev
  }

  /** The scan keeps `ScanState`; the start of the open run and the closed runs are its witnesses. */
  lemma {:induction false} ScanKeepsState(ms: seq<Option<CheckboxMatch>>, i: nat) returns (start: nat, done: seq<Span>)
    requires i <= |ms|
    ensures ScanState(ms, i, start, done, Scan(ms, i).groups, Scan(ms, i).current)
  {
    if i == 0 {
      start, done := 0, [];
    } else {
      var st, dn := ScanKeepsState(ms, i - 1);
      if ms[i - 1].Some? {
        ScanMatching(ms, i - 1, st, dn);
        start, done := st, dn;
      } else if |Scan(ms, i - 1).current| > 0 {
        ScanClose(ms, i - 1, st, dn);
        start, done := i, dn + [Span(st, i - 1)];
      } else {
        ScanSkip(ms, i - 1, st, dn);
        start, done := i, dn;
      }
    }
  }

  /** Closing the open group after the last line gives the runs' groups. */
  lemma ScanComputesGroups(ms: seq<Option<CheckboxMatch>>)
    ensures var r := Scan(ms, |ms|);
      (if |r.current| > 0 then r.groups + [r.current] else r.groups) == Groups(ms, Runs(ms, 0))
  {
    var start, done := ScanKeepsState(ms, |ms|);
    ScanEnd(ms, start, done, Scan(ms, |ms|).groups, Scan(ms, |ms|).current);
  }

  /** The loop of `findCheckboxGroups`: push matching lines onto the current group, close it at a
      non-matching line and once more after the last line. */
  method FindCheckboxGroups(lines: seq<string>) returns (groups: seq<seq<CheckboxItem>>)
    ensures groups == Segment(lines)
  {
    groups := [];
    var currentGroup: seq<CheckboxItem> := [];
    ghost var ms := Matches(lines);
    var i := 0;
    while i < |lines|
      invariant i <= |lines|
      invariant ScanResult(groups, currentGroup) == Scan(ms, i)
    {
      var line := lines[i];
      var checkboxMatch := MatchLine(line);
      MatchesAt(lines, i);
      if checkboxMatch.Some? {
        var item := CheckboxItem(i, checkboxMatch.value.text, checkboxMatch.value.isChecked,
                                 checkboxMatch.value.indentLevel);
        currentGroup := currentGroup + [item];
      } else if |currentGroup| > 0 {
        groups := groups + [currentGroup];
        currentGroup := [];
      }
      i := i + 1;
    }
    ScanComputesGroups(ms);
    if |currentGroup| > 0 {
      groups := groups + [currentGroup];
    }
  }

  /** A checkbox line extends the open group. */
  lemma ScanMatching(ms: seq<Option<CheckboxMatch>>, i: nat, start: nat, done: seq<Span>)
    requires i < |ms| && ms[i].Some?
    requires ScanState(ms, i, start, done, Scan(ms, i).groups, Scan(ms, i).current)
    ensures ScanState(ms, i + 1, start, done, Scan(ms, i + 1).groups, Scan(ms, i + 1).current)
  {
    var prev := Scan(ms, i);
    assert Scan(ms, i + 1) == ScanResult(prev.groups, prev.current + [ItemAt(ms, i)]);
    assert RunEnd(ms, i) == RunEnd(ms, i + 1);
    assert IsRun(ms, Span(start, i + 1));
    if prev.current == [] {
      assert Group(ms, Span(start, i + 1)) == [ItemAt(ms, i)];
    } else {
      assert Group(ms, Span(start, i + 1)) == Group(ms, Span(start, i)) + [ItemAt(ms, i)];
    }
  }

  /** Any other line closes the open group. */
  lemma ScanClose(ms: seq<Option<CheckboxMatch>>, i: nat, start: nat, done: seq<Span>)
    requires i < |ms| && ms[i].None? && Scan(ms, i).current != []
    requires ScanState(ms, i, start, done, Scan(ms, i).groups, Scan(ms, i).current)
    ensures ScanState(ms, i + 1, i + 1, done + [Span(start, i)], Scan(ms, i + 1).groups, Scan(ms, i + 1).current)
  {
    var prev := Scan(ms, i);
    assert Scan(ms, i + 1) == ScanResult(prev.groups + [prev.current], []);
    assert Runs(ms, i) == Runs(ms, i + 1);
    assert Runs(ms, start) == [Span(start, i)] + Runs(ms, i);
    assert done + Runs(ms, start) == (done + [Span(start, i)]) + Runs(ms, i + 1);
    GroupsSnoc(ms, done, Span(start, i));
  }

  /** ... and when there is no open group it is skipped. */
  lemma ScanSkip(ms: seq<Option<CheckboxMatch>>, i: nat, start: nat, done: seq<Span>)
    requires i < |ms| && ms[i].None? && Scan(ms, i).current == []
    requires ScanState(ms, i, start, done, Scan(ms, i).groups, Scan(ms, i).current)
    ensures ScanState(ms, i + 1, i + 1, done, Scan(ms, i + 1).groups, Scan(ms, i + 1).current)
  {
    assert Scan(ms, i + 1) == Scan(ms, i);
    assert Runs(ms, i) == Runs(ms, i + 1);
  }

  /** After the last line the open group, if there is one, is the last group. */
  lemma ScanEnd(ms: seq<Option<CheckboxMatch>>, start: nat, done: seq<Span>,
                groups: seq<seq<CheckboxItem>>, currentGroup: seq<CheckboxItem>)
    requires ScanState(ms, |ms|, start, done, groups, currentGroup)
    ensures currentGroup == [] ==> groups == Groups(ms, Runs(ms, 0))
    ensures currentGroup != [] ==> groups + [currentGroup] == Groups(ms, Runs(ms, 0))
  {
    if currentGroup == [] {
      assert done == Runs(ms, 0);
    } else {
      assert Runs(ms, start) == [Span(start, |ms|)];
      assert done + [Span(start, |ms|)] == Runs(ms, 0);
      GroupsSnoc(ms, done, Span(start, |ms|));
    }
  }

  lemma GroupsSnoc(ms: seq<Option<CheckboxMatch>>, rs: seq<Span>, sp: Span)
    requires IsRun(ms, sp) && forall a :: 0 <= a < |rs| ==> IsRun(ms, rs[a])
    ensures Groups(ms, rs + [sp]) == Groups(ms, rs) + [Group(ms, sp)]
  {
    var l, r := Groups(ms, rs + [sp]), Groups(ms, rs) + [Group(ms, sp)];
    assert |l| == |r|;
    forall a | 0 <= a < |l| ensures l[a] == r[a] {
      if a < |rs| {
        assert (rs + [sp])[a] == rs[a];
      } else {
        assert (rs + [sp])[a] == sp;
      }
    }
  }

  /** A run starts at `i` or right after a line that is not a checkbox. */
  lemma {:induction false} RunsStartAfterGap(ms: seq<Option<CheckboxMatch>>, i: nat)
    requires i <= |ms|
    ensures forall a :: 0 <= a < |Runs(ms, i)| ==>
      Runs(ms, i)[a].start == i || ms[Runs(ms, i)[a].start - 1].None?
    decreases |ms| - i
  {
    if i < |ms| {
      if ms[i].None? {
        RunsStartAfterGap(ms, i + 1);
      } else {
        var e := RunEnd(ms, i);
        if e < |ms| {
          var rs, tail := Runs(ms, i), Runs(ms, e + 1);
          assert Runs(ms, e) == tail;
          assert rs == [Span(i, e)] + tail;
          RunsStartAfterGap(ms, e + 1);
          forall a | 1 <= a < |rs| ensures rs[a].start == i || ms[rs[a].start - 1].None? {
            assert rs[a] == tail[a - 1];
          }
        }
      }
    }
  }

  /** Runs come in line order, with a non-checkbox line between neighbours. */
  lemma {:induction false} RunsAreOrdered(ms: seq<Option<CheckboxMatch>>, i: nat)
    requires i <= |ms|
    ensures forall a, b :: 0 <= a < b < |Runs(ms, i)| ==> Runs(ms, i)[a].end < Runs(ms, i)[b].start
    decreases |ms| - i
  {
    if i < |ms| {
      if ms[i].None? {
        RunsAreOrdered(ms, i + 1);
      } else {
        var e := RunEnd(ms, i);
        var rs, tail := Runs(ms, i), Runs(ms, e);
        RunsAreOrdered(ms, e);
        assert rs == [Span(i, e)] + tail;
        forall b | 0 <= b < |tail| ensures e < tail[b].start {
          assert ms[tail[b].start].Some?;
        }
      }
    }
  }

  /** Every checkbox line from `i` on lies in one of the runs. */
  lemma {:induction false} RunsCover(ms: seq<Option<CheckboxMatch>>, i: nat, k: nat)
    requires i <= k < |ms| && ms[k].Some?
    ensures exists a :: 0 <= a < |Runs(ms, i)| && Runs(ms, i)[a].start <= k < Runs(ms, i)[a].end
    decreases |ms| - i
  {
    if ms[i].None? {
      RunsCover(ms, i + 1, k);
      assert Runs(ms, i) == Runs(ms, i + 1);
    } else {
      var e := RunEnd(ms, i);
      var rs, tail := Runs(ms, i), Runs(ms, e);
      assert rs == [Span(i, e)] + tail;
      if k < e {
        assert rs[0].start <= k < rs[0].end;
      } else {
        RunsCover(ms, e, k);
        var a :| 0 <= a < |tail| && tail[a].start <= k < tail[a].end;
        assert rs[a + 1] == tail[a];
      }
    }
  }

  /** `it` is what the matcher makes of its own line. */
  predicate MatchesItem(lines: seq<string>, it: CheckboxItem) {
    it.line < |lines| && MatchLine(lines[it.line]) == Some(CheckboxMatch(it.indentLevel, it.isChecked, it.text))
  }

  /** Each item is the match of its line, and the items sit on consecutive lines. */
  predicate ReadsConsecutiveLines(lines: seq<string>, g: seq<CheckboxItem>) {
    forall k :: 0 <= k < |g| ==> g[k].line == g[0].line + k && MatchesItem(lines, g[k])
  }

  /** Line `i` is the first line of the note or follows a line that is not a checkbox. */
  predicate OpensBlock(lines: seq<string>, i: nat)
    requires i <= |lines|
  {
    i == 0 || !IsCheckbox(lines[i - 1])
  }

  /** Line `i` is past the end of the note or is not a checkbox. */
  predicate ClosesBlock(lines: seq<string>, i: nat)
    requires i <= |lines|
  {
    i == |lines| || !IsCheckbox(lines[i])
  }

  /** A group: consecutive lines, each the match of its line, bounded on both sides
      by the edge of the note or by a line that is not a checkbox. */
  predicate IsMaximalGroup(lines: seq<string>, g: seq<CheckboxItem>) {
    && |g| > 0
    && g[0].line + |g| <= |lines|
    && ReadsConsecutiveLines(lines, g)
    && OpensBlock(lines, g[0].line)
    && ClosesBlock(lines, g[0].line + |g|)
  }

  /** Item `k` of a run's group is the match of line `start + k`. */
  lemma GroupItem(lines: seq<string>, sp: Span, k: nat)
    requires IsRun(Matches(lines), sp) && k < sp.end - sp.start
    ensures Group(Matches(lines), sp)[k].line == sp.start + k
    ensures MatchesItem(lines, Group(Matches(lines), sp)[k])
  {
    var ms := Matches(lines);
    assert Group(ms, sp)[k] == ItemAt(ms, sp.start + k);
    MatchesAt(lines, sp.start + k);
  }

  /** Group `a` of the note is the group of its `a`-th run. */
  lemma SegmentAt(lines: seq<string>, a: nat)
    ensures |Segment(lines)| == |Runs(Matches(lines), 0)|
    ensures a < |Segment(lines)| ==> Segment(lines)[a] == Group(Matches(lines), Runs(Matches(lines), 0)[a])
  {
  }

  /** Item `k` of group `a` sits `k` lines below the group's first line, and is what the
      matcher reads there. */
  lemma SegmentItem(lines: seq<string>, a: nat, k: nat)
    requires a < |Segment(lines)| && k < |Segment(lines)[a]|
    ensures Segment(lines)[a][k].line == Segment(lines)[a][0].line + k
    ensures MatchesItem(lines, Segment(lines)[a][k])
  {
    SegmentAt(lines, a);
    var sp := Runs(Matches(lines), 0)[a];
    GroupItem(lines, sp, 0);
    GroupItem(lines, sp, k);
  }

  /** A run's group holds the matches of the run's lines, one per line, in order. */
  lemma GroupItems(lines: seq<string>, sp: Span)
    requires IsRun(Matches(lines), sp)
    ensures |Group(Matches(lines), sp)| == sp.end - sp.start
    ensures Group(Matches(lines), sp)[0].line == sp.start
    ensures ReadsConsecutiveLines(lines, Group(Matches(lines), sp))
  {
    var g := Group(Matches(lines), sp);
    GroupItem(lines, sp, 0);
    forall k | 0 <= k < |g| ensures g[k].line == g[0].line + k && MatchesItem(lines, g[k]) {
      GroupItem(lines, sp, k);
    }
  }

  /** A line the matcher rejects is not a checkbox line. */
  lemma NotCheckbox(lines: seq<string>, i: nat)
    requires i < |lines| && Matches(lines)[i].None?
    ensures !IsCheckbox(lines[i])
  {
    MatchesAt(lines, i);
  }

  /** The line just above a maximal run is not a checkbox line. */
  lemma MaximalRunStart(lines: seq<string>, sp: Span)
    requires IsMaximalRun(Matches(lines), sp)
    ensures sp.start == 0 || !IsCheckbox(lines[sp.start - 1])
  {
    if sp.start > 0 {
      NotCheckbox(lines, sp.start - 1);
    }
  }

  /** The line just below a maximal run is not a checkbox line. */
  lemma MaximalRunEnd(lines: seq<string>, sp: Span)
    requires IsMaximalRun(Matches(lines), sp)
    ensures sp.end == |lines| || !IsCheckbox(lines[sp.end])
  {
    if sp.end < |lines| {
      NotCheckbox(lines, sp.end);
    }
  }

  lemma GroupOfMaximalRun(lines: seq<string>, sp: Span)
    requires IsMaximalRun(Matches(lines), sp)
    ensures IsMaximalGroup(lines, Group(Matches(lines), sp))
  {
    GroupItems(lines, sp);
    MaximalRunStart(lines, sp);
    MaximalRunEnd(lines, sp);
  }

  /** Every group is a maximal run of consecutive checkbox lines. */
  lemma SegmentGroupsAreMaximal(lines: seq<string>)
    ensures forall a :: 0 <= a < |Segment(lines)| ==> IsMaximalGroup(lines, Segment(lines)[a])
  {
    var ms := Matches(lines);
    var rs := Runs(ms, 0);
    RunsStartAfterGap(ms, 0);
    forall a | 0 <= a < |rs| ensures IsMaximalGroup(lines, Segment(lines)[a]) {
      GroupOfMaximalRun(lines, rs[a]);
    }
  }

  /** Groups come out in line order, with at least one other line between neighbours. */
  lemma SegmentIsOrdered(lines: seq<string>)
    ensures forall a, b :: 0 <= a < b < |Segment(lines)| ==>
      && |Segment(lines)[a]| > 0 && |Segment(lines)[b]| > 0
      && Segment(lines)[a][|Segment(lines)[a]| - 1].line + 1 < Segment(lines)[b][0].line
  {
    var ms := Matches(lines);
    var rs := Runs(ms, 0);
    var gs: seq<seq<CheckboxItem>> := Segment(lines);
    assert gs == Groups(ms, rs);
    RunsAreOrdered(ms, 0);
    forall a, b | 0 <= a < b < |gs|
      ensures |gs[a]| > 0 && |gs[b]| > 0 && gs[a][|gs[a]| - 1].line + 1 < gs[b][0].line
    {
      GroupItem(lines, rs[a], rs[a].end - rs[a].start - 1);
      GroupItem(lines, rs[b], 0);
    }
  }

  /** A line is a checkbox line exactly when some group holds an item for it. */
  lemma SegmentCoversCheckboxLines(lines: seq<string>, i: nat)
    requires i < |lines|
    ensures IsCheckbox(lines[i]) <==>
      exists a, k :: 0 <= a < |Segment(lines)| && 0 <= k < |Segment(lines)[a]| && Segment(lines)[a][k].line == i
  {
    var ms := Matches(lines);
    var rs := Runs(ms, 0);
    var gs: seq<seq<CheckboxItem>> := Segment(lines);
    MatchesAt(lines, i);
    if IsCheckbox(lines[i]) {
      RunsCover(ms, 0, i);
      var a :| 0 <= a < |rs| && rs[a].start <= i < rs[a].end;
      GroupItem(lines, rs[a], i - rs[a].start);
    }
    if exists a, k :: 0 <= a < |gs| && 0 <= k < |gs[a]| && gs[a][k].line == i {
      var a, k :| 0 <= a < |gs| && 0 <= k < |gs[a]| && gs[a][k].line == i;
      GroupItem(lines, rs[a], k);
    }
  }

  /** No line is held by two items. */
  lemma SegmentItemsAreDistinct(lines: seq<string>, a: nat, k: nat, b: nat, l: nat)
    requires a < |Segment(lines)| && k < |Segment(lines)[a]|
    requires b < |Segment(lines)| && l < |Segment(lines)[b]|
    requires Segment(lines)[a][k].line == Segment(lines)[b][l].line
    ensures a == b && k == l
  {
    var ms := Matches(lines);
    var rs := Runs(ms, 0);
    RunsAreOrdered(ms, 0);
    GroupItem(lines, rs[a], k);
    GroupItem(lines, rs[b], l);
  }

  /** A note without checkbox lines has no groups. */
  lemma SegmentWithoutCheckboxes(lines: seq<string>)
    requires forall i :: 0 <= i < |lines| ==> !IsCheckbox(lines[i])
    ensures Segment(lines) == []
  {
    var ms := Matches(lines);
    var rs := Runs(ms, 0);
    if rs != [] {
      GroupItem(lines, rs[0], 0);
      assert false;
    }
  }

  /** A note made only of checkbox lines is one group holding every line. */
  lemma SegmentOfAllCheckboxes(lines: seq<string>)
    requires |lines| > 0 && forall i :: 0 <= i < |lines| ==> IsCheckbox(lines[i])
    ensures |Segment(lines)| == 1 && |Segment(lines)[0]| == |lines|
    ensures forall k :: 0 <= k < |lines| ==> Segment(lines)[0][k].line == k
  {
    var ms := Matches(lines);
    forall k | 0 <= k < |ms| ensures ms[k].Some? {
      MatchesAt(lines, k);
    }
    assert RunEnd(ms, 0) == |ms|;
    assert Runs(ms, 0) == [Span(0, |ms|)];
    forall k | 0 <= k < |lines| ensures Segment(lines)[0][k].line == k {
      GroupItem(lines, Span(0, |ms|), k);
    }
  }

  /** The same lines are checkbox lines in `ms1` and `ms2`. */
  predicate SameCheckboxLines(ms1: seq<Option<CheckboxMatch>>, ms2: seq<Option<CheckboxMatch>>) {
    |ms1| == |ms2| && forall k :: 0 <= k < |ms1| ==> ms1[k].Some? == ms2[k].Some?
  }

  lemma {:induction false} RunEndDependsOnlyOnCheckboxLines(ms1: seq<Option<CheckboxMatch>>, ms2: seq<Option<CheckboxMatch>>, i: nat)
    requires SameCheckboxLines(ms1, ms2) && i <= |ms1|
    ensures RunEnd(ms1, i) == RunEnd(ms2, i)
    decreases |ms1| - i
  {
    if i < |ms1| && ms1[i].Some? {
      RunEndDependsOnlyOnCheckboxLines(ms1, ms2, i + 1);
    }
  }

  /** Where the runs lie depends only on which lines are checkbox lines. */
  lemma {:induction false} RunsDependOnlyOnCheckboxLines(ms1: seq<Option<CheckboxMatch>>, ms2: seq<Option<CheckboxMatch>>, i: nat)
    requires SameCheckboxLines(ms1, ms2) && i <= |ms1|
    ensures Runs(ms1, i) == Runs(ms2, i)
    decreases |ms1| - i
  {
    if i < |ms1| {
      if ms1[i].None? {
        RunsDependOnlyOnCheckboxLines(ms1, ms2, i + 1);
      } else {
        RunEndDependsOnlyOnCheckboxLines(ms1, ms2, i);
        RunsDependOnlyOnCheckboxLines(ms1, ms2, RunEnd(ms1, i));
      }
    }
  }
}
