/**
 * The model's results on concrete notes, proved: single lines through the
 * matcher, and a two-line group through the whole pass.
 */
module Scenarios {
  import opened Optional
  import opened CheckboxLine
  import opened Segmenter
  import opened Reorder
  import opened Patcher
  import opened Debounce

  /** The spaces around the brackets are optional, and the marker is read. */
  lemma TightCheckboxMatches()
    ensures MatchLine("-[x]foo") == Some(CheckboxMatch(0, true, "foo"))
  {
    var s := "-[x]foo";
    assert SkipSpaces(s, 0) == 0;
    assert SkipSpaces(s, 1) == 1;
    assert SkipSpaces(s, 4) == 4;
    assert s[4..] == "foo";
  }

  /** An upper-case marker is not a checkbox. */
  lemma UpperCaseMarkerIsText()
    ensures !IsCheckbox("- [X] foo")
  {
    var s := "- [X] foo";
    assert SkipSpaces(s, 0) == 0;
    assert SkipSpaces(s, 1) == 2 by {
      assert SkipSpaces(s, 2) == 2;
    }
  }

  /** A line ending in a carriage return (a note with CRLF line ends split at `\n`)
      is not matched: `.` does not match `\r` and `$` only matches at the very end. */
  lemma CarriageReturnLineIsText()
    ensures !IsCheckbox("- [ ] a\r")
  {
    var s := "- [ ] a\r";
    assert SkipSpaces(s, 0) == 0;
    assert SkipSpaces(s, 1) == 2 by {
      assert SkipSpaces(s, 2) == 2;
    }
    assert SkipSpaces(s, 5) == 6 by {
      assert SkipSpaces(s, 6) == 6;
    }
    assert IsLineTerminator(s[7]);
  }

  /** A `\r` right after `]` is white space for the last `\s*`: the line is a checked
      item with empty text. */
  lemma CarriageReturnAfterMarkerIsEmptyItem()
    ensures MatchLine("- [x]\r") == Some(CheckboxMatch(0, true, ""))
  {
    var s := "- [x]\r";
    assert SkipSpaces(s, 0) == 0;
    assert SkipSpaces(s, 1) == 2 by {
      assert SkipSpaces(s, 2) == 2;
    }
    assert SkipSpaces(s, 5) == 6;
    assert s[6..] == "";
  }

  const Note: seq<string> := ["  - [x] done", "  - [ ] todo"]
  const Done := CheckboxItem(0, "done", true, 2)
  const Todo := CheckboxItem(1, "todo", false, 2)

  /** The note's lines are the renderings of its two items. */
  lemma NoteIsRendered()
    ensures RenderItem(Done) == Note[0] && RenderItem(Todo) == Note[1]
  {
  }

  lemma NoteLinesMatch()
    ensures MatchLine(Note[0]) == Some(CheckboxMatch(2, true, "done"))
    ensures MatchLine(Note[1]) == Some(CheckboxMatch(2, false, "todo"))
  {
    NoteIsRendered();
    assert CleanText("done") && CleanText("todo");
    RenderRoundTrip(Done);
    RenderRoundTrip(Todo);
  }

  /** Two lines read as the items `x` and `y` form one group of those two items. */
  lemma TwoCheckboxLinesAreOneGroup(lines: seq<string>, x: CheckboxItem, y: CheckboxItem)
    requires |lines| == 2 && x.line == 0 && y.line == 1
    requires MatchesItem(lines, x) && MatchesItem(lines, y)
    ensures Segment(lines) == [[x, y]]
  {
    assert forall i :: 0 <= i < |lines| ==> IsCheckbox(lines[i]) by {
      forall i | 0 <= i < |lines| ensures IsCheckbox(lines[i]) {
        if i == 0 { assert lines[i] == lines[x.line]; } else { assert lines[i] == lines[y.line]; }
      }
    }
    SegmentOfAllCheckboxes(lines);
    SegmentGroupsAreMaximal(lines);
    var g := Segment(lines)[0];
    assert ReadsConsecutiveLines(lines, g);
    SameLineSameItem(lines, g[0], x);
    SameLineSameItem(lines, g[1], y);
    assert g == [x, y];
  }

  /** The matcher's reading of a line determines the item made of it. */
  lemma SameLineSameItem(lines: seq<string>, it1: CheckboxItem, it2: CheckboxItem)
    requires MatchesItem(lines, it1) && MatchesItem(lines, it2) && it1.line == it2.line
    ensures it1 == it2
  {
  }

  /** The note is one group of two items. */
  lemma NoteIsOneGroup()
    ensures Segment(Note) == [[Done, Todo]]
  {
    NoteLinesMatch();
    TwoCheckboxLinesAreOneGroup(Note, Done, Todo);
  }

  lemma NoteGroupIsReordered()
    ensures ReorderGroup([Done, Todo]) == [Todo, Done]
    ensures Changed([Done, Todo])
  {
    var g := [Done, Todo];
    assert WithStatus(g, false) == [Todo];
    assert WithStatus(g, true) == [Done];
    assert g[0].text != ReorderGroup(g)[0].text;
  }

  /** A done item above a to-do item at indent 2: the pass swaps the two lines, and
      each keeps its indent. */
  lemma DoneAboveTodo()
    ensures Pass(Note) == [Note[1], Note[0]]
  {
    NoteIsRendered();
    NoteIsOneGroup();
    NoteGroupIsReordered();
    PairIsSwapped(Note, Done, Todo);
  }

  /** A two-line note that is one changed group, reordered into its second item then its
      first, and whose lines render those items: the pass swaps the lines. */
  lemma PairIsSwapped(lines: seq<string>, x: CheckboxItem, y: CheckboxItem)
    requires |lines| == 2 && Segment(lines) == [[x, y]]
    requires ReorderGroup([x, y]) == [y, x] && Changed([x, y])
    requires RenderItem(x) == lines[0] && RenderItem(y) == lines[1]
    ensures Pass(lines) == [lines[1], lines[0]]
  {
    PairIsRewritten(lines, x, y);
  }

  /** A two-line note that is one changed group, reordered into its second item then its
      first: the pass writes the renderings of the two items, in swapped order. */
  lemma PairIsRewritten(lines: seq<string>, x: CheckboxItem, y: CheckboxItem)
    requires |lines| == 2 && Segment(lines) == [[x, y]]
    requires ReorderGroup([x, y]) == [y, x] && Changed([x, y])
    ensures Pass(lines) == [RenderItem(y), RenderItem(x)]
  {
    PassRewritesChangedGroup(lines, 0, 0);
    PassRewritesChangedGroup(lines, 0, 1);
  }

  /** A checked item above an unchecked one: the two swap, and the group is reported
      changed. */
  lemma CheckedAboveUncheckedSwaps(x: CheckboxItem, y: CheckboxItem)
    requires x.isChecked && !y.isChecked
    ensures ReorderGroup([x, y]) == [y, x] && Changed([x, y])
  {
    var g := [x, y];
    ChangedIffMoved(g);
    assert WithStatus(g, false) == [y] by {
      assert WithStatus(g[1..], false) == [y];
    }
    assert WithStatus(g, true) == [x] by {
      assert WithStatus(g[1..], true) == [];
    }
  }

  const TabNote: seq<string> := ["\t- [x] a", "\t- [ ] b"]
  const TabDone := CheckboxItem(0, "a", true, 1)
  const TabTodo := CheckboxItem(1, "b", false, 1)

  lemma TabNoteLinesMatch()
    ensures MatchLine(TabNote[0]) == Some(CheckboxMatch(1, true, "a"))
    ensures MatchLine(TabNote[1]) == Some(CheckboxMatch(1, false, "b"))
  {
    var s, t := TabNote[0], TabNote[1];
    assert SkipSpaces(s, 0) == 1 by {
      assert SkipSpaces(s, 1) == 1;
    }
    assert SkipSpaces(s, 2) == 3 by {
      assert SkipSpaces(s, 3) == 3;
    }
    assert SkipSpaces(s, 6) == 7 by {
      assert SkipSpaces(s, 7) == 7;
    }
    assert s[7..] == "a";
    assert SkipSpaces(t, 0) == 1 by {
      assert SkipSpaces(t, 1) == 1;
    }
    assert SkipSpaces(t, 2) == 3 by {
      assert SkipSpaces(t, 3) == 3;
    }
    assert SkipSpaces(t, 6) == 7 by {
      assert SkipSpaces(t, 7) == 7;
    }
    assert t[7..] == "b";
  }

  /** The tab-indented note is one group of its two items. */
  lemma TabNoteIsOneGroup()
    ensures Segment(TabNote) == [[TabDone, TabTodo]]
  {
    TabNoteLinesMatch();
    TwoCheckboxLinesAreOneGroup(TabNote, TabDone, TabTodo);
  }

  /** A tab indent is counted as one character and written back as one space: the
      pass swaps the two items and rewrites their indents as spaces. */
  lemma TabIndentBecomesSpace()
    ensures Pass(TabNote) == [" - [ ] b", " - [x] a"]
  {
    TabNoteIsOneGroup();
    CheckedAboveUncheckedSwaps(TabDone, TabTodo);
    PairIsRewritten(TabNote, TabDone, TabTodo);
    TabItemsRendered();
  }

  /** The two items are written with one space of indent. */
  lemma TabItemsRendered()
    ensures RenderItem(TabTodo) == " - [ ] b" && RenderItem(TabDone) == " - [x] a"
  {
  }

  /** A plugin built from the default settings: a click on a checkbox schedules one
      timer, of 300 ms, and records it. */
  method DefaultClickSchedulesOneTimer() returns (p: Plugin)
    ensures p.Valid()
    ensures p.settings == DefaultSettings
    ensures p.reorderTimeout.Some?
    ensures p.window.pending == map[p.reorderTimeout.value := 300]
  {
    var w := new Window();
    p := new Plugin(DefaultSettings, w);
    p.OnDocumentClick(Some([CheckboxClass]));
  }
}
