/**
 * The line matcher: the regular expression `^(\s*)-\s*\[([ x])\]\s*(.*)$`
 * applied to one line of the note, and the checkbox item it yields.
 *
 * The expression is modelled twice: `Decomposes` is the language it accepts,
 * stated declaratively over the positions where its parts begin, and
 * `MatchLine` is a deterministic scanner. The lemmas show that the scanner
 * accepts exactly that language and that its captures are the ones the
 * leftmost-greedy backtracking of an ECMAScript engine returns.
 */
module CheckboxLine {
  import opened Optional

  /** ECMAScript `\s`: the WhiteSpace and LineTerminator code points. */
  predicate IsSpace(c: char) {
    || ('\t' <= c <= '\r') || c == ' ' || c == '\U{00A0}' || c == '\U{1680}'
    || ('\U{2000}' <= c <= '\U{200A}') || c == '\U{2028}' || c == '\U{2029}'
    || c == '\U{202F}' || c == '\U{205F}' || c == '\U{3000}' || c == '\U{FEFF}'
  }

  /** The code points that `.` does not match (the regex has no `s` flag). */
  predicate IsLineTerminator(c: char) {
    c == '\n' || c == '\r' || c == '\U{2028}' || c == '\U{2029}'
  }

  /** Every character of `s[i..j]` is whitespace. */
  predicate SpacesIn(s: string, i: nat, j: nat)
    requires i <= j <= |s|
  {
    forall k :: i <= k < j ==> IsSpace(s[k])
  }

  /** No character of `s[i..]` is a line terminator. */
  predicate NoTerminatorFrom(s: string, i: nat)
    requires i <= |s|
  {
    forall k :: i <= k < |s| ==> !IsLineTerminator(s[k])
  }

  /** What the third capture group may hold: `.` characters only, and, because the
      `\s*` before it is greedy, no leading whitespace. */
  predicate CleanText(t: string) {
    (|t| == 0 || !IsSpace(t[0])) && NoTerminatorFrom(t, 0)
  }

  /**
   * `line` splits as  A "-" B "[" m "]" C T  where A = line[..p], B = line[p+1..q],
   * C = line[q+3..r] are runs of `\s`, m is a space or a lower-case `x`, and
   * T = line[r..] is matched by `.*`.
   */
  predicate Decomposes(line: string, p: nat, q: nat, r: nat) {
    && p < q && q + 3 <= r <= |line|
    && SpacesIn(line, 0, p) && line[p] == '-'
    && SpacesIn(line, p + 1, q) && line[q] == '['
    && (line[q + 1] == ' ' || line[q + 1] == 'x') && line[q + 2] == ']'
    && SpacesIn(line, q + 3, r) && NoTerminatorFrom(line, r)
  }

  /** The regular expression accepts `line`. */
  ghost predicate RegexAccepts(line: string) {
    exists p: nat, q: nat, r: nat :: Decomposes(line, p, q, r)
  }

  /** The three capture groups of a successful match, as `main.ts` reads them:
      the length of group 1, whether group 2 is `x`, and group 3. */
  datatype CheckboxMatch = CheckboxMatch(indentLevel: nat, isChecked: bool, text: string)

  /** One checkbox line of the note (the `CheckboxItem` record). */
  datatype CheckboxItem = CheckboxItem(line: nat, text: string, isChecked: bool, indentLevel: nat)

  /** The end of the run of whitespace that starts at `i`. */
  function SkipSpaces(s: string, i: nat): (j: nat)
    requires i <= |s|
    ensures i <= j <= |s|
    ensures SpacesIn(s, i, j)
    ensures j == |s| || !IsSpace(s[j])
    decreases |s| - i
  {
    if i < |s| && IsSpace(s[i]) then SkipSpaces(s, i + 1) else i
  }

  /** The match of one line, or `None` when the regular expression rejects it. */
  function MatchLine(line: string): (m: Option<CheckboxMatch>)
    ensures m.Some? ==> CleanText(m.value.text) && m.value.indentLevel < |line|
  {
    var p := SkipSpaces(line, 0);
    if p < |line| && line[p] == '-' then
      var q := SkipSpaces(line, p + 1);
      if q + 2 < |line| && line[q] == '[' && (line[q + 1] == ' ' || line[q + 1] == 'x') && line[q + 2] == ']' then
        var r := SkipSpaces(line, q + 3);
        if NoTerminatorFrom(line, r) then Some(CheckboxMatch(p, line[q + 1] == 'x', line[r..]))
        else None
      else None
    else None
  }

  /** A whitespace run that ends at a non-whitespace character is the longest one. */
  lemma {:induction false} ForcedRun(s: string, i: nat, j: nat)
    requires i <= j < |s| && SpacesIn(s, i, j) && !IsSpace(s[j])
    ensures SkipSpaces(s, i) == j
    decreases j - i
  {
    if i < j {
      ForcedRun(s, i + 1, j);
    }
  }

  /** Every decomposition has the positions the scanner finds, except that the
      last whitespace run may be cut short. */
  lemma DecompositionPositions(line: string, p: nat, q: nat, r: nat)
    requires Decomposes(line, p, q, r)
    ensures SkipSpaces(line, 0) == p
    ensures SkipSpaces(line, p + 1) == q
    ensures r <= SkipSpaces(line, q + 3)
  {
    ForcedRun(line, 0, p);
    ForcedRun(line, p + 1, q);
  }

  /** The scanner accepts exactly the lines the regular expression accepts. */
  lemma MatchLineAccepts(line: string)
    ensures MatchLine(line).Some? <==> RegexAccepts(line)
  {
    if MatchLine(line).Some? {
      var p := SkipSpaces(line, 0);
      var q := SkipSpaces(line, p + 1);
      var r := SkipSpaces(line, q + 3);
      assert Decomposes(line, p, q, r);
    }
    if RegexAccepts(line) {
      var p: nat, q: nat, r: nat :| Decomposes(line, p, q, r);
      MatchLineCaptures(line, p, q, r);
    }
  }

  /**
   * The captures are those of the leftmost-greedy match: the indent is the whole
   * leading whitespace run, the marker is the character after `[`, and the text
   * is the shortest tail that any decomposition leaves to `.*`, itself the tail
   * of a decomposition.
   */
  lemma MatchLineCaptures(line: string, p: nat, q: nat, r: nat)
    requires Decomposes(line, p, q, r)
    ensures MatchLine(line).Some?
    ensures MatchLine(line).value.indentLevel == p
    ensures MatchLine(line).value.isChecked <==> line[q + 1] == 'x'
    ensures |MatchLine(line).value.text| <= |line| - r
    ensures Decomposes(line, p, q, |line| - |MatchLine(line).value.text|)
    ensures MatchLine(line).value.text == line[|line| - |MatchLine(line).value.text|..]
  {
    DecompositionPositions(line, p, q, r);
    var r' := SkipSpaces(line, q + 3);
    assert NoTerminatorFrom(line, r');
    assert MatchLine(line) == Some(CheckboxMatch(p, line[q + 1] == 'x', line[r'..]));
  }
}
