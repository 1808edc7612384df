/**
 * Reordering one group (`reorderGroup`) and deciding whether the reordered
 * group differs from the original (`hasGroupChanged`).
 *
 * `ReorderGroup` is the two filters and the concatenation of `main.ts`. The
 * lemmas show it is the unique stable partition of the group into unchecked
 * then checked items, a permutation, and idempotent; `GroupDiffers` is the
 * comparison `hasGroupChanged` performs, shown to look only at the texts and
 * checked flags, and to hold for a reordered group exactly when the group was
 * not already in order.
 */
module Reorder {
  import opened CheckboxLine

  /** The items of `g` whose checked flag is `checked`, in their original order
      (one `filter` call). */
  function WithStatus(g: seq<CheckboxItem>, checked: bool): (r: seq<CheckboxItem>)
    ensures |r| <= |g|
    ensures forall k :: 0 <= k < |r| ==> r[k].isChecked == checked
  {
    if g == [] then []
    else (if g[0].isChecked == checked then [g[0]] else []) + WithStatus(g[1..], checked)
  }

  /** The group with its unchecked items first and its checked items after them. */
  function ReorderGroup(g: seq<CheckboxItem>): (r: seq<CheckboxItem>)
    ensures |r| == |g|
  {
    WithStatusSplits(g);
    var r := WithStatus(g, false) + WithStatus(g, true);
    assert |multiset(r)| == |multiset(g)|;
    r
  }

  /** No checked item comes before an unchecked one. */
  predicate IsPartitioned(g: seq<CheckboxItem>) {
    forall i, j :: 0 <= i < j < |g| && g[i].isChecked ==> g[j].isChecked
  }

  lemma {:induction false} WithStatusAppend(a: seq<CheckboxItem>, b: seq<CheckboxItem>, checked: bool)
    ensures WithStatus(a + b, checked) == WithStatus(a, checked) + WithStatus(b, checked)
    decreases |a|
  {
    if a == [] {
      assert a + b == b;
    } else {
      assert (a + b)[1..] == a[1..] + b;
      WithStatusAppend(a[1..], b, checked);
    }
  }

  /** Filtering a filtered sequence again keeps everything; by the other flag, nothing. */
  lemma {:induction false} WithStatusOfUniform(g: seq<CheckboxItem>, checked: bool)
    requires forall k :: 0 <= k < |g| ==> g[k].isChecked == checked
    ensures WithStatus(g, checked) == g
    ensures WithStatus(g, !checked) == []
  {
    if g != [] {
      WithStatusOfUniform(g[1..], checked);
    }
  }

  /** The two filters split the group's items between them (as a multiset). */
  lemma {:induction false} WithStatusSplits(g: seq<CheckboxItem>)
    ensures multiset(WithStatus(g, false)) + multiset(WithStatus(g, true)) == multiset(g)
  {
    if g != [] {
      var t := g[1..];
      var u, c := WithStatus(t, false), WithStatus(t, true);
      WithStatusSplits(t);
      assert g == [g[0]] + t;
      if g[0].isChecked {
        assert WithStatus(g, true) == [g[0]] + c;
        assert multiset(WithStatus(g, true)) == multiset{g[0]} + multiset(c);
      } else {
        assert WithStatus(g, false) == [g[0]] + u;
        assert multiset(WithStatus(g, false)) == multiset{g[0]} + multiset(u);
      }
    }
  }

  /** The result is a permutation of the group: the same items the same number of times. */
  lemma ReorderIsPermutation(g: seq<CheckboxItem>)
    ensures |ReorderGroup(g)| == |g|
    ensures multiset(ReorderGroup(g)) == multiset(g)
  {
    WithStatusSplits(g);
    assert |multiset(ReorderGroup(g))| == |multiset(g)|;
  }

  /** The result has unchecked items first, checked items after. */
  lemma ReorderIsPartitioned(g: seq<CheckboxItem>)
    ensures IsPartitioned(ReorderGroup(g))
  {
    var u, c := WithStatus(g, false), WithStatus(g, true);
    assert forall k :: 0 <= k < |u| ==> ReorderGroup(g)[k] == u[k];
    assert forall k :: |u| <= k < |u| + |c| ==> ReorderGroup(g)[k] == c[k - |u|];
  }

  /** Stability: the unchecked items, and the checked items, keep their relative order. */
  lemma ReorderIsStable(g: seq<CheckboxItem>, checked: bool)
    ensures WithStatus(ReorderGroup(g), checked) == WithStatus(g, checked)
  {
    var u, c := WithStatus(g, false), WithStatus(g, true);
    WithStatusAppend(u, c, checked);
    WithStatusOfUniform(u, false);
    WithStatusOfUniform(c, true);
  }

  /** A partitioned sequence is its unchecked part followed by its checked part. */
  lemma {:induction false} PartitionedSplit(g: seq<CheckboxItem>)
    requires IsPartitioned(g)
    ensures g == WithStatus(g, false) + WithStatus(g, true)
  {
    if g != [] {
      if g[0].isChecked {
        assert forall k :: 0 <= k < |g| ==> g[k].isChecked;
        WithStatusOfUniform(g, true);
      } else {
        var t := g[1..];
        assert IsPartitioned(t) by {
          forall i, j | 0 <= i < j < |t| && t[i].isChecked ensures t[j].isChecked {
            assert g[i + 1] == t[i] && g[j + 1] == t[j];
          }
        }
        PartitionedSplit(t);
        assert g == [g[0]] + t;
      }
    }
  }

  /** The result is the only sequence that is partitioned and keeps the order of the
      unchecked and of the checked items. */
  lemma StablePartitionIsUnique(g: seq<CheckboxItem>, r: seq<CheckboxItem>)
    requires IsPartitioned(r)
    requires WithStatus(r, false) == WithStatus(g, false)
    requires WithStatus(r, true) == WithStatus(g, true)
    ensures r == ReorderGroup(g)
  {
    PartitionedSplit(r);
  }

  /** Reordering twice is reordering once. */
  lemma ReorderIsIdempotent(g: seq<CheckboxItem>)
    ensures ReorderGroup(ReorderGroup(g)) == ReorderGroup(g)
  {
    ReorderIsStable(g, false);
    ReorderIsStable(g, true);
  }

  /** Reordering leaves a group alone exactly when it is already in order. */
  lemma ReorderFixesPartitioned(g: seq<CheckboxItem>)
    ensures ReorderGroup(g) == g <==> IsPartitioned(g)
  {
    if IsPartitioned(g) {
      PartitionedSplit(g);
    } else {
      ReorderIsPartitioned(g);
    }
  }

  /** The comparison of `hasGroupChanged`: different lengths, or a position whose
      text or checked flag differs. */
  predicate GroupDiffers(original: seq<CheckboxItem>, reordered: seq<CheckboxItem>): (d: bool)
    ensures original == reordered ==> !d
  {
    || |original| != |reordered|
    || exists i :: 0 <= i < |original| &&
         (original[i].text != reordered[i].text || original[i].isChecked != reordered[i].isChecked)
  }

  /** What the comparison looks at: the text and checked flag of each item. */
  function View(g: seq<CheckboxItem>): (v: seq<(string, bool)>)
    ensures |v| == |g|
    ensures forall i :: 0 <= i < |g| ==> v[i] == (g[i].text, g[i].isChecked)
  {
    seq(|g|, i requires 0 <= i < |g| => (g[i].text, g[i].isChecked))
  }

  /** The comparison ignores line numbers and indentation: two groups differ exactly
      when their views do. */
  lemma GroupDiffersIffViewsDiffer(a: seq<CheckboxItem>, b: seq<CheckboxItem>)
    ensures GroupDiffers(a, b) <==> View(a) != View(b)
  {
    if !GroupDiffers(a, b) {
      assert forall i :: 0 <= i < |a| ==> View(a)[i] == View(b)[i];
    } else if |a| == |b| {
      var i :| 0 <= i < |a| && (a[i].text != b[i].text || a[i].isChecked != b[i].isChecked);
      assert View(a)[i] != View(b)[i];
    }
  }

  /** The pass reports a change for a group exactly when the group was out of order. */
  lemma ReorderChangesIffUnpartitioned(g: seq<CheckboxItem>)
    ensures GroupDiffers(g, ReorderGroup(g)) <==> !IsPartitioned(g)
  {
    var r := ReorderGroup(g);
    ReorderIsPermutation(g);
    if IsPartitioned(g) {
      PartitionedSplit(g);
    } else {
      ReorderIsPartitioned(g);
      var i, j :| 0 <= i < j < |g| && g[i].isChecked && !g[j].isChecked;
      assert r[i].isChecked ==> r[j].isChecked;
    }
  }

  /** A group reported unchanged is its own reordering. */
  lemma UnchangedIsReordered(g: seq<CheckboxItem>)
    requires !GroupDiffers(g, ReorderGroup(g))
    ensures ReorderGroup(g) == g
  {
    ReorderChangesIffUnpartitioned(g);
    PartitionedSplit(g);
  }

  /** Groups of one item, all-checked and all-unchecked groups are reported unchanged. */
  lemma UniformGroupIsUnchanged(g: seq<CheckboxItem>)
    requires |g| <= 1 || (forall k :: 0 <= k < |g| ==> g[k].isChecked) ||
             (forall k :: 0 <= k < |g| ==> !g[k].isChecked)
    ensures !GroupDiffers(g, ReorderGroup(g))
  {
    ReorderChangesIffUnpartitioned(g);
  }

  /** `hasGroupChanged`: the length test, then the index loop with its early return. */
  method HasGroupChanged(original: seq<CheckboxItem>, reordered: seq<CheckboxItem>) returns (changed: bool)
    ensures changed == GroupDiffers(original, reordered)
  {
    if |original| != |reordered| {
      return true;
    }
    var i := 0;
    while i < |original|
      invariant i <= |original|
      invariant forall k :: 0 <= k < i ==>
        original[k].text == reordered[k].text && original[k].isChecked == reordered[k].isChecked
    {
      if original[i].text != reordered[i].text || original[i].isChecked != reordered[i].isChecked {
        return true;
      }
      i := i + 1;
    }
    return false;
  }
}
