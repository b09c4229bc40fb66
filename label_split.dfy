/**
 * Splitting a multi-label segmentation into one binary mask per label.  The
 * label scan, the ascending order, the 0/1 masks and the palette choice live
 * here; the effect on the engine's volume list is in module NiiVueViewer.
 */
module LabelSplit {
  import opened Niivue

  predicate NoDuplicates(s: seq<real>)
  {
    forall i, j :: 0 <= i < j < |s| ==> s[i] != s[j]
  }

  predicate Ascending(s: seq<real>)
  {
    forall i, j :: 0 <= i < j < |s| ==> s[i] <= s[j]
  }

  predicate StrictlyAscending(s: seq<real>)
  {
    forall i, j :: 0 <= i < j < |s| ==> s[i] < s[j]
  }

  /**
   * The distinct positive voxel values of `img`, in order of first occurrence:
   * the contents of the label set after the scan, in its iteration order.
   */
  function DistinctPositive(img: seq<real>): (labels: seq<real>)
    ensures NoDuplicates(labels)
    ensures forall v :: v in labels <==> v in img && v > 0.0
  {
    if img == [] then []
    else
      var front := img[..|img| - 1];
      var seen := DistinctPositive(front);
      var v := img[|img| - 1];
      assert img == front + [v];
      if v > 0.0 && v !in seen then seen + [v] else seen
  }

  /** Scans the voxel buffer once, adding every positive value to the label set. */
  method CollectLabels(img: seq<real>) returns (labels: seq<real>)
    ensures labels == DistinctPositive(img)
    ensures NoDuplicates(labels)
    ensures forall v :: v in labels <==> v in img && v > 0.0
  {
    labels := [];
    for i := 0 to |img|
      invariant labels == DistinctPositive(img[..i])
    {
      assert img[..i + 1][..i] == img[..i];
      if img[i] > 0.0 && img[i] !in labels {
        labels := labels + [img[i]];
      }
    }
    assert img[..|img|] == img;
  }

  /** A lower bound of `t` and of `x` bounds every element of a permutation of `t` plus `x`. */
  lemma LowerBoundOfInsertion(lo: real, x: real, t: seq<real>, r: seq<real>)
    requires lo <= x
    requires forall k :: 0 <= k < |t| ==> lo <= t[k]
    requires multiset(r) == multiset(t) + multiset{x}
    ensures forall k :: 0 <= k < |r| ==> lo <= r[k]
  {
    forall k | 0 <= k < |r|
      ensures lo <= r[k]
    {
      assert r[k] in multiset(r);
      if r[k] != x {
        assert r[k] in multiset(t);
      }
    }
  }

  lemma PrependLowerBound(lo: real, r: seq<real>)
    requires Ascending(r)
    requires forall k :: 0 <= k < |r| ==> lo <= r[k]
    ensures Ascending([lo] + r)
  {
  }

  /** Inserts `x` into an ascending sequence, keeping it ascending. */
  function InsertAscending(x: real, s: seq<real>): (r: seq<real>)
    requires Ascending(s)
    ensures Ascending(r)
    ensures multiset(r) == multiset(s) + multiset{x}
  {
    if s == [] || x <= s[0] then [x] + s
    else
      var rest := InsertAscending(x, s[1..]);
      assert s == [s[0]] + s[1..];
      LowerBoundOfInsertion(s[0], x, s[1..], rest);
      PrependLowerBound(s[0], rest);
      assert multiset([s[0]] + rest) == multiset{s[0]} + multiset(rest);
      [s[0]] + rest
  }

  /** Sorts in ascending numeric order (the comparator `a - b`). */
  function SortAscending(xs: seq<real>): (r: seq<real>)
    ensures Ascending(r)
    ensures multiset(r) == multiset(xs)
  {
    if xs == [] then []
    else
      assert xs == [xs[0]] + xs[1..];
      InsertAscending(xs[0], SortAscending(xs[1..]))
  }

  /** The number of times `v` occurs in `s`, as multiset multiplicity. */
  lemma {:induction false} NoDuplicatesMultiplicity(s: seq<real>, v: real)
    requires NoDuplicates(s)
    ensures multiset(s)[v] <= 1
  {
    if s != [] {
      assert s == [s[0]] + s[1..];
      NoDuplicatesMultiplicity(s[1..], v);
      if v == s[0] {
        assert v !in s[1..];
      }
    }
  }

  lemma RepeatedValueMultiplicity(r: seq<real>, i: nat, j: nat)
    requires i < j < |r| && r[i] == r[j]
    ensures multiset(r)[r[i]] >= 2
  {
    assert r == r[..i] + [r[i]] + r[i + 1..j] + [r[j]] + r[j + 1..];
  }

  lemma AscendingWithoutDuplicatesIsStrict(r: seq<real>)
    requires Ascending(r)
    requires forall v :: multiset(r)[v] <= 1
    ensures StrictlyAscending(r)
  {
    forall i, j | 0 <= i < j < |r|
      ensures r[i] < r[j]
    {
      if r[i] == r[j] {
        RepeatedValueMultiplicity(r, i, j);
      }
    }
  }

  /** The label list the viewer works with: the label set sorted ascending. */
  function Labels(img: seq<real>): seq<real>
  {
    SortAscending(DistinctPositive(img))
  }

  /** Sorting a list without repeats yields a strictly ascending list of the same values. */
  lemma SortDistinct(xs: seq<real>)
    requires NoDuplicates(xs)
    ensures StrictlyAscending(SortAscending(xs))
    ensures forall v :: v in SortAscending(xs) <==> v in xs
  {
    var r := SortAscending(xs);
    forall v
      ensures multiset(r)[v] <= 1
    {
      NoDuplicatesMultiplicity(xs, v);
    }
    AscendingWithoutDuplicatesIsStrict(r);
    forall v
      ensures v in r <==> v in xs
    {
      assert v in r <==> v in multiset(r);
      assert v in xs <==> v in multiset(xs);
    }
  }

  /**
   * The label list holds exactly the positive values occurring in the image,
   * each once, strictly ascending; zero and negative values never appear.
   */
  lemma LabelsSpec(img: seq<real>)
    ensures StrictlyAscending(Labels(img))
    ensures forall v :: v in Labels(img) <==> v in img && v > 0.0
    ensures forall i :: 0 <= i < |Labels(img)| ==> Labels(img)[i] > 0.0
  {
    SortDistinct(DistinctPositive(img));
    assert forall i :: 0 <= i < |Labels(img)| ==> Labels(img)[i] in Labels(img);
  }

  /**
   * The binary mask of one label: every entry is 0 or 1, and it is 1 exactly
   * where the voxel holds the label.
   */
  function Mask(img: seq<real>, target: real): (m: seq<real>)
    ensures |m| == |img|
    ensures forall j :: 0 <= j < |img| ==> (m[j] == 1.0 <==> img[j] == target) && (m[j] == 0.0 <==> img[j] != target)
  {
    seq(|img|, j requires 0 <= j < |img| => if img[j] == target then 1.0 else 0.0)
  }

  /** Fills a freshly allocated buffer with the mask of `label`. */
  method BuildMask(img: seq<real>, target: real) returns (mask: array<real>)
    ensures fresh(mask)
    ensures mask[..] == Mask(img, target)
  {
    mask := new real[|img|];
    for j := 0 to |img|
      invariant forall t :: 0 <= t < j ==> mask[t] == Mask(img, target)[t]
    {
      mask[j] := if img[j] == target then 1.0 else 0.0;
    }
  }

  /** Masks of two different labels never both cover a voxel. */
  lemma MasksDisjoint(img: seq<real>, a: real, b: real, j: nat)
    requires a != b && j < |img|
    ensures Mask(img, a)[j] * Mask(img, b)[j] == 0.0
  {
  }

  /** The sum, over a list of labels, of their masks at voxel `j`. */
  function CoverageAt(img: seq<real>, labels: seq<real>, j: nat): real
    requires j < |img|
  {
    if labels == [] then 0.0 else Mask(img, labels[0])[j] + CoverageAt(img, labels[1..], j)
  }

  lemma {:induction false} CoverageOfDistinctLabels(img: seq<real>, labels: seq<real>, j: nat)
    requires j < |img| && NoDuplicates(labels)
    ensures CoverageAt(img, labels, j) == if img[j] in labels then 1.0 else 0.0
  {
    if labels != [] {
      CoverageOfDistinctLabels(img, labels[1..], j);
      assert labels == [labels[0]] + labels[1..];
      if img[j] == labels[0] {
        assert img[j] !in labels[1..];
      }
    }
  }

  /**
   * The per-label masks partition the foreground: at every voxel they sum to 1
   * when the voxel is positive and to 0 otherwise.
   */
  lemma LabelMasksPartitionForeground(img: seq<real>, j: nat)
    requires j < |img|
    ensures CoverageAt(img, Labels(img), j) == if img[j] > 0.0 then 1.0 else 0.0
  {
    LabelsSpec(img);
    var r := Labels(img);
    assert NoDuplicates(r);
    CoverageOfDistinctLabels(img, r, j);
  }

  /** The overlay palette, indexed by a label's position in the sorted list. */
  const LabelColors: seq<string> := ["red", "green", "blue", "yellow", "cyan", "magenta"]

  function LabelColour(i: nat): (c: string)
    ensures c in LabelColors
    ensures c == "red" <==> i % 6 == 0
  {
    LabelColors[i % |LabelColors|]
  }

  /**
   * The smallest label is red, colours repeat every six labels, and two labels
   * share a colour exactly when their indices agree modulo six.
   */
  lemma LabelColourCycle(i: nat, k: nat)
    ensures LabelColour(0) == "red"
    ensures LabelColour(i + 6) == LabelColour(i)
    ensures LabelColour(i) == LabelColour(k) <==> i % 6 == k % 6
  {
  }

  /** The overlay volume for the label at sorted index `i`: its mask, drawn in its colour. */
  function LabelVolume(seg: Volume, labels: seq<real>, i: nat): (v: Volume)
    requires i < |labels|
    ensures v.dims == seg.dims && v.pixDims == seg.pixDims && v.opacity == seg.opacity
    ensures |v.img| == |seg.img|
    ensures forall j :: 0 <= j < |seg.img| ==>
              (v.img[j] == 1.0 <==> seg.img[j] == labels[i]) && (v.img[j] == 0.0 <==> seg.img[j] != labels[i])
    ensures v.calMin < 1.0 < v.calMax && v.calMin > 0.0
    ensures v.colormap in LabelColors
  {
    seg.(img := Mask(seg.img, labels[i]), calMin := 0.5, calMax := 1.5, colormap := LabelColour(i))
  }

  /**
   * The overlay volumes for the labels at sorted indices |labels|-1 down to
   * `lo`, in the order they are created: entry `k` is the label `k` places
   * from the largest.
   */
  function LabelStack(seg: Volume, labels: seq<real>, lo: nat): (r: seq<Volume>)
    requires lo <= |labels|
    ensures |r| == |labels| - lo
    ensures forall k :: 0 <= k < |r| ==> r[k] == LabelVolume(seg, labels, |labels| - 1 - k)
    decreases |labels| - lo
  {
    if lo == |labels| then [] else LabelStack(seg, labels, lo + 1) + [LabelVolume(seg, labels, lo)]
  }

}
