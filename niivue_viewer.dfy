/**
 * The viewer component: what it does to the engine and to the store when a
 * volume is loaded, when the window or the slice layout changes, when the
 * user scrolls or presses a navigation key, and when a segmentation is loaded
 * and split into one coloured overlay per label.
 */
module NiiVueViewer {
  import opened Wrappers
  import opened Niivue
  import opened LabelSplit
  import ViewerStore

  datatype Calibration = Calibration(calMin: real, calMax: real)

  /** The display range of a window: `width` wide and centred on `center`. */
  function WindowCalibration(center: real, width: real): (c: Calibration)
    ensures c.calMax - c.calMin == width
    ensures (c.calMin + c.calMax) / 2.0 == center
  {
    Calibration(center - width / 2.0, center + width / 2.0)
  }

  function Calibrated(vol: Volume, center: real, width: real): Volume
  {
    var c := WindowCalibration(center, width);
    vol.(calMin := c.calMin, calMax := c.calMax)
  }

  /** The base volume with the store's window applied, when there is a base volume. */
  function WithWindow(vs: seq<Volume>, center: real, width: real): seq<Volume>
  {
    if |vs| == 0 then vs else vs[0 := Calibrated(vs[0], center, width)]
  }

  /** A preset's window, applied to the base volume, gives a non-empty display range. */
  lemma PresetCalibrationNonEmpty(vs: seq<Volume>, p: ViewerStore.Preset)
    requires |vs| > 0
    ensures var w := ViewerStore.WindowPreset(p);
            WithWindow(vs, w.center, w.width)[0].calMin < WithWindow(vs, w.center, w.width)[0].calMax
  {
  }

  /** Windowing changes the display range of the base volume only. */
  method ApplyWindowing(nv: Engine, store: ViewerStore.Store)
    modifies nv
    ensures nv.volumes == WithWindow(old(nv.volumes), store.windowCenter, store.windowWidth)
    ensures nv.sliceType == old(nv.sliceType) && nv.crosshairZ == old(nv.crosshairZ)
  {
    if |nv.volumes| == 0 {
      return;
    }
    var c := WindowCalibration(store.windowCenter, store.windowWidth);
    nv.volumes := nv.volumes[0 := nv.volumes[0].(calMin := c.calMin, calMax := c.calMax)];
  }

  /** A change of slice layout re-applies the window, then switches the layout. */
  method ApplySliceType(nv: Engine, store: ViewerStore.Store)
    modifies nv
    ensures old(|nv.volumes|) == 0 ==> nv.volumes == old(nv.volumes) && nv.sliceType == old(nv.sliceType)
    ensures old(|nv.volumes|) > 0 ==>
      && nv.volumes == WithWindow(old(nv.volumes), store.windowCenter, store.windowWidth)
      && nv.sliceType == store.sliceType
    ensures nv.crosshairZ == old(nv.crosshairZ)
  {
    if |nv.volumes| == 0 {
      return;
    }
    ApplyWindowing(nv, store);
    nv.SetSliceType(store.sliceType);
  }

  /** The header fields a volume needs for the store's volume info. */
  predicate HasHeader(vol: Volume)
  {
    |vol.dims| >= 4 && (vol.pixDims.Some? ==> |vol.pixDims.value| >= 4)
  }

  /** Dimensions and spacing of the three spatial axes (spacing 1 when the header has none). */
  function VolumeInfoOf(vol: Volume): (info: ViewerStore.VolumeInfo)
    requires HasHeader(vol)
    ensures |info.dimensions| == 3 && |info.spacing| == 3
    ensures forall k :: 0 <= k < 3 ==> info.dimensions[k] == vol.dims[k + 1]
    ensures vol.pixDims.None? ==> info.spacing == [1.0, 1.0, 1.0]
    ensures vol.pixDims.Some? ==> forall k :: 0 <= k < 3 ==> info.spacing[k] == vol.pixDims.value[k + 1]
  {
    ViewerStore.VolumeInfo(
      [vol.dims[1], vol.dims[2], vol.dims[3]],
      if vol.pixDims.Some? then [vol.pixDims.value[1], vol.pixDims.value[2], vol.pixDims.value[3]]
      else [1.0, 1.0, 1.0])
  }

  /**
   * After the engine has loaded a main volume (from a file or a URL): record
   * the last slice index and the volume info in the store, apply the store's
   * window to the base volume, and switch to the store's slice layout.
   */
  method AfterVolumeLoad(nv: Engine, store: ViewerStore.Store)
    requires store.Valid()
    requires |nv.volumes| > 0 ==> HasHeader(nv.volumes[0])
    modifies nv, store
    ensures store.Valid()
    ensures old(|nv.volumes|) > 0 ==>
      && store.maxSlice == old(nv.volumes[0].dims[3]) - 1
      && store.Snapshot() == ViewerStore.Apply(
           ViewerStore.Apply(old(store.Snapshot()), ViewerStore.SetMaxSlice(old(nv.volumes[0].dims[3]) - 1)),
           ViewerStore.SetVolumeInfo(VolumeInfoOf(old(nv.volumes[0]))))
    ensures old(|nv.volumes|) == 0 ==> store.Snapshot() == old(store.Snapshot())
    ensures nv.volumes == WithWindow(old(nv.volumes), store.windowCenter, store.windowWidth)
    ensures nv.sliceType == store.sliceType && nv.crosshairZ == old(nv.crosshairZ)
  {
    if |nv.volumes| > 0 {
      var vol := nv.volumes[0];
      store.SetMaxSlice(vol.dims[3] - 1);
      store.SetVolumeInfo(VolumeInfoOf(vol));
      ApplyWindowing(nv, store);
    }
    nv.SetSliceType(store.sliceType);
  }

  /** `Math.round`: the nearest integer, halves rounded up. */
  function JsRound(x: real): (r: int)
    ensures r as real - 0.5 <= x < r as real + 0.5
  {
    (x + 0.5).Floor
  }

  /** The engine reports a new crosshair location; its rounded z voxel becomes the current slice. */
  method OnLocationChange(store: ViewerStore.Store, vox: Option<seq<real>>)
    requires store.Valid()
    requires vox.Some? ==> |vox.value| >= 3
    modifies store
    ensures store.Valid()
    ensures vox.Some? ==> store.Snapshot() == ViewerStore.Apply(old(store.Snapshot()), ViewerStore.SetCurrentSlice(JsRound(vox.value[2])))
    ensures vox.None? ==> store.Snapshot() == old(store.Snapshot())
  {
    if vox.Some? {
      store.SetCurrentSlice(JsRound(vox.value[2]));
    }
  }

  /** Keyboard keys the viewer reacts to; every other key is `OtherKey`. */
  datatype Key = ArrowUp | ArrowRight | ArrowDown | ArrowLeft | Home | End | OtherKey

  /**
   * The z step of an arrow key: up and right step forward one slice, down and
   * left step back, and no other key steps.
   */
  function ArrowStep(key: Key): (step: Option<int>)
    ensures step == Some(1) <==> key == ArrowUp || key == ArrowRight
    ensures step == Some(-1) <==> key == ArrowDown || key == ArrowLeft
    ensures step.Some? ==> step == Some(1) || step == Some(-1)
  {
    match key
    case ArrowUp => Some(1)
    case ArrowRight => Some(1)
    case ArrowDown => Some(-1)
    case ArrowLeft => Some(-1)
    case _ => None
  }

  /** The z step of one wheel event: forward for a positive delta, back otherwise. */
  function WheelStep(deltaY: real): (d: int)
    ensures d == 1 || d == -1
    ensures d == 1 <==> deltaY > 0.0
  {
    if deltaY > 0.0 then 1 else -1
  }

  /**
   * The value End writes: the last slice index along z, or 0 when the header
   * lacks that dimension or gives it as 0 (`(dims[3] || 1) - 1`).
   */
  function LastSlice(vol: Volume): (z: int)
    ensures |vol.dims| > 3 && vol.dims[3] != 0 ==> z == vol.dims[3] - 1
    ensures (|vol.dims| <= 3 || vol.dims[3] == 0) ==> z == 0
  {
    (if |vol.dims| > 3 && vol.dims[3] != 0 then vol.dims[3] else 1) - 1
  }

  /**
   * Home and End write a slice index into the crosshair's fractional position.
   * For a volume of more than two slices, End's value lies beyond the volume's
   * far end (fraction 1).
   */
  lemma EndPositionOutsideVolume(vol: Volume)
    requires |vol.dims| > 3 && vol.dims[3] > 2
    ensures LastSlice(vol) as real > 1.0
  {
  }

  method HandleWheel(nv: Engine, deltaY: real)
    modifies nv
    ensures nv.crosshairZ == MovedZ(nv.volumes, old(nv.crosshairZ), WheelStep(deltaY))
    ensures nv.volumes == old(nv.volumes) && nv.sliceType == old(nv.sliceType)
  {
    var delta := if deltaY > 0.0 then 1 else -1;
    nv.MoveCrosshairInVox(delta);
  }

  /** Returns whether the key's default browser action was suppressed. */
  method HandleKeyDown(nv: Engine, key: Key) returns (prevented: bool)
    modifies nv
    ensures prevented <==> key != OtherKey
    ensures ArrowStep(key).Some? ==> nv.crosshairZ == MovedZ(nv.volumes, old(nv.crosshairZ), ArrowStep(key).value)
    ensures key == Home ==> nv.crosshairZ == 0.0
    ensures key == End ==> nv.crosshairZ == if |nv.volumes| > 0 then LastSlice(nv.volumes[0]) as real else old(nv.crosshairZ)
    ensures key == OtherKey ==> nv.crosshairZ == old(nv.crosshairZ)
    ensures nv.volumes == old(nv.volumes) && nv.sliceType == old(nv.sliceType)
  {
    prevented := true;
    match key
    case ArrowUp =>
      nv.MoveCrosshairInVox(1);
    case ArrowRight =>
      nv.MoveCrosshairInVox(1);
    case ArrowDown =>
      nv.MoveCrosshairInVox(-1);
    case ArrowLeft =>
      nv.MoveCrosshairInVox(-1);
    case Home =>
      nv.crosshairZ := 0.0;
    case End =>
      if |nv.volumes| > 0 {
        var dims := nv.volumes[0].dims;
        var maxZ := (if |dims| > 3 && dims[3] != 0 then dims[3] else 1) - 1;
        nv.crosshairZ := maxZ as real;
      }
    case OtherKey =>
      prevented := false;
  }

  /** Removes volumes from the top until only the base volume is left. */
  method RemoveOverlays(nv: Engine)
    requires |nv.volumes| > 0
    modifies nv
    ensures nv.volumes == old(nv.volumes[..1])
    ensures nv.sliceType == old(nv.sliceType) && nv.crosshairZ == old(nv.crosshairZ)
  {
    while |nv.volumes| > 1
      invariant 1 <= |nv.volumes| <= old(|nv.volumes|)
      invariant nv.volumes == old(nv.volumes)[..|nv.volumes|]
      invariant nv.sliceType == old(nv.sliceType) && nv.crosshairZ == old(nv.crosshairZ)
      decreases |nv.volumes|
    {
      nv.RemoveVolumeByIndex(|nv.volumes| - 1);
    }
  }

  /** Every volume of the list with its opacity set to `opacity`. */
  function WithOpacity(vs: seq<Volume>, opacity: real): (r: seq<Volume>)
    ensures |r| == |vs|
    ensures forall k :: 0 <= k < |vs| ==> r[k].opacity == opacity && r[k].(opacity := vs[k].opacity) == vs[k]
  {
    seq(|vs|, k requires 0 <= k < |vs| => vs[k].(opacity := opacity))
  }

  /** Sets every overlay (index 1 and up) to `opacity`; the base volume is not touched. */
  method SetOverlayOpacity(nv: Engine, opacity: real)
    requires |nv.volumes| > 0
    modifies nv
    ensures nv.volumes == [old(nv.volumes)[0]] + WithOpacity(old(nv.volumes)[1..], opacity)
    ensures nv.sliceType == old(nv.sliceType) && nv.crosshairZ == old(nv.crosshairZ)
  {
    ghost var vs := nv.volumes;
    for i := 1 to |nv.volumes|
      invariant |nv.volumes| == |vs| && nv.volumes[0] == vs[0]
      invariant forall t :: 1 <= t < i ==> nv.volumes[t] == vs[t].(opacity := opacity)
      invariant forall t :: i <= t < |vs| ==> nv.volumes[t] == vs[t]
      invariant nv.sliceType == old(nv.sliceType) && nv.crosshairZ == old(nv.crosshairZ)
    {
      nv.SetOpacity(i, opacity);
    }
    assert forall t :: 1 <= t < |vs| ==> nv.volumes[t] == WithOpacity(vs[1..], opacity)[t - 1];
  }

  /** The opacity overlays are drawn with: the slider value, or 0 while hidden. */
  function EffectiveOpacity(visible: bool, opacity: real): (o: real)
    ensures visible ==> o == opacity
    ensures !visible ==> o == 0.0
    ensures 0.0 <= opacity ==> 0.0 <= o <= opacity
  {
    if visible then opacity else 0.0
  }

  /** Synchronises the overlays with the visibility toggle and the opacity slider. */
  method SyncOverlay(nv: Engine, visible: bool, opacity: real)
    modifies nv
    ensures old(|nv.volumes|) < 2 ==> nv.volumes == old(nv.volumes)
    ensures old(|nv.volumes|) >= 2 ==>
      nv.volumes == [old(nv.volumes)[0]] + WithOpacity(old(nv.volumes)[1..], EffectiveOpacity(visible, opacity))
    ensures nv.sliceType == old(nv.sliceType) && nv.crosshairZ == old(nv.crosshairZ)
  {
    if |nv.volumes| < 2 {
      return;
    }
    var effective := if visible then opacity else 0.0;
    SetOverlayOpacity(nv, effective);
  }

  /**
   * Overlay sync leaves the base volume alone and changes nothing but the
   * opacity of each overlay, which becomes the slider value, or 0 when hidden.
   */
  lemma OverlaySyncSpec(vs: seq<Volume>, visible: bool, opacity: real, k: nat)
    requires 1 <= k < |vs|
    ensures var after := [vs[0]] + WithOpacity(vs[1..], EffectiveOpacity(visible, opacity));
      && |after| == |vs| && after[0] == vs[0]
      && after[k].opacity == (if visible then opacity else 0.0)
      && after[k].(opacity := vs[k].opacity) == vs[k]
  {
  }

  /** Overwrites the image of the topmost volume with the mask of `target`. */
  method WriteMask(nv: Engine, img: seq<real>, target: real)
    requires |nv.volumes| > 0 && |nv.volumes[|nv.volumes| - 1].img| == |img|
    modifies nv
    ensures |nv.volumes| == old(|nv.volumes|)
    ensures nv.volumes == old(nv.volumes[|nv.volumes| - 1 := nv.volumes[|nv.volumes| - 1].(img := Mask(img, target))])
    ensures nv.sliceType == old(nv.sliceType) && nv.crosshairZ == old(nv.crosshairZ)
  {
    var last := |nv.volumes| - 1;
    for j := 0 to |img|
      invariant |nv.volumes| == last + 1
      invariant nv.volumes[..last] == old(nv.volumes[..last])
      invariant nv.volumes[last] == old(nv.volumes[last]).(img := nv.volumes[last].img)
      invariant |nv.volumes[last].img| == |img|
      invariant forall t :: 0 <= t < j ==> nv.volumes[last].img[t] == Mask(img, target)[t]
      invariant forall t :: j <= t < |img| ==> nv.volumes[last].img[t] == old(nv.volumes[last].img[t])
      invariant nv.sliceType == old(nv.sliceType) && nv.crosshairZ == old(nv.crosshairZ)
    {
      var v := nv.volumes[last];
      nv.volumes := nv.volumes[last := v.(img := v.img[j := if img[j] == target then 1.0 else 0.0])];
    }
    assert nv.volumes[last].img == Mask(img, target);
  }

  /** The engine's volume list after a segmentation has been split over `base`. */
  function SegmentationOverlays(base: Volume, seg: Volume, opacity: real): seq<Volume>
  {
    [base] + WithOpacity(LabelStack(seg, Labels(seg.img), 0), opacity)
  }

  /**
   * One iteration of the per-label loop: reloads the segmentation, overwrites
   * its image with the mask of the label at sorted index `i`, and gives it the
   * range 0.5 to 1.5 and the label's colour.  `seg` is the engine's decoding of
   * the segmentation file, which every reload of that file reproduces.
   */
  method AddLabelOverlay(nv: Engine, seg: Volume, img: seq<real>, labels: seq<real>, i: nat)
    requires img == seg.img && i < |labels|
    modifies nv
    ensures nv.volumes == old(nv.volumes) + [LabelVolume(seg, labels, i)]
    ensures nv.sliceType == old(nv.sliceType) && nv.crosshairZ == old(nv.crosshairZ)
  {
    var target := labels[i];
    var colour := LabelColour(i);
    var maskData := BuildMask(img, target);
    nv.LoadVolume(seg);
    WriteMask(nv, img, target);
    var last := |nv.volumes| - 1;
    nv.volumes := nv.volumes[last := nv.volumes[last].(calMin := 0.5, calMax := 1.5, colormap := colour)];
  }

  /** The per-label loop: overlays are created from the largest label down to the smallest. */
  method AddLabelOverlays(nv: Engine, seg: Volume, img: seq<real>, labels: seq<real>)
    requires img == seg.img
    modifies nv
    ensures nv.volumes == old(nv.volumes) + LabelStack(seg, labels, 0)
    ensures nv.sliceType == old(nv.sliceType) && nv.crosshairZ == old(nv.crosshairZ)
  {
    var i := |labels| - 1;
    while i >= 0
      invariant -1 <= i < |labels|
      invariant nv.volumes == old(nv.volumes) + LabelStack(seg, labels, i + 1)
      invariant nv.sliceType == old(nv.sliceType) && nv.crosshairZ == old(nv.crosshairZ)
      decreases i
    {
      AddLabelOverlay(nv, seg, img, labels, i);
      i := i - 1;
    }
  }

  /**
   * Loads a segmentation over the base volume: drops earlier overlays, loads
   * the segmentation once to read its labels, removes it again, and creates
   * one overlay per label, largest label first; finally every overlay gets
   * the slider opacity.
   */
  method LoadSegmentation(nv: Engine, seg: Volume, overlayOpacity: real)
    modifies nv
    ensures old(|nv.volumes|) == 0 ==> nv.volumes == old(nv.volumes)
    ensures old(|nv.volumes|) > 0 ==> nv.volumes == SegmentationOverlays(old(nv.volumes[0]), seg, overlayOpacity)
    ensures nv.sliceType == old(nv.sliceType) && nv.crosshairZ == old(nv.crosshairZ)
  {
    if |nv.volumes| == 0 {
      return;
    }
    RemoveOverlays(nv);
    nv.LoadVolume(seg);
    if |nv.volumes| > 1 {
      var img := nv.volumes[1].img;
      var found := CollectLabels(img);
      var labels := SortAscending(found);
      nv.RemoveVolumeByIndex(1);
      AddLabelOverlays(nv, seg, img, labels);
      SetOverlayOpacity(nv, overlayOpacity);
    }
  }

  /** Overlay k of a stack built from any label list is the k-th largest label's volume. */
  lemma OverlayAt(base: Volume, seg: Volume, labels: seq<real>, opacity: real, k: nat)
    requires 1 <= k <= |labels|
    ensures var vs := [base] + WithOpacity(LabelStack(seg, labels, 0), opacity);
      |vs| == |labels| + 1 && vs[0] == base && vs[k] == LabelVolume(seg, labels, |labels| - k).(opacity := opacity)
  {
    var stack := LabelStack(seg, labels, 0);
    assert stack[k - 1] == LabelVolume(seg, labels, |labels| - k);
  }

  /**
   * After a split, the list holds the base volume and then one overlay per
   * label: overlay k (counting from 1) shows the mask of the k-th largest
   * label in that label's palette colour, with range 0.5 to 1.5 and the slider
   * opacity; the topmost overlay is the smallest label.
   */
  lemma SegmentationOverlaysSpec(base: Volume, seg: Volume, opacity: real, k: nat)
    requires 1 <= k <= |Labels(seg.img)|
    ensures var vs := SegmentationOverlays(base, seg, opacity);
      var labels := Labels(seg.img);
      var n := |labels|;
      && |vs| == n + 1 && vs[0] == base
      && vs[k].img == Mask(seg.img, labels[n - k])
      && vs[k].colormap == LabelColour(n - k)
      && vs[k].calMin == 0.5 && vs[k].calMax == 1.5 && vs[k].opacity == opacity
      && vs[k].dims == seg.dims && vs[k].pixDims == seg.pixDims
      && (k == n ==> vs[k].img == Mask(seg.img, labels[0]))
  {
    OverlayAt(base, seg, Labels(seg.img), opacity, k);
  }

  /**
   * Overlays are stacked in strictly descending label order from the bottom
   * up: a lower overlay masks a larger label than any overlay above it.
   */
  lemma SegmentationOverlaysDescending(base: Volume, seg: Volume, opacity: real, k1: nat, k2: nat)
    requires 1 <= k1 < k2 <= |Labels(seg.img)|
    ensures var vs := SegmentationOverlays(base, seg, opacity);
      var labels := Labels(seg.img);
      var n := |labels|;
      && vs[k1].img == Mask(seg.img, labels[n - k1])
      && vs[k2].img == Mask(seg.img, labels[n - k2])
      && labels[n - k1] > labels[n - k2]
  {
    SegmentationOverlaysSpec(base, seg, opacity, k1);
    SegmentationOverlaysSpec(base, seg, opacity, k2);
    LabelsSpec(seg.img);
  }

}
