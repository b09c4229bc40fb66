/**
 * The viewer's state store: the slice type shown, the current and last slice
 * index, the CT window (centre and width) with the preset it came from, and the
 * loaded volume's dimensions.  Every action overwrites some fields of the store
 * and leaves the others as they were.
 */
module ViewerStore {
  import opened Wrappers

  // Slice types understood by the rendering engine.
  const AXIAL: int := 0
  const CORONAL: int := 1
  const SAGITTAL: int := 2
  const MULTIPLANAR: int := 3
  const RENDER: int := 4

  /** The CT windowing presets offered by the toolbar. */
  datatype Preset = Abdomen | Liver | Bone | Lung | Brain | SoftTissue

  datatype PresetWindow = PresetWindow(center: real, width: real, name: string)

  /** The preset table: centre and width in Hounsfield units, and a display name. */
  function WindowPreset(p: Preset): (w: PresetWindow)
    ensures w.width > 0.0
  {
    match p
    case Abdomen => PresetWindow(65.0, 420.0, "Abdomen")
    case Liver => PresetWindow(60.0, 150.0, "Liver")
    case Bone => PresetWindow(300.0, 1500.0, "Bone")
    case Lung => PresetWindow(-600.0, 1500.0, "Lung")
    case Brain => PresetWindow(40.0, 80.0, "Brain")
    case SoftTissue => PresetWindow(50.0, 350.0, "Soft Tissue")
  }

  datatype VolumeInfo = VolumeInfo(dimensions: seq<int>, spacing: seq<real>)

  /** The store's data fields, as one value. */
  datatype ViewerState = ViewerState(
    sliceType: int,
    currentSlice: int,
    maxSlice: int,
    windowCenter: real,
    windowWidth: real,
    currentPreset: Option<Preset>,
    volumeInfo: Option<VolumeInfo>)

  /**
   * The state the store starts in and returns to on reset: axial, slice 0,
   * and the window (65, 420), which is exactly the selected abdomen preset.
   */
  function InitialState(): (s: ViewerState)
    ensures s.currentPreset == Some(Abdomen)
    ensures s.windowCenter == WindowPreset(Abdomen).center && s.windowWidth == WindowPreset(Abdomen).width
    ensures MatchesPreset(s)
  {
    ViewerState(AXIAL, 0, 0, 65.0, 420.0, Some(Abdomen), None)
  }

  /** A selected preset always describes the window actually in force. */
  predicate MatchesPreset(s: ViewerState)
  {
    s.currentPreset.Some? ==>
      && s.windowCenter == WindowPreset(s.currentPreset.value).center
      && s.windowWidth == WindowPreset(s.currentPreset.value).width
  }

  /** The store's actions. */
  datatype Action =
    | SetSliceType(sliceType: int)
    | SetCurrentSlice(slice: int)
    | SetMaxSlice(max: int)
    | SetWindowLevel(center: real, width: real)
    | ApplyPreset(preset: Preset)
    | SetVolumeInfo(info: VolumeInfo)
    | Reset

  /**
   * The state an action leaves behind (a shallow merge of the fields it
   * names).  Every action keeps a selected preset in agreement with the window.
   */
  function Apply(s: ViewerState, a: Action): (r: ViewerState)
    ensures MatchesPreset(s) ==> MatchesPreset(r)
  {
    match a
    case SetSliceType(t) => s.(sliceType := t)
    case SetCurrentSlice(slice) => s.(currentSlice := slice)
    case SetMaxSlice(max) => s.(maxSlice := max)
    case SetWindowLevel(c, w) => s.(windowCenter := c, windowWidth := w, currentPreset := None)
    case ApplyPreset(p) =>
      s.(windowCenter := WindowPreset(p).center, windowWidth := WindowPreset(p).width, currentPreset := Some(p))
    case SetVolumeInfo(info) => s.(volumeInfo := Some(info))
    case Reset => InitialState()
  }

  /** The state after a sequence of actions, applied left to right. */
  function Run(s: ViewerState, actions: seq<Action>): ViewerState
    decreases |actions|
  {
    if actions == [] then s else Run(Apply(s, actions[0]), actions[1..])
  }

  /** Any state reachable from the initial one by actions has a consistent preset. */
  lemma {:induction false} RunPreservesMatchesPreset(s: ViewerState, actions: seq<Action>)
    requires MatchesPreset(s)
    ensures MatchesPreset(Run(s, actions))
    decreases |actions|
  {
    if actions != [] {
      RunPreservesMatchesPreset(Apply(s, actions[0]), actions[1..]);
    }
  }

  /** Applying a preset selects it and installs its window; doing it twice is the same as once. */
  lemma ApplyPresetIdempotent(s: ViewerState, p: Preset)
    ensures Apply(s, ApplyPreset(p)).currentPreset == Some(p)
    ensures Apply(s, ApplyPreset(p)).windowCenter == WindowPreset(p).center
    ensures Apply(s, ApplyPreset(p)).windowWidth == WindowPreset(p).width
    ensures Apply(Apply(s, ApplyPreset(p)), ApplyPreset(p)) == Apply(s, ApplyPreset(p))
  {
  }

  /** A manual window is taken exactly as given and deselects any preset. */
  lemma SetWindowLevelClearsPreset(s: ViewerState, c: real, w: real)
    ensures Apply(s, SetWindowLevel(c, w)).windowCenter == c
    ensures Apply(s, SetWindowLevel(c, w)).windowWidth == w
    ensures Apply(s, SetWindowLevel(c, w)).currentPreset == None
  {
  }

  /** Reset returns to the initial state from anywhere. */
  lemma ResetRestoresInitial(s: ViewerState)
    ensures Apply(s, Reset) == InitialState()
  {
  }

  /**
   * The four plain setters change only their own field: putting the old value
   * back into that field gives the old state.
   */
  lemma SettersTouchOnlyTheirField(s: ViewerState, t: int, slice: int, max: int, info: VolumeInfo)
    ensures Apply(s, SetSliceType(t)).(sliceType := s.sliceType) == s
    ensures Apply(s, SetCurrentSlice(slice)).(currentSlice := s.currentSlice) == s
    ensures Apply(s, SetMaxSlice(max)).(maxSlice := s.maxSlice) == s
    ensures Apply(s, SetVolumeInfo(info)).(volumeInfo := s.volumeInfo) == s
  {
  }

  /** The store object, whose actions overwrite its fields. */
  class Store {
    var sliceType: int
    var currentSlice: int
    var maxSlice: int
    var windowCenter: real
    var windowWidth: real
    var currentPreset: Option<Preset>
    var volumeInfo: Option<VolumeInfo>

    function Snapshot(): ViewerState
      reads this
    {
      ViewerState(sliceType, currentSlice, maxSlice, windowCenter, windowWidth, currentPreset, volumeInfo)
    }

    ghost predicate Valid()
      reads this
    {
      MatchesPreset(Snapshot())
    }

    constructor ()
      ensures Snapshot() == InitialState()
      ensures Valid()
    {
      sliceType, currentSlice, maxSlice := AXIAL, 0, 0;
      windowCenter, windowWidth, currentPreset := 65.0, 420.0, Some(Abdomen);
      volumeInfo := None;
    }

    method SetSliceType(t: int)
      requires Valid()
      modifies this
      ensures Valid()
      ensures sliceType == t
      ensures Snapshot() == Apply(old(Snapshot()), Action.SetSliceType(t))
    {
      sliceType := t;
    }

    method SetCurrentSlice(slice: int)
      requires Valid()
      modifies this
      ensures Valid()
      ensures currentSlice == slice
      ensures Snapshot() == Apply(old(Snapshot()), Action.SetCurrentSlice(slice))
    {
      currentSlice := slice;
    }

    method SetMaxSlice(max: int)
      requires Valid()
      modifies this
      ensures Valid()
      ensures maxSlice == max
      ensures Snapshot() == Apply(old(Snapshot()), Action.SetMaxSlice(max))
    {
      maxSlice := max;
    }

    method SetWindowLevel(center: real, width: real)
      modifies this
      ensures Valid()
      ensures windowCenter == center && windowWidth == width && currentPreset == None
      ensures Snapshot() == Apply(old(Snapshot()), Action.SetWindowLevel(center, width))
    {
      windowCenter, windowWidth, currentPreset := center, width, None;
    }

    method ApplyPreset(preset: Preset)
      modifies this
      ensures Valid()
      ensures currentPreset == Some(preset)
      ensures windowCenter == WindowPreset(preset).center && windowWidth == WindowPreset(preset).width
      ensures Snapshot() == Apply(old(Snapshot()), Action.ApplyPreset(preset))
    {
      var p := WindowPreset(preset);
      windowCenter, windowWidth, currentPreset := p.center, p.width, Some(preset);
    }

    method SetVolumeInfo(info: VolumeInfo)
      requires Valid()
      modifies this
      ensures Valid()
      ensures volumeInfo == Some(info)
      ensures Snapshot() == Apply(old(Snapshot()), Action.SetVolumeInfo(info))
    {
      volumeInfo := Some(info);
    }

    method Reset()
      modifies this
      ensures Valid()
      ensures Snapshot() == Apply(old(Snapshot()), Action.Reset)
      ensures Snapshot() == InitialState()
    {
      sliceType, currentSlice, maxSlice := AXIAL, 0, 0;
      windowCenter, windowWidth, currentPreset := 65.0, 420.0, Some(Abdomen);
      volumeInfo := None;
    }
  }
}
