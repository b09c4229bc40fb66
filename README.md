# NIfTI viewer: a Dafny model of the viewer's own logic

The viewer loads a NIfTI volume from a local file, shows it as axial, coronal,
sagittal or multiplanar slices with CT windowing presets, and can lay a
segmentation over it, split into one coloured overlay per label. Decoding,
rendering and crosshair handling belong to the external NiiVue engine. This
model covers the code the viewer owns:

- **Label splitting** (`label_split.dfy`, module `LabelSplit`). It scans the
  segmentation's voxels for distinct positive labels (`CollectLabels`, a loop
  that fills the label set in first-occurrence order) and sorts them
  ascending (`SortAscending`). It builds one 0/1 mask per label (`Mask`,
  `BuildMask`) and gives each label a colour by its sorted index modulo 6
  (`LabelColour`). It also defines the overlay volume of each label and the
  order in which they are stacked (`LabelStack`).
- **The viewer component** (`niivue_viewer.dfy`, module `NiiVueViewer`). This
  covers what the component does to the engine and the store:
  - window to calibration range;
  - the slice-layout change;
  - wheel and key navigation;
  - what happens after a main volume loads;
  - removing overlays, syncing overlay opacity, and the whole segmentation
    load (`LoadSegmentation`).

  The engine (`niivue_engine.dfy`, module `Niivue`) is a class. Its state is
  the list of volume records (`img`, `dims`, `pixDims`, `calMin`, `calMax`,
  `colormap`, `opacity`), the slice layout and the crosshair's z position,
  kept as the engine keeps it: a fraction of the base volume's extent that
  starts at 0.5, which a voxel step moves by one over the slice count. Each
  engine call used by the component is a method with an abstract effect on
  that state. Loading a file appends one volume.
- **The viewer store** (`viewer_store.dfy`, module `ViewerStore`). It is a
  class whose actions overwrite fields, plus the same actions as a pure
  transition function `Apply` on a `ViewerState` value. Each method's
  contract ties it to `Apply`. The invariant "a selected preset matches the
  window in force" is `MatchesPreset`. Every action preserves it, and so
  does every sequence of actions (`Run`).
- **The local viewer page** (`local_viewer_page.dfy`, module
  `LocalViewerPage`). It has the case-sensitive `.nii`/`.nii.gz` name check
  and a class holding the page's `file` and `isDragging` state, with one
  method per handler.

Voxel values, window centre and width, calibration bounds and opacity are
`real`. JavaScript's `Math.round` is modelled exactly as `floor(x + 0.5)`.

For each label, the per-label loop fills an unused `Float32Array`
(`maskData`) before it overwrites the reloaded volume's image in place. The model keeps both steps:
`BuildMask` makes the dead buffer and `WriteMask` does the live write.

`viewerStore.ts` does not declare the overlay fields (`overlayVisible`,
`overlayOpacity`, `setOverlayLoaded`, `clearOverlay`) that the viewer
component reads from the store. The model therefore passes overlay
visibility and opacity to `SyncOverlay` and `LoadSegmentation` as parameters.

## Model

| member | source | states |
|---|---|---|
| `LabelSplit.DistinctPositive` | frontend/src/components/viewer/NiiVueViewer.tsx:228-233 | the label set of an image has no repeats and holds a value iff it occurs in the image and is positive |
| `LabelSplit.CollectLabels` | frontend/src/components/viewer/NiiVueViewer.tsx:228-233 | the scan loop yields the label set of the image: exactly the distinct positive voxel values, each once, in first-occurrence order |
| `LabelSplit.InsertAscending` | frontend/src/components/viewer/NiiVueViewer.tsx:235 | inserting into an ascending list keeps it ascending and adds exactly that one value |
| `LabelSplit.SortAscending` | frontend/src/components/viewer/NiiVueViewer.tsx:235 | the sort with comparator `a - b` yields an ascending permutation of its input |
| `LabelSplit.SortDistinct` | frontend/src/components/viewer/NiiVueViewer.tsx:235 | sorting a list without repeats yields a strictly ascending list of the same values |
| `LabelSplit.LabelsSpec` | frontend/src/components/viewer/NiiVueViewer.tsx:228-235 | the label list is exactly the distinct positive image values, strictly ascending; zero and negatives never appear |
| `LabelSplit.BuildMask` | frontend/src/components/viewer/NiiVueViewer.tsx:250-253 | a fresh buffer of the image's length holds the label's 0/1 mask |
| `LabelSplit.Mask` | frontend/src/components/viewer/NiiVueViewer.tsx:262-264 | the mask has the image's length; each entry is 1 iff the voxel equals the label and 0 iff it does not |
| `LabelSplit.MasksDisjoint` | frontend/src/components/viewer/NiiVueViewer.tsx:251-252 | masks of two different labels never both cover a voxel |
| `LabelSplit.CoverageOfDistinctLabels` | frontend/src/components/viewer/NiiVueViewer.tsx:251-252 | over a repeat-free label list, the masks at a voxel sum to 1 if the voxel's value is in the list, else 0 |
| `LabelSplit.LabelMasksPartitionForeground` | frontend/src/components/viewer/NiiVueViewer.tsx:228-253 | the per-label masks sum to 1 at every positive voxel and to 0 at every other voxel |
| `LabelSplit.LabelColourCycle` | frontend/src/components/viewer/NiiVueViewer.tsx:239-247 | the smallest label is red, colours repeat every 6 labels, and two labels share a colour iff their indices agree modulo 6 |
| `LabelSplit.LabelColour` | frontend/src/components/viewer/NiiVueViewer.tsx:239-247 | a label's colour is one of the six palette entries, and it is red iff its sorted index is a multiple of 6 |
| `LabelSplit.LabelVolume` | frontend/src/components/viewer/NiiVueViewer.tsx:246-270 | a label's overlay keeps the segmentation's dims, spacing and opacity, is 1 at the voxels of that label and 0 at every other voxel, has a range 0 < calMin < 1 < calMax that shows only those voxels, and is drawn in a palette colour |
| `LabelSplit.LabelStack` | frontend/src/components/viewer/NiiVueViewer.tsx:244-270 | one overlay per label from the given sorted index up, created largest first: entry k is the label k places below the largest |
| `Niivue.Engine.constructor` | frontend/src/components/viewer/NiiVueViewer.tsx:36-42 | a new engine has no volumes and its crosshair sits at the middle (0.5) of the z extent |
| `Niivue.Engine.LoadVolume` | frontend/src/components/viewer/NiiVueViewer.tsx:221 | loading a file appends its decoded volume and changes nothing else |
| `Niivue.Engine.RemoveVolumeByIndex` | frontend/src/components/viewer/NiiVueViewer.tsx:216 | removal deletes exactly the volume at the index |
| `Niivue.Engine.SetOpacity` | frontend/src/components/viewer/NiiVueViewer.tsx:277 | only the opacity of the indexed volume changes |
| `Niivue.Engine.SetSliceType` | frontend/src/components/viewer/NiiVueViewer.tsx:86 | only the slice layout changes |
| `Niivue.MovedZSpec` | frontend/src/components/viewer/NiiVueViewer.tsx:165 | in the model, without the engine's voxel-centre snapping and clamping, a step of dz voxels moves the fractional z by exactly dz / dims[3], and a step of -dz returns to the start |
| `Niivue.Engine.MoveCrosshairInVox` | frontend/src/components/viewer/NiiVueViewer.tsx:165 | the fractional z becomes the voxel-stepped position `MovedZ`; with no z extent it stays put; nothing else changes |
| `NiiVueViewer.WindowCalibration` | frontend/src/components/viewer/NiiVueViewer.tsx:138-139 | the calibration range is exactly `width` wide and its midpoint is `center` |
| `NiiVueViewer.PresetCalibrationNonEmpty` | frontend/src/stores/viewerStore.ts:13-20 | every preset's window, applied to the base volume, gives calMin < calMax |
| `NiiVueViewer.ApplyWindowing` | frontend/src/components/viewer/NiiVueViewer.tsx:133-141 | with a base volume, only its calibration changes, to the store's window; with none, nothing changes |
| `NiiVueViewer.ApplySliceType` | frontend/src/components/viewer/NiiVueViewer.tsx:144-156 | with a base volume, the window is re-applied and the engine takes the store's slice type; otherwise nothing changes |
| `NiiVueViewer.VolumeInfoOf` | frontend/src/components/viewer/NiiVueViewer.tsx:75-78 | dimensions are header dims 1..3; spacing is pixDims 1..3, or 1,1,1 without pixDims |
| `NiiVueViewer.AfterVolumeLoad` | frontend/src/components/viewer/NiiVueViewer.tsx:71-87 | after a load the store's maxSlice is `dims[3] - 1` and its volume info is set, the base volume takes the store's window, the engine takes the store's slice type, and the preset invariant holds |
| `NiiVueViewer.JsRound` | frontend/src/components/viewer/NiiVueViewer.tsx:48 | rounding picks the integer within one half of x, with halves rounded up |
| `NiiVueViewer.OnLocationChange` | frontend/src/components/viewer/NiiVueViewer.tsx:45-51 | a reported voxel location sets the store's current slice to its rounded z; no location changes nothing |
| `NiiVueViewer.ArrowStep` | frontend/src/components/viewer/NiiVueViewer.tsx:174-184 | ArrowUp/ArrowRight step +1 and only they; ArrowDown/ArrowLeft step -1 and only they; no other key steps |
| `NiiVueViewer.WheelStep` | frontend/src/components/viewer/NiiVueViewer.tsx:164 | a wheel event steps +1 iff deltaY > 0, otherwise -1 |
| `NiiVueViewer.HandleWheel` | frontend/src/components/viewer/NiiVueViewer.tsx:159-166 | the fractional z moves by one slice width in the direction of the wheel step; nothing else changes |
| `NiiVueViewer.LastSlice` | frontend/src/components/viewer/NiiVueViewer.tsx:195 | the End target is `dims[3] - 1` when the base volume has a non-zero fourth dim, and 0 otherwise |
| `NiiVueViewer.HandleKeyDown` | frontend/src/components/viewer/NiiVueViewer.tsx:170-200 | arrows move the fractional z by one slice width in their direction; Home writes 0 into it; End writes the slice index `LastSlice` into it when a volume is loaded; the default action is suppressed iff the key is one of the six |
| `NiiVueViewer.EndPositionOutsideVolume` | frontend/src/components/viewer/NiiVueViewer.tsx:192-198 | End writes a slice index into the fractional z, so for a volume of more than two slices the position it writes exceeds 1 (past the far edge) |
| `NiiVueViewer.RemoveOverlays` | frontend/src/components/viewer/NiiVueViewer.tsx:215-217 | the removal loop ends with exactly the base volume, unchanged |
| `NiiVueViewer.WithOpacity` | frontend/src/components/viewer/NiiVueViewer.tsx:276-278 | every volume of the list gets the opacity and is otherwise unchanged; the length is kept |
| `NiiVueViewer.SetOverlayOpacity` | frontend/src/components/viewer/NiiVueViewer.tsx:276-278 | every volume from index 1 gets the opacity, the base volume is untouched, nothing else changes |
| `NiiVueViewer.EffectiveOpacity` | frontend/src/components/viewer/NiiVueViewer.tsx:297 | a visible overlay is drawn at the slider value, a hidden one at 0; for a non-negative slider the result lies between 0 and the slider value |
| `NiiVueViewer.SyncOverlay` | frontend/src/components/viewer/NiiVueViewer.tsx:293-303 | with two or more volumes, every overlay gets the slider opacity when visible and 0 when hidden; with fewer, nothing changes |
| `NiiVueViewer.OverlaySyncSpec` | frontend/src/components/viewer/NiiVueViewer.tsx:297-301 | after sync the base volume is unchanged and each overlay differs from before only in its opacity, which is the effective opacity |
| `NiiVueViewer.WriteMask` | frontend/src/components/viewer/NiiVueViewer.tsx:261-265 | the topmost volume's image is overwritten voxel by voxel with the label's mask; nothing else changes |
| `NiiVueViewer.AddLabelOverlay` | frontend/src/components/viewer/NiiVueViewer.tsx:246-272 | one iteration appends exactly the overlay of the label at sorted index i: its mask, range 0.5..1.5, colour `labelColors[i % 6]` |
| `NiiVueViewer.AddLabelOverlays` | frontend/src/components/viewer/NiiVueViewer.tsx:244-273 | the loop appends one overlay per label, from the largest sorted index down to 0 |
| `NiiVueViewer.LoadSegmentation` | frontend/src/components/viewer/NiiVueViewer.tsx:208-290 | with a base volume, the list ends as the base followed by one overlay per label, largest first, with the slider opacity; without one nothing changes |
| `NiiVueViewer.SegmentationOverlaysSpec` | frontend/src/components/viewer/NiiVueViewer.tsx:244-270 | overlay k holds the mask of the k-th largest label in its palette colour, range 0.5..1.5 and the slider opacity; the topmost is the smallest label |
| `NiiVueViewer.SegmentationOverlaysDescending` | frontend/src/components/viewer/NiiVueViewer.tsx:244-245 | for 1 <= k1 < k2 <= n, overlay k1 masks a strictly larger label than overlay k2: the stack descends from the bottom up |
| `ViewerStore.WindowPreset` | frontend/src/stores/viewerStore.ts:13-20 | every preset's width is positive, so its calibration range is non-empty |
| `ViewerStore.InitialState` | frontend/src/stores/viewerStore.ts:53-61 | the initial window (65, 420) is the abdomen preset, which is selected, so the invariant holds |
| `ViewerStore.Apply` | frontend/src/stores/viewerStore.ts:63-90 | every action keeps a selected preset equal to the window in force |
| `ViewerStore.RunPreservesMatchesPreset` | frontend/src/stores/viewerStore.ts:63-90 | any sequence of actions from a consistent state keeps the preset invariant |
| `ViewerStore.ApplyPresetIdempotent` | frontend/src/stores/viewerStore.ts:78-85 | applying a preset selects it and installs its centre and width; applying it twice equals applying it once |
| `ViewerStore.SetWindowLevelClearsPreset` | frontend/src/stores/viewerStore.ts:72-76 | a manual window is taken exactly and deselects any preset |
| `ViewerStore.ResetRestoresInitial` | frontend/src/stores/viewerStore.ts:89 | reset yields the initial state from any state |
| `ViewerStore.SettersTouchOnlyTheirField` | frontend/src/stores/viewerStore.ts:66-87 | setSliceType, setCurrentSlice, setMaxSlice and setVolumeInfo change only their own field |
| `ViewerStore.Store.constructor` | frontend/src/stores/viewerStore.ts:53-64 | a new store holds the initial state and satisfies the invariant |
| `ViewerStore.Store.SetSliceType` | frontend/src/stores/viewerStore.ts:66 | sets the slice type only, keeping the invariant |
| `ViewerStore.Store.SetCurrentSlice` | frontend/src/stores/viewerStore.ts:68 | sets the current slice only, keeping the invariant |
| `ViewerStore.Store.SetMaxSlice` | frontend/src/stores/viewerStore.ts:70 | sets the last slice index only, keeping the invariant |
| `ViewerStore.Store.SetWindowLevel` | frontend/src/stores/viewerStore.ts:72-76 | sets centre and width exactly and clears the preset |
| `ViewerStore.Store.ApplyPreset` | frontend/src/stores/viewerStore.ts:78-85 | installs the preset's centre and width and selects it |
| `ViewerStore.Store.SetVolumeInfo` | frontend/src/stores/viewerStore.ts:87 | sets the volume info only, keeping the invariant |
| `ViewerStore.Store.Reset` | frontend/src/stores/viewerStore.ts:89 | the snapshot becomes `Apply` of the reset action, which is the initial state |
| `LocalViewerPage.NiftiNamesAccepted` | frontend/src/pages/LocalViewerPage.tsx:14 | every stem followed by `.nii` or `.nii.gz` is accepted |
| `LocalViewerPage.IsNiftiName` | frontend/src/pages/LocalViewerPage.tsx:14 | every accepted name is a stem followed by `.nii` or by `.nii.gz` |
| `LocalViewerPage.RejectedNames` | frontend/src/pages/LocalViewerPage.tsx:14-17 | the check is case-sensitive (`scan.NII` is rejected) and other endings are rejected |
| `LocalViewerPage.Page.constructor` | frontend/src/pages/LocalViewerPage.tsx:10-11 | the page starts with no file and no drag in progress |
| `LocalViewerPage.Page.HandleFileSelect` | frontend/src/pages/LocalViewerPage.tsx:13-19 | a file is accepted iff its name ends in `.nii` or `.nii.gz`; acceptance sets it as the file, rejection keeps the old file |
| `LocalViewerPage.Page.HandleDrop` | frontend/src/pages/LocalViewerPage.tsx:21-29 | a drop always ends dragging and offers only the first dropped file; an empty drop keeps the file |
| `LocalViewerPage.Page.HandleDragOver` | frontend/src/pages/LocalViewerPage.tsx:31-34 | dragging becomes true and the file is untouched |
| `LocalViewerPage.Page.HandleDragLeave` | frontend/src/pages/LocalViewerPage.tsx:36-39 | dragging becomes false and the file is untouched |
| `LocalViewerPage.Page.HandleInputChange` | frontend/src/pages/LocalViewerPage.tsx:41-46 | without a chosen file nothing changes; otherwise the first chosen file goes through the extension check |
| `LocalViewerPage.Page.Back` | frontend/src/pages/LocalViewerPage.tsx:107 | the back button clears the file, returning to the drop zone |

## Left out

- The NiiVue engine itself is not modelled: decoding, rendering, `updateGLVolume`, colormap application, and how the engine reads `crosshairPos`. Its calls are abstract effects on the volume list, the slice type and the crosshair's fractional z. The crosshair's x and y are not modelled, because the component never changes them.
- `Niivue.Engine.MoveCrosshairInVox`: does not model the engine's rounding to a voxel centre or its clamping of the position to the volume, because that is engine code. With no base volume or no z extent the model leaves the position unchanged.
- `NiiVueViewer.HandleKeyDown`: Home and End write a slice index straight into the fractional position, as the component does. For a volume of more than two slices, End therefore lands past the far edge (`EndPositionOutsideVolume`). What the engine then draws for an out-of-range position is not modelled.
- `Niivue.MovedZSpec`: holds of the model's step only. The engine snaps the position to a voxel centre and clamps it to the volume, so its step is not exactly dz / dims[3], and a step down then up from the first or last slice does not return to the start.
- `NiiVueViewer.EndPositionOutsideVolume`: states only where End puts the position. The engine's clamping brings the next arrow step after End back onto the last slice, which the model's unclamped step does not capture.
- Failures and asynchrony are not modelled. A load can throw, and the `catch` only logs it. The model treats every load as completing, in program order.
- React effect scheduling, `useRef`/`useCallback` identity and effect re-run conditions are not modelled. The window is read straight from the store rather than through `windowRef`. The engine is assumed attached, so the `if (!nv) return` guards are not modelled.
- `NiiVueViewer.AfterVolumeLoad`: requires the base volume to have at least four header dims, and at least four pixDims when pixDims exist. The `vol.dims || [0, 0, 0]` fallback is not modelled, because indexing `dims[3]` on it gives `undefined`.
- `NiiVueViewer.OnLocationChange`: requires a reported voxel location to have at least three coordinates. A shorter one would yield `NaN`.
- `NiiVueViewer.LoadSegmentation`: assumes every decoded volume carries image data, so the `if (img)` and `if (labelVolume.img)` guards are not modelled. It also assumes that each reload of the segmentation decodes to the same volume (`seg`). The per-label file name `label_<n>.nii` is not modelled.
- `NiiVueViewer.WriteMask`: requires the overwritten volume to have as many voxels as the mask source. In `LoadSegmentation` this always holds, because both are decodings of the same file.
- `NiiVueViewer.AddLabelOverlay`: requires the mask source to be the segmentation's own image, which is how `LoadSegmentation` calls it.
- The overlay fields of the store are not part of this model, because `viewerStore.ts` does not declare them: `overlayVisible`, `overlayOpacity`, `hasOverlay`, `overlayFileName`, `setOverlayLoaded` (NiiVueViewer.tsx:281) and `clearOverlay` (NiiVueViewer.tsx:305-309).
- Floating-point details are not modelled: `NaN`, signed zero, `Float32Array` precision, and `parseFloat` of the opacity slider. Numbers are exact reals.
- `console.log`/`console.error`, the rejection `alert` (only its condition is modelled, as `accepted == false`), `preventDefault` on wheel events, canvas attachment and navigation to `/` are not modelled.
- The file-size display in megabytes is not modelled.
- `HomePage.tsx`, `App.tsx`, `ViewerToolbar.tsx` and `OverlayControls.tsx` are presentation and routing and are not part of this model.
