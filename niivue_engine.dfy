/**
 * The external rendering engine, reduced to the state the viewer reads and
 * writes: the list of loaded volumes (index 0 is the base image, the rest are
 * overlays drawn on top of it in list order), the slice layout and the
 * crosshair's z position, which the engine keeps as a fraction of the base
 * volume's extent (0 at one end, 1 at the other).  Decoding, rendering and camera control are
 * not modelled; each engine call is an effect on this state.
 */
module Niivue {
  import opened Wrappers

  /** One loaded volume: its voxels, header dimensions and display settings. */
  datatype Volume = Volume(
    img: seq<real>,
    dims: seq<int>,
    pixDims: Option<seq<real>>,
    calMin: real,
    calMax: real,
    colormap: string,
    opacity: real)

  /** The base volume's number of slices along z, or 0 when there is none to go by. */
  function ZExtent(vs: seq<Volume>): (n: int)
    ensures n >= 0
  {
    if |vs| > 0 && |vs[0].dims| > 3 && vs[0].dims[3] > 0 then vs[0].dims[3] else 0
  }

  /** The fractional z position after a step of `dz` voxels of the base volume. */
  function MovedZ(vs: seq<Volume>, z: real, dz: int): real
  {
    if ZExtent(vs) > 0 then z + dz as real / ZExtent(vs) as real else z
  }

  /**
   * In this model a step moves the position by exactly `dz` slices' worth of
   * the volume, and a step back undoes it; the engine's snapping to voxel
   * centres and clamping are not part of `MovedZ`.
   */
  lemma MovedZSpec(vs: seq<Volume>, z: real, dz: int)
    requires ZExtent(vs) > 0
    ensures (MovedZ(vs, z, dz) - z) * ZExtent(vs) as real == dz as real
    ensures MovedZ(vs, MovedZ(vs, z, dz), -dz) == z
  {
  }

  class Engine {
    var volumes: seq<Volume>
    var sliceType: int
    /** The crosshair's z position as a fraction of the base volume (`scene.crosshairPos[2]`). */
    var crosshairZ: real

    constructor ()
      ensures volumes == [] && crosshairZ == 0.5
    {
      volumes, sliceType, crosshairZ := [], 0, 0.5;
    }

    /** Loading a file adds its decoded volume at the end of the list. */
    method LoadVolume(v: Volume)
      modifies this
      ensures volumes == old(volumes) + [v]
      ensures sliceType == old(sliceType) && crosshairZ == old(crosshairZ)
    {
      volumes := volumes + [v];
    }

    method RemoveVolumeByIndex(i: nat)
      requires i < |volumes|
      modifies this
      ensures volumes == old(volumes[..i] + volumes[i + 1..])
      ensures sliceType == old(sliceType) && crosshairZ == old(crosshairZ)
    {
      volumes := volumes[..i] + volumes[i + 1..];
    }

    method SetOpacity(i: nat, opacity: real)
      requires i < |volumes|
      modifies this
      ensures volumes == old(volumes[i := volumes[i].(opacity := opacity)])
      ensures sliceType == old(sliceType) && crosshairZ == old(crosshairZ)
    {
      volumes := volumes[i := volumes[i].(opacity := opacity)];
    }

    method SetSliceType(t: int)
      modifies this
      ensures sliceType == t
      ensures volumes == old(volumes) && crosshairZ == old(crosshairZ)
    {
      sliceType := t;
    }

    /**
     * Moves the crosshair by whole voxels of the base volume; only the z step
     * is ever used.  The fraction moves by `dz` over the number of slices.
     */
    method MoveCrosshairInVox(dz: int)
      modifies this
      ensures crosshairZ == MovedZ(volumes, old(crosshairZ), dz)
      ensures volumes == old(volumes) && sliceType == old(sliceType)
    {
      crosshairZ := MovedZ(volumes, crosshairZ, dz);
    }
  }
}
