/**
 * The local viewer page: a drop zone that accepts one NIfTI file (by its
 * `.nii` or `.nii.gz` name) and then shows it in the viewer.  Its state is the
 * accepted file, if any, and whether a drag is hovering over the drop zone.
 */
module LocalViewerPage {
  import opened Wrappers

  datatype File = File(name: string, size: nat)

  predicate EndsWith(s: string, suffix: string)
  {
    |suffix| <= |s| && s[|s| - |suffix|..] == suffix
  }

  /** A name the page accepts as a NIfTI file; the comparison is case-sensitive. */
  predicate IsNiftiName(name: string)
    ensures IsNiftiName(name) ==>
              || (|name| >= 4 && name == name[..|name| - 4] + ".nii")
              || (|name| >= 7 && name == name[..|name| - 7] + ".nii.gz")
  {
    EndsWith(name, ".nii") || EndsWith(name, ".nii.gz")
  }

  /** Any name formed by adding `.nii` or `.nii.gz` to a stem is accepted. */
  lemma NiftiNamesAccepted(stem: string)
    ensures IsNiftiName(stem + ".nii")
    ensures IsNiftiName(stem + ".nii.gz")
  {
  }

  /** Upper-case extensions and other compressions are rejected. */
  lemma RejectedNames()
    ensures !IsNiftiName("scan.NII")
    ensures !IsNiftiName("scan.NII.GZ")
    ensures !IsNiftiName("scan.gz")
    ensures !IsNiftiName("scan.nii.zip")
    ensures IsNiftiName("scan.nii.gz") && !EndsWith("scan.nii.gz", ".nii")
  {
    assert "scan.NII"[4..] != ".nii";
    assert "scan.NII.GZ"[4..] != ".nii.gz";
    assert "scan.nii.zip"[5..] != ".nii.gz";
    assert "scan.nii.gz"[4..] == ".nii.gz";
  }

  class Page {
    var file: Option<File>
    var isDragging: bool

    /** The drop zone is shown while no file is accepted; the viewer otherwise. */
    predicate InViewer()
      reads this
    {
      file.Some?
    }

    constructor ()
      ensures file == None && !isDragging
    {
      file, isDragging := None, false;
    }

    /**
     * Accepts `selected` when its name has a NIfTI extension; otherwise the
     * user is alerted and the current file stays.  Returns whether it was accepted.
     */
    method HandleFileSelect(selected: File) returns (accepted: bool)
      modifies this
      ensures accepted <==> IsNiftiName(selected.name)
      ensures file == (if accepted then Some(selected) else old(file))
      ensures isDragging == old(isDragging)
    {
      if EndsWith(selected.name, ".nii") || EndsWith(selected.name, ".nii.gz") {
        file := Some(selected);
        accepted := true;
      } else {
        accepted := false;
      }
    }

    /** A drop ends the drag and offers only the first dropped file for selection. */
    method HandleDrop(dropped: seq<File>)
      modifies this
      ensures !isDragging
      ensures file == (if |dropped| > 0 && IsNiftiName(dropped[0].name) then Some(dropped[0]) else old(file))
    {
      isDragging := false;
      if |dropped| > 0 {
        var _ := HandleFileSelect(dropped[0]);
      }
    }

    method HandleDragOver()
      modifies this
      ensures isDragging && file == old(file)
    {
      isDragging := true;
    }

    method HandleDragLeave()
      modifies this
      ensures !isDragging && file == old(file)
    {
      isDragging := false;
    }

    /** The file picker: `chosen` is absent when the input has no file list. */
    method HandleInputChange(chosen: Option<seq<File>>)
      modifies this
      ensures isDragging == old(isDragging)
      ensures (chosen.None? || chosen.value == []) ==> file == old(file)
      ensures chosen.Some? && chosen.value != [] ==>
        file == (if IsNiftiName(chosen.value[0].name) then Some(chosen.value[0]) else old(file))
    {
      if chosen.Some? && |chosen.value| > 0 {
        var _ := HandleFileSelect(chosen.value[0]);
      }
    }

    /** The back button of the viewer returns to the drop zone. */
    method Back()
      modifies this
      ensures file == None && !InViewer()
      ensures isDragging == old(isDragging)
    {
      file := None;
    }
  }
}
