/**
 * The file picker of the web client: it refuses files over a size limit given in
 * megabytes, remembers the accepted file, and reports every change to its owner.
 */
module FileUpload {
  import opened Wrappers
  import opened Text

  /** A selected file: its name and size in bytes. */
  datatype FileInfo = FileInfo(name: string, size: nat)

  /** Bytes in a kilobyte and in a megabyte. */
  const KiB: nat := 1024
  const MiB: nat := 1024 * 1024

  /** The limit used when the owner gives none, in megabytes. */
  const DefaultMaxSizeMb: nat := 10

  /** The message shown for a file over the limit. */
  function TooLargeMessage(maxSizeMb: nat): string {
    "File size exceeds " + NatToString(maxSizeMb) + "MB limit"
  }

  /** A file is refused when a limit is set (zero means none) and the file is larger. */
  predicate TooLarge(file: FileInfo, maxSizeMb: nat) {
    maxSizeMb != 0 && file.size > maxSizeMb * MiB
  }

  /** The picker's state and the calls it has made to `onFileSelect`, in order. */
  class Picker {
    const maxSizeMb: nat
    var file: Option<FileInfo>
    var error: Option<string>
    var notified: seq<Option<FileInfo>>

    constructor (maxSize: Option<nat>)
      ensures maxSizeMb == maxSize.GetOr(DefaultMaxSizeMb)
      ensures file.None? && error.None? && notified == []
    {
      maxSizeMb := maxSize.GetOr(DefaultMaxSizeMb);
      file := None;
      error := None;
      notified := [];
    }

    /**
     * `handleFileChange`: with nothing selected, nothing happens; a file over the limit
     * sets the error and is neither kept nor reported; any other file is kept and reported.
     */
    method HandleFileChange(selected: Option<FileInfo>)
      modifies this
      ensures selected.None? ==> file == old(file) && error == old(error) && notified == old(notified)
      ensures selected.Some? && TooLarge(selected.value, maxSizeMb) ==>
        error == Some(TooLargeMessage(maxSizeMb)) && file == old(file) && notified == old(notified)
      ensures selected.Some? && !TooLarge(selected.value, maxSizeMb) ==>
        error.None? && file == selected && notified == old(notified) + [selected]
    {
      if selected.None? {
        return;
      }
      error := None;
      if maxSizeMb != 0 && selected.value.size > maxSizeMb * 1024 * 1024 {
        error := Some(TooLargeMessage(maxSizeMb));
        return;
      }
      file := selected;
      notified := notified + [selected];
    }

    /** `handleRemove`: forget the file and the error, and report that nothing is selected. */
    method HandleRemove()
      modifies this
      ensures file.None? && error.None? && notified == old(notified) + [None]
    {
      file := None;
      error := None;
      notified := notified + [None];
    }
  }

  /** The unit a size is shown in. */
  datatype SizeUnit = B | KB | MB

  /** `formatFileSize` without the rounding: the unit and the size expressed in it. */
  function FormatFileSize(bytes: nat): (r: (real, SizeUnit))
    ensures r.1 == B <==> bytes < 1024
    ensures r.1 == KB <==> 1024 <= bytes < 1024 * 1024
    ensures r.1 == MB <==> bytes >= 1024 * 1024
    ensures r.0 * (match r.1 case B => 1.0 case KB => 1024.0 case MB => 1048576.0) == bytes as real
    ensures r.1 != B ==> r.0 >= 1.0
  {
    if bytes < KiB then (bytes as real, B)
    else if bytes < MiB then (bytes as real / 1024.0, KB)
    else (bytes as real / 1048576.0, MB)
  }
}
