/** The three filesystems the plugin can build an image for, and what each
    choice fixes: its label, the partition marker it looks for, and the
    sector offset applied to its partition. */
module Filesystem {

  import opened JavaText

  /** The dialog options LittleFS, SPIFFS and FatFS; the plugin keeps the chosen
      label in its `typefs` field. */
  datatype FsKind = LittleFS | SPIFFS | FatFS

  /** The label as the dialog offers it */
  function Label(k: FsKind): string {
    match k
    case LittleFS => "LittleFS"
    case SPIFFS => "SPIFFS"
    case FatFS => "FatFS"
  }

  /** `typefs.toLowerCase()`, used in tool directories, preference keys and the
      image file name */
  function LowerLabel(k: FsKind): (r: string)
    ensures r == ToLower(Label(k))
  {
    match k
    case LittleFS => "littlefs"
    case SPIFFS => "spiffs"
    case FatFS => "fatfs"
  }

  /** `spiOffset`: a FatFS image starts one 4096-byte sector into its partition */
  function SectorOffset(k: FsKind): int {
    if k == FatFS then 4096 else 0
  }

  /** The text whose presence anywhere in a table line selects it: "ffat" for
      FatFS, "spiffs" for SPIFFS and for LittleFS alike. */
  function Marker(k: FsKind): string {
    if k == FatFS then "ffat" else "spiffs"
  }
}
