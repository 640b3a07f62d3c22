# ESP32 filesystem uploader, modelled in Dafny

This project models the ESP32 filesystem uploader for the Arduino IDE
(`ESP32FS`). The tool has two actions:

- **Create and upload.** It packs a sketch's `data` folder into a LittleFS,
  SPIFFS or FatFS image and writes that image to the board. The image goes
  over the air with `espota` when the port is an IP address, and over a
  serial line with `esptool` otherwise.
- **Erase flash.** It wipes the whole flash over the serial port.

The model covers these parts:

- **Size literals.** `parseInt` and `getIntPref` read sizes such as `0x1000`,
  `4K` and `1M`. They sit on top of `java.lang.Long.decode`, which is
  modelled for ASCII text.
- **Partition table scan.** The scan reads one line per step. It skips
  comments and walks a cursor across the partitions it passes. It stops at
  the first line that names the chosen filesystem (`spiffs`, or `ffat` for
  FatFS). It then returns the region, moved by the 4096-byte FatFS sector
  offset.
- **Tool lookup.** The builder, `espota` and `esptool` are each searched
  for in a fixed list of places, and the first one that passes is used.
  Tool names depend on the OS and on the filesystem.
- **Port classification.** A port splits on `.` into pieces; exactly four
  pieces means an OTA address.
- **Command lines.** The build, OTA upload, serial upload and erase command
  lines are built here. A tool whose path ends in `.py` gets the interpreter
  put in front of it.
- **Run sequences.** `createAndUpload` and `eraseFlash` are modelled as runs
  over abstract inputs: the IDE preferences, the board preferences, a disk,
  the readable files, the data folder listing, the user's answers and the
  builder's exit code. Every check stops the run, and the upload is handed
  over only after a build that returned 0.
- **Menu entry.** `run` keeps the user's choice in the `typefs` field, then
  starts the erase or the image upload. A cancelled choice starts nothing.

The modules:

- `Wrappers`: `Option` and `Result`.
- `JavaText`: the `String` calls the code makes, with their JDK semantics.
- `SizeLiteral`: `Long.decode`, `parseInt`, `getIntPref`, and `Long.toString` as their partner.
- `Filesystem`: the three image kinds.
- `PartitionScan`: the table scan.
- `Tools`: names and lookups.
- `Commands`: ports and command lines.
- `Pipeline`: the two runs and the `Plugin` class.

Behaviour of the code worth knowing:

- The scan refuses only a size of exactly 0 after the sector offset. A FatFS
  partition smaller than 4096 bytes goes through with a negative size.
- For the builder's second and third places (`tools/mk<kind>/` and the
  `runtime.tools.mk<kind>.path` preference) the code checks only
  `exists()`, so a directory of that name is accepted.
- The build command is never prefixed with an interpreter. Only the
  `espota` and `esptool` calls are.
- `String.split` drops trailing empty pieces, so `"1.2.3.4."` still counts
  as an address.
- Erasing over an address still asks for confirmation, and then runs
  nothing.
- A line with an explicit offset moves the cursor to that offset plus its
  size; it does not add to the cursor so far. So in the stock table an
  `app0` line at `0x10000` with size `0x140000`, followed by a `spiffs` line
  with a blank offset, puts the image at `0x150000`.

## Model

| member | source | states |
|---|---|---|
| SizeLiteral.DecodeLong | src/ESP32FS.java:174-178 | Long.decode's results always lie in the range of a long |
| SizeLiteral.Magnitude | src/ESP32FS.java:174-178 | Long.decode after the sign: a 0x, 0X or # prefix selects radix 16 and a leading 0 radix 8; what remains must be non-empty, must not start with a sign and must be digits of that radix (definition; MagnitudeOf and MagnitudeRejectsNonDigit) |
| SizeLiteral.DigitsValue | src/ESP32FS.java:174-178 | the value of a string of digits in a radix, and no value when a character is not a digit of that radix (definition; DigitsRoundTrip and MagnitudeRejectsNonDigit) |
| SizeLiteral.ParseSize | src/ESP32FS.java:174-178 | parseInt: a trailing m/M or k/K scales the decoded rest, other text is decoded whole; None where it throws (its properties are the lemmas below) |
| SizeLiteral.IntPref | src/ESP32FS.java:180-184 | getIntPref fails only for a present, non-empty preference that parseInt rejects |
| SizeLiteral.MagnitudeRejectsNonDigit | src/ESP32FS.java:174-178 | digits ending in a character that is no digit or letter have no value |
| SizeLiteral.NoMagnitudeNoLong | src/ESP32FS.java:174-178 | text whose part after the sign has no value is rejected |
| SizeLiteral.TrailingNonDigit | src/ESP32FS.java:174-178 | a literal followed by a space, tab, dot or other non-alphanumeric character is rejected by Long.decode and by parseInt |
| SizeLiteral.DoubledSign | src/ESP32FS.java:174-178 | a second sign after the first ("--5", "+-5") is rejected |
| SizeLiteral.AboveMaxLong | src/ESP32FS.java:174-178 | a decimal literal above the largest long is rejected |
| SizeLiteral.BelowMinLong | src/ESP32FS.java:174-178 | a negative decimal literal below the smallest long is rejected |
| SizeLiteral.RadixOf | src/ESP32FS.java:174-178 | Long.decode's prefix selects radix 8, 10 or 16 |
| SizeLiteral.LongText | src/ESP32FS.java:424-430 | a long written as `n + ""` (definition; its partner is LongTextRoundTrip) |
| SizeLiteral.LongTextRoundTrip | src/ESP32FS.java:174-178 | Long.decode reads back every long that Long.toString wrote |
| SizeLiteral.LongTextParses | src/ESP32FS.java:174-178 | parseInt reads back every long written as `n + ""`: the last character is a digit, so no suffix is stripped |
| SizeLiteral.UnsuffixedDecodes | src/ESP32FS.java:177 | text with no unit suffix is decoded whole |
| SizeLiteral.DigitEndsUnsuffixed | src/ESP32FS.java:175-176 | text ending in a digit has no unit suffix |
| SizeLiteral.NonDigitUnsuffixed | src/ESP32FS.java:175-177 | text ending in a non-alphanumeric character has no unit suffix and is decoded whole |
| SizeLiteral.KiloSuffix | src/ESP32FS.java:176 | a trailing k or K multiplies the decoded value by 1024, when the product fits in a long |
| SizeLiteral.MegaSuffix | src/ESP32FS.java:175 | a trailing m or M multiplies the decoded value by 1024*1024, when the product fits in a long |
| SizeLiteral.NumberTextRoundTrip | src/ESP32FS.java:174-178 | decimal and `0x` hex numbers read back as their value |
| SizeLiteral.NumberTextScales | src/ESP32FS.java:174-178 | a number parses to itself, and followed by K or M to itself times 1024 or 1024*1024 whenever that product fits in a long |
| SizeLiteral.ParseSizeRoundTrip | src/ESP32FS.java:174-178 | every size literal (decimal or hex, in bytes, K or M) whose byte count fits in a long parses to that count |
| SizeLiteral.FourKiBSpellings | src/ESP32FS.java:174-178 | "4096", "4K", "4k" and "0x1000" all parse to 4096 |
| SizeLiteral.DigitsRoundTrip | src/ESP32FS.java:174-178 | the digit string of n in a radix has value n in that radix |
| SizeLiteral.IntPrefReadsLiteral | src/ESP32FS.java:180-184 | getIntPref gives 0 for a missing or empty preference, and the byte count for a size literal whose count fits in a long |
| Filesystem.Marker | src/ESP32FS.java:274 | the text a matching table line contains: "ffat" for FatFS, "spiffs" otherwise (definition) |
| Filesystem.SectorOffset | src/ESP32FS.java:190 | the offset added to the start and taken from the size: 4096 for FatFS, 0 otherwise (definition) |
| Filesystem.LowerLabel | src/ESP32FS.java:399 | the image kind's name in lower case, as it appears in the image name and tool paths |
| JavaText.Contains | src/ESP32FS.java:274 | `String.contains` (definition; ContainsIsOccurrence states what it means) |
| JavaText.IsBlank | src/ESP32FS.java:289-297 | `trim().isEmpty()`: every character is at most a space; the null tests beside it never fire, since the fields come from substring (definition) |
| JavaText.ToLower | src/ESP32FS.java:399 | `toLowerCase()` on ASCII letters (definition; LowerLabel states its three results) |
| JavaText.IndexOf | src/ESP32FS.java:277-284 | indexOf gives -1 exactly when the character is absent; otherwise the first position holding it |
| JavaText.CutAtFirst | src/ESP32FS.java:277-284 | cutting at the first separator gives back what precedes and what follows it |
| JavaText.After | src/ESP32FS.java:277-282 | `substring(indexOf(",") + 1)`: what follows the first comma, or the whole text when it has no comma (definition; CutAtFirst) |
| JavaText.Before | src/ESP32FS.java:281-284 | `substring(0, indexOf(","))`: what precedes the first comma; None where the call throws because there is no comma (definition; CutAtFirst and MissingCharExcludes) |
| JavaText.DropSpaces | src/ESP32FS.java:280-283 | the `while (startsWith(" ")) substring(1)` loops: the text without its leading spaces (definition; DropSpacesSuffix, DropSpacesPad and StripLeadingSpaces) |
| JavaText.StripLeadingSpaces | src/ESP32FS.java:280 | the space-stripping loop leaves DropSpaces of the input |
| JavaText.DropSpacesSuffix | src/ESP32FS.java:280 | stripping leaves a suffix that does not start with a space, and only spaces are removed |
| JavaText.DropSpacesPad | src/ESP32FS.java:283 | stripping a run of spaces in front of a field gives back the field |
| JavaText.ContainsIsOccurrence | src/ESP32FS.java:274 | `contains` holds exactly when the text occurs at some position |
| JavaText.MissingCharExcludes | src/ESP32FS.java:274 | a line missing any character of the marker does not contain it |
| JavaText.SplitOnDot | src/ESP32FS.java:344 | `split("\\.")`: the text itself when it has no dot, otherwise the dot-separated pieces less the trailing empty ones (its properties are the lemmas below) |
| JavaText.SplitOfJoin | src/ESP32FS.java:344 | splitting dot-free parts joined by dots gives the parts back, less the empty ones at the end |
| JavaText.SplitBound | src/ESP32FS.java:344 | split never gives more pieces than the number of dots plus one |
| PartitionScan.ScanLine | src/ESP32FS.java:273-305 | one pass of the loop; it stops on a match only for a line that names the filesystem |
| PartitionScan.CursorStep | src/ESP32FS.java:296-305 | a line that does not name the filesystem never stops the scan on a match |
| PartitionScan.Locate | src/ESP32FS.java:272-307 | the scan of a run of lines stops on a match only when some line names the filesystem |
| PartitionScan.ResolveLayout | src/ESP32FS.java:267-316 | the layout the scan and the size check yield never has size 0 |
| PartitionScan.CutFields | src/ESP32FS.java:277-284 | the three field skips, the space stripping and the start and size cuts; None where substring throws (definition; CutRow and CutUnterminated state its results) |
| PartitionScan.StartAndSize | src/ESP32FS.java:281-284 | the start up to the next comma, then past spaces the size up to the following comma (definition) |
| PartitionScan.MatchStep | src/ESP32FS.java:288-295 | the matching line's region: start (the cursor when blank) plus the sector offset, size less the sector offset (definition; MatchingLineFound states it) |
| PartitionScan.MarkerLineStops | src/ESP32FS.java:273-295 | a data line naming the filesystem always ends the scan, as the match or by throwing |
| PartitionScan.PassedRunHasNoMarker | src/ESP32FS.java:272-307 | a run the scan passed over holds no data line naming the filesystem |
| PartitionScan.CursorAdvances | src/ESP32FS.java:296-305 | a row without the marker whose size is positive moves the cursor strictly forward when its offset is blank or not behind the cursor |
| PartitionScan.RunAdvances | src/ESP32FS.java:272-307 | a run of such rows with blank offsets moves the cursor at least one byte per row, and the scan keeps going over all of them |
| PartitionScan.BlankSizeRejected | src/ESP32FS.java:174-178 | parseInt rejects blank text, so only the non-blank sizes tested at 297 can move the cursor |
| PartitionScan.CutLine | src/ESP32FS.java:277-284 | the cutting statements give the offset and size fields of the line, or None where substring throws |
| PartitionScan.ScanOne | src/ESP32FS.java:273-305 | one pass of the loop body gives the step ScanLine specifies |
| PartitionScan.ResolveMatch | src/ESP32FS.java:288-295 | the matching line's region: offset (or cursor) plus sector offset, and size less sector offset |
| PartitionScan.AdvanceCursor | src/ESP32FS.java:296-305 | the cursor moves past a non-matching line as CursorStep specifies |
| PartitionScan.ScanPartitions | src/ESP32FS.java:267-316 | the whole loop with its exception handler gives ResolveLayout of the table's lines |
| PartitionScan.CutRow | src/ESP32FS.java:277-284 | a well-formed row's offset and size come back out of its line, whatever the padding |
| PartitionScan.CutUnterminated | src/ESP32FS.java:284 | a line ending right after the size field throws |
| PartitionScan.RowIsDataLine | src/ESP32FS.java:273-284 | a row's line is neither empty nor a comment, and cuts cleanly |
| PartitionScan.CommentKeepsCursor | src/ESP32FS.java:273 | a '#' line leaves the cursor unchanged |
| PartitionScan.EmptyLineThrows | src/ESP32FS.java:273 | an empty line throws, which ends the scan as unreadable |
| PartitionScan.OtherLineCursor | src/ESP32FS.java:296-305 | a blank size keeps the cursor; a blank offset advances it by the size; otherwise it moves to offset plus size; a bad literal throws |
| PartitionScan.OtherRowCursor | src/ESP32FS.java:296-305 | the same three cursor rules, for a well-formed row |
| PartitionScan.MatchingLineFound | src/ESP32FS.java:274-295 | a data line naming the filesystem yields the region, moved by the sector offset |
| PartitionScan.MatchingRowFound | src/ESP32FS.java:274-295 | the same, for a well-formed row |
| PartitionScan.LocateAppend | src/ESP32FS.java:272-307 | scanning a+b is scanning a, then b from a's cursor when a had no hit |
| PartitionScan.FirstMatchWins | src/ESP32FS.java:295 | lines after the first match are never read |
| PartitionScan.CommentsIgnored | src/ESP32FS.java:273 | inserting a comment line anywhere does not change the layout |
| PartitionScan.EmptyLineBeforeMatch | src/ESP32FS.java:273-316 | an empty line before any match makes the table unreadable |
| PartitionScan.NoMarkerNoMatch | src/ESP32FS.java:274 | with no line naming the filesystem the scan never stops on a match |
| PartitionScan.NoMarkerNoLayout | src/ESP32FS.java:308-312 | ... and the run gets no layout |
| PartitionScan.MatchingRowDecides | src/ESP32FS.java:288-312 | a matching row after the cursor reached c decides the layout: its region, or "size not found" exactly when the size after the offset is 0 |
| PartitionScan.FatSectorOnly | src/ESP32FS.java:288-312 | a FatFS partition of one 4096-byte sector is refused as size not found |
| PartitionScan.FatUndersizedAccepted | src/ESP32FS.java:294-308 | a FatFS partition of 0x800 bytes is accepted with size -0x800 |
| PartitionScan.BadSizeLineBreaks | src/ESP32FS.java:288-295 | a matching line whose size parseInt rejects makes the scan throw |
| PartitionScan.BrokenLineStops | src/ESP32FS.java:267-316 | a line on which parseInt throws, reached after lines that did not, makes the whole table unreadable whatever follows it |
| PartitionScan.StraySizeCharacterBreaks | src/ESP32FS.java:267-316 | a matching row whose size ends in a space or other non-alphanumeric character makes the table unreadable |
| Tools.UploadExtension | src/ESP32FS.java:204-207 | the upload's esptool is a .py script exactly off Windows |
| Tools.UploadPython | src/ESP32FS.java:209-213 | the upload's interpreter is an .exe exactly on Windows |
| Tools.MkToolName | src/ESP32FS.java:215-223 | the builder's name starts with "mk" and ends in .exe exactly on Windows |
| Tools.EspotaName | src/ESP32FS.java:225-227 | espota is a .py script exactly off Windows |
| Tools.EraseExtension | src/ESP32FS.java:486-491 | the erase's esptool is a .py script exactly when the OS is neither Windows nor macOS |
| Tools.ErasePython | src/ESP32FS.java:493-497 | the erase's interpreter is an .exe exactly on Windows |
| Tools.MkToolNameRule | src/ESP32FS.java:215-223 | the builder's spelled-out names are "mk", the lower-case kind, and .exe on Windows |
| Tools.Child | src/ESP32FS.java:240 | `new File(parent, child)`: the parent, a slash and the child (definition) |
| Tools.PrefChild | src/ESP32FS.java:325 | `new File(PreferencesData.get(key), name)`: the name inside the folder the preference names; with the preference missing the parent is null and the file is the bare name. The esptool candidates at 365-367 and 522-524 use it too (definition; MkToolPreferenceMissing) |
| Tools.ToolsDir | src/ESP32FS.java:321 | the platform folder's `tools` folder, where the builder, espota, esptool and the partition schemes are looked for (definition) |
| Tools.MkToolProbes | src/ESP32FS.java:321-325 | the builder's three places in order: tools/ (regular file), tools/mk<kind>/ and the preference's folder (existence only) (definition) |
| Tools.EspotaProbes | src/ESP32FS.java:346-348 | espota's two places: the OS's name, then espota.py, both in tools/ and both regular files (definition) |
| Tools.EsptoolProbes | src/ESP32FS.java:358-367 | esptool's five places in order: tools/, tools/esptool_py/, tools/esptool/ and the two preferences' folders, all regular files; eraseFlash (516-524) uses the same list (definition) |
| Tools.Resolve | src/ESP32FS.java:321-332 | the lookup gives nothing exactly when every candidate fails, otherwise the first candidate that passes |
| Tools.ResolveFirst | src/ESP32FS.java:321-332 | a passing candidate is never skipped for a later one |
| Tools.ResolveFrom | src/ESP32FS.java:321-332 | the lookup from candidate i on tries i, then goes on only if i failed |
| Tools.FindMkTool | src/ESP32FS.java:321-332 | the nested builder checks give the first hit of tools/ (regular file), tools/mk<kind>/ and the preference (existence only) |
| Tools.FindEspota | src/ESP32FS.java:346-353 | the espota checks give the first hit of the OS's name and espota.py in tools/ |
| Tools.FindEsptool | src/ESP32FS.java:358-376 | the esptool checks give the first regular file among the five places |
| Tools.MkToolInToolsWins | src/ESP32FS.java:321-322 | a builder file in tools/ is always the one used |
| Tools.MkToolDirectoryAccepted | src/ESP32FS.java:323-324 | a directory at tools/mk<kind>/<name> is taken as the builder |
| Tools.MkToolPreferenceMissing | src/ESP32FS.java:325 | without the preference the last candidate is the bare file name |
| Tools.EspotaFallsBackToScript | src/ESP32FS.java:346-349 | on Windows a missing espota.exe falls back to espota.py, which then runs through the interpreter |
| Tools.EsptoolFoundIff | src/ESP32FS.java:358-376 | esptool is found exactly when one of its five places holds it as a file |
| Commands.IsNetwork | src/ESP32FS.java:344 | a port is an address when split on dots it gives four pieces (its properties are the lemmas below) |
| Commands.JoinedIsNetwork | src/ESP32FS.java:344 | a port made of dot-free parts is an address exactly when four parts remain once trailing empty ones are dropped |
| Commands.DottedQuadIsNetwork | src/ESP32FS.java:344 | a dotted quad is an address |
| Commands.TrailingDotStillNetwork | src/ESP32FS.java:344 | a dotted quad with a trailing dot is still an address |
| Commands.FivePartsIsSerial | src/ESP32FS.java:344 | five non-empty parts are not an address |
| Commands.FewDotsIsSerial | src/ESP32FS.java:344 | fewer than three dots is never an address |
| Commands.DotlessIsSerial | src/ESP32FS.java:344 | a port name with no dot is a serial port |
| Commands.SerialExamples | src/ESP32FS.java:344 | /dev/ttyUSB0 and COM5 are serial ports |
| Commands.WithInterpreter | src/ESP32FS.java:450-453 | a .py tool gets the interpreter in front of it and any other tool runs directly; the arguments follow unchanged |
| Commands.ImagePath | src/ESP32FS.java:399 | the image lies in the build folder, is named after the sketch, and ends in .<kind>.bin |
| Commands.BuildArgs | src/ESP32FS.java:422-433 | the builder's argument vector, with -p/-b only when the image is not FatFS (its properties are BuildArgsShape and BuildSizesReadBack) |
| Commands.BuildArgsShape | src/ESP32FS.java:422-433 | tool first, data folder after -c, size after -s, image last; six items exactly for FatFS, otherwise ten with the page 256 after -p and the block 4096 after -b |
| Commands.GeometryArgs | src/ESP32FS.java:430 | the `-p <page> -b <block>` part of the build command for images other than FatFS (definition; BuildArgsShape and PageAndBlockParse) |
| Commands.BuildSizesReadBack | src/ESP32FS.java:424-430 | the size, page and block arguments parse back to the region size, 256 and 4096 |
| Commands.PageAndBlockParse | src/ESP32FS.java:430 | the page and block texts parse back to 256 and 4096 |
| Commands.OtaArgs | src/ESP32FS.java:450-453 | espota's argument vector, with the interpreter in front of a .py espota (its properties are OtaArgsShape) |
| Commands.OtaArgsShape | src/ESP32FS.java:450-453 | espota gets the address after -i, port 3232, -s and -f, and the image last; nine items with the interpreter first for a .py espota, eight otherwise |
| Commands.FlashArgs | src/ESP32FS.java:455-470 | esptool's write_flash vector, with the interpreter in front of a .py esptool; None when a board value it needs is missing (its properties are the three lemmas below) |
| Commands.FlashArgsNeedBoard | src/ESP32FS.java:454-470 | the serial upload can be launched exactly when chip, speed, flash mode and flash frequency are set |
| Commands.BoardValue | src/ESP32FS.java:455-456 | a read of a board preference, None for a key the board does not define; also `upload.speed` at 400 and `build.mcu` at 564 (definition; FlashArgsNeedBoard) |
| Commands.FlashArgsShape | src/ESP32FS.java:467-470 | the serial upload names the chip after --chip, the port after --port, then the start address and the image last |
| Commands.FlashArgsFlags | src/ESP32FS.java:467-470 | the upload speed, flash mode and flash frequency follow their flags, and write_flash -z comes after the reset options |
| Commands.FlashAddressReadsBack | src/ESP32FS.java:468-470 | the address argument parses back to the region start |
| Commands.EraseArgs | src/ESP32FS.java:557-560 | esptool's erase_flash vector, with the interpreter in front of a .py esptool; None without a chip (its properties are EraseArgsShape) |
| Commands.EraseArgsShape | src/ESP32FS.java:557-560 | erase_flash can be launched exactly when the chip is set; it names chip and port, and is two longer with a .py tool |
| Pipeline.VisibleCount | src/ESP32FS.java:387-394 | the count of visible entries is at most the number of entries |
| Pipeline.VisibleCountZero | src/ESP32FS.java:387-394 | the count is 0 exactly when no entry is a visible file or folder |
| Pipeline.PartitionsFile | src/ESP32FS.java:234-264 | the partitions file chosen is always an existing regular file |
| Pipeline.PartitionsFileOrder | src/ESP32FS.java:234-252 | without build.partitions the run stops even when the sketch has its own partitions.csv; with it that file wins; with it empty and no such file, "not found" |
| Pipeline.Layout | src/ESP32FS.java:234-316 | the region the run resolves never has size 0 |
| Pipeline.UploadRun | src/ESP32FS.java:186-471 | createAndUpload as a function of its inputs (its properties are the lemmas below) |
| Pipeline.EraseRun | src/ESP32FS.java:475-562 | eraseFlash as a function of its inputs (its properties are the lemmas below) |
| Pipeline.CountDataFiles | src/ESP32FS.java:382-394 | the counting loop counts the visible entries |
| Pipeline.FindLayout | src/ESP32FS.java:234-316 | the partitions-file choice and the scan give Layout |
| Pipeline.UploadTarget | src/ESP32FS.java:337-379 | the port check, then espota for an address and esptool otherwise (definition; FindTarget and UploadFollowsPort) |
| Pipeline.PlanUpload | src/ESP32FS.java:196-379 | the platform, partitions, builder and target checks in source order (definition; PrepareUpload and UploadNeedsCleanBuild) |
| Pipeline.BuildCommand | src/ESP32FS.java:422-433 | the builder's arguments from the plan's builder, the data folder, the region size and the image (definition; UploadUsesLayout) |
| Pipeline.UploadCommand | src/ESP32FS.java:446-470 | espota's arguments for an address, esptool's write_flash arguments for a serial port (definition; UploadFollowsPort) |
| Pipeline.Launch | src/ESP32FS.java:422-470 | the build, and the upload only after exit 0; otherwise "create failed" with the build's arguments (definition; BuildAndUpload and FailedBuildStops) |
| Pipeline.FindTarget | src/ESP32FS.java:337-379 | the port check and the uploader lookup give UploadTarget |
| Pipeline.PrepareUpload | src/ESP32FS.java:196-379 | the checks in source order give PlanUpload |
| Pipeline.CreateAndUpload | src/ESP32FS.java:186-471 | the statements of createAndUpload give UploadRun |
| Pipeline.BuildAndUpload | src/ESP32FS.java:396-470 | the build command, then the upload only after exit 0 |
| Pipeline.EraseFlash | src/ESP32FS.java:475-562 | the statements of eraseFlash give EraseRun |
| Pipeline.UploadNeedsCleanBuild | src/ESP32FS.java:406-440 | an upload is handed over exactly when all checks passed, there is data or the user accepted an empty image, and the build returned 0 |
| Pipeline.FailedBuildStops | src/ESP32FS.java:424-433 | a non-zero build exit stops the run as "create failed", after the builder ran with the planned arguments |
| Pipeline.PlatformCheckedFirst | src/ESP32FS.java:196-200 | a non-ESP32 platform stops both runs before anything else |
| Pipeline.PortRequired | src/ESP32FS.java:337-341 | a missing or empty port stops the upload after the builder lookup, and stops the erase |
| Pipeline.Supported | src/ESP32FS.java:196 | the target platform preference contains "esp32" (definition; PlatformCheckedFirst) |
| Pipeline.MkTool | src/ESP32FS.java:321-332 | the first builder candidate that passes its test, or "not found" (definition; FindMkTool and MkToolInToolsWins) |
| Pipeline.Port | src/ESP32FS.java:337-341 | the serial port preference, or "serial port not defined" when it is missing or empty (definition; PortRequired) |
| Pipeline.DataPath | src/ESP32FS.java:382-394 | the `data` folder inside the sketch folder (definition; CountDataFiles) |
| Pipeline.Visible | src/ESP32FS.java:387-394 | an entry counts when it is a file or a folder and its name does not start with a dot (definition; VisibleCountZero) |
| Pipeline.FileCount | src/ESP32FS.java:382-394 | the number of visible entries of the data folder, 0 when it is not a folder (definition; CountDataFiles and VisibleCountZero) |
| Pipeline.Image | src/ESP32FS.java:399 | the image path of the sketch for this filesystem (definition; ImagePath and UploadUsesLayout) |
| Pipeline.EmptyDataNeedsConsent | src/ESP32FS.java:406-410 | with no visible data and no consent the run ends at its first failed check or as canceled: nothing is built or uploaded |
| Pipeline.UploadUsesLayout | src/ESP32FS.java:396-433 | the build uses the builder found, the data folder and the resolved region size |
| Pipeline.UploadFollowsPort | src/ESP32FS.java:344-470 | an address goes to espota with that address; any other port goes to esptool with the region start |
| Pipeline.EraseNeedsConsent | src/ESP32FS.java:540-553 | erasing needs the user's yes, and never runs over an address |
| Pipeline.EraseOnSerialPort | src/ESP32FS.java:512-560 | a confirmed serial erase runs erase_flash with the esptool found, on that port |
| Pipeline.EraseIgnoresSketch | src/ESP32FS.java:475-562 | the erase does not depend on the sketch folder, the partition tables or the data folder |
| Pipeline.Plugin.constructor | src/ESP32FS.java:92 | no selection is kept initially |
| Pipeline.Plugin.Run | src/ESP32FS.java:568-589 | the selection is stored in the field; erase, an image kind, or nothing runs accordingly |

## Left out

- Process launch, output streaming and threads are not modelled. This covers `listenOnProcess`, `StreamGobbler` and the `sysExec` thread. The build's exit code is an input, and the upload and erase end at the command line handed over. `listenOnProcess` returns -1 on an exception, which the model covers as a non-zero exit.
- Dialogs are inputs in the model. This covers the filesystem choice, the empty-image question and the erase confirmation.
- Status messages and console output are not modelled.
- `getBuildFolderPath` is an input string. It tries several IDE versions by reflection.
- Files are modelled as two sets of path strings, one for files and one for folders. Path normalisation and `getAbsolutePath` are not modelled, and a relative path is not resolved against the working directory.
- The lines of each readable file are given in the model. Splitting a file into lines (`readLine`) is not modelled, and neither are I/O errors part-way through a file.
- `mkdirs` for a missing data folder is not modelled: a missing data folder counts as empty. A folder that cannot be listed (`listFiles` gives null) is also not modelled.
- The IDE always defines `target_platform` and `runtime.os`, and the code reads them without a null check, so both runs require them.
- DecodeLong: only ASCII digits are accepted, whereas `Character.digit` also accepts other Unicode digits.
- ParseSize: the products `1024*v` and `1024*1024*v` do not wrap around at 64 bits. The lemmas about scaled literals are therefore stated only for products that fit in a long.
- ScanPartitions: the cursor sums `spiPrevEnd + parseInt(...)` and `parseInt(...) + parseInt(...)` do not wrap around at 64 bits.
- PartitionScan.MatchStep: the region of the matching line, `spiPrevEnd + spiOffset`, `parseInt(pStart) + spiOffset` and `parseInt(pSize) - spiOffset`, is computed on unbounded integers and does not wrap around at 64 bits. The same holds for MatchingLineFound, MatchingRowFound and MatchingRowDecides, which state that region. A FatFS start of `9223372036854775807` gives `MaxLong + 4096` in the model where Java wraps to `MinLong + 4095`.
- JavaText.ToLower: only ASCII letters are lowered, as `toLowerCase()` does under a default locale that lowers `I` to `i`. Under a Turkish or Azerbaijani default locale `"SPIFFS".toLowerCase()` gives a dotless `ı`, and the image and tool names would differ; the model assumes the other locales.
- The `typefs == "..."` tests compare string identity. They are modelled as an enumeration, which holds because the dialog returns one of its own option strings.
- Partition tables are described by `Row` values and their lines, not by literal table texts.
- `getChip` and board names appear only in log output, apart from `build.mcu`, which is modelled in the command lines.
