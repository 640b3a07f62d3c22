/** Where an image goes (an OTA address or a serial port) and the command
    lines the plugin hands to the operating system: build the image, upload
    it, erase the flash. */
module Commands {

  import opened Wrappers
  import opened JavaText
  import opened SizeLiteral
  import opened Filesystem

  /* ---------------- Destination ---------------- */

  /** `port.split("\\.").length == 4`: an IP address, reached over the air */
  predicate IsNetwork(port: string) {
    |SplitOnDot(port)| == 4
  }

  /** Dot-free parts joined with dots make an address exactly when four
      parts are left once the empty ones at the end are dropped. */
  lemma {:induction false} JoinedIsNetwork(parts: seq<string>)
    requires |parts| >= 2
    requires forall i :: 0 <= i < |parts| ==> '.' !in parts[i]
    ensures IsNetwork(JoinDots(parts)) <==> |DropTrailingEmpty(parts)| == 4
  {
    SplitOfJoin(parts);
  }

  /** Four dot-free parts, the last one not empty, are an address. */
  lemma {:induction false} DottedQuadIsNetwork(a: string, b: string, c: string, d: string)
    requires '.' !in a && '.' !in b && '.' !in c && '.' !in d && d != ""
    ensures IsNetwork(JoinDots([a, b, c, d]))
  {
    JoinedIsNetwork([a, b, c, d]);
  }

  /** split drops trailing empty pieces, so a dotted quad with one more dot
      at the end still counts as an address. */
  lemma {:induction false} TrailingDotStillNetwork(a: string, b: string, c: string, d: string)
    requires '.' !in a && '.' !in b && '.' !in c && '.' !in d && d != ""
    ensures IsNetwork(JoinDots([a, b, c, d, ""]))
  {
    var p := [a, b, c, d, ""];
    JoinedIsNetwork(p);
    assert p[..4] == [a, b, c, d];
    assert DropTrailingEmpty(p) == DropTrailingEmpty(p[..4]) == p[..4];
  }

  /** Five non-empty parts are not an address. */
  lemma {:induction false} FivePartsIsSerial(a: string, b: string, c: string, d: string, e: string)
    requires '.' !in a && '.' !in b && '.' !in c && '.' !in d && '.' !in e && e != ""
    ensures !IsNetwork(JoinDots([a, b, c, d, e]))
  {
    JoinedIsNetwork([a, b, c, d, e]);
  }

  /** Fewer than three dots can never be an address. */
  lemma {:induction false} FewDotsIsSerial(port: string)
    requires Count(port, '.') < 3
    ensures !IsNetwork(port)
  {
    SplitBound(port);
  }

  /** A port name without dots is a serial port. */
  lemma {:induction false} DotlessIsSerial(port: string)
    requires '.' !in port
    ensures !IsNetwork(port)
  {
  }

  lemma {:induction false} SerialExamples()
    ensures !IsNetwork("/dev/ttyUSB0") && !IsNetwork("COM5")
  {
    DotlessIsSerial("/dev/ttyUSB0");
    DotlessIsSerial("COM5");
  }

  /* ---------------- Command lines ---------------- */

  /** A tool whose path ends in .py is run through the interpreter; any
      other tool is run directly. */
  function WithInterpreter(python: string, tool: string, args: seq<string>): (r: seq<string>)
    ensures |r| == |args| + (if EndsWith(tool, ".py") then 2 else 1)
    ensures r[|r| - |args|..] == args && r[|r| - |args| - 1] == tool
    ensures EndsWith(tool, ".py") <==> |r| == |args| + 2
    ensures EndsWith(tool, ".py") ==> r[0] == python
  {
    if EndsWith(tool, ".py") then [python, tool] + args else [tool] + args
  }

  /** Where the image is written: `<build folder>/<sketch>.<kind>.bin` */
  function ImagePath(buildFolder: string, sketchName: string, k: FsKind): (r: string)
    ensures StartsWith(r, buildFolder + "/" + sketchName + ".")
    ensures EndsWith(r, "." + LowerLabel(k) + ".bin")
  {
    buildFolder + "/" + sketchName + "." + LowerLabel(k) + ".bin"
  }

  /** SPIFFS and LittleFS images are built with 256-byte pages and 4096-byte
      blocks */
  const Page: int := 256
  const Block: int := 4096

  /** The builder's command line: data folder, size, image; SPIFFS and
      LittleFS also get the page and block sizes. The builder is run
      directly, never through an interpreter. */
  function BuildArgs(k: FsKind, tool: string, dataPath: string, size: int, imagePath: string): seq<string> {
    if k == FatFS then [tool, "-c", dataPath, "-s", LongText(size), imagePath]
    else [tool, "-c", dataPath] + GeometryArgs(Page, Block) + ["-s", LongText(size), imagePath]
  }

  /** The page and block sizes as the builder takes them */
  function GeometryArgs(page: int, block: int): seq<string> {
    ["-p", LongText(page), "-b", LongText(block)]
  }

  /** What the builder is told: the tool comes first and the image last,
      the data folder follows -c and the size follows -s, and page and block
      are given exactly when the image is not FatFS. */
  lemma {:induction false} BuildArgsShape(k: FsKind, tool: string, dataPath: string, size: int, imagePath: string)
    ensures var a := BuildArgs(k, tool, dataPath, size, imagePath);
      && a[0] == tool && a[1] == "-c" && a[2] == dataPath
      && a[|a| - 3] == "-s" && a[|a| - 2] == LongText(size) && a[|a| - 1] == imagePath
      && (k == FatFS <==> |a| == 6)
      && (k != FatFS ==> |a| == 10 && a[3] == "-p" && a[4] == LongText(Page) && a[5] == "-b" && a[6] == LongText(Block))
  {
    if k != FatFS {
      var g := GeometryArgs(Page, Block);
      assert BuildArgs(k, tool, dataPath, size, imagePath)
        == [tool, "-c", dataPath, g[0], g[1], g[2], g[3], "-s", LongText(size), imagePath];
    }
  }

  /** The numbers on the builder's command line read back, with the
      plugin's own size parser, as the region size, 256 and 4096. */
  lemma {:induction false} BuildSizesReadBack(k: FsKind, tool: string, dataPath: string, size: int, imagePath: string)
    requires MinLong <= size <= MaxLong
    ensures var a := BuildArgs(k, tool, dataPath, size, imagePath);
      && ParseSize(a[|a| - 2]) == Some(size)
      && (k != FatFS ==> ParseSize(a[4]) == Some(256) && ParseSize(a[6]) == Some(4096))
  {
    var a := BuildArgs(k, tool, dataPath, size, imagePath);
    assert a[|a| - 2] == LongText(size);
    LongTextParses(size);
    if k != FatFS {
      assert a[3..7] == GeometryArgs(Page, Block);
      PageAndBlockParse();
    }
  }

  /** The page and block arguments read back as 256 and 4096. */
  lemma {:induction false} PageAndBlockParse()
    ensures ParseSize(LongText(Page)) == Some(256) && ParseSize(LongText(Block)) == Some(4096)
  {
    LongTextParses(Page);
    LongTextParses(Block);
  }

  /** espota's command line: address, port 3232, SPIFFS-style upload of the
      image */
  function OtaArgs(python: string, espota: string, port: string, imagePath: string): seq<string> {
    WithInterpreter(python, espota, ["-i", port, "-p", "3232", "-s", "-f", imagePath])
  }

  /** The OTA upload names the address after -i and ends with the image. */
  lemma {:induction false} OtaArgsShape(python: string, espota: string, port: string, imagePath: string)
    ensures var a := OtaArgs(python, espota, port, imagePath);
      && a[|a| - 7] == "-i" && a[|a| - 6] == port && a[|a| - 5] == "-p" && a[|a| - 4] == "3232"
      && a[|a| - 3] == "-s" && a[|a| - 2] == "-f" && a[|a| - 1] == imagePath && a[|a| - 8] == espota
      && (EndsWith(espota, ".py") ==> a[0] == python && |a| == 9)
      && (!EndsWith(espota, ".py") ==> |a| == 8)
  {
    var args := ["-i", port, "-p", "3232", "-s", "-f", imagePath];
    var a := OtaArgs(python, espota, port, imagePath);
    assert a[|a| - 7..] == args;
  }

  /** The board settings the flashing commands read; a missing one is null,
      and a null in the argument array makes the process launch throw. */
  function BoardValue(board: map<string, string>, key: string): Option<string> {
    if key in board then Some(board[key]) else None
  }

  /** esptool's write_flash command line, or None when chip, baud rate,
      flash mode or flash frequency is not set for the board. */
  function FlashArgs(python: string, esptool: string, board: map<string, string>, port: string, start: int, imagePath: string)
    : Option<seq<string>>
  {
    var chip :- BoardValue(board, "build.mcu");
    var speed :- BoardValue(board, "upload.speed");
    var mode :- BoardValue(board, "build.flash_mode");
    var freq :- BoardValue(board, "build.flash_freq");
    Some(WithInterpreter(python, esptool,
      ["--chip", chip, "--baud", speed, "--port", port, "--before", "default_reset", "--after", "hard_reset",
       "write_flash", "-z", "--flash_mode", mode, "--flash_freq", freq, "--flash_size", "detect",
       LongText(start), imagePath]))
  }

  /** The serial upload needs all four board settings. */
  lemma {:induction false} FlashArgsNeedBoard(python: string, esptool: string, board: map<string, string>, port: string, start: int, imagePath: string)
    ensures FlashArgs(python, esptool, board, port, start, imagePath).Some? <==>
      "build.mcu" in board && "upload.speed" in board && "build.flash_mode" in board && "build.flash_freq" in board
  {
  }

  /** The serial upload writes the image at the resolved start address on
      the chip and port given. */
  lemma {:induction false} FlashArgsShape(python: string, esptool: string, board: map<string, string>, port: string, start: int, imagePath: string)
    requires FlashArgs(python, esptool, board, port, start, imagePath).Some?
    ensures var a := FlashArgs(python, esptool, board, port, start, imagePath).value;
      && |a| >= 21
      && a[|a| - 1] == imagePath && a[|a| - 2] == LongText(start)
      && a[|a| - 3] == "detect" && a[|a| - 4] == "--flash_size"
      && a[|a| - 20] == "--chip" && a[|a| - 19] == board["build.mcu"]
      && a[|a| - 16] == "--port" && a[|a| - 15] == port
  {
    var a := FlashArgs(python, esptool, board, port, start, imagePath).value;
    var args := ["--chip", board["build.mcu"], "--baud", board["upload.speed"], "--port", port,
      "--before", "default_reset", "--after", "hard_reset", "write_flash", "-z",
      "--flash_mode", board["build.flash_mode"], "--flash_freq", board["build.flash_freq"],
      "--flash_size", "detect", LongText(start), imagePath];
    assert a == WithInterpreter(python, esptool, args);
    assert a[|a| - 20..] == args;
  }

  /** The board's upload speed, flash mode and flash frequency follow their
      flags, and write_flash comes after the reset options. */
  lemma {:induction false} FlashArgsFlags(python: string, esptool: string, board: map<string, string>, port: string, start: int, imagePath: string)
    requires FlashArgs(python, esptool, board, port, start, imagePath).Some?
    ensures var a := FlashArgs(python, esptool, board, port, start, imagePath).value;
      && |a| >= 21
      && a[|a| - 18] == "--baud" && a[|a| - 17] == board["upload.speed"]
      && a[|a| - 14] == "--before" && a[|a| - 13] == "default_reset"
      && a[|a| - 12] == "--after" && a[|a| - 11] == "hard_reset"
      && a[|a| - 10] == "write_flash" && a[|a| - 9] == "-z"
      && a[|a| - 8] == "--flash_mode" && a[|a| - 7] == board["build.flash_mode"]
      && a[|a| - 6] == "--flash_freq" && a[|a| - 5] == board["build.flash_freq"]
  {
    var a := FlashArgs(python, esptool, board, port, start, imagePath).value;
    var args := ["--chip", board["build.mcu"], "--baud", board["upload.speed"], "--port", port,
      "--before", "default_reset", "--after", "hard_reset", "write_flash", "-z",
      "--flash_mode", board["build.flash_mode"], "--flash_freq", board["build.flash_freq"],
      "--flash_size", "detect", LongText(start), imagePath];
    assert a == WithInterpreter(python, esptool, args);
    assert a[|a| - 20..] == args;
  }

  /** The address argument reads back as the start of the region. */
  lemma {:induction false} FlashAddressReadsBack(python: string, esptool: string, board: map<string, string>, port: string, start: int, imagePath: string)
    requires MinLong <= start <= MaxLong
    requires FlashArgs(python, esptool, board, port, start, imagePath).Some?
    ensures var a := FlashArgs(python, esptool, board, port, start, imagePath).value;
      |a| >= 2 && ParseSize(a[|a| - 2]) == Some(start)
  {
    FlashArgsShape(python, esptool, board, port, start, imagePath);
    LongTextParses(start);
  }

  /** esptool's erase_flash command line, or None when no chip is set */
  function EraseArgs(python: string, esptool: string, board: map<string, string>, port: string): Option<seq<string>> {
    var chip :- BoardValue(board, "build.mcu");
    Some(WithInterpreter(python, esptool,
      ["--chip", chip, "--port", port, "--before", "default_reset", "--after", "hard_reset", "erase_flash"]))
  }

  /** The erase command names the chip and the port and ends in erase_flash. */
  lemma {:induction false} EraseArgsShape(python: string, esptool: string, board: map<string, string>, port: string)
    ensures EraseArgs(python, esptool, board, port).Some? <==> "build.mcu" in board
    ensures EraseArgs(python, esptool, board, port).Some? ==>
      var a := EraseArgs(python, esptool, board, port).value;
      && a[|a| - 1] == "erase_flash" && a[|a| - 9] == "--chip" && a[|a| - 8] == board["build.mcu"]
      && a[|a| - 7] == "--port" && a[|a| - 6] == port
      && (EndsWith(esptool, ".py") <==> |a| == 11)
  {
    if "build.mcu" in board {
      var a := EraseArgs(python, esptool, board, port).value;
      var args := ["--chip", board["build.mcu"], "--port", port, "--before", "default_reset",
        "--after", "hard_reset", "erase_flash"];
      assert a == WithInterpreter(python, esptool, args);
      assert a[|a| - 9..] == args;
    }
  }
}
