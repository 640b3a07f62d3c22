/** The two actions of the plugin as run sequences: "create and upload"
    (find the partition, the builder and the uploader, build the image, then
    hand the upload to the operating system) and "erase flash". Every check
    that fails ends the run; the IDE, the disk, the user's answers and the
    builder's exit code are inputs. */
module Pipeline {

  import opened Wrappers
  import opened JavaText
  import opened SizeLiteral
  import opened Filesystem
  import opened PartitionScan
  import opened Tools
  import opened Commands

  /** One entry of the data folder's listing */
  datatype Entry = Entry(name: string, isDir: bool, isFile: bool)

  /** What the plugin reads from the IDE and the disk */
  datatype Env = Env(
    prefs: map<string, string>,          // the IDE preferences
    board: map<string, string>,          // the selected board's preferences
    platform: string,                    // folder of the installed ESP32 platform
    sketchFolder: string,
    sketchName: string,
    buildFolder: string,                 // the sketch's build folder, as the IDE reports it
    disk: Disk,
    tables: map<string, seq<string>>,    // the lines of every file that can be read
    listing: seq<Entry>)                 // the data folder's entries

  /** What the user answers and what the builder returns */
  datatype Answers = Answers(createEmpty: bool, eraseAll: bool, buildExit: int)

  /** The IDE always defines the target platform and the OS; the code reads
      both without a null check. */
  predicate IdeReady(env: Env) {
    "target_platform" in env.prefs && "runtime.os" in env.prefs
  }

  /** Why a run stopped */
  datatype Abort =
    | NotSupported          // the board is not an ESP32 one
    | PartitionsNotDefined  // the board names no partition scheme
    | PartitionsNotFound    // the scheme's name is empty
    | PartitionsFileMissing // the scheme's .csv is not in the platform
    | NoLayout(e: LayoutError)
    | MkToolMissing
    | PortNotDefined
    | EspotaMissing
    | EsptoolMissing
    | CreateCanceled        // no data files and the user declined an empty image
    | CreateFailed(build: seq<string>)  // the builder, run with these arguments, returned non-zero
    | EraseCanceled

  /** How a run ends: stopped, or with the command lines it handed over.
      An upload or erase that is None could not be launched (a board setting
      it needs is missing). */
  datatype Outcome =
    | Aborted(why: Abort)
    | Uploading(build: seq<string>, upload: Option<seq<string>>)
    | Erasing(erase: Option<seq<string>>)
    | NotErasable           // an erase confirmed for a network target: nothing runs

  /** Where the image goes, and with which uploader */
  datatype Target = Ota(address: string, espota: string) | Wired(port: string, esptool: string)

  /** Everything create-and-upload has found before it builds */
  datatype Plan = Plan(region: Region, tool: string, target: Target)

  /* ---------------- The steps ---------------- */

  function Os(env: Env): string
    requires IdeReady(env)
  {
    env.prefs["runtime.os"]
  }

  predicate Supported(env: Env)
    requires IdeReady(env)
  {
    Contains(env.prefs["target_platform"], "esp32")
  }

  /** The sketch's own partitions.csv when it is a file, otherwise the
      board's scheme under the platform's tools/partitions. */
  function PartitionsFile(env: Env): (r: Result<string, Abort>)
    ensures r.Success? ==> Exists(env.disk, r.value) && IsFile(env.disk, r.value)
  {
    if "build.partitions" !in env.board then Failure(PartitionsNotDefined)
    else
      var own := Child(env.sketchFolder, "partitions.csv");
      if Exists(env.disk, own) && IsFile(env.disk, own) then Success(own)
      else if env.board["build.partitions"] == "" then Failure(PartitionsNotFound)
      else
        var scheme := Child(ToolsDir(env.platform) + "/partitions", env.board["build.partitions"] + ".csv");
        if !Exists(env.disk, scheme) || !IsFile(env.disk, scheme) then Failure(PartitionsFileMissing)
        else Success(scheme)
  }

  /** The build.partitions key is looked up before the sketch folder: without
      it the run stops even when the sketch has its own partitions.csv; with
      it that file wins over the board's scheme. */
  lemma {:induction false} PartitionsFileOrder(env: Env)
    ensures "build.partitions" !in env.board ==> PartitionsFile(env) == Failure(PartitionsNotDefined)
    ensures ("build.partitions" in env.board && IsFile(env.disk, Child(env.sketchFolder, "partitions.csv")))
      ==> PartitionsFile(env) == Success(Child(env.sketchFolder, "partitions.csv"))
    ensures ("build.partitions" in env.board && env.board["build.partitions"] == ""
             && !IsFile(env.disk, Child(env.sketchFolder, "partitions.csv")))
      ==> PartitionsFile(env) == Failure(PartitionsNotFound)
  {
  }

  /** The region the image goes to; a file that cannot be read fails like
      a table that cannot be cut. */
  function Layout(env: Env, k: FsKind): (r: Result<Region, Abort>)
    ensures r.Success? ==> r.value.size != 0
  {
    var path :- PartitionsFile(env);
    if path !in env.tables then Failure(NoLayout(TableUnreadable))
    else
      match ResolveLayout(env.tables[path], k)
      case Success(r) => Success(r)
      case Failure(e) => Failure(NoLayout(e))
  }

  function MkTool(env: Env, k: FsKind): Result<string, Abort>
    requires IdeReady(env)
  {
    match Resolve(env.disk, MkToolProbes(env.platform, env.prefs, Os(env), k))
    case None => Failure(MkToolMissing)
    case Some(p) => Success(p)
  }

  /** The serial port preference, which must be set and not empty */
  function Port(env: Env): Result<string, Abort> {
    if "serial.port" !in env.prefs || env.prefs["serial.port"] == "" then Failure(PortNotDefined)
    else Success(env.prefs["serial.port"])
  }

  /** An address goes to espota, anything else to esptool. */
  function UploadTarget(env: Env): Result<Target, Abort>
    requires IdeReady(env)
  {
    var port :- Port(env);
    if IsNetwork(port) then
      match Resolve(env.disk, EspotaProbes(env.platform, Os(env)))
      case None => Failure(EspotaMissing)
      case Some(p) => Success(Ota(port, p))
    else
      match Resolve(env.disk, EsptoolProbes(env.platform, env.prefs, "esptool" + UploadExtension(Os(env))))
      case None => Failure(EsptoolMissing)
      case Some(p) => Success(Wired(port, p))
  }

  function PlanUpload(env: Env, k: FsKind): Result<Plan, Abort>
    requires IdeReady(env)
  {
    if !Supported(env) then Failure(NotSupported)
    else
      var region :- Layout(env, k);
      var tool :- MkTool(env, k);
      var target :- UploadTarget(env);
      Success(Plan(region, tool, target))
  }

  /* ---------------- The data folder ---------------- */

  function DataPath(env: Env): string {
    Child(env.sketchFolder, "data")
  }

  /** An entry that counts as data: a file or a folder, not hidden */
  predicate Visible(e: Entry) {
    (e.isDir || e.isFile) && !StartsWith(e.name, ".")
  }

  function VisibleCount(entries: seq<Entry>): (n: nat)
    ensures n <= |entries|
    decreases |entries|
  {
    if entries == [] then 0
    else VisibleCount(entries[..|entries| - 1]) + (if Visible(entries[|entries| - 1]) then 1 else 0)
  }

  /** The count is zero exactly when no entry is visible, and never more
      than the number of entries. */
  lemma {:induction false} VisibleCountZero(entries: seq<Entry>)
    ensures VisibleCount(entries) == 0 <==> forall i :: 0 <= i < |entries| ==> !Visible(entries[i])
    decreases |entries|
  {
    if entries != [] {
      var init := entries[..|entries| - 1];
      VisibleCountZero(init);
      assert forall i :: 0 <= i < |init| ==> init[i] == entries[i];
    }
  }

  /** The counting loop over the data folder's listing. */
  method CountDataFiles(entries: seq<Entry>) returns (fileCount: nat)
    ensures fileCount == VisibleCount(entries)
  {
    fileCount := 0;
    var i := 0;
    while i < |entries|
      invariant 0 <= i <= |entries|
      invariant fileCount == VisibleCount(entries[..i])
    {
      assert entries[..i + 1][..i] == entries[..i];
      if (entries[i].isDir || entries[i].isFile) && !StartsWith(entries[i].name, ".") {
        fileCount := fileCount + 1;
      }
      i := i + 1;
    }
    assert entries[..i] == entries;
  }

  /** A data folder that is missing is created empty; a data path that is not
      a folder is not listed. */
  function FileCount(env: Env): nat {
    if DataPath(env) in env.disk.dirs then VisibleCount(env.listing) else 0
  }

  /* ---------------- The two runs ---------------- */

  function Image(env: Env, k: FsKind): string {
    ImagePath(env.buildFolder, env.sketchName, k)
  }

  function BuildCommand(env: Env, k: FsKind, plan: Plan): seq<string> {
    BuildArgs(k, plan.tool, DataPath(env), plan.region.size, Image(env, k))
  }

  function UploadCommand(env: Env, k: FsKind, plan: Plan): Option<seq<string>>
    requires IdeReady(env)
  {
    match plan.target
    case Ota(address, espota) => Some(OtaArgs(UploadPython(Os(env)), espota, address, Image(env, k)))
    case Wired(port, esptool) =>
      FlashArgs(UploadPython(Os(env)), esptool, env.board, port, plan.region.start, Image(env, k))
  }

  /** createAndUpload: the checks in order, the empty-image question, the
      build, and only after a clean build the upload. */
  function UploadRun(env: Env, k: FsKind, ans: Answers): Outcome
    requires IdeReady(env)
  {
    match PlanUpload(env, k)
    case Failure(why) => Aborted(why)
    case Success(plan) =>
      if FileCount(env) == 0 && !ans.createEmpty then Aborted(CreateCanceled)
      else Launch(env, k, plan, ans.buildExit)
  }

  /** The build, and the upload only when the builder returned 0 */
  function Launch(env: Env, k: FsKind, plan: Plan, buildExit: int): Outcome
    requires IdeReady(env)
  {
    if buildExit != 0 then Aborted(CreateFailed(BuildCommand(env, k, plan)))
    else Uploading(BuildCommand(env, k, plan), UploadCommand(env, k, plan))
  }

  /** eraseFlash: platform, port and (for a serial port) esptool, then the
      confirmation; over the network nothing is run. */
  function EraseRun(env: Env, ans: Answers): Outcome
    requires IdeReady(env)
  {
    if !Supported(env) then Aborted(NotSupported)
    else
      match Port(env)
      case Failure(why) => Aborted(why)
      case Success(port) =>
        if IsNetwork(port) then
          (if !ans.eraseAll then Aborted(EraseCanceled) else NotErasable)
        else
          match Resolve(env.disk, EsptoolProbes(env.platform, env.prefs, "esptool" + EraseExtension(Os(env))))
          case None => Aborted(EsptoolMissing)
          case Some(esptool) =>
            if !ans.eraseAll then Aborted(EraseCanceled)
            else Erasing(EraseArgs(ErasePython(Os(env)), esptool, env.board, port))
  }

  /* ---------------- The runs as statements ---------------- */

  /** The partition-file choice and the scan. */
  method FindLayout(env: Env, k: FsKind) returns (r: Result<Region, Abort>)
    ensures r == Layout(env, k)
  {
    if "build.partitions" !in env.board {
      return Failure(PartitionsNotDefined);
    }
    var partitionsFile := Child(env.sketchFolder, "partitions.csv");
    if !(Exists(env.disk, partitionsFile) && IsFile(env.disk, partitionsFile)) {
      var partitions := env.board["build.partitions"];
      if partitions == "" {
        return Failure(PartitionsNotFound);
      }
      partitionsFile := Child(ToolsDir(env.platform) + "/partitions", partitions + ".csv");
      if !Exists(env.disk, partitionsFile) || !IsFile(env.disk, partitionsFile) {
        return Failure(PartitionsFileMissing);
      }
    }
    if partitionsFile !in env.tables {
      return Failure(NoLayout(TableUnreadable));
    }
    var layout := ScanPartitions(env.tables[partitionsFile], k);
    if layout.Failure? {
      return Failure(NoLayout(layout.error));
    }
    return Success(layout.value);
  }

  /** The port check and the uploader lookup. */
  method FindTarget(env: Env) returns (r: Result<Target, Abort>)
    requires IdeReady(env)
    ensures r == UploadTarget(env)
  {
    var os := env.prefs["runtime.os"];
    if "serial.port" !in env.prefs || env.prefs["serial.port"] == "" {
      return Failure(PortNotDefined);
    }
    var serialPort := env.prefs["serial.port"];
    if IsNetwork(serialPort) {
      var espota := FindEspota(env.disk, env.platform, os);
      if espota.None? {
        return Failure(EspotaMissing);
      }
      return Success(Ota(serialPort, espota.value));
    }
    var esptool := FindEsptool(env.disk, env.platform, env.prefs, "esptool" + UploadExtension(os));
    if esptool.None? {
      return Failure(EsptoolMissing);
    }
    return Success(Wired(serialPort, esptool.value));
  }

  /** The checks of createAndUpload, in the order it makes them. */
  method PrepareUpload(env: Env, k: FsKind) returns (r: Result<Plan, Abort>)
    requires IdeReady(env)
    ensures r == PlanUpload(env, k)
  {
    var os := env.prefs["runtime.os"];
    if !Contains(env.prefs["target_platform"], "esp32") {
      return Failure(NotSupported);
    }
    var layout := FindLayout(env, k);
    if layout.Failure? {
      return Failure(layout.error);
    }
    var tool := FindMkTool(env.disk, env.platform, env.prefs, os, k);
    if tool.None? {
      return Failure(MkToolMissing);
    }
    var target := FindTarget(env);
    if target.Failure? {
      return Failure(target.error);
    }
    return Success(Plan(layout.value, tool.value, target.value));
  }

  /** createAndUpload as the statements run it. */
  method CreateAndUpload(env: Env, k: FsKind, ans: Answers) returns (o: Outcome)
    requires IdeReady(env)
    ensures o == UploadRun(env, k, ans)
  {
    var prepared := PrepareUpload(env, k);
    if prepared.Failure? {
      return Aborted(prepared.error);
    }
    var plan := prepared.value;
    var fileCount := 0;
    if DataPath(env) in env.disk.dirs {
      fileCount := CountDataFiles(env.listing);
    }
    if fileCount == 0 && !ans.createEmpty {
      return Aborted(CreateCanceled);
    }
    o := BuildAndUpload(env, k, plan, ans.buildExit);
  }

  /** The build and, after a clean build, the upload command. */
  method BuildAndUpload(env: Env, k: FsKind, plan: Plan, buildExit: int) returns (o: Outcome)
    requires IdeReady(env)
    ensures o == Launch(env, k, plan, buildExit)
  {
    var os := env.prefs["runtime.os"];
    var imagePath := ImagePath(env.buildFolder, env.sketchName, k);
    var build := BuildArgs(k, plan.tool, DataPath(env), plan.region.size, imagePath);
    if buildExit != 0 {
      return Aborted(CreateFailed(build));
    }
    var upload;
    match plan.target {
      case Ota(address, espota) =>
        upload := Some(OtaArgs(UploadPython(os), espota, address, imagePath));
      case Wired(port, esptool) =>
        upload := FlashArgs(UploadPython(os), esptool, env.board, port, plan.region.start, imagePath);
    }
    return Uploading(build, upload);
  }

  /** eraseFlash as the statements run it. */
  method EraseFlash(env: Env, ans: Answers) returns (o: Outcome)
    requires IdeReady(env)
    ensures o == EraseRun(env, ans)
  {
    var os := env.prefs["runtime.os"];
    if !Contains(env.prefs["target_platform"], "esp32") {
      return Aborted(NotSupported);
    }
    if "serial.port" !in env.prefs || env.prefs["serial.port"] == "" {
      return Aborted(PortNotDefined);
    }
    var serialPort := env.prefs["serial.port"];
    var isNetwork := IsNetwork(serialPort);
    var esptool := "";
    if !isNetwork {
      var found := FindEsptool(env.disk, env.platform, env.prefs, "esptool" + EraseExtension(os));
      if found.None? {
        return Aborted(EsptoolMissing);
      }
      esptool := found.value;
    }
    if !ans.eraseAll {
      return Aborted(EraseCanceled);
    }
    if isNetwork {
      return NotErasable;
    }
    return Erasing(EraseArgs(ErasePython(os), esptool, env.board, serialPort));
  }

  /* ---------------- What the runs promise ---------------- */

  /** The upload is handed over exactly when every check passed, the user
      has data or accepted an empty image, and the builder returned 0. */
  lemma {:induction false} UploadNeedsCleanBuild(env: Env, k: FsKind, ans: Answers)
    requires IdeReady(env)
    ensures UploadRun(env, k, ans).Uploading? <==>
      PlanUpload(env, k).Success? && (FileCount(env) > 0 || ans.createEmpty) && ans.buildExit == 0
  {
  }

  /** A failed build stops the run before any upload, after the builder
      ran with the planned arguments. */
  lemma {:induction false} FailedBuildStops(env: Env, k: FsKind, ans: Answers)
    requires IdeReady(env)
    requires PlanUpload(env, k).Success? && (FileCount(env) > 0 || ans.createEmpty)
    requires ans.buildExit != 0
    ensures UploadRun(env, k, ans) == Aborted(CreateFailed(BuildCommand(env, k, PlanUpload(env, k).value)))
  {
  }

  /** A board that is not an ESP32 stops both runs first, whatever else holds. */
  lemma {:induction false} PlatformCheckedFirst(env: Env, k: FsKind, ans: Answers)
    requires IdeReady(env)
    requires !Contains(env.prefs["target_platform"], "esp32")
    ensures UploadRun(env, k, ans) == Aborted(NotSupported)
    ensures EraseRun(env, ans) == Aborted(NotSupported)
  {
  }

  /** With no port set, the upload stops once the partition and the builder
      are found, and the erase stops once the platform is accepted. */
  lemma {:induction false} PortRequired(env: Env, k: FsKind, ans: Answers)
    requires IdeReady(env) && Supported(env)
    requires "serial.port" !in env.prefs || env.prefs["serial.port"] == ""
    ensures Layout(env, k).Success? && MkTool(env, k).Success? ==> UploadRun(env, k, ans) == Aborted(PortNotDefined)
    ensures EraseRun(env, ans) == Aborted(PortNotDefined)
  {
  }

  /** Without data files and without the user's consent nothing is built:
      the run stops at its first failed check, or else as canceled. */
  lemma {:induction false} EmptyDataNeedsConsent(env: Env, k: FsKind, ans: Answers)
    requires IdeReady(env)
    requires forall i :: 0 <= i < |env.listing| ==> !Visible(env.listing[i])
    requires !ans.createEmpty
    ensures UploadRun(env, k, ans) ==
      match PlanUpload(env, k)
      case Failure(why) => Aborted(why)
      case Success(_) => Aborted(CreateCanceled)
  {
    VisibleCountZero(env.listing);
  }

  /** The image is built from the data folder, with the builder that was
      found and the size of the region the partition table resolved. */
  lemma {:induction false} UploadUsesLayout(env: Env, k: FsKind, ans: Answers)
    requires IdeReady(env)
    requires UploadRun(env, k, ans).Uploading?
    ensures Layout(env, k).Success? && MkTool(env, k).Success?
    ensures UploadRun(env, k, ans).build ==
      BuildArgs(k, MkTool(env, k).value, DataPath(env), Layout(env, k).value.size, Image(env, k))
  {
    var plan := PlanUpload(env, k).value;
    assert UploadRun(env, k, ans) == Launch(env, k, plan, ans.buildExit);
    assert plan.region == Layout(env, k).value && plan.tool == MkTool(env, k).value;
  }

  /** An address in the port preference sends the image over the air with
      espota; any other port flashes it over the wire with esptool. */
  lemma {:induction false} UploadFollowsPort(env: Env, k: FsKind, ans: Answers)
    requires IdeReady(env)
    requires UploadRun(env, k, ans).Uploading?
    ensures "serial.port" in env.prefs
    ensures var port := env.prefs["serial.port"];
      var u := UploadRun(env, k, ans).upload;
      var r := Layout(env, k).value;
      && port != ""
      && (IsNetwork(port) ==>
            Resolve(env.disk, EspotaProbes(env.platform, Os(env))).Some?
            && u == Some(OtaArgs(UploadPython(Os(env)), Resolve(env.disk, EspotaProbes(env.platform, Os(env))).value, port, Image(env, k))))
      && (!IsNetwork(port) ==>
            var tools := EsptoolProbes(env.platform, env.prefs, "esptool" + UploadExtension(Os(env)));
            Resolve(env.disk, tools).Some?
            && u == FlashArgs(UploadPython(Os(env)), Resolve(env.disk, tools).value, env.board, port, r.start, Image(env, k)))
  {
  }

  /** Erasing needs the user's yes, and is never run over the air. */
  lemma {:induction false} EraseNeedsConsent(env: Env, ans: Answers)
    requires IdeReady(env)
    ensures EraseRun(env, ans).Erasing? || EraseRun(env, ans).NotErasable? ==> ans.eraseAll
    ensures "serial.port" in env.prefs && IsNetwork(env.prefs["serial.port"]) ==> !EraseRun(env, ans).Erasing?
  {
  }

  /** A confirmed erase on a serial port runs esptool's erase_flash on the
      board's chip and that port. */
  lemma {:induction false} EraseOnSerialPort(env: Env, ans: Answers)
    requires IdeReady(env)
    requires EraseRun(env, ans).Erasing?
    ensures "serial.port" in env.prefs && !IsNetwork(env.prefs["serial.port"])
    ensures var tools := EsptoolProbes(env.platform, env.prefs, "esptool" + EraseExtension(Os(env)));
      Resolve(env.disk, tools).Some?
      && EraseRun(env, ans).erase == EraseArgs(ErasePython(Os(env)), Resolve(env.disk, tools).value, env.board, env.prefs["serial.port"])
  {
  }

  /** The erase does not look at the partition tables or the data folder. */
  lemma {:induction false} EraseIgnoresSketch(env: Env, ans: Answers, tables: map<string, seq<string>>, listing: seq<Entry>, sketchFolder: string)
    requires IdeReady(env)
    ensures EraseRun(env.(tables := tables, listing := listing, sketchFolder := sketchFolder), ans) == EraseRun(env, ans)
  {
  }

  /* ---------------- The menu entry ---------------- */

  /** What the user picks in the dialog: an image kind, or erasing the flash */
  datatype Selection = Format(kind: FsKind) | EraseAll

  /** The tool as the IDE holds it: the last selection is kept in a field. */
  class Plugin {
    var typefs: Option<Selection>

    constructor()
      ensures typefs == None
    {
      typefs := None;
    }

    /** Stores the selection, then runs the erase or the image upload; a
        cancelled dialog runs nothing. */
    method Run(env: Env, choice: Option<Selection>, ans: Answers) returns (o: Option<Outcome>)
      requires IdeReady(env)
      modifies this
      ensures typefs == choice
      ensures choice.None? <==> o.None?
      ensures choice == Some(EraseAll) ==> o == Some(EraseRun(env, ans))
      ensures choice.Some? && choice.value.Format? ==> o == Some(UploadRun(env, choice.value.kind, ans))
    {
      typefs := choice;
      if typefs.None? {
        return None;
      }
      match typefs.value {
        case EraseAll =>
          var outcome := EraseFlash(env, ans);
          o := Some(outcome);
        case Format(k) =>
          var outcome := CreateAndUpload(env, k, ans);
          o := Some(outcome);
      }
    }
  }
}
