/** Where the plugin finds the programs it runs: the per-OS and
    per-filesystem executable names, and the ordered searches that take the
    first candidate location holding the tool. */
module Tools {

  import opened Wrappers
  import opened JavaText
  import opened Filesystem

  /** What the plugin can observe of the disk: the paths that name regular
      files and the paths that name directories. */
  datatype Disk = Disk(files: set<string>, dirs: set<string>)

  /** `new File(p).exists()` */
  predicate Exists(d: Disk, p: string) {
    p in d.files || p in d.dirs
  }

  /** `new File(p).isFile()` */
  predicate IsFile(d: Disk, p: string) {
    p in d.files
  }

  /** `new File(parent, child)`: the child joined under its parent */
  function Child(parent: string, child: string): string {
    parent + "/" + child
  }

  /** `new File(PreferencesData.get(key), child)`: a missing preference gives
      a null parent, and then the child alone is the path. */
  function PrefChild(prefs: map<string, string>, key: string, child: string): string {
    if key in prefs then Child(prefs[key], child) else child
  }

  /** The tools folder of the installed ESP32 platform */
  function ToolsDir(platform: string): string {
    platform + "/tools"
  }

  /* ---------------- Names ---------------- */

  predicate IsWindows(os: string) {
    os == "windows"
  }

  /** The esptool extension of an upload: .exe on Windows, .py elsewhere */
  function UploadExtension(os: string): (r: string)
    ensures EndsWith(r, ".py") <==> !IsWindows(os)
  {
    if IsWindows(os) then ".exe" else ".py"
  }

  /** The esptool extension of an erase: .exe on Windows, none on macOS, .py
      elsewhere */
  function EraseExtension(os: string): (r: string)
    ensures EndsWith(r, ".py") <==> !IsWindows(os) && os != "macosx"
  {
    if IsWindows(os) then ".exe" else if os == "macosx" then "" else ".py"
  }

  /** The interpreter put in front of a .py tool when uploading */
  function UploadPython(os: string): (r: string)
    ensures EndsWith(r, ".exe") <==> IsWindows(os)
  {
    if IsWindows(os) then "python.exe" else "python3"
  }

  /** The interpreter put in front of a .py tool when erasing */
  function ErasePython(os: string): (r: string)
    ensures EndsWith(r, ".exe") <==> IsWindows(os)
  {
    if IsWindows(os) then "python.exe" else "python"
  }

  /** The image builder's file name, spelled out per OS and filesystem */
  function MkToolName(os: string, k: FsKind): (r: string)
    ensures StartsWith(r, "mk")
    ensures EndsWith(r, ".exe") <==> IsWindows(os)
  {
    if IsWindows(os) then
      (if k == LittleFS then "mklittlefs.exe" else if k == FatFS then "mkfatfs.exe" else "mkspiffs.exe")
    else
      (if k == LittleFS then "mklittlefs" else if k == FatFS then "mkfatfs" else "mkspiffs")
  }

  /** The spelled-out builder names follow one rule: "mk", the lower-cased
      filesystem name (the same text names the builder's own folder and
      preference), then .exe on Windows. */
  lemma {:induction false} MkToolNameRule(os: string, k: FsKind)
    ensures MkToolName(os, k) == "mk" + ToLower(Label(k)) + (if IsWindows(os) then ".exe" else "")
  {
    var lower := LowerLabel(k);
    assert lower == ToLower(Label(k));
    match k
    case LittleFS => assert lower == "littlefs";
    case SPIFFS => assert lower == "spiffs";
    case FatFS => assert lower == "fatfs";
  }

  /** The OTA uploader's file name */
  function EspotaName(os: string): (r: string)
    ensures EndsWith(r, ".py") <==> !IsWindows(os)
  {
    if IsWindows(os) then "espota.exe" else "espota.py"
  }

  /* ---------------- First-hit search ---------------- */

  /** One candidate location, and whether the code asks `isFile()` there
      on top of `exists()` */
  datatype Probe = Probe(path: string, needFile: bool)

  predicate Passes(d: Disk, p: Probe) {
    Exists(d, p.path) && (!p.needFile || IsFile(d, p.path))
  }

  /** i is the first candidate that passes */
  predicate FirstPassing(d: Disk, probes: seq<Probe>, i: int) {
    0 <= i < |probes| && Passes(d, probes[i]) && forall j :: 0 <= j < i ==> !Passes(d, probes[j])
  }

  /** The path of the first candidate that passes, if any */
  function Resolve(d: Disk, probes: seq<Probe>): (r: Option<string>)
    ensures r.None? <==> forall j :: 0 <= j < |probes| ==> !Passes(d, probes[j])
    ensures r.Some? ==> exists i :: FirstPassing(d, probes, i) && r.value == probes[i].path
    decreases |probes|
  {
    if probes == [] then None
    else if Passes(d, probes[0]) then Some(probes[0].path)
    else
      var r := Resolve(d, probes[1..]);
      assert forall j :: 1 <= j < |probes| ==> probes[j] == probes[1..][j - 1];
      if r.Some? then
        var i :| FirstPassing(d, probes[1..], i) && r.value == probes[1..][i].path;
        assert FirstPassing(d, probes, i + 1);
        r
      else r
  }

  /** A candidate that passes is never passed over for a later one. */
  lemma {:induction false} ResolveFirst(d: Disk, probes: seq<Probe>, i: int)
    requires 0 <= i < |probes| && Passes(d, probes[i])
    ensures exists j :: 0 <= j <= i && FirstPassing(d, probes, j) && Resolve(d, probes) == Some(probes[j].path)
  {
    assert Resolve(d, probes).Some?;
    var j :| FirstPassing(d, probes, j) && Resolve(d, probes).value == probes[j].path;
  }

  /** The search, seen from candidate i on, after every earlier one failed */
  lemma {:induction false} ResolveFrom(d: Disk, probes: seq<Probe>, i: int)
    requires 0 <= i < |probes|
    ensures Resolve(d, probes[i..]) ==
      if Passes(d, probes[i]) then Some(probes[i].path) else Resolve(d, probes[i + 1..])
  {
    assert probes[i..][0] == probes[i] && probes[i..][1..] == probes[i + 1..];
  }

  /* ---------------- The three searches ---------------- */

  /** The image builder: in tools/ as a regular file, then in tools/mk<kind>/
      and under the runtime.tools.mk<kind>.path preference, where it only has
      to exist. */
  function MkToolProbes(platform: string, prefs: map<string, string>, os: string, k: FsKind): seq<Probe> {
    var cmd := MkToolName(os, k);
    [ Probe(Child(ToolsDir(platform), cmd), true),
      Probe(Child(ToolsDir(platform) + "/mk" + LowerLabel(k), cmd), false),
      Probe(PrefChild(prefs, "runtime.tools.mk" + LowerLabel(k) + ".path", cmd), false) ]
  }

  /** The OTA uploader: the OS's own name in tools/, then espota.py there */
  function EspotaProbes(platform: string, os: string): seq<Probe> {
    [ Probe(Child(ToolsDir(platform), EspotaName(os)), true),
      Probe(Child(ToolsDir(platform), "espota.py"), true) ]
  }

  /** The serial flasher: five places, each a regular file */
  function EsptoolProbes(platform: string, prefs: map<string, string>, cmd: string): seq<Probe> {
    [ Probe(Child(ToolsDir(platform), cmd), true),
      Probe(Child(ToolsDir(platform) + "/esptool_py", cmd), true),
      Probe(Child(ToolsDir(platform) + "/esptool", cmd), true),
      Probe(PrefChild(prefs, "runtime.tools.esptool_py.path", cmd), true),
      Probe(PrefChild(prefs, "runtime.tools.esptool.path", cmd), true) ]
  }

  /** The nested `if (!tool.exists() || !tool.isFile())` chain for the image
      builder. */
  method FindMkTool(d: Disk, platform: string, prefs: map<string, string>, os: string, k: FsKind)
    returns (tool: Option<string>)
    ensures tool == Resolve(d, MkToolProbes(platform, prefs, os, k))
  {
    ghost var probes := MkToolProbes(platform, prefs, os, k);
    ResolveFrom(d, probes, 0);
    ResolveFrom(d, probes, 1);
    ResolveFrom(d, probes, 2);
    assert probes[0..] == probes && probes[3..] == [];
    var cmd := MkToolName(os, k);
    var path := Child(ToolsDir(platform), cmd);
    if !Exists(d, path) || !IsFile(d, path) {
      path := Child(ToolsDir(platform) + "/mk" + LowerLabel(k), cmd);
      if !Exists(d, path) {
        path := PrefChild(prefs, "runtime.tools.mk" + LowerLabel(k) + ".path", cmd);
        if !Exists(d, path) {
          return None;
        }
      }
    }
    return Some(path);
  }

  /** The espota lookup with its fall-back to espota.py. */
  method FindEspota(d: Disk, platform: string, os: string) returns (espota: Option<string>)
    ensures espota == Resolve(d, EspotaProbes(platform, os))
  {
    ghost var probes := EspotaProbes(platform, os);
    ResolveFrom(d, probes, 0);
    ResolveFrom(d, probes, 1);
    assert probes[0..] == probes && probes[2..] == [];
    var path := Child(ToolsDir(platform), EspotaName(os));
    if !Exists(d, path) || !IsFile(d, path) {
      path := Child(ToolsDir(platform), "espota.py");
      if !Exists(d, path) || !IsFile(d, path) {
        return None;
      }
    }
    return Some(path);
  }

  /** The five-step esptool lookup shared by upload and erase. */
  method FindEsptool(d: Disk, platform: string, prefs: map<string, string>, cmd: string)
    returns (esptool: Option<string>)
    ensures esptool == Resolve(d, EsptoolProbes(platform, prefs, cmd))
  {
    ghost var probes := EsptoolProbes(platform, prefs, cmd);
    ResolveFrom(d, probes, 0);
    ResolveFrom(d, probes, 1);
    ResolveFrom(d, probes, 2);
    ResolveFrom(d, probes, 3);
    ResolveFrom(d, probes, 4);
    assert probes[0..] == probes && probes[5..] == [];
    var path := Child(ToolsDir(platform), cmd);
    if !Exists(d, path) || !IsFile(d, path) {
      path := Child(ToolsDir(platform) + "/esptool_py", cmd);
      if !Exists(d, path) || !IsFile(d, path) {
        path := Child(ToolsDir(platform) + "/esptool", cmd);
        if !Exists(d, path) || !IsFile(d, path) {
          path := PrefChild(prefs, "runtime.tools.esptool_py.path", cmd);
          if !Exists(d, path) || !IsFile(d, path) {
            path := PrefChild(prefs, "runtime.tools.esptool.path", cmd);
            if !Exists(d, path) || !IsFile(d, path) {
              return None;
            }
          }
        }
      }
    }
    return Some(path);
  }

  /* ---------------- What the searches promise ---------------- */

  /** A builder in tools/ that is a regular file always wins. */
  lemma {:induction false} MkToolInToolsWins(d: Disk, platform: string, prefs: map<string, string>, os: string, k: FsKind)
    requires Child(ToolsDir(platform), MkToolName(os, k)) in d.files
    ensures Resolve(d, MkToolProbes(platform, prefs, os, k)) == Some(Child(ToolsDir(platform), MkToolName(os, k)))
  {
    ResolveFrom(d, MkToolProbes(platform, prefs, os, k), 0);
    assert MkToolProbes(platform, prefs, os, k)[0..] == MkToolProbes(platform, prefs, os, k);
  }

  /** In tools/mk<kind>/ and under the preference the builder only has to
      exist: a directory of that name is taken as the tool. */
  lemma {:induction false} MkToolDirectoryAccepted(d: Disk, platform: string, prefs: map<string, string>, os: string, k: FsKind)
    requires Child(ToolsDir(platform), MkToolName(os, k)) !in d.files
    requires Child(ToolsDir(platform) + "/mk" + LowerLabel(k), MkToolName(os, k)) in d.dirs
    ensures Resolve(d, MkToolProbes(platform, prefs, os, k)) ==
      Some(Child(ToolsDir(platform) + "/mk" + LowerLabel(k), MkToolName(os, k)))
  {
    var probes := MkToolProbes(platform, prefs, os, k);
    ResolveFrom(d, probes, 0);
    ResolveFrom(d, probes, 1);
    assert probes[0..] == probes;
  }

  /** Without the preference the last candidate is the bare file name. */
  lemma {:induction false} MkToolPreferenceMissing(platform: string, prefs: map<string, string>, os: string, k: FsKind)
    requires "runtime.tools.mk" + LowerLabel(k) + ".path" !in prefs
    ensures MkToolProbes(platform, prefs, os, k)[2].path == MkToolName(os, k)
  {
  }

  /** On Windows a missing espota.exe falls back to espota.py. */
  lemma {:induction false} EspotaFallsBackToScript(d: Disk, platform: string)
    requires Child(ToolsDir(platform), "espota.exe") !in d.files
    requires Child(ToolsDir(platform), "espota.py") in d.files
    ensures Resolve(d, EspotaProbes(platform, "windows")) == Some(Child(ToolsDir(platform), "espota.py"))
    ensures EndsWith(Resolve(d, EspotaProbes(platform, "windows")).value, ".py")
  {
    var probes := EspotaProbes(platform, "windows");
    ResolveFrom(d, probes, 0);
    ResolveFrom(d, probes, 1);
    assert probes[0..] == probes;
    var p := Child(ToolsDir(platform), "espota.py");
    assert p[|p| - 3..] == ".py";
  }

  /** esptool is found exactly when one of its five locations holds it as a
      regular file. */
  lemma {:induction false} EsptoolFoundIff(d: Disk, platform: string, prefs: map<string, string>, cmd: string)
    ensures Resolve(d, EsptoolProbes(platform, prefs, cmd)).Some? <==>
      exists j :: 0 <= j < 5 && EsptoolProbes(platform, prefs, cmd)[j].path in d.files
  {
    var probes := EsptoolProbes(platform, prefs, cmd);
    assert forall j :: 0 <= j < 5 ==> (Passes(d, probes[j]) <==> probes[j].path in d.files);
  }
}
