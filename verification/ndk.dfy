/**
 * An Android NDK installation: checking its root, resolving the toolchain for an ABI
 * and locating the gdbserver binary. The installation is seen through a `FileSystem`
 * snapshot, so every lookup is a search over ordered candidate lists.
 */
module Ndk {
  import opened Wrappers
  import opened Text
  import opened Files
  import opened Toolchains
  import opened Configuration

  const PROPER_NDK_HOME_DIRECTORY_MESSAGE: string :=
    "Please provide a proper Android NDK directory path as configuration parameter <ndk><path>...</path></ndk>"
    + " in the plugin <configuration/>. As an alternative, you may add the parameter to commandline: -Dandroid.ndk.path=... or set environment  variable "
    + "ANDROID_NDK_HOME" + "."

  /** The failures of this component; `Message` is the text of the exception thrown. */
  datatype NdkError =
    | NdkPathMissing
    | NdkPathNotDirectory(path: Path)
    | ToolchainDirectoryMissing(directory: Path)
    | ToolchainDirectoryUnreadable(directory: Path)
    | NoValidToolchain(ndkPath: Path)
    | NoToolchainForArchitecture(architecture: string)
    | NoGdbServer(architecture: string)
  {
    function Message(): string {
      match this
      case NdkPathMissing => PROPER_NDK_HOME_DIRECTORY_MESSAGE
      case NdkPathNotDirectory(p) => "Path \"" + p + "\" is not a directory. " + PROPER_NDK_HOME_DIRECTORY_MESSAGE
      case ToolchainDirectoryMissing(d) => "Toolchain directory " + d + " does not exist"
      case ToolchainDirectoryUnreadable(d) => "Toolchain directory " + d + " exist but can not be read"
      case NoValidToolchain(p) => "No valid toolchain could be found in the " + p + "/toolchains directory"
      case NoToolchainForArchitecture(a) => "Toolchain for architecture " + a + " does not exist, please double check the setup"
      case NoGdbServer(a) => "gdbserver binary for architecture " + a + " does not exist, please double check the toolchain and OS used"
    }
  }

  /** An NDK whose root has been checked to be a directory. */
  datatype AndroidNdk = AndroidNdk(ndkPath: Path)

  /** The constructor: a missing (null) root and a root that is not a directory are both rejected. */
  function NewAndroidNdk(path: Option<Path>, fs: FileSystem): (r: Result<AndroidNdk, NdkError>)
    ensures r.Ok? <==> path.Some? && path.value in fs.directories
    ensures r.Ok? ==> r.value.ndkPath == path.value
    ensures path.None? ==> r == Err(NdkPathMissing)
    ensures path.Some? && path.value !in fs.directories ==> r == Err(NdkPathNotDirectory(path.value))
  {
    match path
    case None => Err(NdkPathMissing)
    case Some(p) => if p !in fs.directories then Err(NdkPathNotDirectory(p)) else Ok(AndroidNdk(p))
  }

  /** The ndk-build script inside the root: "ndk-build.cmd" on Windows, "ndk-build" elsewhere. */
  function NdkBuildPath(ndk: AndroidNdk, isWindows: bool): (r: Path)
    ensures StartsWith(r, ndk.ndkPath + "/")
    ensures EndsWith(r, "/ndk-build.cmd") <==> isWindows
    ensures EndsWith(r, "/ndk-build") <==> !isWindows
  {
    if isWindows then
      ScriptPathShape(ndk.ndkPath, "ndk-build.cmd");
      ScriptNamesDistinct(ChildPath(ndk.ndkPath, "ndk-build.cmd"));
      ChildPath(ndk.ndkPath, "ndk-build.cmd")
    else
      ScriptPathShape(ndk.ndkPath, "ndk-build");
      ScriptNamesDistinct(ChildPath(ndk.ndkPath, "ndk-build"));
      ChildPath(ndk.ndkPath, "ndk-build")
  }

  lemma ScriptPathShape(root: Path, name: string)
    ensures StartsWith(ChildPath(root, name), root + "/")
    ensures EndsWith(ChildPath(root, name), "/" + name)
  {
    StartsWithConcat(root + "/", name);
    assert ChildPath(root, name) == root + ("/" + name);
    EndsWithConcat(root, "/" + name);
  }

  /** No path ends with both script names. */
  lemma ScriptNamesDistinct(r: Path)
    ensures !(EndsWith(r, "/ndk-build.cmd") && EndsWith(r, "/ndk-build"))
  {
    assert "/ndk-build.cmd"[4..][0] != "/ndk-build"[0];
    EndsWithDisagree(r, "/ndk-build.cmd", "/ndk-build");
  }

  function ToolchainDirectory(ndk: AndroidNdk, toolchain: string): Path {
    ChildPath(ndk.ndkPath, TOOLCHAIN_LOCATION.Format(toolchain))
  }

  /** A toolchain directory passes when it exists and can be read; absence is reported first. */
  function ValidateToolchainDirectory(fs: FileSystem, directory: Path): (r: Outcome<NdkError>)
    ensures r == Pass <==> directory in fs.existing && directory in fs.readable
    ensures directory !in fs.existing ==> r == Fail(ToolchainDirectoryMissing(directory))
    ensures directory in fs.existing && directory !in fs.readable ==> r == Fail(ToolchainDirectoryUnreadable(directory))
  {
    if directory !in fs.existing then Fail(ToolchainDirectoryMissing(directory))
    else if directory !in fs.readable then Fail(ToolchainDirectoryUnreadable(directory))
    else Pass
  }

  /** `toolchains[i]` is the first candidate whose directory exists. */
  predicate FirstExisting(fs: FileSystem, ndk: AndroidNdk, toolchains: seq<string>, i: int) {
    0 <= i < |toolchains|
    && ToolchainDirectory(ndk, toolchains[i]) in fs.existing
    && forall j :: 0 <= j < i ==> ToolchainDirectory(ndk, toolchains[j]) !in fs.existing
  }

  /** What the search over `toolchains` answers: the first existing directory decides, readable or not. */
  function SearchToolchains(fs: FileSystem, ndk: AndroidNdk, toolchains: seq<string>): Result<string, NdkError> {
    if toolchains == [] then Err(NoValidToolchain(ndk.ndkPath))
    else if ToolchainDirectory(ndk, toolchains[0]) in fs.existing then
      match ValidateToolchainDirectory(fs, ToolchainDirectory(ndk, toolchains[0]))
      case Pass => Ok(toolchains[0])
      case Fail(e) => Err(e)
    else SearchToolchains(fs, ndk, toolchains[1..])
  }

  /**
   * The first existing candidate decides the search: it is returned when readable, and
   * when it is not the search fails without trying the later candidates.
   */
  lemma {:induction false} SearchToolchainsFirstExisting(fs: FileSystem, ndk: AndroidNdk, toolchains: seq<string>, i: int)
    requires FirstExisting(fs, ndk, toolchains, i)
    ensures SearchToolchains(fs, ndk, toolchains) ==
      if ToolchainDirectory(ndk, toolchains[i]) in fs.readable then Ok(toolchains[i])
      else Err(ToolchainDirectoryUnreadable(ToolchainDirectory(ndk, toolchains[i])))
  {
    if i > 0 {
      assert ToolchainDirectory(ndk, toolchains[0]) !in fs.existing;
      assert FirstExisting(fs, ndk, toolchains[1..], i - 1) by {
        forall j | 0 <= j < i - 1 ensures ToolchainDirectory(ndk, toolchains[1..][j]) !in fs.existing {
          assert toolchains[1..][j] == toolchains[j + 1];
        }
      }
      SearchToolchainsFirstExisting(fs, ndk, toolchains[1..], i - 1);
    }
  }

  /** When no candidate directory exists the search fails naming the NDK root. */
  lemma {:induction false} SearchToolchainsNoneExisting(fs: FileSystem, ndk: AndroidNdk, toolchains: seq<string>)
    requires forall j :: 0 <= j < |toolchains| ==> ToolchainDirectory(ndk, toolchains[j]) !in fs.existing
    ensures SearchToolchains(fs, ndk, toolchains) == Err(NoValidToolchain(ndk.ndkPath))
  {
    if toolchains != [] {
      assert ToolchainDirectory(ndk, toolchains[0]) !in fs.existing;
      SearchToolchainsNoneExisting(fs, ndk, toolchains[1..]);
    }
  }

  /** A successful search returns a candidate of the list, the first with an existing directory, which is readable. */
  lemma {:induction false} SearchToolchainsFound(fs: FileSystem, ndk: AndroidNdk, toolchains: seq<string>)
    requires SearchToolchains(fs, ndk, toolchains).Ok?
    ensures exists i ::
      (FirstExisting(fs, ndk, toolchains, i)
       && toolchains[i] == SearchToolchains(fs, ndk, toolchains).value
       && ToolchainDirectory(ndk, toolchains[i]) in fs.readable)
  {
    if ToolchainDirectory(ndk, toolchains[0]) in fs.existing {
      assert FirstExisting(fs, ndk, toolchains, 0);
    } else {
      SearchToolchainsFound(fs, ndk, toolchains[1..]);
      var i :| FirstExisting(fs, ndk, toolchains[1..], i)
        && toolchains[1..][i] == SearchToolchains(fs, ndk, toolchains[1..]).value
        && ToolchainDirectory(ndk, toolchains[1..][i]) in fs.readable;
      assert FirstExisting(fs, ndk, toolchains, i + 1) by {
        forall j | 0 <= j < i + 1 ensures ToolchainDirectory(ndk, toolchains[j]) !in fs.existing {
          if j > 0 { assert toolchains[j] == toolchains[1..][j - 1]; }
        }
      }
    }
  }

  /** `findHighestSupportedToolchain`: an early-return scan of the candidates in array order. */
  method FindHighestSupportedToolchain(ndk: AndroidNdk, fs: FileSystem, toolchains: seq<string>) returns (r: Result<string, NdkError>)
    ensures r == SearchToolchains(fs, ndk, toolchains)
  {
    var i := 0;
    while i < |toolchains|
      invariant 0 <= i <= |toolchains|
      invariant SearchToolchains(fs, ndk, toolchains) == SearchToolchains(fs, ndk, toolchains[i..])
    {
      var toolchainDirectory := ToolchainDirectory(ndk, toolchains[i]);
      assert toolchains[i..][1..] == toolchains[i + 1..];
      if toolchainDirectory in fs.existing {
        var valid := ValidateToolchainDirectory(fs, toolchainDirectory);
        if valid.Fail? {
          return Err(valid.error);
        }
        return Ok(toolchains[i]);
      }
      i := i + 1;
    }
    r := Err(NoValidToolchain(ndk.ndkPath));
  }

  /** The value a present mappings object gives for a family (its getter, never checked on disk). */
  function MappedToolchain(mappings: ArchitectureToolchainMappings, f: Family): string
    reads mappings
  {
    match f
    case Arm64 => mappings.GetArm64()
    case Arm => mappings.GetArmeabi()
    case X86_64 => mappings.GetX8664()
    case X86 => mappings.GetX86()
    case Mips => mappings.GetMips()
  }

  /** What `getToolchainFromArchitecture` answers for an ABI, a file system and an optional mappings object. */
  function ToolchainForArchitecture(ndk: AndroidNdk, fs: FileSystem, arch: string, mappings: ArchitectureToolchainMappings?): Result<string, NdkError>
    reads mappings
  {
    match FamilyOf(arch)
    case None => Err(NoToolchainForArchitecture(arch))
    case Some(f) =>
      if mappings != null then Ok(MappedToolchain(mappings, f))
      else SearchToolchains(fs, ndk, ToolchainCandidates(f))
  }

  method GetToolchainFromArchitecture(ndk: AndroidNdk, fs: FileSystem, arch: string, mappings: ArchitectureToolchainMappings?)
    returns (r: Result<string, NdkError>)
    ensures r == ToolchainForArchitecture(ndk, fs, arch, mappings)
  {
    if StartsWith(arch, "arm64-v8a") {
      if mappings != null {
        return Ok(mappings.GetArm64());
      }
      r := FindHighestSupportedToolchain(ndk, fs, ARM_64_TOOLCHAIN);
    } else if StartsWith(arch, "arm") {
      if mappings != null {
        return Ok(mappings.GetArmeabi());
      }
      r := FindHighestSupportedToolchain(ndk, fs, ARM_TOOLCHAIN);
    } else if StartsWith(arch, "x86_64") {
      if mappings != null {
        return Ok(mappings.GetX8664());
      }
      r := FindHighestSupportedToolchain(ndk, fs, X86_64_TOOLCHAIN);
    } else if StartsWith(arch, "x86") {
      if mappings != null {
        return Ok(mappings.GetX86());
      }
      r := FindHighestSupportedToolchain(ndk, fs, X86_TOOLCHAIN);
    } else if StartsWith(arch, "mips") {
      if mappings != null {
        return Ok(mappings.GetMips());
      }
      r := FindHighestSupportedToolchain(ndk, fs, MIPS_TOOLCHAIN);
    } else {
      r := Err(NoToolchainForArchitecture(arch));
    }
  }

  /**
   * An ABI starting with "arm64-v8a" resolves through the arm64 mapping or the 64-bit
   * ARM list, never through the 32-bit ARM list, although "arm" is a prefix of it.
   */
  lemma Arm64NeverUsesArmList(ndk: AndroidNdk, fs: FileSystem, arch: string, mappings: ArchitectureToolchainMappings?)
    requires StartsWith(arch, "arm64-v8a")
    requires ToolchainForArchitecture(ndk, fs, arch, mappings).Ok?
    ensures var t := ToolchainForArchitecture(ndk, fs, arch, mappings).value;
      if mappings != null then t == mappings.GetArm64()
      else t in ARM_64_TOOLCHAIN && t !in ARM_TOOLCHAIN
  {
    if mappings == null {
      SearchToolchainsFound(fs, ndk, ARM_64_TOOLCHAIN);
      SixtyFourBitListsDisjoint();
    }
  }

  /** Likewise an ABI starting with "x86_64" never resolves through the 32-bit x86 list. */
  lemma X86_64NeverUsesX86List(ndk: AndroidNdk, fs: FileSystem, arch: string, mappings: ArchitectureToolchainMappings?)
    requires StartsWith(arch, "x86_64")
    requires ToolchainForArchitecture(ndk, fs, arch, mappings).Ok?
    ensures var t := ToolchainForArchitecture(ndk, fs, arch, mappings).value;
      if mappings != null then t == mappings.GetX8664()
      else t in X86_64_TOOLCHAIN && t !in X86_TOOLCHAIN
  {
    if mappings == null {
      SearchToolchainsFound(fs, ndk, X86_64_TOOLCHAIN);
      SixtyFourBitListsDisjoint();
    }
  }

  /**
   * A present mappings object answers every known family with its field, whatever the
   * file system holds: no toolchain directory is consulted.
   */
  lemma MappingIgnoresFileSystem(ndk: AndroidNdk, fs1: FileSystem, fs2: FileSystem, arch: string, mappings: ArchitectureToolchainMappings)
    requires FamilyOf(arch).Some?
    ensures ToolchainForArchitecture(ndk, fs1, arch, mappings) == ToolchainForArchitecture(ndk, fs2, arch, mappings)
      == Ok(MappedToolchain(mappings, FamilyOf(arch).value))
  {
  }

  /** Without mappings, an ABI matching none of the five prefixes fails, and so does a family with no installed toolchain. */
  lemma ResolutionFailures(ndk: AndroidNdk, fs: FileSystem, arch: string)
    ensures FamilyOf(arch).None? ==> ToolchainForArchitecture(ndk, fs, arch, null) == Err(NoToolchainForArchitecture(arch))
    ensures FamilyOf(arch).Some?
      && (forall t :: t in ToolchainCandidates(FamilyOf(arch).value) ==> ToolchainDirectory(ndk, t) !in fs.existing)
      ==> ToolchainForArchitecture(ndk, fs, arch, null) == Err(NoValidToolchain(ndk.ndkPath))
  {
    if FamilyOf(arch).Some? && (forall t :: t in ToolchainCandidates(FamilyOf(arch).value) ==> ToolchainDirectory(ndk, t) !in fs.existing) {
      SearchToolchainsNoneExisting(fs, ndk, ToolchainCandidates(FamilyOf(arch).value));
    }
  }

  /**
   * With "x86-4.6" and "x86-4.4.3" installed, an x86 ABI resolves to "x86-4.6", the
   * earlier of the two in the preference order.
   */
  lemma PreferredX86ToolchainWins(fs: FileSystem)
    requires "/ndk/toolchains/x86-4.6" in fs.existing && "/ndk/toolchains/x86-4.6" in fs.readable
    requires "/ndk/toolchains/x86-4.4.3" in fs.existing
    requires forall t :: t in X86_TOOLCHAIN[..3] ==> ToolchainDirectory(AndroidNdk("/ndk"), t) !in fs.existing
    ensures ToolchainForArchitecture(AndroidNdk("/ndk"), fs, "x86", null) == Ok("x86-4.6")
  {
    var ndk := AndroidNdk("/ndk");
    assert StartsWith("x86", "x86") && !StartsWith("x86", "x86_64");
    assert ToolchainDirectory(ndk, X86_TOOLCHAIN[3]) == "/ndk/toolchains/x86-4.6";
    assert FirstExisting(fs, ndk, X86_TOOLCHAIN, 3) by {
      forall j | 0 <= j < 3 ensures ToolchainDirectory(ndk, X86_TOOLCHAIN[j]) !in fs.existing {
        assert X86_TOOLCHAIN[j] in X86_TOOLCHAIN[..3];
      }
    }
    SearchToolchainsFirstExisting(fs, ndk, X86_TOOLCHAIN, 3);
  }

  /**
   * A mappings object on which only the x86 field was set still answers the other
   * families with their defaults, and the x86_64 default is the first 32-bit x86 toolchain.
   */
  method OneMappingSetOthersDefault(ndk: AndroidNdk, fs: FileSystem, x86Toolchain: string)
    returns (forX86: Result<string, NdkError>, forArm64: Result<string, NdkError>, forX86_64: Result<string, NdkError>)
    ensures forX86 == Ok(x86Toolchain)
    ensures forArm64 == Ok(ARM_64_TOOLCHAIN[0])
    ensures forX86_64 == Ok(X86_TOOLCHAIN[0])
  {
    KnownArchitecturesHaveFamilies();
    var mappings := new ArchitectureToolchainMappings();
    mappings.SetX86(x86Toolchain);
    forX86 := GetToolchainFromArchitecture(ndk, fs, "x86", mappings);
    forArm64 := GetToolchainFromArchitecture(ndk, fs, "arm64-v8a", mappings);
    forX86_64 := GetToolchainFromArchitecture(ndk, fs, "x86_64", mappings);
  }

  /** The folder names probed for gdbserver: the family tag, then the family's toolchains; none for an unknown ABI. */
  function GdbServerLocations(arch: string): (r: seq<string>)
    ensures FamilyOf(arch).None? <==> r == []
    ensures FamilyOf(arch).Some? ==> r[0] == GdbServerTag(FamilyOf(arch).value) && r[1..] == GdbServerToolchains(FamilyOf(arch).value)
  {
    match FamilyOf(arch)
    case None => []
    case Some(f) => [GdbServerTag(f)] + GdbServerToolchains(f)
  }

  /** An "x86_64" ABI probes the "android-x86_64" tag followed by the 32-bit x86 toolchain names. */
  lemma GdbServerX86_64ProbesX86Toolchains(arch: string)
    requires StartsWith(arch, "x86_64")
    ensures GdbServerLocations(arch) == ["android-x86_64"] + X86_TOOLCHAIN
  {
  }

  function GdbServerFile(ndk: AndroidNdk, pattern: Pattern, location: string): Path {
    ChildPath(ndk.ndkPath, pattern.Format(location))
  }

  /** Probe (p1, l1) comes before probe (p2, l2): patterns form the outer loop, locations the inner one. */
  predicate ProbedBefore(p1: int, l1: int, p2: int, l2: int) {
    p1 < p2 || (p1 == p2 && l1 < l2)
  }

  /** No probe before (p, l) found an existing file. */
  predicate ProbesMissBefore(ndk: AndroidNdk, fs: FileSystem, locations: seq<string>, p: int, l: int) {
    forall p', l' :: 0 <= p' < |GDB_SERVER_LOCATIONS| && 0 <= l' < |locations| && ProbedBefore(p', l', p, l)
      ==> GdbServerFile(ndk, GDB_SERVER_LOCATIONS[p'], locations[l']) !in fs.existing
  }

  lemma NextLocation(ndk: AndroidNdk, fs: FileSystem, locations: seq<string>, p: int, l: int)
    requires 0 <= p < |GDB_SERVER_LOCATIONS| && 0 <= l < |locations|
    requires ProbesMissBefore(ndk, fs, locations, p, l)
    requires GdbServerFile(ndk, GDB_SERVER_LOCATIONS[p], locations[l]) !in fs.existing
    ensures ProbesMissBefore(ndk, fs, locations, p, l + 1)
  {
  }

  lemma NextPattern(ndk: AndroidNdk, fs: FileSystem, locations: seq<string>, p: int)
    requires ProbesMissBefore(ndk, fs, locations, p, |locations|)
    ensures ProbesMissBefore(ndk, fs, locations, p + 1, 0)
  {
  }

  /**
   * `getGdbServer`: every location under "toolchains/%s/prebuilt/gdbserver" is probed
   * before any under "prebuilt/%s/gdbserver/gdbserver"; within a pattern the tag comes
   * first, then the toolchains in order; the first existing file is returned. When no
   * probe hits (in particular for an ABI with no family, which has no locations) it fails.
   */
  method GetGdbServer(ndk: AndroidNdk, fs: FileSystem, arch: string) returns (r: Result<Path, NdkError>)
    ensures r.Ok? ==> exists p, l ::
      (0 <= p < |GDB_SERVER_LOCATIONS| && 0 <= l < |GdbServerLocations(arch)|
       && r.value == GdbServerFile(ndk, GDB_SERVER_LOCATIONS[p], GdbServerLocations(arch)[l])
       && r.value in fs.existing
       && ProbesMissBefore(ndk, fs, GdbServerLocations(arch), p, l))
    ensures r.Err? ==>
      (r.error == NoGdbServer(arch)
       && ProbesMissBefore(ndk, fs, GdbServerLocations(arch), |GDB_SERVER_LOCATIONS|, 0))
  {
    var gdbServerLocations := GdbServerLocations(arch);

    var p := 0;
    while p < |GDB_SERVER_LOCATIONS|
      invariant 0 <= p <= |GDB_SERVER_LOCATIONS|
      invariant ProbesMissBefore(ndk, fs, gdbServerLocations, p, 0)
    {
      var l := 0;
      while l < |gdbServerLocations|
        invariant 0 <= l <= |gdbServerLocations|
        invariant ProbesMissBefore(ndk, fs, gdbServerLocations, p, l)
      {
        var gdbServerFile := GdbServerFile(ndk, GDB_SERVER_LOCATIONS[p], gdbServerLocations[l]);
        if gdbServerFile in fs.existing {
          r := Ok(gdbServerFile);
          assert 0 <= p < |GDB_SERVER_LOCATIONS| && 0 <= l < |gdbServerLocations|
            && r.value == GdbServerFile(ndk, GDB_SERVER_LOCATIONS[p], gdbServerLocations[l]);
          return;
        }
        NextLocation(ndk, fs, gdbServerLocations, p, l);
        l := l + 1;
      }
      NextPattern(ndk, fs, gdbServerLocations, p);
      p := p + 1;
    }
    r := Err(NoGdbServer(arch));
  }
}
