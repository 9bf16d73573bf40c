/**
 * The toolchain tables of the Android NDK and the prefix dispatch that maps an ABI
 * name (for example "arm64-v8a" or "x86_64") to a toolchain family.
 */
module Toolchains {
  import opened Wrappers
  import opened Text

  const NDK_ARCHITECTURES: seq<string> := ["arm64-v8a", "armeabi", "armeabi-v7a", "mips", "mips64", "x86", "x86_64"]

  /** Toolchain names per family, most preferred first. */
  const ARM_TOOLCHAIN: seq<string> := ["arm-linux-androideabi-4.9", "arm-linux-androideabi-4.8", "arm-linux-androideabi-4.7",
    "arm-linux-androideabi-4.6", "arm-linux-androideabi-4.4.3", "arm-linux-androidabi-clang3.5", "arm-linux-androidabi-clang3.6"]
  const ARM_64_TOOLCHAIN: seq<string> := ["aarch64-linux-android-4.9", "aarch64-linux-android-clang3.5", "aarch64-linux-android-clang3.6"]
  const X86_TOOLCHAIN: seq<string> := ["x86-4.9", "x86-4.8", "x86-4.7", "x86-4.6", "x86-4.4.3", "x86-clang3.5", "x86-clang3.6"]
  const X86_64_TOOLCHAIN: seq<string> := ["x86_64-4.9", "x86_64-clang3.5", "x86_64-clang3.6"]
  const MIPS_TOOLCHAIN: seq<string> := ["mipsel-linux-android-4.9", "mipsel-linux-android-4.8", "mipsel-linux-android-4.7",
    "mipsel-linux-android-4.6", "mipsel-linux-android-4.4.3", "mipsel-linux-android-clang3.5", "mipsel-linux-android-clang3.6"]
  /** Declared by the NDK model but consulted by no lookup: "mips64" resolves through MIPS_TOOLCHAIN. */
  const MIPS_64_TOOLCHAIN: seq<string> := ["mips64el-linux-android-4.9", "mips64el-linux-android-clang3.5", "mips64el-linux-android-clang3.6"]

  /** A `String.format` pattern with a single `%s`, kept as the text before and after it. */
  datatype Pattern = Pattern(before: string, after: string) {
    function Format(name: string): string {
      before + name + after
    }
  }

  /** "toolchains/%s/prebuilt/gdbserver", then "prebuilt/%s/gdbserver/gdbserver". */
  const GDB_SERVER_LOCATIONS: seq<Pattern> := [Pattern("toolchains/", "/prebuilt/gdbserver"), Pattern("prebuilt/", "/gdbserver/gdbserver")]

  /** "toolchains/%s" */
  const TOOLCHAIN_LOCATION: Pattern := Pattern("toolchains/", "")

  datatype Family = Arm64 | Arm | X86_64 | X86 | Mips

  /**
   * The family an ABI name belongs to, tested by prefix in the order "arm64-v8a", "arm",
   * "x86_64", "x86", "mips". Because "arm" is a prefix of "arm64-v8a" and "x86" of
   * "x86_64", the 64-bit names are tested first; the ensures clauses say that each family
   * is chosen exactly by its own prefix, independently of that order.
   */
  function FamilyOf(arch: string): (r: Option<Family>)
    ensures r == Some(Arm64) <==> StartsWith(arch, "arm64-v8a")
    ensures r == Some(Arm) <==> StartsWith(arch, "arm") && !StartsWith(arch, "arm64-v8a")
    ensures r == Some(X86_64) <==> StartsWith(arch, "x86_64")
    ensures r == Some(X86) <==> StartsWith(arch, "x86") && !StartsWith(arch, "x86_64")
    ensures r == Some(Mips) <==> StartsWith(arch, "mips")
    ensures r == None <==> !StartsWith(arch, "arm") && !StartsWith(arch, "x86") && !StartsWith(arch, "mips")
  {
    if StartsWith(arch, "arm64-v8a") then
      StartsWithPrefixOfPrefix(arch, "arm64-v8a", "arm");
      PrefixesExclusive(arch, "arm64-v8a", "x86_64");
      Some(Arm64)
    else if StartsWith(arch, "arm") then
      PrefixesExclusive(arch, "arm", "x86_64");
      Some(Arm)
    else if StartsWith(arch, "x86_64") then
      StartsWithPrefixOfPrefix(arch, "x86_64", "x86");
      Some(X86_64)
    else if StartsWith(arch, "x86") then Some(X86)
    else if StartsWith(arch, "mips") then Some(Mips)
    else None
  }

  /** The candidate list searched for a family when no mapping is configured. */
  function ToolchainCandidates(f: Family): seq<string> {
    match f
    case Arm64 => ARM_64_TOOLCHAIN
    case Arm => ARM_TOOLCHAIN
    case X86_64 => X86_64_TOOLCHAIN
    case X86 => X86_TOOLCHAIN
    case Mips => MIPS_TOOLCHAIN
  }

  /** The prebuilt folder name probed first for the gdbserver binary. */
  function GdbServerTag(f: Family): string {
    match f
    case Arm64 => "android-arm64"
    case Arm => "android-arm"
    case X86_64 => "android-x86_64"
    case X86 => "android-x86"
    case Mips => "android-mips"
  }

  /** The toolchain names probed after the tag; the x86_64 family probes the 32-bit x86 list. */
  function GdbServerToolchains(f: Family): seq<string> {
    match f
    case Arm64 => ARM_64_TOOLCHAIN
    case Arm => ARM_TOOLCHAIN
    case X86_64 => X86_TOOLCHAIN
    case X86 => X86_TOOLCHAIN
    case Mips => MIPS_TOOLCHAIN
  }

  /** Every ABI the plugin knows belongs to a family; both MIPS ABIs share the 32-bit family. */
  lemma KnownArchitecturesHaveFamilies()
    ensures FamilyOf("arm64-v8a") == Some(Arm64)
    ensures FamilyOf("armeabi") == Some(Arm) && FamilyOf("armeabi-v7a") == Some(Arm)
    ensures FamilyOf("x86_64") == Some(X86_64) && FamilyOf("x86") == Some(X86)
    ensures FamilyOf("mips") == Some(Mips) && FamilyOf("mips64") == Some(Mips)
  {
    assert StartsWith("arm64-v8a", "arm64-v8a");
    assert !StartsWith("armeabi", "arm64-v8a") && StartsWith("armeabi", "arm");
    assert "armeabi-v7a"[..9][3] != "arm64-v8a"[3];
    assert !StartsWith("armeabi-v7a", "arm64-v8a") && StartsWith("armeabi-v7a", "arm");
    assert StartsWith("x86_64", "x86_64");
    assert !StartsWith("x86", "x86_64") && StartsWith("x86", "x86");
    assert StartsWith("mips", "mips") && StartsWith("mips64", "mips");
  }

  /** The 64-bit lists share no name with their 32-bit namesakes. */
  lemma SixtyFourBitListsDisjoint()
    ensures forall t :: t in ARM_64_TOOLCHAIN ==> t !in ARM_TOOLCHAIN
    ensures forall t :: t in X86_64_TOOLCHAIN ==> t !in X86_TOOLCHAIN
  {
  }
}
