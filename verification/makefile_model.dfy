/**
 * What the Android.mk generator produces, as functions over values: the fixed
 * preamble, one `ifeq ($(TARGET_ARCH_ABI),...)` ... `endif` stanza per native library,
 * the static/shared module-name sets and the list of include directories created
 * for header archives. The generator's collaborators (artifact resolution, jar
 * extraction, bundle unpacking, native-file listing, architecture extraction and the
 * clock) are the fields of a `Collaborators` value.
 *
 * Two definitions of the result are given: `CreateMakefile` follows the generator's own
 * loops (artifact by artifact, bundle architecture by architecture), while
 * `AllModules`/`Stanzas` first flattens the artifacts into the list of modules and then
 * renders it; `CreateMakefileText` and `CreateMakefileRegistrations` prove that they agree.
 */
module MakefileModel {
  import opened Wrappers
  import opened Text
  import opened Files

  /** Artifact type of a static native library. */
  const NATIVE_IMPLEMENTATION_ARCHIVE: string := "a"
  /** Artifact type of a shared native library. */
  const NATIVE_SYMBOL_OBJECT: string := "so"
  /** Artifact type of a native header archive. */
  const NATIVE_HEADER_ARCHIVE: string := "har"
  const APKLIB: string := "apklib"
  const AAR: string := "aar"

  const MAKEFILE_CAPTURE_FILE: string := "ANDROID_MAVEN_PLUGIN_LOCAL_C_INCLUDES_FILE"
  const MAKEFILE_HEADER: string := "# Generated by Android Maven Plugin\n"

  /** A file as the generator sees it: its (absolute) parent directory and its name. */
  datatype File = File(parent: Path, name: string)

  /** A resolved Maven artifact; a `None` classifier is Java's null. */
  datatype Artifact = Artifact(
    groupId: string, artifactId: string, version: string, scope: string,
    artifactType: string, classifier: Option<string>, file: File)

  /** The coordinates of the header archive that accompanies a native library (its type is always `har`). */
  datatype HeaderArchive = HeaderArchive(
    groupId: string, artifactId: string, version: string, scope: string, classifier: Option<string>)

  /**
   * The generator's collaborators. `resolveHeaderArchive` answers `None` where resolution
   * throws; `unjar` and `unpackBundle` answer false where extraction throws; `clock(n)`
   * is the time read when the n-th include directory (counting from 0) is named.
   */
  datatype Collaborators = Collaborators(
    extractArchitecture: (Artifact, string) -> string,
    resolveHeaderArchive: HeaderArchive -> Option<File>,
    unjar: (File, Path, string -> bool) -> bool,
    unpackBundle: Artifact -> bool,
    listNativeFiles: (Artifact, bool, string) -> seq<File>,
    clock: nat -> nat)

  /** A request to generate a makefile; the artifacts are listed in the set's iteration order. */
  datatype Request = Request(
    artifacts: seq<Artifact>, defaultNdkArchitecture: string, useHeaderArchives: bool,
    leaveTemporaryBuildArtifacts: bool, architectures: seq<string>)

  /** Everything one stanza is rendered from. */
  datatype LibraryDetails = LibraryDetails(
    artifact: Artifact, harArtifact: HeaderArchive, architecture: string,
    localModule: string, libraryPath: File, useHeaderArchives: bool)

  /** The state of a makefile response: the text so far, the include directories, the two name sets. */
  datatype Descriptor = Descriptor(
    makeFile: string, includeDirectories: seq<Path>,
    staticLibraries: set<string>, sharedLibraries: set<string>,
    leaveTemporaryBuildArtifacts: bool)

  datatype MakefileError =
    | HeaderArchiveUnresolved(artifactId: string)
    | HeaderArchiveUnpackFailed(includeDirectory: Path)
    | BundleUnpackFailed(artifactId: string)

  predicate IsLibraryBundle(a: Artifact) {
    a.artifactType == APKLIB || a.artifactType == AAR
  }

  predicate IsStaticLibrary(a: Artifact) {
    a.artifactType == NATIVE_IMPLEMENTATION_ARCHIVE
  }

  /** `"" + classifier`: a null classifier renders as "null". */
  function ClassifierText(classifier: Option<string>): string {
    match classifier
    case None => "null"
    case Some(c) => c
  }

  /** Entries of a header archive that are extracted: all but those under META-INF. */
  predicate IncludeHeaderEntry(entryName: string) {
    !StartsWith(entryName, "META-INF")
  }

  function CaptureLine(variable: string, redirect: string): string {
    "$(shell echo \"" + variable + "=$(" + variable + ")\" " + redirect + " $(" + MAKEFILE_CAPTURE_FILE + "))" + "\n"
  }

  /**
   * The header line, then one line per captured make variable writing its value to the
   * capture file; only the first line truncates the file (`>`), the others append (`>>`).
   */
  function Preamble(): string {
    MAKEFILE_HEADER
    + CaptureLine("LOCAL_C_INCLUDES", ">") + CaptureLine("LOCAL_PATH", ">>") + CaptureLine("LOCAL_MODULE", ">>")
    + CaptureLine("LOCAL_MODULE_FILENAME", ">>") + CaptureLine("LOCAL_CFLAGS", ">>") + CaptureLine("LOCAL_SHARED_LIBRARIES", ">>")
    + CaptureLine("LOCAL_STATIC_LIBRARIES", ">>") + CaptureLine("LOCAL_EXPORT_C_INCLUDES", ">>") + CaptureLine("LOCAL_SRC_FILES", ">>")
  }

  function IncludeDirectory(buildDirectory: Path, time: nat, artifactId: string): Path {
    ChildPath(buildDirectory, "android_maven_plugin_native_includes" + NatToString(time) + "_" + artifactId)
  }

  /** The LOCAL_MODULE_FILENAME value: `outputName`, or the file name without its extension when that is empty. */
  function ModuleFileName(libFile: File, outputName: string): string {
    if outputName == "" then RemoveExtension(libFile.name) else outputName
  }

  /** The three lines `addLibraryDetails` appends. */
  function LibraryDetailsText(libFile: File, outputName: string): string {
    ("LOCAL_PATH := " + libFile.parent + "\n")
    + ("LOCAL_SRC_FILES := " + libFile.name + "\n")
    + ("LOCAL_MODULE_FILENAME := " + ModuleFileName(libFile, outputName) + "\n")
  }

  /**
   * LOCAL_PATH names the parent directory and LOCAL_SRC_FILES the file name; an empty
   * `outputName` names the module file after the library file with its extension
   * removed, which is a proper prefix of the name ending just before its last '.'.
   */
  lemma LibraryDetailsLines(libFile: File, outputName: string)
    ensures StartsWith(LibraryDetailsText(libFile, outputName), "LOCAL_PATH := " + libFile.parent + "\nLOCAL_SRC_FILES := " + libFile.name + "\n")
    ensures outputName != "" ==> EndsWith(LibraryDetailsText(libFile, outputName), "LOCAL_MODULE_FILENAME := " + outputName + "\n")
    ensures outputName == "" && '.' in libFile.name ==>
      var m := ModuleFileName(libFile, outputName);
      |m| < |libFile.name| && libFile.name[..|m|] == m && libFile.name[|m|] == '.' && '.' !in libFile.name[|m| + 1..]
    ensures outputName == "" && '.' !in libFile.name ==> ModuleFileName(libFile, outputName) == libFile.name
  {
    var t := LibraryDetailsText(libFile, outputName);
    var p := "LOCAL_PATH := " + libFile.parent + "\nLOCAL_SRC_FILES := " + libFile.name + "\n";
    assert t == p + ("LOCAL_MODULE_FILENAME := " + ModuleFileName(libFile, outputName) + "\n");
    assert t[..|p|] == p;
    if outputName != "" {
      assert t[|t| - |"LOCAL_MODULE_FILENAME := " + outputName + "\n"|..] == "LOCAL_MODULE_FILENAME := " + outputName + "\n";
    }
  }

  /** The line that guards a stanza with the ABI it was built for. */
  function StanzaGuard(architecture: string): string {
    "\n" + "ifeq ($(TARGET_ARCH_ABI)," + architecture + ")\n"
  }

  /** The comment block naming the artifact, and the start of the module definition. */
  function StanzaHeader(ld: LibraryDetails): string {
    "#\n"
    + "# Group ID: " + ld.artifact.groupId + "\n"
    + "# Artifact ID: " + ld.artifact.artifactId + "\n"
    + "# Artifact Type: " + ld.artifact.artifactType + "\n"
    + "# Version: " + ld.artifact.version + "\n"
    + "include $(CLEAR_VARS)" + "\n"
    + "LOCAL_MODULE    := " + ld.localModule + "\n"
  }

  function ExportLine(includeDirectory: Option<Path>): string {
    match includeDirectory
    case None => ""
    case Some(p) => "LOCAL_EXPORT_C_INCLUDES := " + p + "\n"
  }

  function PrebuiltInclude(isStatic: bool): string {
    if isStatic then "include $(PREBUILT_STATIC_LIBRARY)\n" else "include $(PREBUILT_SHARED_LIBRARY)\n"
  }

  /** The last lines of a stanza: the prebuilt include for the library's kind and `endif #<classifier>`. */
  function StanzaEnd(isStatic: bool, classifier: Option<string>): string {
    PrebuiltInclude(isStatic) + "endif #" + ClassifierText(classifier) + "\n" + "\n"
  }

  /** The text `addLocalModule` appends for one library, with the export line when a header directory was created. */
  function Stanza(ld: LibraryDetails, includeDirectory: Option<Path>): string {
    StanzaGuard(ld.architecture) + StanzaHeader(ld)
    + (LibraryDetailsText(ld.libraryPath, ld.artifact.artifactId) + ExportLine(includeDirectory)
       + StanzaEnd(IsStaticLibrary(ld.artifact), ld.artifact.classifier))
  }

  /** The static and the shared ending differ (in "STATIC" against "SHARED") although they have the same length. */
  lemma StanzaEndsDiffer(classifier: Option<string>)
    ensures |StanzaEnd(true, classifier)| == |StanzaEnd(false, classifier)|
    ensures StanzaEnd(true, classifier) != StanzaEnd(false, classifier)
  {
    assert StanzaEnd(true, classifier)[20] != StanzaEnd(false, classifier)[20];
  }

  /**
   * A stanza opens with the ABI guard and closes with the prebuilt include for the
   * artifact's kind, static exactly for the static-archive type, and `endif #<classifier>`.
   */
  lemma StanzaShape(ld: LibraryDetails, includeDirectory: Option<Path>)
    ensures StartsWith(Stanza(ld, includeDirectory), StanzaGuard(ld.architecture))
    ensures EndsWith(Stanza(ld, includeDirectory), StanzaEnd(true, ld.artifact.classifier))
      <==> ld.artifact.artifactType == NATIVE_IMPLEMENTATION_ARCHIVE
    ensures EndsWith(Stanza(ld, includeDirectory), StanzaEnd(false, ld.artifact.classifier))
      <==> ld.artifact.artifactType != NATIVE_IMPLEMENTATION_ARCHIVE
  {
    var s := Stanza(ld, includeDirectory);
    var guard := StanzaGuard(ld.architecture);
    var isStatic := IsStaticLibrary(ld.artifact);
    var end := StanzaEnd(isStatic, ld.artifact.classifier);
    var other := StanzaEnd(!isStatic, ld.artifact.classifier);
    var middle := LibraryDetailsText(ld.libraryPath, ld.artifact.artifactId) + ExportLine(includeDirectory);
    StartsWithConcat(guard, StanzaHeader(ld));
    StartsWithAppend(guard + StanzaHeader(ld), middle + end, guard);
    EndsWithConcat(middle, end);
    EndsWithPrepend(guard + StanzaHeader(ld), middle + end, end);
    StanzaEndsDiffer(ld.artifact.classifier);
    if EndsWith(s, other) {
      EndsWithSameLength(s, end, other);
    }
  }

  /** The header-archive classifier of a bundled library: the ABI, followed by "-<classifier>" when the bundle has one. */
  function BundleHarClassifier(classifier: Option<string>, architecture: string): string {
    match classifier
    case None => architecture
    case Some(c) => architecture + "-" + c
  }

  /** The details `createMakefileFromArtifacts` fills in for a plain native library. */
  function LocalModuleDetails(env: Collaborators, req: Request, a: Artifact): LibraryDetails {
    LibraryDetails(
      a, HeaderArchive(a.groupId, a.artifactId, a.version, a.scope, a.classifier),
      env.extractArchitecture(a, req.defaultNdkArchitecture), a.artifactId, a.file, req.useHeaderArchives)
  }

  /** The details `processBundledLibraries` fills in for one native file of a bundle. */
  function BundledLibraryDetails(req: Request, a: Artifact, architecture: string, lib: File): LibraryDetails {
    LibraryDetails(
      a, HeaderArchive(a.groupId, a.artifactId, a.version, a.scope, Some(BundleHarClassifier(a.classifier, architecture))),
      architecture, a.artifactId, lib, req.useHeaderArchives)
  }

  /**
   * `addLocalModule`: registers the module name in the static or the shared set, and
   * appends the stanza; with header archives on it first resolves the header archive,
   * registers a new include directory and extracts the archive into it.
   */
  function AddLocalModule(env: Collaborators, buildDirectory: Path, d: Descriptor, ld: LibraryDetails): Result<Descriptor, MakefileError> {
    var named :=
      if IsStaticLibrary(ld.artifact) then d.(staticLibraries := d.staticLibraries + {ld.localModule})
      else d.(sharedLibraries := d.sharedLibraries + {ld.localModule});
    if !ld.useHeaderArchives then Ok(named.(makeFile := d.makeFile + Stanza(ld, None)))
    else
      match env.resolveHeaderArchive(ld.harArtifact)
      case None => Err(HeaderArchiveUnresolved(ld.artifact.artifactId))
      case Some(harFile) =>
        var includeDirectory := IncludeDirectory(buildDirectory, env.clock(|d.includeDirectories|), ld.harArtifact.artifactId);
        if !env.unjar(harFile, includeDirectory, IncludeHeaderEntry) then Err(HeaderArchiveUnpackFailed(includeDirectory))
        else Ok(named.(makeFile := d.makeFile + Stanza(ld, Some(includeDirectory)),
                       includeDirectories := d.includeDirectories + [includeDirectory]))
  }

  /** `addLocalModule` for each of `lds` in turn, stopping at the first failure. */
  function AddLocalModules(env: Collaborators, buildDirectory: Path, d: Descriptor, lds: seq<LibraryDetails>): Result<Descriptor, MakefileError>
    decreases |lds|
  {
    if lds == [] then Ok(d)
    else
      match AddLocalModule(env, buildDirectory, d, lds[0])
      case Err(e) => Err(e)
      case Ok(d') => AddLocalModules(env, buildDirectory, d', lds[1..])
  }

  function ThenAddLocalModules(env: Collaborators, buildDirectory: Path, r: Result<Descriptor, MakefileError>, lds: seq<LibraryDetails>): Result<Descriptor, MakefileError> {
    match r
    case Err(e) => Err(e)
    case Ok(d) => AddLocalModules(env, buildDirectory, d, lds)
  }

  /** One module per native file of a bundle for one ABI, in listing order. */
  function BundledModules(req: Request, a: Artifact, architecture: string, libs: seq<File>): (r: seq<LibraryDetails>)
    ensures |r| == |libs|
  {
    if libs == [] then [] else [BundledLibraryDetails(req, a, architecture, libs[0])] + BundledModules(req, a, architecture, libs[1..])
  }

  /** The per-ABI loop of `addLibraryBundleDetails`: static files, then shared files, then the next ABI. */
  function AddArchitectures(env: Collaborators, buildDirectory: Path, d: Descriptor, req: Request, a: Artifact, architectures: seq<string>): Result<Descriptor, MakefileError>
    decreases |architectures|
  {
    if architectures == [] then Ok(d)
    else
      var arch := architectures[0];
      match AddLocalModules(env, buildDirectory, d, BundledModules(req, a, arch, env.listNativeFiles(a, true, arch)))
      case Err(e) => Err(e)
      case Ok(d1) =>
        match AddLocalModules(env, buildDirectory, d1, BundledModules(req, a, arch, env.listNativeFiles(a, false, arch)))
        case Err(e) => Err(e)
        case Ok(d2) => AddArchitectures(env, buildDirectory, d2, req, a, architectures[1..])
  }

  /** `addLibraryBundleDetails`: unpack the apklib or aar, then walk the requested ABIs. */
  function AddLibraryBundleDetails(env: Collaborators, buildDirectory: Path, d: Descriptor, req: Request, a: Artifact): Result<Descriptor, MakefileError> {
    if !env.unpackBundle(a) then Err(BundleUnpackFailed(a.artifactId))
    else AddArchitectures(env, buildDirectory, d, req, a, req.architectures)
  }

  function AddArtifact(env: Collaborators, buildDirectory: Path, d: Descriptor, req: Request, a: Artifact): Result<Descriptor, MakefileError> {
    if !IsLibraryBundle(a) then AddLocalModule(env, buildDirectory, d, LocalModuleDetails(env, req, a))
    else AddLibraryBundleDetails(env, buildDirectory, d, req, a)
  }

  function AddArtifacts(env: Collaborators, buildDirectory: Path, d: Descriptor, req: Request, artifacts: seq<Artifact>): Result<Descriptor, MakefileError>
    decreases |artifacts|
  {
    if artifacts == [] then Ok(d)
    else
      match AddArtifact(env, buildDirectory, d, req, artifacts[0])
      case Err(e) => Err(e)
      case Ok(d') => AddArtifacts(env, buildDirectory, d', req, artifacts[1..])
  }

  function InitialDescriptor(leaveTemporaryBuildArtifacts: bool): Descriptor {
    Descriptor(Preamble(), [], {}, {}, leaveTemporaryBuildArtifacts)
  }

  /** `createMakefileFromArtifacts`, following its loops. */
  function CreateMakefile(env: Collaborators, buildDirectory: Path, req: Request): Result<Descriptor, MakefileError> {
    AddArtifacts(env, buildDirectory, InitialDescriptor(req.leaveTemporaryBuildArtifacts), req, req.artifacts)
  }

  // ---------------------------------------------------------------------------------
  // The reference definition: flatten the artifacts into modules, then render them.

  /** The modules of a bundle: for each requested ABI in order, its static files, then its shared files. */
  function ArchitectureModules(env: Collaborators, req: Request, a: Artifact, architectures: seq<string>): seq<LibraryDetails>
    decreases |architectures|
  {
    if architectures == [] then []
    else
      var arch := architectures[0];
      BundledModules(req, a, arch, env.listNativeFiles(a, true, arch))
      + BundledModules(req, a, arch, env.listNativeFiles(a, false, arch))
      + ArchitectureModules(env, req, a, architectures[1..])
  }

  /** A plain native library is one module; a bundle is the modules of its native files. */
  function ModulesOf(env: Collaborators, req: Request, a: Artifact): seq<LibraryDetails> {
    if IsLibraryBundle(a) then ArchitectureModules(env, req, a, req.architectures) else [LocalModuleDetails(env, req, a)]
  }

  function AllModules(env: Collaborators, req: Request, artifacts: seq<Artifact>): seq<LibraryDetails>
    decreases |artifacts|
  {
    if artifacts == [] then [] else ModulesOf(env, req, artifacts[0]) + AllModules(env, req, artifacts[1..])
  }

  predicate AllBundlesUnpack(env: Collaborators, artifacts: seq<Artifact>) {
    forall i :: 0 <= i < |artifacts| && IsLibraryBundle(artifacts[i]) ==> env.unpackBundle(artifacts[i])
  }

  /** The include directory of a module when it is the n-th module to create one. */
  function HeaderDirectory(env: Collaborators, buildDirectory: Path, ld: LibraryDetails, n: nat): Option<Path> {
    if ld.useHeaderArchives then Some(IncludeDirectory(buildDirectory, env.clock(n), ld.harArtifact.artifactId)) else None
  }

  function NextCount(ld: LibraryDetails, n: nat): nat {
    if ld.useHeaderArchives then n + 1 else n
  }

  /** The stanzas of `lds`, the first of them rendered when `n` include directories already exist. */
  function Stanzas(env: Collaborators, buildDirectory: Path, lds: seq<LibraryDetails>, n: nat): string
    decreases |lds|
  {
    if lds == [] then ""
    else Stanza(lds[0], HeaderDirectory(env, buildDirectory, lds[0], n)) + Stanzas(env, buildDirectory, lds[1..], NextCount(lds[0], n))
  }

  function IncludeDirectories(env: Collaborators, buildDirectory: Path, lds: seq<LibraryDetails>, n: nat): seq<Path>
    decreases |lds|
  {
    if lds == [] then []
    else
      (if lds[0].useHeaderArchives then [HeaderDirectory(env, buildDirectory, lds[0], n).value] else [])
      + IncludeDirectories(env, buildDirectory, lds[1..], NextCount(lds[0], n))
  }

  function StaticNames(lds: seq<LibraryDetails>): set<string>
    decreases |lds|
  {
    if lds == [] then {} else (if IsStaticLibrary(lds[0].artifact) then {lds[0].localModule} else {}) + StaticNames(lds[1..])
  }

  function SharedNames(lds: seq<LibraryDetails>): set<string>
    decreases |lds|
  {
    if lds == [] then {} else (if IsStaticLibrary(lds[0].artifact) then {} else {lds[0].localModule}) + SharedNames(lds[1..])
  }

  // ---------------------------------------------------------------------------------
  // Lemmas

  /**
   * One module: its stanza is appended (with the export line exactly when header
   * archives are on), one include directory is registered exactly when header archives
   * are on, and its name joins the static set for the static-archive type and the
   * shared set otherwise.
   */
  lemma AddLocalModuleStepText(env: Collaborators, buildDirectory: Path, d: Descriptor, ld: LibraryDetails)
    requires AddLocalModule(env, buildDirectory, d, ld).Ok?
    ensures AddLocalModule(env, buildDirectory, d, ld).value.makeFile
      == d.makeFile + Stanza(ld, HeaderDirectory(env, buildDirectory, ld, |d.includeDirectories|))
    ensures |AddLocalModule(env, buildDirectory, d, ld).value.includeDirectories| == NextCount(ld, |d.includeDirectories|)
  {
  }

  /**
   * Appending a stanza's pieces one after the other (the guard, the header, the library
   * lines, the export line if any, the ending) appends the stanza.
   */
  lemma StanzaPieces(m: string, ld: LibraryDetails, includeDirectory: Option<Path>)
    ensures m + StanzaGuard(ld.architecture) + StanzaHeader(ld) + LibraryDetailsText(ld.libraryPath, ld.artifact.artifactId)
      + ExportLine(includeDirectory) + StanzaEnd(IsStaticLibrary(ld.artifact), ld.artifact.classifier)
      == m + Stanza(ld, includeDirectory)
  {
    AppendFive(m, StanzaGuard(ld.architecture), StanzaHeader(ld), LibraryDetailsText(ld.libraryPath, ld.artifact.artifactId),
      ExportLine(includeDirectory), StanzaEnd(IsStaticLibrary(ld.artifact), ld.artifact.classifier));
  }

  /** One module registers one include directory exactly when header archives are on, and its name in the set for its kind. */
  lemma AddLocalModuleStepRegistrations(env: Collaborators, buildDirectory: Path, d: Descriptor, ld: LibraryDetails)
    requires AddLocalModule(env, buildDirectory, d, ld).Ok?
    ensures var d' := AddLocalModule(env, buildDirectory, d, ld).value;
      var dir := HeaderDirectory(env, buildDirectory, ld, |d.includeDirectories|);
      && d'.includeDirectories == d.includeDirectories + (if ld.useHeaderArchives then [dir.value] else [])
      && d'.staticLibraries == d.staticLibraries + (if IsStaticLibrary(ld.artifact) then {ld.localModule} else {})
      && d'.sharedLibraries == d.sharedLibraries + (if IsStaticLibrary(ld.artifact) then {} else {ld.localModule})
      && d'.leaveTemporaryBuildArtifacts == d.leaveTemporaryBuildArtifacts
  {
  }

  /** Five appends in a row append their concatenation. */
  lemma AppendFive(m: string, g: string, h: string, l: string, e: string, t: string)
    ensures m + (g + h + (l + e + t)) == m + g + h + l + e + t
  {
  }

  lemma AppendEmpty(m: string, e: string)
    requires e == ""
    ensures m + e == m
  {
  }

  lemma AddLocalModulesCons(env: Collaborators, buildDirectory: Path, d: Descriptor, lds: seq<LibraryDetails>)
    requires lds != [] && AddLocalModules(env, buildDirectory, d, lds).Ok?
    ensures AddLocalModule(env, buildDirectory, d, lds[0]).Ok?
    ensures AddLocalModules(env, buildDirectory, d, lds)
      == AddLocalModules(env, buildDirectory, AddLocalModule(env, buildDirectory, d, lds[0]).value, lds[1..])
  {
  }

  lemma NamesCons(d: Descriptor, d': Descriptor, lds: seq<LibraryDetails>)
    requires lds != []
    requires d'.staticLibraries == d.staticLibraries + (if IsStaticLibrary(lds[0].artifact) then {lds[0].localModule} else {})
    requires d'.sharedLibraries == d.sharedLibraries + (if IsStaticLibrary(lds[0].artifact) then {} else {lds[0].localModule})
    ensures d'.staticLibraries + StaticNames(lds[1..]) == d.staticLibraries + StaticNames(lds)
    ensures d'.sharedLibraries + SharedNames(lds[1..]) == d.sharedLibraries + SharedNames(lds)
  {
  }

  lemma MakeFileCons(env: Collaborators, buildDirectory: Path, m: string, m': string, lds: seq<LibraryDetails>, n: nat)
    requires lds != []
    requires m' == m + Stanza(lds[0], HeaderDirectory(env, buildDirectory, lds[0], n))
    ensures m' + Stanzas(env, buildDirectory, lds[1..], NextCount(lds[0], n)) == m + Stanzas(env, buildDirectory, lds, n)
  {
    var s1 := Stanza(lds[0], HeaderDirectory(env, buildDirectory, lds[0], n));
    var sr := Stanzas(env, buildDirectory, lds[1..], NextCount(lds[0], n));
    ConcatAssoc(m, s1, sr);
  }

  lemma IncludesCons(env: Collaborators, buildDirectory: Path, m: seq<Path>, m': seq<Path>, lds: seq<LibraryDetails>, n: nat)
    requires lds != []
    requires m' == m + (if lds[0].useHeaderArchives then [HeaderDirectory(env, buildDirectory, lds[0], n).value] else [])
    ensures m' + IncludeDirectories(env, buildDirectory, lds[1..], NextCount(lds[0], n)) == m + IncludeDirectories(env, buildDirectory, lds, n)
  {
    var i1 := if lds[0].useHeaderArchives then [HeaderDirectory(env, buildDirectory, lds[0], n).value] else [];
    var ir := IncludeDirectories(env, buildDirectory, lds[1..], NextCount(lds[0], n));
    ConcatAssoc(m, i1, ir);
  }

  lemma ConcatAssoc<T>(a: seq<T>, b: seq<T>, c: seq<T>)
    ensures (a + b) + c == a + (b + c)
  {
  }

  /** Adding modules one by one appends their stanzas, in order. */
  lemma {:induction false} AddLocalModulesText(env: Collaborators, buildDirectory: Path, d: Descriptor, lds: seq<LibraryDetails>)
    requires AddLocalModules(env, buildDirectory, d, lds).Ok?
    ensures AddLocalModules(env, buildDirectory, d, lds).value.makeFile == d.makeFile + Stanzas(env, buildDirectory, lds, |d.includeDirectories|)
    decreases |lds|
  {
    if lds != [] {
      AddLocalModulesCons(env, buildDirectory, d, lds);
      var d' := AddLocalModule(env, buildDirectory, d, lds[0]).value;
      AddLocalModuleStepText(env, buildDirectory, d, lds[0]);
      AddLocalModulesText(env, buildDirectory, d', lds[1..]);
      MakeFileCons(env, buildDirectory, d.makeFile, d'.makeFile, lds, |d.includeDirectories|);
    } else {
      AppendEmpty(d.makeFile, Stanzas(env, buildDirectory, lds, |d.includeDirectories|));
    }
  }

  /** Adding modules one by one registers their include directories and names, in order. */
  lemma {:induction false} AddLocalModulesRegistrations(env: Collaborators, buildDirectory: Path, d: Descriptor, lds: seq<LibraryDetails>)
    requires AddLocalModules(env, buildDirectory, d, lds).Ok?
    ensures var r := AddLocalModules(env, buildDirectory, d, lds).value;
      var n := |d.includeDirectories|;
      && r.includeDirectories == d.includeDirectories + IncludeDirectories(env, buildDirectory, lds, n)
      && r.staticLibraries == d.staticLibraries + StaticNames(lds)
      && r.sharedLibraries == d.sharedLibraries + SharedNames(lds)
      && r.leaveTemporaryBuildArtifacts == d.leaveTemporaryBuildArtifacts
    decreases |lds|
  {
    if lds != [] {
      AddLocalModulesCons(env, buildDirectory, d, lds);
      var d' := AddLocalModule(env, buildDirectory, d, lds[0]).value;
      AddLocalModuleStepRegistrations(env, buildDirectory, d, lds[0]);
      AddLocalModulesRegistrations(env, buildDirectory, d', lds[1..]);
      IncludesCons(env, buildDirectory, d.includeDirectories, d'.includeDirectories, lds, |d.includeDirectories|);
      NamesCons(d, d', lds);
    }
  }

  /** Without header archives no module can fail. */
  lemma {:induction false} AddLocalModulesWithoutHeaders(env: Collaborators, buildDirectory: Path, d: Descriptor, lds: seq<LibraryDetails>)
    requires forall i :: 0 <= i < |lds| ==> !lds[i].useHeaderArchives
    ensures AddLocalModules(env, buildDirectory, d, lds).Ok?
    decreases |lds|
  {
    if lds != [] {
      var d' := AddLocalModule(env, buildDirectory, d, lds[0]).value;
      AddLocalModulesWithoutHeaders(env, buildDirectory, d', lds[1..]);
    }
  }

  /** Adding `A + B` is adding `A`, then `B` to its result. */
  lemma {:induction false} AddLocalModulesAppend(env: Collaborators, buildDirectory: Path, d: Descriptor, A: seq<LibraryDetails>, B: seq<LibraryDetails>)
    ensures AddLocalModules(env, buildDirectory, d, A + B) == ThenAddLocalModules(env, buildDirectory, AddLocalModules(env, buildDirectory, d, A), B)
    decreases |A|
  {
    if A != [] {
      assert (A + B)[0] == A[0];
      assert (A + B)[1..] == A[1..] + B;
      match AddLocalModule(env, buildDirectory, d, A[0])
      case Err(e) =>
      case Ok(d') => AddLocalModulesAppend(env, buildDirectory, d', A[1..], B);
    } else {
      assert A + B == B;
    }
  }

  /** The ABI loop of a bundle adds exactly the bundle's flattened modules. */
  lemma {:induction false} AddArchitecturesFlat(env: Collaborators, buildDirectory: Path, d: Descriptor, req: Request, a: Artifact, architectures: seq<string>)
    ensures AddArchitectures(env, buildDirectory, d, req, a, architectures)
      == AddLocalModules(env, buildDirectory, d, ArchitectureModules(env, req, a, architectures))
    decreases |architectures|
  {
    if architectures != [] {
      var arch := architectures[0];
      var S := BundledModules(req, a, arch, env.listNativeFiles(a, true, arch));
      var H := BundledModules(req, a, arch, env.listNativeFiles(a, false, arch));
      var R := ArchitectureModules(env, req, a, architectures[1..]);
      assert ArchitectureModules(env, req, a, architectures) == S + (H + R);
      AddLocalModulesAppend(env, buildDirectory, d, S, H + R);
      match AddLocalModules(env, buildDirectory, d, S)
      case Err(e) =>
      case Ok(d1) =>
        AddLocalModulesAppend(env, buildDirectory, d1, H, R);
        match AddLocalModules(env, buildDirectory, d1, H)
        case Err(e) =>
        case Ok(d2) => AddArchitecturesFlat(env, buildDirectory, d2, req, a, architectures[1..]);
    }
  }

  /** When every bundle unpacks, the artifact loop adds exactly the flattened modules, in order. */
  lemma {:induction false} AddArtifactsFlat(env: Collaborators, buildDirectory: Path, d: Descriptor, req: Request, artifacts: seq<Artifact>)
    requires AllBundlesUnpack(env, artifacts)
    ensures AddArtifacts(env, buildDirectory, d, req, artifacts) == AddLocalModules(env, buildDirectory, d, AllModules(env, req, artifacts))
    decreases |artifacts|
  {
    if artifacts != [] {
      var a := artifacts[0];
      var M := ModulesOf(env, req, a);
      var R := AllModules(env, req, artifacts[1..]);
      assert AllBundlesUnpack(env, artifacts[1..]) by {
        forall i | 0 <= i < |artifacts[1..]| && IsLibraryBundle(artifacts[1..][i]) ensures env.unpackBundle(artifacts[1..][i]) {
          assert artifacts[1..][i] == artifacts[i + 1];
        }
      }
      AddLocalModulesAppend(env, buildDirectory, d, M, R);
      if IsLibraryBundle(a) {
        assert env.unpackBundle(artifacts[0]);
        AddArchitecturesFlat(env, buildDirectory, d, req, a, req.architectures);
      } else {
        assert AddLocalModules(env, buildDirectory, d, M) == AddLocalModule(env, buildDirectory, d, M[0]);
      }
      assert AddArtifact(env, buildDirectory, d, req, a) == AddLocalModules(env, buildDirectory, d, M);
      match AddArtifact(env, buildDirectory, d, req, a)
      case Err(e) =>
      case Ok(d') => AddArtifactsFlat(env, buildDirectory, d', req, artifacts[1..]);
    }
  }

  /** A bundle that cannot be unpacked makes the whole generation fail. */
  lemma {:induction false} AddArtifactsNeedsUnpack(env: Collaborators, buildDirectory: Path, d: Descriptor, req: Request, artifacts: seq<Artifact>)
    requires AddArtifacts(env, buildDirectory, d, req, artifacts).Ok?
    ensures AllBundlesUnpack(env, artifacts)
    decreases |artifacts|
  {
    if artifacts != [] {
      var d' := AddArtifact(env, buildDirectory, d, req, artifacts[0]).value;
      AddArtifactsNeedsUnpack(env, buildDirectory, d', req, artifacts[1..]);
      forall i | 0 <= i < |artifacts| && IsLibraryBundle(artifacts[i]) ensures env.unpackBundle(artifacts[i]) {
        if i > 0 { assert artifacts[i] == artifacts[1..][i - 1]; }
      }
    }
  }

  /** Every module carries the request's header-archive switch. */
  lemma {:induction false} ModulesCarryHeaderSwitch(env: Collaborators, req: Request, artifacts: seq<Artifact>)
    ensures forall ld :: ld in AllModules(env, req, artifacts) ==> ld.useHeaderArchives == req.useHeaderArchives
  {
    if artifacts != [] {
      ModulesCarryHeaderSwitch(env, req, artifacts[1..]);
      if IsLibraryBundle(artifacts[0]) {
        BundleModulesShape(env, req, artifacts[0], req.architectures);
      }
    }
  }

  /**
   * Every module of a bundle is named after the bundle's artifactId, is built for one of
   * the requested ABIs, asks for the header archive classified `<abi>[-<classifier>]`,
   * and, since the bundle's type is apklib or aar, is registered as shared.
   */
  lemma {:induction false} BundleModulesShape(env: Collaborators, req: Request, a: Artifact, architectures: seq<string>)
    requires IsLibraryBundle(a)
    ensures forall ld :: ld in ArchitectureModules(env, req, a, architectures) ==>
      ld.artifact == a && ld.localModule == a.artifactId && !IsStaticLibrary(ld.artifact)
      && ld.architecture in architectures
      && ld.harArtifact.classifier == Some(BundleHarClassifier(a.classifier, ld.architecture))
      && ld.useHeaderArchives == req.useHeaderArchives
  {
    if architectures != [] {
      var arch := architectures[0];
      BundledModulesShape(req, a, arch, env.listNativeFiles(a, true, arch));
      BundledModulesShape(req, a, arch, env.listNativeFiles(a, false, arch));
      BundleModulesShape(env, req, a, architectures[1..]);
    }
  }

  lemma {:induction false} BundledModulesShape(req: Request, a: Artifact, arch: string, libs: seq<File>)
    ensures forall ld :: ld in BundledModules(req, a, arch, libs) ==>
      ld == BundledLibraryDetails(req, a, arch, ld.libraryPath) && ld.libraryPath in libs
  {
    if libs != [] {
      BundledModulesShape(req, a, arch, libs[1..]);
    }
  }

  /** Include directories are created one per module exactly when header archives are on. */
  lemma {:induction false} IncludeDirectoriesCount(env: Collaborators, buildDirectory: Path, lds: seq<LibraryDetails>, n: nat, useHeaderArchives: bool)
    requires forall ld :: ld in lds ==> ld.useHeaderArchives == useHeaderArchives
    ensures |IncludeDirectories(env, buildDirectory, lds, n)| == if useHeaderArchives then |lds| else 0
  {
    if lds != [] {
      assert lds[0] in lds;
      IncludeDirectoriesCount(env, buildDirectory, lds[1..], NextCount(lds[0], n), useHeaderArchives);
    }
  }

  /**
   * A generated makefile is the preamble followed by one stanza per module of the
   * flattened artifact list, in order; generation succeeds only if every bundle unpacked.
   */
  lemma CreateMakefileText(env: Collaborators, buildDirectory: Path, req: Request)
    requires CreateMakefile(env, buildDirectory, req).Ok?
    ensures AllBundlesUnpack(env, req.artifacts)
    ensures CreateMakefile(env, buildDirectory, req).value.makeFile
      == Preamble() + Stanzas(env, buildDirectory, AllModules(env, req, req.artifacts), 0)
  {
    AddArtifactsLayout(env, buildDirectory, InitialDescriptor(req.leaveTemporaryBuildArtifacts), req, req.artifacts);
  }

  /**
   * The include directories of a generated makefile are those of its modules, in order,
   * and its name sets hold the names of the static and of the shared modules.
   */
  lemma CreateMakefileRegistrations(env: Collaborators, buildDirectory: Path, req: Request)
    requires CreateMakefile(env, buildDirectory, req).Ok?
    ensures var d := CreateMakefile(env, buildDirectory, req).value;
      var modules := AllModules(env, req, req.artifacts);
      && d.includeDirectories == IncludeDirectories(env, buildDirectory, modules, 0)
      && d.staticLibraries == StaticNames(modules)
      && d.sharedLibraries == SharedNames(modules)
      && d.leaveTemporaryBuildArtifacts == req.leaveTemporaryBuildArtifacts
  {
    var modules := AllModules(env, req, req.artifacts);
    AddArtifactsRegistrations(env, buildDirectory, InitialDescriptor(req.leaveTemporaryBuildArtifacts), req, req.artifacts);
    assert [] + IncludeDirectories(env, buildDirectory, modules, 0) == IncludeDirectories(env, buildDirectory, modules, 0);
  }

  /** A generated makefile registers one include directory per module when header archives are on, and none otherwise. */
  lemma CreateMakefileIncludeCount(env: Collaborators, buildDirectory: Path, req: Request)
    requires CreateMakefile(env, buildDirectory, req).Ok?
    ensures |CreateMakefile(env, buildDirectory, req).value.includeDirectories|
      == if req.useHeaderArchives then |AllModules(env, req, req.artifacts)| else 0
  {
    var modules := AllModules(env, req, req.artifacts);
    CreateMakefileRegistrations(env, buildDirectory, req);
    ModulesCarryHeaderSwitch(env, req, req.artifacts);
    IncludeDirectoriesCount(env, buildDirectory, modules, 0, req.useHeaderArchives);
  }

  /** With header archives off and every bundle unpacking, generation cannot fail and creates no include directory. */
  lemma CreateMakefileWithoutHeaderArchives(env: Collaborators, buildDirectory: Path, req: Request)
    requires !req.useHeaderArchives && AllBundlesUnpack(env, req.artifacts)
    ensures CreateMakefile(env, buildDirectory, req).Ok?
    ensures CreateMakefile(env, buildDirectory, req).value.includeDirectories == []
  {
    var d0 := InitialDescriptor(req.leaveTemporaryBuildArtifacts);
    var modules := AllModules(env, req, req.artifacts);
    AddArtifactsFlat(env, buildDirectory, d0, req, req.artifacts);
    ModulesCarryHeaderSwitch(env, req, req.artifacts);
    AddLocalModulesWithoutHeaders(env, buildDirectory, d0, modules);
    CreateMakefileIncludeCount(env, buildDirectory, req);
  }

  /** The artifact loop, started from any state, appends the rendering of the flattened modules. */
  lemma AddArtifactsLayout(env: Collaborators, buildDirectory: Path, d: Descriptor, req: Request, artifacts: seq<Artifact>)
    requires AddArtifacts(env, buildDirectory, d, req, artifacts).Ok?
    ensures AllBundlesUnpack(env, artifacts)
    ensures AddArtifacts(env, buildDirectory, d, req, artifacts).value.makeFile
      == d.makeFile + Stanzas(env, buildDirectory, AllModules(env, req, artifacts), |d.includeDirectories|)
  {
    AddArtifactsNeedsUnpack(env, buildDirectory, d, req, artifacts);
    AddArtifactsFlat(env, buildDirectory, d, req, artifacts);
    AddLocalModulesText(env, buildDirectory, d, AllModules(env, req, artifacts));
  }

  /** The artifact loop, started from any state, registers the flattened modules' include directories and names. */
  lemma AddArtifactsRegistrations(env: Collaborators, buildDirectory: Path, d: Descriptor, req: Request, artifacts: seq<Artifact>)
    requires AddArtifacts(env, buildDirectory, d, req, artifacts).Ok?
    ensures var r := AddArtifacts(env, buildDirectory, d, req, artifacts).value;
      var modules := AllModules(env, req, artifacts);
      && r.includeDirectories == d.includeDirectories + IncludeDirectories(env, buildDirectory, modules, |d.includeDirectories|)
      && r.staticLibraries == d.staticLibraries + StaticNames(modules)
      && r.sharedLibraries == d.sharedLibraries + SharedNames(modules)
      && r.leaveTemporaryBuildArtifacts == d.leaveTemporaryBuildArtifacts
  {
    AddArtifactsNeedsUnpack(env, buildDirectory, d, req, artifacts);
    AddArtifactsFlat(env, buildDirectory, d, req, artifacts);
    AddLocalModulesRegistrations(env, buildDirectory, d, AllModules(env, req, artifacts));
  }

  /** No artifacts: exactly the header line and the nine capture lines, nothing registered. */
  lemma CreateMakefileEmpty(env: Collaborators, buildDirectory: Path, req: Request)
    requires req.artifacts == []
    ensures CreateMakefile(env, buildDirectory, req) == Ok(Descriptor(Preamble(), [], {}, {}, req.leaveTemporaryBuildArtifacts))
  {
  }
}
