/**
 * The deciding parts of the `ndk-build` goal: which lines on the build's error stream fail
 * the build, which output files are attached to the project and under which type and
 * classifier, in which order native dependencies are merged, the `ndk-build` command line,
 * and the header-file directives handed to the header archiver.
 *
 * Directory listings and the file system are snapshots passed in; the warnings pattern is a
 * predicate; attaching an artifact to the project is recorded as an `Attachment` value.
 */
module NdkBuild {
  import opened Wrappers
  import opened Text
  import opened Files
  import opened Configuration
  import opened Ndk
  import opened MakefileModel

  /** The Maven project being built. */
  datatype Project = Project(groupId: string, artifactId: string, packaging: string, basedir: Path)

  /** A module named in `additionallyBuiltModules`; a `None` classifier is Java's null. */
  datatype AdditionallyBuiltModule = AdditionallyBuiltModule(name: string, classifier: Option<string>)

  /** A directory to archive header files from, with its include and exclude patterns. */
  datatype HeaderFilesDirective = HeaderFilesDirective(directory: Path, includes: seq<string>, excludes: seq<string>)

  /** The goal's configuration; every `None` is a parameter left unset (Java's null). */
  datatype BuildConfiguration = BuildConfiguration(
    workingDirectory: Path,
    librariesOutputDirectory: Path,
    objectsOutputDirectory: Path,
    classifier: Option<string>,
    additionalCommandline: Option<string>,
    target: Option<string>,
    ndkToolchain: Option<string>,
    finalLibraryName: Option<string>,
    makefile: Option<string>,
    applicationMakefile: Option<string>,
    maxJobs: bool,
    ignoreBuildWarnings: bool,
    useLocalSrcIncludePaths: bool,
    allowMultiArtifacts: bool,
    headerFilesDirectives: Option<seq<HeaderFilesDirective>>,
    additionallyBuiltModules: Option<seq<AdditionallyBuiltModule>>)

  /** The goal's failures, each with the message of the exception the goal throws. */
  datatype BuildError =
    | MakefileMissing(makefile: Path)
    | ApplicationMakefileMissing(applicationMakefile: Path)
    | ToolchainUnresolved(cause: NdkError)
    | MultipleLibraries
    | NoLibrary
    | LibraryNotFound(libraryName: string, tried: Path)
    | NoListing
  {
    function Message(): string {
      match this
      case MakefileMissing(m) => "Specified makefile " + m + " does not exist"
      case ApplicationMakefileMissing(m) => "Specified application makefile " + m + " does not exist"
      case ToolchainUnresolved(cause) => cause.Message()
      case MultipleLibraries => "Currently, only a single, final native library is supported by the build"
      case NoLibrary => "No native compiled library found, did the native compile complete successfully?"
      case LibraryNotFound(name, tried) =>
        "Could not locate final native library using the provided finalLibraryName " + name + " (tried " + tried + ")"
      // the NullPointerException `Arrays.asList` throws on a null array carries no message
      case NoListing => "null"
    }
  }

  /** An artifact attached to the project: its type, its classifier and its file. */
  datatype Attachment = Attachment(artifactType: string, classifier: string, file: File)

  function FilePath(f: File): Path {
    ChildPath(f.parent, f.name)
  }

  // ---------------------------------------------------------------------------------------
  // The error listener

  /**
   * The error listener: a line on the build's error stream fails the build unless build
   * warnings are ignored altogether or the warnings pattern matches the whole line.
   */
  function IsError(ignoreBuildWarnings: bool, warningPattern: string -> bool, error: string): (r: bool)
    ensures ignoreBuildWarnings ==> !r
    ensures !ignoreBuildWarnings ==> (r <==> !warningPattern(error))
  {
    if ignoreBuildWarnings then false
    else if warningPattern(error) then false
    else true
  }

  // ---------------------------------------------------------------------------------------
  // Finding the built library

  /** The library name the filters look for: `finalLibraryName`, or the artifactId when that is unset or empty. */
  function LibraryName(finalLibraryName: Option<string>, artifactId: string): (r: string)
    ensures finalLibraryName.Some? && finalLibraryName.value != "" ==> r == finalLibraryName.value
    ensures finalLibraryName.None? || finalLibraryName.value == "" ==> r == artifactId
  {
    match finalLibraryName
    case Some(name) => if name == "" then artifactId else name
    case None => artifactId
  }

  /** The extension the filters demand: ".a" for a static-archive project, ".so" for every other packaging. */
  function LibraryExtension(packaging: string): (r: string)
    ensures r == ".a" || r == ".so"
    ensures r == ".a" <==> packaging == NATIVE_IMPLEMENTATION_ARCHIVE
  {
    if packaging == NATIVE_IMPLEMENTATION_ARCHIVE then ".a" else ".so"
  }

  /**
   * The filter on the libraries output directory: `lib<name>…<ext>`, or, for a name that
   * already starts with "lib", `<name>…<ext>` as well.
   */
  predicate AcceptsLibraryFile(fileName: string, libraryName: string, packaging: string) {
    var extension := LibraryExtension(packaging);
    (StartsWith(fileName, "lib" + libraryName) && EndsWith(fileName, extension))
    || (StartsWith(libraryName, "lib") && StartsWith(fileName, libraryName) && EndsWith(fileName, extension))
  }

  /** The filter on the objects output directory: `lib<name>…<ext>` only. */
  predicate AcceptsObjectFile(fileName: string, libraryName: string, packaging: string) {
    StartsWith(fileName, "lib" + libraryName) && EndsWith(fileName, LibraryExtension(packaging))
  }

  /** Every file the object filter accepts, the library filter accepts too. */
  lemma ObjectFilterNarrower(fileName: string, libraryName: string, packaging: string)
    ensures AcceptsObjectFile(fileName, libraryName, packaging) ==> AcceptsLibraryFile(fileName, libraryName, packaging)
  {
  }

  /** For a name that does not start with "lib" the two filters agree. */
  lemma FiltersAgreeWithoutLibPrefix(fileName: string, libraryName: string, packaging: string)
    requires !StartsWith(libraryName, "lib")
    ensures AcceptsObjectFile(fileName, libraryName, packaging) <==> AcceptsLibraryFile(fileName, libraryName, packaging)
  {
  }

  /**
   * The workaround for projects whose name already starts with "lib": `<name><ext>` is
   * found in the libraries output directory but never in the objects output directory.
   */
  lemma LibPrefixedNameOnlyInLibraryDirectory(libraryName: string, packaging: string)
    requires StartsWith(libraryName, "lib")
    ensures AcceptsLibraryFile(libraryName + LibraryExtension(packaging), libraryName, packaging)
    ensures !AcceptsObjectFile(libraryName + LibraryExtension(packaging), libraryName, packaging)
  {
    var extension := LibraryExtension(packaging);
    var fileName := libraryName + extension;
    StartsWithConcat(libraryName, extension);
    EndsWithConcat(libraryName, extension);
    // "lib<name>" is at least as long as "<name><ext>", and holds one dot fewer.
    assert multiset(fileName)['.'] == multiset(libraryName)['.'] + 1;
    assert multiset("lib" + libraryName)['.'] == multiset(libraryName)['.'];
    assert fileName[..|fileName|] == fileName;
  }

  /** The names of a listing the filter accepts, in listing order. */
  function Select(names: seq<string>, accept: string -> bool): (r: seq<string>)
    ensures |r| <= |names|
    ensures forall n :: n in r <==> n in names && accept(n)
  {
    if names == [] then []
    else if accept(names[0]) then [names[0]] + Select(names[1..], accept)
    else Select(names[1..], accept)
  }

  /** The files `listFiles(filter)` returns for a directory, or `None` when the directory cannot be listed. */
  function ListFiles(listing: Path -> Option<seq<string>>, directory: Path, accept: string -> bool): (r: Option<seq<File>>)
    ensures listing(directory).None? <==> r.None?
    ensures r.Some? ==> forall f :: f in r.value <==> f.parent == directory && f.name in listing(directory).value && accept(f.name)
  {
    match listing(directory)
    case None => None
    case Some(names) =>
      var selected := Select(names, accept);
      var files := seq(|selected|, i requires 0 <= i < |selected| => File(directory, selected[i]));
      assert forall f :: f in files ==> f.name in selected;
      assert forall n :: n in selected ==> File(directory, n) in files by {
        forall n | n in selected ensures File(directory, n) in files {
          var i :| 0 <= i < |selected| && selected[i] == n;
          assert files[i] == File(directory, n);
        }
      }
      Some(files)
  }

  function LibraryFiles(listing: Path -> Option<seq<string>>, directory: Path, libraryName: string, packaging: string): Option<seq<File>> {
    ListFiles(listing, directory, n => AcceptsLibraryFile(n, libraryName, packaging))
  }

  function ObjectFiles(listing: Path -> Option<seq<string>>, directory: Path, libraryName: string, packaging: string): Option<seq<File>> {
    ListFiles(listing, directory, n => AcceptsObjectFile(n, libraryName, packaging))
  }

  /**
   * `findNativeLibrary`: the library directory's matches, or the object directory's when
   * the library directory gives none; outside multi-artifact mode anything but exactly one
   * file fails. `None` is a null array (neither directory could be listed).
   */
  function FindNativeLibrary(config: BuildConfiguration, project: Project, listing: Path -> Option<seq<string>>,
                             libDirectory: Path, objDirectory: Path): (r: Result<Option<seq<File>>, BuildError>)
    ensures !config.allowMultiArtifacts && r.Ok? ==> r.value.Some? && |r.value.value| == 1
    ensures config.allowMultiArtifacts ==> r.Ok?
  {
    var libraryName := LibraryName(config.finalLibraryName, project.artifactId);
    var fromLibraries := LibraryFiles(listing, libDirectory, libraryName, project.packaging);
    var files :=
      if fromLibraries.None? || fromLibraries.value == [] then ObjectFiles(listing, objDirectory, libraryName, project.packaging)
      else fromLibraries;
    if (files.None? || |files.value| != 1) && !config.allowMultiArtifacts then
      if files.Some? && |files.value| > 1 then Err(MultipleLibraries) else Err(NoLibrary)
    else Ok(files)
  }

  /**
   * The files found come from the library directory whenever it has a match, and from the
   * object directory (through the narrower filter) only when it has none.
   */
  lemma FindNativeLibrarySources(config: BuildConfiguration, project: Project, listing: Path -> Option<seq<string>>,
                                 libDirectory: Path, objDirectory: Path, f: File)
    requires libDirectory != objDirectory
    requires FindNativeLibrary(config, project, listing, libDirectory, objDirectory).Ok?
    requires var r := FindNativeLibrary(config, project, listing, libDirectory, objDirectory); r.value.Some? && f in r.value.value
    ensures var libraryName := LibraryName(config.finalLibraryName, project.artifactId);
      var fromLibraries := LibraryFiles(listing, libDirectory, libraryName, project.packaging);
      || (f.parent == libDirectory && AcceptsLibraryFile(f.name, libraryName, project.packaging))
      || (f.parent == objDirectory && AcceptsObjectFile(f.name, libraryName, project.packaging)
          && (fromLibraries.None? || fromLibraries.value == []))
  {
  }

  /** Outside multi-artifact mode the count decides the failure: more than one match, or none at all. */
  lemma FindNativeLibraryFailures(config: BuildConfiguration, project: Project, listing: Path -> Option<seq<string>>,
                                  libDirectory: Path, objDirectory: Path)
    requires !config.allowMultiArtifacts
    ensures var libraryName := LibraryName(config.finalLibraryName, project.artifactId);
      var fromLibraries := LibraryFiles(listing, libDirectory, libraryName, project.packaging);
      var fromObjects := ObjectFiles(listing, objDirectory, libraryName, project.packaging);
      var r := FindNativeLibrary(config, project, listing, libDirectory, objDirectory);
      && (fromLibraries.Some? && |fromLibraries.value| > 1 ==> r == Err(MultipleLibraries))
      && (fromLibraries.Some? && |fromLibraries.value| == 1 ==> r == Ok(fromLibraries))
      && ((fromLibraries.None? || fromLibraries.value == []) && fromObjects.Some? && |fromObjects.value| > 1 ==> r == Err(MultipleLibraries))
      && ((fromLibraries.None? || fromLibraries.value == []) && fromObjects.Some? && |fromObjects.value| == 1 ==> r == Ok(fromObjects))
      && ((fromLibraries.None? || fromLibraries.value == []) && (fromObjects.None? || fromObjects.value == []) ==> r == Err(NoLibrary))
  {
  }

  /**
   * In multi-artifact mode every match is returned: all of the library directory's when it
   * has any, otherwise all of the object directory's (or its null array).
   */
  lemma FindNativeLibraryMulti(config: BuildConfiguration, project: Project, listing: Path -> Option<seq<string>>,
                               libDirectory: Path, objDirectory: Path)
    requires config.allowMultiArtifacts
    ensures var libraryName := LibraryName(config.finalLibraryName, project.artifactId);
      var fromLibraries := LibraryFiles(listing, libDirectory, libraryName, project.packaging);
      var fromObjects := ObjectFiles(listing, objDirectory, libraryName, project.packaging);
      var r := FindNativeLibrary(config, project, listing, libDirectory, objDirectory);
      && (fromLibraries.Some? && fromLibraries.value != [] ==> r == Ok(fromLibraries))
      && (fromLibraries.None? || fromLibraries.value == [] ==> r == Ok(fromObjects))
  {
  }

  /**
   * `nativeLibraryFromName` for one directory: `lib<name>.<packaging>` for an `so` or `a`
   * project, otherwise `lib<name>.a` when it exists and `lib<name>.so` if not; the chosen
   * file must exist.
   */
  function NativeLibraryFromName(fs: FileSystem, packaging: string, directory: Path, libraryName: string): (r: Result<File, BuildError>)
    ensures r.Ok? ==> FilePath(r.value) in fs.existing && r.value.parent == directory
    ensures r.Ok? ==> r.value.name == "lib" + libraryName + ".a" || r.value.name == "lib" + libraryName + ".so"
  {
    var libraryFile :=
      if packaging == NATIVE_SYMBOL_OBJECT || packaging == NATIVE_IMPLEMENTATION_ARCHIVE then File(directory, "lib" + libraryName + "." + packaging)
      else if FilePath(File(directory, "lib" + libraryName + ".a")) in fs.existing then File(directory, "lib" + libraryName + ".a")
      else File(directory, "lib" + libraryName + ".so");
    if FilePath(libraryFile) !in fs.existing then Err(LibraryNotFound(libraryName, FilePath(libraryFile)))
    else Ok(libraryFile)
  }

  /** For a project that is neither `so` nor `a`, the static archive wins when both files exist, and the shared object is found when only it exists. */
  lemma NativeLibraryFromNamePrefersStatic(fs: FileSystem, packaging: string, directory: Path, libraryName: string)
    requires packaging != NATIVE_SYMBOL_OBJECT && packaging != NATIVE_IMPLEMENTATION_ARCHIVE
    ensures var a := File(directory, "lib" + libraryName + ".a");
      var so := File(directory, "lib" + libraryName + ".so");
      && (FilePath(a) in fs.existing ==> NativeLibraryFromName(fs, packaging, directory, libraryName) == Ok(a))
      && (FilePath(a) !in fs.existing && FilePath(so) in fs.existing ==> NativeLibraryFromName(fs, packaging, directory, libraryName) == Ok(so))
      && (FilePath(a) !in fs.existing && FilePath(so) !in fs.existing ==>
            NativeLibraryFromName(fs, packaging, directory, libraryName) == Err(LibraryNotFound(libraryName, FilePath(so))))
  {
  }

  /** An `so` or `a` project looks only for the file with its own packaging as extension. */
  lemma NativeLibraryFromNameUsesPackaging(fs: FileSystem, packaging: string, directory: Path, libraryName: string)
    requires packaging == NATIVE_SYMBOL_OBJECT || packaging == NATIVE_IMPLEMENTATION_ARCHIVE
    ensures var f := File(directory, "lib" + libraryName + "." + packaging);
      NativeLibraryFromName(fs, packaging, directory, libraryName) == (if FilePath(f) in fs.existing then Ok(f) else Err(LibraryNotFound(libraryName, FilePath(f))))
  {
  }

  /** The three-argument `nativeLibraryFromName`: the library directory, and the object directory when that fails. */
  function NativeLibraryFromDirectories(fs: FileSystem, packaging: string, libDirectory: Path, objDirectory: Path, libraryName: string): (r: Result<File, BuildError>)
    ensures r.Ok? ==> FilePath(r.value) in fs.existing && (r.value.parent == libDirectory || r.value.parent == objDirectory)
  {
    match NativeLibraryFromName(fs, packaging, libDirectory, libraryName)
    case Ok(f) => Ok(f)
    case Err(_) => NativeLibraryFromName(fs, packaging, objDirectory, libraryName)
  }

  /** The object directory is consulted exactly when the library directory has no matching file. */
  lemma NativeLibraryFromDirectoriesOrder(fs: FileSystem, packaging: string, libDirectory: Path, objDirectory: Path, libraryName: string)
    ensures NativeLibraryFromName(fs, packaging, libDirectory, libraryName).Ok? ==>
      NativeLibraryFromDirectories(fs, packaging, libDirectory, objDirectory, libraryName) == NativeLibraryFromName(fs, packaging, libDirectory, libraryName)
    ensures NativeLibraryFromName(fs, packaging, libDirectory, libraryName).Err? ==>
      NativeLibraryFromDirectories(fs, packaging, libDirectory, objDirectory, libraryName) == NativeLibraryFromName(fs, packaging, objDirectory, libraryName)
  {
  }

  /**
   * The additionally-built-module lookup as written: the library-directory lookup already
   * fails on a missing file, so the `exists()` test that should fall back to the object
   * directory only ever sees existing files.
   */
  function AdditionalModuleFileAsWritten(fs: FileSystem, packaging: string, libDirectory: Path, objDirectory: Path, name: string): (r: Result<File, BuildError>)
    ensures r.Ok? ==> FilePath(r.value) in fs.existing && r.value.parent == libDirectory
    ensures r.Err? <==> NativeLibraryFromName(fs, packaging, libDirectory, name).Err?
  {
    match NativeLibraryFromName(fs, packaging, libDirectory, name)
    case Err(e) => Err(e)
    case Ok(f) =>
      if FilePath(f) !in fs.existing then NativeLibraryFromName(fs, packaging, objDirectory, name)
      else Ok(f)
  }

  /** As written, the object-directory fallback is dead: the result is the library-directory lookup alone. */
  lemma AdditionalModuleFallbackIsDead(fs: FileSystem, packaging: string, libDirectory: Path, objDirectory: Path, name: string)
    ensures AdditionalModuleFileAsWritten(fs, packaging, libDirectory, objDirectory, name) == NativeLibraryFromName(fs, packaging, libDirectory, name)
  {
  }

  /** A shared module built only into the object directory: as written it is not found; the fallback finds it. */
  lemma AdditionalModuleOnlyInObjects()
    ensures var fs := FileSystem({}, {"/o/libm.so"}, {});
      && AdditionalModuleFileAsWritten(fs, "jar", "/l", "/o", "m").Err?
      && NativeLibraryFromDirectories(fs, "jar", "/l", "/o", "m") == Ok(File("/o", "libm.so"))
  {
    var fs := FileSystem({}, {"/o/libm.so"}, {});
    assert FilePath(File("/l", "lib" + "m" + ".a")) == "/l/libm.a";
    assert "/l/libm.a" !in fs.existing;
    assert FilePath(File("/l", "lib" + "m" + ".so")) == "/l/libm.so";
    assert "/l/libm.so" !in fs.existing;
    assert FilePath(File("/o", "lib" + "m" + ".a")) == "/o/libm.a";
    assert "/o/libm.a" !in fs.existing;
    assert FilePath(File("/o", "lib" + "m" + ".so")) == "/o/libm.so";
    assert "/o/libm.so" in fs.existing;
    assert "lib" + "m" + ".so" == "libm.so";
    NativeLibraryFromNamePrefersStatic(fs, "jar", "/l", "m");
    NativeLibraryFromNamePrefersStatic(fs, "jar", "/o", "m");
  }

  // ---------------------------------------------------------------------------------------
  // Types and classifiers of attached artifacts

  /**
   * `resolveArtifactType`: the packaging of an `so` or `a` project; otherwise `so` when the
   * file name ends with "so" and `a` for any other name.
   */
  function ResolveArtifactType(packaging: string, file: File): (r: string)
    ensures r == NATIVE_SYMBOL_OBJECT || r == NATIVE_IMPLEMENTATION_ARCHIVE
    ensures packaging == NATIVE_SYMBOL_OBJECT || packaging == NATIVE_IMPLEMENTATION_ARCHIVE ==> r == packaging
    ensures packaging != NATIVE_SYMBOL_OBJECT && packaging != NATIVE_IMPLEMENTATION_ARCHIVE ==>
      (r == NATIVE_SYMBOL_OBJECT <==> EndsWith(file.name, NATIVE_SYMBOL_OBJECT))
  {
    if packaging == NATIVE_SYMBOL_OBJECT || packaging == NATIVE_IMPLEMENTATION_ARCHIVE then packaging
    else if EndsWith(file.name, NATIVE_SYMBOL_OBJECT) then NATIVE_SYMBOL_OBJECT
    else NATIVE_IMPLEMENTATION_ARCHIVE
  }

  /** A file the library filter accepted is attached with the type its extension names. */
  lemma FoundLibraryType(fileName: string, libraryName: string, parent: Path, packaging: string)
    requires AcceptsLibraryFile(fileName, libraryName, packaging)
    ensures ResolveArtifactType(packaging, File(parent, fileName)) ==
      (if packaging == NATIVE_IMPLEMENTATION_ARCHIVE then NATIVE_IMPLEMENTATION_ARCHIVE else NATIVE_SYMBOL_OBJECT)
  {
    if packaging != NATIVE_SYMBOL_OBJECT && packaging != NATIVE_IMPLEMENTATION_ARCHIVE {
      assert EndsWith(fileName, ".so");
      assert fileName[|fileName| - 2..] == fileName[|fileName| - 3..][1..];
    }
  }

  /** A file found by name is attached with the type its extension names. */
  lemma NamedLibraryType(fs: FileSystem, packaging: string, directory: Path, libraryName: string)
    requires NativeLibraryFromName(fs, packaging, directory, libraryName).Ok?
    ensures var f := NativeLibraryFromName(fs, packaging, directory, libraryName).value;
      ResolveArtifactType(packaging, f) == (if f.name == "lib" + libraryName + ".a" then NATIVE_IMPLEMENTATION_ARCHIVE else NATIVE_SYMBOL_OBJECT)
  {
    var f := NativeLibraryFromName(fs, packaging, directory, libraryName).value;
    var stem := "lib" + libraryName;
    if f.name == stem + ".a" {
      assert f.name[|f.name| - 2..] == ".a" != NATIVE_SYMBOL_OBJECT;
    } else {
      assert f.name[|f.name| - 2..] == "so";
    }
  }

  /** The classifier of the goal's own output: the ABI, or `<abi>-<classifier>` when a classifier is configured. */
  function AttachedClassifier(architecture: string, classifier: Option<string>): (r: string)
    ensures StartsWith(r, architecture)
    ensures classifier.None? ==> r == architecture
    ensures classifier.Some? ==> r[|architecture|..] == "-" + classifier.value
  {
    match classifier
    case None => architecture
    case Some(c) => architecture + "-" + c
  }

  /** For one ABI, different classifier settings give different attached classifiers. */
  lemma AttachedClassifierInjective(architecture: string, c1: Option<string>, c2: Option<string>)
    requires AttachedClassifier(architecture, c1) == AttachedClassifier(architecture, c2)
    ensures c1 == c2
  {
    var r := AttachedClassifier(architecture, c1);
    if c1.Some? && c2.Some? {
      assert ("-" + c1.value)[1..] == c1.value;
      assert ("-" + c2.value)[1..] == c2.value;
    }
  }

  /** The classifier of an additionally built module: `<abi>-<classifier>`, with a null classifier rendered as "null". */
  function AdditionalModuleClassifier(architecture: string, classifier: Option<string>): (r: string)
    ensures StartsWith(r, architecture + "-")
    ensures r[|architecture| + 1..] == ClassifierText(classifier)
  {
    architecture + "-" + ClassifierText(classifier)
  }

  /** A module without a classifier gets the same classifier as a module whose classifier is "null", and never the bare ABI. */
  lemma AdditionalModuleClassifierNull(architecture: string)
    ensures AdditionalModuleClassifier(architecture, None) == AdditionalModuleClassifier(architecture, Some("null"))
    ensures AdditionalModuleClassifier(architecture, None) != AttachedClassifier(architecture, None)
  {
  }

  // ---------------------------------------------------------------------------------------
  // Attaching the compiled artifacts

  /** Where ndk-build writes the libraries of one ABI. */
  function NativeLibraryDirectory(config: BuildConfiguration, architecture: string): Path {
    ChildPath(config.librariesOutputDirectory, architecture)
  }

  /** Where ndk-build writes the objects, static archives included, of one ABI. */
  function NativeObjDirectory(config: BuildConfiguration, architecture: string): Path {
    ChildPath(ChildPath(config.objectsOutputDirectory, "local"), architecture)
  }

  /**
   * The goal's own output files: every match in multi-artifact mode (a null array fails on
   * `Arrays.asList`); otherwise the single match, or the file named by `finalLibraryName`
   * when that is set.
   */
  function PrimaryFiles(config: BuildConfiguration, project: Project, fs: FileSystem, listing: Path -> Option<seq<string>>,
                        architecture: string): (r: Result<seq<File>, BuildError>)
    ensures !config.allowMultiArtifacts && r.Ok? ==> |r.value| == 1
  {
    var libDirectory := NativeLibraryDirectory(config, architecture);
    var objDirectory := NativeObjDirectory(config, architecture);
    if config.allowMultiArtifacts then
      match FindNativeLibrary(config, project, listing, libDirectory, objDirectory)
      case Err(e) => Err(e)
      case Ok(None) => Err(NoListing)
      case Ok(Some(files)) => Ok(files)
    else if config.finalLibraryName.None? then
      match FindNativeLibrary(config, project, listing, libDirectory, objDirectory)
      case Err(e) => Err(e)
      case Ok(files) => Ok([files.value[0]])
    else
      match NativeLibraryFromDirectories(fs, project.packaging, libDirectory, objDirectory, config.finalLibraryName.value)
      case Err(e) => Err(e)
      case Ok(f) => Ok([f])
  }

  /** `attachArtifactFile`: one of the goal's own files, with its resolved type, under the goal's classifier. */
  function PrimaryAttachment(config: BuildConfiguration, project: Project, architecture: string, f: File): Attachment {
    Attachment(ResolveArtifactType(project.packaging, f), AttachedClassifier(architecture, config.classifier), f)
  }

  /** An additionally built module's file, with its resolved type, under the module's classifier. */
  function ModuleAttachment(project: Project, architecture: string, m: AdditionallyBuiltModule, f: File): Attachment {
    Attachment(ResolveArtifactType(project.packaging, f), AdditionalModuleClassifier(architecture, m.classifier), f)
  }

  /** The configured additional modules; an unset list is an empty one. */
  function ConfiguredModules(config: BuildConfiguration): seq<AdditionallyBuiltModule> {
    match config.additionallyBuiltModules
    case None => []
    case Some(modules) => modules
  }

  /**
   * The additional-modules loop, from the attachments made so far: each module's file is
   * looked up by name (`lookup`), and the first module that is not found fails the goal.
   */
  function AttachModules(attached: seq<Attachment>, lookup: string -> Result<File, BuildError>, project: Project,
                         architecture: string, modules: seq<AdditionallyBuiltModule>): Result<seq<Attachment>, BuildError>
    decreases |modules|
  {
    if modules == [] then Ok(attached)
    else
      match lookup(modules[0].name)
      case Err(e) => Err(e)
      case Ok(f) => AttachModules(attached + [ModuleAttachment(project, architecture, modules[0], f)], lookup, project, architecture, modules[1..])
  }

  /** An additional module's file as the goal looks it up: the library directory, with the dead object-directory fallback. */
  function ModuleLookup(config: BuildConfiguration, project: Project, fs: FileSystem, architecture: string): string -> Result<File, BuildError> {
    name => AdditionalModuleFileAsWritten(fs, project.packaging, NativeLibraryDirectory(config, architecture), NativeObjDirectory(config, architecture), name)
  }

  /** The evidently intended lookup of an additional module's file: the library directory, then the object directory. */
  function IntendedModuleLookup(config: BuildConfiguration, project: Project, fs: FileSystem, architecture: string): string -> Result<File, BuildError> {
    name => NativeLibraryFromDirectories(fs, project.packaging, NativeLibraryDirectory(config, architecture), NativeObjDirectory(config, architecture), name)
  }

  /** Everything `processCompiledArtifacts` attaches for one ABI, in order, header archives aside. */
  function CompiledAttachments(config: BuildConfiguration, project: Project, fs: FileSystem, listing: Path -> Option<seq<string>>,
                               architecture: string): Result<seq<Attachment>, BuildError>
  {
    match PrimaryFiles(config, project, fs, listing, architecture)
    case Err(e) => Err(e)
    case Ok(files) =>
      AttachModules(PrimaryAttachments(config, project, architecture, files),
                    ModuleLookup(config, project, fs, architecture), project, architecture, ConfiguredModules(config))
  }

  /** The attachments of one ABI had the additional-module lookup fallen back to the object directory. */
  function IntendedCompiledAttachments(config: BuildConfiguration, project: Project, fs: FileSystem, listing: Path -> Option<seq<string>>,
                                       architecture: string): Result<seq<Attachment>, BuildError>
  {
    match PrimaryFiles(config, project, fs, listing, architecture)
    case Err(e) => Err(e)
    case Ok(files) =>
      AttachModules(PrimaryAttachments(config, project, architecture, files),
                    IntendedModuleLookup(config, project, fs, architecture), project, architecture, ConfiguredModules(config))
  }

  /** Two lookups that agree wherever the first finds a file give the same successful modules loop. */
  lemma {:induction false} AttachModulesLookupsAgree(attached: seq<Attachment>, lookup: string -> Result<File, BuildError>,
                                                     other: string -> Result<File, BuildError>, project: Project,
                                                     architecture: string, modules: seq<AdditionallyBuiltModule>)
    requires forall j :: 0 <= j < |modules| && lookup(modules[j].name).Ok? ==> other(modules[j].name) == lookup(modules[j].name)
    ensures AttachModules(attached, lookup, project, architecture, modules).Ok? ==>
      AttachModules(attached, other, project, architecture, modules) == AttachModules(attached, lookup, project, architecture, modules)
    decreases |modules|
  {
    if modules != [] && lookup(modules[0].name).Ok? {
      var next := attached + [ModuleAttachment(project, architecture, modules[0], lookup(modules[0].name).value)];
      var rest := modules[1..];
      assert forall j :: 0 <= j < |rest| ==> rest[j] == modules[j + 1];
      AttachModulesLookupsAgree(next, lookup, other, project, architecture, rest);
    }
  }

  /**
   * Whatever the goal attaches as written, the intended lookup attaches too: the two differ
   * only where the goal fails on a module that is missing from the library directory.
   */
  lemma AsWrittenAttachmentsAreIntended(config: BuildConfiguration, project: Project, fs: FileSystem, listing: Path -> Option<seq<string>>,
                                        architecture: string)
    ensures CompiledAttachments(config, project, fs, listing, architecture).Ok? ==>
      IntendedCompiledAttachments(config, project, fs, listing, architecture) == CompiledAttachments(config, project, fs, listing, architecture)
  {
    var primary := PrimaryFiles(config, project, fs, listing, architecture);
    if primary.Ok? {
      var lookup := ModuleLookup(config, project, fs, architecture);
      var other := IntendedModuleLookup(config, project, fs, architecture);
      var modules := ConfiguredModules(config);
      forall j | 0 <= j < |modules| && lookup(modules[j].name).Ok?
        ensures other(modules[j].name) == lookup(modules[j].name)
      {
        var libDirectory := NativeLibraryDirectory(config, architecture);
        var objDirectory := NativeObjDirectory(config, architecture);
        AdditionalModuleFallbackIsDead(fs, project.packaging, libDirectory, objDirectory, modules[j].name);
        NativeLibraryFromDirectoriesOrder(fs, project.packaging, libDirectory, objDirectory, modules[j].name);
      }
      AttachModulesLookupsAgree(PrimaryAttachments(config, project, architecture, primary.value), lookup, other, project, architecture, modules);
    }
  }

  /** `attachArtifactFile` for each of the goal's own files, in order. */
  function PrimaryAttachments(config: BuildConfiguration, project: Project, architecture: string, files: seq<File>): seq<Attachment> {
    seq(|files|, i requires 0 <= i < |files| => PrimaryAttachment(config, project, architecture, files[i]))
  }

  /** The classifiers of a list of attachments, in order. */
  function Classifiers(attached: seq<Attachment>): seq<string> {
    seq(|attached|, i requires 0 <= i < |attached| => attached[i].classifier)
  }

  /** The modules loop succeeds exactly when every module's file is found. */
  lemma {:induction false} AttachModulesSucceeds(attached: seq<Attachment>, lookup: string -> Result<File, BuildError>, project: Project,
                                                 architecture: string, modules: seq<AdditionallyBuiltModule>)
    ensures AttachModules(attached, lookup, project, architecture, modules).Ok? <==>
      forall j :: 0 <= j < |modules| ==> lookup(modules[j].name).Ok?
    decreases |modules|
  {
    if modules != [] {
      var first := lookup(modules[0].name);
      if first.Ok? {
        var next := attached + [ModuleAttachment(project, architecture, modules[0], first.value)];
        var rest := modules[1..];
        AttachModulesSucceeds(next, lookup, project, architecture, rest);
        assert forall j :: 1 <= j < |modules| ==> modules[j] == rest[j - 1];
        if AttachModules(next, lookup, project, architecture, rest).Err? {
          var k :| 0 <= k < |rest| && lookup(rest[k].name).Err?;
          assert modules[k + 1] == rest[k];
        }
      }
    }
  }

  /** A successful modules loop appends one attachment per module, in order, to what was attached before. */
  lemma {:induction false} AttachModulesAppends(attached: seq<Attachment>, lookup: string -> Result<File, BuildError>, project: Project,
                                                architecture: string, modules: seq<AdditionallyBuiltModule>)
    requires AttachModules(attached, lookup, project, architecture, modules).Ok?
    ensures var r := AttachModules(attached, lookup, project, architecture, modules).value;
      && |r| == |attached| + |modules|
      && r[..|attached|] == attached
      && forall j :: 0 <= j < |modules| ==>
           lookup(modules[j].name) == Ok(r[|attached| + j].file)
           && r[|attached| + j] == ModuleAttachment(project, architecture, modules[j], r[|attached| + j].file)
    decreases |modules|
  {
    if modules != [] {
      var first := lookup(modules[0].name);
      var next := attached + [ModuleAttachment(project, architecture, modules[0], first.value)];
      var rest := modules[1..];
      AttachModulesAppends(next, lookup, project, architecture, rest);
      var r := AttachModules(attached, lookup, project, architecture, modules).value;
      assert r == AttachModules(next, lookup, project, architecture, rest).value;
      assert r[..|attached|] == next[..|attached|];
      forall j | 0 <= j < |modules|
        ensures lookup(modules[j].name) == Ok(r[|attached| + j].file)
        ensures r[|attached| + j] == ModuleAttachment(project, architecture, modules[j], r[|attached| + j].file)
      {
        if j == 0 {
          assert r[|attached|] == next[|attached|];
        } else {
          assert r[|attached| + j] == r[|next| + (j - 1)];
          assert modules[j] == rest[j - 1];
        }
      }
    }
  }

  /** The modules loop attaches each module under `<abi>-<module classifier>`, in order. */
  lemma AttachModulesClassifiers(attached: seq<Attachment>, lookup: string -> Result<File, BuildError>, project: Project,
                                 architecture: string, modules: seq<AdditionallyBuiltModule>)
    requires AttachModules(attached, lookup, project, architecture, modules).Ok?
    ensures var r := AttachModules(attached, lookup, project, architecture, modules).value;
      && |r| == |attached| + |modules|
      && r[..|attached|] == attached
      && forall j :: 0 <= j < |modules| ==> r[|attached| + j].classifier == AdditionalModuleClassifier(architecture, modules[j].classifier)
  {
    AttachModulesAppends(attached, lookup, project, architecture, modules);
  }

  predicate NativeTyped(attached: seq<Attachment>) {
    forall i :: 0 <= i < |attached| ==>
      attached[i].artifactType == NATIVE_SYMBOL_OBJECT || attached[i].artifactType == NATIVE_IMPLEMENTATION_ARCHIVE
  }

  /** The modules loop only ever attaches files typed `so` or `a`. */
  lemma AttachModulesTypes(attached: seq<Attachment>, lookup: string -> Result<File, BuildError>, project: Project,
                           architecture: string, modules: seq<AdditionallyBuiltModule>)
    requires NativeTyped(attached)
    ensures var r := AttachModules(attached, lookup, project, architecture, modules); r.Ok? ==> NativeTyped(r.value)
  {
    var r := AttachModules(attached, lookup, project, architecture, modules);
    if r.Ok? {
      AttachModulesAppends(attached, lookup, project, architecture, modules);
      forall i | 0 <= i < |r.value|
        ensures r.value[i].artifactType == NATIVE_SYMBOL_OBJECT || r.value[i].artifactType == NATIVE_IMPLEMENTATION_ARCHIVE
      {
        if i < |attached| {
          assert r.value[i] == r.value[..|attached|][i] == attached[i];
        } else {
          var j := i - |attached|;
          assert r.value[i] == ModuleAttachment(project, architecture, modules[j], r.value[i].file);
        }
      }
    }
  }

  /** Every attachment is typed `so` or `a`. */
  lemma CompiledAttachmentTypes(config: BuildConfiguration, project: Project, fs: FileSystem, listing: Path -> Option<seq<string>>,
                                architecture: string)
    ensures var r := CompiledAttachments(config, project, fs, listing, architecture); r.Ok? ==> NativeTyped(r.value)
  {
    var primary := PrimaryFiles(config, project, fs, listing, architecture);
    if primary.Ok? {
      var attached := PrimaryAttachments(config, project, architecture, primary.value);
      AttachModulesTypes(attached, ModuleLookup(config, project, fs, architecture), project, architecture, ConfiguredModules(config));
    }
  }

  /**
   * Outside multi-artifact mode one ABI attaches exactly one file of the goal's own, under
   * `<abi>` or `<abi>-<classifier>`, then one file per additional module, in order, under
   * `<abi>-<module classifier>`.
   */
  lemma SingleModeAttachments(config: BuildConfiguration, project: Project, fs: FileSystem, listing: Path -> Option<seq<string>>,
                              architecture: string)
    requires !config.allowMultiArtifacts
    ensures var r := CompiledAttachments(config, project, fs, listing, architecture);
      var modules := ConfiguredModules(config);
      r.Ok? ==>
        && |r.value| == 1 + |modules|
        && r.value[0].classifier == AttachedClassifier(architecture, config.classifier)
        && forall j :: 0 <= j < |modules| ==> r.value[1 + j].classifier == AdditionalModuleClassifier(architecture, modules[j].classifier)
  {
    var primary := PrimaryFiles(config, project, fs, listing, architecture);
    var r := CompiledAttachments(config, project, fs, listing, architecture);
    if primary.Ok? && r.Ok? {
      var attached := PrimaryAttachments(config, project, architecture, primary.value);
      AttachModulesClassifiers(attached, ModuleLookup(config, project, fs, architecture), project, architecture, ConfiguredModules(config));
      assert r.value[0] == r.value[..1][0] == attached[0];
    }
  }

  /**
   * An additional module missing from the library directory fails the goal, whatever else
   * was found and even when the object directory holds it.
   */
  lemma MissingModuleFails(config: BuildConfiguration, project: Project, fs: FileSystem, listing: Path -> Option<seq<string>>,
                           architecture: string, j: nat)
    requires PrimaryFiles(config, project, fs, listing, architecture).Ok?
    requires j < |ConfiguredModules(config)|
    requires NativeLibraryFromName(fs, project.packaging, NativeLibraryDirectory(config, architecture), ConfiguredModules(config)[j].name).Err?
    ensures CompiledAttachments(config, project, fs, listing, architecture).Err?
  {
    var primary := PrimaryFiles(config, project, fs, listing, architecture);
    var attached := PrimaryAttachments(config, project, architecture, primary.value);
    var lookup := ModuleLookup(config, project, fs, architecture);
    assert lookup(ConfiguredModules(config)[j].name).Err?;
    AttachModulesSucceeds(attached, lookup, project, architecture, ConfiguredModules(config));
  }

  /**
   * `processCompiledArtifacts` for one ABI: attaches the goal's own files, then each
   * additional module's, collecting the classifiers used (the header archive is attached
   * under each of them).
   */
  method ProcessCompiledArtifacts(config: BuildConfiguration, project: Project, fs: FileSystem, listing: Path -> Option<seq<string>>,
                                  architecture: string)
    returns (result: Result<seq<Attachment>, BuildError>, classifiers: seq<string>)
    ensures result == CompiledAttachments(config, project, fs, listing, architecture)
    ensures result.Ok? ==> classifiers == Classifiers(result.value)
  {
    var libDirectory := NativeLibraryDirectory(config, architecture);
    var objDirectory := NativeObjDirectory(config, architecture);
    classifiers := [];
    var files: seq<File>;
    if config.allowMultiArtifacts {
      var found := FindNativeLibrary(config, project, listing, libDirectory, objDirectory);
      if found.value.None? {
        return Err(NoListing), classifiers;
      }
      files := found.value.value;
    } else if config.finalLibraryName.None? {
      var found := FindNativeLibrary(config, project, listing, libDirectory, objDirectory);
      if found.Err? {
        return Err(found.error), classifiers;
      }
      files := [found.value.value[0]];
    } else {
      var named := NativeLibraryFromDirectories(fs, project.packaging, libDirectory, objDirectory, config.finalLibraryName.value);
      if named.Err? {
        return Err(named.error), classifiers;
      }
      files := [named.value];
    }
    assert PrimaryFiles(config, project, fs, listing, architecture) == Ok(files);
    var attached;
    attached, classifiers := AttachArtifactFiles(config, project, architecture, files);
    result, classifiers := AttachAdditionallyBuiltModules(config, project, fs, architecture, attached, classifiers);
  }

  /** `attachArtifactFile` for each of the goal's own files in turn, collecting the classifiers. */
  method AttachArtifactFiles(config: BuildConfiguration, project: Project, architecture: string, files: seq<File>)
    returns (attached: seq<Attachment>, classifiers: seq<string>)
    ensures attached == PrimaryAttachments(config, project, architecture, files)
    ensures classifiers == Classifiers(attached)
  {
    attached, classifiers := [], [];
    for i := 0 to |files|
      invariant attached == PrimaryAttachments(config, project, architecture, files[..i])
      invariant classifiers == Classifiers(attached)
    {
      var attachment := PrimaryAttachment(config, project, architecture, files[i]);
      attached := attached + [attachment];
      classifiers := classifiers + [attachment.classifier];
    }
    assert files[..|files|] == files;
  }

  /** The additional-modules loop of `processCompiledArtifacts`, after the goal's own files. */
  method AttachAdditionallyBuiltModules(config: BuildConfiguration, project: Project, fs: FileSystem, architecture: string,
                                        attachedBefore: seq<Attachment>, classifiersBefore: seq<string>)
    returns (result: Result<seq<Attachment>, BuildError>, classifiers: seq<string>)
    requires classifiersBefore == Classifiers(attachedBefore)
    ensures result == AttachModules(attachedBefore, ModuleLookup(config, project, fs, architecture), project, architecture, ConfiguredModules(config))
    ensures result.Ok? ==> classifiers == Classifiers(result.value)
  {
    var libDirectory := NativeLibraryDirectory(config, architecture);
    var objDirectory := NativeObjDirectory(config, architecture);
    var attached := attachedBefore;
    classifiers := classifiersBefore;
    var modules := ConfiguredModules(config);
    ghost var lookup := ModuleLookup(config, project, fs, architecture);
    ghost var goal := AttachModules(attachedBefore, lookup, project, architecture, modules);
    assert modules[0..] == modules;
    for i := 0 to |modules|
      invariant goal == AttachModules(attached, lookup, project, architecture, modules[i..])
      invariant classifiers == Classifiers(attached)
    {
      var m := modules[i];
      assert modules[i..][1..] == modules[i + 1..];
      // a failed lookup is the exception `nativeLibraryFromName` throws; the fallback to the
      // object directory is only taken for a file that does not exist, which the lookup never returns
      var file := NativeLibraryFromName(fs, project.packaging, libDirectory, m.name);
      if file.Ok? && FilePath(file.value) !in fs.existing {
        file := NativeLibraryFromName(fs, project.packaging, objDirectory, m.name);
      }
      assert file == lookup(m.name);
      if file.Err? {
        return Err(file.error), classifiers;
      }
      var attachment := ModuleAttachment(project, architecture, m, file.value);
      attached := attached + [attachment];
      classifiers := classifiers + [attachment.classifier];
    }
    result := Ok(attached);
  }

  // ---------------------------------------------------------------------------------------
  // Native dependencies

  /** An artifact attached by this very build (same groupId and artifactId), which is never a dependency of it. */
  predicate IsOwnArtifact(project: Project, a: Artifact) {
    project.groupId == a.groupId && project.artifactId == a.artifactId
  }

  /**
   * An insertion-ordered set after offering it each artifact of `source` that is not the
   * project's own, in order: a new artifact goes to the end, one already present is left
   * where it is.
   */
  function Merged(target: seq<Artifact>, source: seq<Artifact>, project: Project): seq<Artifact>
    decreases |source|
  {
    if source == [] then target
    else
      var merged := Merged(target, source[..|source| - 1], project);
      var a := source[|source| - 1];
      if IsOwnArtifact(project, a) || a in merged then merged else merged + [a]
  }

  predicate DistinctArtifacts(s: seq<Artifact>) {
    forall i, j :: 0 <= i < j < |s| ==> s[i] != s[j]
  }

  /** Merging keeps what was there, in place, and adds exactly the source's artifacts that are not the project's own. */
  lemma {:induction false} MergedContents(target: seq<Artifact>, source: seq<Artifact>, project: Project)
    ensures var r := Merged(target, source, project);
      && |target| <= |r| && r[..|target|] == target
      && forall a :: a in r <==> a in target || (a in source && !IsOwnArtifact(project, a))
    decreases |source|
  {
    if source != [] {
      var prefix := source[..|source| - 1];
      MergedContents(target, prefix, project);
      var merged := Merged(target, prefix, project);
      var last := source[|source| - 1];
      assert source == prefix + [last];
      if !(IsOwnArtifact(project, last) || last in merged) {
        assert (merged + [last])[..|target|] == merged[..|target|];
      }
    }
  }

  /** Merging into a set keeps it a set: no artifact occurs twice. */
  lemma {:induction false} MergedDistinct(target: seq<Artifact>, source: seq<Artifact>, project: Project)
    requires DistinctArtifacts(target)
    ensures DistinctArtifacts(Merged(target, source, project))
    decreases |source|
  {
    if source != [] {
      MergedDistinct(target, source[..|source| - 1], project);
    }
  }

  /** A `LinkedHashSet<Artifact>`: its members in first-insertion order, each once. */
  class ArtifactSet {
    var elements: seq<Artifact>

    constructor()
      ensures elements == []
    {
      elements := [];
    }

    /** `add`: appends an artifact that is not yet a member; a member stays where it is. */
    method Add(a: Artifact)
      modifies this
      ensures elements == if a in old(elements) then old(elements) else old(elements) + [a]
    {
      if a !in elements {
        elements := elements + [a];
      }
    }
  }

  /** `filterNativeDependencies`: adds the source's artifacts to the set, skipping the project's own. */
  method FilterNativeDependencies(targetSet: ArtifactSet, source: seq<Artifact>, project: Project)
    modifies targetSet
    ensures targetSet.elements == Merged(old(targetSet.elements), source, project)
  {
    ghost var start := targetSet.elements;
    for i := 0 to |source|
      invariant targetSet.elements == Merged(start, source[..i], project)
    {
      var a := source[i];
      assert source[..i + 1][..i] == source[..i];
      if IsOwnArtifact(project, a) {
        // attached by an earlier run of this build: excluded
      } else {
        targetSet.Add(a);
      }
    }
    assert source[..|source|] == source;
  }

  /**
   * `findNativeLibraryDependencies`: the static-library dependencies, then the
   * shared-library ones, merged into one insertion-ordered set without the project's own
   * artifacts.
   */
  method FindNativeLibraryDependencies(staticLibraryArtifacts: seq<Artifact>, sharedLibraryArtifacts: seq<Artifact>, project: Project)
    returns (merged: seq<Artifact>)
    ensures merged == Merged(Merged([], staticLibraryArtifacts, project), sharedLibraryArtifacts, project)
  {
    var mergedArtifacts := new ArtifactSet();
    FilterNativeDependencies(mergedArtifacts, staticLibraryArtifacts, project);
    FilterNativeDependencies(mergedArtifacts, sharedLibraryArtifacts, project);
    merged := mergedArtifacts.elements;
  }

  /**
   * The merged dependencies hold every static and shared dependency that is not the
   * project's own and nothing else, each once, with the static ones first.
   */
  lemma NativeLibraryDependencies(staticLibraryArtifacts: seq<Artifact>, sharedLibraryArtifacts: seq<Artifact>, project: Project)
    ensures var statics := Merged([], staticLibraryArtifacts, project);
      var merged := Merged(statics, sharedLibraryArtifacts, project);
      && |statics| <= |merged| && merged[..|statics|] == statics
      && (forall a :: a in statics <==> a in staticLibraryArtifacts && !IsOwnArtifact(project, a))
      && (forall a :: a in merged <==> (a in staticLibraryArtifacts || a in sharedLibraryArtifacts) && !IsOwnArtifact(project, a))
      && DistinctArtifacts(merged)
  {
    var statics := Merged([], staticLibraryArtifacts, project);
    MergedContents([], staticLibraryArtifacts, project);
    MergedContents(statics, sharedLibraryArtifacts, project);
    MergedDistinct([], staticLibraryArtifacts, project);
    MergedDistinct(statics, sharedLibraryArtifacts, project);
  }

  // ---------------------------------------------------------------------------------------
  // The ndk-build command line

  /** `configureBuildDirectory` */
  function BuildDirectoryArguments(config: BuildConfiguration): seq<string> {
    ["-C", config.workingDirectory]
  }

  /** `configureMakefile`: a configured makefile, relative to the project directory, must exist. */
  function MakefileArguments(config: BuildConfiguration, project: Project, fs: FileSystem): Result<seq<string>, BuildError> {
    match config.makefile
    case None => Ok([])
    case Some(makefile) =>
      var makeFile := ChildPath(project.basedir, makefile);
      if makeFile !in fs.existing then Err(MakefileMissing(makeFile)) else Ok(["APP_BUILD_SCRIPT=" + makefile])
  }

  /** `configureApplicationMakefile`: a configured application makefile, relative to the project directory, must exist. */
  function ApplicationMakefileArguments(config: BuildConfiguration, project: Project, fs: FileSystem): Result<seq<string>, BuildError> {
    match config.applicationMakefile
    case None => Ok([])
    case Some(applicationMakefile) =>
      var appMK := ChildPath(project.basedir, applicationMakefile);
      if appMK !in fs.existing then Err(ApplicationMakefileMissing(appMK)) else Ok(["NDK_APPLICATION_MK=" + applicationMakefile])
  }

  /** `configureMaxJobs`, with the number of available processors as a parameter. */
  function MaxJobsArguments(maxJobs: bool, processors: nat): seq<string> {
    if maxJobs then ["-j", NatToString(processors)] else []
  }

  /**
   * `configureNdkToolchain`: a configured toolchain is passed on unchecked; otherwise the
   * toolchain resolved for the ABI is passed together with the ABI.
   */
  function ToolchainArguments(config: BuildConfiguration, ndk: AndroidNdk, fs: FileSystem, mappings: ArchitectureToolchainMappings?,
                              architecture: string): Result<seq<string>, BuildError>
    reads mappings
  {
    match config.ndkToolchain
    case Some(toolchain) => Ok(["NDK_TOOLCHAIN=" + toolchain])
    case None =>
      match ToolchainForArchitecture(ndk, fs, architecture, mappings)
      case Err(e) => Err(ToolchainUnresolved(e))
      case Ok(toolchain) => Ok(["NDK_TOOLCHAIN=" + toolchain, "APP_ABI=" + architecture])
  }

  /** `configureAdditionalCommands`: the extra command line split on single spaces. */
  function AdditionalArguments(additionalCommandline: Option<string>): seq<string> {
    match additionalCommandline
    case None => []
    case Some(line) => JavaSplit(line, ' ')
  }

  function OutputArguments(config: BuildConfiguration): seq<string> {
    ["NDK_LIBS_OUT=" + config.librariesOutputDirectory, "NDK_OUT=" + config.objectsOutputDirectory]
  }

  function TargetArgument(target: Option<string>): string {
    match target
    case None => "all"
    case Some(t) => t
  }

  /** The arguments `ndk-build` is run with for one ABI, or the first configuration error. */
  function CommandLine(config: BuildConfiguration, project: Project, fs: FileSystem, ndk: AndroidNdk,
                       mappings: ArchitectureToolchainMappings?, processors: nat, architecture: string): Result<seq<string>, BuildError>
    reads mappings
  {
    match MakefileArguments(config, project, fs)
    case Err(e) => Err(e)
    case Ok(makefile) =>
      match ApplicationMakefileArguments(config, project, fs)
      case Err(e) => Err(e)
      case Ok(applicationMakefile) =>
        match ToolchainArguments(config, ndk, fs, mappings, architecture)
        case Err(e) => Err(e)
        case Ok(toolchain) =>
          Ok(BuildDirectoryArguments(config) + makefile + applicationMakefile + MaxJobsArguments(config.maxJobs, processors)
             + toolchain + AdditionalArguments(config.additionalCommandline) + OutputArguments(config)
             + [TargetArgument(config.target)])
  }

  /** A command list extended by a step's arguments, or the step's failure. */
  function Extended(commands: seq<string>, arguments: Result<seq<string>, BuildError>): Result<seq<string>, BuildError> {
    match arguments
    case Err(e) => Err(e)
    case Ok(a) => Ok(commands + a)
  }

  method ConfigureMakefile(config: BuildConfiguration, project: Project, fs: FileSystem, commands: seq<string>)
    returns (r: Result<seq<string>, BuildError>)
    ensures r == Extended(commands, MakefileArguments(config, project, fs))
  {
    assert commands + [] == commands;
    r := Ok(commands);
    if config.makefile.Some? {
      var makeFile := ChildPath(project.basedir, config.makefile.value);
      if makeFile !in fs.existing {
        return Err(MakefileMissing(makeFile));
      }
      r := Ok(commands + ["APP_BUILD_SCRIPT=" + config.makefile.value]);
    }
  }

  method ConfigureApplicationMakefile(config: BuildConfiguration, project: Project, fs: FileSystem, commands: seq<string>)
    returns (r: Result<seq<string>, BuildError>)
    ensures r == Extended(commands, ApplicationMakefileArguments(config, project, fs))
  {
    assert commands + [] == commands;
    r := Ok(commands);
    if config.applicationMakefile.Some? {
      var appMK := ChildPath(project.basedir, config.applicationMakefile.value);
      if appMK !in fs.existing {
        return Err(ApplicationMakefileMissing(appMK));
      }
      r := Ok(commands + ["NDK_APPLICATION_MK=" + config.applicationMakefile.value]);
    }
  }

  method ConfigureNdkToolchain(config: BuildConfiguration, ndk: AndroidNdk, fs: FileSystem, mappings: ArchitectureToolchainMappings?,
                               architecture: string, commands: seq<string>)
    returns (r: Result<seq<string>, BuildError>)
    ensures r == Extended(commands, ToolchainArguments(config, ndk, fs, mappings, architecture))
  {
    if config.ndkToolchain.Some? {
      r := Ok(commands + ["NDK_TOOLCHAIN=" + config.ndkToolchain.value]);
    } else {
      var toolchain := GetToolchainFromArchitecture(ndk, fs, architecture, mappings);
      if toolchain.Err? {
        return Err(ToolchainUnresolved(toolchain.error));
      }
      r := Ok(commands + ["NDK_TOOLCHAIN=" + toolchain.value, "APP_ABI=" + architecture]);
    }
  }

  /** The command list of `compileForArchitecture`, built by the `configure*` steps in order. */
  method BuildCommandLine(config: BuildConfiguration, project: Project, fs: FileSystem, ndk: AndroidNdk,
                          mappings: ArchitectureToolchainMappings?, processors: nat, architecture: string)
    returns (r: Result<seq<string>, BuildError>)
    ensures r == CommandLine(config, project, fs, ndk, mappings, processors, architecture)
  {
    var commands: seq<string> := [];
    // configureBuildDirectory
    commands := commands + ["-C", config.workingDirectory];
    var step := ConfigureMakefile(config, project, fs, commands);
    if step.Err? {
      return step;
    }
    step := ConfigureApplicationMakefile(config, project, fs, step.value);
    if step.Err? {
      return step;
    }
    commands := step.value;
    assert commands == BuildDirectoryArguments(config) + MakefileArguments(config, project, fs).value
      + ApplicationMakefileArguments(config, project, fs).value;
    // configureMaxJobs
    if config.maxJobs {
      var jobs := NatToString(processors);
      commands := commands + ["-j", jobs];
    }
    ghost var beforeToolchain := commands;
    assert beforeToolchain == BuildDirectoryArguments(config) + MakefileArguments(config, project, fs).value
      + ApplicationMakefileArguments(config, project, fs).value + MaxJobsArguments(config.maxJobs, processors);
    step := ConfigureNdkToolchain(config, ndk, fs, mappings, architecture, commands);
    if step.Err? {
      return step;
    }
    commands := step.value;
    assert commands == beforeToolchain + ToolchainArguments(config, ndk, fs, mappings, architecture).value;
    // configureAdditionalCommands
    if config.additionalCommandline.Some? {
      commands := commands + JavaSplit(config.additionalCommandline.value, ' ');
    }
    ghost var beforeOutputs := commands;
    assert beforeOutputs == beforeToolchain + ToolchainArguments(config, ndk, fs, mappings, architecture).value
      + AdditionalArguments(config.additionalCommandline);
    commands := commands + ["NDK_LIBS_OUT=" + config.librariesOutputDirectory];
    commands := commands + ["NDK_OUT=" + config.objectsOutputDirectory];
    commands := commands + [if config.target.Some? then config.target.value else "all"];
    assert commands == beforeOutputs + OutputArguments(config) + [TargetArgument(config.target)];
    r := Ok(commands);
  }

  /**
   * The command line fails exactly when a configured makefile or application makefile is
   * missing, or when no toolchain is configured and none can be resolved for the ABI; a
   * missing makefile is reported before anything else.
   */
  lemma CommandLineFailures(config: BuildConfiguration, project: Project, fs: FileSystem, ndk: AndroidNdk,
                            mappings: ArchitectureToolchainMappings?, processors: nat, architecture: string)
    ensures var r := CommandLine(config, project, fs, ndk, mappings, processors, architecture);
      && (r.Err? <==>
            || (config.makefile.Some? && ChildPath(project.basedir, config.makefile.value) !in fs.existing)
            || (config.applicationMakefile.Some? && ChildPath(project.basedir, config.applicationMakefile.value) !in fs.existing)
            || (config.ndkToolchain.None? && ToolchainForArchitecture(ndk, fs, architecture, mappings).Err?))
      && (config.makefile.Some? && ChildPath(project.basedir, config.makefile.value) !in fs.existing ==>
            r == Err(MakefileMissing(ChildPath(project.basedir, config.makefile.value))))
  {
  }

  /**
   * A successful command line starts with `-C <working directory>` and ends with the two
   * output directories and then the target (`all` when none is configured), with the
   * space-split extra arguments right before the output directories.
   */
  lemma CommandLineLayout(config: BuildConfiguration, project: Project, fs: FileSystem, ndk: AndroidNdk,
                          mappings: ArchitectureToolchainMappings?, processors: nat, architecture: string)
    requires CommandLine(config, project, fs, ndk, mappings, processors, architecture).Ok?
    ensures var c := CommandLine(config, project, fs, ndk, mappings, processors, architecture).value;
      var extra := AdditionalArguments(config.additionalCommandline);
      && |c| >= 5 + |extra|
      && c[0] == "-C" && c[1] == config.workingDirectory
      && c[|c| - 3] == "NDK_LIBS_OUT=" + config.librariesOutputDirectory
      && c[|c| - 2] == "NDK_OUT=" + config.objectsOutputDirectory
      && c[|c| - 1] == TargetArgument(config.target)
      && c[|c| - 3 - |extra|..|c| - 3] == extra
  {
    var c := CommandLine(config, project, fs, ndk, mappings, processors, architecture).value;
    var extra := AdditionalArguments(config.additionalCommandline);
    var head := BuildDirectoryArguments(config) + MakefileArguments(config, project, fs).value
      + ApplicationMakefileArguments(config, project, fs).value + MaxJobsArguments(config.maxJobs, processors)
      + ToolchainArguments(config, ndk, fs, mappings, architecture).value;
    var tail := OutputArguments(config) + [TargetArgument(config.target)];
    assert c == head + extra + tail;
    assert (head + extra + tail)[|c| - 3 - |extra|..|c| - 3] == extra;
  }

  /**
   * A configured toolchain is passed as the only toolchain argument, and the command line
   * then depends neither on the NDK nor on the mappings; otherwise the resolved toolchain
   * is followed immediately by `APP_ABI=<abi>`.
   */
  lemma CommandLineToolchain(config: BuildConfiguration, project: Project, fs: FileSystem, ndk: AndroidNdk, otherNdk: AndroidNdk,
                             mappings: ArchitectureToolchainMappings?, otherMappings: ArchitectureToolchainMappings?,
                             processors: nat, architecture: string)
    ensures config.ndkToolchain.Some? ==>
      CommandLine(config, project, fs, ndk, mappings, processors, architecture)
        == CommandLine(config, project, fs, otherNdk, otherMappings, processors, architecture)
    ensures var r := CommandLine(config, project, fs, ndk, mappings, processors, architecture);
      r.Ok? ==>
        var k := 2 + |MakefileArguments(config, project, fs).value| + |ApplicationMakefileArguments(config, project, fs).value|
                 + |MaxJobsArguments(config.maxJobs, processors)|;
        match config.ndkToolchain
        case Some(t) => r.value[k] == "NDK_TOOLCHAIN=" + t
        case None =>
          var t := ToolchainForArchitecture(ndk, fs, architecture, mappings).value;
          r.value[k] == "NDK_TOOLCHAIN=" + t && r.value[k + 1] == "APP_ABI=" + architecture
  {
    var r := CommandLine(config, project, fs, ndk, mappings, processors, architecture);
    if r.Ok? {
      var head := BuildDirectoryArguments(config) + MakefileArguments(config, project, fs).value
        + ApplicationMakefileArguments(config, project, fs).value + MaxJobsArguments(config.maxJobs, processors);
      var toolchain := ToolchainArguments(config, ndk, fs, mappings, architecture).value;
      var rest := AdditionalArguments(config.additionalCommandline) + OutputArguments(config) + [TargetArgument(config.target)];
      assert r.value == head + toolchain + rest;
      assert r.value[|head|] == toolchain[0];
      if config.ndkToolchain.None? {
        assert r.value[|head| + 1] == toolchain[1];
      }
    }
  }

  // ---------------------------------------------------------------------------------------
  // Header-file directives

  /** The include pattern of every directive the goal makes itself. */
  const HEADER_INCLUDES: seq<string> := ["**/*.h"]

  /** The directive for one `LOCAL_C_INCLUDES` entry, relative to the project directory. */
  function LocalIncludeDirective(basedir: Path, entry: string): HeaderFilesDirective {
    HeaderFilesDirective(ChildPath(basedir, entry), HEADER_INCLUDES, [])
  }

  function LocalIncludeDirectives(basedir: Path, includes: seq<string>): seq<HeaderFilesDirective> {
    seq(|includes|, i requires 0 <= i < |includes| => LocalIncludeDirective(basedir, includes[i]))
  }

  /** The fallback directive: every header under `<basedir>/jni`. */
  function DefaultDirective(project: Project): HeaderFilesDirective {
    HeaderFilesDirective(ChildPath(project.basedir, "jni"), HEADER_INCLUDES, [])
  }

  /**
   * The directives before the fallback: with `useLocalSrcIncludePaths`, one per entry of the
   * captured `LOCAL_C_INCLUDES` value (when present and not blank); otherwise the configured
   * directives.
   */
  function SelectedDirectives(config: BuildConfiguration, project: Project, localCIncludes: Option<string>): seq<HeaderFilesDirective> {
    if config.useLocalSrcIncludePaths then
      match localCIncludes
      case Some(includes) =>
        if Trim(includes) != "" then LocalIncludeDirectives(project.basedir, JavaSplit(includes, ' ')) else []
      case None => []
    else
      match config.headerFilesDirectives
      case Some(directives) => directives
      case None => []
  }

  /** The directives `attachHeaderFiles` archives: the selected ones, or the fallback when none is selected and `jni` exists. */
  function FinalHeaderFilesDirectives(config: BuildConfiguration, project: Project, fs: FileSystem, localCIncludes: Option<string>): seq<HeaderFilesDirective> {
    var selected := SelectedDirectives(config, project, localCIncludes);
    if selected == [] && DefaultDirective(project).directory in fs.existing then [DefaultDirective(project)] else selected
  }

  /** The directive list of `attachHeaderFiles`, built step by step; `localCIncludes` is the value read from the capture file. */
  method HeaderFilesDirectives(config: BuildConfiguration, project: Project, fs: FileSystem, localCIncludes: Option<string>)
    returns (directives: seq<HeaderFilesDirective>)
    ensures directives == FinalHeaderFilesDirectives(config, project, fs, localCIncludes)
  {
    directives := [];
    if config.useLocalSrcIncludePaths {
      if localCIncludes.Some? && Trim(localCIncludes.value) != "" {
        directives := LocalIncludeHeaderDirectives(project.basedir, JavaSplit(localCIncludes.value, ' '));
      }
    } else if config.headerFilesDirectives.Some? {
      directives := directives + config.headerFilesDirectives.value;
    }
    assert directives == SelectedDirectives(config, project, localCIncludes);
    if directives == [] {
      var folder := ChildPath(project.basedir, "jni");
      if folder in fs.existing {
        directives := directives + [HeaderFilesDirective(folder, HEADER_INCLUDES, [])];
      }
    }
  }

  /** The loop over the `LOCAL_C_INCLUDES` entries: one directive per entry, in order. */
  method LocalIncludeHeaderDirectives(basedir: Path, includes: seq<string>) returns (directives: seq<HeaderFilesDirective>)
    ensures directives == LocalIncludeDirectives(basedir, includes)
  {
    directives := [];
    for i := 0 to |includes|
      invariant directives == LocalIncludeDirectives(basedir, includes[..i])
    {
      directives := directives + [HeaderFilesDirective(ChildPath(basedir, includes[i]), HEADER_INCLUDES, [])];
    }
    assert includes[..|includes|] == includes;
  }

  /**
   * A non-blank `LOCAL_C_INCLUDES` value gives one directive per space-separated entry,
   * in order, each archiving the headers under that entry, and never the fallback.
   */
  lemma LocalIncludesDirectives(config: BuildConfiguration, project: Project, fs: FileSystem, includes: string)
    requires config.useLocalSrcIncludePaths && Trim(includes) != ""
    ensures var r := FinalHeaderFilesDirectives(config, project, fs, Some(includes));
      var entries := JavaSplit(includes, ' ');
      && |r| == |entries| > 0
      && forall i :: 0 <= i < |r| ==> r[i].directory == ChildPath(project.basedir, entries[i]) && r[i].includes == ["**/*.h"]
  {
    var entries := JavaSplit(includes, ' ');
    JavaSplitNonBlank(includes);
    var selected := LocalIncludeDirectives(project.basedir, entries);
    assert SelectedDirectives(config, project, Some(includes)) == selected;
    assert selected[0] == LocalIncludeDirective(project.basedir, entries[0]);
    assert FinalHeaderFilesDirectives(config, project, fs, Some(includes)) == selected;
  }

  /**
   * The fallback `jni` directive is used exactly when nothing was selected and the folder
   * exists; the result is empty only when nothing was selected and it does not.
   */
  lemma HeaderDirectivesFallback(config: BuildConfiguration, project: Project, fs: FileSystem, localCIncludes: Option<string>)
    ensures var selected := SelectedDirectives(config, project, localCIncludes);
      var r := FinalHeaderFilesDirectives(config, project, fs, localCIncludes);
      && (selected != [] ==> r == selected)
      && (selected == [] && ChildPath(project.basedir, "jni") in fs.existing ==> r == [HeaderFilesDirective(ChildPath(project.basedir, "jni"), ["**/*.h"], [])])
      && (r == [] <==> selected == [] && ChildPath(project.basedir, "jni") !in fs.existing)
  {
  }

  /** Without `useLocalSrcIncludePaths` the configured directives are archived as they are, when there are any; with it they are ignored. */
  lemma ConfiguredDirectives(config: BuildConfiguration, project: Project, fs: FileSystem, localCIncludes: Option<string>)
    ensures !config.useLocalSrcIncludePaths && config.headerFilesDirectives.Some? && config.headerFilesDirectives.value != [] ==>
      FinalHeaderFilesDirectives(config, project, fs, localCIncludes) == config.headerFilesDirectives.value
    ensures config.useLocalSrcIncludePaths ==>
      FinalHeaderFilesDirectives(config, project, fs, localCIncludes)
        == FinalHeaderFilesDirectives(config.(headerFilesDirectives := None), project, fs, localCIncludes)
  {
  }
}
