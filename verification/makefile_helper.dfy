/**
 * The makefile generator as the plugin runs it: a `MakefileResponse` object whose text
 * buffer, include-directory list and module-name sets are appended to in place, and a
 * `MakefileHelper` whose methods walk the artifacts and fill the response. Each method
 * is proved against the value-level definition in `MakefileModel`.
 */
module MakefileHelper {
  import opened Wrappers
  import opened Text
  import opened Files
  import opened MakefileModel

  /** No name occurs twice. */
  predicate Distinct(order: seq<string>) {
    forall i, j :: 0 <= i < j < |order| ==> order[i] != order[j]
  }

  /** `order` lists every member of `names` exactly once (one iteration order of a hash set). */
  predicate IsEnumeration(order: seq<string>, names: set<string>) {
    Distinct(order) && (forall i :: 0 <= i < |order| ==> order[i] in names) && (forall n :: n in names ==> n in order)
  }

  /** The names in the given order, each followed by one space. */
  function RenderNames(order: seq<string>): string {
    if order == [] then "" else order[0] + " " + RenderNames(order[1..])
  }

  lemma {:induction false} RenderNamesAppend(order: seq<string>, name: string)
    ensures RenderNames(order + [name]) == RenderNames(order) + name + " "
  {
    if order == [] {
      assert RenderNames([name]) == name + " " + RenderNames([]);
    } else {
      assert (order + [name])[0] == order[0];
      assert (order + [name])[1..] == order[1..] + [name];
      RenderNamesAppend(order[1..], name);
    }
  }

  /** The rendering is empty exactly when there is nothing to render. */
  lemma RenderNamesEmpty(order: seq<string>)
    ensures RenderNames(order) == "" <==> order == []
  {
    if order != [] {
      assert |RenderNames(order)| >= 1;
    }
  }

  lemma {:induction false} SplitOnPrefix(x: string, c: char, rest: string)
    requires c !in x
    ensures SplitOn(x + [c] + rest, c) == [x] + SplitOn(rest, c)
    decreases |x|
  {
    if x == [] {
      assert x + [c] + rest == [c] + rest;
      assert ([c] + rest)[1..] == rest;
    } else {
      var s := x + [c] + rest;
      assert s[0] == x[0] && s[0] != c;
      assert s[1..] == x[1..] + [c] + rest;
      SplitOnPrefix(x[1..], c, rest);
      assert [x[0]] + x[1..] == x;
    }
  }

  /** Splitting a rendering on spaces yields the names, then one empty piece. */
  lemma {:induction false} SplitRenderNames(order: seq<string>)
    requires forall i :: 0 <= i < |order| ==> ' ' !in order[i]
    ensures SplitOn(RenderNames(order), ' ') == order + [""]
  {
    if order != [] {
      SplitRenderNames(order[1..]);
      assert order[0] + " " + RenderNames(order[1..]) == order[0] + [' '] + RenderNames(order[1..]);
      SplitOnPrefix(order[0], ' ', RenderNames(order[1..]));
      assert [order[0]] + (order[1..] + [""]) == order + [""];
    }
  }

  /**
   * A rendered name list of non-empty names without spaces is read back by
   * `split(" ")`: the trailing space only yields an empty last piece, which is dropped.
   */
  lemma RenderNamesSplit(order: seq<string>)
    requires order != []
    requires forall i :: 0 <= i < |order| ==> order[i] != "" && ' ' !in order[i]
    ensures JavaSplit(RenderNames(order), ' ') == order
  {
    var s := RenderNames(order);
    SplitRenderNames(order);
    assert ' ' in s by {
      assert s == order[0] + " " + RenderNames(order[1..]);
      assert s[|order[0]|] == ' ';
    }
    var r := DropTrailingEmpty(order + [""]);
    assert (order + [""])[..|order|] == order;
    assert DropTrailingEmpty(order + [""]) == DropTrailingEmpty(order);
    assert order[|order| - 1] != "";
  }

  /**
   * `get*LibraryList`: the names of `names`, each once and followed by one space, in
   * whatever order the set is iterated.
   */
  method RenderNameSet(names: set<string>) returns (s: string)
    ensures exists order :: IsEnumeration(order, names) && s == RenderNames(order)
  {
    var remaining := names;
    ghost var order: seq<string> := [];
    s := "";
    while remaining != {}
      invariant remaining <= names
      invariant forall n :: n in names ==> (n in remaining <==> n !in order)
      invariant Distinct(order) && forall i :: 0 <= i < |order| ==> order[i] in names
      invariant s == RenderNames(order)
      decreases |remaining|
    {
      var name :| name in remaining;
      RenderNamesAppend(order, name);
      s := s + name + " ";
      order := order + [name];
      remaining := remaining - {name};
    }
    assert IsEnumeration(order, names);
  }

  /** The result holder of one makefile generation. */
  class MakefileResponse {
    const leaveTemporaryBuildArtifacts: bool
    var makeFile: string
    var includeDirectories: seq<Path>
    var staticLibraryList: set<string>
    var sharedLibraryList: set<string>

    constructor(includeDirectories: seq<Path>, makeFile: string, leaveTemporaryBuildArtifacts: bool)
      ensures this.includeDirectories == includeDirectories && this.makeFile == makeFile
      ensures this.leaveTemporaryBuildArtifacts == leaveTemporaryBuildArtifacts
      ensures staticLibraryList == {} && sharedLibraryList == {}
    {
      this.includeDirectories := includeDirectories;
      this.makeFile := makeFile;
      this.leaveTemporaryBuildArtifacts := leaveTemporaryBuildArtifacts;
      staticLibraryList := {};
      sharedLibraryList := {};
    }

    /** The response's whole state as a value. */
    function Snapshot(): Descriptor
      reads this
    {
      Descriptor(makeFile, includeDirectories, staticLibraryList, sharedLibraryList, leaveTemporaryBuildArtifacts)
    }

    predicate HasStaticLibraryDepdendencies()
      reads this
    {
      staticLibraryList != {}
    }

    predicate HasSharedLibraryDepdendencies()
      reads this
    {
      sharedLibraryList != {}
    }

    method GetStaticLibraryList() returns (s: string)
      ensures exists order :: IsEnumeration(order, staticLibraryList) && s == RenderNames(order)
      ensures s == "" <==> !HasStaticLibraryDepdendencies()
    {
      s := RenderNameSet(staticLibraryList);
      ghost var order :| IsEnumeration(order, staticLibraryList) && s == RenderNames(order);
      EnumerationEmpty(order, staticLibraryList);
    }

    method GetSharedLibraryList() returns (s: string)
      ensures exists order :: IsEnumeration(order, sharedLibraryList) && s == RenderNames(order)
      ensures s == "" <==> !HasSharedLibraryDepdendencies()
    {
      s := RenderNameSet(sharedLibraryList);
      ghost var order :| IsEnumeration(order, sharedLibraryList) && s == RenderNames(order);
      EnumerationEmpty(order, sharedLibraryList);
    }

    method AddStaticLibraryName(staticLibraryName: string)
      modifies this
      ensures staticLibraryList == old(staticLibraryList) + {staticLibraryName}
      ensures makeFile == old(makeFile) && includeDirectories == old(includeDirectories)
      ensures sharedLibraryList == old(sharedLibraryList)
    {
      staticLibraryList := staticLibraryList + {staticLibraryName};
    }

    method AddSharedLibraryName(sharedLibraryName: string)
      modifies this
      ensures sharedLibraryList == old(sharedLibraryList) + {sharedLibraryName}
      ensures makeFile == old(makeFile) && includeDirectories == old(includeDirectories)
      ensures staticLibraryList == old(staticLibraryList)
    {
      sharedLibraryList := sharedLibraryList + {sharedLibraryName};
    }
  }

  /** An enumeration of a set renders empty exactly when the set is empty. */
  lemma EnumerationEmpty(order: seq<string>, names: set<string>)
    requires IsEnumeration(order, names)
    ensures RenderNames(order) == "" <==> names == {}
  {
    RenderNamesEmpty(order);
    if order != [] {
      assert order[0] in names;
    }
    if names != {} {
      var n :| n in names;
      assert n in order;
    }
  }

  /** The elements of `dirs`, in order, whose deletion fails. */
  function FailedDeletions(dirs: seq<Path>, deleteDirectory: Path -> bool): (r: seq<Path>)
    ensures |r| <= |dirs|
    ensures forall p :: p in r <==> p in dirs && !deleteDirectory(p)
  {
    if dirs == [] then []
    else
      var last := dirs[|dirs| - 1];
      assert dirs == dirs[..|dirs| - 1] + [last];
      FailedDeletions(dirs[..|dirs| - 1], deleteDirectory) + (if deleteDirectory(last) then [] else [last])
  }

  lemma AppendThree(m: string, a: string, b: string, c: string)
    ensures m + (a + b + c) == m + a + b + c
  {
  }

  /** A bundle's module list, element by element. */
  lemma {:induction false} BundledModulesIndex(req: Request, a: Artifact, architecture: string, libs: seq<File>)
    ensures forall i :: 0 <= i < |libs| ==> BundledModules(req, a, architecture, libs)[i] == BundledLibraryDetails(req, a, architecture, libs[i])
  {
    if libs != [] {
      BundledModulesIndex(req, a, architecture, libs[1..]);
    }
  }

  /** The generator: the collaborators it calls and the directory under which header archives are extracted. */
  class MakefileHelper {
    const env: Collaborators
    const ndkBuildDirectory: Path

    constructor(env: Collaborators, ndkBuildDirectory: Path)
      ensures this.env == env && this.ndkBuildDirectory == ndkBuildDirectory
    {
      this.env := env;
      this.ndkBuildDirectory := ndkBuildDirectory;
    }

    /**
     * `cleanupAfterBuild`: keeps everything when temporary build artifacts are to be
     * left; otherwise tries to delete every registered include directory in order, a
     * failed deletion not stopping the rest. Returns the attempted and the failed deletions.
     */
    static method CleanupAfterBuild(response: MakefileResponse, deleteDirectory: Path -> bool) returns (attempted: seq<Path>, failed: seq<Path>)
      ensures response.leaveTemporaryBuildArtifacts ==> attempted == [] && failed == []
      ensures !response.leaveTemporaryBuildArtifacts ==> attempted == response.includeDirectories
      ensures !response.leaveTemporaryBuildArtifacts ==> failed == FailedDeletions(response.includeDirectories, deleteDirectory)
    {
      attempted, failed := [], [];
      if !response.leaveTemporaryBuildArtifacts {
        var dirs := response.includeDirectories;
        for i := 0 to |dirs|
          invariant attempted == dirs[..i]
          invariant failed == FailedDeletions(dirs[..i], deleteDirectory)
        {
          attempted := attempted + [dirs[i]];
          assert dirs[..i + 1][..i] == dirs[..i];
          if !deleteDirectory(dirs[i]) {
            failed := failed + [dirs[i]];
          }
        }
        assert dirs[..|dirs|] == dirs;
      }
    }

    /** `addLibraryDetails`: appends the LOCAL_PATH, LOCAL_SRC_FILES and LOCAL_MODULE_FILENAME lines. */
    method AddLibraryDetails(response: MakefileResponse, libFile: File, outputName: string)
      modifies response
      ensures response.makeFile == old(response.makeFile) + LibraryDetailsText(libFile, outputName)
      ensures response.includeDirectories == old(response.includeDirectories)
      ensures response.staticLibraryList == old(response.staticLibraryList)
      ensures response.sharedLibraryList == old(response.sharedLibraryList)
    {
      var pathLine := "LOCAL_PATH := " + libFile.parent + "\n";
      var sourceLine := "LOCAL_SRC_FILES := " + libFile.name + "\n";
      var fileNameLine := "LOCAL_MODULE_FILENAME := " + ModuleFileName(libFile, outputName) + "\n";
      response.makeFile := response.makeFile + pathLine;
      response.makeFile := response.makeFile + sourceLine;
      response.makeFile := response.makeFile + fileNameLine;
      AppendThree(old(response.makeFile), pathLine, sourceLine, fileNameLine);
    }

    /**
     * `addLocalModule`: appends one stanza, registers the module name, and with header
     * archives on resolves the header archive, registers its include directory and
     * extracts it there before writing the export line.
     */
    method AddLocalModule(response: MakefileResponse, ld: LibraryDetails) returns (outcome: Outcome<MakefileError>)
      modifies response
      ensures match MakefileModel.AddLocalModule(env, ndkBuildDirectory, old(response.Snapshot()), ld)
        case Ok(d) => outcome == Pass && response.Snapshot() == d
        case Err(e) => outcome == Fail(e)
    {
      var isStaticLibrary := IsStaticLibrary(ld.artifact);
      ghost var start := response.makeFile;
      var guard := StanzaGuard(ld.architecture);
      var header := StanzaHeader(ld);
      response.makeFile := response.makeFile + guard;
      response.makeFile := response.makeFile + header;
      if isStaticLibrary {
        response.AddStaticLibraryName(ld.localModule);
      } else {
        response.AddSharedLibraryName(ld.localModule);
      }
      AddLibraryDetails(response, ld.libraryPath, ld.artifact.artifactId);
      var includeDirectory: Option<Path> := None;
      if ld.useHeaderArchives {
        var harFile := env.resolveHeaderArchive(ld.harArtifact);
        if harFile.None? {
          return Fail(HeaderArchiveUnresolved(ld.artifact.artifactId));
        }
        var includeDir := IncludeDirectory(ndkBuildDirectory, env.clock(|response.includeDirectories|), ld.harArtifact.artifactId);
        response.includeDirectories := response.includeDirectories + [includeDir];
        if !env.unjar(harFile.value, includeDir, IncludeHeaderEntry) {
          return Fail(HeaderArchiveUnpackFailed(includeDir));
        }
        includeDirectory := Some(includeDir);
        response.makeFile := response.makeFile + ExportLine(includeDirectory);
      } else {
        AppendEmpty(response.makeFile, ExportLine(includeDirectory));
      }
      var end := StanzaEnd(isStaticLibrary, ld.artifact.classifier);
      response.makeFile := response.makeFile + end;
      StanzaPieces(start, ld, includeDirectory);
      outcome := Pass;
    }

    /** `processBundledLibraries`: one module per native file, named after the bundle, for one ABI. */
    method ProcessBundledLibraries(response: MakefileResponse, req: Request, architecture: string, a: Artifact, libs: seq<File>)
      returns (outcome: Outcome<MakefileError>)
      modifies response
      ensures match AddLocalModules(env, ndkBuildDirectory, old(response.Snapshot()), BundledModules(req, a, architecture, libs))
        case Ok(d) => outcome == Pass && response.Snapshot() == d
        case Err(e) => outcome == Fail(e)
    {
      ghost var modules := BundledModules(req, a, architecture, libs);
      ghost var goal := AddLocalModules(env, ndkBuildDirectory, response.Snapshot(), modules);
      BundledModulesIndex(req, a, architecture, libs);
      for i := 0 to |libs|
        invariant goal == AddLocalModules(env, ndkBuildDirectory, response.Snapshot(), modules[i..])
      {
        var libraryDetails := BundledLibraryDetails(req, a, architecture, libs[i]);
        assert modules[i..][0] == libraryDetails;
        assert modules[i..][1..] == modules[i + 1..];
        outcome := AddLocalModule(response, libraryDetails);
        if outcome.Fail? {
          return;
        }
      }
      assert modules[|libs|..] == [];
      outcome := Pass;
    }

    /** `addLibraryBundleDetails`: unpack the bundle, then for each requested ABI its static and then its shared files. */
    method AddLibraryBundleDetails(response: MakefileResponse, req: Request, a: Artifact) returns (outcome: Outcome<MakefileError>)
      modifies response
      ensures match MakefileModel.AddLibraryBundleDetails(env, ndkBuildDirectory, old(response.Snapshot()), req, a)
        case Ok(d) => outcome == Pass && response.Snapshot() == d
        case Err(e) => outcome == Fail(e)
    {
      if !env.unpackBundle(a) {
        return Fail(BundleUnpackFailed(a.artifactId));
      }
      var architectures := req.architectures;
      ghost var goal := AddArchitectures(env, ndkBuildDirectory, response.Snapshot(), req, a, architectures);
      for i := 0 to |architectures|
        invariant goal == AddArchitectures(env, ndkBuildDirectory, response.Snapshot(), req, a, architectures[i..])
      {
        var architecture := architectures[i];
        assert architectures[i..][0] == architecture;
        assert architectures[i..][1..] == architectures[i + 1..];
        var staticLibs := env.listNativeFiles(a, true, architecture);
        outcome := ProcessBundledLibraries(response, req, architecture, a, staticLibs);
        if outcome.Fail? {
          return;
        }
        var sharedLibs := env.listNativeFiles(a, false, architecture);
        outcome := ProcessBundledLibraries(response, req, architecture, a, sharedLibs);
        if outcome.Fail? {
          return;
        }
      }
      assert architectures[|architectures|..] == [];
      outcome := Pass;
    }

    /**
     * The first part of `createMakefileFromArtifacts`: after the header line, the lines
     * that make ndk-build record the module variables in the capture file.
     */
    static method AppendCaptureLines(response: MakefileResponse)
      requires response.makeFile == MAKEFILE_HEADER
      modifies response
      ensures response.makeFile == Preamble()
      ensures response.includeDirectories == old(response.includeDirectories)
      ensures response.staticLibraryList == old(response.staticLibraryList)
      ensures response.sharedLibraryList == old(response.sharedLibraryList)
    {
      var text := response.makeFile;
      text := text + CaptureLine("LOCAL_C_INCLUDES", ">");
      text := text + CaptureLine("LOCAL_PATH", ">>");
      text := text + CaptureLine("LOCAL_MODULE", ">>");
      text := text + CaptureLine("LOCAL_MODULE_FILENAME", ">>");
      text := text + CaptureLine("LOCAL_CFLAGS", ">>");
      text := text + CaptureLine("LOCAL_SHARED_LIBRARIES", ">>");
      text := text + CaptureLine("LOCAL_STATIC_LIBRARIES", ">>");
      text := text + CaptureLine("LOCAL_EXPORT_C_INCLUDES", ">>");
      text := text + CaptureLine("LOCAL_SRC_FILES", ">>");
      response.makeFile := text;
    }

    /** The body of the artifact loop of `createMakefileFromArtifacts`: a plain native library is one module, a bundle goes through its native files. */
    method AddArtifactModules(response: MakefileResponse, req: Request, artifact: Artifact) returns (outcome: Outcome<MakefileError>)
      modifies response
      ensures match AddArtifact(env, ndkBuildDirectory, old(response.Snapshot()), req, artifact)
        case Ok(d) => outcome == Pass && response.Snapshot() == d
        case Err(e) => outcome == Fail(e)
    {
      if !IsLibraryBundle(artifact) {
        outcome := AddLocalModule(response, LocalModuleDetails(env, req, artifact));
      } else {
        outcome := AddLibraryBundleDetails(response, req, artifact);
      }
    }

    /**
     * `createMakefileFromArtifacts`: a fresh response holding the preamble, then each
     * artifact in turn, a plain native library as one module and a bundle through its
     * native files; the first failure ends the generation.
     */
    method CreateMakefileFromArtifacts(req: Request) returns (result: Result<MakefileResponse, MakefileError>)
      ensures match CreateMakefile(env, ndkBuildDirectory, req)
        case Ok(d) => result.Ok? && fresh(result.value) && result.value.Snapshot() == d
        case Err(e) => result == Err(e)
    {
      var response := new MakefileResponse([], MAKEFILE_HEADER, req.leaveTemporaryBuildArtifacts);
      AppendCaptureLines(response);
      assert response.Snapshot() == InitialDescriptor(req.leaveTemporaryBuildArtifacts);
      ghost var goal := AddArtifacts(env, ndkBuildDirectory, response.Snapshot(), req, req.artifacts);
      var artifacts := req.artifacts;
      if artifacts != [] {
        for i := 0 to |artifacts|
          invariant fresh(response)
          invariant goal == AddArtifacts(env, ndkBuildDirectory, response.Snapshot(), req, artifacts[i..])
        {
          var artifact := artifacts[i];
          assert artifacts[i..][0] == artifact;
          assert artifacts[i..][1..] == artifacts[i + 1..];
          var outcome := AddArtifactModules(response, req, artifact);
          if outcome.Fail? {
            return Err(outcome.error);
          }
        }
        assert artifacts[|artifacts|..] == [];
      }
      result := Ok(response);
    }
  }
}
