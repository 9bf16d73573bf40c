# android-ndk-maven-plugin, modelled in Dafny

The Android NDK Maven plugin compiles the native part of an Android project with
`ndk-build`. This project models its deciding logic:

- **The NDK installation** (`Ndk`, `Toolchains`, `Configuration`). It checks the NDK root. It maps
  an ABI name such as `arm64-v8a` or `x86_64` to a toolchain family by prefix. It resolves the
  toolchain either from a user-supplied `ArchitectureToolchainMappings` object or by searching the
  family's candidate list for the first installed toolchain directory. It probes the gdbserver
  locations, and it builds the path of the `ndk-build` script. The installation is a `FileSystem`
  snapshot: the directories, the existing paths and the readable paths.
- **The Android.mk generator** (`MakefileModel`, `MakefileHelper`). The generated makefile starts
  with a header line and nine capture lines. These make `ndk-build` write the module variables to a
  capture file. Then it has one `ifeq ($(TARGET_ARCH_ABI),<abi>)` … `endif #<classifier>` stanza
  per native library. A plain library gives one stanza; an apklib or aar bundle gives one stanza
  per native file, ABI by ABI, static files before shared ones. While it writes, the generator
  keeps:
  - the static and shared module-name sets;
  - the list of include directories into which header archives were extracted.

  `MakefileResponse` and `MakefileHelper` are classes whose methods append to those fields in
  place. Each method is proved against the value-level definition in `MakefileModel`. That module
  also gives a second definition: flatten the artifacts into modules, then render them. Lemmas show
  that the two agree.
- **The `ndk-build` goal** (`NdkBuild`). It covers:
  - which lines of the build's error stream fail the build;
  - how the built library is found: the file-name filters, the single-artifact check, and the
    lookup by `finalLibraryName`;
  - the type and classifier under which each output is attached;
  - the insertion-ordered merge of native dependencies, which excludes the project's own artifacts;
  - the `ndk-build` argument list;
  - the header-file directives handed to the header archiver.

  Directory listings and the file system are snapshots passed in. The warnings regular expression
  is a predicate. The number of processors and the operating system are parameters. Attaching an
  artifact to the project is recorded as an `Attachment` value.
- **Java library behaviour the code relies on** (`Text`). This covers `startsWith`, `endsWith`,
  `split(" ")` (trailing empty pieces dropped), `trim()`, `FilenameUtils.removeExtension` and
  `String.valueOf` of a count.

In the model, Java's `null` is an `Option`. An exception is the `Err` of a `Result` or the `Fail`
of an `Outcome`. Where the code concatenates a `null` into a string, the text is `"null"`
(`ClassifierText`).

## Model

| member | source | states |
|---|---|---|
| `Toolchains.FamilyOf` | src/main/java/com/simpligility/maven/plugins/androidndk/AndroidNdk.java:178-224 | Each family is chosen exactly when the ABI has that family's prefix. `arm64-v8a` is checked before `arm` and `x86_64` before `x86`. No family is chosen when no prefix matches. Every case is stated in both directions. |
| `Toolchains.KnownArchitecturesHaveFamilies` | src/main/java/com/simpligility/maven/plugins/androidndk/AndroidNdk.java:39 | Every ABI in `NDK_ARCHITECTURES` has a family. `armeabi-v7a` takes the ARM branch, and `mips64` takes the 32-bit `mips` branch. |
| `Toolchains.SixtyFourBitListsDisjoint` | src/main/java/com/simpligility/maven/plugins/androidndk/AndroidNdk.java:44-60 | The 64-bit ARM and x86 toolchain lists share no name with the 32-bit lists. |
| `Configuration.ArchitectureToolchainMappings.constructor` | src/main/java/com/simpligility/maven/plugins/androidndk/configuration/ArchitectureToolchainMappings.java:10-14 | The defaults as written: `armeabi` and `mips` are `ARM_TOOLCHAIN[0]`, `arm64` is `ARM_64_TOOLCHAIN[0]`, and the x86 pair is crossed (`x8664` is `X86_TOOLCHAIN[0]`, `x86` is `X86_64_TOOLCHAIN[0]`). |
| `Configuration.ArchitectureToolchainMappings.SetArmeabi` | src/main/java/com/simpligility/maven/plugins/androidndk/configuration/ArchitectureToolchainMappings.java:16-24 | The getter then returns the value set. Every other getter is unchanged. |
| `Configuration.ArchitectureToolchainMappings.SetMips` | src/main/java/com/simpligility/maven/plugins/androidndk/configuration/ArchitectureToolchainMappings.java:26-34 | The getter then returns the value set. Every other getter is unchanged. |
| `Configuration.ArchitectureToolchainMappings.SetX86` | src/main/java/com/simpligility/maven/plugins/androidndk/configuration/ArchitectureToolchainMappings.java:36-44 | The getter then returns the value set. Every other getter is unchanged. |
| `Configuration.ArchitectureToolchainMappings.SetArm64` | src/main/java/com/simpligility/maven/plugins/androidndk/configuration/ArchitectureToolchainMappings.java:46-54 | The getter then returns the value set. Every other getter is unchanged. |
| `Configuration.ArchitectureToolchainMappings.SetX8664` | src/main/java/com/simpligility/maven/plugins/androidndk/configuration/ArchitectureToolchainMappings.java:56-64 | The getter then returns the value set. Every other getter is unchanged. |
| `Ndk.NewAndroidNdk` | src/main/java/com/simpligility/maven/plugins/androidndk/AndroidNdk.java:82-99 | Construction succeeds exactly when the path is present and is a directory. A null path and a non-directory fail with their own errors. |
| `Ndk.NdkBuildPath` | src/main/java/com/simpligility/maven/plugins/androidndk/AndroidNdk.java:106-116 | The script lies inside the NDK root. It ends in `/ndk-build.cmd` exactly on Windows and in `/ndk-build` exactly elsewhere. |
| `Ndk.ValidateToolchainDirectory` | src/main/java/com/simpligility/maven/plugins/androidndk/AndroidNdk.java:227-239 | Passes exactly when the directory exists and is readable. A missing directory is reported before an unreadable one. |
| `Ndk.SearchToolchainsFirstExisting` | src/main/java/com/simpligility/maven/plugins/androidndk/AndroidNdk.java:241-251 | The first candidate whose directory exists decides the search. It is returned when its directory is readable. Otherwise the search fails as unreadable and no later candidate is tried. |
| `Ndk.SearchToolchainsNoneExisting` | src/main/java/com/simpligility/maven/plugins/androidndk/AndroidNdk.java:241-254 | When no candidate directory exists, the search fails with the "no valid toolchain" error naming the NDK root. |
| `Ndk.SearchToolchainsFound` | src/main/java/com/simpligility/maven/plugins/androidndk/AndroidNdk.java:241-251 | A successful search returns a candidate whose directory exists and is readable. Every earlier candidate's directory is absent. |
| `Ndk.FindHighestSupportedToolchain` | src/main/java/com/simpligility/maven/plugins/androidndk/AndroidNdk.java:241-255 | The early-return loop answers exactly the ordered search, failures included. |
| `Ndk.GetToolchainFromArchitecture` | src/main/java/com/simpligility/maven/plugins/androidndk/AndroidNdk.java:178-225 | The prefix if-chain answers exactly the family dispatch: the mapping's value when a mappings object is present, otherwise the family's search. An ABI of no family fails. |
| `Ndk.Arm64NeverUsesArmList` | src/main/java/com/simpligility/maven/plugins/androidndk/AndroidNdk.java:181-196 | An ABI starting with `arm64-v8a` resolves through `getArm64()` or to a name in the 64-bit list, never to one in the 32-bit ARM list. |
| `Ndk.X86_64NeverUsesX86List` | src/main/java/com/simpligility/maven/plugins/androidndk/AndroidNdk.java:198-213 | An ABI starting with `x86_64` resolves through `getX8664()` or to a name in the x86_64 list, never to one in the x86 list. |
| `Ndk.MappingIgnoresFileSystem` | src/main/java/com/simpligility/maven/plugins/androidndk/AndroidNdk.java:183-219 | With a mappings object, every ABI of a known family resolves to that family's mapping on any file system. No directory is consulted. |
| `Ndk.ResolutionFailures` | src/main/java/com/simpligility/maven/plugins/androidndk/AndroidNdk.java:214-254 | Without mappings, an ABI of no family fails with "Toolchain for architecture … does not exist". A family none of whose toolchains is installed fails with "No valid toolchain". |
| `Ndk.PreferredX86ToolchainWins` | src/main/java/com/simpligility/maven/plugins/androidndk/AndroidNdk.java:206-251 | Suppose `x86-4.6` and `x86-4.4.3` are installed, the first is readable, and no earlier x86 candidate exists. Then `x86` resolves to `x86-4.6`. |
| `Ndk.OneMappingSetOthersDefault` | src/main/java/com/simpligility/maven/plugins/androidndk/configuration/ArchitectureToolchainMappings.java:10-44 | Take a mappings object on which only `setX86` was called. `x86` gets the value set, `arm64-v8a` gets its default, and `x86_64` gets the crossed default `X86_TOOLCHAIN[0]`, none of them checked on disk. |
| `Ndk.GdbServerLocations` | src/main/java/com/simpligility/maven/plugins/androidndk/AndroidNdk.java:121-147 | The probed folder names are the family tag followed by the family's gdbserver toolchain list. An ABI of no family has no locations. |
| `Ndk.GdbServerX86_64ProbesX86Toolchains` | src/main/java/com/simpligility/maven/plugins/androidndk/AndroidNdk.java:133-137 | An `x86_64` ABI probes `android-x86_64` and then the 32-bit `X86_TOOLCHAIN` names. |
| `Ndk.GetGdbServer` | src/main/java/com/simpligility/maven/plugins/androidndk/AndroidNdk.java:118-165 | A returned file exists and is the first existing probe. Patterns form the outer loop and locations the inner one. The error is returned exactly when every probe misses. |
| `MakefileModel.LibraryDetailsLines` | src/main/java/com/simpligility/maven/plugins/androidndk/phase05compile/MakefileHelper.java:453-471 | `LOCAL_PATH` names the parent directory and `LOCAL_SRC_FILES` the file name. `LOCAL_MODULE_FILENAME` is `outputName` when that is not empty. Otherwise it is the file name cut before its last `.`, or the whole name when it has none. |
| `MakefileModel.StanzaEndsDiffer` | src/main/java/com/simpligility/maven/plugins/androidndk/phase05compile/MakefileHelper.java:372-382 | The static and the shared stanza endings have the same length but differ. |
| `MakefileModel.StanzaShape` | src/main/java/com/simpligility/maven/plugins/androidndk/phase05compile/MakefileHelper.java:291-382 | A stanza opens with the `ifeq ($(TARGET_ARCH_ABI),<abi>)` guard. It ends with `include $(PREBUILT_STATIC_LIBRARY)` and `endif #<classifier>` exactly when the artifact type is the static-archive type, and with the shared ending exactly when it is not. |
| `MakefileModel.BundledModules` | src/main/java/com/simpligility/maven/plugins/androidndk/phase05compile/MakefileHelper.java:427-451 | There is one module per listed native file. |
| `MakefileModel.AddLocalModuleStepText` | src/main/java/com/simpligility/maven/plugins/androidndk/phase05compile/MakefileHelper.java:287-386 | A successful `addLocalModule` appends its stanza, with the export line exactly when header archives are on. The include-directory count grows by one exactly then. |
| `MakefileModel.AddLocalModuleStepRegistrations` | src/main/java/com/simpligility/maven/plugins/androidndk/phase05compile/MakefileHelper.java:316-345 | The module's name joins the static set for the static-archive type and the shared set otherwise. Exactly one include directory is appended when header archives are on, none otherwise. |
| `MakefileModel.AddLocalModulesText` | src/main/java/com/simpligility/maven/plugins/androidndk/phase05compile/MakefileHelper.java:427-451 | Adding modules one by one appends their stanzas in order. |
| `MakefileModel.AddLocalModulesRegistrations` | src/main/java/com/simpligility/maven/plugins/androidndk/phase05compile/MakefileHelper.java:427-451 | Adding modules one by one registers their include directories in order, and their names in the set for their kind. |
| `MakefileModel.AddLocalModulesWithoutHeaders` | src/main/java/com/simpligility/maven/plugins/androidndk/phase05compile/MakefileHelper.java:328-371 | Without header archives no module can fail: nothing is resolved or extracted. |
| `MakefileModel.AddLocalModulesAppend` | src/main/java/com/simpligility/maven/plugins/androidndk/phase05compile/MakefileHelper.java:413-423 | Adding the modules of `A + B` is adding `A` and then `B` to its result. |
| `MakefileModel.AddArchitecturesFlat` | src/main/java/com/simpligility/maven/plugins/androidndk/phase05compile/MakefileHelper.java:413-423 | The bundle's ABI loop adds exactly the flattened modules: ABI by ABI in array order, static files before shared ones. |
| `MakefileModel.AddArtifactsFlat` | src/main/java/com/simpligility/maven/plugins/androidndk/phase05compile/MakefileHelper.java:237-282 | When every bundle unpacks, the artifact loop adds exactly the flattened module list, in iteration order. |
| `MakefileModel.AddArtifactsNeedsUnpack` | src/main/java/com/simpligility/maven/plugins/androidndk/phase05compile/MakefileHelper.java:402-411 | A successful generation implies that every bundle was unpacked. |
| `MakefileModel.ModulesCarryHeaderSwitch` | src/main/java/com/simpligility/maven/plugins/androidndk/phase05compile/MakefileHelper.java:255-272 | Every module carries the request's header-archive switch. |
| `MakefileModel.BundleModulesShape` | src/main/java/com/simpligility/maven/plugins/androidndk/phase05compile/MakefileHelper.java:413-445 | Every module of a bundle meets five conditions. It is named after the bundle's artifactId. It is built for a requested ABI. It asks for the header archive classified `<abi>` or `<abi>-<classifier>`. It carries the header switch. It is registered as shared. |
| `MakefileModel.BundledModulesShape` | src/main/java/com/simpligility/maven/plugins/androidndk/phase05compile/MakefileHelper.java:431-445 | Each module for one ABI is built from one of the listed files, with the details `processBundledLibraries` fills in. |
| `MakefileModel.IncludeDirectoriesCount` | src/main/java/com/simpligility/maven/plugins/androidndk/phase05compile/MakefileHelper.java:328-345 | There is one include directory per module when header archives are on, and none otherwise. |
| `MakefileModel.CreateMakefileText` | src/main/java/com/simpligility/maven/plugins/androidndk/phase05compile/MakefileHelper.java:205-284 | A generated makefile is the header and capture preamble, followed by one stanza per flattened module, in order. Success implies that every bundle unpacked. |
| `MakefileModel.CreateMakefileRegistrations` | src/main/java/com/simpligility/maven/plugins/androidndk/phase05compile/MakefileHelper.java:205-284 | The include directories are those of the modules, in order. The two sets hold the names of the static and of the shared modules. |
| `MakefileModel.CreateMakefileIncludeCount` | src/main/java/com/simpligility/maven/plugins/androidndk/phase05compile/MakefileHelper.java:328-345 | A generated makefile registers one include directory per module with header archives on, and none with them off. |
| `MakefileModel.CreateMakefileWithoutHeaderArchives` | src/main/java/com/simpligility/maven/plugins/androidndk/phase05compile/MakefileHelper.java:205-284 | Assume header archives are off and every bundle unpacks. Then generation cannot fail and it creates no include directory. |
| `MakefileModel.AddArtifactsLayout` | src/main/java/com/simpligility/maven/plugins/androidndk/phase05compile/MakefileHelper.java:237-282 | The artifact loop, from any state, appends the rendering of the flattened modules. |
| `MakefileModel.AddArtifactsRegistrations` | src/main/java/com/simpligility/maven/plugins/androidndk/phase05compile/MakefileHelper.java:237-282 | The artifact loop, from any state, appends the modules' include directories and adds their names to the sets. |
| `MakefileModel.CreateMakefileEmpty` | src/main/java/com/simpligility/maven/plugins/androidndk/phase05compile/MakefileHelper.java:208-237 | With no artifacts the makefile is exactly the header line and the nine capture lines. Nothing is registered. |
| `MakefileHelper.RenderNamesSplit` | src/main/java/com/simpligility/maven/plugins/androidndk/phase05compile/MakefileHelper.java:106-115 | Take a rendered list of non-empty names without spaces. Reading it back with `split(" ")` gives the names: the trailing space only produces a dropped empty piece. |
| `MakefileHelper.RenderNameSet` | src/main/java/com/simpligility/maven/plugins/androidndk/phase05compile/MakefileHelper.java:106-136 | The result is some enumeration of the set, each member exactly once and followed by one space. |
| `MakefileHelper.EnumerationEmpty` | src/main/java/com/simpligility/maven/plugins/androidndk/phase05compile/MakefileHelper.java:101-136 | An enumeration renders empty exactly when the set is empty. |
| `MakefileHelper.MakefileResponse.constructor` | src/main/java/com/simpligility/maven/plugins/androidndk/phase05compile/MakefileHelper.java:76-84 | A new response holds the given text, directories and flag, and two empty name sets. |
| `MakefileHelper.MakefileResponse.GetStaticLibraryList` | src/main/java/com/simpligility/maven/plugins/androidndk/phase05compile/MakefileHelper.java:101-115 | Renders each static name once followed by a space. The result is empty exactly when `hasStaticLibraryDepdendencies` is false. |
| `MakefileHelper.MakefileResponse.GetSharedLibraryList` | src/main/java/com/simpligility/maven/plugins/androidndk/phase05compile/MakefileHelper.java:122-136 | Renders each shared name once followed by a space. The result is empty exactly when `hasSharedLibraryDepdendencies` is false. |
| `MakefileHelper.MakefileResponse.AddStaticLibraryName` | src/main/java/com/simpligility/maven/plugins/androidndk/phase05compile/MakefileHelper.java:117-120 | The name joins the static set; adding it twice keeps one copy. Nothing else changes. |
| `MakefileHelper.MakefileResponse.AddSharedLibraryName` | src/main/java/com/simpligility/maven/plugins/androidndk/phase05compile/MakefileHelper.java:138-141 | The name joins the shared set; adding it twice keeps one copy. Nothing else changes. |
| `MakefileHelper.FailedDeletions` | src/main/java/com/simpligility/maven/plugins/androidndk/phase05compile/MakefileHelper.java:182-192 | A directory is among the failed deletions exactly when it is registered and its deletion fails. |
| `MakefileHelper.MakefileHelper.constructor` | src/main/java/com/simpligility/maven/plugins/androidndk/phase05compile/MakefileHelper.java:159-168 | Keeps the collaborators and the build directory. |
| `MakefileHelper.MakefileHelper.CleanupAfterBuild` | src/main/java/com/simpligility/maven/plugins/androidndk/phase05compile/MakefileHelper.java:176-195 | Attempts nothing when temporary artifacts are kept. Otherwise it attempts every registered directory in order, and a failed deletion does not stop the rest. |
| `MakefileHelper.MakefileHelper.AddLibraryDetails` | src/main/java/com/simpligility/maven/plugins/androidndk/phase05compile/MakefileHelper.java:453-471 | Appends exactly the three library lines and changes nothing else. |
| `MakefileHelper.MakefileHelper.AddLocalModule` | src/main/java/com/simpligility/maven/plugins/androidndk/phase05compile/MakefileHelper.java:287-386 | The in-place method reaches the value model's state, or fails with its error. |
| `MakefileHelper.MakefileHelper.ProcessBundledLibraries` | src/main/java/com/simpligility/maven/plugins/androidndk/phase05compile/MakefileHelper.java:427-451 | Adds one module per file in order, stopping at the first failure, as the value model does. |
| `MakefileHelper.MakefileHelper.AddLibraryBundleDetails` | src/main/java/com/simpligility/maven/plugins/androidndk/phase05compile/MakefileHelper.java:393-425 | Unpacks the bundle, then walks the ABIs in order, static files before shared ones, as the value model does. |
| `MakefileHelper.MakefileHelper.AppendCaptureLines` | src/main/java/com/simpligility/maven/plugins/androidndk/phase05compile/MakefileHelper.java:217-235 | After the header line the text is the full preamble. Only the first capture line truncates (`>`); the others append (`>>`). |
| `MakefileHelper.MakefileHelper.AddArtifactModules` | src/main/java/com/simpligility/maven/plugins/androidndk/phase05compile/MakefileHelper.java:241-280 | A plain library goes through `addLocalModule` and a bundle through `addLibraryBundleDetails`, as the value model does. |
| `MakefileHelper.MakefileHelper.CreateMakefileFromArtifacts` | src/main/java/com/simpligility/maven/plugins/androidndk/phase05compile/MakefileHelper.java:205-284 | The in-place generation ends in a fresh response whose state is the value model's result, or it fails with the model's error. |
| `NdkBuild.IsError` | src/main/java/com/simpligility/maven/plugins/androidndk/phase05compile/NdkBuildMojo.java:782-809 | A line is never an error when build warnings are ignored. Otherwise it is an error exactly when the warnings pattern does not match it. |
| `NdkBuild.LibraryName` | src/main/java/com/simpligility/maven/plugins/androidndk/phase05compile/NdkBuildMojo.java:659-664 | The name is `finalLibraryName` when that is set and not empty, and the artifactId otherwise. |
| `NdkBuild.LibraryExtension` | src/main/java/com/simpligility/maven/plugins/androidndk/phase05compile/NdkBuildMojo.java:667 | The extension is `.a` exactly for the static-archive packaging, and `.so` otherwise. |
| `NdkBuild.ObjectFilterNarrower` | src/main/java/com/simpligility/maven/plugins/androidndk/phase05compile/NdkBuildMojo.java:655-709 | Every name the object-directory filter accepts, the library-directory filter accepts too. |
| `NdkBuild.FiltersAgreeWithoutLibPrefix` | src/main/java/com/simpligility/maven/plugins/androidndk/phase05compile/NdkBuildMojo.java:668-705 | For a library name not starting with `lib` the two filters agree. |
| `NdkBuild.LibPrefixedNameOnlyInLibraryDirectory` | src/main/java/com/simpligility/maven/plugins/androidndk/phase05compile/NdkBuildMojo.java:669-705 | Take a name that already starts with `lib`. The Issue #14 workaround accepts `<name><ext>` in the library directory, but the object filter rejects it. |
| `NdkBuild.Select` | src/main/java/com/simpligility/maven/plugins/androidndk/phase05compile/NdkBuildMojo.java:655 | Keeps exactly the listed names that the filter accepts. |
| `NdkBuild.ListFiles` | src/main/java/com/simpligility/maven/plugins/androidndk/phase05compile/NdkBuildMojo.java:655-687 | `listFiles` gives null exactly for an unlistable directory. Otherwise it gives exactly the accepted entries of that directory. |
| `NdkBuild.FindNativeLibrary` | src/main/java/com/simpligility/maven/plugins/androidndk/phase05compile/NdkBuildMojo.java:651-734 | Outside multi-artifact mode a success holds exactly one file. In multi-artifact mode the search never fails. |
| `NdkBuild.FindNativeLibrarySources` | src/main/java/com/simpligility/maven/plugins/androidndk/phase05compile/NdkBuildMojo.java:651-710 | A found file is either an accepted library-directory entry, or an object-directory entry accepted by the narrower filter when the library directory matched nothing. |
| `NdkBuild.FindNativeLibraryFailures` | src/main/java/com/simpligility/maven/plugins/androidndk/phase05compile/NdkBuildMojo.java:684-731 | The count check covers whichever directory decided. The library directory decides when it has matches: more than one fails with "only a single, final native library", and exactly one is returned. Otherwise the object directory decides by the same rule. No match in either fails with "No native compiled library found". |
| `NdkBuild.FindNativeLibraryMulti` | src/main/java/com/simpligility/maven/plugins/androidndk/phase05compile/NdkBuildMojo.java:651-734 | In multi-artifact mode every match is returned. That is all of the library directory's matches when it has any, and otherwise all of the object directory's (or its null array). With `ListFiles`, a file is returned exactly when it is a matching entry of the deciding directory. |
| `NdkBuild.NativeLibraryFromName` | src/main/java/com/simpligility/maven/plugins/androidndk/phase05compile/NdkBuildMojo.java:749-779 | A returned file exists in the given directory and is named `lib<name>.a` or `lib<name>.so`. |
| `NdkBuild.NativeLibraryFromNamePrefersStatic` | src/main/java/com/simpligility/maven/plugins/androidndk/phase05compile/NdkBuildMojo.java:757-776 | For other packagings, `lib<name>.a` wins when it exists. `lib<name>.so` is found when only it exists. With neither, the lookup fails naming the `.so` path. |
| `NdkBuild.NativeLibraryFromNameUsesPackaging` | src/main/java/com/simpligility/maven/plugins/androidndk/phase05compile/NdkBuildMojo.java:753-776 | An `so` or `a` project looks only for `lib<name>.<packaging>` and fails naming it when absent. |
| `NdkBuild.NativeLibraryFromDirectories` | src/main/java/com/simpligility/maven/plugins/androidndk/phase05compile/NdkBuildMojo.java:736-747 | A returned file exists, in the library directory or in the object directory. |
| `NdkBuild.NativeLibraryFromDirectoriesOrder` | src/main/java/com/simpligility/maven/plugins/androidndk/phase05compile/NdkBuildMojo.java:736-747 | The library directory's answer is used when it succeeds. The object directory's answer is used exactly when it fails. |
| `NdkBuild.AdditionalModuleFileAsWritten` | src/main/java/com/simpligility/maven/plugins/androidndk/phase05compile/NdkBuildMojo.java:588-594 | As written, a module's file is found only in the library directory, and the lookup fails exactly when the library-directory lookup fails. The object directory is never reached. |
| `NdkBuild.AdditionalModuleFallbackIsDead` | src/main/java/com/simpligility/maven/plugins/androidndk/phase05compile/NdkBuildMojo.java:588-594 | As written, the additional-module lookup equals the library-directory lookup alone: the object-directory branch never changes the result. |
| `NdkBuild.AdditionalModuleOnlyInObjects` | src/main/java/com/simpligility/maven/plugins/androidndk/phase05compile/NdkBuildMojo.java:588-594 | A concrete file system: a shared module present only in the object directory is not found as written, and is found by the two-directory lookup. |
| `NdkBuild.ResolveArtifactType` | src/main/java/com/simpligility/maven/plugins/androidndk/phase05compile/NdkBuildMojo.java:979-990 | The type is always `so` or `a`. It is the packaging for an `so` or `a` project. Otherwise it is `so` exactly when the file name ends with `so`. |
| `NdkBuild.FoundLibraryType` | src/main/java/com/simpligility/maven/plugins/androidndk/phase05compile/NdkBuildMojo.java:667-668 | A file the library filter accepted is typed `a` for a static-archive project and `so` otherwise. |
| `NdkBuild.NamedLibraryType` | src/main/java/com/simpligility/maven/plugins/androidndk/phase05compile/NdkBuildMojo.java:749-779 | A file found by name is typed `a` exactly when it is `lib<name>.a`. |
| `NdkBuild.AttachedClassifier` | src/main/java/com/simpligility/maven/plugins/androidndk/phase05compile/NdkBuildMojo.java:643 | The classifier is the ABI with no classifier configured, and `<abi>-<classifier>` with one. |
| `NdkBuild.AttachedClassifierInjective` | src/main/java/com/simpligility/maven/plugins/androidndk/phase05compile/NdkBuildMojo.java:643 | For one ABI, different classifier settings give different attached classifiers. |
| `NdkBuild.AdditionalModuleClassifier` | src/main/java/com/simpligility/maven/plugins/androidndk/phase05compile/NdkBuildMojo.java:599 | The classifier is `<abi>-` followed by the module's classifier, with a null classifier rendered as "null". |
| `NdkBuild.AdditionalModuleClassifierNull` | src/main/java/com/simpligility/maven/plugins/androidndk/phase05compile/NdkBuildMojo.java:599 | A module without a classifier is attached as `<abi>-null`, like one classified "null", and never under the bare ABI. |
| `NdkBuild.PrimaryFiles` | src/main/java/com/simpligility/maven/plugins/androidndk/phase05compile/NdkBuildMojo.java:614-636 | Outside multi-artifact mode exactly one file of the goal's own is attached. |
| `NdkBuild.AttachModulesSucceeds` | src/main/java/com/simpligility/maven/plugins/androidndk/phase05compile/NdkBuildMojo.java:584-603 | The additional-modules loop succeeds exactly when every module's file is found. |
| `NdkBuild.AttachModulesAppends` | src/main/java/com/simpligility/maven/plugins/androidndk/phase05compile/NdkBuildMojo.java:584-603 | A successful loop keeps what was attached before. It appends one attachment per module, in order, with the file found for that module, its resolved type and its classifier. |
| `NdkBuild.AttachModulesClassifiers` | src/main/java/com/simpligility/maven/plugins/androidndk/phase05compile/NdkBuildMojo.java:597-601 | Module `j` is attached under `<abi>-<classifier of module j>`, after everything attached before. |
| `NdkBuild.AttachModulesTypes` | src/main/java/com/simpligility/maven/plugins/androidndk/phase05compile/NdkBuildMojo.java:597-600 | The modules loop only attaches files typed `so` or `a`. |
| `NdkBuild.CompiledAttachmentTypes` | src/main/java/com/simpligility/maven/plugins/androidndk/phase05compile/NdkBuildMojo.java:566-603 | Every attachment of one ABI is typed `so` or `a`. |
| `NdkBuild.SingleModeAttachments` | src/main/java/com/simpligility/maven/plugins/androidndk/phase05compile/NdkBuildMojo.java:566-603 | Outside multi-artifact mode, one ABI attaches first the goal's one file under `<abi>` or `<abi>-<classifier>`. Then it attaches one file per additional module, in order, under `<abi>-<module classifier>`. |
| `NdkBuild.MissingModuleFails` | src/main/java/com/simpligility/maven/plugins/androidndk/phase05compile/NdkBuildMojo.java:586-594 | A module missing from the library directory fails the goal, as `nativeLibraryFromName` throws, even when the object directory holds it. |
| `NdkBuild.ProcessCompiledArtifacts` | src/main/java/com/simpligility/maven/plugins/androidndk/phase05compile/NdkBuildMojo.java:566-636 | The step-by-step method attaches exactly the specified attachments, failures included, with the modules looked up as written. Its classifier list is theirs. |
| `NdkBuild.AttachArtifactFiles` | src/main/java/com/simpligility/maven/plugins/androidndk/phase05compile/NdkBuildMojo.java:614-646 | Attaches each of the goal's files in order with its type and classifier, collecting the classifiers. |
| `NdkBuild.AttachAdditionallyBuiltModules` | src/main/java/com/simpligility/maven/plugins/androidndk/phase05compile/NdkBuildMojo.java:584-603 | The loop, with the library-directory lookup and its `exists()` fallback as written, answers the specified modules loop. It keeps the classifier list in step with the attachments. |
| `NdkBuild.AttachModulesLookupsAgree` | src/main/java/com/simpligility/maven/plugins/androidndk/phase05compile/NdkBuildMojo.java:584-603 | Two lookups that agree wherever the first finds a file give the same successful modules loop. |
| `NdkBuild.AsWrittenAttachmentsAreIntended` | src/main/java/com/simpligility/maven/plugins/androidndk/phase05compile/NdkBuildMojo.java:584-603 | Every successful as-written attachment list is also what the intended object-directory fallback attaches. The two differ only where the goal fails on a module missing from the library directory. |
| `NdkBuild.MergedContents` | src/main/java/com/simpligility/maven/plugins/androidndk/phase05compile/NdkBuildMojo.java:957-970 | Merging keeps the target as a prefix. An artifact ends up in the result exactly when it was in the target, or is in the source and is not the project's own. |
| `NdkBuild.MergedDistinct` | src/main/java/com/simpligility/maven/plugins/androidndk/phase05compile/NdkBuildMojo.java:937-969 | Merging into a set keeps it free of duplicates. |
| `NdkBuild.ArtifactSet.constructor` | src/main/java/com/simpligility/maven/plugins/androidndk/phase05compile/NdkBuildMojo.java:937 | A new insertion-ordered set is empty. |
| `NdkBuild.ArtifactSet.Add` | src/main/java/com/simpligility/maven/plugins/androidndk/phase05compile/NdkBuildMojo.java:967 | A new member goes to the end. A present member is left where it is. |
| `NdkBuild.FilterNativeDependencies` | src/main/java/com/simpligility/maven/plugins/androidndk/phase05compile/NdkBuildMojo.java:957-970 | The set afterwards is the specified merge of the source into it, skipping the project's own artifacts. |
| `NdkBuild.FindNativeLibraryDependencies` | src/main/java/com/simpligility/maven/plugins/androidndk/phase05compile/NdkBuildMojo.java:931-944 | The result is the static dependencies merged first, then the shared ones. |
| `NdkBuild.NativeLibraryDependencies` | src/main/java/com/simpligility/maven/plugins/androidndk/phase05compile/NdkBuildMojo.java:931-970 | The merged dependencies are exactly the static and shared ones that are not the project's own, each once, with the static ones first. |
| `NdkBuild.ConfigureMakefile` | src/main/java/com/simpligility/maven/plugins/androidndk/phase05compile/NdkBuildMojo.java:476-490 | Adds `APP_BUILD_SCRIPT=<makefile>` when one is configured. It fails when that file, relative to the project directory, does not exist. |
| `NdkBuild.ConfigureApplicationMakefile` | src/main/java/com/simpligility/maven/plugins/androidndk/phase05compile/NdkBuildMojo.java:513-526 | Adds `NDK_APPLICATION_MK=<file>` when one is configured. It fails when that file does not exist. |
| `NdkBuild.ConfigureNdkToolchain` | src/main/java/com/simpligility/maven/plugins/androidndk/phase05compile/NdkBuildMojo.java:539-561 | Adds the configured toolchain unchecked. Otherwise it adds the resolved toolchain and `APP_ABI=<abi>`, or fails with the resolver's error. |
| `NdkBuild.BuildCommandLine` | src/main/java/com/simpligility/maven/plugins/androidndk/phase05compile/NdkBuildMojo.java:421-439 | The step-by-step command list equals the specified argument list, or its first error. |
| `NdkBuild.CommandLineFailures` | src/main/java/com/simpligility/maven/plugins/androidndk/phase05compile/NdkBuildMojo.java:476-561 | The command line fails exactly in three cases: a configured makefile is missing, a configured application makefile is missing, or no toolchain is configured and none resolves. A missing makefile is reported first. |
| `NdkBuild.CommandLineLayout` | src/main/java/com/simpligility/maven/plugins/androidndk/phase05compile/NdkBuildMojo.java:421-439 | The list starts with `-C <working directory>`. Then come the space-split extra arguments, then `NDK_LIBS_OUT`, then `NDK_OUT`. The target, or `all`, is last. |
| `NdkBuild.CommandLineToolchain` | src/main/java/com/simpligility/maven/plugins/androidndk/phase05compile/NdkBuildMojo.java:539-561 | A configured toolchain makes the command line independent of the NDK and the mappings, and adds only `NDK_TOOLCHAIN=`. Otherwise `NDK_TOOLCHAIN=<resolved>` is followed by `APP_ABI=<abi>`, at the same position. |
| `NdkBuild.HeaderFilesDirectives` | src/main/java/com/simpligility/maven/plugins/androidndk/phase05compile/NdkBuildMojo.java:832-873 | The step-by-step directive list equals the specified one. |
| `NdkBuild.LocalIncludeHeaderDirectives` | src/main/java/com/simpligility/maven/plugins/androidndk/phase05compile/NdkBuildMojo.java:844-852 | There is one directive per `LOCAL_C_INCLUDES` entry, in order, each relative to the project directory with `**/*.h`. |
| `NdkBuild.LocalIncludesDirectives` | src/main/java/com/simpligility/maven/plugins/androidndk/phase05compile/NdkBuildMojo.java:837-853 | A non-blank `LOCAL_C_INCLUDES` gives at least one directive, one per space-separated entry. The fallback is never used. |
| `NdkBuild.HeaderDirectivesFallback` | src/main/java/com/simpligility/maven/plugins/androidndk/phase05compile/NdkBuildMojo.java:862-873 | Selected directives are kept as they are. The `jni` fallback is used when nothing was selected and the folder exists. The result is empty exactly when neither holds. |
| `NdkBuild.ConfiguredDirectives` | src/main/java/com/simpligility/maven/plugins/androidndk/phase05compile/NdkBuildMojo.java:837-861 | Without `useLocalSrcIncludePaths` non-empty configured directives are archived as they are. With it they are ignored. |
| `Text.JavaSplit` | src/main/java/com/simpligility/maven/plugins/androidndk/phase05compile/NdkBuildMojo.java:508 | Without the separator the input is the single piece. Otherwise the result is all the pieces with exactly the trailing empty ones dropped: it is a prefix of them, its last piece is not empty, and every dropped piece is empty. No piece holds the separator. |
| `Text.SplitOnJoin` | src/main/java/com/simpligility/maven/plugins/androidndk/phase05compile/NdkBuildMojo.java:508 | Splitting loses nothing: joining the pieces with the separator gives the input back. |
| `Text.JavaSplitNonBlank` | src/main/java/com/simpligility/maven/plugins/androidndk/phase05compile/NdkBuildMojo.java:842-844 | A string that is not blank after `trim()` splits on spaces into at least one piece. |
| `Text.TrimEmptyIffBlank` | src/main/java/com/simpligility/maven/plugins/androidndk/phase05compile/NdkBuildMojo.java:842 | `trim().isEmpty()` holds exactly when every character is at most U+0020. |
| `Text.RemoveExtension` | src/main/java/com/simpligility/maven/plugins/androidndk/phase05compile/MakefileHelper.java:464 | A name without `.` is kept. Otherwise the result is the part before the last `.`. |
| `Text.NatToString` | src/main/java/com/simpligility/maven/plugins/androidndk/phase05compile/NdkBuildMojo.java:532 | Decimal digits only, at least one, with no leading zero. |
| `Text.NatToStringValue` | src/main/java/com/simpligility/maven/plugins/androidndk/phase05compile/NdkBuildMojo.java:532 | The rendering denotes the number: reading its digits back as a decimal gives `n`. |

## Left out

- I/O is not modelled. The file system and directory listings are independent snapshots (`FileSystem`, and `listing` as a function from directory to an optional name list). The model does not say that the two agree, or how a listing changes over time.
- Running `ndk-build` through `CommandExecutor`, the environment variables it sets, and `systemProperties` are left out (external process I/O). So are `setupNativeLibraryEnvironment` and `resolveNdkBuildExecutable`.
- The `execute` loop over the ABIs, `getAndroidNdk`, `getAndroidNdkHomeOrThrow` and `compileForArchitecture`'s file writing are Maven plumbing. From `compileForArchitecture` only the command-list order is kept (`BuildCommandLine`).
- The header archive itself is not modelled: `createHeaderArchive`, with `MavenArchiver`/`JarArchiver`, is a foreign library. The model stops at the directive list it is given (`FinalHeaderFilesDirectives`) and at the classifiers it attaches under (`ProcessCompiledArtifacts`' second result).
- `projectHelper.attachArtifact` is recorded as an `Attachment` value, not performed.
- Loading the capture file with `Properties.load` is left out (I/O). The `LOCAL_C_INCLUDES` value read from it is a parameter of `HeaderFilesDirectives`.
- The warnings regular expression and `Matcher.matches` form an opaque predicate. The default pattern is not interpreted.
- `Runtime.availableProcessors()` and `SystemUtils.IS_OS_WINDOWS` are parameters (`processors`, `isWindows`).
- `HeaderFilesDirective.java` is not part of this model. A directive is a record of directory, includes and excludes, and the goal's own directives have no excludes.
- The collaborators of the makefile generator are fields of `Collaborators` with no behaviour of their own: artifact resolution, `JarHelper.unjar`, bundle unpacking, `NativeHelper.extractArchitectureFromArtifact` and `listNativeFiles`, `FileUtils.deleteDirectory`. A resolution or extraction that throws is a `None` or `false` answer.
- `System.currentTimeMillis()` is the `clock` oracle. Include-directory names are not proved distinct, and `deleteOnExit` is not modelled.
- Logging is left out, including the `logErrors` flag of `nativeLibraryFromName`, which only chooses whether to log before throwing.
- `NdkBuildMojo` calls a five-argument `MakefileHelper` constructor, a four-argument `createMakefileFromArtifacts` and a `MakefileHolder` type. `MakefileHelper.java` declares none of these; it is modelled as declared, with a `Request` value for `MakefileRequest`.
- The `LibraryDetails` object that `processBundledLibraries` overwrites field by field is a fresh value per file, since nothing keeps a reference to it between iterations.
- Java `HashSet` iteration order is not modelled: `get*LibraryList` is proved to render some enumeration of the set. Set iteration over the request's artifacts, and `Set<Artifact>` iteration in the dependency merge, are sequences in iteration order. `Artifact` equality is structural.
- `File` paths are `parent + "/" + name`; Java's path normalisation and `getAbsolutePath` are not modelled.
- In multi-artifact mode a null listing makes `Arrays.asList` throw a `NullPointerException`. This is the `NoListing` error, and its message is `null`, as that exception has none.
- `validateMakefile` (an empty method), `NdkCleanMojo` (an empty `execute`) and the plain beans `AdditionallyBuiltModule`/`IgnoreHeaderFilesArchive` carry no behaviour. Only the module's name and classifier are fields here.
- `MIPS_64_TOOLCHAIN` is declared but no lookup reads it, as in the code: `mips64` resolves through the `mips` branch.

## Findings

| source | as written | input that shows it | evidently intended | confidence | as-written member | corrected member |
|---|---|---|---|---|---|---|
| src/main/java/com/simpligility/maven/plugins/androidndk/phase05compile/NdkBuildMojo.java:588-594 | Each additional module is looked up with `nativeLibraryFromName(true, nativeLibraryDirectory, name)`, which throws when the file is absent, so the following `exists()` test is always true and the object-directory fallback is dead. | Project packaging `jar`, module `m`, with `libm.so` present only in the object directory (`/o/libm.so`), library directory `/l`: the goal fails with "Could not locate final native library" instead of attaching `/o/libm.so`. | Fall back to the object directory when the library directory has no file, as the three-argument `nativeLibraryFromName` does for `finalLibraryName`. | not executed | `NdkBuild.AdditionalModuleOnlyInObjects` | `NdkBuild.NativeLibraryFromDirectories` |

The as-written lookup is `NdkBuild.AdditionalModuleFileAsWritten`. `NdkBuild.AdditionalModuleFallbackIsDead` proves that it is always the library-directory lookup alone. The goal model, meaning `ModuleLookup`, `CompiledAttachments`, `AttachAdditionallyBuiltModules` and `ProcessCompiledArtifacts`, uses it as written. The corrected two-directory lookup is `IntendedModuleLookup`, and `IntendedCompiledAttachments` uses it. `NdkBuild.AsWrittenAttachmentsAreIntended` proves that the two agree wherever the as-written goal succeeds.
