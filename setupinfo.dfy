/** Build configuration of the lxml extension modules (setupinfo.py): the
    include directories, library directories and compiler flags taken from the
    `xslt-config` tool or from the caller's static lists, the optional macro,
    and one extension descriptor per module.

    The module-level options `OPTION_*` become an `Options` value, the probe for
    Pyrex becomes the flag `pyrexInstalled`, and each run of the config tool
    becomes the sequence of tokens it printed: `cflagsOutput` for
    `xslt-config --cflags`, `libsOutput` for `xslt-config --libs`. A failed
    `assert` becomes an `Err` result. */
module SetupInfo {
  import opened TokenFilter

  datatype Option<T> = None | Some(value: T)

  datatype Result<T> = Ok(value: T) | Err(msg: string)

  /** The message of the assertion that guards every static list. */
  const StaticNotConfigured: string := "Static build not configured, see doc/build.txt"

  /** The command-line switches `--without-assert`, `--static`, `--debug-gcc`
      and `--auto-rpath`. */
  datatype Options = Options(withoutAssert: bool, staticBuild: bool, debugGcc: bool, autoRpath: bool)

  /** A `(name, value)` pair of `define_macros`; `None` means no value. */
  datatype Macro = Macro(name: string, value: Option<string>)

  /** The fields of a setuptools `Extension` that the build script sets. */
  datatype Extension = Extension(
    name: string,
    sources: seq<string>,
    extraCompileArgs: seq<string>,
    defineMacros: seq<Macro>,
    includeDirs: seq<string>,
    libraryDirs: seq<string>,
    runtimeLibraryDirs: seq<string>,
    libraries: seq<string>)

  /** An entry of `EXT_MODULES`: the source file stem and the package name. */
  datatype ExtModule = ExtModule(stem: string, package: string)

  const ExtModules: seq<ExtModule> := [
    ExtModule("etree", "lxml.etree"),
    ExtModule("objectify", "lxml.objectify")
  ]

  const Libraries: seq<string> := ["xslt", "exslt", "xml2", "z", "m"]

  const SourceDir: string := "src/lxml/"

  function SourceExtension(pyrexInstalled: bool): string {
    if pyrexInstalled then ".pyx" else ".c"
  }

  /** The flag that `--debug-gcc` puts in front of the compiler flags. */
  function DebugFlags(opts: Options): seq<string> {
    if opts.debugGcc then ["-g2"] else []
  }

  /** Whether every static list that a static build needs is non-empty. */
  predicate StaticConfigured(opts: Options, staticIncludeDirs: seq<string>,
                             staticLibraryDirs: seq<string>, staticCflags: seq<string>)
  {
    !opts.staticBuild || (staticIncludeDirs != [] && staticLibraryDirs != [] && staticCflags != [])
  }

  /** The include directories of a successful configuration. */
  function ConfiguredIncludeDirs(opts: Options, staticIncludeDirs: seq<string>,
                                 cflagsOutput: seq<string>): seq<string>
  {
    if opts.staticBuild then staticIncludeDirs else Selected(cflagsOutput, "-I")
  }

  /** The library directories of a successful configuration. */
  function ConfiguredLibraryDirs(opts: Options, staticLibraryDirs: seq<string>,
                                 libsOutput: seq<string>): seq<string>
  {
    if opts.staticBuild then staticLibraryDirs else Selected(libsOutput, "-L")
  }

  /** The compiler flags of a successful configuration. */
  function ConfiguredCflags(opts: Options, staticCflags: seq<string>,
                            cflagsOutput: seq<string>): seq<string>
  {
    DebugFlags(opts) + (if opts.staticBuild then staticCflags else Unselected(cflagsOutput, "-I"))
  }

  /** `include_dirs`: the static list in a static build (an error when it is
      empty), otherwise the `-I` tokens of `xslt-config --cflags`, stripped. */
  method IncludeDirs(opts: Options, staticIncludeDirs: seq<string>, cflagsOutput: seq<string>)
    returns (r: Result<seq<string>>)
    ensures opts.staticBuild && staticIncludeDirs == [] ==> r == Err(StaticNotConfigured)
    ensures opts.staticBuild && staticIncludeDirs != [] ==> r == Ok(staticIncludeDirs)
    ensures !opts.staticBuild ==> r == Ok(Selected(cflagsOutput, "-I"))
  {
    if opts.staticBuild {
      if staticIncludeDirs == [] {
        return Err(StaticNotConfigured);
      }
      return Ok(staticIncludeDirs);
    }
    var result: seq<string> := [];
    for i := 0 to |cflagsOutput|
      invariant result == Selected(cflagsOutput[..i], "-I")
    {
      var token := cflagsOutput[i];
      if StartsWith(token, "-I") {
        result := result + [token[2..]];
      }
      assert cflagsOutput[..i + 1][..i] == cflagsOutput[..i];
    }
    assert cflagsOutput[..|cflagsOutput|] == cflagsOutput;
    return Ok(result);
  }

  /** `library_dirs`: the static list in a static build (an error when it is
      empty), otherwise the `-L` tokens of `xslt-config --libs`, stripped. */
  method LibraryDirs(opts: Options, staticLibraryDirs: seq<string>, libsOutput: seq<string>)
    returns (r: Result<seq<string>>)
    ensures opts.staticBuild && staticLibraryDirs == [] ==> r == Err(StaticNotConfigured)
    ensures opts.staticBuild && staticLibraryDirs != [] ==> r == Ok(staticLibraryDirs)
    ensures !opts.staticBuild ==> r == Ok(Selected(libsOutput, "-L"))
  {
    if opts.staticBuild {
      if staticLibraryDirs == [] {
        return Err(StaticNotConfigured);
      }
      return Ok(staticLibraryDirs);
    }
    var result: seq<string> := [];
    for i := 0 to |libsOutput|
      invariant result == Selected(libsOutput[..i], "-L")
    {
      var token := libsOutput[i];
      if StartsWith(token, "-L") {
        result := result + [token[2..]];
      }
      assert libsOutput[..i + 1][..i] == libsOutput[..i];
    }
    assert libsOutput[..|libsOutput|] == libsOutput;
    return Ok(result);
  }

  /** `cflags`: `-g2` when `--debug-gcc` is set, followed by the static flags
      in a static build (an error when they are empty), otherwise by every
      token of `xslt-config --cflags` that does not start with `-I`. */
  method Cflags(opts: Options, staticCflags: seq<string>, cflagsOutput: seq<string>)
    returns (r: Result<seq<string>>)
    ensures opts.staticBuild && staticCflags == [] ==> r == Err(StaticNotConfigured)
    ensures opts.staticBuild && staticCflags != [] ==> r == Ok(DebugFlags(opts) + staticCflags)
    ensures !opts.staticBuild ==> r == Ok(DebugFlags(opts) + Unselected(cflagsOutput, "-I"))
  {
    var result: seq<string> := [];
    if opts.debugGcc {
      result := result + ["-g2"];
    }
    assert result == DebugFlags(opts);
    if opts.staticBuild {
      if staticCflags == [] {
        return Err(StaticNotConfigured);
      }
      result := result + staticCflags;
      return Ok(result);
    }
    ghost var debug := result;
    for i := 0 to |cflagsOutput|
      invariant result == debug + Unselected(cflagsOutput[..i], "-I")
    {
      var token := cflagsOutput[i];
      if !StartsWith(token, "-I") {
        result := result + [token];
      }
      assert cflagsOutput[..i + 1][..i] == cflagsOutput[..i];
    }
    assert cflagsOutput[..|cflagsOutput|] == cflagsOutput;
    return Ok(result);
  }

  /** `define_macros`: the single valueless macro `PYREX_WITHOUT_ASSERTIONS`
      when `--without-assert` is set, and no macro otherwise. */
  function DefineMacros(opts: Options): (r: seq<Macro>)
    ensures |r| <= 1
    ensures r != [] <==> opts.withoutAssert
    ensures forall m :: m in r ==> m.name == "PYREX_WITHOUT_ASSERTIONS" && m.value == None
  {
    if opts.withoutAssert then [Macro("PYREX_WITHOUT_ASSERTIONS", None)] else []
  }

  /** `ext_modules`: one descriptor per entry of `ExtModules`, in order, all
      sharing the configured directories, flags and macros; an error when a
      static build lacks one of its static lists. */
  method ExtModulesFor(opts: Options, pyrexInstalled: bool,
                       staticIncludeDirs: seq<string>, staticLibraryDirs: seq<string>,
                       staticCflags: seq<string>,
                       cflagsOutput: seq<string>, libsOutput: seq<string>)
    returns (r: Result<seq<Extension>>)
    ensures r.Err? <==> !StaticConfigured(opts, staticIncludeDirs, staticLibraryDirs, staticCflags)
    ensures r.Err? ==> r.msg == StaticNotConfigured
    ensures r.Ok? ==> |r.value| == |ExtModules|
    ensures r.Ok? ==> forall i :: 0 <= i < |r.value| ==>
              && r.value[i].name == ExtModules[i].package
              && r.value[i].sources == [SourceDir + ExtModules[i].stem + SourceExtension(pyrexInstalled)]
    ensures r.Ok? ==> forall e :: e in r.value ==>
              && e.extraCompileArgs == ["-w"] + ConfiguredCflags(opts, staticCflags, cflagsOutput)
              && e.defineMacros == DefineMacros(opts)
              && e.includeDirs == ConfiguredIncludeDirs(opts, staticIncludeDirs, cflagsOutput)
              && e.libraryDirs == ConfiguredLibraryDirs(opts, staticLibraryDirs, libsOutput)
              && e.runtimeLibraryDirs == (if opts.autoRpath then e.libraryDirs else [])
              && e.libraries == Libraries
  {
    var sourceExtension := SourceExtension(pyrexInstalled);
    var includeDirs := IncludeDirs(opts, staticIncludeDirs, cflagsOutput);
    if includeDirs.Err? {
      return Err(includeDirs.msg);
    }
    var libraryDirs := LibraryDirs(opts, staticLibraryDirs, libsOutput);
    if libraryDirs.Err? {
      return Err(libraryDirs.msg);
    }
    var cflags := Cflags(opts, staticCflags, cflagsOutput);
    if cflags.Err? {
      return Err(cflags.msg);
    }
    var defineMacros := DefineMacros(opts);
    var runtimeLibraryDirs := if opts.autoRpath then libraryDirs.value else [];

    var result: seq<Extension> := [];
    for i := 0 to |ExtModules|
      invariant |result| == i
      invariant forall k :: 0 <= k < i ==>
                  result[k] == Extension(
                    ExtModules[k].package,
                    [SourceDir + ExtModules[k].stem + sourceExtension],
                    ["-w"] + cflags.value,
                    defineMacros,
                    includeDirs.value,
                    libraryDirs.value,
                    runtimeLibraryDirs,
                    Libraries)
    {
      var entry := ExtModules[i];
      result := result + [Extension(
        entry.package,
        sources := [SourceDir + entry.stem + sourceExtension],
        extraCompileArgs := ["-w"] + cflags.value,
        defineMacros := defineMacros,
        includeDirs := includeDirs.value,
        libraryDirs := libraryDirs.value,
        runtimeLibraryDirs := runtimeLibraryDirs,
        libraries := Libraries)];
    }
    return Ok(result);
  }

  /** In a configured-by-tool build, every token of `xslt-config --cflags`
      becomes either an include directory or a compiler flag, never both and
      never neither; the optional `-g2` is the only flag not from the tool.
      The k-th include directory is the k-th `-I` token without its prefix,
      and the k-th flag after `-g2` is the k-th other token, unchanged. */
  lemma CflagsPartitionTokens(opts: Options, staticIncludeDirs: seq<string>,
                              staticCflags: seq<string>, cflagsOutput: seq<string>)
    requires !opts.staticBuild
    ensures |ConfiguredIncludeDirs(opts, staticIncludeDirs, cflagsOutput)|
            + |ConfiguredCflags(opts, staticCflags, cflagsOutput)| - |DebugFlags(opts)|
            == |cflagsOutput|
    ensures forall i :: 0 <= i < |cflagsOutput| ==>
              (i in Indices(cflagsOutput, "-I", true) <==> StartsWith(cflagsOutput[i], "-I"))
              && (i in Indices(cflagsOutput, "-I", false) <==> !StartsWith(cflagsOutput[i], "-I"))
    ensures forall k :: 0 <= k < |ConfiguredIncludeDirs(opts, staticIncludeDirs, cflagsOutput)| ==>
              && k < |Indices(cflagsOutput, "-I", true)|
              && Indices(cflagsOutput, "-I", true)[k] < |cflagsOutput|
              && "-I" + ConfiguredIncludeDirs(opts, staticIncludeDirs, cflagsOutput)[k]
                 == cflagsOutput[Indices(cflagsOutput, "-I", true)[k]]
    ensures forall k :: |DebugFlags(opts)| <= k < |ConfiguredCflags(opts, staticCflags, cflagsOutput)| ==>
              && k - |DebugFlags(opts)| < |Indices(cflagsOutput, "-I", false)|
              && Indices(cflagsOutput, "-I", false)[k - |DebugFlags(opts)|] < |cflagsOutput|
              && ConfiguredCflags(opts, staticCflags, cflagsOutput)[k]
                 == cflagsOutput[Indices(cflagsOutput, "-I", false)[k - |DebugFlags(opts)|]]
  {
    Partition(cflagsOutput, "-I");
    IndicesExact(cflagsOutput, "-I", true);
    IndicesExact(cflagsOutput, "-I", false);
    SelectedAt(cflagsOutput, "-I");
    UnselectedAt(cflagsOutput, "-I");
  }
}
