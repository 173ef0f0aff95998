/**
 * `SymbolicExpressionBackend.create_initial_config`: the backend's initial
 * configuration dictionary, with the HLS include and library directories
 * inferred from the compiler's location when they are not given.
 *
 * The two environment calls become parameters: `probeOutput` is what the
 * shell probe `command -v <compiler>` printed (before `strip()`), and
 * `pathExists` answers `os.path.exists` for a path. Every question put to them is
 * recorded, in order, as a `Probe`.
 */
module Toolchain {
  import opened Wrappers
  import opened Text

  const DefaultPart: string := "xcvu9p-flga2577-2-e"
  const DefaultCompiler: string := "vivado_hls"
  /** Marker file expected inside the include directory. */
  const HeaderMarker: string := "/hls_math.h"
  /** Marker file expected inside the library directory. */
  const LibraryMarker: string := "/lib/csim/libhlsmc++-GCC46.so"

  /** A value stored in the configuration dictionary. */
  datatype Value = Str(s: string) | Int(i: int) | Dict(entries: map<string, Value>)

  type Config = map<string, Value>

  /** The keys `create_initial_config` puts in the dictionary. */
  const ConfigKeys: set<string> :=
    {"Part", "ClockPeriod", "IOType", "Compiler", "HLSIncludePath", "HLSLibsPath", "HLSConfig"}

  /** The two exceptions `create_initial_config` raises. */
  datatype ConfigError = HeaderFilesNotFound | LibrariesNotFound
  {
    function Message(): string
    {
      match this
      case HeaderFilesNotFound =>
        "Vivado HLS header files not found. Make sure you pass the proper path to the \"include\" directory (for example \"/opt/Xilinx/Vivado/2020.1/include\")."
      case LibrariesNotFound =>
        "Vivado HLS libraries not found. Make sure you pass the proper path to the \"lnx64\" directory (for example \"/opt/Xilinx/Vivado/2020.1/lnx64\")."
    }
  }

  /** A question put to the environment: a shell probe, or an existence test on a path. */
  datatype Probe = RunCommand(command: string) | PathExists(path: string)

  /** The arguments of `create_initial_config`; `None` stands for Python's `None`. */
  datatype ConfigArgs = ConfigArgs(
    part: Option<string>,
    clockPeriod: int,
    ioType: string,
    compiler: Option<string>,
    includePath: Option<string>,
    libsPath: Option<string>)

  /** The keyword defaults of `create_initial_config`, the arguments of a call that passes none. */
  const DefaultConfigArgs: ConfigArgs :=
    ConfigArgs(Some(DefaultPart), 5, "io_parallel", Some(DefaultCompiler), None, None)

  /** Python truthiness of an optional string: neither `None` nor empty. */
  predicate Truthy(p: Option<string>)
  {
    p.Some? && p.value != ""
  }

  /** How an f-string renders an optional string: `None` becomes the text `None`. */
  function FormatOptional(p: Option<string>): string
  {
    match p
    case Some(s) => s
    case None => "None"
  }

  /** The shell probe that locates the compiler; it uses the raw `compiler` argument. */
  function ProbeCommand(compiler: Option<string>): string
  {
    "command -v " + FormatOptional(compiler)
  }

  /** The segment of the compiler's path that the derivation replaces; it uses the raw `compiler` argument. */
  function BinSegment(compiler: Option<string>): string
  {
    "/bin/" + FormatOptional(compiler)
  }

  /** A directory derived from the stripped probe output by replacing every bin segment with `sibling`. */
  function DerivedPath(probeOutput: string, compiler: Option<string>, sibling: string): string
  {
    ReplaceAll(Strip(probeOutput), BinSegment(compiler), sibling)
  }

  /** The include directory the configuration ends up with: the given one, or the derived one. */
  function IncludePathOf(a: ConfigArgs, probeOutput: string): string
  {
    match a.includePath
    case Some(p) => p
    case None => DerivedPath(probeOutput, a.compiler, "/include")
  }

  /** The library directory the configuration ends up with: the given one, or the derived one. */
  function LibsPathOf(a: ConfigArgs, probeOutput: string): string
  {
    match a.libsPath
    case Some(p) => p
    case None => DerivedPath(probeOutput, a.compiler, "/lnx64")
  }

  /** The include directory was derived and its marker header is missing. */
  predicate IncludeCheckFails(a: ConfigArgs, probeOutput: string, pathExists: string -> bool)
  {
    a.includePath.None? && !pathExists(IncludePathOf(a, probeOutput) + HeaderMarker)
  }

  /** The library directory was derived and its marker library is missing. */
  predicate LibsCheckFails(a: ConfigArgs, probeOutput: string, pathExists: string -> bool)
  {
    a.libsPath.None? && !pathExists(LibsPathOf(a, probeOutput) + LibraryMarker)
  }

  /** The dictionary returned when no check fails. */
  function ConfigOf(a: ConfigArgs, probeOutput: string): Config
  {
    map[
      "Part" := Str(a.part.GetOr(DefaultPart)),
      "ClockPeriod" := Int(a.clockPeriod),
      "IOType" := Str(a.ioType),
      "Compiler" := Str(a.compiler.GetOr(DefaultCompiler)),
      "HLSIncludePath" := Str(IncludePathOf(a, probeOutput)),
      "HLSLibsPath" := Str(LibsPathOf(a, probeOutput)),
      "HLSConfig" := Dict(map[])]
  }

  /** The outcome of `create_initial_config`, stated declaratively: the include check decides first. */
  function InitialConfig(a: ConfigArgs, probeOutput: string, pathExists: string -> bool): Result<Config, ConfigError>
  {
    if IncludeCheckFails(a, probeOutput, pathExists) then Failure(HeaderFilesNotFound)
    else if LibsCheckFails(a, probeOutput, pathExists) then Failure(LibrariesNotFound)
    else Success(ConfigOf(a, probeOutput))
  }

  /**
   * The questions `create_initial_config` puts to the environment, in order:
   * none when both paths are truthy; otherwise the probe, then the existence
   * test for each derived directory, stopping at the first that fails.
   */
  function ConfigProbes(a: ConfigArgs, probeOutput: string, pathExists: string -> bool): seq<Probe>
  {
    if Truthy(a.includePath) && Truthy(a.libsPath) then []
    else
      [RunCommand(ProbeCommand(a.compiler))]
      + (if a.includePath.None? then [PathExists(IncludePathOf(a, probeOutput) + HeaderMarker)] else [])
      + (if IncludeCheckFails(a, probeOutput, pathExists) || a.libsPath.Some? then []
         else [PathExists(LibsPathOf(a, probeOutput) + LibraryMarker)])
  }

  /** Filling the dictionary key by key, in the code's order, gives `ConfigOf`. */
  lemma FilledInOrder(a: ConfigArgs, probeOutput: string)
    ensures map[]
      ["Part" := Str(if a.part.Some? then a.part.value else DefaultPart)]
      ["ClockPeriod" := Int(a.clockPeriod)]
      ["IOType" := Str(a.ioType)]
      ["Compiler" := Str(if a.compiler.Some? then a.compiler.value else DefaultCompiler)]
      ["HLSIncludePath" := Str(IncludePathOf(a, probeOutput))]
      ["HLSLibsPath" := Str(LibsPathOf(a, probeOutput))]
      ["HLSConfig" := Dict(map[])]
      == ConfigOf(a, probeOutput)
  {
  }

  /**
   * `create_initial_config` as the code runs it: the dictionary filled key by
   * key, the two paths rebound inside the inference branch, an early exit on
   * each failed check.
   */
  method CreateInitialConfig(
    part: Option<string>, clockPeriod: int, ioType: string, compiler: Option<string>,
    hlsIncludePath: Option<string>, hlsLibsPath: Option<string>,
    probeOutput: string, pathExists: string -> bool)
    returns (r: Result<Config, ConfigError>, probes: seq<Probe>)
    ensures var a := ConfigArgs(part, clockPeriod, ioType, compiler, hlsIncludePath, hlsLibsPath);
            r == InitialConfig(a, probeOutput, pathExists) && probes == ConfigProbes(a, probeOutput, pathExists)
  {
    ghost var a := ConfigArgs(part, clockPeriod, ioType, compiler, hlsIncludePath, hlsLibsPath);
    probes := [];
    var config: Config := map[];
    config := config["Part" := Str(if part.Some? then part.value else DefaultPart)];
    config := config["ClockPeriod" := Int(clockPeriod)];
    config := config["IOType" := Str(ioType)];
    config := config["Compiler" := Str(if compiler.Some? then compiler.value else DefaultCompiler)];
    var includePath, libsPath := hlsIncludePath, hlsLibsPath;
    if !(Truthy(includePath) && Truthy(libsPath)) {
      probes := probes + [RunCommand("command -v " + FormatOptional(compiler))];
      var binPath := Strip(probeOutput);
      if includePath.None? {
        includePath := Some(ReplaceAll(binPath, "/bin/" + FormatOptional(compiler), "/include"));
        assert includePath.value == IncludePathOf(a, probeOutput);
        probes := probes + [PathExists(includePath.value + HeaderMarker)];
        if !pathExists(includePath.value + HeaderMarker) {
          assert IncludeCheckFails(a, probeOutput, pathExists);
          return Failure(HeaderFilesNotFound), probes;
        }
      }
      assert !IncludeCheckFails(a, probeOutput, pathExists);
      if libsPath.None? {
        libsPath := Some(ReplaceAll(binPath, "/bin/" + FormatOptional(compiler), "/lnx64"));
        assert libsPath.value == LibsPathOf(a, probeOutput);
        probes := probes + [PathExists(libsPath.value + LibraryMarker)];
        if !pathExists(libsPath.value + LibraryMarker) {
          assert LibsCheckFails(a, probeOutput, pathExists);
          return Failure(LibrariesNotFound), probes;
        }
      }
      assert !LibsCheckFails(a, probeOutput, pathExists);
    }
    assert includePath == Some(IncludePathOf(a, probeOutput));
    assert libsPath == Some(LibsPathOf(a, probeOutput));
    config := config["HLSIncludePath" := Str(includePath.value)];
    config := config["HLSLibsPath" := Str(libsPath.value)];
    config := config["HLSConfig" := Dict(map[])];
    FilledInOrder(a, probeOutput);
    r := Success(config);
  }

  /**
   * A returned configuration has exactly the seven keys; Part and Compiler
   * fall back to their defaults when `None`, ClockPeriod and IOType are
   * copied as given and HLSConfig is an empty dictionary.
   */
  lemma ConfigShape(a: ConfigArgs, probeOutput: string, pathExists: string -> bool)
    requires InitialConfig(a, probeOutput, pathExists).Success?
    ensures var c := InitialConfig(a, probeOutput, pathExists).value;
      && c.Keys == ConfigKeys
      && c["Part"] == Str(if a.part.None? then DefaultPart else a.part.value)
      && c["Compiler"] == Str(if a.compiler.None? then DefaultCompiler else a.compiler.value)
      && c["ClockPeriod"] == Int(a.clockPeriod)
      && c["IOType"] == Str(a.ioType)
      && c["HLSConfig"] == Dict(map[])
  {
  }

  /**
   * With both paths truthy nothing is asked of the environment, no check can
   * fail, both paths are stored unchanged, and the outcome is the same
   * whatever the environment would have answered.
   */
  lemma ExplicitPathsSkipProbing(a: ConfigArgs, out1: string, exists1: string -> bool, out2: string, exists2: string -> bool)
    requires Truthy(a.includePath) && Truthy(a.libsPath)
    ensures ConfigProbes(a, out1, exists1) == []
    ensures InitialConfig(a, out1, exists1).Success?
    ensures InitialConfig(a, out1, exists1).value["HLSIncludePath"] == Str(a.includePath.value)
    ensures InitialConfig(a, out1, exists1).value["HLSLibsPath"] == Str(a.libsPath.value)
    ensures InitialConfig(a, out1, exists1) == InitialConfig(a, out2, exists2)
  {
  }

  /**
   * A path is derived only when its argument is `None`: a given path, even
   * the empty one, is stored unchanged and never tested, also when the other
   * path makes the backend probe for the compiler.
   */
  lemma GivenPathsKept(a: ConfigArgs, probeOutput: string, pathExists: string -> bool)
    ensures var r := InitialConfig(a, probeOutput, pathExists);
      && (a.includePath.Some? && r.Success? ==> r.value["HLSIncludePath"] == Str(a.includePath.value))
      && (a.libsPath.Some? && r.Success? ==> r.value["HLSLibsPath"] == Str(a.libsPath.value))
    ensures a.includePath.Some? && a.libsPath.Some? ==>
      InitialConfig(a, probeOutput, pathExists).Success?
      && |ConfigProbes(a, probeOutput, pathExists)| <= 1
    ensures a.includePath.Some? ==>
      PathExists(IncludePathOf(a, probeOutput) + HeaderMarker) !in ConfigProbes(a, probeOutput, pathExists)
    ensures a.libsPath.Some? ==>
      PathExists(LibsPathOf(a, probeOutput) + LibraryMarker) !in ConfigProbes(a, probeOutput, pathExists)
  {
    MarkersDiffer(IncludePathOf(a, probeOutput), LibsPathOf(a, probeOutput));
  }

  /** The two marker tests can never name the same path: the markers end differently. */
  lemma MarkersDiffer(includePath: string, libsPath: string)
    ensures includePath + HeaderMarker != libsPath + LibraryMarker
  {
    var h := includePath + HeaderMarker;
    var l := libsPath + LibraryMarker;
    assert h[|h| - 1] == HeaderMarker[|HeaderMarker| - 1] == 'h';
    assert l[|l| - 1] == LibraryMarker[|LibraryMarker| - 1] == 'o';
  }

  /**
   * The probe for the compiler happens exactly when the two paths are not
   * both truthy, and it comes before any existence test.
   */
  lemma ProbeIffPathMissing(a: ConfigArgs, probeOutput: string, pathExists: string -> bool)
    ensures ConfigProbes(a, probeOutput, pathExists) != [] <==> !(Truthy(a.includePath) && Truthy(a.libsPath))
    ensures ConfigProbes(a, probeOutput, pathExists) != [] ==>
      ConfigProbes(a, probeOutput, pathExists)[0] == RunCommand("command -v " + FormatOptional(a.compiler))
  {
  }

  /**
   * A derived include directory is the stripped probe output with every
   * `/bin/<compiler>` replaced by `/include`, where `<compiler>` is the raw
   * argument; its marker header was tested and found.
   */
  lemma DerivedIncludePath(a: ConfigArgs, probeOutput: string, pathExists: string -> bool)
    requires a.includePath.None? && InitialConfig(a, probeOutput, pathExists).Success?
    ensures var p := ReplaceAll(Strip(probeOutput), "/bin/" + FormatOptional(a.compiler), "/include");
      && InitialConfig(a, probeOutput, pathExists).value["HLSIncludePath"] == Str(p)
      && pathExists(p + "/hls_math.h")
      && PathExists(p + "/hls_math.h") in ConfigProbes(a, probeOutput, pathExists)
  {
  }

  /**
   * A derived library directory is the stripped probe output with every
   * `/bin/<compiler>` replaced by `/lnx64`; its marker library was tested and found.
   */
  lemma DerivedLibsPath(a: ConfigArgs, probeOutput: string, pathExists: string -> bool)
    requires a.libsPath.None? && InitialConfig(a, probeOutput, pathExists).Success?
    ensures var p := ReplaceAll(Strip(probeOutput), "/bin/" + FormatOptional(a.compiler), "/lnx64");
      && InitialConfig(a, probeOutput, pathExists).value["HLSLibsPath"] == Str(p)
      && pathExists(p + "/lib/csim/libhlsmc++-GCC46.so")
      && PathExists(p + "/lib/csim/libhlsmc++-GCC46.so") in ConfigProbes(a, probeOutput, pathExists)
  {
  }

  /**
   * When the compiler argument is `None` the probe and the replaced segment
   * spell out `None`, while the stored Compiler is the default.
   */
  lemma NoneCompilerSpelledOut(a: ConfigArgs, probeOutput: string, pathExists: string -> bool)
    requires a.compiler.None?
    ensures ProbeCommand(a.compiler) == "command -v None"
    ensures BinSegment(a.compiler) == "/bin/None"
    ensures InitialConfig(a, probeOutput, pathExists).Success? ==>
      InitialConfig(a, probeOutput, pathExists).value["Compiler"] == Str("vivado_hls")
  {
  }

  /**
   * When the probe output holds no `/bin/<compiler>` (an empty output, for
   * one) the derived directory is the stripped output itself.
   */
  lemma DerivedPathWithoutSegment(probeOutput: string, compiler: Option<string>, sibling: string)
    requires !Contains(Strip(probeOutput), BinSegment(compiler))
    ensures DerivedPath(probeOutput, compiler, sibling) == Strip(probeOutput)
  {
    ReplaceAbsent(Strip(probeOutput), BinSegment(compiler), sibling);
  }

  /**
   * For an installation laid out as `<root>/bin/<compiler>` the derived
   * directories are `<root>/include` and `<root>/lnx64`, provided no
   * `/bin/<compiler>` starts earlier inside `<root>`.
   */
  lemma InstallLayout(root: string, compiler: Option<string>, probeOutput: string)
    requires Strip(probeOutput) == root + BinSegment(compiler)
    requires var seg := BinSegment(compiler); !Contains(root + seg[..|seg| - 1], seg)
    ensures DerivedPath(probeOutput, compiler, "/include") == root + "/include"
    ensures DerivedPath(probeOutput, compiler, "/lnx64") == root + "/lnx64"
  {
    var seg := BinSegment(compiler);
    assert Strip(probeOutput) == root + seg + [];
    ReplaceAfterClearPrefix(root, seg, "/include", []);
    ReplaceAfterClearPrefix(root, seg, "/lnx64", []);
  }

  /**
   * The call fails with the header error exactly when the include directory
   * was derived and lacks its marker; the library directory is then never
   * tested, and no configuration is returned.
   */
  lemma HeaderErrorStopsEarly(a: ConfigArgs, probeOutput: string, pathExists: string -> bool)
    ensures InitialConfig(a, probeOutput, pathExists) == Failure(HeaderFilesNotFound)
      <==> a.includePath.None? && !pathExists(IncludePathOf(a, probeOutput) + HeaderMarker)
    ensures InitialConfig(a, probeOutput, pathExists) == Failure(HeaderFilesNotFound) ==>
      ConfigProbes(a, probeOutput, pathExists)
      == [RunCommand(ProbeCommand(a.compiler)), PathExists(IncludePathOf(a, probeOutput) + HeaderMarker)]
  {
  }

  /**
   * The call fails with the library error exactly when the include check
   * passed (or was not needed), the library directory was derived and lacks
   * its marker; that test is the last question asked.
   */
  lemma LibraryErrorAfterIncludeCheck(a: ConfigArgs, probeOutput: string, pathExists: string -> bool)
    ensures InitialConfig(a, probeOutput, pathExists) == Failure(LibrariesNotFound)
      <==> !IncludeCheckFails(a, probeOutput, pathExists)
           && a.libsPath.None? && !pathExists(LibsPathOf(a, probeOutput) + LibraryMarker)
    ensures InitialConfig(a, probeOutput, pathExists) == Failure(LibrariesNotFound) ==>
      var probes := ConfigProbes(a, probeOutput, pathExists);
      |probes| >= 2 && probes[|probes| - 1] == PathExists(LibsPathOf(a, probeOutput) + LibraryMarker)
  {
  }

  /**
   * A call with every keyword left at its default probes for `vivado_hls`
   * and then tests the derived include directory.
   */
  lemma DefaultCallProbes(probeOutput: string, pathExists: string -> bool)
    ensures var probes := ConfigProbes(DefaultConfigArgs, probeOutput, pathExists);
      && 2 <= |probes| <= 3
      && probes[0] == RunCommand("command -v vivado_hls")
      && probes[1] == PathExists(ReplaceAll(Strip(probeOutput), "/bin/vivado_hls", "/include") + HeaderMarker)
  {
    DefaultCallPaths(probeOutput);
    assert ProbeCommand(DefaultConfigArgs.compiler) == "command -v vivado_hls";
  }

  /**
   * With every keyword left at its default, both directories are derived by
   * replacing `/bin/vivado_hls` in the stripped probe output.
   */
  lemma DefaultCallPaths(probeOutput: string)
    ensures IncludePathOf(DefaultConfigArgs, probeOutput) == ReplaceAll(Strip(probeOutput), "/bin/vivado_hls", "/include")
    ensures LibsPathOf(DefaultConfigArgs, probeOutput) == ReplaceAll(Strip(probeOutput), "/bin/vivado_hls", "/lnx64")
  {
    assert BinSegment(DefaultConfigArgs.compiler) == "/bin/vivado_hls";
  }

  /**
   * A successful call with every keyword left at its default holds a 5 ns
   * clock, `io_parallel`, and the default part and compiler.
   */
  lemma DefaultCallConfig(probeOutput: string, pathExists: string -> bool)
    ensures var r := InitialConfig(DefaultConfigArgs, probeOutput, pathExists);
      r.Success? ==>
        && r.value["ClockPeriod"] == Int(5)
        && r.value["IOType"] == Str("io_parallel")
        && r.value["Part"] == Str("xcvu9p-flga2577-2-e")
        && r.value["Compiler"] == Str("vivado_hls")
  {
  }
}
