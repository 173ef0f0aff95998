# SymbolicExpression backend: configuration, build command and flows

This project models the decision and string logic of hls4ml's
`SymbolicExpressionBackend` (`hls4ml/backends/symbolic/symbolic_backend.py`)
and proves properties of it. It covers three parts:

- **`create_initial_config`** (`toolchain.dfy`). This builds the backend's
  initial configuration dictionary.
  - It applies defaults for `Part` and `Compiler`.
  - When the include or library directory is not given, it derives it from
    the compiler's location. It strips the output of `command -v <compiler>`
    and replaces every `/bin/<compiler>` with `/include` or `/lnx64`.
  - It checks each derived directory for a marker file and raises a distinct
    error for each.
  - It is modelled as a method that fills the dictionary key by key, as the
    code does. The method is proved equal to a declarative function
    (`InitialConfig`) plus the ordered list of questions it puts to the
    environment (`ConfigProbes`).
- **`build`** (`build.dfy`, `settings.dfy`). This covers the installation
  guard and the single shell command it runs. The quoted argument carries the
  seven stage switches as `name=True`/`name=False`.
  - A reader inverts the command. Reading a command back gives exactly the
    switches it was built from, and the only text the reader accepts is a
    command built that way.
  - The argument never holds a double quote, so it reaches the tool as one
    word.
- **`_register_flows`** (`flows.dfy`). These are the four flow declarations
  the backend makes, in order.
  - `list(filter(None, …))` builds the `ip` flow's prerequisites.
  - The backend object keeps two fields, the writer flow and the default flow,
    and its getters return them.

The Python string operations these need are in `text.dfy`: `startswith`,
the substring test `in`, `str.replace` (left to right, non-overlapping) and
`str.strip` over Python's whitespace characters. `wrappers.dfy` holds
`Option` and `Result`.

The environment is passed in as parameters:
- the text printed by the `command -v` probe (`probeOutput`);
- `os.path.exists` (`pathExists`);
- `sys.platform` (`platform`);
- the exit status of the `vivado_hls` probe (`probeStatus`);
- the flow registry's `register_flow` (`register`/`registry`), a function from
  a declaration to the identifier it returns.

## Model

| member | source | states |
|---|---|---|
| Toolchain.CreateInitialConfig | hls4ml/backends/symbolic/symbolic_backend.py:46-80 | The result equals `InitialConfig`: the include check decides first, then the library check, otherwise the seven-key dictionary. The questions asked equal `ConfigProbes`: the probe, then each derived directory's marker test, stopping at the first failure. |
| Toolchain.ConfigShape | hls4ml/backends/symbolic/symbolic_backend.py:55-60 | A returned dictionary has exactly the seven keys. Part and Compiler fall back to `xcvu9p-flga2577-2-e` and `vivado_hls` only when `None`. ClockPeriod and IOType are copied as given. HLSConfig is an empty dictionary. |
| Toolchain.ExplicitPathsSkipProbing | hls4ml/backends/symbolic/symbolic_backend.py:61-77 | With both paths truthy, nothing is asked of the environment and the call cannot fail. Both paths are stored unchanged, and the result does not depend on the environment. |
| Toolchain.GivenPathsKept | hls4ml/backends/symbolic/symbolic_backend.py:61-77 | A given path, even an empty one, is stored unchanged, and its marker test is never among the questions asked, also when the other path is derived. With both paths given the call succeeds after at most the probe. |
| Toolchain.MarkersDiffer | hls4ml/backends/symbolic/symbolic_backend.py:66-72 | The header test and the library test never name the same path, whatever the two directories are. |
| Toolchain.DefaultCallProbes | hls4ml/backends/symbolic/symbolic_backend.py:46-69 | With every keyword at its default, the first question is `command -v vivado_hls` and the second is the `/hls_math.h` test in the include directory derived with `/bin/vivado_hls`. |
| Toolchain.DefaultCallPaths | hls4ml/backends/symbolic/symbolic_backend.py:46-71 | With every keyword at its default, both directories are derived by replacing `/bin/vivado_hls` with `/include` and `/lnx64`. |
| Toolchain.DefaultCallConfig | hls4ml/backends/symbolic/symbolic_backend.py:46-60 | A successful call with every keyword at its default has ClockPeriod 5, IOType `io_parallel`, Part `xcvu9p-flga2577-2-e` and Compiler `vivado_hls`. |
| Toolchain.ProbeIffPathMissing | hls4ml/backends/symbolic/symbolic_backend.py:61-63 | The compiler probe happens if and only if the two paths are not both truthy. It is the first question asked, and it uses the raw compiler argument. |
| Toolchain.DerivedIncludePath | hls4ml/backends/symbolic/symbolic_backend.py:63-69 | A derived include directory is the stripped probe output with every `/bin/<compiler>` replaced by `/include`. Its `/hls_math.h` was tested and found. |
| Toolchain.DerivedLibsPath | hls4ml/backends/symbolic/symbolic_backend.py:70-75 | A derived library directory is the stripped probe output with every `/bin/<compiler>` replaced by `/lnx64`. Its `/lib/csim/libhlsmc++-GCC46.so` was tested and found. |
| Toolchain.NoneCompilerSpelledOut | hls4ml/backends/symbolic/symbolic_backend.py:60-65 | A `None` compiler makes the probe `command -v None` and the replaced segment `/bin/None`, while the stored Compiler is `vivado_hls`. |
| Toolchain.DerivedPathWithoutSegment | hls4ml/backends/symbolic/symbolic_backend.py:63-65 | When the stripped probe output holds no `/bin/<compiler>` (an empty output, for one), the derived directory is that output itself. |
| Toolchain.InstallLayout | hls4ml/backends/symbolic/symbolic_backend.py:63-71 | For a compiler found at `<root>/bin/<compiler>`, the derived directories are `<root>/include` and `<root>/lnx64`, unless an earlier `/bin/<compiler>` occurs inside `<root>`. |
| Toolchain.HeaderErrorStopsEarly | hls4ml/backends/symbolic/symbolic_backend.py:64-69 | The header error occurs if and only if the include directory was derived and lacks its marker. The questions asked are then exactly the probe and that one test. |
| Toolchain.LibraryErrorAfterIncludeCheck | hls4ml/backends/symbolic/symbolic_backend.py:70-75 | The library error occurs if and only if the include check did not fail and the library directory was derived and lacks its marker. That test is the last question asked. |
| Text.StripIsTrimmedInfix | hls4ml/backends/symbolic/symbolic_backend.py:63 | `strip()` returns the infix left after dropping all leading and trailing whitespace. The result neither starts nor ends with whitespace. |
| Text.StripIdempotent | hls4ml/backends/symbolic/symbolic_backend.py:63 | Stripping twice equals stripping once. |
| Text.TrimStartDropsLeadingSpace | hls4ml/backends/symbolic/symbolic_backend.py:63 | The leading-whitespace pass returns a suffix. Every dropped character is whitespace, and the result does not start with whitespace. |
| Text.TrimEndDropsTrailingSpace | hls4ml/backends/symbolic/symbolic_backend.py:63 | The trailing-whitespace pass returns a prefix. Every dropped character is whitespace, and the result does not end with whitespace. |
| Text.ReplaceAbsent | hls4ml/backends/symbolic/symbolic_backend.py:65 | Replacing a non-empty pattern that does not occur leaves the string unchanged. |
| Text.ReplaceAfterClearPrefix | hls4ml/backends/symbolic/symbolic_backend.py:65 | If no occurrence of the pattern starts inside `p`, then `p + pat + q` becomes `p + rep + replace(q)`: the first occurrence after `p` is replaced, and the scan continues after it. |
| Text.ContainsIff | hls4ml/backends/symbolic/symbolic_backend.py:83 | The recursive substring test holds if and only if the pattern occurs as a slice of the text at some index. |
| Text.StartsWithIff | hls4ml/backends/symbolic/symbolic_backend.py:65 | The character-by-character prefix test holds if and only if `p` is no longer than `s` and the slice of `s` of that length equals `p`. |
| Settings.SettingsRoundTrip | hls4ml/backends/symbolic/symbolic_backend.py:91-93 | Reading back settings rendered as `name=Value`, joined by single spaces, gives back the values, for any names. |
| Settings.ParseSettingsOnlyRendered | hls4ml/backends/symbolic/symbolic_backend.py:91-93 | Text that reads as a list of values is exactly the rendering of those values under the given names. The reader accepts nothing else. |
| Settings.RenderedHasNoQuote | hls4ml/backends/symbolic/symbolic_backend.py:91 | Rendered settings hold no double quote when none of their names does. |
| Build.BuildArgumentIsSettings | hls4ml/backends/symbolic/symbolic_backend.py:91-93 | The quoted argument lists `reset csim synth cosim validation export vsynth`, in that order. Each is rendered as Python prints a bool, and they are separated by single spaces. |
| Build.DefaultArgument | hls4ml/backends/symbolic/symbolic_backend.py:82-93 | With the keyword defaults the argument is `reset=False csim=True synth=True cosim=False validation=False export=False vsynth=False`: only compile-simulate and synthesize are on. |
| Build.BuildArgumentRoundTrip | hls4ml/backends/symbolic/symbolic_backend.py:91-93 | Reading the argument back gives exactly the seven switches it was made from. |
| Build.ArgumentHasNoQuote | hls4ml/backends/symbolic/symbolic_backend.py:91 | The argument holds no double quote. |
| Build.CommandSplits | hls4ml/backends/symbolic/symbolic_backend.py:91 | A command is the prefix `vivado_hls -f build_prj.tcl "`, the argument and a closing quote. The text between prefix and closing quote is the argument. |
| Build.BuildCommandRoundTrip | hls4ml/backends/symbolic/symbolic_backend.py:90-93 | Reading the command back gives exactly the switches. The argument is a single quoted word. |
| Build.ParseBuildArgumentOnlyRendered | hls4ml/backends/symbolic/symbolic_backend.py:91-93 | Text that reads as switches `f` is exactly the argument rendered for `f`. |
| Build.ParseBuildCommandOnlyRendered | hls4ml/backends/symbolic/symbolic_backend.py:90-93 | Text that reads as switches `f` is exactly the command for `f`. Together with the round trip, reading is the inverse of building the command. |
| Build.BuildCommandInjective | hls4ml/backends/symbolic/symbolic_backend.py:90-93 | Different switches give different commands. |
| Build.Build | hls4ml/backends/symbolic/symbolic_backend.py:82-97 | `build` fails with the "installation not found" error if and only if the platform name contains `linux` and the probe's exit status is non-zero. Otherwise it runs, in the output directory, a command that encodes exactly the requested switches, and reads the report from that same directory. |
| Flows.KeepTruthy | hls4ml/backends/symbolic/symbolic_backend.py:35-36 | `filter(None, …)` never lengthens the list and keeps no empty identifier. |
| Flows.KeepTruthyMembers | hls4ml/backends/symbolic/symbolic_backend.py:35-36 | An identifier survives the filter if and only if it was present and non-empty. |
| Flows.KeepTruthyAppend | hls4ml/backends/symbolic/symbolic_backend.py:35-36 | Filtering keeps order: filtering a concatenation concatenates the filtered parts. |
| Flows.KeepTruthyAllTruthy | hls4ml/backends/symbolic/symbolic_backend.py:35-36 | When every entry is truthy, the filter returns all of them unchanged, in place. |
| Flows.IpRequirementsCases | hls4ml/backends/symbolic/symbolic_backend.py:35-38 | The `ip` prerequisites are the types flow, if truthy, followed by the templates flow, if truthy. With neither, the list is empty rather than absent. |
| Flows.Declarations | hls4ml/backends/symbolic/symbolic_backend.py:22-38 | There are four declarations, all for this backend, in this order: `specific_types` (one pass) and `apply_templates` (deferred template passes), both with no prerequisites; `write`, with `make_stamp` and `symbolicexpression:write_hls`, after `vivado:ip`; and `ip`, with no passes, after the filtered results of the first two. |
| Flows.IpRequirementsMembers | hls4ml/backends/symbolic/symbolic_backend.py:25-38 | A flow is a prerequisite of `ip` if and only if the registry returned it, non-empty, for `specific_types` or `apply_templates`. There are at most two. |
| Flows.SymbolicExpressionBackend.constructor | hls4ml/backends/symbolic/symbolic_backend.py:17-19 | Construction names the backend `SymbolicExpression` and makes exactly the four declarations, leaving the object valid. |
| Flows.SymbolicExpressionBackend.RegisterFlows | hls4ml/backends/symbolic/symbolic_backend.py:21-38 | Appends the four declarations to the registry log. It keeps the registry's answer for `write` as the writer flow and its answer for `ip` as the default flow. |
| Flows.SymbolicExpressionBackend.GetDefaultFlow | hls4ml/backends/symbolic/symbolic_backend.py:40-41 | Returns what the registry answered for the `ip` declaration. |
| Flows.SymbolicExpressionBackend.GetWriterFlow | hls4ml/backends/symbolic/symbolic_backend.py:43-44 | Returns what the registry answered for the `write` declaration. |

## Left out

- Shell and file-system calls are not executed: `os.popen`, `os.path.exists`, `os.system`, `sys.platform`. Their answers are parameters, and `create_initial_config` records the questions it asks in order.
- Build: `os.getcwd`/`os.chdir` are not modelled. The result names the directory the command runs in, and nothing restores the working directory. The code itself does not guarantee that restore if the tool run raises.
- Build: the exit status of the tool run itself is ignored, as the code ignores it.
- Build: the `model` argument appears only as its output directory.
- `parse_vivado_report` is not part of this model. The build's result says only which directory the report is read from.
- `register_flow`, the flow table behind it and any dependency resolution are not part of this model. The registry is the function parameter `register`. The file defines no resolver, cycle detection or ordering of flows.
- `_get_layer_templates` belongs to the base backend and is not part of this model. The templates flow's passes are the tag `LayerTemplates`, standing for the bound method passed unevaluated. The eager call on line 27 computes a value that is never used, so it is left out.
- `get_backend_passes` is a module function imported from `hls4ml.model.optimizer` (line 12) and is not part of this model. Its result on line 33 is never used, so the call is left out.
- `FPGABackend` initialisation beyond the backend name is not part of this model.
- Toolchain.ConfigShape: `ClockPeriod` is modelled as an integer and `IOType` as a string. Python stores whatever object was passed, a float included.
- Text.StripIsTrimmedInfix: the whitespace set is the characters Python's `str.isspace` accepts. No other Unicode processing is modelled.
- Three things the code does not do, and so neither does the model:
  - `create_initial_config` raises no error of its own when `command -v` finds no compiler. The probe output is then just empty, and the directories are derived from it (`Toolchain.DerivedPathWithoutSegment`).
  - Passing exactly one explicit path is accepted. The other path is derived and tested (`Toolchain.GivenPathsKept`).
  - `build` restores the working directory only on the normal path (line 95). Nothing restores it if the tool run raises.
