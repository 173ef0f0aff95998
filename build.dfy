/**
 * `SymbolicExpressionBackend.build`: the installation guard, and the single
 * command handed to the shell, whose quoted argument carries the seven stage
 * switches.
 *
 * The environment becomes parameters: `platform` is `sys.platform` and
 * `probeStatus` the exit status of `command -v vivado_hls > /dev/null`. The
 * result is what the backend does next: run `command` inside `workingDir`,
 * then parse the report found in `reportDir`.
 */
module Build {
  import opened Wrappers
  import opened Text
  import opened Settings

  /** The seven stage switches of `build`; `exportIp` is the `export` keyword argument. */
  datatype BuildFlags = BuildFlags(
    reset: bool, csim: bool, synth: bool, cosim: bool, validation: bool, exportIp: bool, vsynth: bool)

  /** The keyword defaults of `build`: compile-simulate and synthesize on, everything else off. */
  const DefaultBuildFlags: BuildFlags := BuildFlags(false, true, true, false, false, false, false)

  /** The names the argument gives the switches, in the order it lists them. */
  const StageNames: seq<string> := ["reset", "csim", "synth", "cosim", "validation", "export", "vsynth"]

  /** The command prefix before the quoted argument. */
  const CommandPrefix: string := "vivado_hls -f build_prj.tcl \""

  datatype BuildError = ToolNotFound
  {
    function Message(): string
    {
      "Vivado HLS installation not found. Make sure \"vivado_hls\" is on PATH."
    }
  }

  /** The tool run the backend performs, and where it then looks for the report. */
  datatype Invocation = Invocation(workingDir: string, command: string, reportDir: string)

  /** The quoted argument: every switch as `name=True` or `name=False`, in a fixed order, single spaces. */
  function BuildArgument(f: BuildFlags): string
  {
    Setting("reset", f.reset) + " " + Setting("csim", f.csim) + " " + Setting("synth", f.synth)
    + " " + Setting("cosim", f.cosim) + " " + Setting("validation", f.validation)
    + " " + Setting("export", f.exportIp) + " " + Setting("vsynth", f.vsynth)
  }

  /** The whole command line handed to `os.system`. */
  function BuildCommand(f: BuildFlags): string
  {
    CommandPrefix + BuildArgument(f) + "\""
  }

  /** The switch values in the order of `StageNames`. */
  function StageValues(f: BuildFlags): (v: seq<bool>)
    ensures |v| == |StageNames|
  {
    [f.reset, f.csim, f.synth, f.cosim, f.validation, f.exportIp, f.vsynth]
  }

  /** The switches for seven values listed in the order of `StageNames`. */
  function FlagsOf(v: seq<bool>): Option<BuildFlags>
  {
    if |v| == 7 then Some(BuildFlags(v[0], v[1], v[2], v[3], v[4], v[5], v[6])) else None
  }

  /** Reads a build argument back into the seven switches. */
  function ParseBuildArgument(s: string): Option<BuildFlags>
  {
    match ParseSettings(s, StageNames, 0)
    case None => None
    case Some(v) => FlagsOf(v)
  }

  /** Reads a build command back into the seven switches. */
  function ParseBuildCommand(cmd: string): Option<BuildFlags>
  {
    if StartsWith(cmd, CommandPrefix) && |cmd| > |CommandPrefix| && cmd[|cmd| - 1] == '"' then
      ParseBuildArgument(cmd[|CommandPrefix|..|cmd| - 1])
    else None
  }

  /** Seven settings, unrolled: each setting, a space, and the rest. */
  lemma SevenSettingsUnrolled(k: seq<string>, v: seq<bool>)
    requires |k| == 7 && |v| == 7
    ensures RenderSettings(k, v, 0)
      == Setting(k[0], v[0]) + (" " + (Setting(k[1], v[1]) + (" " + (Setting(k[2], v[2])
         + (" " + RenderSettings(k, v, 3))))))
    ensures RenderSettings(k, v, 3)
      == Setting(k[3], v[3]) + (" " + (Setting(k[4], v[4]) + (" " + (Setting(k[5], v[5])
         + (" " + Setting(k[6], v[6]))))))
  {
    RenderStep(k, v, 5);
    RenderStep(k, v, 4);
    RenderStep(k, v, 3);
    RenderStep(k, v, 2);
    RenderStep(k, v, 1);
    RenderStep(k, v, 0);
  }

  /** The settings for `StageNames`, unrolled: each setting, a space, and the rest. */
  lemma StageSettingsUnrolled(f: BuildFlags)
    ensures RenderSettings(StageNames, StageValues(f), 0)
      == Setting("reset", f.reset) + (" " + (Setting("csim", f.csim) + (" " + (Setting("synth", f.synth)
         + (" " + (Setting("cosim", f.cosim) + (" " + (Setting("validation", f.validation)
         + (" " + (Setting("export", f.exportIp) + (" " + Setting("vsynth", f.vsynth))))))))))))
  {
    var k, v := StageNames, StageValues(f);
    assert k[0] == "reset" && k[1] == "csim" && k[2] == "synth" && k[3] == "cosim";
    assert k[4] == "validation" && k[5] == "export" && k[6] == "vsynth";
    assert v[0] == f.reset && v[1] == f.csim && v[2] == f.synth && v[3] == f.cosim;
    assert v[4] == f.validation && v[5] == f.exportIp && v[6] == f.vsynth;
    SevenSettingsUnrolled(k, v);
  }

  /**
   * Regrouping seven settings joined by spaces does not change the string.
   * A proof step of `BuildArgumentNested`, kept apart so that each proof stays
   * small for the solver.
   */
  lemma JoinRegrouped(a1: string, a2: string, a3: string, a4: string, a5: string, a6: string, a7: string)
    ensures a1 + " " + a2 + " " + a3 + " " + a4 + " " + a5 + " " + a6 + " " + a7
      == a1 + (" " + (a2 + (" " + (a3 + (" " + (a4 + (" " + (a5 + (" " + (a6 + (" " + a7)))))))))))
  {
    var p6 := a1 + " " + a2 + " " + a3 + " " + a4 + " " + a5 + " " + a6;
    var p5 := a1 + " " + a2 + " " + a3 + " " + a4 + " " + a5;
    var p4 := a1 + " " + a2 + " " + a3 + " " + a4;
    var p3 := a1 + " " + a2 + " " + a3;
    var p2 := a1 + " " + a2;
    var r6 := " " + a7;
    var r5 := " " + (a6 + r6);
    var r4 := " " + (a5 + r5);
    var r3 := " " + (a4 + r4);
    var r2 := " " + (a3 + r3);
    var r1 := " " + (a2 + r2);
    assert p6 + " " + a7 == p6 + r6;
    assert p6 + r6 == p5 + r5;
    assert p5 + r5 == p4 + r4;
    assert p4 + r4 == p3 + r3;
    assert p3 + r3 == p2 + r2;
    assert p2 + r2 == a1 + r1;
  }

  /** The argument, grouped from the right. */
  lemma BuildArgumentNested(f: BuildFlags)
    ensures BuildArgument(f)
      == Setting("reset", f.reset) + (" " + (Setting("csim", f.csim) + (" " + (Setting("synth", f.synth)
         + (" " + (Setting("cosim", f.cosim) + (" " + (Setting("validation", f.validation)
         + (" " + (Setting("export", f.exportIp) + (" " + Setting("vsynth", f.vsynth))))))))))))
  {
    JoinRegrouped(Setting("reset", f.reset), Setting("csim", f.csim), Setting("synth", f.synth),
      Setting("cosim", f.cosim), Setting("validation", f.validation), Setting("export", f.exportIp),
      Setting("vsynth", f.vsynth));
  }

  /** The argument is the settings for `StageNames`, in that order. */
  lemma BuildArgumentIsSettings(f: BuildFlags)
    ensures BuildArgument(f) == RenderSettings(StageNames, StageValues(f), 0)
  {
    StageSettingsUnrolled(f);
    BuildArgumentNested(f);
  }

  /** The argument determines the switches: reading it back gives exactly the flags it was made from. */
  lemma BuildArgumentRoundTrip(f: BuildFlags)
    ensures ParseBuildArgument(BuildArgument(f)) == Some(f)
  {
    var v := StageValues(f);
    BuildArgumentIsSettings(f);
    SettingsRoundTrip(StageNames, v, 0);
    assert v[0..] == v;
    ReadStageValues(BuildArgument(f), f);
  }

  /** Text that reads as the stage values of `f` reads as `f`. */
  lemma ReadStageValues(s: string, f: BuildFlags)
    requires ParseSettings(s, StageNames, 0) == Some(StageValues(f))
    ensures ParseBuildArgument(s) == Some(f)
  {
  }

  /** No stage name, hence no part of the argument, holds a double quote. */
  lemma ArgumentHasNoQuote(f: BuildFlags)
    ensures '"' !in BuildArgument(f)
  {
    var k := StageNames;
    assert '"' !in k[0] && '"' !in k[1] && '"' !in k[2] && '"' !in k[3];
    assert '"' !in k[4] && '"' !in k[5] && '"' !in k[6];
    RenderedHasNoQuote(k, StageValues(f), 0);
    BuildArgumentIsSettings(f);
  }

  /** The text between the prefix and the closing quote of a command is its argument. */
  lemma CommandSplits(arg: string)
    ensures var cmd := CommandPrefix + arg + "\"";
      && StartsWith(cmd, CommandPrefix) && |cmd| > |CommandPrefix| && cmd[|cmd| - 1] == '"'
      && cmd[|CommandPrefix|..|cmd| - 1] == arg
  {
    var cmd := CommandPrefix + arg + "\"";
    assert cmd == CommandPrefix + (arg + "\"");
    StartsWithAppend(CommandPrefix, arg + "\"");
    assert cmd[|CommandPrefix|..|cmd| - 1] == arg;
  }

  /**
   * The command determines the switches, and its argument holds no double
   * quote, so the shell passes it to the tool as one word.
   */
  lemma BuildCommandRoundTrip(f: BuildFlags)
    ensures ParseBuildCommand(BuildCommand(f)) == Some(f)
    ensures '"' !in BuildArgument(f)
  {
    CommandSplits(BuildArgument(f));
    BuildArgumentRoundTrip(f);
    ArgumentHasNoQuote(f);
  }

  /** Text that reads as `f` reads, setting by setting, as the stage values of `f`. */
  lemma ReadStageValuesBack(s: string, f: BuildFlags)
    requires ParseBuildArgument(s) == Some(f)
    ensures ParseSettings(s, StageNames, 0) == Some(StageValues(f))
  {
    var o := ParseSettings(s, StageNames, 0);
    assert o.Some? && FlagsOf(o.value) == Some(f);
    FlagsOfInverse(o.value, f);
  }

  /** Values that give switches `f` are the stage values of `f`. */
  lemma FlagsOfInverse(v: seq<bool>, f: BuildFlags)
    requires FlagsOf(v) == Some(f)
    ensures v == StageValues(f)
  {
  }

  /** Only the argument for `f` reads as `f`: the reader accepts nothing but renderings. */
  lemma ParseBuildArgumentOnlyRendered(s: string, f: BuildFlags)
    requires ParseBuildArgument(s) == Some(f)
    ensures s == BuildArgument(f)
  {
    var v := StageValues(f);
    ReadStageValuesBack(s, f);
    assert v[0..] == v;
    ParseSettingsOnlyRendered(s, StageNames, v, 0);
    BuildArgumentIsSettings(f);
  }

  /** A command the reader accepts is the prefix, the text it reads and a closing quote. */
  lemma CommandJoins(c: string)
    requires StartsWith(c, CommandPrefix) && |c| > |CommandPrefix| && c[|c| - 1] == '"'
    ensures c == CommandPrefix + c[|CommandPrefix|..|c| - 1] + "\""
  {
    SplitAroundMiddle(c, CommandPrefix);
    assert [c[|c| - 1]] == "\"";
  }

  /** Only the command for `f` reads as `f`: reading inverts `BuildCommand` in both directions. */
  lemma ParseBuildCommandOnlyRendered(c: string, f: BuildFlags)
    requires ParseBuildCommand(c) == Some(f)
    ensures c == BuildCommand(f)
  {
    CommandJoins(c);
    ParseBuildArgumentOnlyRendered(c[|CommandPrefix|..|c| - 1], f);
  }

  /** Different switches give different commands. */
  lemma BuildCommandInjective(f1: BuildFlags, f2: BuildFlags)
    requires BuildCommand(f1) == BuildCommand(f2)
    ensures f1 == f2
  {
    BuildCommandRoundTrip(f1);
    BuildCommandRoundTrip(f2);
  }

  /**
   * `build` up to the tool run: on a platform whose name contains `linux` a
   * failed probe stops it with `ToolNotFound`; otherwise it runs the command
   * for `flags` in the project's output directory and parses the report there.
   */
  function Build(platform: string, probeStatus: int, outputDir: string, flags: BuildFlags): (r: Result<Invocation, BuildError>)
    ensures r.Failure? <==> Contains(platform, "linux") && probeStatus != 0
    ensures r.Success? ==> r.value.workingDir == outputDir && r.value.reportDir == outputDir
    ensures r.Success? ==> ParseBuildCommand(r.value.command) == Some(flags)
  {
    if Contains(platform, "linux") && probeStatus != 0 then Failure(ToolNotFound)
    else
      BuildCommandRoundTrip(flags);
      Success(Invocation(outputDir, BuildCommand(flags), outputDir))
  }

  // DefaultArgumentStep1 to DefaultArgumentStep6 are proof steps of
  // `DefaultArgument`, one switch at a time, so that no single proof has to
  // compare the whole seventy-character literal at once.

  /** One more default switch after those rendered so far. */
  lemma DefaultArgumentStep1()
    ensures "reset=False" + " " + Setting("csim", true) == "reset=False csim=True"
  {
    assert Setting("csim", true) == "csim=True";
  }

  /** One more default switch after those rendered so far. */
  lemma DefaultArgumentStep2()
    ensures "reset=False csim=True" + " " + Setting("synth", true) == "reset=False csim=True synth=True"
  {
    assert Setting("synth", true) == "synth=True";
  }

  /** One more default switch after those rendered so far. */
  lemma DefaultArgumentStep3()
    ensures "reset=False csim=True synth=True" + " " + Setting("cosim", false) == "reset=False csim=True synth=True cosim=False"
  {
    assert Setting("cosim", false) == "cosim=False";
  }

  /** One more default switch after those rendered so far. */
  lemma DefaultArgumentStep4()
    ensures "reset=False csim=True synth=True cosim=False" + " " + Setting("validation", false) == "reset=False csim=True synth=True cosim=False validation=False"
  {
    assert Setting("validation", false) == "validation=False";
  }

  /** One more default switch after those rendered so far. */
  lemma DefaultArgumentStep5()
    ensures "reset=False csim=True synth=True cosim=False validation=False" + " " + Setting("export", false) == "reset=False csim=True synth=True cosim=False validation=False export=False"
  {
    assert Setting("export", false) == "export=False";
  }

  /** One more default switch after those rendered so far. */
  lemma DefaultArgumentStep6()
    ensures "reset=False csim=True synth=True cosim=False validation=False export=False" + " " + Setting("vsynth", false) == "reset=False csim=True synth=True cosim=False validation=False export=False vsynth=False"
  {
    assert Setting("vsynth", false) == "vsynth=False";
  }

  /** The default switches render as compile-simulate and synthesize on, everything else off. */
  lemma DefaultArgument()
    ensures BuildArgument(DefaultBuildFlags) == "reset=False csim=True synth=True cosim=False validation=False export=False vsynth=False"
  {
    assert Setting("reset", false) == "reset=False";
    DefaultArgumentStep1();
    DefaultArgumentStep2();
    DefaultArgumentStep3();
    DefaultArgumentStep4();
    DefaultArgumentStep5();
    DefaultArgumentStep6();
  }
}
