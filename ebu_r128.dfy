/**
 * src/ebu_r128.rs: the earlier EBU R128 orchestration.  Both passes build a
 * `Command` of their own (the bit rate and the codec each only when the
 * probe knows it), scan the report with `FFmpeg::result`, and pass 2 runs
 * only when pass 1 returned every value it needs.
 */
module EbuR128 {
  import opened Wrappers
  import opened Errors
  import opened Lexical
  import opened LoudnormFilter
  import opened Process
  import opened Progress
  import opened Loudnorm
  import opened Ffmpeg

  /** What the orchestration reads of the probed input: duration, bit rate and codec, each optional. */
  datatype StreamInfo = StreamInfo(duration: Option<Duration>, bitRate: Option<int>, codecName: Option<string>)

  /** The arguments of `normalize_ebu_r128`. */
  datatype EbuR128Args = EbuR128Args(
    inputFile: string, outputFile: string, targets: Targets, offset: real, ffmpegArgs: seq<string>)

  /** `-b:a <rate>` when the bit rate is known, `-c:a <codec>` when the codec is, then the custom arguments. */
  function StreamArgs(info: StreamInfo, custom: seq<string>): seq<string> {
    (if info.bitRate.Some? then ["-b:a", IntToDecimal(info.bitRate.value)] else [])
    + (if info.codecName.Some? then ["-c:a", info.codecName.value] else [])
    + custom
  }

  /**
   * Each optional pair is there exactly when its value is known, the bit
   * rate as its decimal text, and the custom arguments close the list.
   */
  lemma StreamArgsShape(info: StreamInfo, custom: seq<string>)
    ensures var r := StreamArgs(info, custom);
      var b := if info.bitRate.Some? then 2 else 0;
      var c := if info.codecName.Some? then 2 else 0;
      && |r| == b + c + |custom|
      && (info.bitRate.Some? ==> r[..2] == ["-b:a", IntToDecimal(info.bitRate.value)])
      && (info.codecName.Some? ==> r[b..b + 2] == ["-c:a", info.codecName.value])
      && r[b + c..] == custom
  {
  }

  /** The arguments of pass 1: the filter with the user's offset, the stream arguments, `-f null -`. */
  function Pass1Args(a: EbuR128Args, info: StreamInfo, fmt: real -> string): seq<string> {
    Prefix(a.inputFile) + ["-filter", Pass1Filter(a.targets, a.offset, fmt)]
    + StreamArgs(info, a.ffmpegArgs) + ["-f", "null", "-"]
  }

  /** The arguments of pass 2: always `-y`, and the output file last. */
  function Pass2Args(a: EbuR128Args, info: StreamInfo, offset: real, m: Measured, fmt: real -> string): seq<string> {
    Prefix(a.inputFile) + ["-filter", Pass2Filter(a.targets, offset, m, fmt)]
    + StreamArgs(info, a.ffmpegArgs) + ["-y", a.outputFile]
  }

  /**
   * The bar a pass shows: only when the duration is known, as many steps as
   * whole seconds plus one; it is finished (and cleared) once stdout could
   * be opened and followed to its end.
   */
  function PassBar(duration: Option<Duration>, run: Run): (b: Option<Bar>)
    ensures b.Some? <==> run.Spawned? && duration.Some?
    ensures b.Some? ==> b.value.length == AsSecs(duration.value) + 1 && b.value.length > 0
    ensures b.Some? ==> (b.value.finished <==> run.stdout.Some?)
  {
    if run.Spawned? && duration.Some? then Some(Bar(AsSecs(duration.value) + 1, 0, run.stdout.Some?)) else None
  }

  /**
   * What a pass gives back for a run: stdout is required only when the
   * duration is known (it is read only then), stderr always; the exit
   * status is never looked at.
   */
  function PassOutcome(duration: Option<Duration>, run: Run, parse: string -> Option<real>): (r: Result<EbuLoudnessValues, Error>)
    ensures r.Ok? <==> && run.Spawned? && (duration.Some? ==> run.stdout.Some?) && run.stderr.Some?
                       && Ffmpeg.Report(run.stderr.value, parse).Ok?
    ensures r.Ok? ==> r == Ffmpeg.Report(run.stderr.value, parse)
  {
    match run
    case SpawnFailed(reason) => Err(Context("Failed to run ffmpeg tool", Bail(reason)))
    case Spawned(stdout, stderr, _) =>
      if duration.Some? && stdout.None? then Err(Bail("Failed to open ffmpeg stdout"))
      else if stderr.None? then Err(Bail("Failed to open ffmpeg stderr"))
      else match Ffmpeg.Report(stderr.value, parse)
        case Err(e) => Err(Context("Failed to get results of pass 2 normalization", e))
        case Ok(v) => Ok(v)
  }

  /** The custom arguments, one `arg` call each, in order. */
  method ArgEach(cmd: Command, custom: seq<string>)
    modifies cmd
    ensures cmd.program == old(cmd.program)
    ensures cmd.args == old(cmd.args) + custom
  {
    var i := 0;
    while i < |custom|
      invariant 0 <= i <= |custom|
      invariant cmd.program == old(cmd.program)
      invariant cmd.args == old(cmd.args) + custom[..i]
    {
      cmd.Arg(custom[i]);
      i := i + 1;
      assert custom[..i] == custom[..i - 1] + [custom[i - 1]];
    }
    assert custom[..|custom|] == custom;
  }

  /** Bit rate, codec and custom arguments, as both passes append them. */
  method StreamArgsTo(cmd: Command, info: StreamInfo, custom: seq<string>)
    modifies cmd
    ensures cmd.program == old(cmd.program)
    ensures cmd.args == old(cmd.args) + StreamArgs(info, custom)
  {
    if info.bitRate.Some? {
      cmd.Arg("-b:a");
      cmd.Arg(IntToDecimal(info.bitRate.value));
    }
    if info.codecName.Some? {
      cmd.Arg("-c:a");
      cmd.Arg(info.codecName.value);
    }
    ArgEach(cmd, custom);
  }

  /** The progress, statistics, interaction and banner options, then the input. */
  method PrefixTo(cmd: Command, inputFile: string)
    modifies cmd
    ensures cmd.program == old(cmd.program)
    ensures cmd.args == old(cmd.args) + Prefix(inputFile)
  {
    cmd.Arg("-progress");
    cmd.Arg("-");
    cmd.Arg("-nostats");
    cmd.Arg("-nostdin");
    cmd.Arg("-hide_banner");
    cmd.Arg("-i");
    cmd.Arg(inputFile);
  }

  /** The command `pass1` runs: the program is the one the caller locates. */
  method Pass1Command(a: EbuR128Args, info: StreamInfo, ffmpegPath: string, fmt: real -> string)
    returns (cmd: Command)
    ensures cmd.program == ffmpegPath && cmd.args == Pass1Args(a, info, fmt)
  {
    cmd := new Command(ffmpegPath);
    PrefixTo(cmd, a.inputFile);
    cmd.Arg("-filter");
    cmd.Arg(Pass1Filter(a.targets, a.offset, fmt));
    StreamArgsTo(cmd, info, a.ffmpegArgs);
    cmd.Arg("-f");
    cmd.Arg("null");
    cmd.Arg("-");
    Pass1ArgsAppended(a, info, fmt);
  }

  /** The pass-1 argument list, one appended argument at a time. */
  lemma Pass1ArgsAppended(a: EbuR128Args, info: StreamInfo, fmt: real -> string)
    ensures Pass1Args(a, info, fmt) == [] + Prefix(a.inputFile) + ["-filter"] + [Pass1Filter(a.targets, a.offset, fmt)]
      + StreamArgs(info, a.ffmpegArgs) + ["-f"] + ["null"] + ["-"]
  {
  }

  /** The command `pass2` runs: plain `ffmpeg`, its filter extended step by step. */
  method Pass2Command(a: EbuR128Args, info: StreamInfo, offset: real, m: Measured, fmt: real -> string)
    returns (cmd: Command)
    ensures cmd.program == "ffmpeg" && cmd.args == Pass2Args(a, info, offset, m, fmt)
  {
    cmd := new Command("ffmpeg");
    var filter := BuildPass2Filter(a.targets, offset, m, fmt);
    PrefixTo(cmd, a.inputFile);
    cmd.Arg("-filter");
    cmd.Arg(filter);
    StreamArgsTo(cmd, info, a.ffmpegArgs);
    cmd.Arg("-y");
    cmd.Arg(a.outputFile);
    Pass2ArgsAppended(a, info, offset, m, fmt);
  }

  /** The pass-2 argument list, one appended argument at a time. */
  lemma Pass2ArgsAppended(a: EbuR128Args, info: StreamInfo, offset: real, m: Measured, fmt: real -> string)
    ensures Pass2Args(a, info, offset, m, fmt) == [] + Prefix(a.inputFile) + ["-filter"] + [Pass2Filter(a.targets, offset, m, fmt)]
      + StreamArgs(info, a.ffmpegArgs) + ["-y"] + [a.outputFile]
  {
  }

  /** Spawn the command, follow it when the duration is known, and scan its report. */
  method RunPass(duration: Option<Duration>, run: Run, parse: string -> Option<real>)
    returns (r: Result<EbuLoudnessValues, Error>, bar: Option<Bar>)
    ensures r == PassOutcome(duration, run, parse)
    ensures bar == PassBar(duration, run)
  {
    if run.SpawnFailed? {
      return Err(Context("Failed to run ffmpeg tool", Bail(run.reason))), None;
    }
    bar := None;
    if duration.Some? {
      bar := Some(Bar(AsSecs(duration.value) + 1, 0, false));
      if run.stdout.None? {
        return Err(Bail("Failed to open ffmpeg stdout")), bar;
      }
      bar := Some(bar.value.(finished := true));
    }
    if run.stderr.None? {
      return Err(Bail("Failed to open ffmpeg stderr")), bar;
    }
    var values := ReadResult(run.stderr.value, parse);
    if values.Err? {
      return Err(Context("Failed to get results of pass 2 normalization", values.error)), bar;
    }
    r := Ok(values.value);
  }

  /** `pass1`: measure, returning the `Option` record. */
  method Pass1(a: EbuR128Args, info: StreamInfo, ffmpegPath: string, fmt: real -> string,
               parse: string -> Option<real>, run: Run)
    returns (r: Result<EbuLoudnessValues, Error>, args: seq<string>, bar: Option<Bar>)
    ensures args == Pass1Args(a, info, fmt)
    ensures r == PassOutcome(info.duration, run, parse)
    ensures bar == PassBar(info.duration, run)
  {
    var cmd := Pass1Command(a, info, ffmpegPath, fmt);
    args := cmd.args;
    r, bar := RunPass(info.duration, run, parse);
  }

  /** What pass 2 returns: the scanned report, once the output file could be probed. */
  function Pass2Outcome(duration: Option<Duration>, run: Run, parse: string -> Option<real>,
                        outputProbe: Result<StreamInfo, Error>): (r: Result<EbuLoudnessValues, Error>)
    ensures r.Ok? <==> PassOutcome(duration, run, parse).Ok? && outputProbe.Ok?
  {
    match PassOutcome(duration, run, parse)
    case Err(e) => Err(e)
    case Ok(v) =>
      if outputProbe.Err? then Err(Context("Failed to get output file information", outputProbe.error))
      else Ok(v)
  }

  /** `pass2`: normalize, scan the report, then probe the output file. */
  method Pass2(a: EbuR128Args, info: StreamInfo, offset: real, m: Measured, fmt: real -> string,
               parse: string -> Option<real>, run: Run, outputProbe: Result<StreamInfo, Error>)
    returns (r: Result<EbuLoudnessValues, Error>, args: seq<string>, bar: Option<Bar>)
    ensures args == Pass2Args(a, info, offset, m, fmt)
    ensures r == Pass2Outcome(info.duration, run, parse, outputProbe)
    ensures bar == PassBar(info.duration, run)
  {
    var cmd := Pass2Command(a, info, offset, m, fmt);
    args := cmd.args;
    var values;
    values, bar := RunPass(info.duration, run, parse);
    if values.Err? {
      return values, args, bar;
    }
    if outputProbe.Err? {
      return Err(Context("Failed to get output file information", outputProbe.error)), args, bar;
    }
    r := values;
  }

  function Missing(name: string): string {
    "EBU normalization pass 1 does not return \"" + name + "\""
  }

  /**
   * The gate before pass 2: the offset and the four measurements when all
   * are present; otherwise the error naming the first one missing, checked
   * in the order `target_offset`, `input_i`, `input_lra`, `input_tp`,
   * `input_thresh`.
   */
  function Gate(v: EbuLoudnessValues): (r: Result<(real, Measured), Error>)
    ensures r.Ok? <==> v.targetOffset.Some? && v.inputI.Some? && v.inputLra.Some? && v.inputTp.Some? && v.inputThresh.Some?
    ensures r.Ok? ==> v.targetOffset.Some? && v.inputI.Some? && v.inputLra.Some? && v.inputTp.Some? && v.inputThresh.Some?
                      && r.value == (v.targetOffset.value, Measured(v.inputI.value, v.inputLra.value, v.inputTp.value, v.inputThresh.value))
    ensures v.targetOffset.None? ==> r == Err(Bail(Missing("target_offset")))
    ensures v.targetOffset.Some? && v.inputI.None? ==> r == Err(Bail(Missing("input_i")))
    ensures v.targetOffset.Some? && v.inputI.Some? && v.inputLra.None? ==> r == Err(Bail(Missing("input_lra")))
    ensures v.targetOffset.Some? && v.inputI.Some? && v.inputLra.Some? && v.inputTp.None?
            ==> r == Err(Bail(Missing("input_tp")))
    ensures v.targetOffset.Some? && v.inputI.Some? && v.inputLra.Some? && v.inputTp.Some? && v.inputThresh.None?
            ==> r == Err(Bail(Missing("input_thresh")))
  {
    if v.targetOffset.None? then Err(Bail(Missing("target_offset")))
    else if v.inputI.None? then Err(Bail(Missing("input_i")))
    else if v.inputLra.None? then Err(Bail(Missing("input_lra")))
    else if v.inputTp.None? then Err(Bail(Missing("input_tp")))
    else if v.inputThresh.None? then Err(Bail(Missing("input_thresh")))
    else Ok((v.targetOffset.value, Measured(v.inputI.value, v.inputLra.value, v.inputTp.value, v.inputThresh.value)))
  }

  /**
   * On a report `result` accepted, the gate passes exactly when the block
   * measured the offset and the four input values, and it hands on the last
   * value each of them was given.
   */
  lemma GateOnReport(lines: seq<string>, parse: string -> Option<real>)
    requires Report(lines, parse).Ok?
    ensures var entries := EntriesOf(InsideLines(lines), parse);
      var g := Gate(Report(lines, parse).value);
      && (g.Ok? <==>
            && LastMeasure(entries, TargetOffset).Some? && LastMeasure(entries, InputI).Some?
            && LastMeasure(entries, InputLra).Some? && LastMeasure(entries, InputTp).Some?
            && LastMeasure(entries, InputThresh).Some?)
      && (g.Ok? ==>
            && LastMeasure(entries, TargetOffset).Some? && LastMeasure(entries, InputI).Some?
            && LastMeasure(entries, InputLra).Some? && LastMeasure(entries, InputTp).Some?
            && LastMeasure(entries, InputThresh).Some?
            && g.value == (LastMeasure(entries, TargetOffset).value,
                           Measured(LastMeasure(entries, InputI).value, LastMeasure(entries, InputLra).value,
                                    LastMeasure(entries, InputTp).value, LastMeasure(entries, InputThresh).value)))
  {
    var entries := EntriesOf(InsideLines(lines), parse);
    assert Report(lines, parse).value == ValuesOf(entries);
    GateOnValues(entries);
  }

  lemma GateOnValues(entries: seq<Entry>)
    ensures var g := Gate(ValuesOf(entries));
      && (g.Ok? <==>
            && LastMeasure(entries, TargetOffset).Some? && LastMeasure(entries, InputI).Some?
            && LastMeasure(entries, InputLra).Some? && LastMeasure(entries, InputTp).Some?
            && LastMeasure(entries, InputThresh).Some?)
      && (g.Ok? ==>
            && LastMeasure(entries, TargetOffset).Some? && LastMeasure(entries, InputI).Some?
            && LastMeasure(entries, InputLra).Some? && LastMeasure(entries, InputTp).Some?
            && LastMeasure(entries, InputThresh).Some?
            && g.value == (LastMeasure(entries, TargetOffset).value,
                           Measured(LastMeasure(entries, InputI).value, LastMeasure(entries, InputLra).value,
                                    LastMeasure(entries, InputTp).value, LastMeasure(entries, InputThresh).value)))
  {
    ValuesOfFields(entries, TargetOffset);
    ValuesOfFields(entries, InputI);
    ValuesOfFields(entries, InputLra);
    ValuesOfFields(entries, InputTp);
    ValuesOfFields(entries, InputThresh);
  }

  /**
   * `result` counts lines, not keys: a block of ten `input_i` lines is
   * accepted, and the gate then stops before pass 2 on `target_offset`.
   */
  lemma RepeatedKeyStopsAtGate(lines: seq<string>, parse: string -> Option<real>)
    requires var inside := InsideLines(lines);
      |inside| == 10 && forall k | 0 <= k < 10 :: Classify(inside[k], parse).Measurement?
                                                 && Classify(inside[k], parse).field == InputI
    ensures Report(lines, parse).Ok?
    ensures Gate(Report(lines, parse).value) == Err(Bail(Missing("target_offset")))
  {
    var inside := InsideLines(lines);
    var entries := EntriesOf(inside, parse);
    RepeatedKeyBlock(inside, parse);
    ValuesOfFields(entries, TargetOffset);
    assert Report(lines, parse) == Decide(10, LogOf(OutsideLines(lines)), NotesOf(inside, parse), ValuesOf(entries));
  }

  lemma RepeatedKeyBlock(inside: seq<string>, parse: string -> Option<real>)
    requires |inside| == 10 && forall k | 0 <= k < 10 :: Classify(inside[k], parse).Measurement?
                                                         && Classify(inside[k], parse).field == InputI
    ensures |EntriesOf(inside, parse)| == 10 && NotesOf(inside, parse) == ""
    ensures LastMeasure(EntriesOf(inside, parse), TargetOffset) == None
  {
    EntriesAll(inside, parse);
    NotesEmpty(inside, parse);
    NoneMeasured(inside, parse, TargetOffset);
  }

  /**
   * `normalize_ebu_r128`: probe, pass 1, the gate, pass 2.  `commands`
   * holds the argument lists of the ffmpeg runs that were started.
   */
  method NormalizeEbuR128(a: EbuR128Args, probe: Result<StreamInfo, Error>, ffmpegPath: string,
                          fmt: real -> string, parse: string -> Option<real>,
                          run1: Run, run2: Run, outputProbe: Result<StreamInfo, Error>)
    returns (r: Result<(), Error>, commands: seq<seq<string>>)
    ensures probe.Err? ==> r == Err(Context("Failed to get input file information", probe.error)) && commands == []
    ensures probe.Ok? ==> |commands| >= 1 && commands[0] == Pass1Args(a, probe.value, fmt)
    ensures probe.Ok? && PassOutcome(probe.value.duration, run1, parse).Err? ==>
      && r == Err(Context("Failed to run pass 1 to measure loudness values", PassOutcome(probe.value.duration, run1, parse).error))
      && |commands| == 1
    ensures probe.Ok? && PassOutcome(probe.value.duration, run1, parse).Ok? ==>
      var gate := Gate(PassOutcome(probe.value.duration, run1, parse).value);
      && (gate.Err? ==> r == Err(gate.error) && |commands| == 1)
      && (gate.Ok? ==>
            && |commands| == 2
            && commands[1] == Pass2Args(a, probe.value, gate.value.0, gate.value.1, fmt)
            && (r.Ok? <==> Pass2Outcome(probe.value.duration, run2, parse, outputProbe).Ok?)
            && (r.Err? ==> r == Err(Context("Failed to run pass 2 to measure loudness values",
                                            Pass2Outcome(probe.value.duration, run2, parse, outputProbe).error))))
  {
    if probe.Err? {
      return Err(Context("Failed to get input file information", probe.error)), [];
    }
    var info := probe.value;
    var values, args1, _ := Pass1(a, info, ffmpegPath, fmt, parse, run1);
    commands := [args1];
    if values.Err? {
      return Err(Context("Failed to run pass 1 to measure loudness values", values.error)), commands;
    }
    var gate := Gate(values.value);
    if gate.Err? {
      return Err(gate.error), commands;
    }
    var done, args2, _ := Pass2(a, info, gate.value.0, gate.value.1, fmt, parse, run2, outputProbe);
    commands := [args1, args2];
    if done.Err? {
      return Err(Context("Failed to run pass 2 to measure loudness values", done.error)), commands;
    }
    r := Ok(());
  }

  /**
   * Pass 2 is handed exactly the values pass 1 measured: its filter reads
   * back with the measured `target_offset` as the offset and the four
   * measured input values, and it always overwrites and ends with the output.
   */
  lemma Pass2Threading(a: EbuR128Args, info: StreamInfo, v: EbuLoudnessValues, fmt: real -> string)
    requires forall x :: ':' !in fmt(x)
    requires Gate(v).Ok?
    ensures var r := Pass2Args(a, info, Gate(v).value.0, Gate(v).value.1, fmt);
      && r[7] == "-filter"
      && FilterGraph.Parse(r[8]) == Some(("loudnorm", [
           ("i", fmt(a.targets.level)), ("lra", fmt(a.targets.range)), ("tp", fmt(a.targets.truePeak)),
           ("offset", fmt(v.targetOffset.value)),
           ("measured_i", fmt(v.inputI.value)), ("measured_lra", fmt(v.inputLra.value)),
           ("measured_tp", fmt(v.inputTp.value)), ("measured_thresh", fmt(v.inputThresh.value)),
           ("linear", "true"), ("print_format", "json")]))
      && r[|r| - 2..] == ["-y", a.outputFile]
  {
    Pass2FilterOptions(a.targets, Gate(v).value.0, Gate(v).value.1, fmt);
  }

  /** Pass 1 reads back its filter with the user's offset and ends with `-f null -`. */
  lemma Pass1ArgsShape(a: EbuR128Args, info: StreamInfo, fmt: real -> string)
    requires forall x :: ':' !in fmt(x)
    ensures var r := Pass1Args(a, info, fmt);
      && r[..7] == Prefix(a.inputFile) && r[7] == "-filter"
      && FilterGraph.Parse(r[8]) == Some(("loudnorm", [
           ("i", fmt(a.targets.level)), ("lra", fmt(a.targets.range)), ("tp", fmt(a.targets.truePeak)),
           ("offset", fmt(a.offset)), ("print_format", "json")]))
      && r[|r| - 3..] == ["-f", "null", "-"]
  {
    Pass1FilterOptions(a.targets, a.offset, fmt);
  }
}
