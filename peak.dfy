/**
 * src/algorithm/peak.rs: two-pass peak normalization.  Pass 1 runs the
 * astats filter and keeps the last `Peak level dB` value ffmpeg reports;
 * pass 2 applies a volume change of the target level minus that peak.
 */
module Peak {
  import opened Wrappers
  import opened Errors
  import opened Lexical
  import opened Patterns
  import opened FilterGraph
  import opened Process
  import opened ToolFfmpeg

  /** Lines as `BufRead::lines` yields them: none holds a line feed. */
  predicate Lines(lines: seq<string>) {
    forall k | 0 <= k < |lines| :: IsLine(lines[k])
  }

  /** What one stderr line of pass 1 says about the peak level. */
  datatype PeakLine = Level(value: real) | Unparsed | Other

  function ReadPeak(line: string, parse: string -> Option<real>): PeakLine
    requires IsLine(line)
  {
    match MatchPeak(line)
    case None => Other
    case Some(text) =>
      match parse(text)
      case Some(v) => Level(v)
      case None => Unparsed
  }

  /** The lines the pattern did not match, each followed by a line feed. */
  function PeakLog(lines: seq<string>, parse: string -> Option<real>): string
    requires Lines(lines)
    decreases |lines|
  {
    if |lines| == 0 then ""
    else
      var line := lines[|lines| - 1];
      PeakLog(lines[..|lines| - 1], parse) + (if ReadPeak(line, parse).Other? then line + "\n" else "")
  }

  /** One note for each matched line whose value did not parse. */
  function PeakNotes(lines: seq<string>, parse: string -> Option<real>): string
    requires Lines(lines)
    decreases |lines|
  {
    if |lines| == 0 then ""
    else
      var line := lines[|lines| - 1];
      PeakNotes(lines[..|lines| - 1], parse)
      + (if ReadPeak(line, parse).Unparsed? then "Failed to parse Peak level value: " + line + "\n" else "")
  }

  /** The value of the last line that gave one. */
  function LastLevel(lines: seq<string>, parse: string -> Option<real>): Option<real>
    requires Lines(lines)
    decreases |lines|
  {
    if |lines| == 0 then None
    else
      match ReadPeak(lines[|lines| - 1], parse)
      case Level(v) => Some(v)
      case _ => LastLevel(lines[..|lines| - 1], parse)
  }

  /** What `result_pass1` returns for the stderr lines of pass 1. */
  function PeakResult(lines: seq<string>, parse: string -> Option<real>): Result<real, Error>
    requires Lines(lines)
  {
    match LastLevel(lines, parse)
    case Some(v) => Ok(v)
    case None =>
      if PeakNotes(lines, parse) != "" then Err(Bail("ffmpeg returns strange Peak level value: " + PeakNotes(lines, parse)))
      else Err(Bail("Failed run to ffmpeg to measure Peak level value: \n" + PeakLog(lines, parse)))
  }

  /** `result_pass1`: every line is read; a value that parses replaces the one before. */
  method ResultPass1(lines: seq<string>, parse: string -> Option<real>) returns (r: Result<real, Error>)
    requires Lines(lines)
    ensures r == PeakResult(lines, parse)
  {
    var errLog := "";
    var errParse := "";
    var value := 0.0;
    var valuesFound := false;
    var i := 0;
    while i < |lines|
      invariant 0 <= i <= |lines|
      invariant errLog == PeakLog(lines[..i], parse)
      invariant errParse == PeakNotes(lines[..i], parse)
      invariant valuesFound <==> LastLevel(lines[..i], parse).Some?
      invariant valuesFound ==> value == LastLevel(lines[..i], parse).value
    {
      var line := lines[i];
      assert lines[..i + 1][..i] == lines[..i];
      match MatchPeak(line) {
        case Some(text) =>
          match parse(text) {
            case Some(v) =>
              value := v;
              valuesFound := true;
            case None =>
              errParse := errParse + "Failed to parse Peak level value: " + line + "\n";
          }
        case None =>
          errLog := errLog + line + "\n";
      }
      i := i + 1;
    }
    assert lines[..|lines|] == lines;
    if !valuesFound {
      if errParse != "" {
        return Err(Bail("ffmpeg returns strange Peak level value: " + errParse));
      } else {
        return Err(Bail("Failed run to ffmpeg to measure Peak level value: \n" + errLog));
      }
    }
    r := Ok(value);
  }

  /**
   * The value is the one on the last line that gave one: when line k gave a
   * value and no later line did, the scan ends with it.
   */
  lemma {:induction false} LastLevelIs(lines: seq<string>, parse: string -> Option<real>, k: nat)
    requires Lines(lines) && k < |lines|
    requires ReadPeak(lines[k], parse).Level?
    requires forall j | k < j < |lines| :: !ReadPeak(lines[j], parse).Level?
    ensures LastLevel(lines, parse) == Some(ReadPeak(lines[k], parse).value)
    decreases |lines|
  {
    if k < |lines| - 1 {
      var init := lines[..|lines| - 1];
      assert init[k] == lines[k];
      forall j | k < j < |init| ensures !ReadPeak(init[j], parse).Level? {
        assert init[j] == lines[j];
      }
      LastLevelIs(init, parse, k);
    }
  }

  /** Without a line that gave a value, the scan finds none. */
  lemma {:induction false} LastLevelNone(lines: seq<string>, parse: string -> Option<real>)
    requires Lines(lines)
    ensures LastLevel(lines, parse).None? <==> forall j | 0 <= j < |lines| :: !ReadPeak(lines[j], parse).Level?
    decreases |lines|
  {
    if |lines| > 0 {
      var init := lines[..|lines| - 1];
      LastLevelNone(init, parse);
      assert forall j | 0 <= j < |init| :: init[j] == lines[j];
    }
  }

  /** The parse-error text is empty exactly when no matched line failed to parse. */
  lemma {:induction false} PeakNotesEmpty(lines: seq<string>, parse: string -> Option<real>)
    requires Lines(lines)
    ensures PeakNotes(lines, parse) == "" <==> forall j | 0 <= j < |lines| :: !ReadPeak(lines[j], parse).Unparsed?
    decreases |lines|
  {
    if |lines| > 0 {
      var init := lines[..|lines| - 1];
      PeakNotesEmpty(init, parse);
      assert forall j | 0 <= j < |init| :: init[j] == lines[j];
    }
  }

  /**
   * The scan succeeds exactly when some line gave a value; without one it
   * reports the parse errors when there were any, and the log otherwise.
   */
  lemma PeakResultCases(lines: seq<string>, parse: string -> Option<real>)
    requires Lines(lines)
    ensures PeakResult(lines, parse).Ok? <==> exists k | 0 <= k < |lines| :: ReadPeak(lines[k], parse).Level?
    ensures (forall j | 0 <= j < |lines| :: ReadPeak(lines[j], parse).Other?) ==>
      PeakResult(lines, parse) == Err(Bail("Failed run to ffmpeg to measure Peak level value: \n" + PeakLog(lines, parse)))
    ensures (forall j | 0 <= j < |lines| :: !ReadPeak(lines[j], parse).Level?)
            && (exists k | 0 <= k < |lines| :: ReadPeak(lines[k], parse).Unparsed?) ==>
      PeakResult(lines, parse) == Err(Bail("ffmpeg returns strange Peak level value: " + PeakNotes(lines, parse)))
  {
    LastLevelNone(lines, parse);
    PeakNotesEmpty(lines, parse);
  }

  /** A `... Peak level dB: <value>` line whose value parses gives that value. */
  lemma ReadPeakLine(prefix: string, text: string, parse: string -> Option<real>)
    requires IsLine(prefix) && IsLine(text) && NoSpace(text) && |text| > 0
    requires parse(text).Some?
    ensures IsLine(prefix + "Peak level dB: " + text)
    ensures ReadPeak(prefix + "Peak level dB: " + text, parse) == Level(parse(text).value)
  {
    MatchPeakComplete(prefix, text);
  }

  /** Whatever came before, a last `Peak level dB` line decides the measured level. */
  lemma LastPeakLineWins(lines: seq<string>, prefix: string, text: string, parse: string -> Option<real>)
    requires Lines(lines) && IsLine(prefix) && IsLine(text) && NoSpace(text) && |text| > 0
    requires parse(text).Some?
    ensures Lines(lines + [prefix + "Peak level dB: " + text])
    ensures PeakResult(lines + [prefix + "Peak level dB: " + text], parse) == Ok(parse(text).value)
  {
    var line := prefix + "Peak level dB: " + text;
    ReadPeakLine(prefix, text, parse);
    var all := lines + [line];
    assert all[|all| - 1] == line;
    assert Lines(all) by {
      forall k | 0 <= k < |all| ensures IsLine(all[k]) {
        if k < |lines| { assert all[k] == lines[k]; }
      }
    }
  }

  /** The volume change pass 2 applies: the target level minus the measured peak. */
  function Adjustment(target: real, measured: real): (r: real)
    ensures measured + r == target
  {
    target - measured
  }

  /** A peak already at the target is left alone, and a higher target raises the volume. */
  lemma AdjustmentSign(target: real, measured: real)
    ensures Adjustment(target, measured) == 0.0 <==> target == measured
    ensures Adjustment(target, measured) > 0.0 <==> target > measured
  {
  }

  /** The arguments of `normalize`. */
  datatype NormalizationArgs = NormalizationArgs(
    inputFile: string, outputFile: string, overwrite: bool, targetLevel: real, ffmpegArgs: seq<string>)

  const AstatsOptions: seq<(string, string)> := [("measure_overall", "Peak_level"), ("measure_perchannel", "0")]

  /** The astats filter of pass 1: overall peak level only, no per-channel values. */
  const AstatsFilter: string := "astats=" + "measure_overall=Peak_level" + ":" + "measure_perchannel=0"

  /** The pass-1 filter reads back as `astats` with its two options, in order. */
  lemma AstatsFilterOptions()
    ensures Parse(AstatsFilter) == Some(("astats", AstatsOptions))
  {
    var settings := Settings(AstatsOptions);
    assert settings[0] == "measure_overall" + "=" + "Peak_level" == "measure_overall=Peak_level";
    assert settings[1] == "measure_perchannel" + "=" + "0" == "measure_perchannel=0";
    assert Join(settings, ':') == settings[0] + ":" + settings[1];
    assert Render("astats", AstatsOptions) == AstatsFilter;
    assert Plain("astats", AstatsOptions);
    RenderParse("astats", AstatsOptions);
  }

  /** `volume=<adjustment>dB`. */
  function VolumeFilter(adjustment: real, fmt: real -> string): string {
    "volume=" + fmt(adjustment) + "dB"
  }

  function Pass1Args(a: NormalizationArgs, info: AudioStream): seq<string> {
    Prefix(a.inputFile) + ["-filter", AstatsFilter] + CommonArgList(info, a.ffmpegArgs) + ["-f", "null", "-"]
  }

  function Pass2Args(a: NormalizationArgs, info: AudioStream, adjustment: real, fmt: real -> string): seq<string> {
    Prefix(a.inputFile) + ["-filter", VolumeFilter(adjustment, fmt)]
    + CommonArgList(info, a.ffmpegArgs) + (if a.overwrite then ["-y"] else []) + [a.outputFile]
  }

  /** The stderr lines of a run come split into lines. */
  predicate SplitRun(run: Run) {
    run.Spawned? && run.stderr.Some? ==> Lines(run.stderr.value)
  }

  /** What pass 1 gives back for a run of ffmpeg. */
  function Pass1Outcome(run: Run, parse: string -> Option<real>): Result<real, Error>
    requires SplitRun(run)
  {
    match ExecOutcome(run)
    case Err(e) => Err(Context("Failed to processing audio file to measure loudness values", e))
    case Ok(lines) =>
      match PeakResult(lines, parse)
      case Err(e) => Err(Context("Failed to parse Peak level measure result", e))
      case Ok(v) => Ok(v)
  }

  /** Pass 2 fails only when `exec` does. */
  function Pass2Outcome(run: Run): (r: Result<(), Error>)
    ensures r.Ok? <==> ExecOutcome(run).Ok?
  {
    match ExecOutcome(run)
    case Err(e) => Err(Context("Failed to normalizing audio file", e))
    case Ok(_) => Ok(())
  }

  /** The ffmpeg command of pass 1: the astats filter, the common arguments, then `-f null -`. */
  method Pass1Command(a: NormalizationArgs, info: AudioStream, host: Host) returns (ffmpeg: FFmpeg)
    ensures ffmpeg.cmd.program == ExecutablePath(host)
    ensures ffmpeg.cmd.args == Pass1Args(a, info)
  {
    ffmpeg := new FFmpeg(a.inputFile, host);
    var cmd := ffmpeg.cmd;
    cmd.Arg("-filter");
    cmd.Arg(AstatsFilter);
    ffmpeg.AddCommonArgs(info, a.ffmpegArgs);
    cmd.Arg("-f");
    cmd.Arg("null");
    cmd.Arg("-");
    Pass1ArgsAppended(a, info);
  }

  /** The pass-1 argument list, one appended argument at a time. */
  lemma Pass1ArgsAppended(a: NormalizationArgs, info: AudioStream)
    ensures Pass1Args(a, info) == Prefix(a.inputFile) + ["-filter"] + [AstatsFilter]
      + CommonArgList(info, a.ffmpegArgs) + ["-f"] + ["null"] + ["-"]
  {
  }

  /** `pass1`: measure, then scan the report for the peak level. */
  method Pass1(a: NormalizationArgs, info: AudioStream, host: Host, parse: string -> Option<real>, run: Run)
    returns (r: Result<real, Error>, args: seq<string>)
    requires SplitRun(run)
    ensures args == Pass1Args(a, info)
    ensures r == Pass1Outcome(run, parse)
  {
    var ffmpeg := Pass1Command(a, info, host);
    args := ffmpeg.cmd.args;
    var out, _, _ := ffmpeg.Exec(info.duration, run);
    if out.Err? {
      return Err(Context("Failed to processing audio file to measure loudness values", out.error)), args;
    }
    var level := ResultPass1(out.value, parse);
    if level.Err? {
      return Err(Context("Failed to parse Peak level measure result", level.error)), args;
    }
    r := Ok(level.value);
  }

  /** The ffmpeg command of pass 2: the volume filter, the common arguments, `-y` when overwriting, the output. */
  method Pass2Command(a: NormalizationArgs, info: AudioStream, adjustment: real, host: Host, fmt: real -> string)
    returns (ffmpeg: FFmpeg)
    ensures ffmpeg.cmd.program == ExecutablePath(host)
    ensures ffmpeg.cmd.args == Pass2Args(a, info, adjustment, fmt)
  {
    ffmpeg := new FFmpeg(a.inputFile, host);
    var cmd := ffmpeg.cmd;
    cmd.Arg("-filter");
    cmd.Arg(VolumeFilter(adjustment, fmt));
    ffmpeg.AddCommonArgs(info, a.ffmpegArgs);
    if a.overwrite {
      cmd.Arg("-y");
    }
    cmd.Arg(a.outputFile);
    Pass2ArgsAppended(a, info, adjustment, fmt);
  }

  /** The pass-2 argument list, one appended argument at a time. */
  lemma Pass2ArgsAppended(a: NormalizationArgs, info: AudioStream, adjustment: real, fmt: real -> string)
    ensures Pass2Args(a, info, adjustment, fmt) == Prefix(a.inputFile) + ["-filter"] + [VolumeFilter(adjustment, fmt)]
      + CommonArgList(info, a.ffmpegArgs) + (if a.overwrite then ["-y"] else []) + [a.outputFile]
  {
  }

  /** `pass2`: apply the volume change; the report is relayed, not read. */
  method Pass2(a: NormalizationArgs, info: AudioStream, adjustment: real, host: Host, fmt: real -> string, run: Run)
    returns (r: Result<(), Error>, args: seq<string>)
    ensures args == Pass2Args(a, info, adjustment, fmt)
    ensures r == Pass2Outcome(run)
  {
    var ffmpeg := Pass2Command(a, info, adjustment, host, fmt);
    args := ffmpeg.cmd.args;
    var out, _, _ := ffmpeg.Exec(info.duration, run);
    if out.Err? {
      return Err(Context("Failed to normalizing audio file", out.error)), args;
    }
    r := Ok(());
  }

  /**
   * `normalize`: probe the input, measure the peak, and change the volume by
   * the target level minus that peak.  `commands` holds the argument lists
   * of the ffmpeg runs that were started, in order.
   */
  method Normalize(a: NormalizationArgs, probe: Result<AudioStream, Error>, host: Host,
                   fmt: real -> string, parse: string -> Option<real>, run1: Run, run2: Run)
    returns (r: Result<(), Error>, commands: seq<seq<string>>)
    requires SplitRun(run1)
    ensures probe.Err? ==> r == Err(Context("Failed to get input file information", probe.error)) && commands == []
    ensures probe.Ok? ==> |commands| >= 1 && commands[0] == Pass1Args(a, probe.value)
    ensures probe.Ok? && Pass1Outcome(run1, parse).Err? ==>
      r == Err(Context("Failed to run pass 1 to measure loudness values", Pass1Outcome(run1, parse).error))
      && |commands| == 1
    ensures probe.Ok? && Pass1Outcome(run1, parse).Ok? ==>
      && |commands| == 2
      && commands[1] == Pass2Args(a, probe.value, Adjustment(a.targetLevel, Pass1Outcome(run1, parse).value), fmt)
      && (r.Ok? <==> Pass2Outcome(run2).Ok?)
      && (r.Err? ==> r == Err(Context("Failed to run pass 2 to normalize audio file", Pass2Outcome(run2).error)))
  {
    if probe.Err? {
      return Err(Context("Failed to get input file information", probe.error)), [];
    }
    var info := probe.value;
    var level, args1 := Pass1(a, info, host, parse, run1);
    commands := [args1];
    if level.Err? {
      return Err(Context("Failed to run pass 1 to measure loudness values", level.error)), commands;
    }
    var done, args2 := Pass2(a, info, a.targetLevel - level.value, host, fmt, run2);
    commands := [args1, args2];
    if done.Err? {
      return Err(Context("Failed to run pass 2 to normalize audio file", done.error)), commands;
    }
    r := Ok(());
  }

  /**
   * When pass 1 succeeds on a report whose last `Peak level dB` line gives
   * the value p, pass 2 asks for a volume change of exactly target - p.
   */
  lemma VolumeFromLastPeak(a: NormalizationArgs, info: AudioStream, fmt: real -> string, parse: string -> Option<real>,
                           stdout: seq<string>, lines: seq<string>, prefix: string, text: string)
    requires Lines(lines) && IsLine(prefix) && IsLine(text) && NoSpace(text) && |text| > 0
    requires parse(text).Some?
    ensures var run := Spawned(Some(stdout), Some(lines + [prefix + "Peak level dB: " + text]), Exited(Some(0)));
      && SplitRun(run)
      && Pass1Outcome(run, parse) == Ok(parse(text).value)
      && Pass2Args(a, info, Adjustment(a.targetLevel, Pass1Outcome(run, parse).value), fmt)[8]
         == VolumeFilter(a.targetLevel - parse(text).value, fmt)
  {
    LastPeakLineWins(lines, prefix, text, parse);
  }

  /**
   * Pass 1 carries the fixed prefix, the astats filter and the common
   * arguments, and ends with `-f null -`.
   */
  lemma Pass1ArgsShape(a: NormalizationArgs, info: AudioStream)
    ensures var r := Pass1Args(a, info);
      && |r| == 12 + |CommonArgList(info, a.ffmpegArgs)|
      && r[..7] == Prefix(a.inputFile)
      && r[7] == "-filter" && Parse(r[8]) == Some(("astats", AstatsOptions))
      && r[|r| - 3..] == ["-f", "null", "-"]
  {
    AstatsFilterOptions();
  }

  /** Overwriting adds exactly one `-y`, just before the output file, which is always last. */
  lemma Pass2ArgsOverwrite(a: NormalizationArgs, info: AudioStream, adjustment: real, fmt: real -> string)
    ensures var keep := Pass2Args(a.(overwrite := false), info, adjustment, fmt);
      var over := Pass2Args(a.(overwrite := true), info, adjustment, fmt);
      && keep[|keep| - 1] == a.outputFile
      && keep[7] == "-filter" && keep[8] == VolumeFilter(adjustment, fmt)
      && over == keep[..|keep| - 1] + ["-y", a.outputFile]
  {
  }
}
