/**
 * src/algorithm/ebu_r128.rs: two-pass EBU R128 normalization with the
 * loudnorm filter.  Pass 1 measures and its report is scanned by
 * `result_pass1`; pass 2 applies the measured values, with the measured
 * `target_offset` as the offset.
 */
module AlgorithmEbuR128 {
  import opened Wrappers
  import opened Errors
  import opened Patterns
  import opened FilterGraph
  import opened LoudnormFilter
  import opened Process
  import opened Progress
  import opened Loudnorm
  import opened ToolFfmpeg

  /** The values `result_pass1` fills; every field starts at its default (0.0 or empty). */
  datatype LoudnessValues = LoudnessValues(
    inputI: real, inputLra: real, inputTp: real, inputThresh: real,
    outputI: real, outputLra: real, outputTp: real, outputThresh: real,
    normalizationType: string, targetOffset: real)

  const Defaults := LoudnessValues(0.0, 0.0, 0.0, 0.0, 0.0, 0.0, 0.0, 0.0, "", 0.0)

  function Get(v: LoudnessValues, f: Field): real {
    match f
    case InputI => v.inputI
    case InputTp => v.inputTp
    case InputLra => v.inputLra
    case InputThresh => v.inputThresh
    case OutputI => v.outputI
    case OutputTp => v.outputTp
    case OutputLra => v.outputLra
    case OutputThresh => v.outputThresh
    case TargetOffset => v.targetOffset
  }

  /** The record with one numeric field replaced. */
  function Set(v: LoudnessValues, f: Field, x: real): (r: LoudnessValues)
    ensures Get(r, f) == x
    ensures forall g :: g != f ==> Get(r, g) == Get(v, g)
    ensures r.normalizationType == v.normalizationType
  {
    match f
    case InputI => v.(inputI := x)
    case InputTp => v.(inputTp := x)
    case InputLra => v.(inputLra := x)
    case InputThresh => v.(inputThresh := x)
    case OutputI => v.(outputI := x)
    case OutputTp => v.(outputTp := x)
    case OutputLra => v.(outputLra := x)
    case OutputThresh => v.(outputThresh := x)
    case TargetOffset => v.(targetOffset := x)
  }

  /** The record after one accepted entry. */
  function Record(v: LoudnessValues, e: Entry): LoudnessValues {
    match e
    case NormalizationType(text) => v.(normalizationType := text)
    case Measurement(f, x) => Set(v, f, x)
    case _ => v
  }

  /** The record after the accepted entries, one after the other. */
  function ValuesOf(entries: seq<Entry>): LoudnessValues
    decreases |entries|
  {
    if |entries| == 0 then Defaults
    else Record(ValuesOf(entries[..|entries| - 1]), entries[|entries| - 1])
  }

  /** Each field holds its last measurement, or its default when it was never measured. */
  lemma {:induction false} ValuesOfFields(entries: seq<Entry>, f: Field)
    ensures Get(ValuesOf(entries), f) == LastMeasure(entries, f).GetOr(0.0)
    ensures ValuesOf(entries).normalizationType == LastType(entries).GetOr("")
    decreases |entries|
  {
    if |entries| > 0 {
      ValuesOfFields(entries[..|entries| - 1], f);
    }
  }

  /** The decision at the end of `result_pass1`. */
  function Decide(count: nat, log: string, errParse: string, values: LoudnessValues): Result<LoudnessValues, Error> {
    if count == 0 then
      if errParse != "" then Err(Bail("ffmpeg returns strange loudness values: " + errParse))
      else Err(Bail("Failed run to ffmpeg to measure loudness values: \n" + log))
    else if count != 10 then Err(WrongCount(count))
    else Ok(values)
  }

  /** What `result_pass1` returns for the stderr lines of pass 1. */
  function Report(lines: seq<string>, parse: string -> Option<real>): Result<LoudnessValues, Error> {
    var inside := InsideLines(lines);
    var entries := EntriesOf(inside, parse);
    Decide(|entries|, LogOf(OutsideLines(lines)), NotesOf(inside, parse), ValuesOf(entries))
  }

  /** The record after one more line inside the block. */
  lemma ValuesStep(inside: seq<string>, line: string, parse: string -> Option<real>)
    ensures ValuesOf(EntriesOf(inside + [line], parse)) == Record(ValuesOf(EntriesOf(inside, parse)), Classify(line, parse))
  {
    InsideStep(inside, line, parse);
    var entries := EntriesOf(inside, parse);
    var e := Classify(line, parse);
    if Accepted(e) {
      assert (entries + [e])[..|entries|] == entries;
    } else {
      assert entries + [] == entries;
    }
  }

  /**
   * One line inside the block: `normalization_type` is kept as text; any
   * other key needs a value that parses before its name is looked up.
   */
  method ReadReportLine(line: string, parse: string -> Option<real>, values: LoudnessValues, errParse: string, count: nat)
    returns (values': LoudnessValues, errParse': string, count': nat)
    ensures values' == Record(values, Classify(line, parse))
    ensures errParse' == errParse + Note(Classify(line, parse), line)
    ensures count' == count + (if Accepted(Classify(line, parse)) then 1 else 0)
  {
    values', errParse', count' := values, errParse, count;
    match MatchValue(line) {
      case Some((field, valueText)) =>
        ClassifyMatched(line, field, valueText, parse);
        if field == "normalization_type" {
          values' := values.(normalizationType := valueText);
          count' := count + 1;
        } else {
          match parse(valueText) {
            case Some(value) =>
              match FieldOf(field) {
                case Some(f) =>
                  values' := Set(values, f, value);
                  count' := count + 1;
                case None =>
                  errParse' := errParse + "Unknown loudness value: " + line + "\n";
              }
            case None =>
              errParse' := errParse + "Invalid loudness value: " + line + "\n";
          }
        }
      case None =>
        errParse' := errParse + "Failed to parse loudness value: " + line + "\n";
    }
  }

  /**
   * `result_pass1`: the lines of the loudnorm report, with the block flag,
   * the log, the parse-error text, the record and the count kept up to date
   * line by line.
   */
  method ResultPass1(lines: seq<string>, parse: string -> Option<real>) returns (r: Result<LoudnessValues, Error>)
    ensures r == Report(lines, parse)
  {
    var isJson := false;
    var errLog := "";
    var errParse := "";
    var values := Defaults;
    var count := 0;
    var i := 0;
    while i < |lines|
      invariant 0 <= i <= |lines|
      invariant isJson == OpenAfter(lines[..i])
      invariant errLog == LogOf(OutsideLines(lines[..i]))
      invariant errParse == NotesOf(InsideLines(lines[..i]), parse)
      invariant count == |EntriesOf(InsideLines(lines[..i]), parse)|
      invariant values == ValuesOf(EntriesOf(InsideLines(lines[..i]), parse))
    {
      var line := lines[i];
      ScanStep(lines, i);
      if line == "{" {
        isJson := true;
      } else if line == "}" {
        isJson := false;
      } else if !isJson {
        LogStep(OutsideLines(lines[..i]), line);
        errLog := errLog + line + "\n";
      } else {
        InsideStep(InsideLines(lines[..i]), line, parse);
        ValuesStep(InsideLines(lines[..i]), line, parse);
        values, errParse, count := ReadReportLine(line, parse, values, errParse, count);
      }
      i := i + 1;
    }
    assert lines[..|lines|] == lines;
    if count == 0 {
      if errParse != "" {
        r := Err(Bail("ffmpeg returns strange loudness values: " + errParse));
      } else {
        r := Err(Bail("Failed run to ffmpeg to measure loudness values: \n" + errLog));
      }
    } else if count != 10 {
      r := Err(WrongCount(count));
    } else {
      r := Ok(values);
    }
  }

  /**
   * Exactly ten accepted lines inside the block succeed, whatever else the
   * block held, and each field then holds its last measurement (0.0 when a
   * repeated key left it unmeasured).
   */
  lemma ReportOutcome(lines: seq<string>, parse: string -> Option<real>, f: Field)
    ensures var entries := EntriesOf(InsideLines(lines), parse);
      && (Report(lines, parse).Ok? <==> |entries| == 10)
      && (Report(lines, parse).Ok? ==>
            && Get(Report(lines, parse).value, f) == LastMeasure(entries, f).GetOr(0.0)
            && Report(lines, parse).value.normalizationType == LastType(entries).GetOr(""))
      && (|entries| != 0 && |entries| != 10 ==> Report(lines, parse) == Err(WrongCount(|entries|)))
  {
    ValuesOfFields(EntriesOf(InsideLines(lines), parse), f);
  }

  /**
   * With no accepted line the scan fails: with the parse errors when the
   * block held any line, otherwise with the log of the lines outside it.
   */
  lemma ReportNoValues(lines: seq<string>, parse: string -> Option<real>)
    requires |EntriesOf(InsideLines(lines), parse)| == 0
    ensures |InsideLines(lines)| > 0 ==>
      Report(lines, parse) == Err(Bail("ffmpeg returns strange loudness values: " + NotesOf(InsideLines(lines), parse)))
    ensures |InsideLines(lines)| == 0 ==>
      Report(lines, parse) == Err(Bail("Failed run to ffmpeg to measure loudness values: \n" + LogOf(OutsideLines(lines))))
  {
    NotesEmpty(InsideLines(lines), parse);
  }

  /**
   * The count counts lines, not keys: ten measurements of `input_i` pass,
   * and `input_tp`, never measured, keeps its default 0.0.
   */
  lemma RepeatedKey(lines: seq<string>, parse: string -> Option<real>)
    requires var entries := EntriesOf(InsideLines(lines), parse);
      |entries| == 10 && forall k | 0 <= k < 10 :: entries[k].Measurement? && entries[k].field == InputI
    ensures Report(lines, parse).Ok? && Report(lines, parse).value.inputTp == 0.0
  {
    var entries := EntriesOf(InsideLines(lines), parse);
    LastMeasureNone(entries, InputTp);
    ValuesOfFields(entries, InputTp);
  }

  /** The arguments of `normalize`. */
  datatype NormalizationArgs = NormalizationArgs(
    inputFile: string, outputFile: string, overwrite: bool,
    targets: Targets, offset: real, ffmpegArgs: seq<string>)

  /** The measured input values pass 2 hands back to the filter. */
  function MeasuredOf(v: LoudnessValues): Measured {
    Measured(v.inputI, v.inputLra, v.inputTp, v.inputThresh)
  }

  function Pass1Args(a: NormalizationArgs, info: AudioStream, fmt: real -> string): seq<string> {
    Prefix(a.inputFile) + ["-filter", Pass1Filter(a.targets, a.offset, fmt)]
    + CommonArgList(info, a.ffmpegArgs) + ["-f", "null", "-"]
  }

  /** Pass 2 uses the measured `target_offset` as its offset. */
  function Pass2Args(a: NormalizationArgs, info: AudioStream, v: LoudnessValues, fmt: real -> string): seq<string> {
    Prefix(a.inputFile) + ["-filter", Pass2Filter(a.targets, v.targetOffset, MeasuredOf(v), fmt)]
    + CommonArgList(info, a.ffmpegArgs) + (if a.overwrite then ["-y"] else []) + [a.outputFile]
  }

  /** What pass 1 gives back for a run of ffmpeg. */
  function Pass1Outcome(run: Run, parse: string -> Option<real>): Result<LoudnessValues, Error> {
    match ExecOutcome(run)
    case Err(e) => Err(Context("Failed to processing audio file to measure loudness values", e))
    case Ok(lines) =>
      match Report(lines, parse)
      case Err(e) => Err(Context("Failed to parse measure result", e))
      case Ok(v) => Ok(v)
  }

  /** Pass 2 fails only when `exec` does: its report is relayed, never parsed. */
  function Pass2Outcome(run: Run): (r: Result<(), Error>)
    ensures r.Ok? <==> ExecOutcome(run).Ok?
  {
    match ExecOutcome(run)
    case Err(e) => Err(Context("Failed to normalizing audio file", e))
    case Ok(_) => Ok(())
  }

  /** The ffmpeg command of pass 1: the filter, the common arguments, then `-f null -`. */
  method Pass1Command(a: NormalizationArgs, info: AudioStream, host: Host, fmt: real -> string)
    returns (ffmpeg: FFmpeg)
    ensures ffmpeg.cmd.program == ExecutablePath(host)
    ensures ffmpeg.cmd.args == Pass1Args(a, info, fmt)
  {
    ffmpeg := new FFmpeg(a.inputFile, host);
    var cmd := ffmpeg.cmd;
    cmd.Arg("-filter");
    cmd.Arg(Pass1Filter(a.targets, a.offset, fmt));
    ffmpeg.AddCommonArgs(info, a.ffmpegArgs);
    cmd.Arg("-f");
    cmd.Arg("null");
    cmd.Arg("-");
    Pass1ArgsAppended(a, info, fmt);
  }

  /** The pass-1 argument list, one appended argument at a time. */
  lemma Pass1ArgsAppended(a: NormalizationArgs, info: AudioStream, fmt: real -> string)
    ensures Pass1Args(a, info, fmt) == Prefix(a.inputFile) + ["-filter"] + [Pass1Filter(a.targets, a.offset, fmt)]
      + CommonArgList(info, a.ffmpegArgs) + ["-f"] + ["null"] + ["-"]
  {
  }

  /** `pass1`: measure, then scan the report. */
  method Pass1(a: NormalizationArgs, info: AudioStream, host: Host, fmt: real -> string,
               parse: string -> Option<real>, run: Run)
    returns (r: Result<LoudnessValues, Error>, args: seq<string>)
    ensures args == Pass1Args(a, info, fmt)
    ensures r == Pass1Outcome(run, parse)
  {
    var ffmpeg := Pass1Command(a, info, host, fmt);
    args := ffmpeg.cmd.args;
    var out, _, _ := ffmpeg.Exec(info.duration, run);
    if out.Err? {
      return Err(Context("Failed to processing audio file to measure loudness values", out.error)), args;
    }
    var values := ResultPass1(out.value, parse);
    if values.Err? {
      return Err(Context("Failed to parse measure result", values.error)), args;
    }
    r := Ok(values.value);
  }

  /**
   * The ffmpeg command of pass 2: the filter, built as the targets with the
   * measured offset, extended by the measured values and by
   * `linear=true:print_format=json`; the common arguments; `-y` when
   * overwriting; the output file.
   */
  method Pass2Command(a: NormalizationArgs, info: AudioStream, v: LoudnessValues, host: Host, fmt: real -> string)
    returns (ffmpeg: FFmpeg)
    ensures ffmpeg.cmd.program == ExecutablePath(host)
    ensures ffmpeg.cmd.args == Pass2Args(a, info, v, fmt)
  {
    var filter := BuildPass2Filter(a.targets, v.targetOffset, MeasuredOf(v), fmt);
    ffmpeg := new FFmpeg(a.inputFile, host);
    var cmd := ffmpeg.cmd;
    cmd.Arg("-filter");
    cmd.Arg(filter);
    ffmpeg.AddCommonArgs(info, a.ffmpegArgs);
    if a.overwrite {
      cmd.Arg("-y");
    }
    cmd.Arg(a.outputFile);
    Pass2ArgsAppended(a, info, v, fmt);
  }

  /** The pass-2 argument list, one appended argument at a time. */
  lemma Pass2ArgsAppended(a: NormalizationArgs, info: AudioStream, v: LoudnessValues, fmt: real -> string)
    ensures Pass2Args(a, info, v, fmt) == Prefix(a.inputFile) + ["-filter"]
      + [Pass2Filter(a.targets, v.targetOffset, MeasuredOf(v), fmt)]
      + CommonArgList(info, a.ffmpegArgs) + (if a.overwrite then ["-y"] else []) + [a.outputFile]
  {
  }

  /** `pass2`: normalize; the report is relayed, not read. */
  method Pass2(a: NormalizationArgs, info: AudioStream, v: LoudnessValues, host: Host, fmt: real -> string, run: Run)
    returns (r: Result<(), Error>, args: seq<string>)
    ensures args == Pass2Args(a, info, v, fmt)
    ensures r == Pass2Outcome(run)
  {
    var ffmpeg := Pass2Command(a, info, v, host, fmt);
    args := ffmpeg.cmd.args;
    var out, _, _ := ffmpeg.Exec(info.duration, run);
    if out.Err? {
      return Err(Context("Failed to normalizing audio file", out.error)), args;
    }
    r := Ok(());
  }

  /**
   * `normalize`: probe the input, run pass 1, and run pass 2 with the
   * measured values.  `commands` holds the argument lists of the ffmpeg runs
   * that were started, in order.
   */
  method Normalize(a: NormalizationArgs, probe: Result<AudioStream, Error>, host: Host,
                   fmt: real -> string, parse: string -> Option<real>, run1: Run, run2: Run)
    returns (r: Result<(), Error>, commands: seq<seq<string>>)
    ensures probe.Err? ==> r == Err(Context("Failed to get input file information", probe.error)) && commands == []
    ensures probe.Ok? ==> |commands| >= 1 && commands[0] == Pass1Args(a, probe.value, fmt)
    ensures probe.Ok? && Pass1Outcome(run1, parse).Err? ==>
      r == Err(Context("Failed to run pass 1 to measure loudness values", Pass1Outcome(run1, parse).error))
      && |commands| == 1
    ensures probe.Ok? && Pass1Outcome(run1, parse).Ok? ==>
      && |commands| == 2
      && commands[1] == Pass2Args(a, probe.value, Pass1Outcome(run1, parse).value, fmt)
      && (r.Ok? <==> Pass2Outcome(run2).Ok?)
      && (r.Err? ==> r == Err(Context("Failed to run pass 2 to normalize audio file", Pass2Outcome(run2).error)))
  {
    if probe.Err? {
      return Err(Context("Failed to get input file information", probe.error)), [];
    }
    var info := probe.value;
    var values, args1 := Pass1(a, info, host, fmt, parse, run1);
    commands := [args1];
    if values.Err? {
      return Err(Context("Failed to run pass 1 to measure loudness values", values.error)), commands;
    }
    var done, args2 := Pass2(a, info, values.value, host, fmt, run2);
    commands := [args1, args2];
    if done.Err? {
      return Err(Context("Failed to run pass 2 to normalize audio file", done.error)), commands;
    }
    r := Ok(());
  }

  /**
   * The pass-2 filter argument reads back as the user's targets, the
   * measured `target_offset` as the offset (not the offset the user asked
   * for), the four measured input values in order, then
   * `linear=true:print_format=json`.
   */
  lemma Pass2Threading(a: NormalizationArgs, info: AudioStream, v: LoudnessValues, fmt: real -> string)
    requires forall x :: ':' !in fmt(x)
    ensures var r := Pass2Args(a, info, v, fmt);
      && r[7] == "-filter"
      && Parse(r[8]) == Some(("loudnorm", [
           ("i", fmt(a.targets.level)), ("lra", fmt(a.targets.range)), ("tp", fmt(a.targets.truePeak)),
           ("offset", fmt(v.targetOffset)),
           ("measured_i", fmt(v.inputI)), ("measured_lra", fmt(v.inputLra)),
           ("measured_tp", fmt(v.inputTp)), ("measured_thresh", fmt(v.inputThresh)),
           ("linear", "true"), ("print_format", "json")]))
  {
    Pass2FilterOptions(a.targets, v.targetOffset, MeasuredOf(v), fmt);
  }

  /** Pass 1 starts with the fixed prefix and ends with `-f null -`. */
  lemma Pass1ArgsShape(a: NormalizationArgs, info: AudioStream, fmt: real -> string)
    ensures var r := Pass1Args(a, info, fmt);
      && |r| >= 12 && r[..7] == Prefix(a.inputFile)
      && r[7] == "-filter" && r[8] == Pass1Filter(a.targets, a.offset, fmt)
      && r[|r| - 3..] == ["-f", "null", "-"]
  {
  }

  /**
   * Overwriting adds exactly one `-y`, just before the output file, which is
   * always the last argument.
   */
  lemma Pass2ArgsOverwrite(a: NormalizationArgs, info: AudioStream, v: LoudnessValues, fmt: real -> string)
    ensures var keep := Pass2Args(a.(overwrite := false), info, v, fmt);
      var over := Pass2Args(a.(overwrite := true), info, v, fmt);
      && keep[|keep| - 1] == a.outputFile
      && over == keep[..|keep| - 1] + ["-y", a.outputFile]
  {
  }
}
