/**
 * src/algorithm/dialogue.rs: one-pass dialogue normalization, which hands
 * the target level to ffmpeg as its `-dialnorm` option.
 */
module Dialogue {
  import opened Wrappers
  import opened Errors
  import opened Lexical
  import opened Process
  import opened ToolFfmpeg
  import Progress

  /** Rust's `i8`. */
  newtype I8 = x: int | -128 <= x < 128

  /** The arguments of `normalize`. */
  datatype NormalizationArgs = NormalizationArgs(
    inputFile: string, outputFile: string, overwrite: bool, targetLevel: I8, ffmpegArgs: seq<string>)

  function DialogueArgs(a: NormalizationArgs, info: AudioStream): seq<string> {
    Prefix(a.inputFile) + ["-dialnorm", IntToDecimal(a.targetLevel as int)]
    + CommonArgList(info, a.ffmpegArgs) + (if a.overwrite then ["-y"] else []) + [a.outputFile]
  }

  /** What the single run gives back. */
  function Outcome(run: Run): (r: Result<(), Error>)
    ensures r.Ok? <==> ExecOutcome(run).Ok?
    ensures r.Err? ==> r.error == Context("Failed to normalizing audio file", ExecOutcome(run).error)
  {
    match ExecOutcome(run)
    case Err(e) => Err(Context("Failed to normalizing audio file", e))
    case Ok(_) => Ok(())
  }

  /** The ffmpeg command: `-dialnorm <level>`, the common arguments, `-y` when overwriting, the output. */
  method DialogueCommand(a: NormalizationArgs, info: AudioStream, host: Host) returns (ffmpeg: FFmpeg)
    ensures ffmpeg.cmd.program == ExecutablePath(host)
    ensures ffmpeg.cmd.args == DialogueArgs(a, info)
  {
    ffmpeg := new FFmpeg(a.inputFile, host);
    var cmd := ffmpeg.cmd;
    cmd.Arg("-dialnorm");
    cmd.Arg(IntToDecimal(a.targetLevel as int));
    ffmpeg.AddCommonArgs(info, a.ffmpegArgs);
    if a.overwrite {
      cmd.Arg("-y");
    }
    cmd.Arg(a.outputFile);
    DialogueArgsAppended(a, info);
  }

  /** The argument list, one appended argument at a time. */
  lemma DialogueArgsAppended(a: NormalizationArgs, info: AudioStream)
    ensures DialogueArgs(a, info) == Prefix(a.inputFile) + ["-dialnorm"] + [IntToDecimal(a.targetLevel as int)]
      + CommonArgList(info, a.ffmpegArgs) + (if a.overwrite then ["-y"] else []) + [a.outputFile]
  {
  }

  /**
   * `normalize`: probe the input, then run ffmpeg once with the probed
   * duration as the length of its progress bar.  `commands` holds the
   * argument list of the run, when it was started.
   */
  method Normalize(a: NormalizationArgs, probe: Result<AudioStream, Error>, host: Host, run: Run)
    returns (r: Result<(), Error>, commands: seq<seq<string>>, bar: Option<Progress.Bar>)
    ensures probe.Err? ==> r == Err(Context("Failed to get input file information", probe.error)) && commands == []
    ensures probe.Err? ==> bar.None?
    ensures probe.Ok? ==> commands == [DialogueArgs(a, probe.value)] && r == Outcome(run)
    ensures probe.Ok? ==> bar == BarAfter(probe.value.duration, run)
  {
    if probe.Err? {
      return Err(Context("Failed to get input file information", probe.error)), [], None;
    }
    var info := probe.value;
    var ffmpeg := DialogueCommand(a, info, host);
    commands := [ffmpeg.cmd.args];
    var out, b, _ := ffmpeg.Exec(info.duration, run);
    bar := b;
    if out.Err? {
      return Err(Context("Failed to normalizing audio file", out.error)), commands, bar;
    }
    r := Ok(());
  }

  /**
   * The level ffmpeg reads back from the `-dialnorm` argument is the target
   * level; the custom arguments follow the codec, and the output is last.
   */
  lemma DialnormRoundTrip(a: NormalizationArgs, info: AudioStream)
    ensures var r := DialogueArgs(a, info);
      && r[..7] == Prefix(a.inputFile)
      && r[7] == "-dialnorm" && ParseI64(r[8]) == Some(a.targetLevel as int)
      && r[9..9 + |CommonArgList(info, a.ffmpegArgs)|] == CommonArgList(info, a.ffmpegArgs)
      && r[|r| - 1] == a.outputFile
  {
    var common := CommonArgList(info, a.ffmpegArgs);
    var tail := (if a.overwrite then ["-y"] else []) + [a.outputFile];
    var r := DialogueArgs(a, info);
    assert r == Prefix(a.inputFile) + ["-dialnorm", IntToDecimal(a.targetLevel as int)] + common + tail;
    assert r[..7] == Prefix(a.inputFile);
    assert r[9..9 + |common|] == common;
    ParseI64RoundTrip(a.targetLevel as int);
  }

  /** Overwriting adds exactly one `-y`, just before the output file. */
  lemma DialogueArgsOverwrite(a: NormalizationArgs, info: AudioStream)
    ensures var keep := DialogueArgs(a.(overwrite := false), info);
      DialogueArgs(a.(overwrite := true), info) == keep[..|keep| - 1] + ["-y", a.outputFile]
  {
  }
}
