/**
 * src/tool/ffmpeg.rs: the ffmpeg command the peak, dialogue and EBU R128
 * algorithms build, and `exec`, which follows the progress stream and then
 * decides from the exit status whether the report on stderr is handed back.
 */
module ToolFfmpeg {
  import opened Wrappers
  import opened Lexical
  import opened Errors
  import opened Process
  import opened Progress

  /** The audio stream description ffprobe gives back (src/tool/ffprobe.rs). */
  datatype AudioStream = AudioStream(codecName: string, duration: Option<Duration>, bitRate: Option<string>)

  /** What `add_common_args` appends: the bit rate when known, the codec, then the custom arguments. */
  function CommonArgList(info: AudioStream, custom: seq<string>): seq<string> {
    (if info.bitRate.Some? then ["-b:a", info.bitRate.value] else []) + ["-c:a", info.codecName] + custom
  }

  /**
   * `-b:a <rate>` leads exactly when the bit rate is known, `-c:a <codec>`
   * follows, and the custom arguments close the list unchanged and in order.
   */
  lemma CommonArgListShape(info: AudioStream, custom: seq<string>)
    ensures var r := CommonArgList(info, custom);
      var k := if info.bitRate.Some? then 2 else 0;
      && |r| == k + 2 + |custom|
      && (r[0] == "-b:a" <==> info.bitRate.Some?)
      && (info.bitRate.Some? ==> r[1] == info.bitRate.value)
      && r[k] == "-c:a" && r[k + 1] == info.codecName
      && r[k + 2..] == custom
  {
  }

  /** The stderr lines `exec` relays before it fails on the exit status or on the wait. */
  function Relayed(run: Run): seq<string> {
    if run.Spawned? && run.stdout.Some? && !Success(run.wait) then run.stderr.GetOr([]) else []
  }

  /**
   * What `exec` returns: the stderr lines of a child that was spawned, whose
   * stdout could be read and that exited with success; otherwise the error.
   */
  function ExecOutcome(run: Run): (r: Result<seq<string>, Error>)
    ensures r.Ok? <==> run.Spawned? && run.stdout.Some? && Success(run.wait) && run.stderr.Some?
    ensures r.Ok? ==> r.value == run.stderr.value
    ensures run.Spawned? && run.stdout.None? ==> r == Err(Bail("Failed to open FFmpeg stdout"))
  {
    match run
    case SpawnFailed(reason) => Err(Context("Failed to run FFmpeg tool", Bail(reason)))
    case Spawned(stdout, stderr, wait) =>
      if stdout.None? then Err(Bail("Failed to open FFmpeg stdout"))
      else match wait
        case WaitFailed(reason) => Err(Context("Failed to run FFmpeg tool", Bail(reason)))
        case Exited(code) =>
          if !Success(wait) then
            match code
            case Some(c) => Err(Bail("Failed to run FFmpeg with exit code=" + IntToDecimal(c)))
            case None => Err(Bail("Failed to run FFmpeg without exit code"))
          else match stderr
            case None => Err(Bail("Failed to open FFmpeg stderr"))
            case Some(lines) => Ok(lines)
  }

  /**
   * A failing exit status always fails `exec`, and the message names the
   * exit code exactly when the status has one; the stderr report is relayed.
   */
  lemma ExitStatusGate(stdout: seq<string>, stderr: Option<seq<string>>, code: Option<int>)
    requires code != Some(0)
    ensures var run := Spawned(Some(stdout), stderr, Exited(code));
      && ExecOutcome(run).Err?
      && Relayed(run) == stderr.GetOr([])
      && (code.Some? ==> ExecOutcome(run) == Err(Bail("Failed to run FFmpeg with exit code=" + IntToDecimal(code.value))))
      && (code.None? ==> ExecOutcome(run) == Err(Bail("Failed to run FFmpeg without exit code")))
  {
  }

  /** The bar `exec` leaves behind: none before a spawn, untouched without stdout. */
  function BarAfter(duration: Option<Duration>, run: Run): Option<Bar> {
    if run.SpawnFailed? then None
    else if run.stdout.None? then Some(NewBar(duration))
    else Some(Replay(NewBar(duration), run.stdout.value, duration.Some?))
  }

  class FFmpeg {
    var cmd: Command

    /** `FFmpeg::new`: the executable and the fixed seven-argument prefix. */
    constructor (inputFile: string, host: Host)
      ensures fresh(cmd)
      ensures cmd.program == ExecutablePath(host) && cmd.args == Prefix(inputFile)
    {
      var c := new Command(ExecutablePath(host));
      c.Arg("-progress");
      c.Arg("-");
      c.Arg("-nostats");
      c.Arg("-nostdin");
      c.Arg("-hide_banner");
      c.Arg("-i");
      c.Arg(inputFile);
      cmd := c;
    }

    /** `add_common_args`: bit rate, codec, then each custom argument in turn. */
    method AddCommonArgs(info: AudioStream, custom: seq<string>)
      modifies cmd
      ensures cmd.program == old(cmd.program)
      ensures cmd.args == old(cmd.args) + CommonArgList(info, custom)
    {
      if info.bitRate.Some? {
        cmd.Arg("-b:a");
        cmd.Arg(info.bitRate.value);
      }
      cmd.Arg("-c:a");
      cmd.Arg(info.codecName);
      ghost var before := cmd.args;
      var i := 0;
      while i < |custom|
        invariant 0 <= i <= |custom|
        invariant cmd.program == old(cmd.program)
        invariant cmd.args == before + custom[..i]
      {
        cmd.Arg(custom[i]);
        i := i + 1;
        assert custom[..i] == custom[..i - 1] + [custom[i - 1]];
      }
      assert custom[..|custom|] == custom;
    }

    /**
     * `exec`: spawn, follow the progress on stdout, wait, and hand back the
     * stderr report (the printing of the command and the bar are not modelled).
     */
    method Exec(duration: Option<Duration>, run: Run)
      returns (r: Result<seq<string>, Error>, bar: Option<Bar>, relayed: seq<string>)
      ensures r == ExecOutcome(run)
      ensures bar == BarAfter(duration, run)
      ensures relayed == Relayed(run)
    {
      relayed := [];
      if run.SpawnFailed? {
        return Err(Context("Failed to run FFmpeg tool", Bail(run.reason))), None, relayed;
      }
      bar := Some(NewBar(duration));
      if run.stdout.None? {
        return Err(Bail("Failed to open FFmpeg stdout")), bar, relayed;
      }
      var b := Follow(duration, run.stdout.value);
      bar := Some(b);
      match run.wait {
        case Exited(code) =>
          if !Success(run.wait) {
            relayed := run.stderr.GetOr([]);
            if code.Some? {
              return Err(Bail("Failed to run FFmpeg with exit code=" + IntToDecimal(code.value))), bar, relayed;
            } else {
              return Err(Bail("Failed to run FFmpeg without exit code")), bar, relayed;
            }
          }
        case WaitFailed(reason) =>
          relayed := run.stderr.GetOr([]);
          return Err(Context("Failed to run FFmpeg tool", Bail(reason))), bar, relayed;
      }
      if run.stderr.None? {
        r := Err(Bail("Failed to open FFmpeg stderr"));
      } else {
        r := Ok(run.stderr.value);
      }
    }
  }
}
