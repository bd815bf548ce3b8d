/**
 * src/ffmpeg.rs: the earlier `FFmpeg` wrapper.  `exec` follows the progress
 * stream and then scans the loudnorm report with `FFmpeg::result`, which
 * keeps each measurement as an `Option` and, unlike `result_pass1`, fails
 * on parse errors even after ten values were counted.  It never waits for
 * the child, so the exit status plays no part.
 */
module Ffmpeg {
  import opened Wrappers
  import opened Errors
  import opened Process
  import opened Progress
  import opened Patterns
  import opened Loudnorm

  /** `EbuLoudnessValues`: every value absent until its line is read. */
  datatype EbuLoudnessValues = EbuLoudnessValues(
    inputI: Option<real>, inputLra: Option<real>, inputTp: Option<real>, inputThresh: Option<real>,
    outputI: Option<real>, outputLra: Option<real>, outputTp: Option<real>, outputThresh: Option<real>,
    normalizationType: Option<string>, targetOffset: Option<real>)

  const Absent := EbuLoudnessValues(None, None, None, None, None, None, None, None, None, None)

  function Get(v: EbuLoudnessValues, f: Field): Option<real> {
    match f
    case InputI => v.inputI
    case InputTp => v.inputTp
    case InputLra => v.inputLra
    case InputThresh => v.inputThresh
    case OutputI => v.outputI
    case OutputTp => v.outputTp
    case OutputLra => v.outputLra
    case OutputThresh => v.outputThresh
    case TargetOffset => v.targetOffset
  }

  /** The record with one measurement present. */
  function Set(v: EbuLoudnessValues, f: Field, x: real): (r: EbuLoudnessValues)
    ensures Get(r, f) == Some(x)
    ensures forall g :: g != f ==> Get(r, g) == Get(v, g)
    ensures r.normalizationType == v.normalizationType
  {
    match f
    case InputI => v.(inputI := Some(x))
    case InputTp => v.(inputTp := Some(x))
    case InputLra => v.(inputLra := Some(x))
    case InputThresh => v.(inputThresh := Some(x))
    case OutputI => v.(outputI := Some(x))
    case OutputTp => v.(outputTp := Some(x))
    case OutputLra => v.(outputLra := Some(x))
    case OutputThresh => v.(outputThresh := Some(x))
    case TargetOffset => v.(targetOffset := Some(x))
  }

  function Record(v: EbuLoudnessValues, e: Entry): EbuLoudnessValues {
    match e
    case NormalizationType(text) => v.(normalizationType := Some(text))
    case Measurement(f, x) => Set(v, f, x)
    case _ => v
  }

  function ValuesOf(entries: seq<Entry>): EbuLoudnessValues
    decreases |entries|
  {
    if |entries| == 0 then Absent
    else Record(ValuesOf(entries[..|entries| - 1]), entries[|entries| - 1])
  }

  /** A value is present exactly when some entry gave it, and it is the last one given. */
  lemma {:induction false} ValuesOfFields(entries: seq<Entry>, f: Field)
    ensures Get(ValuesOf(entries), f) == LastMeasure(entries, f)
    ensures ValuesOf(entries).normalizationType == LastType(entries)
    decreases |entries|
  {
    if |entries| > 0 {
      ValuesOfFields(entries[..|entries| - 1], f);
    }
  }

  lemma ValuesStep(inside: seq<string>, line: string, parse: string -> Option<real>)
    ensures ValuesOf(EntriesOf(inside + [line], parse)) == Record(ValuesOf(EntriesOf(inside, parse)), Classify(line, parse))
  {
    InsideStep(inside, line, parse);
    var entries := EntriesOf(inside, parse);
    var e := Classify(line, parse);
    if Accepted(e) {
      assert (entries + [e])[..|entries|] == entries;
    } else {
      assert entries + [] == entries;
    }
  }

  /** The decision at the end of `result`: the log first, then the count, then the parse errors. */
  function Decide(count: nat, log: string, errParse: string, values: EbuLoudnessValues): Result<EbuLoudnessValues, Error> {
    if count == 0 then Err(Bail("Failed run to ffmpeg to measure loudness values: \n" + log))
    else if count != 10 then Err(WrongCount(count))
    else if errParse != "" then Err(Bail("ffmpeg returns strange loudness values: " + errParse))
    else Ok(values)
  }

  /** What `result` returns for the stderr lines. */
  function Report(lines: seq<string>, parse: string -> Option<real>): Result<EbuLoudnessValues, Error> {
    var inside := InsideLines(lines);
    var entries := EntriesOf(inside, parse);
    Decide(|entries|, LogOf(OutsideLines(lines)), NotesOf(inside, parse), ValuesOf(entries))
  }

  /** One line inside the block, read as in `result_pass1`, into `Option` fields. */
  method ReadReportLine(line: string, parse: string -> Option<real>, values: EbuLoudnessValues, errParse: string, count: nat)
    returns (values': EbuLoudnessValues, errParse': string, count': nat)
    ensures values' == Record(values, Classify(line, parse))
    ensures errParse' == errParse + Note(Classify(line, parse), line)
    ensures count' == count + (if Accepted(Classify(line, parse)) then 1 else 0)
  {
    values', errParse', count' := values, errParse, count;
    match MatchValue(line) {
      case None =>
        errParse' := errParse + "Failed to parse loudness value: " + line + "\n";
      case Some((field, valueStr)) =>
        ClassifyMatched(line, field, valueStr, parse);
        if field == "normalization_type" {
          values' := values.(normalizationType := Some(valueStr));
          count' := count + 1;
        } else {
          match parse(valueStr) {
            case Some(value) =>
              match FieldOf(field) {
                case Some(f) =>
                  values' := Set(values, f, value);
                  count' := count + 1;
                case None =>
                  errParse' := errParse + "Unknown loudness value: " + line + "\n";
              }
            case None =>
              errParse' := errParse + "Invalid loudness value: " + line + "\n";
          }
        }
    }
  }

  /** `FFmpeg::result`: the scan of the stderr lines. */
  method ReadResult(lines: seq<string>, parse: string -> Option<real>) returns (r: Result<EbuLoudnessValues, Error>)
    ensures r == Report(lines, parse)
  {
    var isJson := false;
    var errLog := "";
    var errParse := "";
    var values := Absent;
    var count := 0;
    var i := 0;
    while i < |lines|
      invariant 0 <= i <= |lines|
      invariant isJson == OpenAfter(lines[..i])
      invariant errLog == LogOf(OutsideLines(lines[..i]))
      invariant errParse == NotesOf(InsideLines(lines[..i]), parse)
      invariant count == |EntriesOf(InsideLines(lines[..i]), parse)|
      invariant values == ValuesOf(EntriesOf(InsideLines(lines[..i]), parse))
    {
      var line := lines[i];
      ScanStep(lines, i);
      if line == "{" {
        isJson := true;
      } else if line == "}" {
        isJson := false;
      } else if !isJson {
        LogStep(OutsideLines(lines[..i]), line);
        errLog := errLog + line + "\n";
      } else {
        InsideStep(InsideLines(lines[..i]), line, parse);
        ValuesStep(InsideLines(lines[..i]), line, parse);
        values, errParse, count := ReadReportLine(line, parse, values, errParse, count);
      }
      i := i + 1;
    }
    assert lines[..|lines|] == lines;
    if count == 0 {
      return Err(Bail("Failed run to ffmpeg to measure loudness values: \n" + errLog));
    }
    if count != 10 {
      return Err(WrongCount(count));
    }
    if errParse != "" {
      return Err(Bail("ffmpeg returns strange loudness values: " + errParse));
    }
    r := Ok(values);
  }

  /**
   * `result` succeeds exactly when the block holds ten lines and every one of
   * them is accepted; each value is then the last one its line gave.
   */
  lemma ReportOk(lines: seq<string>, parse: string -> Option<real>, f: Field)
    ensures var inside := InsideLines(lines);
      Report(lines, parse).Ok?
      <==> |inside| == 10 && forall k | 0 <= k < |inside| :: Accepted(Classify(inside[k], parse))
    ensures Report(lines, parse).Ok? ==>
      && Get(Report(lines, parse).value, f) == LastMeasure(EntriesOf(InsideLines(lines), parse), f)
      && Report(lines, parse).value.normalizationType == LastType(EntriesOf(InsideLines(lines), parse))
  {
    var inside := InsideLines(lines);
    NotesEmpty(inside, parse);
    EntriesAll(inside, parse);
    ValuesOfFields(EntriesOf(inside, parse), f);
  }

  /** With no accepted line the log is reported, even when there were parse errors. */
  lemma ReportNoValues(lines: seq<string>, parse: string -> Option<real>)
    requires |EntriesOf(InsideLines(lines), parse)| == 0
    ensures Report(lines, parse) == Err(Bail("Failed run to ffmpeg to measure loudness values: \n" + LogOf(OutsideLines(lines))))
  {
  }

  /** What `exec` returns for a run: the scanned report, whatever the exit status. */
  function ExecOutcome(run: Run, parse: string -> Option<real>): (r: Result<EbuLoudnessValues, Error>)
    ensures r.Ok? <==> run.Spawned? && run.stdout.Some? && run.stderr.Some? && Report(run.stderr.value, parse).Ok?
    ensures r.Ok? ==> r == Report(run.stderr.value, parse)
    ensures run.SpawnFailed? ==> r == Err(Context("Failed to run ffmpeg tool", Bail(run.reason)))
    ensures run.Spawned? && run.stdout.None? ==> r == Err(Bail("Failed to open ffmpeg stdout"))
    ensures run.Spawned? && run.stdout.Some? && run.stderr.None? ==> r == Err(Bail("Failed to open ffmpeg stderr"))
    ensures run.Spawned? && run.stdout.Some? && run.stderr.Some? && Report(run.stderr.value, parse).Err?
            ==> r == Err(Context("Failed to get ffmpeg execution result", Report(run.stderr.value, parse).error))
  {
    match run
    case SpawnFailed(reason) => Err(Context("Failed to run ffmpeg tool", Bail(reason)))
    case Spawned(stdout, stderr, _) =>
      if stdout.None? then Err(Bail("Failed to open ffmpeg stdout"))
      else if stderr.None? then Err(Bail("Failed to open ffmpeg stderr"))
      else match Report(stderr.value, parse)
        case Err(e) => Err(Context("Failed to get ffmpeg execution result", e))
        case Ok(v) => Ok(v)
  }

  /** The child is never awaited: two runs that differ only in their exit status give the same result. */
  lemma ExitStatusIgnored(stdout: Option<seq<string>>, stderr: Option<seq<string>>, w1: WaitResult, w2: WaitResult,
                          parse: string -> Option<real>)
    ensures ExecOutcome(Spawned(stdout, stderr, w1), parse) == ExecOutcome(Spawned(stdout, stderr, w2), parse)
  {
  }

  class FFmpeg {
    var cmd: Command

    /** `FFmpeg::new`: the executable and the fixed seven-argument prefix. */
    constructor (inputFile: string, host: Host)
      ensures fresh(cmd)
      ensures cmd.program == ExecutablePath(host) && cmd.args == Prefix(inputFile)
    {
      var c := new Command(ExecutablePath(host));
      c.Arg("-progress");
      c.Arg("-");
      c.Arg("-nostats");
      c.Arg("-nostdin");
      c.Arg("-hide_banner");
      c.Arg("-i");
      c.Arg(inputFile);
      cmd := c;
    }

    /**
     * `exec`: spawn, follow the progress on stdout, then scan stderr (the
     * printing of the command and the bar are not modelled).
     */
    method Exec(duration: Option<Duration>, run: Run, parse: string -> Option<real>)
      returns (r: Result<EbuLoudnessValues, Error>, bar: Option<Bar>)
      ensures r == ExecOutcome(run, parse)
      ensures run.SpawnFailed? ==> bar.None?
      ensures run.Spawned? && run.stdout.None? ==> bar == Some(NewBar(duration))
      ensures run.Spawned? && run.stdout.Some? ==> bar == Some(Replay(NewBar(duration), run.stdout.value, duration.Some?))
    {
      if run.SpawnFailed? {
        return Err(Context("Failed to run ffmpeg tool", Bail(run.reason))), None;
      }
      bar := Some(NewBar(duration));
      if run.stdout.None? {
        return Err(Bail("Failed to open ffmpeg stdout")), bar;
      }
      var b := Follow(duration, run.stdout.value);
      bar := Some(b);
      if run.stderr.None? {
        return Err(Bail("Failed to open ffmpeg stderr")), bar;
      }
      var values := ReadResult(run.stderr.value, parse);
      if values.Err? {
        return Err(Context("Failed to get ffmpeg execution result", values.error)), bar;
      }
      r := Ok(values.value);
    }
  }
}
