/**
 * The two versions of the loudnorm report scanner side by side: `result`
 * in src/ffmpeg.rs and `result_pass1` in src/algorithm/ebu_r128.rs read the
 * same lines the same way and differ only in their final decision.
 */
module Versions {
  import opened Wrappers
  import opened Errors
  import opened Loudnorm
  import Ffmpeg
  import AlgorithmEbuR128

  /** The `Option` record flattened to the defaults of `LoudnessValues`. */
  function Flatten(v: Ffmpeg.EbuLoudnessValues): (r: AlgorithmEbuR128.LoudnessValues)
    ensures forall f :: AlgorithmEbuR128.Get(r, f) == Ffmpeg.Get(v, f).GetOr(0.0)
    ensures r.normalizationType == v.normalizationType.GetOr("")
  {
    AlgorithmEbuR128.LoudnessValues(
      v.inputI.GetOr(0.0), v.inputLra.GetOr(0.0), v.inputTp.GetOr(0.0), v.inputThresh.GetOr(0.0),
      v.outputI.GetOr(0.0), v.outputLra.GetOr(0.0), v.outputTp.GetOr(0.0), v.outputThresh.GetOr(0.0),
      v.normalizationType.GetOr(""), v.targetOffset.GetOr(0.0))
  }

  /** Both versions build the same record, up to the defaults. */
  lemma {:induction false} SameValues(entries: seq<Entry>)
    ensures AlgorithmEbuR128.ValuesOf(entries) == Flatten(Ffmpeg.ValuesOf(entries))
    decreases |entries|
  {
    if |entries| > 0 {
      SameValues(entries[..|entries| - 1]);
    }
  }

  /**
   * Whatever `result` accepts, `result_pass1` accepts with the same values;
   * `result_pass1` alone accepts exactly when ten values were counted and
   * some line inside the block was rejected.
   */
  lemma StricterResult(lines: seq<string>, parse: string -> Option<real>)
    ensures Ffmpeg.Report(lines, parse).Ok? ==>
      AlgorithmEbuR128.Report(lines, parse) == Ok(Flatten(Ffmpeg.Report(lines, parse).value))
    ensures AlgorithmEbuR128.Report(lines, parse).Ok? && Ffmpeg.Report(lines, parse).Err?
      <==> |EntriesOf(InsideLines(lines), parse)| == 10 && NotesOf(InsideLines(lines), parse) != ""
  {
    SameValues(EntriesOf(InsideLines(lines), parse));
  }

  /**
   * With no value counted both versions fail; they give the same error when
   * the block held no line, and otherwise `result_pass1` reports the parse
   * errors where `result` reports the log.
   */
  lemma NoValuesMessages(lines: seq<string>, parse: string -> Option<real>)
    requires |EntriesOf(InsideLines(lines), parse)| == 0
    ensures Ffmpeg.Report(lines, parse) == Err(Bail("Failed run to ffmpeg to measure loudness values: \n" + LogOf(OutsideLines(lines))))
    ensures |InsideLines(lines)| == 0 ==> AlgorithmEbuR128.Report(lines, parse).error == Ffmpeg.Report(lines, parse).error
    ensures AlgorithmEbuR128.Report(lines, parse).Err?
    ensures |InsideLines(lines)| > 0 ==>
      AlgorithmEbuR128.Report(lines, parse)
      == Err(Bail("ffmpeg returns strange loudness values: " + NotesOf(InsideLines(lines), parse)))
  {
    AlgorithmEbuR128.ReportNoValues(lines, parse);
  }
}
