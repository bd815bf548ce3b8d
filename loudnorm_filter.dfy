/**
 * The loudnorm filter strings both EBU R128 orchestrators pass to ffmpeg
 * with `-filter`: pass 1 asks for a JSON report of the measurements, pass 2
 * feeds the measured values back and asks for linear normalization.
 */
module LoudnormFilter {
  import opened Wrappers
  import opened FilterGraph

  /** The user's targets: integrated loudness, loudness range and true peak. */
  datatype Targets = Targets(level: real, range: real, truePeak: real)

  /** The four input measurements pass 2 hands back to the filter. */
  datatype Measured = Measured(i: real, lra: real, tp: real, thresh: real)

  function TargetOptions(t: Targets, offset: real, fmt: real -> string): seq<(string, string)> {
    [("i", fmt(t.level)), ("lra", fmt(t.range)), ("tp", fmt(t.truePeak)), ("offset", fmt(offset))]
  }

  function MeasuredOptions(m: Measured, fmt: real -> string): seq<(string, string)> {
    [("measured_i", fmt(m.i)), ("measured_lra", fmt(m.lra)), ("measured_tp", fmt(m.tp)), ("measured_thresh", fmt(m.thresh))]
  }

  const Closing: seq<(string, string)> := [("linear", "true"), ("print_format", "json")]

  /** `loudnorm=i=..:lra=..:tp=..:offset=..:print_format=json`. */
  function Pass1Filter(t: Targets, offset: real, fmt: real -> string): string {
    Render("loudnorm", TargetOptions(t, offset, fmt) + [("print_format", "json")])
  }

  /** The pass-1 filter followed by the measurements and `linear=true`. */
  function Pass2Filter(t: Targets, offset: real, m: Measured, fmt: real -> string): string {
    Render("loudnorm", TargetOptions(t, offset, fmt) + MeasuredOptions(m, fmt) + Closing)
  }

  /**
   * Pass 2 builds its filter in three steps (the targets, `+=` the
   * measurements, `+` the closing options), and the result is the filter
   * rendered in one go.
   */
  lemma Pass2FilterSteps(t: Targets, offset: real, m: Measured, fmt: real -> string)
    ensures Extend(Extend(Render("loudnorm", TargetOptions(t, offset, fmt)), MeasuredOptions(m, fmt)), Closing)
            == Pass2Filter(t, offset, m, fmt)
  {
    ExtendRender("loudnorm", TargetOptions(t, offset, fmt), MeasuredOptions(m, fmt));
    ExtendRender("loudnorm", TargetOptions(t, offset, fmt) + MeasuredOptions(m, fmt), Closing);
  }

  /** The three steps of pass 2 that build its filter string. */
  method BuildPass2Filter(t: Targets, offset: real, m: Measured, fmt: real -> string) returns (filter: string)
    ensures filter == Pass2Filter(t, offset, m, fmt)
  {
    filter := Render("loudnorm", TargetOptions(t, offset, fmt));
    filter := Extend(filter, MeasuredOptions(m, fmt));
    filter := Extend(filter, Closing);
    Pass2FilterSteps(t, offset, m, fmt);
  }

  /** The pass-1 filter reads back as the targets, the offset and `print_format=json`, in order. */
  lemma Pass1FilterOptions(t: Targets, offset: real, fmt: real -> string)
    requires forall x :: ':' !in fmt(x)
    ensures Parse(Pass1Filter(t, offset, fmt)) == Some(("loudnorm", [
      ("i", fmt(t.level)), ("lra", fmt(t.range)), ("tp", fmt(t.truePeak)),
      ("offset", fmt(offset)), ("print_format", "json")]))
  {
    var options := [
      ("i", fmt(t.level)), ("lra", fmt(t.range)), ("tp", fmt(t.truePeak)),
      ("offset", fmt(offset)), ("print_format", "json")];
    assert TargetOptions(t, offset, fmt) + [("print_format", "json")] == options;
    assert Plain("loudnorm", options);
    RenderParse("loudnorm", options);
  }

  /**
   * The pass-2 filter reads back as the targets, the offset, the four
   * measurements and `linear=true:print_format=json`, in that order.
   */
  lemma Pass2FilterOptions(t: Targets, offset: real, m: Measured, fmt: real -> string)
    requires forall x :: ':' !in fmt(x)
    ensures Parse(Pass2Filter(t, offset, m, fmt)) == Some(("loudnorm", [
      ("i", fmt(t.level)), ("lra", fmt(t.range)), ("tp", fmt(t.truePeak)), ("offset", fmt(offset)),
      ("measured_i", fmt(m.i)), ("measured_lra", fmt(m.lra)),
      ("measured_tp", fmt(m.tp)), ("measured_thresh", fmt(m.thresh)),
      ("linear", "true"), ("print_format", "json")]))
  {
    var options := [
      ("i", fmt(t.level)), ("lra", fmt(t.range)), ("tp", fmt(t.truePeak)), ("offset", fmt(offset)),
      ("measured_i", fmt(m.i)), ("measured_lra", fmt(m.lra)),
      ("measured_tp", fmt(m.tp)), ("measured_thresh", fmt(m.thresh)),
      ("linear", "true"), ("print_format", "json")];
    assert TargetOptions(t, offset, fmt) + MeasuredOptions(m, fmt) + Closing == options;
    assert Plain("loudnorm", options);
    RenderParse("loudnorm", options);
  }
}
