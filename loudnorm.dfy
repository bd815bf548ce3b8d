/**
 * The loudnorm report as both scanners read it (`result_pass1` in
 * src/algorithm/ebu_r128.rs and `FFmpeg::result` in src/ffmpeg.rs): lines
 * exactly `{` and `}` open and close the JSON block, lines outside the block
 * are diagnostics for the log, and each line inside is classified by the
 * key/value pattern.  The functions here describe what the lines mean,
 * independently of the loops that scan them.
 */
module Loudnorm {
  import opened Wrappers
  import opened Lexical
  import opened Patterns

  /** The nine numeric measurements of the report. */
  datatype Field =
    | InputI | InputTp | InputLra | InputThresh
    | OutputI | OutputTp | OutputLra | OutputThresh
    | TargetOffset

  function FieldName(f: Field): string {
    match f
    case InputI => "input_i"
    case InputTp => "input_tp"
    case InputLra => "input_lra"
    case InputThresh => "input_thresh"
    case OutputI => "output_i"
    case OutputTp => "output_tp"
    case OutputLra => "output_lra"
    case OutputThresh => "output_thresh"
    case TargetOffset => "target_offset"
  }

  /** The field a key names, if it names one. */
  function FieldOf(key: string): (r: Option<Field>)
    ensures r.Some? ==> FieldName(r.value) == key
  {
    if key == "input_i" then Some(InputI)
    else if key == "input_tp" then Some(InputTp)
    else if key == "input_lra" then Some(InputLra)
    else if key == "input_thresh" then Some(InputThresh)
    else if key == "output_i" then Some(OutputI)
    else if key == "output_tp" then Some(OutputTp)
    else if key == "output_lra" then Some(OutputLra)
    else if key == "output_thresh" then Some(OutputThresh)
    else if key == "target_offset" then Some(TargetOffset)
    else None
  }

  /** Every field is recognised by its own name, and only by it. */
  lemma FieldOfName(f: Field)
    ensures FieldOf(FieldName(f)) == Some(f)
    ensures FieldName(f) != "normalization_type"
    ensures |FieldName(f)| > 0 && NoSpace(FieldName(f))
  {
  }

  /** What one line inside the block contributes. */
  datatype Entry =
    | NormalizationType(text: string)
    | Measurement(field: Field, value: real)
    | UnknownKey
    | Invalid
    | Unmatched

  /**
   * A line inside the block: `normalization_type` keeps its text as it is;
   * any other key needs a value that parses as f64 (checked before the key is
   * looked at) and then a known field name.
   */
  function Classify(line: string, parse: string -> Option<real>): (e: Entry)
    ensures e == Unmatched <==> MatchValue(line).None?
    ensures e.NormalizationType? <==> MatchValue(line).Some? && MatchValue(line).value.0 == "normalization_type"
    ensures e.NormalizationType? ==> e.text == MatchValue(line).value.1
    ensures e == Invalid
            <==> (MatchValue(line).Some? && MatchValue(line).value.0 != "normalization_type"
                  && parse(MatchValue(line).value.1).None?)
    ensures e.Measurement? ==> MatchValue(line) == Some((FieldName(e.field), MatchValue(line).value.1))
                               && parse(MatchValue(line).value.1) == Some(e.value)
  {
    match MatchValue(line)
    case None => Unmatched
    case Some((key, text)) =>
      if key == "normalization_type" then NormalizationType(text)
      else match parse(text)
        case None => Invalid
        case Some(x) =>
          match FieldOf(key)
          case None => UnknownKey
          case Some(f) => Measurement(f, x)
  }

  /** The entries that count as one of the ten values. */
  predicate Accepted(e: Entry) {
    e.NormalizationType? || e.Measurement?
  }

  /** The message a rejected line adds to the parse-error text. */
  function Note(e: Entry, line: string): (n: string)
    ensures n == "" <==> Accepted(e)
  {
    match e
    case UnknownKey => "Unknown loudness value: " + line + "\n"
    case Invalid => "Invalid loudness value: " + line + "\n"
    case Unmatched => "Failed to parse loudness value: " + line + "\n"
    case _ => ""
  }

  /** The two delimiter lines. */
  predicate IsDelimiter(line: string) {
    line == "{" || line == "}"
  }

  /** Whether the block is open after the lines: the last delimiter among them is `{`. */
  function OpenAfter(lines: seq<string>): bool
    decreases |lines|
  {
    if |lines| == 0 then false
    else if lines[|lines| - 1] == "{" then true
    else if lines[|lines| - 1] == "}" then false
    else OpenAfter(lines[..|lines| - 1])
  }

  /** The lines read inside the block, in order. */
  function InsideLines(lines: seq<string>): (r: seq<string>)
    ensures forall k | 0 <= k < |r| :: !IsDelimiter(r[k])
    decreases |lines|
  {
    if |lines| == 0 then []
    else
      var init, line := lines[..|lines| - 1], lines[|lines| - 1];
      InsideLines(init) + (if !IsDelimiter(line) && OpenAfter(init) then [line] else [])
  }

  /** The lines read outside the block, in order. */
  function OutsideLines(lines: seq<string>): (r: seq<string>)
    ensures forall k | 0 <= k < |r| :: !IsDelimiter(r[k])
    decreases |lines|
  {
    if |lines| == 0 then []
    else
      var init, line := lines[..|lines| - 1], lines[|lines| - 1];
      OutsideLines(init) + (if !IsDelimiter(line) && !OpenAfter(init) then [line] else [])
  }

  /** The log: each line followed by a line feed. */
  function LogOf(lines: seq<string>): string
    decreases |lines|
  {
    if |lines| == 0 then "" else LogOf(lines[..|lines| - 1]) + lines[|lines| - 1] + "\n"
  }

  /** The parse-error text of the lines: the note of each rejected one. */
  function NotesOf(lines: seq<string>, parse: string -> Option<real>): string
    decreases |lines|
  {
    if |lines| == 0 then ""
    else
      var line := lines[|lines| - 1];
      NotesOf(lines[..|lines| - 1], parse) + Note(Classify(line, parse), line)
  }

  /** The accepted entries of the lines, in order. */
  function EntriesOf(lines: seq<string>, parse: string -> Option<real>): (r: seq<Entry>)
    ensures |r| <= |lines|
    ensures forall k | 0 <= k < |r| :: Accepted(r[k])
    decreases |lines|
  {
    if |lines| == 0 then []
    else
      var e := Classify(lines[|lines| - 1], parse);
      EntriesOf(lines[..|lines| - 1], parse) + (if Accepted(e) then [e] else [])
  }

  /** The last measurement of a field among the entries. */
  function LastMeasure(entries: seq<Entry>, f: Field): Option<real>
    decreases |entries|
  {
    if |entries| == 0 then None
    else
      var e := entries[|entries| - 1];
      if e.Measurement? && e.field == f then Some(e.value) else LastMeasure(entries[..|entries| - 1], f)
  }

  /** The text of the last `normalization_type` among the entries. */
  function LastType(entries: seq<Entry>): Option<string>
    decreases |entries|
  {
    if |entries| == 0 then None
    else
      var e := entries[|entries| - 1];
      if e.NormalizationType? then Some(e.text) else LastType(entries[..|entries| - 1])
  }

  /** The parse-error text is empty exactly when every line gave an entry. */
  lemma {:induction false} NotesEmpty(lines: seq<string>, parse: string -> Option<real>)
    ensures NotesOf(lines, parse) == "" <==> |EntriesOf(lines, parse)| == |lines|
    decreases |lines|
  {
    if |lines| > 0 {
      var init := lines[..|lines| - 1];
      var line := lines[|lines| - 1];
      NotesEmpty(init, parse);
      assert NotesOf(lines, parse) == NotesOf(init, parse) + Note(Classify(line, parse), line);
    }
  }

  /** Every line is accepted exactly when every line gives an entry. */
  lemma {:induction false} EntriesAll(lines: seq<string>, parse: string -> Option<real>)
    ensures |EntriesOf(lines, parse)| == |lines|
            <==> forall k | 0 <= k < |lines| :: Accepted(Classify(lines[k], parse))
    decreases |lines|
  {
    if |lines| > 0 {
      var init := lines[..|lines| - 1];
      var e := Classify(lines[|lines| - 1], parse);
      EntriesAll(init, parse);
      assert forall k | 0 <= k < |init| :: init[k] == lines[k];
      if Accepted(e) {
        assert |EntriesOf(lines, parse)| == |EntriesOf(init, parse)| + 1;
      } else {
        assert |EntriesOf(lines, parse)| == |EntriesOf(init, parse)|;
        assert !Accepted(Classify(lines[|lines| - 1], parse));
      }
    }
  }

  /** A field that no entry measures has no last measurement. */
  lemma {:induction false} LastMeasureNone(entries: seq<Entry>, f: Field)
    requires forall k | 0 <= k < |entries| :: !(entries[k].Measurement? && entries[k].field == f)
    ensures LastMeasure(entries, f) == None
    decreases |entries|
  {
    if |entries| > 0 {
      LastMeasureNone(entries[..|entries| - 1], f);
    }
  }

  /** A field that no line of the block measures has no last measurement. */
  lemma {:induction false} NoneMeasured(lines: seq<string>, parse: string -> Option<real>, f: Field)
    requires forall k | 0 <= k < |lines| :: !(Classify(lines[k], parse).Measurement? && Classify(lines[k], parse).field == f)
    ensures LastMeasure(EntriesOf(lines, parse), f) == None
    decreases |lines|
  {
    if |lines| > 0 {
      var init := lines[..|lines| - 1];
      var e := Classify(lines[|lines| - 1], parse);
      assert forall k | 0 <= k < |init| :: init[k] == lines[k];
      NoneMeasured(init, parse, f);
      var before := EntriesOf(init, parse);
      if Accepted(e) {
        assert EntriesOf(lines, parse) == before + [e];
        assert (before + [e])[..|before|] == before;
      } else {
        assert EntriesOf(lines, parse) == before + [];
        assert before + [] == before;
      }
    }
  }

  /** Every delimiter and every other line goes to exactly one side. */
  lemma {:induction false} LinesPartition(lines: seq<string>)
    ensures |InsideLines(lines)| + |OutsideLines(lines)| + |Delimiters(lines)| == |lines|
    decreases |lines|
  {
    if |lines| > 0 {
      LinesPartition(lines[..|lines| - 1]);
    }
  }

  function Delimiters(lines: seq<string>): (r: seq<string>)
    decreases |lines|
  {
    if |lines| == 0 then []
    else Delimiters(lines[..|lines| - 1]) + (if IsDelimiter(lines[|lines| - 1]) then [lines[|lines| - 1]] else [])
  }

  /** What the line after the first i adds to the block flag and to each side. */
  lemma ScanStep(lines: seq<string>, i: nat)
    requires i < |lines|
    ensures OpenAfter(lines[..i + 1])
            == (if lines[i] == "{" then true else if lines[i] == "}" then false else OpenAfter(lines[..i]))
    ensures IsDelimiter(lines[i]) ==>
      InsideLines(lines[..i + 1]) == InsideLines(lines[..i]) && OutsideLines(lines[..i + 1]) == OutsideLines(lines[..i])
    ensures !IsDelimiter(lines[i]) && OpenAfter(lines[..i]) ==>
      InsideLines(lines[..i + 1]) == InsideLines(lines[..i]) + [lines[i]]
      && OutsideLines(lines[..i + 1]) == OutsideLines(lines[..i])
    ensures !IsDelimiter(lines[i]) && !OpenAfter(lines[..i]) ==>
      OutsideLines(lines[..i + 1]) == OutsideLines(lines[..i]) + [lines[i]]
      && InsideLines(lines[..i + 1]) == InsideLines(lines[..i])
  {
    assert lines[..i + 1][..i] == lines[..i];
    assert InsideLines(lines[..i]) + [] == InsideLines(lines[..i]);
    assert OutsideLines(lines[..i]) + [] == OutsideLines(lines[..i]);
  }

  /** One more line outside the block adds it and a line feed to the log. */
  lemma LogStep(outside: seq<string>, line: string)
    ensures LogOf(outside + [line]) == LogOf(outside) + line + "\n"
  {
    assert (outside + [line])[..|outside|] == outside;
  }

  /** One more line inside the block adds its note and, when accepted, its entry. */
  lemma InsideStep(inside: seq<string>, line: string, parse: string -> Option<real>)
    ensures NotesOf(inside + [line], parse) == NotesOf(inside, parse) + Note(Classify(line, parse), line)
    ensures EntriesOf(inside + [line], parse)
            == EntriesOf(inside, parse) + (if Accepted(Classify(line, parse)) then [Classify(line, parse)] else [])
    ensures |EntriesOf(inside + [line], parse)|
            == |EntriesOf(inside, parse)| + (if Accepted(Classify(line, parse)) then 1 else 0)
  {
    assert (inside + [line])[..|inside|] == inside;
  }

  lemma ClassifyMatched(line: string, key: string, text: string, parse: string -> Option<real>)
    requires MatchValue(line) == Some((key, text))
    ensures key == "normalization_type" ==> Classify(line, parse) == NormalizationType(text)
    ensures parse(text).Some? && FieldOf(key).Some?
            ==> Classify(line, parse) == Measurement(FieldOf(key).value, parse(text).value)
  {
  }

  /** The line loudnorm prints for a measurement is read as that measurement. */
  lemma ClassifyMeasurementLine(indent: string, f: Field, before: string, after: string, text: string, comma: bool,
                                 parse: string -> Option<real>)
    requires AllSpace(indent) && AllSpace(before) && AllSpace(after) && |before| + |after| > 0
    requires |text| > 0 && NoSpace(text) && parse(text).Some?
    ensures Classify(ValueLineText(indent, FieldName(f), before, after, text, comma), parse) == Measurement(f, parse(text).value)
  {
    var line := ValueLineText(indent, FieldName(f), before, after, text, comma);
    FieldOfName(f);
    MatchValueComplete(indent, FieldName(f), before, after, text, comma);
    ClassifyMatched(line, FieldName(f), text, parse);
  }

  /** The `normalization_type` line is read as its text, whatever the text is. */
  lemma ClassifyTypeLine(indent: string, before: string, after: string, text: string, comma: bool,
                          parse: string -> Option<real>)
    requires AllSpace(indent) && AllSpace(before) && AllSpace(after) && |before| + |after| > 0
    requires |text| > 0 && NoSpace(text)
    ensures Classify(ValueLineText(indent, "normalization_type", before, after, text, comma), parse) == NormalizationType(text)
  {
    var line := ValueLineText(indent, "normalization_type", before, after, text, comma);
    assert NoSpace("normalization_type");
    MatchValueComplete(indent, "normalization_type", before, after, text, comma);
    ClassifyMatched(line, "normalization_type", text, parse);
  }
}
