# ffmpeg-audio-normalizer, modelled in Dafny

ffmpeg-audio-normalizer normalizes the loudness of an audio file by running
ffmpeg, in one of three ways:

- **EBU R128.** Two passes with the `loudnorm` filter. Pass 1 measures.
  Pass 2 feeds the measured values back.
- **Peak.** Pass 1 measures the peak level with `astats`. Pass 2 applies a
  `volume` change.
- **Dialogue.** One pass with `-dialnorm`.

This project models the text processing and the command assembly around
ffmpeg:

- the scanners that read the loudnorm report out of ffmpeg's diagnostic
  output (two versions), and the scanner of the astats report;
- the decoder of the `-progress -` stream, and the exit-status decision of
  `exec`;
- the ffmpeg argument lists of every pass, and the orchestration that
  threads the pass-1 measurements into pass 2, including the gate on
  missing values;
- the property lookups on ffprobe's `key=value` output.

The modules follow the source files:

| source file | module | form |
|---|---|---|
| src/algorithm/ebu_r128.rs | `AlgorithmEbuR128` | scanner loop and command builders as methods |
| src/ffmpeg.rs | `Ffmpeg` | class `FFmpeg`, scanner loop as a method |
| src/tool/ffmpeg.rs | `ToolFfmpeg` | class `FFmpeg` with `AddCommonArgs` and `Exec` |
| src/ebu_r128.rs | `EbuR128` | command builders, gate and orchestration |
| src/algorithm/peak.rs | `Peak` | scanner loop, adjustment, command builders |
| src/algorithm/dialogue.rs | `Dialogue` | command builder and orchestration |
| src/ffprobe.rs | `Ffprobe` (and `Props`) | functions |
| src/file.rs | `File` (and `Props`) | functions |

Shared vocabulary lives in these modules:

- `Wrappers` and `Errors`: Option, Result, and the `anyhow` errors. A
  bailed message, the count error and `.with_context(..)` are kept apart so
  that messages can be compared.
- `Lexical`: characters, decimal text, and Rust's `u64`/`i64` parsing.
- `Patterns`: the three regular expressions, as matchers with
  leftmost-first greedy semantics.
- `FilterGraph`: how filter option strings are rendered and read back.
- `Process`: a stand-in for `std::process::Command`, the outcome of a run,
  and the executable lookup.
- `Progress`: the progress bar record and the decoding of progress lines.
- `Loudnorm`: the meaning of the loudnorm report lines.
- `LoudnormFilter`: the loudnorm filter strings.
- `Props`: the copies of `file_property`, `parse_duration` and
  `file_duration` shared by src/ffprobe.rs and src/file.rs.
- `Versions`: the two loudnorm scanners compared.

Each imperative scanner is a method. A loop invariant ties its state (the
block flag, the log, the parse-error text, the count, the record) to
functions of the lines read so far. The lemmas about the method's result
are proved about those functions. Each command builder is a method on a
`Command` object that appends one argument at a time. It is proved equal
to an argument-list function, and the lemmas are stated about that
function.

Things outside the program become parameters:

- f64 parsing and printing: `parse: string -> Option<real>` and
  `fmt: real -> string`;
- a child process: a `Run` value. It is either a spawn failure or the
  stdout lines, the stderr lines and the wait result;
- the current directory, the operating system and the file-existence test:
  a `Host` value;
- the ffprobe results: `Result` values.

Durations are whole nanoseconds.

Facts about the code the model keeps:

- Both loudnorm scanners accept only exactly ten counted lines. There is no
  five-value pass-1 shape. `Versions.StricterResult` states how the two
  versions differ.
- A `progress=end` line does not stop later `out_time_ms` lines from moving
  the bar (`Progress.ReplayPosition`).
- The position is the `out_time_ms` value itself (or that value mod 10
  without a duration). It is not converted to seconds.

## Model

| member | source | states |
|---|---|---|
| Patterns.MatchValueComplete | src/algorithm/ebu_r128.rs:13 | every `"key" : "value"` line, with or without its trailing comma, with any blank indentation and any blanks around the colon (at least one), yields exactly its key and value |
| Patterns.MatchValueShape | src/ffmpeg.rs:28 | both captures of the loudnorm pattern are non-empty runs of non-blank characters |
| Patterns.MatchOutTime | src/tool/ffmpeg.rs:15 | the `out_time_ms` capture is a non-empty run of decimal digits |
| Patterns.MatchOutTimeComplete | src/ffmpeg.rs:27 | `out_time_ms=<digits>` followed by a non-digit tail yields exactly the digits |
| Patterns.MatchPeakComplete | src/algorithm/peak.rs:14 | a `... Peak level dB: <value>` line yields exactly its value, whatever text precedes `Peak` |
| Loudnorm.Classify | src/algorithm/ebu_r128.rs:243-286 | an in-block line is a measurement exactly when it matches, its key names a field and its value parses; `normalization_type` is kept as text; otherwise it is rejected as unparsed, unknown or invalid |
| Loudnorm.ClassifyMeasurementLine | src/algorithm/ebu_r128.rs:255-275 | a well-formed line with a known key and a parseable value sets exactly that field |
| Loudnorm.ClassifyTypeLine | src/algorithm/ebu_r128.rs:249-253 | a `normalization_type` line stores its raw text |
| Loudnorm.ClassifyMatched | src/algorithm/ebu_r128.rs:243-275 | a matched line's entry is determined by its key and by whether its value parses |
| Loudnorm.FieldOfName | src/algorithm/ebu_r128.rs:256-265 | each of the nine numeric keys selects its own field, and none is `normalization_type` |
| Loudnorm.ScanStep | src/algorithm/ebu_r128.rs:221-240 | `{` opens the block and `}` closes it, and neither delimiter is ever logged or parsed; any other line goes inside when the block is open and to the log otherwise |
| Loudnorm.LogStep | src/algorithm/ebu_r128.rs:234-236 | an outside line is appended to the log followed by a line feed |
| Loudnorm.InsideStep | src/algorithm/ebu_r128.rs:242-287 | an inside line adds its note to the parse-error text, and adds one counted entry exactly when it is accepted |
| Loudnorm.NotesEmpty | src/algorithm/ebu_r128.rs:266-286 | the parse-error text is empty exactly when every inside line was accepted |
| Loudnorm.EntriesAll | src/ffmpeg.rs:191-234 | the count equals the number of inside lines exactly when every inside line is accepted |
| Loudnorm.LinesPartition | src/algorithm/ebu_r128.rs:221-240 | every line is a delimiter, an inside line or a logged line, and nothing else |
| Loudnorm.LastMeasureNone | src/algorithm/ebu_r128.rs:297-304 | a field no accepted line measured has no last measurement |
| Loudnorm.NoneMeasured | src/algorithm/ebu_r128.rs:255-275 | a field that no line of the block measures is never set, whatever else the lines hold |
| AlgorithmEbuR128.Set | src/algorithm/ebu_r128.rs:257-265 | setting a field changes that field and no other |
| AlgorithmEbuR128.ValuesOfFields | src/algorithm/ebu_r128.rs:249-275 | each field holds its last measured value, or its default 0.0 (empty text) when never measured |
| AlgorithmEbuR128.ValuesStep | src/algorithm/ebu_r128.rs:242-287 | one more inside line updates the record by that line's entry alone |
| AlgorithmEbuR128.ReadReportLine | src/algorithm/ebu_r128.rs:242-287 | one inside line updates the record, the parse-error text and the count as its classification says |
| AlgorithmEbuR128.ResultPass1 | src/algorithm/ebu_r128.rs:209-305 | the scan returns the report of the lines: the block flag, log, parse errors, count and record are kept equal to functions of the lines read |
| AlgorithmEbuR128.ReportOutcome | src/algorithm/ebu_r128.rs:289-304 | the scan succeeds exactly when ten lines were accepted, even with parse errors; each field is then its last measurement; any other non-zero count is the count error |
| AlgorithmEbuR128.ReportNoValues | src/algorithm/ebu_r128.rs:289-295 | with no accepted line the scan fails with the parse errors when the block held lines, otherwise with the log |
| AlgorithmEbuR128.RepeatedKey | src/algorithm/ebu_r128.rs:297-304 | ten `input_i` lines succeed and leave `input_tp` at 0.0, because the count counts lines, not keys |
| AlgorithmEbuR128.Pass1Command | src/algorithm/ebu_r128.rs:104-130 | pass 1 appends the filter with the user's offset, the common arguments and `-f null -` |
| AlgorithmEbuR128.Pass1 | src/algorithm/ebu_r128.rs:104-141 | pass 1 fails in `exec` or in the scan, each with its context, and otherwise returns the scanned values |
| AlgorithmEbuR128.Pass2Command | src/algorithm/ebu_r128.rs:143-194 | the pass-2 filter is built as targets with the measured offset, then `+=` the measurements, then the closing options; `-y` comes only when overwriting; the output file is last |
| AlgorithmEbuR128.Pass2Outcome | src/algorithm/ebu_r128.rs:196-206 | pass 2 fails only when `exec` fails, because its report is relayed and never parsed |
| AlgorithmEbuR128.Pass2 | src/algorithm/ebu_r128.rs:143-207 | pass 2 runs the pass-2 arguments and returns the `exec` decision |
| AlgorithmEbuR128.Normalize | src/algorithm/ebu_r128.rs:68-102 | a probe failure stops before any run; a pass-1 failure stops before pass 2; pass 2 gets exactly the values pass 1 returned; each failure carries its context |
| AlgorithmEbuR128.Pass2Threading | src/algorithm/ebu_r128.rs:146-165 | the pass-2 filter reads back as the targets, then the measured `target_offset` as the offset (not the user's), then `measured_i`/`lra`/`tp`/`thresh` in order, then `linear=true`, then `print_format=json` |
| AlgorithmEbuR128.Pass1ArgsShape | src/algorithm/ebu_r128.rs:104-130 | pass 1 starts with the fixed prefix and the filter, and ends with `-f null -` |
| AlgorithmEbuR128.Pass2ArgsOverwrite | src/algorithm/ebu_r128.rs:191-194 | overwriting adds exactly one `-y` just before the output file, which is always last |
| LoudnormFilter.Pass2FilterSteps | src/algorithm/ebu_r128.rs:146-165 | rendering the targets and extending them twice gives the filter rendered in one go |
| LoudnormFilter.Pass1FilterOptions | src/algorithm/ebu_r128.rs:107-114 | the pass-1 filter reads back as `i`, `lra`, `tp`, `offset` and `print_format=json`, in order |
| LoudnormFilter.Pass2FilterOptions | src/ebu_r128.rs:239-267 | the pass-2 filter reads back as the targets, the offset, the four measurements and the two closing options, in order |
| FilterGraph.RenderParse | src/algorithm/ebu_r128.rs:107-114 | a filter rendered from plain options reads back as its name and options |
| FilterGraph.ExtendRender | src/algorithm/ebu_r128.rs:155-158 | extending a rendered filter with `:k=v...` renders the longer option list |
| Ffmpeg.Set | src/ffmpeg.rs:211-225 | setting a field makes it present and leaves every other field alone |
| Ffmpeg.ValuesOfFields | src/ffmpeg.rs:203-225 | a field is present exactly when some accepted line measured it, and it holds the last such value |
| Ffmpeg.ValuesStep | src/ffmpeg.rs:191-234 | one more inside line updates the record by that line's entry alone |
| Ffmpeg.ReadReportLine | src/ffmpeg.rs:191-234 | one inside line updates the record, the parse-error text and the count as its classification says |
| Ffmpeg.ReadResult | src/ffmpeg.rs:158-252 | `result` returns the report of the lines, with the same block toggling and logging as `result_pass1` |
| Ffmpeg.ReportOk | src/ffmpeg.rs:236-251 | `result` succeeds exactly when the block holds ten lines that are all accepted; each value is then the last one given |
| Ffmpeg.ReportNoValues | src/ffmpeg.rs:236-238 | with no accepted line the log error is reported, even when parse errors exist |
| Ffmpeg.ExecOutcome | src/ffmpeg.rs:99-155 | `exec` succeeds exactly for a spawned child with stdout and stderr whose report scans, and then returns that report; a spawn failure, a missing stdout, a missing stderr and a failed scan each give their own error, the last wrapped in "Failed to get ffmpeg execution result" |
| Ffmpeg.ExitStatusIgnored | src/ffmpeg.rs:99-155 | the child is never awaited, so the exit status does not change the result |
| Ffmpeg.FFmpeg.constructor | src/ffmpeg.rs:36-70 | the program is the located executable and the arguments are exactly `-progress - -nostats -nostdin -hide_banner -i <input>` |
| Ffmpeg.FFmpeg.Exec | src/ffmpeg.rs:85-156 | `exec` returns the outcome above, and the bar is the new bar replayed over the stdout lines |
| Versions.Flatten | src/algorithm/ebu_r128.rs:17-28 | the `Option` record with absent values replaced by the defaults of `LoudnessValues` |
| Versions.SameValues | src/ffmpeg.rs:191-234 | both scanners build the same record, up to the defaults |
| Versions.StricterResult | src/ffmpeg.rs:236-251 | whatever `result` accepts, `result_pass1` accepts with the same values; `result_pass1` alone accepts exactly when ten lines were counted and some inside line was rejected |
| Versions.NoValuesMessages | src/algorithm/ebu_r128.rs:289-295 | with no value counted both fail; they give the same error when the block was empty, and otherwise `result_pass1` reports the parse errors |
| Process.Command.constructor | src/tool/ffmpeg.rs:37-39 | a new command has its program and no arguments |
| Process.Command.Arg | src/tool/ffmpeg.rs:41-54 | one argument is appended at the end |
| Process.ExecutablePathChoice | src/tool/ffmpeg.rs:24-35 | the executable is `<cwd>/ffmpeg` (`ffmpeg.exe` on Windows) when that file exists, and otherwise the bare name |
| Process.Prefix | src/tool/ffmpeg.rs:41-54 | the fixed seven-argument prefix ends in `-i <input>` |
| Progress.NewBar | src/tool/ffmpeg.rs:106-123 | the bar's length is the duration in microseconds as a u64, or 10 s = 10,000,000 without a duration; it starts at position 0, not finished |
| Progress.Decode | src/tool/ffmpeg.rs:129-143 | `progress=end` ends the progress; an `out_time_ms` line whose digits fit a u64 reports that value; every other line is ignored |
| Progress.DecodeOutTime | src/ffmpeg.rs:134-143 | `out_time_ms=<n>` reports n exactly when n fits a u64 |
| Progress.Follow | src/tool/ffmpeg.rs:125-143 | the progress loop leaves the bar equal to the bar replayed over the stdout lines |
| Progress.ReplayKeepsLength | src/tool/ffmpeg.rs:106-110 | following the stream never changes the bar's length |
| Progress.ReplayFinished | src/tool/ffmpeg.rs:130-131 | a finished bar stays finished |
| Progress.ReplayPosition | src/tool/ffmpeg.rs:132-142 | the position is that of the last `out_time_ms` line (the value, or the value mod 10 without a duration), even after `progress=end`; without such a line the position is unchanged |
| ToolFfmpeg.CommonArgListShape | src/tool/ffmpeg.rs:72-85 | `-b:a <rate>` leads exactly when a bit rate is known; `-c:a <codec>` always follows; the custom arguments close the list unchanged and in order |
| ToolFfmpeg.ExecOutcome | src/tool/ffmpeg.rs:101-173 | `exec` succeeds exactly for a spawned child with stdout, a successful exit and stderr, and then returns the stderr lines; a missing stdout fails before the wait |
| ToolFfmpeg.ExitStatusGate | src/tool/ffmpeg.rs:152-164 | a failing exit status always fails and relays stderr; the message carries the exit code exactly when there is one |
| ToolFfmpeg.FFmpeg.constructor | src/tool/ffmpeg.rs:23-57 | the program is the located executable and the arguments are the fixed prefix |
| ToolFfmpeg.FFmpeg.AddCommonArgs | src/tool/ffmpeg.rs:72-85 | appends exactly the common argument list, one custom argument at a time |
| ToolFfmpeg.FFmpeg.Exec | src/tool/ffmpeg.rs:87-174 | returns the `exec` decision, the bar after the progress loop and the stderr lines relayed on failure |
| EbuR128.StreamArgsShape | src/ebu_r128.rs:163-176 | `-b:a` appears exactly when the bit rate is known (as its decimal text) and `-c:a` exactly when the codec is; the custom arguments follow in order |
| EbuR128.PassBar | src/ebu_r128.rs:192-215 | a bar exists only when the duration is known; its length is the whole seconds plus one, and it is finished exactly when stdout could be opened |
| EbuR128.PassOutcome | src/ebu_r128.rs:190-229 | a pass succeeds exactly when spawned, with stdout whenever the duration is known, with stderr, and with a report `result` accepts; the exit status plays no part |
| EbuR128.ArgEach | src/ebu_r128.rs:174-176 | appends the custom arguments in order |
| EbuR128.StreamArgsTo | src/ebu_r128.rs:163-176 | appends exactly the stream argument list |
| EbuR128.PrefixTo | src/ebu_r128.rs:139-153 | appends exactly the fixed prefix |
| EbuR128.Pass1Command | src/ebu_r128.rs:137-186 | the program is the located ffmpeg, and the arguments are the pass-1 list ending `-f null -` |
| EbuR128.Pass2Command | src/ebu_r128.rs:237-307 | the program is plain `ffmpeg`; the filter is built in steps; `-y` and then the output always close the list |
| EbuR128.RunPass | src/ebu_r128.rs:190-229 | returns the pass outcome and the bar above |
| EbuR128.Pass1 | src/ebu_r128.rs:117-234 | pass 1 runs the pass-1 arguments and returns the pass outcome |
| EbuR128.Pass2Outcome | src/ebu_r128.rs:311-414 | pass 2 succeeds exactly when its report is accepted and the output file can be probed |
| EbuR128.Pass2 | src/ebu_r128.rs:236-436 | pass 2 runs the pass-2 arguments and returns its outcome |
| EbuR128.Gate | src/ebu_r128.rs:87-101 | pass 2 gets values exactly when `target_offset`, `input_i`, `input_lra`, `input_tp` and `input_thresh` are all present; otherwise the error names the first missing one in that order |
| EbuR128.GateOnReport | src/ebu_r128.rs:87-101 | on an accepted report, the gate passes exactly when the block measured all five values, and the offset and measurements handed on are the last values measured |
| EbuR128.GateOnValues | src/ebu_r128.rs:87-101 | the gate on the record built from entries passes exactly when each of the five fields has a last measurement |
| EbuR128.RepeatedKeyStopsAtGate | src/ebu_r128.rs:87-92 | ten `input_i` lines pass `result`, and the gate then stops on `target_offset` |
| EbuR128.NormalizeEbuR128 | src/ebu_r128.rs:54-107 | a probe failure stops before any run; a pass-1 failure or a missing value stops before pass 2; pass 2 receives exactly the gated values; each failure carries its context |
| EbuR128.Pass2Threading | src/ebu_r128.rs:239-307 | the pass-2 filter reads back with the measured offset and the four measured input values; the list ends `-y <output>` |
| EbuR128.Pass1ArgsShape | src/ebu_r128.rs:155-186 | the pass-1 filter reads back with the user's offset and `print_format=json`, and the list ends `-f null -` |
| Peak.ResultPass1 | src/algorithm/peak.rs:140-173 | the scan returns the peak report of the lines: the log, the parse errors and the last value are kept equal to functions of the lines read |
| Peak.LastLevelIs | src/algorithm/peak.rs:149-154 | among matching lines, the last one whose value parses determines the result |
| Peak.LastLevelNone | src/algorithm/peak.rs:150-153 | no value is found exactly when no line gave one |
| Peak.PeakNotesEmpty | src/algorithm/peak.rs:155-156 | the parse-error text is empty exactly when no matched line failed to parse |
| Peak.PeakResultCases | src/algorithm/peak.rs:164-172 | the scan succeeds exactly when some line gave a value, whatever the other lines; without one it reports the parse errors when there are any, and the log otherwise |
| Peak.ReadPeakLine | src/algorithm/peak.rs:150-153 | a `Peak level dB: <v>` line whose text parses gives that value |
| Peak.LastPeakLineWins | src/algorithm/peak.rs:146-172 | a final `Peak level dB` line decides the measured level, whatever came before |
| Peak.Adjustment | src/algorithm/peak.rs:63 | the adjustment brings the measured level to the target |
| Peak.AdjustmentSign | src/algorithm/peak.rs:63 | a target equal to the measured level gives 0, and a higher target gives a positive change |
| Peak.AstatsFilterOptions | src/algorithm/peak.rs:77-78 | the astats filter reads back as `measure_overall=Peak_level` and `measure_perchannel=0` |
| Peak.Pass1Command | src/algorithm/peak.rs:72-85 | pass 1 appends `-filter <astats>`, the common arguments and `-f null -` |
| Peak.Pass1 | src/algorithm/peak.rs:72-103 | pass 1 fails in `exec` or in the scan, each with its context, and otherwise returns the peak level |
| Peak.Pass2Command | src/algorithm/peak.rs:105-121 | pass 2 appends `-filter volume=<adj>dB`, the common arguments, `-y` only when overwriting, and the output last |
| Peak.Pass2Outcome | src/algorithm/peak.rs:123-129 | pass 2 fails only when `exec` does |
| Peak.Pass2 | src/algorithm/peak.rs:105-138 | pass 2 runs the pass-2 arguments and returns the `exec` decision |
| Peak.Normalize | src/algorithm/peak.rs:44-70 | a probe failure stops before any run; a pass-1 failure stops before pass 2; pass 2 changes the volume by the target minus the measured peak |
| Peak.VolumeFromLastPeak | src/algorithm/peak.rs:56-66 | for a report whose last `Peak level dB` line gives p, the pass-2 filter is `volume=<target - p>dB` |
| Peak.Pass1ArgsShape | src/algorithm/peak.rs:75-85 | pass 1 is the prefix, `-filter` and the astats filter, the common arguments, and `-f null -` |
| Peak.Pass2ArgsOverwrite | src/algorithm/peak.rs:108-121 | the volume filter follows the prefix, `-y` appears exactly when overwriting, and the output is last |
| Dialogue.DialogueCommand | src/algorithm/dialogue.rs:21-33 | the arguments are the prefix, `-dialnorm <level>`, the common arguments, `-y` when overwriting, and the output |
| Dialogue.Outcome | src/algorithm/dialogue.rs:35-41 | the run fails exactly when `exec` does, with the normalization context |
| Dialogue.Normalize | src/algorithm/dialogue.rs:16-46 | a probe failure stops before the run; otherwise the run gets the dialogue arguments and the probed duration unchanged |
| Dialogue.DialnormRoundTrip | src/algorithm/dialogue.rs:21-33 | `-dialnorm` and the level as decimal text (which reads back as the level) follow the prefix; the common arguments come next; the output is last |
| Dialogue.DialogueArgsOverwrite | src/algorithm/dialogue.rs:30-33 | `-y` appears exactly when overwriting, just before the output |
| Props.FileProperty | src/ffprobe.rs:63-71 | the value of the first property whose key is the name, and None exactly when no key matches |
| Props.FilePropertyAppend | src/file.rs:44-52 | the search stops at the first match: later properties never matter, and earlier ones with other keys are skipped |
| Props.TruncToU64 | src/ffprobe.rs:87 | the fraction is cut off and the cast saturates: below one gives 0, past the range gives the largest u64 |
| Props.ParseDuration | src/ffprobe.rs:85-90 | a duration exactly when the text parses; it is whole milliseconds, less than one millisecond short of the seconds given |
| Props.ParseDurationExact | src/file.rs:66-71 | a whole number of milliseconds in range is kept exactly |
| Props.FileDuration | src/ffprobe.rs:92-97 | None exactly when the `duration` property is missing or does not parse |
| Ffprobe.AccessorsFirstMatch | src/ffprobe.rs:73-83 | each accessor is None exactly when its key is absent, and otherwise gives the first matching value |
| Ffprobe.FileBitRate | src/ffprobe.rs:99-107 | Some exactly when `bit_rate` is present and parses as an i64 |
| Ffprobe.FileBitRateTxt | src/ffprobe.rs:109-114 | `N/A` exactly when there is no bit rate |
| Ffprobe.BitRateText | src/ffprobe.rs:109-114 | a decimal i64 `bit_rate` shows as the rate divided by 1000, cut toward zero, followed by ` kb/s` |
| File.AccessorsDefault | src/file.rs:54-64 | the accessors never fail: each shows the first matching value, or `N/A` |
| File.FileBitRateAgrees | src/file.rs:80-88 | the text is `N/A` exactly when the property is missing or not an i64, and agrees with `file_bit_rate_txt` of src/ffprobe.rs |
| File.FileDurationMissing | src/file.rs:73-78 | the duration is None when the property is missing |
| Lexical.ParseI64RoundTrip | src/ffprobe.rs:101 | every i64 written in decimal parses back to itself |
| Lexical.TruncDiv | src/ffprobe.rs:111 | Rust's integer division truncates toward zero |

## Left out

- Process spawning, pipes, `child.wait()` and the running of ffprobe are not modelled. A run is a `Run` value. The stdout lines are read in full before stderr, as the code does, so no concurrency is modelled.
- The progress bar's rendering, templates and styles are left out, and so are the printing of the command, the info and verbose messages, and the relaying of reports to stdout/stderr (src/io.rs, src/algorithm/io.rs). Only the bar's length, position and finished flag are kept. `finish()` is modelled as setting the flag without moving the position.
- Progress.NewBar: the contract gives the exact length only for durations below 2^64 microseconds. Beyond that, the body wraps modulo 2^64, as the `as u64` cast does.
- src/ebu_r128.rs has its progress callback `FFmpeg::progress` in a file that is not part of this model. Its bar's position is therefore not modelled: `EbuR128.PassBar` leaves it at 0 and keeps only the length and whether `finish_and_clear` was reached.
- EbuR128.PassBar: `as_secs() + 1` is unbounded here. The source would overflow only for durations near 2^64 seconds.
- `FFmpeg::ffmpeg_path` and `FFprobe::info`, which src/ebu_r128.rs calls, are not part of this model. The path and the probe results are parameters.
- f64 is not modelled. Parsing and printing are parameters, so NaN, infinities and rounding (including `value * 1000.0` in `parse_duration`) are not modelled.
- Rust's `Display` of `Path` and `OsStr` is the identity on strings.
- The count error's debug dump of the record (`{:#?}`) is kept only as the count.
- Patterns.MatchValueComplete: a line with no blank on either side of the colon is not covered. There the greedy key group can take part of the value: `"a":"x":"y"` yields the key `a":"x` and the value `y`. ffmpeg prints a blank on both sides.
- The regular expressions treat `\d` as ASCII digits. The `regex` crate's `\d` also matches other Unicode decimal digits, which ffmpeg never prints in these lines.
- The executable lookup's path joining is a plain concatenation with one separator. `PathBuf::push` of a relative name behaves that way.
- `file_sample_rate_txt` (src/ffprobe.rs:116-124) and `file_sample_rate` (src/file.rs:90-98) are left out, because they print a float with `{:.1}`.
- `file_info` (src/ffprobe.rs:27-61, src/file.rs:8-42) and `ffprobe_file_path` are left out, because they only run ffprobe.
- The JSON decoding in src/tool/ffprobe.rs is left out. Its `AudioStream` result is a parameter.
- src/ebu.rs, src/cli.rs and src/main.rs are left out: a historical variant, argument parsing, and dispatch.
