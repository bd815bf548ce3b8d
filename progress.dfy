/**
 * ffmpeg's `-progress -` stream, as both versions of `FFmpeg::exec` read it:
 * each stdout line either ends the progress, reports the elapsed output time
 * in `out_time_ms=<digits>`, or is ignored; the bar keeps only its length,
 * its position and whether it was finished.
 */
module Progress {
  import opened Wrappers
  import opened Lexical
  import opened Patterns

  /** `std::time::Duration`, as a whole number of nanoseconds. */
  type Duration = nat

  const NANOS_PER_SEC: nat := 1_000_000_000

  function AsMicros(d: Duration): nat {
    d / 1000
  }

  function AsSecs(d: Duration): nat {
    d / NANOS_PER_SEC
  }

  function FromSecs(s: nat): Duration {
    s * NANOS_PER_SEC
  }

  function FromMillis(ms: nat): Duration {
    ms * 1_000_000
  }

  /** The state of the progress bar that is observable apart from its rendering. */
  datatype Bar = Bar(length: nat, position: nat, finished: bool)

  /**
   * The bar `exec` creates: as long as the duration in microseconds (cast to
   * u64), or 10 seconds' worth when the duration is unknown, at position 0.
   */
  function NewBar(duration: Option<Duration>): (b: Bar)
    ensures b.position == 0 && !b.finished && b.length < U64_MODULUS
    ensures duration.None? ==> b.length == 10_000_000
    ensures duration.Some? && AsMicros(duration.value) < U64_MODULUS ==> b.length == AsMicros(duration.value)
  {
    Bar(AsMicros(duration.GetOr(FromSecs(10))) % U64_MODULUS, 0, false)
  }

  /** What one stdout line means to the bar. */
  datatype Signal = End | Elapsed(ms: nat) | Ignored

  /**
   * `progress=end` ends the progress; an `out_time_ms=<digits>` line whose
   * digits fit in a u64 reports them; every other line is ignored.
   */
  function Decode(line: string): (s: Signal)
    ensures s == End <==> line == "progress=end"
    ensures s.Elapsed? ==> s.ms < U64_MODULUS && MatchOutTime(line).Some?
    ensures line != "progress=end" && MatchOutTime(line).None? ==> s == Ignored
  {
    if line == "progress=end" then End
    else match MatchOutTime(line)
      case None => Ignored
      case Some(digits) =>
        match ParseU64(digits)
        case None => Ignored
        case Some(ms) => Elapsed(ms)
  }

  /** The position a reported time sets: the time itself, or modulo 10 for the spinner. */
  function PositionFor(ms: nat, known: bool): nat {
    if known then ms else ms % 10
  }

  function Apply(bar: Bar, s: Signal, known: bool): Bar {
    match s
    case End => bar.(finished := true)
    case Elapsed(ms) => bar.(position := PositionFor(ms, known))
    case Ignored => bar
  }

  /** The bar after the lines, one after the other. */
  function Replay(bar: Bar, lines: seq<string>, known: bool): Bar
    decreases |lines|
  {
    if |lines| == 0 then bar
    else Apply(Replay(bar, lines[..|lines| - 1], known), Decode(lines[|lines| - 1]), known)
  }

  /** The progress loop of `exec`, over the stdout lines of the child. */
  method Follow(duration: Option<Duration>, lines: seq<string>) returns (bar: Bar)
    ensures bar == Replay(NewBar(duration), lines, duration.Some?)
  {
    bar := NewBar(duration);
    var i := 0;
    while i < |lines|
      invariant 0 <= i <= |lines|
      invariant bar == Replay(NewBar(duration), lines[..i], duration.Some?)
    {
      assert lines[..i + 1][..i] == lines[..i];
      var line := lines[i];
      assert Replay(NewBar(duration), lines[..i + 1], duration.Some?) == Apply(bar, Decode(line), duration.Some?);
      if line == "progress=end" {
        bar := bar.(finished := true);
      } else {
        match MatchOutTime(line) {
          case Some(digits) =>
            match ParseU64(digits) {
              case Some(ms) =>
                if duration.Some? {
                  bar := bar.(position := ms);
                } else {
                  bar := bar.(position := ms % 10);
                }
              case None =>
            }
          case None =>
        }
      }
      i := i + 1;
    }
    assert lines[..|lines|] == lines;
  }

  /** The length of the bar never changes while the lines are read. */
  lemma {:induction false} ReplayKeepsLength(bar: Bar, lines: seq<string>, known: bool)
    ensures Replay(bar, lines, known).length == bar.length
    decreases |lines|
  {
    if |lines| > 0 {
      ReplayKeepsLength(bar, lines[..|lines| - 1], known);
    }
  }

  /** The bar is finished exactly when some line is `progress=end` (or it already was). */
  lemma {:induction false} ReplayFinished(bar: Bar, lines: seq<string>, known: bool)
    ensures Replay(bar, lines, known).finished
            <==> bar.finished || exists k :: 0 <= k < |lines| && lines[k] == "progress=end"
    decreases |lines|
  {
    if |lines| > 0 {
      var init := lines[..|lines| - 1];
      ReplayFinished(bar, init, known);
      assert forall k :: 0 <= k < |init| ==> init[k] == lines[k];
    }
  }

  /**
   * The position is set by the last line that reports a time in range, and
   * stays where it was when no line does.
   */
  lemma {:induction false} ReplayPosition(bar: Bar, lines: seq<string>, known: bool, last: int)
    requires -1 <= last < |lines|
    requires last >= 0 ==> Decode(lines[last]).Elapsed?
    requires forall k :: last < k < |lines| ==> !Decode(lines[k]).Elapsed?
    ensures last < 0 ==> Replay(bar, lines, known).position == bar.position
    ensures last >= 0 ==> Replay(bar, lines, known).position == PositionFor(Decode(lines[last]).ms, known)
    decreases |lines|
  {
    if |lines| > 0 {
      var init := lines[..|lines| - 1];
      if last < |lines| - 1 {
        assert forall k :: last < k < |init| ==> init[k] == lines[k];
        ReplayPosition(bar, init, known, last);
      }
    }
  }

  /** Every u64 written as `out_time_ms=<decimal>` is read back exactly. */
  lemma DecodeOutTime(n: nat)
    ensures n < U64_MODULUS ==> Decode("out_time_ms=" + NatToDecimal(n)) == Elapsed(n)
    ensures n >= U64_MODULUS ==> Decode("out_time_ms=" + NatToDecimal(n)) == Ignored
  {
    var line := "out_time_ms=" + NatToDecimal(n);
    assert line == "out_time_ms=" + NatToDecimal(n) + "";
    MatchOutTimeComplete(NatToDecimal(n), "");
    assert line[0] == 'o';
    DecimalRoundTrip(n);
  }
}
