/**
 * The `key=value` properties ffprobe prints for the first audio stream, and
 * the lookups both src/ffprobe.rs and src/file.rs make on them (the two
 * files carry identical copies of `file_property`, `parse_duration` and
 * `file_duration`).
 */
module Props {
  import opened Wrappers
  import opened Lexical
  import opened Progress

  /** One property as the props parser yields it. */
  datatype Property = Property(key: string, value: string)

  /** `file_property`: the value of the first property whose key is the name. */
  function FileProperty(info: seq<Property>, name: string): (r: Option<string>)
    ensures r.None? <==> forall k | 0 <= k < |info| :: info[k].key != name
    ensures r.Some? ==> exists k | 0 <= k < |info| ::
      info[k].key == name && info[k].value == r.value && forall j | 0 <= j < k :: info[j].key != name
    decreases |info|
  {
    if |info| == 0 then None
    else if info[0].key == name then Some(info[0].value)
    else
      var r := FileProperty(info[1..], name);
      assert forall k | 1 <= k < |info| :: info[k] == info[1..][k - 1];
      if r.Some? then
        var k :| 0 <= k < |info[1..]| && info[1..][k].key == name && info[1..][k].value == r.value
                 && forall j | 0 <= j < k :: info[1..][j].key != name;
        assert info[k + 1] == info[1..][k];
        assert forall j | 1 <= j < k + 1 :: info[j] == info[1..][j - 1];
        r
      else r
  }

  /**
   * The search stops at the first match: properties after it do not matter,
   * and properties before it with other keys are skipped.
   */
  lemma {:induction false} FilePropertyAppend(first: seq<Property>, rest: seq<Property>, name: string)
    ensures (exists k | 0 <= k < |first| :: first[k].key == name) ==>
      FileProperty(first + rest, name) == FileProperty(first, name)
    ensures (forall k | 0 <= k < |first| :: first[k].key != name) ==>
      FileProperty(first + rest, name) == FileProperty(rest, name)
    decreases |first|
  {
    if |first| > 0 {
      assert (first + rest)[0] == first[0];
      assert (first + rest)[1..] == first[1..] + rest;
      FilePropertyAppend(first[1..], rest, name);
      assert forall k | 1 <= k < |first| :: first[k] == first[1..][k - 1];
    } else {
      assert first + rest == rest;
    }
  }

  /**
   * `(value * 1000.0).trunc() as u64`: the fraction is cut off and the cast
   * saturates, so anything below one gives 0 and anything past the range
   * gives the largest u64.
   */
  function TruncToU64(x: real): (n: nat)
    ensures n < U64_MODULUS
    ensures x < 1.0 ==> n == 0
    ensures 0.0 <= x < U64_MODULUS as real ==> n as real <= x < n as real + 1.0
    ensures x >= U64_MODULUS as real ==> n == U64_MODULUS - 1
  {
    if x < 1.0 then 0
    else if x.Floor >= U64_MODULUS then U64_MODULUS - 1
    else x.Floor
  }

  /**
   * `parse_duration`: seconds as text, cut to whole milliseconds; within
   * range the result falls short of the seconds given by less than one
   * millisecond.
   */
  function ParseDuration(text: string, parse: string -> Option<real>): (r: Option<Duration>)
    ensures r.Some? <==> parse(text).Some?
    ensures r.Some? ==> r.value % 1_000_000 == 0 && r.value < U64_MODULUS * 1_000_000
    ensures r.Some? && 0.0 <= parse(text).value * 1000.0 < U64_MODULUS as real ==>
      r.value as real <= parse(text).value * 1_000_000_000.0 < r.value as real + 1_000_000.0
  {
    match parse(text)
    case Some(value) => Some(FromMillis(TruncToU64(value * 1000.0)))
    case None => None
  }

  /** `file_duration`: the `duration` property read as seconds. */
  function FileDuration(info: seq<Property>, parse: string -> Option<real>): (r: Option<Duration>)
    ensures r.None? <==> FileProperty(info, "duration").None? || parse(FileProperty(info, "duration").value).None?
    ensures r.Some? ==> r.value % 1_000_000 == 0
  {
    match FileProperty(info, "duration")
    case Some(duration) => ParseDuration(duration, parse)
    case None => None
  }

  /**
   * A duration of s seconds with a whole number of milliseconds (and in
   * range) keeps every millisecond.
   */
  lemma ParseDurationExact(text: string, parse: string -> Option<real>, ms: nat)
    requires ms < U64_MODULUS && parse(text) == Some(ms as real / 1000.0)
    ensures ParseDuration(text, parse) == Some(FromMillis(ms))
  {
    assert (ms as real / 1000.0) * 1000.0 == ms as real;
    assert (ms as real).Floor == ms;
  }
}
