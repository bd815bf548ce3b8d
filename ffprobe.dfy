/**
 * src/ffprobe.rs: the stream properties the program shows, read from the
 * ffprobe output.  The accessors give `None` when a property is missing.
 */
module Ffprobe {
  import opened Wrappers
  import opened Lexical
  import opened Props

  function FileCodecName(info: seq<Property>): Option<string> {
    FileProperty(info, "codec_name")
  }

  function FileChannels(info: seq<Property>): Option<string> {
    FileProperty(info, "channels")
  }

  function FileChannelLayout(info: seq<Property>): Option<string> {
    FileProperty(info, "channel_layout")
  }

  /**
   * Each accessor is absent exactly when no property has its key, and
   * otherwise gives the value of the first property that does.
   */
  lemma AccessorsFirstMatch(info: seq<Property>)
    ensures FileCodecName(info).None? <==> forall k | 0 <= k < |info| :: info[k].key != "codec_name"
    ensures FileChannels(info).None? <==> forall k | 0 <= k < |info| :: info[k].key != "channels"
    ensures FileChannelLayout(info).None? <==> forall k | 0 <= k < |info| :: info[k].key != "channel_layout"
    ensures |info| > 0 && info[0].key == "codec_name" ==> FileCodecName(info) == Some(info[0].value)
    ensures |info| > 0 && info[0].key == "channels" ==> FileChannels(info) == Some(info[0].value)
    ensures |info| > 0 && info[0].key == "channel_layout" ==> FileChannelLayout(info) == Some(info[0].value)
  {
  }

  /** `file_bit_rate`: the `bit_rate` property, when it reads as an `i64`. */
  function FileBitRate(info: seq<Property>): (r: Option<int>)
    ensures r.Some? <==> FileProperty(info, "bit_rate").Some? && ParseI64(FileProperty(info, "bit_rate").value).Some?
    ensures r.Some? ==> I64_MIN <= r.value <= I64_MAX
  {
    match FileProperty(info, "bit_rate")
    case Some(text) => ParseI64(text)
    case None => None
  }

  /** `file_bit_rate_txt`: whole kilobits per second, cut toward zero, or `N/A`. */
  function FileBitRateTxt(info: seq<Property>): (r: string)
    ensures r == "N/A" <==> FileBitRate(info).None?
  {
    match FileBitRate(info)
    case Some(bitRate) => IntToDecimal(TruncDiv(bitRate, 1000)) + " kb/s"
    case None => "N/A"
  }

  /**
   * A `bit_rate` property written as a decimal i64 shows as that rate
   * divided by 1000 with the remainder dropped (toward zero for a negative
   * rate), followed by ` kb/s`.
   */
  lemma BitRateText(info: seq<Property>, rate: int)
    requires I64_MIN <= rate <= I64_MAX
    requires FileProperty(info, "bit_rate") == Some(IntToDecimal(rate))
    ensures FileBitRate(info) == Some(rate)
    ensures FileBitRateTxt(info) == IntToDecimal(TruncDiv(rate, 1000)) + " kb/s"
  {
    ParseI64RoundTrip(rate);
  }
}
