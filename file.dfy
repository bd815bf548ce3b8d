/**
 * src/file.rs: the earlier property accessors, which show `N/A` for a
 * missing property instead of returning `None`.
 */
module File {
  import opened Wrappers
  import opened Lexical
  import opened Props
  import Ffprobe

  function FileCodecName(info: seq<Property>): string {
    FileProperty(info, "codec_name").GetOr("N/A")
  }

  function FileChannels(info: seq<Property>): string {
    FileProperty(info, "channels").GetOr("N/A")
  }

  function FileChannelLayout(info: seq<Property>): string {
    FileProperty(info, "channel_layout").GetOr("N/A")
  }

  /**
   * The accessors never fail: each shows the value of the first property
   * with its key, and `N/A` when there is none.
   */
  lemma AccessorsDefault(info: seq<Property>)
    ensures (forall k | 0 <= k < |info| :: info[k].key != "codec_name") ==> FileCodecName(info) == "N/A"
    ensures (forall k | 0 <= k < |info| :: info[k].key != "channels") ==> FileChannels(info) == "N/A"
    ensures (forall k | 0 <= k < |info| :: info[k].key != "channel_layout") ==> FileChannelLayout(info) == "N/A"
    ensures Ffprobe.FileCodecName(info).Some? ==> FileCodecName(info) == Ffprobe.FileCodecName(info).value
    ensures Ffprobe.FileChannels(info).Some? ==> FileChannels(info) == Ffprobe.FileChannels(info).value
    ensures Ffprobe.FileChannelLayout(info).Some? ==> FileChannelLayout(info) == Ffprobe.FileChannelLayout(info).value
  {
  }

  /** `file_bit_rate`: whole kilobits per second, cut toward zero, or `N/A`. */
  function FileBitRate(info: seq<Property>): string {
    match FileProperty(info, "bit_rate")
    case Some(text) => (
      match ParseI64(text)
      case Some(bitRate) => IntToDecimal(TruncDiv(bitRate, 1000)) + " kb/s"
      case None => "N/A")
    case None => "N/A"
  }

  /**
   * The text agrees with `file_bit_rate_txt` of src/ffprobe.rs, and is
   * `N/A` exactly when the property is missing or is not an i64.
   */
  lemma FileBitRateAgrees(info: seq<Property>)
    ensures FileBitRate(info) == Ffprobe.FileBitRateTxt(info)
    ensures FileBitRate(info) == "N/A"
            <==> FileProperty(info, "bit_rate").None? || ParseI64(FileProperty(info, "bit_rate").value).None?
  {
  }

  /** The duration is absent when the property is, whatever the parser. */
  lemma FileDurationMissing(info: seq<Property>, parse: string -> Option<real>)
    requires forall k | 0 <= k < |info| :: info[k].key != "duration"
    ensures FileDuration(info, parse).None?
  {
  }
}
