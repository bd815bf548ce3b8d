/**
 * The text of an ffmpeg filter with options, `name=key=value:key=value:...`,
 * as the `format!` calls of the program build it for the `-filter` argument,
 * and its reading back, which shows that the rendering loses nothing.
 */
module FilterGraph {
  import opened Wrappers

  /** The first index holding c, if any. */
  function IndexOf(s: string, c: char): (r: Option<nat>)
    ensures r.Some? ==> r.value < |s| && s[r.value] == c && c !in s[..r.value]
    ensures r.None? ==> c !in s
  {
    if |s| == 0 then None
    else if s[0] == c then Some(0)
    else match IndexOf(s[1..], c)
      case None => None
      case Some(i) =>
        assert s[..i + 1] == [s[0]] + s[1..][..i];
        Some(i + 1)
  }

  /** The parts with one separator between neighbours. */
  function Join(parts: seq<string>, sep: char): string {
    if |parts| == 0 then ""
    else if |parts| == 1 then parts[0]
    else parts[0] + [sep] + Join(parts[1..], sep)
  }

  /** The pieces of s between separators; always at least one. */
  function Split(s: string, sep: char): (r: seq<string>)
    ensures |r| > 0
    ensures forall k | 0 <= k < |r| :: sep !in r[k]
    decreases |s|
  {
    match IndexOf(s, sep)
    case None => [s]
    case Some(i) => [s[..i]] + Split(s[i + 1..], sep)
  }

  lemma IndexOfFirst(p: string, sep: char, rest: string)
    requires sep !in p
    ensures IndexOf(p + [sep] + rest, sep) == Some(|p|)
  {
    var s := p + [sep] + rest;
    assert s[|p|] == sep;
  }

  /** Splitting the joined text gives back the parts, provided none holds the separator. */
  lemma {:induction false} SplitJoin(parts: seq<string>, sep: char)
    requires |parts| > 0 && forall k | 0 <= k < |parts| :: sep !in parts[k]
    ensures Split(Join(parts, sep), sep) == parts
  {
    if |parts| > 1 {
      var p, rest := parts[0], Join(parts[1..], sep);
      var s := p + [sep] + rest;
      assert Join(parts, sep) == s;
      IndexOfFirst(p, sep, rest);
      assert s[..|p|] == p;
      assert s[|p| + 1..] == rest;
      SplitJoin(parts[1..], sep);
    }
  }

  /** Joining two non-empty lists is joining each and putting one separator between. */
  lemma {:induction false} JoinAppend(a: seq<string>, b: seq<string>, sep: char)
    requires |a| > 0 && |b| > 0
    ensures Join(a + b, sep) == Join(a, sep) + [sep] + Join(b, sep)
  {
    if |a| > 1 {
      assert (a + b)[1..] == a[1..] + b;
      JoinAppend(a[1..], b, sep);
    }
  }

  /** One `key=value` option. */
  function Setting(option: (string, string)): string {
    option.0 + "=" + option.1
  }

  function Settings(options: seq<(string, string)>): (r: seq<string>)
    ensures |r| == |options|
    ensures forall k | 0 <= k < |r| :: r[k] == Setting(options[k])
  {
    seq(|options|, k requires 0 <= k < |options| => Setting(options[k]))
  }

  /** `name=key=value:key=value:...` */
  function Render(name: string, options: seq<(string, string)>): string {
    name + "=" + Join(Settings(options), ':')
  }

  /** A filter text extended with `:key=value:...` (the `+=` of the program). */
  function Extend(text: string, options: seq<(string, string)>): string {
    text + ":" + Join(Settings(options), ':')
  }

  /** Extending a rendered filter renders the longer option list. */
  lemma ExtendRender(name: string, a: seq<(string, string)>, b: seq<(string, string)>)
    requires |a| > 0 && |b| > 0
    ensures Extend(Render(name, a), b) == Render(name, a + b)
  {
    assert Settings(a + b) == Settings(a) + Settings(b);
    JoinAppend(Settings(a), Settings(b), ':');
  }

  function ParseSetting(s: string): Option<(string, string)> {
    match IndexOf(s, '=')
    case None => None
    case Some(i) => Some((s[..i], s[i + 1..]))
  }

  function ParseSettings(parts: seq<string>): (r: Option<seq<(string, string)>>)
    ensures r.Some? ==> |r.value| == |parts|
  {
    if |parts| == 0 then Some([])
    else match (ParseSetting(parts[0]), ParseSettings(parts[1..]))
      case (Some(o), Some(os)) => Some([o] + os)
      case _ => None
  }

  /** Reads `name=key=value:...` back into the name and the options. */
  function Parse(s: string): Option<(string, seq<(string, string)>)> {
    match IndexOf(s, '=')
    case None => None
    case Some(i) =>
      match ParseSettings(Split(s[i + 1..], ':'))
      case None => None
      case Some(options) => Some((s[..i], options))
  }

  /** Names and keys free of `=` and `:`, values free of `:`. */
  predicate Plain(name: string, options: seq<(string, string)>) {
    && '=' !in name
    && forall k | 0 <= k < |options| ::
         '=' !in options[k].0 && ':' !in options[k].0 && ':' !in options[k].1
  }

  lemma ParseSettingOf(option: (string, string))
    requires '=' !in option.0
    ensures ParseSetting(Setting(option)) == Some(option)
  {
    var s := Setting(option);
    IndexOfFirst(option.0, '=', option.1);
    assert s == option.0 + ['='] + option.1;
    assert s[..|option.0|] == option.0;
    assert s[|option.0| + 1..] == option.1;
  }

  lemma {:induction false} ParseSettingsOf(options: seq<(string, string)>)
    requires forall k | 0 <= k < |options| :: '=' !in options[k].0
    ensures ParseSettings(Settings(options)) == Some(options)
  {
    if |options| > 0 {
      ParseSettingOf(options[0]);
      assert Settings(options)[1..] == Settings(options[1..]);
      ParseSettingsOf(options[1..]);
      assert [options[0]] + options[1..] == options;
    }
  }

  /** A rendered filter reads back as its name and its options, in order. */
  lemma RenderParse(name: string, options: seq<(string, string)>)
    requires |options| > 0 && Plain(name, options)
    ensures Parse(Render(name, options)) == Some((name, options))
  {
    var body := Join(Settings(options), ':');
    var s := Render(name, options);
    assert s == name + ['='] + body;
    IndexOfFirst(name, '=', body);
    assert s[..|name|] == name;
    assert s[|name| + 1..] == body;
    SplitJoin(Settings(options), ':');
    ParseSettingsOf(options);
  }
}
