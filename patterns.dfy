/**
 * The three regular expressions of the program, written as matchers that
 * return the capture groups the Rust code reads.  The matchers follow the
 * leftmost-first semantics of the `regex` crate: a greedy group takes the
 * longest text that still lets the rest of the pattern match.
 */
module Patterns {
  import opened Wrappers
  import opened Lexical

  /** First index at or after i that does not hold whitespace. */
  function SkipSpace(s: string, i: nat): (j: nat)
    requires i <= |s|
    ensures i <= j <= |s| && AllSpace(s[i..j])
    ensures j < |s| ==> !IsSpace(s[j])
    decreases |s| - i
  {
    if i < |s| && IsSpace(s[i]) then
      var j := SkipSpace(s, i + 1);
      assert s[i..j] == [s[i]] + s[i + 1..j];
      j
    else i
  }

  /** First index at or after i that holds whitespace. */
  function SkipNonSpace(s: string, i: nat): (j: nat)
    requires i <= |s|
    ensures i <= j <= |s| && NoSpace(s[i..j])
    ensures j < |s| ==> IsSpace(s[j])
    decreases |s| - i
  {
    if i < |s| && !IsSpace(s[i]) then
      var j := SkipNonSpace(s, i + 1);
      assert s[i..j] == [s[i]] + s[i + 1..j];
      j
    else i
  }

  /** First index at or after i that does not hold a digit. */
  function SkipDigits(s: string, i: nat): (j: nat)
    requires i <= |s|
    ensures i <= j <= |s| && AllDigits(s[i..j])
    ensures j < |s| ==> !IsDigit(s[j])
    decreases |s| - i
  {
    if i < |s| && IsDigit(s[i]) then
      var j := SkipDigits(s, i + 1);
      assert s[i..j] == [s[i]] + s[i + 1..j];
      j
    else i
  }

  /** The end of s[..n] once its trailing whitespace is dropped. */
  function TrimEnd(s: string, n: nat): (t: nat)
    requires n <= |s|
    ensures t <= n && AllSpace(s[t..n])
    ensures t > 0 ==> !IsSpace(s[t - 1])
  {
    if n > 0 && IsSpace(s[n - 1]) then
      var t := TrimEnd(s, n - 1);
      assert s[t..n] == s[t..n - 1] + [s[n - 1]];
      t
    else n
  }

  // ---------------------------------------------------------------------
  // ^\s*"(\S+)"\s*:\s*"(\S+)",?\s*$          (RE_VALUES of the loudnorm report)
  // ---------------------------------------------------------------------

  /** `"(\S+)",?\s*$` from index b: the second capture. */
  function ValueAt(line: string, b: nat): Option<string>
    requires b <= |line|
  {
    var t := TrimEnd(line, |line|);
    if b < t && line[b] == '"' && NoSpace(line[b + 1..t]) then
      if line[t - 1] == '"' && b + 2 < t then Some(line[b + 1..t - 1])
      else if t >= 2 && line[t - 2..t] == "\"," && b + 3 < t then Some(line[b + 1..t - 2])
      else None
    else None
  }

  /** `\s*:\s*"(\S+)",?\s*$` from index i. */
  function TailAt(line: string, i: nat): Option<string>
    requires i <= |line|
  {
    var a := SkipSpace(line, i);
    if a < |line| && line[a] == ':' then ValueAt(line, SkipSpace(line, a + 1)) else None
  }

  /**
   * The first capture ends at a closing quote at index j; the greedy group
   * tries the largest j first, down to a one-character key.
   */
  function SearchKey(line: string, p: nat, j: nat): Option<(string, string)>
    requires p < j < |line|
    decreases j
  {
    if p + 1 < j && line[j] == '"' && TailAt(line, j + 1).Some? then
      Some((line[p + 1..j], TailAt(line, j + 1).value))
    else if j == p + 1 then None
    else SearchKey(line, p, j - 1)
  }

  /** RE_VALUES: the key and the value of a `"key" : "value",` line. */
  function MatchValue(line: string): Option<(string, string)> {
    var p := SkipSpace(line, 0);
    if p < |line| && line[p] == '"' then
      var e := SkipNonSpace(line, p + 1);
      if e > p + 1 then SearchKey(line, p, e - 1) else None
    else None
  }

  /** Both captures are non-empty and free of whitespace. */
  lemma ValueAtShape(line: string, b: nat)
    requires b <= |line| && ValueAt(line, b).Some?
    ensures |ValueAt(line, b).value| > 0 && NoSpace(ValueAt(line, b).value)
  {
    var t := TrimEnd(line, |line|);
    var v := ValueAt(line, b).value;
    var inner := line[b + 1..t];
    assert NoSpace(inner);
    var e := if line[t - 1] == '"' && b + 2 < t then t - 1 else t - 2;
    assert b + 1 < e <= t && v == line[b + 1..e];
    forall i | 0 <= i < |v| ensures !IsSpace(v[i]) {
      assert v[i] == line[b + 1 + i] == inner[i];
    }
  }

  lemma {:induction false} SearchKeyShape(line: string, p: nat, j: nat)
    requires p < j < |line| && NoSpace(line[p + 1..j + 1]) && SearchKey(line, p, j).Some?
    ensures var r := SearchKey(line, p, j).value;
      |r.0| > 0 && NoSpace(r.0) && |r.1| > 0 && NoSpace(r.1)
    decreases j
  {
    assert line[p + 1..j] == line[p + 1..j + 1][..j - (p + 1)];
    if p + 1 < j && line[j] == '"' && TailAt(line, j + 1).Some? {
      ValueAtShape(line, SkipSpace(line, SkipSpace(line, j + 1) + 1));
    } else {
      SearchKeyShape(line, p, j - 1);
    }
  }

  /** RE_VALUES captures only non-empty runs of non-whitespace. */
  lemma MatchValueShape(line: string)
    requires MatchValue(line).Some?
    ensures var r := MatchValue(line).value;
      |r.0| > 0 && NoSpace(r.0) && |r.1| > 0 && NoSpace(r.1)
  {
    var p := SkipSpace(line, 0);
    var e := SkipNonSpace(line, p + 1);
    SearchKeyShape(line, p, e - 1);
  }

  // ---------------------------------------------------------------------
  // ^\s*out_time_ms\s*=\s*(\d+).*$            (RE_DURATION of the progress stream)
  // ---------------------------------------------------------------------

  /** RE_DURATION: the digits of an `out_time_ms=<digits>` line. */
  function MatchOutTime(line: string): (r: Option<string>)
    ensures r.Some? ==> |r.value| > 0 && AllDigits(r.value)
  {
    var p := SkipSpace(line, 0);
    if p + 11 <= |line| && line[p..p + 11] == "out_time_ms" then
      var q := SkipSpace(line, p + 11);
      if q < |line| && line[q] == '=' then
        var d := SkipSpace(line, q + 1);
        var e := SkipDigits(line, d);
        // `.*$`: the rest of the text holds no line feed
        if d < e && IsLine(line[e..]) then Some(line[d..e]) else None
      else None
    else None
  }

  // ---------------------------------------------------------------------
  // ^\s*.*\s*Peak\s+level\s+dB\s*:\s*(.+)\s*$ (RE_VALUES of the astats report)
  // ---------------------------------------------------------------------

  /** The capture when the `Peak` of the pattern starts at index p. */
  function PeakAt(line: string, p: nat): Option<string>
    requires p <= |line| && IsLine(line)
  {
    if p + 4 <= |line| && line[p..p + 4] == "Peak" then
      var a := SkipSpace(line, p + 4);
      if a > p + 4 && a + 5 <= |line| && line[a..a + 5] == "level" then
        var b := SkipSpace(line, a + 5);
        if b > a + 5 && b + 2 <= |line| && line[b..b + 2] == "dB" then
          var c := SkipSpace(line, b + 2);
          if c < |line| && line[c] == ':' then
            var w := SkipSpace(line, c + 1);
            // `(.+)` is greedy and `.` takes every character of a line; when
            // only whitespace follows the colon, `\s*` gives one back
            if w < |line| then Some(line[w..])
            else if c + 1 < |line| then Some(line[|line| - 1..])
            else None
          else None
        else None
      else None
    else None
  }

  /** The greedy `.*` in front of `Peak` selects the last position that matches. */
  function SearchPeak(line: string, p: nat): Option<string>
    requires p <= |line| && IsLine(line)
  {
    if PeakAt(line, p).Some? then PeakAt(line, p)
    else if p == 0 then None
    else SearchPeak(line, p - 1)
  }

  function MatchPeak(line: string): Option<string>
    requires IsLine(line)
  {
    SearchPeak(line, |line|)
  }

  // ---------------------------------------------------------------------
  // Completeness on the lines the tools actually print
  // ---------------------------------------------------------------------

  lemma {:induction false} SkipSpaceOver(s: string, i: nat, j: nat)
    requires i <= j <= |s| && AllSpace(s[i..j]) && (j < |s| ==> !IsSpace(s[j]))
    ensures SkipSpace(s, i) == j
    decreases j - i
  {
    if i < j {
      assert IsSpace(s[i..j][0]);
      assert s[i + 1..j] == s[i..j][1..];
      SkipSpaceOver(s, i + 1, j);
    }
  }

  lemma {:induction false} SkipNonSpaceOver(s: string, i: nat, j: nat)
    requires i <= j <= |s| && NoSpace(s[i..j]) && (j < |s| ==> IsSpace(s[j]))
    ensures SkipNonSpace(s, i) == j
    decreases j - i
  {
    if i < j {
      assert !IsSpace(s[i..j][0]);
      assert s[i + 1..j] == s[i..j][1..];
      SkipNonSpaceOver(s, i + 1, j);
    }
  }

  lemma {:induction false} SkipDigitsOver(s: string, i: nat, j: nat)
    requires i <= j <= |s| && AllDigits(s[i..j]) && (j < |s| ==> !IsDigit(s[j]))
    ensures SkipDigits(s, i) == j
    decreases j - i
  {
    if i < j {
      assert IsDigit(s[i..j][0]);
      assert s[i + 1..j] == s[i..j][1..];
      SkipDigitsOver(s, i + 1, j);
    }
  }

  lemma {:induction false} TrimEndOver(s: string, t: nat, n: nat)
    requires t <= n <= |s| && AllSpace(s[t..n]) && (t > 0 ==> !IsSpace(s[t - 1]))
    ensures TrimEnd(s, n) == t
    decreases n
  {
    if t < n {
      assert IsSpace(s[t..n][n - 1 - t]);
      assert s[t..n - 1] == s[t..n][..n - 1 - t];
      TrimEndOver(s, t, n - 1);
    }
  }

  function Comma(comma: bool): string {
    if comma then "," else ""
  }

  /**
   * What follows the key's closing quote on a value line: blanks, the
   * colon, blanks, then the quoted value and the optional comma.
   */
  function ValueTail(before: string, after: string, value: string, comma: bool): string {
    before + (":" + (after + ("\"" + (value + "\"" + Comma(comma)))))
  }

  /** A `"key" : "value",` line, with any blanks around the colon. */
  function ValueLineText(indent: string, key: string, before: string, after: string, value: string, comma: bool): string {
    indent + "\"" + key + "\"" + ValueTail(before, after, value, comma)
  }

  lemma NoSpaceAppend(a: string, b: string)
    requires NoSpace(a) && NoSpace(b)
    ensures NoSpace(a + b)
  {
    forall i | 0 <= i < |a + b| ensures !IsSpace((a + b)[i]) {
      if i < |a| { assert (a + b)[i] == a[i]; } else { assert (a + b)[i] == b[i - |a|]; }
    }
  }

  lemma ValueAtOn(line: string, b: nat, value: string, comma: bool)
    requires b < |line| && line[b] == '"' && line[b + 1..] == value + "\"" + Comma(comma)
    requires |value| > 0 && NoSpace(value)
    ensures ValueAt(line, b) == Some(value)
  {
    var rest := line[b + 1..];
    var c := Comma(comma);
    var t := |line|;
    assert |rest| == |value| + 1 + |c|;
    assert line[t..t] == [];
    TrimEndOver(line, t, t);
    assert line[b + 1..t] == rest;
    NoSpaceAppend(value, "\"");
    NoSpaceAppend(value + "\"", c);
    if comma {
      assert rest[|value|..] == "\",";
      assert line[t - 2..t] == rest[|value|..];
      assert line[b + 1..t - 2] == rest[..|value|] == value;
    } else {
      assert rest[|value|] == '"';
      assert line[t - 1] == rest[|value|];
      assert line[b + 1..t - 1] == rest[..|value|] == value;
    }
  }

  lemma TailAtOn(line: string, i: nat, before: string, after: string, value: string, comma: bool)
    requires i <= |line| && line[i..] == ValueTail(before, after, value, comma)
    requires AllSpace(before) && AllSpace(after) && |value| > 0 && NoSpace(value)
    ensures TailAt(line, i) == Some(value)
  {
    var a := i + |before|;
    var b := a + 1 + |after|;
    assert b < |line| && line[b] == '"' && line[b + 1..] == value + "\"" + Comma(comma)
           && TailAt(line, i) == ValueAt(line, b) by {
      TailSkips(line, i, before, after, value, comma);
      TailAtFrom(line, i, a, b);
    }
    ValueAtOn(line, b, value, comma);
  }

  /** `TailAt` once the colon and the blanks on both sides of it are found. */
  lemma TailAtFrom(line: string, i: nat, a: nat, b: nat)
    requires i <= a < b <= |line| && SkipSpace(line, i) == a && line[a] == ':' && SkipSpace(line, a + 1) == b
    ensures TailAt(line, i) == ValueAt(line, b)
  {
  }

  /** The blanks around the colon are skipped up to the opening quote of the value. */
  lemma TailSkips(line: string, i: nat, before: string, after: string, value: string, comma: bool)
    requires i <= |line| && line[i..] == ValueTail(before, after, value, comma)
    requires AllSpace(before) && AllSpace(after)
    ensures var a := i + |before|;
      var b := a + 1 + |after|;
      && b < |line| && SkipSpace(line, i) == a && line[a] == ':' && SkipSpace(line, a + 1) == b
      && line[b] == '"' && line[b + 1..] == value + "\"" + Comma(comma)
  {
    var a := i + |before|;
    var b := a + 1 + |after|;
    TailLayout(line, i, before, after, value, comma);
    SkipSpaceOver(line, i, a);
    SkipSpaceOver(line, a + 1, b);
  }

  lemma TailLayout(line: string, i: nat, before: string, after: string, value: string, comma: bool)
    requires i <= |line| && line[i..] == ValueTail(before, after, value, comma)
    ensures var a := i + |before|;
      var b := a + 1 + |after|;
      && b < |line| && line[i..a] == before && line[a] == ':' && line[a + 1..b] == after
      && line[b] == '"' && line[b + 1..] == value + "\"" + Comma(comma)
  {
    var a := i + |before|;
    var b := a + 1 + |after|;
    var v := value + "\"" + Comma(comma);
    var r3 := "\"" + v;
    var r2 := after + r3;
    var r1 := ":" + r2;
    assert line[i..] == before + r1;
    assert line[i..a] == before by {
      forall k | 0 <= k < |before| ensures line[i + k] == before[k] {
        assert line[i + k] == (before + r1)[k];
      }
    }
    assert line[a..] == r1;
    assert line[a] == r1[0] == ':';
    assert line[a + 1..] == r2;
    assert line[a + 1..b] == after by {
      forall k | 0 <= k < |after| ensures line[a + 1 + k] == after[k] {
        assert line[a + 1 + k] == r2[k];
      }
    }
    assert line[b..] == r3;
    assert line[b] == r3[0];
    assert line[b + 1..] == v;
  }

  /**
   * Every `"key" : "value"` line, with or without its trailing comma, yields
   * exactly its key and its value, whatever (non-blank) characters they hold,
   * when a blank stands before or after the colon.
   */
  lemma MatchValueComplete(indent: string, key: string, before: string, after: string, value: string, comma: bool)
    requires AllSpace(indent) && AllSpace(before) && AllSpace(after) && |before| + |after| > 0
    requires |key| > 0 && NoSpace(key) && |value| > 0 && NoSpace(value)
    ensures MatchValue(ValueLineText(indent, key, before, after, value, comma)) == Some((key, value))
  {
    var tail := ValueTail(before, after, value, comma);
    KeyLineFacts(indent, key, tail);
    MatchValueOn(indent + "\"" + key + "\"" + tail, |indent|, key, before, after, value, comma);
  }

  lemma MatchValueOn(line: string, p: nat, key: string, before: string, after: string, value: string, comma: bool)
    requires AllSpace(before) && AllSpace(after) && |before| + |after| > 0
    requires |key| > 0 && NoSpace(key) && |value| > 0 && NoSpace(value)
    requires p + 1 + |key| < |line| && AllSpace(line[..p]) && line[p] == '"'
    requires line[p + 1..p + 1 + |key|] == key && line[p + 1 + |key|] == '"'
    requires line[p + 2 + |key|..] == ValueTail(before, after, value, comma)
    ensures MatchValue(line) == Some((key, value))
  {
    var j := p + 1 + |key|;
    ValueLineScan(line, p, key, before, after, value, comma);
    assert line[p + 1..j] == key;
    MatchValueAt(line, p, j, if |before| > 0 then j + 1 else j + 2);
  }

  /** Where each part of a value line begins and ends, as the scan sees it. */
  lemma ValueLineScan(line: string, p: nat, key: string, before: string, after: string, value: string, comma: bool)
    requires AllSpace(before) && AllSpace(after) && |before| + |after| > 0
    requires |key| > 0 && NoSpace(key) && |value| > 0 && NoSpace(value)
    requires p + 1 + |key| < |line| && AllSpace(line[..p]) && line[p] == '"'
    requires line[p + 1..p + 1 + |key|] == key && line[p + 1 + |key|] == '"'
    requires line[p + 2 + |key|..] == ValueTail(before, after, value, comma)
    ensures SkipSpace(line, 0) == p
    ensures |before| > 0 ==> SkipNonSpace(line, p + 1) == p + 2 + |key|
    ensures |before| == 0 ==> SkipNonSpace(line, p + 1) == p + 3 + |key| && line[p + 2 + |key|] == ':'
    ensures TailAt(line, p + 2 + |key|) == Some(value)
  {
    LeadingSpace(line, p);
    KeyRun(line, p, key, before, after, value, comma);
    TailAtOn(line, p + 2 + |key|, before, after, value, comma);
  }

  /** The non-blank run that starts the key ends at the first blank around the colon. */
  lemma KeyRun(line: string, p: nat, key: string, before: string, after: string, value: string, comma: bool)
    requires AllSpace(before) && AllSpace(after) && |before| + |after| > 0 && NoSpace(key)
    requires p + 1 + |key| < |line| && line[p + 1..p + 1 + |key|] == key && line[p + 1 + |key|] == '"'
    requires line[p + 2 + |key|..] == ValueTail(before, after, value, comma)
    ensures |before| > 0 ==> SkipNonSpace(line, p + 1) == p + 2 + |key|
    ensures |before| == 0 ==> SkipNonSpace(line, p + 1) == p + 3 + |key| && line[p + 2 + |key|] == ':'
  {
    var i := p + 2 + |key|;
    TailLayout(line, i, before, after, value, comma);
    if |before| > 0 {
      assert line[i] == line[i..i + |before|][0] == before[0];
      KeySpan(line, p, key, []);
    } else {
      assert line[i + 1] == line[i + 1..i + 1 + |after|][0] == after[0];
      KeySpan(line, p, key, [':']);
    }
  }

  lemma LeadingSpace(line: string, p: nat)
    requires p < |line| && AllSpace(line[..p]) && line[p] == '"'
    ensures SkipSpace(line, 0) == p
  {
    assert line[0..p] == line[..p];
    SkipSpaceOver(line, 0, p);
  }

  /**
   * The key, its closing quote and the non-blank text after it are one run
   * of non-blank characters, ended by a blank.
   */
  lemma KeySpan(line: string, p: nat, key: string, more: string)
    requires NoSpace(key) && NoSpace(more)
    requires p + 2 + |key| + |more| < |line| && line[p + 1..p + 1 + |key|] == key
    requires line[p + 1 + |key|] == '"' && line[p + 2 + |key|..p + 2 + |key| + |more|] == more
    requires IsSpace(line[p + 2 + |key| + |more|])
    ensures SkipNonSpace(line, p + 1) == p + 2 + |key| + |more|
  {
    var j := p + 1 + |key|;
    var e := j + 1 + |more|;
    assert line[p + 1..e] == key + "\"" + more;
    NoSpaceAppend(key, "\"");
    NoSpaceAppend(key + "\"", more);
    SkipNonSpaceOver(line, p + 1, e);
  }

  lemma KeyLineFacts(indent: string, key: string, tail: string)
    ensures var line := indent + "\"" + key + "\"" + tail;
      var p := |indent|;
      var j := p + 1 + |key|;
      && j < |line| && line[..p] == indent && line[p] == '"'
      && line[p + 1..j] == key && line[j] == '"' && line[j + 1..] == tail
  {
  }

  /**
   * The greedy key group starts from the end of the non-blank run; when the
   * run ends one past the key's closing quote on a colon, that colon is
   * given back first.
   */
  lemma MatchValueAt(line: string, p: nat, j: nat, e: nat)
    requires p + 1 < j < |line| && line[p] == '"' && line[j] == '"'
    requires SkipSpace(line, 0) == p && SkipNonSpace(line, p + 1) == e
    requires e == j + 1 || (e == j + 2 && line[j + 1] != '"')
    requires TailAt(line, j + 1).Some?
    ensures MatchValue(line) == Some((line[p + 1..j], TailAt(line, j + 1).value))
  {
    if e == j + 2 {
      assert SearchKey(line, p, j + 1) == SearchKey(line, p, j);
    }
  }

  /** Every `out_time_ms=<digits>` line yields exactly its digits. */
  lemma MatchOutTimeComplete(digits: string, rest: string)
    requires |digits| > 0 && AllDigits(digits)
    requires IsLine(rest) && (rest == [] || !IsDigit(rest[0]))
    ensures MatchOutTime("out_time_ms=" + digits + rest) == Some(digits)
  {
    var line := "out_time_ms=" + digits + rest;
    var e := 12 + |digits|;
    assert line[..11] == "out_time_ms" && line[11] == '=';
    assert line[12..e] == digits;
    assert line[e..] == rest;
    SkipSpaceOver(line, 0, 0);
    SkipSpaceOver(line, 11, 11);
    SkipSpaceOver(line, 12, 12);
    SkipDigitsOver(line, 12, e);
  }

  lemma PeakAtNeedsP(line: string, q: nat)
    requires q <= |line| && IsLine(line)
    requires q + 4 > |line| || line[q] != 'P'
    ensures PeakAt(line, q) == None
  {
    if q + 4 <= |line| { assert line[q..q + 4][0] == line[q]; }
  }

  lemma PeakAtNeedsSpace(line: string, q: nat)
    requires q + 4 <= |line| && IsLine(line)
    requires q + 4 == |line| || !IsSpace(line[q + 4])
    ensures PeakAt(line, q) == None
  {
    SkipSpaceOver(line, q + 4, q + 4);
  }

  /** No position inside the tail `eak level dB: <value>` starts a match. */
  lemma {:induction false} PeakSearchSkipsTail(line: string, n: nat, value: string, q: nat)
    requires IsLine(line) && n + 15 <= |line|
    requires line[n..n + 15] == "Peak level dB: " && line[n + 15..] == value && NoSpace(value)
    requires n <= q <= |line|
    ensures SearchPeak(line, q) == SearchPeak(line, n)
    decreases q
  {
    if q > n {
      NoPeakInTail(line, n, value, q);
      PeakSearchSkipsTail(line, n, value, q - 1);
    }
  }

  lemma NoPeakInTail(line: string, n: nat, value: string, q: nat)
    requires IsLine(line) && n + 15 <= |line|
    requires line[n..n + 15] == "Peak level dB: " && line[n + 15..] == value && NoSpace(value)
    requires n < q <= |line|
    ensures PeakAt(line, q) == None
  {
    if q < n + 15 {
      assert line[q] == line[n..n + 15][q - n];
      PeakAtNeedsP(line, q);
    } else if q + 4 <= |line| {
      if q + 4 < |line| { assert line[q + 4] == value[q + 4 - n - 15]; }
      PeakAtNeedsSpace(line, q);
    } else {
      PeakAtNeedsP(line, q);
    }
  }

  /** A `... Peak level dB: <value>` line yields exactly its value. */
  lemma MatchPeakComplete(prefix: string, value: string)
    requires IsLine(prefix) && IsLine(value) && NoSpace(value) && |value| > 0
    ensures IsLine(prefix + "Peak level dB: " + value)
    ensures MatchPeak(prefix + "Peak level dB: " + value) == Some(value)
  {
    var line := prefix + "Peak level dB: " + value;
    var n := |prefix|;
    PeakLayout(prefix, value);
    SkipSpaceOver(line, n + 4, n + 5);
    SkipSpaceOver(line, n + 10, n + 11);
    SkipSpaceOver(line, n + 13, n + 13);
    SkipSpaceOver(line, n + 14, n + 15);
    assert PeakAt(line, n) == Some(value);
    PeakSearchSkipsTail(line, n, value, |line|);
  }

  lemma PeakLayout(prefix: string, value: string)
    requires IsLine(prefix) && IsLine(value)
    ensures var line := prefix + "Peak level dB: " + value;
      var n := |prefix|;
      && IsLine(line) && n + 15 <= |line|
      && line[n..n + 4] == "Peak" && line[n + 4] == ' ' && line[n + 5..n + 10] == "level"
      && line[n + 10] == ' ' && line[n + 11..n + 13] == "dB" && line[n + 13] == ':'
      && line[n + 14] == ' ' && line[n..n + 15] == "Peak level dB: " && line[n + 15..] == value
  {
    var marker := "Peak level dB: ";
    var line := prefix + marker + value;
    var n := |prefix|;
    forall i | 0 <= i < |line| ensures line[i] != '\n' {
      if i < n { assert line[i] == prefix[i]; }
      else if i < n + 15 { assert line[i] == marker[i - n]; }
      else { assert line[i] == value[i - n - 15]; }
    }
    assert line[n..n + 15] == marker;
    assert line[n + 15..] == value;
    MarkerWords(line, n);
  }

  lemma MarkerWords(line: string, n: nat)
    requires n + 15 <= |line| && line[n..n + 15] == "Peak level dB: "
    ensures line[n..n + 4] == "Peak" && line[n + 4] == ' ' && line[n + 5..n + 10] == "level"
      && line[n + 10] == ' ' && line[n + 11..n + 13] == "dB" && line[n + 13] == ':' && line[n + 14] == ' '
  {
    var w := line[n..n + 15];
    assert forall k | 0 <= k < 15 :: line[n + k] == w[k];
    assert w[0] == 'P' && w[1] == 'e' && w[2] == 'a' && w[3] == 'k' && w[4] == ' ';
    assert w[5] == 'l' && w[6] == 'e' && w[7] == 'v' && w[8] == 'e' && w[9] == 'l' && w[10] == ' ';
    assert w[11] == 'd' && w[12] == 'B' && w[13] == ':' && w[14] == ' ';
    assert line[n..n + 4] == "Peak";
    assert line[n + 5..n + 10] == "level";
    assert line[n + 11..n + 13] == "dB";
  }
}
