/** Messages as lines: splitting a text at every separator, and the `caption**value**` lines of the report. */
module Lines {
  import opened Wrappers

  /** The pieces of a text between its separators: one more piece than separators. */
  function Split(s: string, sep: char): (parts: seq<string>)
    ensures |parts| >= 1
    ensures forall i :: 0 <= i < |parts| ==> sep !in parts[i]
    decreases |s|
  {
    if |s| == 0 then [""]
    else
      var init := Split(s[..|s| - 1], sep);
      var c := s[|s| - 1];
      if c == sep then init + [""]
      else init[..|init| - 1] + [init[|init| - 1] + [c]]
  }

  /** A piece free of separators, added after a separator, becomes a piece of its own. */
  lemma {:induction false} SplitAfterSeparator(s: string, sep: char, t: string)
    requires sep !in t
    ensures Split(s + [sep] + t, sep) == Split(s, sep) + [t]
    decreases |t|
  {
    var whole := s + [sep] + t;
    if |t| == 0 {
      assert whole == s + [sep];
      assert whole[..|whole| - 1] == s;
    } else {
      var t' := t[..|t| - 1];
      assert whole[..|whole| - 1] == s + [sep] + t';
      SplitAfterSeparator(s, sep, t');
      assert t' + [t[|t| - 1]] == t;
    }
  }

  /** A text free of separators is a single piece. */
  lemma {:induction false} SplitPlain(t: string, sep: char)
    requires sep !in t
    ensures Split(t, sep) == [t]
    decreases |t|
  {
    if |t| > 0 {
      SplitPlain(t[..|t| - 1], sep);
      assert t[..|t| - 1] + [t[|t| - 1]] == t;
    }
  }

  /** A text that fits on one line: no character of it is a line break. */
  predicate SingleLine(s: string)
    decreases |s|
  {
    |s| == 0 || (s[0] != '\n' && SingleLine(s[1..]))
  }

  lemma {:induction false} SingleLineNoBreak(s: string)
    ensures SingleLine(s) <==> '\n' !in s
    decreases |s|
  {
    if |s| > 0 {
      SingleLineNoBreak(s[1..]);
      assert s == [s[0]] + s[1..];
    }
  }

  /** A caption free of line breaks followed by a value on one line is on one line. */
  lemma CaptionedSingleLine(caption: string, value: string)
    requires '\n' !in caption && SingleLine(value)
    ensures '\n' !in caption + value
  {
    SingleLineNoBreak(value);
  }

  /** A report line: the caption, then the value in bold (`**value**`). */
  function Bold(caption: string, value: string): (line: string)
    ensures |line| == |caption| + |value| + 4
    ensures line[..|caption|] == caption
  {
    caption + "**" + value + "**"
  }

  /** The value of a bold line with the given caption, or `None` when the line has another shape. */
  function Unbold(line: string, caption: string): (r: Option<string>)
    ensures r.Some? ==> |line| == |caption| + |r.value| + 4 && line[..|caption|] == caption
  {
    if |line| >= |caption| + 4 && line[..|caption| + 2] == caption + "**" && line[|line| - 2..] == "**" then
      Some(line[|caption| + 2..|line| - 2])
    else None
  }

  lemma UnboldBold(caption: string, value: string)
    ensures Unbold(Bold(caption, value), caption) == Some(value)
  {
    var line := Bold(caption, value);
    assert line[..|caption| + 2] == caption + "**";
    assert line[|line| - 2..] == "**";
    assert line[|caption| + 2..|line| - 2] == value;
  }

  /** A plain labelled line: the caption and the value. */
  function Labelled(line: string, caption: string): (r: Option<string>)
    ensures r.Some? ==> caption + r.value == line
  {
    if |line| >= |caption| && line[..|caption|] == caption then Some(line[|caption|..]) else None
  }

  lemma LabelledRoundTrip(caption: string, value: string)
    ensures Labelled(caption + value, caption) == Some(value)
  {
    assert (caption + value)[..|caption|] == caption;
    assert (caption + value)[|caption|..] == value;
  }
}
