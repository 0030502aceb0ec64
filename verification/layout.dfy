/** The captions of the monitor bot's report, one per value line. */
module Captions {
  const VanguardCaption: string := "Vanguard Portfolio: "
  const ChangeCaption: string := "Prev. Close Change: "
  const DateCaption: string := "Last Close: "
  const AjBellCaption: string := "AJ Bell Dodl Portfolio: "
  const CombinedCaption: string := "Total Combined Portfolio Value: "
}

/** The layout of the monitor bot's report: five values, each in bold on its
    own line after its caption, and how a reader gets them back. */
module Layout {
  import opened Wrappers
  import opened Lines
  import opened Captions

  /** The five values of the report, as text. */
  datatype Texts = Texts(total: string, change: string, date: string, ajBell: string, combined: string)

  /** The report as `main` writes it around its values: each value in bold
      (`**value**`) after its caption on a line of its own, a newline before
      the first line, and blank lines before the AJ Bell and the combined lines. */
  function Compose(t: Texts): (m: string)
    ensures |m| >= 2 && m[0] == '\n' && m[|m| - 1] == '\n'
  {
    "\n" + Bold(VanguardCaption, t.total)
    + "\n" + Bold(ChangeCaption, t.change)
    + "\n" + Bold(DateCaption, t.date)
    + "\n" + "\n" + Bold(AjBellCaption, t.ajBell)
    + "\n" + "\n" + Bold(CombinedCaption, t.combined)
    + "\n"
  }

  /** Five lines free of newlines, laid out as the report lays them out,
      split back into the nine lines of the report. */
  lemma {:induction false} NineLines(b1: string, b2: string, b3: string, b5: string, b7: string)
    requires '\n' !in b1 && '\n' !in b2 && '\n' !in b3 && '\n' !in b5 && '\n' !in b7
    ensures Split("\n" + b1 + "\n" + b2 + "\n" + b3 + "\n" + "\n" + b5 + "\n" + "\n" + b7 + "\n", '\n')
         == ["", b1, b2, b3, "", b5, "", b7, ""]
  {
    SplitAfterSeparator("", '\n', b1);
    assert "" + "\n" + b1 == "\n" + b1;
    var s1 := "\n" + b1;
    assert Split(s1, '\n') == ["", b1];
    SplitAfterSeparator(s1, '\n', b2);
    var s2 := s1 + "\n" + b2;
    assert Split(s2, '\n') == ["", b1, b2];
    SplitAfterSeparator(s2, '\n', b3);
    var s3 := s2 + "\n" + b3;
    assert Split(s3, '\n') == ["", b1, b2, b3];
    SplitAfterSeparator(s3, '\n', "");
    var s4 := s3 + "\n";
    assert s3 + "\n" + "" == s4;
    assert Split(s4, '\n') == ["", b1, b2, b3, ""];
    SplitAfterSeparator(s4, '\n', b5);
    var s5 := s4 + "\n" + b5;
    assert Split(s5, '\n') == ["", b1, b2, b3, "", b5];
    SplitAfterSeparator(s5, '\n', "");
    var s6 := s5 + "\n";
    assert s5 + "\n" + "" == s6;
    assert Split(s6, '\n') == ["", b1, b2, b3, "", b5, ""];
    SplitAfterSeparator(s6, '\n', b7);
    var s7 := s6 + "\n" + b7;
    assert Split(s7, '\n') == ["", b1, b2, b3, "", b5, "", b7];
    SplitAfterSeparator(s7, '\n', "");
    assert s7 + "\n" + "" == s7 + "\n";
  }

  /** The report splits into its nine lines: a blank one, the three Vanguard
      lines, a blank one, the AJ Bell line, a blank one, the combined line,
      and the empty rest after the final newline. */
  lemma ComposeLines(t: Texts)
    requires '\n' !in t.total && '\n' !in t.change && '\n' !in t.date
    requires '\n' !in t.ajBell && '\n' !in t.combined
    ensures Split(Compose(t), '\n')
         == [ "", Bold(VanguardCaption, t.total), Bold(ChangeCaption, t.change), Bold(DateCaption, t.date),
              "", Bold(AjBellCaption, t.ajBell), "", Bold(CombinedCaption, t.combined), "" ]
  {
    assert '\n' !in VanguardCaption && '\n' !in ChangeCaption && '\n' !in DateCaption;
    assert '\n' !in AjBellCaption && '\n' !in CombinedCaption;
    BoldSingleLine(VanguardCaption, t.total);
    BoldSingleLine(ChangeCaption, t.change);
    BoldSingleLine(DateCaption, t.date);
    BoldSingleLine(AjBellCaption, t.ajBell);
    BoldSingleLine(CombinedCaption, t.combined);
    NineLines(Bold(VanguardCaption, t.total), Bold(ChangeCaption, t.change), Bold(DateCaption, t.date),
              Bold(AjBellCaption, t.ajBell), Bold(CombinedCaption, t.combined));
  }

  /** The five value texts of a report, or `None` when the text has another layout. */
  function ReadTexts(m: string): (r: Option<Texts>)
    ensures r.Some? ==> |Split(m, '\n')| == 9
  {
    var lines := Split(m, '\n');
    if |lines| != 9 || lines[0] != "" || lines[4] != "" || lines[6] != "" || lines[8] != "" then None
    else
      var total :- Unbold(lines[1], VanguardCaption);
      var change :- Unbold(lines[2], ChangeCaption);
      var date :- Unbold(lines[3], DateCaption);
      var ajBell :- Unbold(lines[5], AjBellCaption);
      var combined :- Unbold(lines[7], CombinedCaption);
      Some(Texts(total, change, date, ajBell, combined))
  }

  /** Values free of newlines are read back from the report as they were put in. */
  lemma ReadTextsRoundTrip(t: Texts)
    requires SingleLine(t.total) && SingleLine(t.change) && SingleLine(t.date)
    requires SingleLine(t.ajBell) && SingleLine(t.combined)
    ensures ReadTexts(Compose(t)) == Some(t)
  {
    SingleLineNoBreak(t.total);
    SingleLineNoBreak(t.change);
    SingleLineNoBreak(t.date);
    SingleLineNoBreak(t.ajBell);
    SingleLineNoBreak(t.combined);
    ComposeLines(t);
    UnboldBold(VanguardCaption, t.total);
    UnboldBold(ChangeCaption, t.change);
    UnboldBold(DateCaption, t.date);
    UnboldBold(AjBellCaption, t.ajBell);
    UnboldBold(CombinedCaption, t.combined);
  }

  /** A bold line holds no newline when neither its caption nor its value does. */
  lemma BoldSingleLine(caption: string, value: string)
    requires '\n' !in caption && '\n' !in value
    ensures '\n' !in Bold(caption, value)
  {
  }
}
