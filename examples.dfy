/** The option strings the header of stropt documents, and the behaviours
    it promises for them, as instances of the general scan lemmas. */
module Examples {
  import opened Bytes
  import opened Tables
  import opened ScanSpec
  import opened Serialize
  import opened Views
  import opened Tokens
  import opened RoundTrip

  /** Bytes whose `default_charmap` class is in cs have that class for
      `stropt` too. */
  lemma {:induction false} DefaultIn(t: seq<byte>, cs: set<Class>)
    requires forall b :: b in t ==> DefaultClass(b) in cs
    ensures InClasses(DEFAULT, t, cs)
    decreases |t|
  {
    if t != [] {
      assert forall b :: b in t[..|t| - 1] ==> b in t;
      DefaultIn(t[..|t| - 1], cs);
      DefaultCharmap(t[|t| - 1]);
    }
  }

  const EQUALS: byte := 61
  const COMMA: byte := 44
  const QUOTE: byte := 39
  const BACKSLASH: byte := 92

  // ---------------------------------------------------------------------
  // "font=12,typeface=bodoni,italic"

  const FONT: CText := [102, 111, 110, 116]                       // font
  const TWELVE: CText := [49, 50]                                  // 12
  const TYPEFACE: CText := [116, 121, 112, 101, 102, 97, 99, 101]  // typeface
  const BODONI: CText := [98, 111, 100, 111, 110, 105]             // bodoni
  const ITALIC: CText := [105, 116, 97, 108, 105, 99]              // italic

  const FONT_STRING: seq<byte> :=
    FONT + [EQUALS] + TWELVE + [COMMA] + TYPEFACE + [EQUALS] + BODONI + [COMMA] + ITALIC

  /** font with "12", typeface with "bodoni", italic with no argument. */
  const FONT_READ: seq<Opt> := [(FONT, Some(TWELVE)), (TYPEFACE, Some(BODONI)), (ITALIC, None)]

  lemma FontString()
    ensures OptionString(FONT_READ, COMMA, EQUALS) == FONT_STRING
  {
    var ps := Printed(FONT_READ, EQUALS);
    var a, b, c := FONT + [EQUALS] + TWELVE, TYPEFACE + [EQUALS] + BODONI, ITALIC;
    assert ps == [a, b, c];
    assert ps[..2] == [a, b] && [a, b][..1] == [a];
    assert Join(ps[..2], COMMA) == a + [COMMA] + b;
    assert Join(ps, COMMA) == a + [COMMA] + b + [COMMA] + c;
  }

  // Each word of the example is plain text for `stropt`.

  lemma FontWord() ensures Word(DEFAULT, FONT) { DefaultIn([102, 111, 110, 116], {Ordinary}); }
  lemma TwelveWord() ensures Word(DEFAULT, TWELVE) { DefaultIn([49, 50], {Ordinary}); }
  lemma TypefaceWord() ensures Word(DEFAULT, TYPEFACE) { DefaultIn([116, 121, 112, 101, 102, 97, 99, 101], {Ordinary}); }
  lemma BodoniWord() ensures Word(DEFAULT, BODONI) { DefaultIn([98, 111, 100, 111, 110, 105], {Ordinary}); }
  lemma ItalicWord() ensures Word(DEFAULT, ITALIC) { DefaultIn([105, 116, 97, 108, 105, 99], {Ordinary}); }

  lemma FontPlain()
    ensures AllPlain(DEFAULT, FONT_READ)
  {
    FontWord(); TwelveWord(); TypefaceWord(); BodoniWord(); ItalicWord();
    assert Plain(DEFAULT, FONT_READ[0]) && Plain(DEFAULT, FONT_READ[1]) && Plain(DEFAULT, FONT_READ[2]);
  }

  /** `stropt` reads the three options of the example, returns 4, and
      `stropt2str` with ',' and '=' gives the string back. */
  lemma FontExample()
    ensures NUL in FONT_STRING + [NUL]
    ensures Count(DEFAULT, FONT_STRING + [NUL]) == 4
    ensures Options(DEFAULT, FONT_STRING + [NUL]) == FONT_READ
    ensures Rebuilt(ScanTags(DEFAULT, FONT_STRING + [NUL]), ScanArgs(DEFAULT, FONT_STRING + [NUL]), COMMA, EQUALS)
      == FONT_STRING
  {
    FontString();
    FontPlain();
    DefaultCharmap(EQUALS);
    DefaultCharmap(COMMA);
    OptionListRoundTrip(DEFAULT, FONT_READ, COMMA, EQUALS);
  }

  // ---------------------------------------------------------------------
  // "values='1,2,3,4',equal=\="

  const VALUES: CText := [118, 97, 108, 117, 101, 115]    // values
  const DIGITS: CText := [49, 44, 50, 44, 51, 44, 52]     // 1,2,3,4
  const EQUAL: CText := [101, 113, 117, 97, 108]          // equal
  const EQUALS_TEXT: CText := [61]                        // =

  const VALUES_FIELD: seq<byte> := VALUES + [EQUALS] + ([QUOTE] + DIGITS + [QUOTE]) + [COMMA]
  const EQUAL_FIELD: seq<byte> := EQUAL + [EQUALS] + [BACKSLASH, EQUALS]
  const QUOTING_STRING: seq<byte> := VALUES_FIELD + EQUAL_FIELD

  /** values with "1,2,3,4", equal with "=". */
  const QUOTING_READ: seq<Opt> := [(VALUES, Some(DIGITS)), (EQUAL, Some(EQUALS_TEXT))]

  lemma ValuesWord() ensures Word(DEFAULT, VALUES) { DefaultIn([118, 97, 108, 117, 101, 115], {Ordinary}); }
  lemma EqualWord() ensures Word(DEFAULT, EQUAL) { DefaultIn([101, 113, 117, 97, 108], {Ordinary}); }
  lemma DigitsQuoted() ensures InClasses(DEFAULT, DIGITS, SINGLE_QUOTED)
  {
    DefaultIn([49, 44, 50, 44, 51, 44, 52], SINGLE_QUOTED);
  }

  /** The general form of the example: `t='x'`, a separator, then `u=`
      with a backslash-escaped byte b, scanned without
      STROPTX_KEEP_QUOTATION_MARKS_IN_ARGS. */
  /** The string `t=[q]x[q]d` `u=[esc]b` read up to its terminator. */
  lemma QuotedThenEscapedInput(t: CText, e: byte, q: byte, x: CText, d: byte, u: CText, esc: byte, b: byte)
    requires e != NUL && q != NUL && d != NUL && esc != NUL && b != NUL
    ensures var p, r := t + [e] + ([q] + x + [q]) + [d], u + [e] + [esc, b];
      NulFree(p + r) && Consumed(p + r + [NUL]) == (p + r) + [NUL]
  {
    var p, r := t + [e] + ([q] + x + [q]) + [d], u + [e] + [esc, b];
    assert NulFree(p + r);
    ConsumedAll(p + r);
  }

  lemma QuotedThenEscapedScan(cfg: Config, t: CText, e: byte, q: byte, x: CText, d: byte, u: CText, esc: byte, b: byte)
    requires |t| > 0 && Word(cfg, t) && |u| > 0 && Word(cfg, u) && Classify(cfg, e) == ArgMarker
    requires Classify(cfg, q) == SingleQuote && InClasses(cfg, x, SINGLE_QUOTED) && Classify(cfg, d) == Separator
    requires Classify(cfg, esc) == Escape && Classify(cfg, b) != Terminator && Classify(cfg, b) != Newline
    requires !FlagSet(cfg.flags, KEEP_QUOTATION_MARKS_IN_ARGS)
    ensures var p, r := t + [e] + ([q] + x + [q]) + [d], u + [e] + [esc, b];
      NUL in p + r + [NUL] && NUL != b &&
      Scan(cfg, p + r + [NUL]) == Sentinel(OptionSlot(OptionSlot(INIT, t, x), u, [b]))
  {
    var p, r := t + [e] + ([q] + x + [q]) + [d], u + [e] + [esc, b];
    ClassifyTerminator(cfg, e);
    ClassifyTerminator(cfg, q);
    ClassifyTerminator(cfg, d);
    ClassifyTerminator(cfg, esc);
    ClassifyTerminator(cfg, b);
    QuotedThenEscapedInput(t, e, q, x, d, u, esc, b);
    QuotedOption(cfg, INIT, t, e, q, x, d);
    EscapedLastOption(cfg, OptionSlot(INIT, t, x), u, e, esc, b);
    RunAppend(cfg, INIT, p, r + [NUL]);
    Reassociate(p, r, [NUL]);
    assert NUL in p + r + [NUL] by { assert (p + r + [NUL])[|p + r|] == NUL; }
  }

  /** Two options `t=x` and `u=v` in a row. */
  lemma TwoOptionsRecorded(t: CText, x: CText, u: CText, v: CText)
    ensures Records(OptionSlot(OptionSlot(INIT, t, x), u, v), [(t, Some(x)), (u, Some(v))])
  {
    var f1, f2 := (t, Some(x)), (u, Some(v));
    var fs: seq<Opt> := [f1, f2];
    var none: seq<Opt> := [];
    assert Records(INIT, none);
    assert [f1][..0] == none;
    SlotRecords(INIT, [f1]);
    assert fs[..1] == [f1];
    SlotRecords(OptionSlot(INIT, t, x), fs);
  }

  lemma TwoOptionsPrinted(t: CText, x: CText, u: CText, v: CText, d: byte, e: byte)
    requires d != NUL && e != NUL
    ensures OptionString([(t, Some(x)), (u, Some(v))], d, e) == t + [e] + x + [d] + u + [e] + v
  {
    var fs: seq<Opt> := [(t, Some(x)), (u, Some(v))];
    var ps := Printed(fs, e);
    assert ps == [t + [e] + x, u + [e] + v];
    assert ps[..1] == [t + [e] + x];
    assert Join(ps[..1], d) == t + [e] + x;
    assert Join(ps, d) == (t + [e] + x) + [d] + (u + [e] + v);
  }

  /** What the caller reads after that scan, and what `stropt2str` prints
      from it with the same separator and `=`. */
  lemma QuotedThenEscaped(cfg: Config, t: CText, e: byte, q: byte, x: CText, d: byte, u: CText, esc: byte, b: byte)
    requires |t| > 0 && Word(cfg, t) && |u| > 0 && Word(cfg, u) && Classify(cfg, e) == ArgMarker
    requires Classify(cfg, q) == SingleQuote && InClasses(cfg, x, SINGLE_QUOTED) && Classify(cfg, d) == Separator
    requires Classify(cfg, esc) == Escape && Classify(cfg, b) != Terminator && Classify(cfg, b) != Newline
    requires !FlagSet(cfg.flags, KEEP_QUOTATION_MARKS_IN_ARGS)
    ensures var s := t + [e] + ([q] + x + [q]) + [d] + (u + [e] + [esc, b]) + [NUL];
      && NUL in s && b != NUL
      && Count(cfg, s) == 3
      && Options(cfg, s) == [(t, Some(x)), (u, Some([b]))]
      && Rebuilt(ScanTags(cfg, s), ScanArgs(cfg, s), d, e) ==
           t + [e] + x + [d] + u + [e] + [b] + (if d == NEWLINE then [NEWLINE] else [])
  {
    var s := t + [e] + ([q] + x + [q]) + [d] + (u + [e] + [esc, b]) + [NUL];
    QuotedThenEscapedScan(cfg, t, e, q, x, d, u, esc, b);
    ClassifyTerminator(cfg, e);
    ClassifyTerminator(cfg, d);
    var bt: CText := [b];
    var m0 := OptionSlot(OptionSlot(INIT, t, x), u, bt);
    TwoOptionsRecorded(t, x, u, bt);
    ReadBack(cfg, s, [(t, Some(x)), (u, Some(bt))], m0);
    RebuiltBack(cfg, s, [(t, Some(x)), (u, Some(bt))], m0, d, e);
    TwoOptionsPrinted(t, x, u, bt, d, e);
  }

  /** The same for `stropt`, with the classes given by `default_charmap`. */
  lemma DefaultQuotedThenEscaped(t: CText, e: byte, q: byte, x: CText, d: byte, u: CText, esc: byte, b: byte)
    requires |t| > 0 && Word(DEFAULT, t) && |u| > 0 && Word(DEFAULT, u) && DefaultClass(e) == ArgMarker
    requires DefaultClass(q) == SingleQuote && InClasses(DEFAULT, x, SINGLE_QUOTED) && DefaultClass(d) == Separator
    requires DefaultClass(esc) == Escape && DefaultClass(b) != Terminator && DefaultClass(b) != Newline
    ensures var s := t + [e] + ([q] + x + [q]) + [d] + (u + [e] + [esc, b]) + [NUL];
      && NUL in s && b != NUL
      && Count(DEFAULT, s) == 3
      && Options(DEFAULT, s) == [(t, Some(x)), (u, Some([b]))]
      && Rebuilt(ScanTags(DEFAULT, s), ScanArgs(DEFAULT, s), d, e) ==
           t + [e] + x + [d] + u + [e] + [b] + (if d == NEWLINE then [NEWLINE] else [])
  {
    DefaultCharmap(e);
    DefaultCharmap(q);
    DefaultCharmap(d);
    DefaultCharmap(esc);
    DefaultCharmap(b);
    QuotedThenEscaped(DEFAULT, t, e, q, x, d, u, esc, b);
  }

  /** `stropt` reads values with the argument 1,2,3,4 and equal with the
      argument =, and returns 3; `stropt2str` with ',' and '=' prints them
      without the quotes and the backslash. */
  lemma QuotingExample()
    ensures NUL in QUOTING_STRING + [NUL]
    ensures Count(DEFAULT, QUOTING_STRING + [NUL]) == 3
    ensures Options(DEFAULT, QUOTING_STRING + [NUL]) == QUOTING_READ
    ensures Rebuilt(ScanTags(DEFAULT, QUOTING_STRING + [NUL]), ScanArgs(DEFAULT, QUOTING_STRING + [NUL]), COMMA, EQUALS)
      == VALUES + [EQUALS] + DIGITS + [COMMA] + EQUAL + [EQUALS] + [EQUALS]
  {
    ValuesWord();
    EqualWord();
    DigitsQuoted();
    DefaultQuotedThenEscaped(VALUES, EQUALS, QUOTE, DIGITS, COMMA, EQUAL, BACKSLASH, EQUALS);
  }
}
