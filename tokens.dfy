/** How the scan treats the pieces of an option string: words, quoted and
    escaped text, separator runs, comments, the `=` marker and the end of
    the input, under every configuration `stroptx` can build. */
module Tokens {
  import opened Bytes
  import opened Tables
  import opened ScanSpec

  // ---------------------------------------------------------------------
  // Cells that copy or ignore a byte, and the runs they make.

  /** In state s, class c stays in s and only copies its byte. */
  predicate Copies(cfg: Config, s: State, c: Class) {
    NextState(s, c) == s && ActionOf(cfg, s, c) == CHCOPY
  }

  /** In state s, class c stays in s and does nothing at all. */
  predicate Skips(cfg: Config, s: State, c: Class) {
    NextState(s, c) == s && ActionOf(cfg, s, c) == 0
  }

  /** Every byte of w is of one of the classes cs. */
  predicate InClasses(cfg: Config, w: seq<byte>, cs: set<Class>)
    decreases |w|
  {
    w == [] || (InClasses(cfg, w[..|w| - 1], cs) && Classify(cfg, w[|w| - 1]) in cs)
  }

  /** One byte of a copying class is appended to the text. */
  lemma CopyStep(cfg: Config, m: Machine, b: byte)
    requires Copies(cfg, m.state, Classify(cfg, b))
    ensures Step(cfg, m, b) == m.(out := m.out + [b])
  {
  }

  /** A run of bytes whose classes all copy in state s is appended to the
      text unchanged, and nothing else changes. */
  lemma {:induction false} CopyRun(cfg: Config, m: Machine, w: seq<byte>, cs: set<Class>)
    requires forall c :: c in cs ==> Copies(cfg, m.state, c)
    requires InClasses(cfg, w, cs)
    ensures Run(cfg, m, w) == m.(out := m.out + w)
    decreases |w|
  {
    if w != [] {
      var w', b := w[..|w| - 1], w[|w| - 1];
      var m1 := m.(out := m.out + w');
      CopyRun(cfg, m, w', cs);
      assert Classify(cfg, b) in cs;
      CopyStep(cfg, m1, b);
      assert w == w' + [b];
      RunThen(cfg, m, w', b, m1, m1.(out := m1.out + [b]));
      assert m1.out + [b] == m.out + w;
    }
  }

  /** A run of bytes whose classes all do nothing in state s leaves the
      machine as it is. */
  lemma {:induction false} SkipRun(cfg: Config, m: Machine, w: seq<byte>, cs: set<Class>)
    requires forall c :: c in cs ==> Skips(cfg, m.state, c)
    requires InClasses(cfg, w, cs)
    ensures Run(cfg, m, w) == m
    decreases |w|
  {
    if w != [] {
      SkipRun(cfg, m, w[..|w| - 1], cs);
    }
  }

  // ---------------------------------------------------------------------
  // The cells, under any features, separators and flags.

  /** Ordinary bytes are copied into tags and arguments, and so is an `=`
      inside an argument. */
  lemma TextCopies(cfg: Config)
    ensures Copies(cfg, Char, Ordinary) && Copies(cfg, Arg, Ordinary)
    ensures Copies(cfg, Arg, ArgMarker)
  {
  }

  /** Inside single quotes every byte but the closing quote and the NUL is
      copied, separators, `#`, `=`, newlines, the other quote and backslash
      included. */
  lemma SingleQuotedCopies(cfg: Config, c: Class)
    ensures c != SingleQuote && c != Terminator ==> Copies(cfg, Sq, c) && Copies(cfg, ASq, c)
  {
    ConfiguredStaged(cfg.flags, Sq, c);
    ConfiguredStaged(cfg.flags, ASq, c);
    match c
    case Ordinary => case Separator => case Terminator => case CommentStart => case Newline =>
    case ArgMarker => case SingleQuote => case DoubleQuote => case Escape =>
  }

  /** The same inside double quotes. */
  lemma DoubleQuotedCopies(cfg: Config, c: Class)
    ensures c != DoubleQuote && c != Terminator ==> Copies(cfg, Dq, c) && Copies(cfg, ADq, c)
  {
    ConfiguredStaged(cfg.flags, Dq, c);
    ConfiguredStaged(cfg.flags, ADq, c);
    match c
    case Ordinary => case Separator => case Terminator => case CommentStart => case Newline =>
    case ArgMarker => case SingleQuote => case DoubleQuote => case Escape =>
  }

  /** Opening and closing quotes in tags: the mark itself is copied only
      under STROPTX_KEEP_QUOTATION_MARKS_IN_TAGS; a quote right after a
      separator starts a new tag. */
  lemma TagQuoteMarks(cfg: Config)
    ensures var keep := if FlagSet(cfg.flags, KEEP_QUOTATION_MARKS_IN_TAGS) then CHCOPY else 0;
      && NextState(Char, SingleQuote) == Sq && ActionOf(cfg, Char, SingleQuote) == keep
      && NextState(Char, DoubleQuote) == Dq && ActionOf(cfg, Char, DoubleQuote) == keep
      && NextState(Sep, SingleQuote) == Sq && ActionOf(cfg, Sep, SingleQuote) == NEWTAG | keep
      && NextState(Sep, DoubleQuote) == Dq && ActionOf(cfg, Sep, DoubleQuote) == NEWTAG | keep
      && NextState(Sq, SingleQuote) == Char && ActionOf(cfg, Sq, SingleQuote) == keep
      && NextState(Dq, DoubleQuote) == Char && ActionOf(cfg, Dq, DoubleQuote) == keep
  {
    ConfiguredStaged(cfg.flags, Char, SingleQuote);
    ConfiguredStaged(cfg.flags, Char, DoubleQuote);
    ConfiguredStaged(cfg.flags, Sep, SingleQuote);
    ConfiguredStaged(cfg.flags, Sep, DoubleQuote);
    ConfiguredStaged(cfg.flags, Sq, SingleQuote);
    ConfiguredStaged(cfg.flags, Dq, DoubleQuote);
  }

  /** The same in arguments, under STROPTX_KEEP_QUOTATION_MARKS_IN_ARGS. */
  lemma ArgQuoteMarks(cfg: Config)
    ensures var keep := if FlagSet(cfg.flags, KEEP_QUOTATION_MARKS_IN_ARGS) then CHCOPY else 0;
      && NextState(Arg, SingleQuote) == ASq && ActionOf(cfg, Arg, SingleQuote) == keep
      && NextState(Arg, DoubleQuote) == ADq && ActionOf(cfg, Arg, DoubleQuote) == keep
      && NextState(ASq, SingleQuote) == Arg && ActionOf(cfg, ASq, SingleQuote) == keep
      && NextState(ADq, DoubleQuote) == Arg && ActionOf(cfg, ADq, DoubleQuote) == keep
  {
    ConfiguredStaged(cfg.flags, Arg, SingleQuote);
    ConfiguredStaged(cfg.flags, Arg, DoubleQuote);
    ConfiguredStaged(cfg.flags, ASq, SingleQuote);
    ConfiguredStaged(cfg.flags, ADq, DoubleQuote);
  }

  /** A backslash is copied only under the keep flag of its kind; after a
      separator it starts a new tag. */
  lemma EscapeMarks(cfg: Config)
    ensures var tags := if FlagSet(cfg.flags, KEEP_QUOTATION_MARKS_IN_TAGS) then CHCOPY else 0;
      && NextState(Char, Escape) == Esc && ActionOf(cfg, Char, Escape) == tags
      && NextState(Sep, Escape) == Esc && ActionOf(cfg, Sep, Escape) == NEWTAG | tags
    ensures NextState(Arg, Escape) == AEsc &&
      ActionOf(cfg, Arg, Escape) == if FlagSet(cfg.flags, KEEP_QUOTATION_MARKS_IN_ARGS) then CHCOPY else 0
  {
    ConfiguredStaged(cfg.flags, Char, Escape);
    ConfiguredStaged(cfg.flags, Sep, Escape);
    ConfiguredStaged(cfg.flags, Arg, Escape);
  }

  /** The byte after a backslash is copied whatever its class, except a
      newline, which is dropped, and the NUL, which ends the input. */
  lemma Escaped(cfg: Config, c: Class)
    ensures c != Terminator ==>
      && NextState(Esc, c) == Char && NextState(AEsc, c) == Arg
      && ActionOf(cfg, Esc, c) == (if c == Newline then 0 else CHCOPY)
      && ActionOf(cfg, AEsc, c) == (if c == Newline then 0 else CHCOPY)
  {
    ConfiguredStaged(cfg.flags, Esc, c);
    ConfiguredStaged(cfg.flags, AEsc, c);
    match c
    case Ordinary => case Separator => case Terminator => case CommentStart => case Newline =>
    case ArgMarker => case SingleQuote => case DoubleQuote => case Escape =>
  }

  /** A comment ignores everything up to the newline, which leads back to
      SEP (emitting the "\n" tag under STROPTX_NEWLINE_TAGS); a `#` ends
      the tag being read. */
  lemma Comments(cfg: Config, c: Class)
    ensures c != Newline && c != Terminator ==> Skips(cfg, Comm, c)
    ensures NextState(Comm, Newline) == Sep &&
      ActionOf(cfg, Comm, Newline) == if FlagSet(cfg.flags, NEWLINE_TAGS) then ENDLINE else 0
    ensures NextState(Char, CommentStart) == Comm && ActionOf(cfg, Char, CommentStart) == ENDTAG
    ensures NextState(Sep, CommentStart) == Comm && ActionOf(cfg, Sep, CommentStart) == 0
  {
  }

  /** Separators after a separator do nothing by default, so a run of them
      counts as one; under STROPTX_ALLOW_MULTIPLE_SEP each one, and the
      NUL after one, closes a tag. */
  lemma Separators(cfg: Config)
    ensures !FlagSet(cfg.flags, ALLOW_MULTIPLE_SEP) ==>
      Skips(cfg, Sep, Separator) && ActionOf(cfg, Sep, Terminator) == EOS
    ensures FlagSet(cfg.flags, ALLOW_MULTIPLE_SEP) ==>
      && NextState(Sep, Separator) == Sep
      && ActionOf(cfg, Sep, Separator) == NEWTAG | ENDTAG
      && ActionOf(cfg, Sep, Terminator) == EOS | ENDTAG
  {
  }

  /** The first `=` of a tag ends the tag and opens its argument, a later
      one is argument text, and one right after a separator is dropped. */
  lemma Markers(cfg: Config)
    ensures NextState(Char, ArgMarker) == Arg && ActionOf(cfg, Char, ArgMarker) == NEWARG
    ensures Copies(cfg, Arg, ArgMarker)
    ensures NextState(Sep, ArgMarker) == Char && ActionOf(cfg, Sep, ArgMarker) == 0
  {
  }

  /** An unquoted, unescaped newline ends the tag or argument being read;
      under STROPTX_NEWLINE_TAGS it then also emits the "\n" tag. */
  lemma Newlines(cfg: Config)
    ensures var line := if FlagSet(cfg.flags, NEWLINE_TAGS) then ENDLINE else 0;
      && NextState(Char, Newline) == Sep && ActionOf(cfg, Char, Newline) == ENDTAG | line
      && NextState(Arg, Newline) == Sep && ActionOf(cfg, Arg, Newline) == ENDARG | line
      && NextState(Sep, Newline) == Sep && ActionOf(cfg, Sep, Newline) == line
  {
  }

  // ---------------------------------------------------------------------
  // Steps that open and close tokens, as machines.

  /** Between tokens: in SEP, with `thistag` at the write cursor. */
  predicate Boundary(m: Machine) {
    m.state == Sep && m.start == |m.out|
  }

  /** Plain text: every byte is ORDINARY. */
  predicate Word(cfg: Config, t: seq<byte>) {
    InClasses(cfg, t, {Ordinary})
  }

  /** The classes copied inside single quotes. */
  const SINGLE_QUOTED: set<Class> := {Ordinary, Separator, CommentStart, Newline, ArgMarker, DoubleQuote, Escape}

  /** A text byte after a separator starts a tag at the write cursor. */
  lemma OpenTag(cfg: Config, m: Machine, b: byte)
    requires m.state == Sep && Classify(cfg, b) == Ordinary
    ensures Step(cfg, m, b) == m.(state := Char, start := |m.out|, out := m.out + [b])
  {
    ConfiguredStaged(cfg.flags, Sep, Ordinary);
  }

  /** A separator after a tag NUL-terminates it and fills the slot with the
      tag and no argument. */
  lemma CloseTag(cfg: Config, m: Machine, b: byte)
    requires m.state == Char && Classify(cfg, b) == Separator
    ensures Step(cfg, m, b) ==
      m.(state := Sep, out := m.out + [NUL], tw := m.tw[m.slot := At(m.start)], aw := m.aw[m.slot := Null],
         slot := m.slot + 1, start := |m.out| + 1, count := m.count + 1)
  {
    ConfiguredStaged(cfg.flags, Char, Separator);
  }

  /** The first `=` NUL-terminates the tag, records it in the slot without
      moving on, and starts the argument right after. */
  lemma OpenArg(cfg: Config, m: Machine, b: byte)
    requires m.state == Char && Classify(cfg, b) == ArgMarker
    ensures Step(cfg, m, b) ==
      m.(state := Arg, out := m.out + [NUL], tw := m.tw[m.slot := At(m.start)], start := |m.out| + 1)
  {
    ConfiguredStaged(cfg.flags, Char, ArgMarker);
  }

  /** A separator after an argument NUL-terminates it and completes the
      slot. */
  lemma CloseArg(cfg: Config, m: Machine, b: byte)
    requires m.state == Arg && Classify(cfg, b) == Separator
    ensures Step(cfg, m, b) ==
      m.(state := Sep, out := m.out + [NUL], aw := m.aw[m.slot := At(m.start)],
         slot := m.slot + 1, start := |m.out| + 1, count := m.count + 1)
  {
    ConfiguredStaged(cfg.flags, Arg, Separator);
  }

  /** The NUL after a tag closes it and writes the (NULL, NULL) sentinel in
      the next slot. */
  lemma EndInTag(cfg: Config, m: Machine)
    requires m.state == Char
    ensures Step(cfg, m, NUL) ==
      m.(state := End, out := m.out + [NUL],
         tw := m.tw[m.slot := At(m.start)][m.slot + 1 := Null], aw := m.aw[m.slot := Null][m.slot + 1 := Null],
         slot := m.slot + 1, start := |m.out| + 1, count := m.count + 2)
  {
    ClassifyTerminator(cfg, NUL);
    ConfiguredStaged(cfg.flags, Char, Terminator);
  }

  /** The NUL after an argument closes it and writes the sentinel. */
  lemma EndInArg(cfg: Config, m: Machine)
    requires m.state == Arg
    ensures Step(cfg, m, NUL) ==
      m.(state := End, out := m.out + [NUL],
         tw := m.tw[m.slot + 1 := Null], aw := m.aw[m.slot := At(m.start)][m.slot + 1 := Null],
         slot := m.slot + 1, start := |m.out| + 1, count := m.count + 2)
  {
    ClassifyTerminator(cfg, NUL);
    ConfiguredStaged(cfg.flags, Arg, Terminator);
  }

  /** Without STROPTX_ALLOW_MULTIPLE_SEP the NUL between tokens only writes
      the sentinel. */
  lemma EndAtBoundary(cfg: Config, m: Machine)
    requires m.state == Sep && !FlagSet(cfg.flags, ALLOW_MULTIPLE_SEP)
    ensures Step(cfg, m, NUL) ==
      m.(state := End, tw := m.tw[m.slot := Null], aw := m.aw[m.slot := Null], count := m.count + 1)
  {
    ClassifyTerminator(cfg, NUL);
    ConfiguredStaged(cfg.flags, Sep, Terminator);
  }

  /** Under STROPTX_ALLOW_MULTIPLE_SEP the NUL between tokens first closes
      an empty tag at the write cursor, then writes the sentinel: a trailing
      separator, or the empty input, yields an empty field. */
  lemma EmptyTagAtEnd(cfg: Config, m: Machine)
    requires Boundary(m) && FlagSet(cfg.flags, ALLOW_MULTIPLE_SEP)
    ensures Step(cfg, m, NUL) ==
      m.(state := End, out := m.out + [NUL],
         tw := m.tw[m.slot := At(|m.out|)][m.slot + 1 := Null], aw := m.aw[m.slot := Null][m.slot + 1 := Null],
         slot := m.slot + 1, start := |m.out| + 1, count := m.count + 2)
    ensures Step(cfg, m, NUL) == Sentinel(TagSlot(m, []))
  {
    ClassifyTerminator(cfg, NUL);
    ConfiguredStaged(cfg.flags, Sep, Terminator);
    assert m.out + [] + [NUL] == m.out + [NUL];
  }

  /** Under STROPTX_ALLOW_MULTIPLE_SEP a separator between tokens closes an
      empty tag: `thistag` is the write cursor, where the NUL goes. */
  lemma EmptyTag(cfg: Config, m: Machine, b: byte)
    requires Boundary(m) && FlagSet(cfg.flags, ALLOW_MULTIPLE_SEP) && Classify(cfg, b) == Separator
    ensures Step(cfg, m, b) ==
      m.(out := m.out + [NUL], tw := m.tw[m.slot := At(|m.out|)], aw := m.aw[m.slot := Null],
         slot := m.slot + 1, start := |m.out| + 1, count := m.count + 1)
    ensures Boundary(Step(cfg, m, b))
  {
    ConfiguredStaged(cfg.flags, Sep, Separator);
  }

  /** Under STROPTX_NEWLINE_TAGS a newline after a tag closes the tag and
      then fills the next slot with ("\n", NULL). */
  lemma NewlineAfterTag(cfg: Config, m: Machine, b: byte)
    requires m.state == Char && FlagSet(cfg.flags, NEWLINE_TAGS) && Classify(cfg, b) == Newline
    ensures Step(cfg, m, b) ==
      m.(state := Sep, out := m.out + [NUL],
         tw := m.tw[m.slot := At(m.start)][m.slot + 1 := NewlineTag], aw := m.aw[m.slot := Null][m.slot + 1 := Null],
         slot := m.slot + 2, start := |m.out| + 1, count := m.count + 2)
  {
    Newlines(cfg);
    var a := ENDTAG | ENDLINE;
    StepFields(cfg, m, b, Newline, a);
    assert Counted(a) == 2;
  }

  /** A quoted piece of an argument adds the text between the quotes
      (the quotes themselves too under STROPTX_KEEP_QUOTATION_MARKS_IN_ARGS). */
  lemma QuotedArg(cfg: Config, m: Machine, q: byte, x: seq<byte>)
    requires m.state == Arg && Classify(cfg, q) == SingleQuote
    requires InClasses(cfg, x, SINGLE_QUOTED)
    ensures Run(cfg, m, [q] + x + [q]) ==
      m.(out := m.out + if FlagSet(cfg.flags, KEEP_QUOTATION_MARKS_IN_ARGS) then [q] + x + [q] else x)
  {
    var keep := if FlagSet(cfg.flags, KEEP_QUOTATION_MARKS_IN_ARGS) then [q] else [];
    var m1 := m.(state := ASq, out := m.out + keep);
    var m2 := m1.(out := m1.out + x);
    QuotedBody(cfg, m, q, x);
    assert Run(cfg, m, [q] + x + [q]) == m2.(state := Arg, out := m2.out + keep) by {
      ArgQuoteStep(cfg, m2, q);
      RunSnoc(cfg, m, [q] + x, q);
    }
    QuotedOut(m.out, keep, x, q, FlagSet(cfg.flags, KEEP_QUOTATION_MARKS_IN_ARGS));
  }

  /** The opening quote of QuotedArg. */
  lemma ArgQuoteRun(cfg: Config, m: Machine, q: byte)
    requires m.state == Arg && Classify(cfg, q) == SingleQuote
    ensures var keep := if FlagSet(cfg.flags, KEEP_QUOTATION_MARKS_IN_ARGS) then [q] else [];
      Run(cfg, m, [q]) == m.(state := ASq, out := m.out + keep)
  {
    ArgQuoteStep(cfg, m, q);
    RunSnoc(cfg, m, [], q);
  }

  /** The quoted bytes of QuotedArg. */
  lemma SingleQuotedRun(cfg: Config, m: Machine, x: seq<byte>)
    requires m.state == ASq && InClasses(cfg, x, SINGLE_QUOTED)
    ensures Run(cfg, m, x) == m.(out := m.out + x)
  {
    forall c | c in SINGLE_QUOTED
      ensures Copies(cfg, m.state, c)
    {
      SingleQuotedCopies(cfg, c);
    }
    CopyRun(cfg, m, x, SINGLE_QUOTED);
  }

  /** The opening quote and the quoted bytes of QuotedArg. */
  lemma QuotedBody(cfg: Config, m: Machine, q: byte, x: seq<byte>)
    requires m.state == Arg && Classify(cfg, q) == SingleQuote
    requires InClasses(cfg, x, SINGLE_QUOTED)
    ensures var keep := if FlagSet(cfg.flags, KEEP_QUOTATION_MARKS_IN_ARGS) then [q] else [];
      Run(cfg, m, [q] + x) == m.(state := ASq, out := m.out + keep + x)
  {
    var keep := if FlagSet(cfg.flags, KEEP_QUOTATION_MARKS_IN_ARGS) then [q] else [];
    var m1 := m.(state := ASq, out := m.out + keep);
    ArgQuoteRun(cfg, m, q);
    SingleQuotedRun(cfg, m1, x);
    RunAppend(cfg, m, [q], x);
  }

  lemma QuotedOut(out: seq<byte>, keep: seq<byte>, x: seq<byte>, q: byte, kept: bool)
    requires keep == if kept then [q] else []
    ensures out + keep + x + keep == out + if kept then [q] + x + [q] else x
  {
    if kept {
      assert out + keep + x + keep == out + ([q] + x + [q]);
    } else {
      assert out + keep + x + keep == out + x;
    }
  }

  /** A single quote opening or closing a quoted part of an argument: the
      state flips and the quote is written only under KEEP_QUOTATION_MARKS_IN_ARGS. */
  lemma ArgQuoteStep(cfg: Config, m: Machine, q: byte)
    requires (m.state == Arg || m.state == ASq) && Classify(cfg, q) == SingleQuote
    ensures Step(cfg, m, q) ==
      m.(state := if m.state == Arg then ASq else Arg,
         out := m.out + if FlagSet(cfg.flags, KEEP_QUOTATION_MARKS_IN_ARGS) then [q] else [])
  {
    ArgQuoteMarks(cfg);
  }

  /** An escaped byte of an argument is added as it is (after the backslash,
      under STROPTX_KEEP_QUOTATION_MARKS_IN_ARGS). */
  lemma EscapedArg(cfg: Config, m: Machine, e: byte, b: byte)
    requires m.state == Arg && Classify(cfg, e) == Escape
    requires Classify(cfg, b) != Terminator && Classify(cfg, b) != Newline
    ensures Run(cfg, m, [e, b]) ==
      m.(out := m.out + if FlagSet(cfg.flags, KEEP_QUOTATION_MARKS_IN_ARGS) then [e, b] else [b])
  {
    var keep := if FlagSet(cfg.flags, KEEP_QUOTATION_MARKS_IN_ARGS) then [e] else [];
    var m1 := m.(state := AEsc, out := m.out + keep);
    assert Step(cfg, m, e) == m1 by {
      EscapeMarks(cfg);
    }
    assert Step(cfg, m1, b) == m1.(state := Arg, out := m1.out + [b]) by {
      Escaped(cfg, Classify(cfg, b));
    }
    RunThen(cfg, m, [], e, m, m1);
    RunThen(cfg, m, [e], b, m1, m1.(state := Arg, out := m1.out + [b]));
    EscapedShape(m, keep, e, b, FlagSet(cfg.flags, KEEP_QUOTATION_MARKS_IN_ARGS));
  }

  lemma EscapedShape(m: Machine, keep: seq<byte>, e: byte, b: byte, kept: bool)
    requires m.state == Arg && keep == if kept then [e] else []
    ensures [e] + [b] == [e, b]
    ensures m.(state := AEsc, out := m.out + keep).(state := Arg, out := m.out + keep + [b])
         == m.(out := m.out + if kept then [e, b] else [b])
  {
    if kept {
      assert m.out + keep + [b] == m.out + [e, b];
    } else {
      assert m.out + keep + [b] == m.out + [b];
    }
  }

  // ---------------------------------------------------------------------
  // A run followed by one step whose cell is known.

  lemma TagThenSep(cfg: Config, m: Machine, p: seq<byte>, d: byte, m1: Machine)
    requires m1.state == Char && Run(cfg, m, p) == m1 && Classify(cfg, d) == Separator
    ensures Run(cfg, m, p + [d]) ==
      m1.(state := Sep, out := m1.out + [NUL], tw := m1.tw[m1.slot := At(m1.start)], aw := m1.aw[m1.slot := Null],
          slot := m1.slot + 1, start := |m1.out| + 1, count := m1.count + 1)
  {
    CloseTag(cfg, m1, d);
    RunSnoc(cfg, m, p, d);
  }

  lemma TagThenMarker(cfg: Config, m: Machine, p: seq<byte>, e: byte, m1: Machine)
    requires m1.state == Char && Run(cfg, m, p) == m1 && Classify(cfg, e) == ArgMarker
    ensures Run(cfg, m, p + [e]) ==
      m1.(state := Arg, out := m1.out + [NUL], tw := m1.tw[m1.slot := At(m1.start)], start := |m1.out| + 1)
  {
    OpenArg(cfg, m1, e);
    RunSnoc(cfg, m, p, e);
  }

  lemma TagThenEnd(cfg: Config, m: Machine, p: seq<byte>, m1: Machine)
    requires m1.state == Char && Run(cfg, m, p) == m1
    ensures Run(cfg, m, p + [NUL]) ==
      m1.(state := End, out := m1.out + [NUL],
          tw := m1.tw[m1.slot := At(m1.start)][m1.slot + 1 := Null], aw := m1.aw[m1.slot := Null][m1.slot + 1 := Null],
          slot := m1.slot + 1, start := |m1.out| + 1, count := m1.count + 2)
  {
    EndInTag(cfg, m1);
    RunSnoc(cfg, m, p, NUL);
  }

  lemma ArgThenSep(cfg: Config, m: Machine, p: seq<byte>, d: byte, m1: Machine)
    requires m1.state == Arg && Run(cfg, m, p) == m1 && Classify(cfg, d) == Separator
    ensures Run(cfg, m, p + [d]) ==
      m1.(state := Sep, out := m1.out + [NUL], aw := m1.aw[m1.slot := At(m1.start)],
          slot := m1.slot + 1, start := |m1.out| + 1, count := m1.count + 1)
  {
    CloseArg(cfg, m1, d);
    RunSnoc(cfg, m, p, d);
  }

  lemma ArgThenEnd(cfg: Config, m: Machine, p: seq<byte>, m1: Machine)
    requires m1.state == Arg && Run(cfg, m, p) == m1
    ensures Run(cfg, m, p + [NUL]) ==
      m1.(state := End, out := m1.out + [NUL],
          tw := m1.tw[m1.slot + 1 := Null], aw := m1.aw[m1.slot := At(m1.start)][m1.slot + 1 := Null],
          slot := m1.slot + 1, start := |m1.out| + 1, count := m1.count + 2)
  {
    EndInArg(cfg, m1);
    RunSnoc(cfg, m, p, NUL);
  }

  // ---------------------------------------------------------------------
  // Whole fields.

  /** The machine after the text of a tag `t` begun at a boundary. */
  function InTag(m: Machine, t: seq<byte>): Machine {
    m.(state := Char, start := |m.out|, out := m.out + t)
  }

  /** The machine inside the argument of `t=`, with argument text v so far. */
  function InArg(m: Machine, t: seq<byte>, v: seq<byte>): Machine {
    m.(state := Arg, out := m.out + t + [NUL] + v, tw := m.tw[m.slot := At(|m.out|)], start := |m.out| + |t| + 1)
  }

  /** The machine after a field (t, NULL) begun at a boundary. */
  function TagSlot(m: Machine, t: seq<byte>): Machine {
    m.(out := m.out + t + [NUL], tw := m.tw[m.slot := At(|m.out|)], aw := m.aw[m.slot := Null],
       slot := m.slot + 1, start := |m.out| + |t| + 1, count := m.count + 1)
  }

  /** The machine after a field (t, v) begun at a boundary. */
  function OptionSlot(m: Machine, t: seq<byte>, v: seq<byte>): Machine {
    m.(out := m.out + t + [NUL] + v + [NUL],
       tw := m.tw[m.slot := At(|m.out|)], aw := m.aw[m.slot := At(|m.out| + |t| + 1)],
       slot := m.slot + 1, start := |m.out| + |t| + |v| + 2, count := m.count + 1)
  }

  /** The machine after a newline tag filled the slot: ("\n", NULL). */
  function NewlineSlot(m: Machine): Machine {
    m.(tw := m.tw[m.slot := NewlineTag], aw := m.aw[m.slot := Null], slot := m.slot + 1, count := m.count + 1)
  }

  /** The sentinel slot written by the NUL, after the slot before it. */
  function Sentinel(m: Machine): Machine {
    m.(state := End, tw := m.tw[m.slot := Null], aw := m.aw[m.slot := Null], count := m.count + 1)
  }

  /** A tag at a boundary, before the byte that ends it: the text is at the
      write cursor and `thistag` points to it. */
  lemma {:induction false} TagText(cfg: Config, m: Machine, t: seq<byte>)
    requires Boundary(m) && |t| > 0 && Word(cfg, t)
    ensures Run(cfg, m, t) == InTag(m, t)
    decreases |t|
  {
    var t', b := t[..|t| - 1], t[|t| - 1];
    assert t' + [b] == t;
    if t' == [] {
      OpenTag(cfg, m, b);
      RunThen(cfg, m, [], b, m, InTag(m, [b]));
    } else {
      TagText(cfg, m, t');
      TagTextStep(cfg, m, t', b);
      RunThen(cfg, m, t', b, InTag(m, t'), InTag(m, t));
    }
  }

  /** One more byte of tag text. */
  lemma TagTextStep(cfg: Config, m: Machine, t: seq<byte>, b: byte)
    requires Classify(cfg, b) == Ordinary
    ensures Step(cfg, InTag(m, t), b) == InTag(m, t + [b])
  {
    TextCopies(cfg);
    CopyStep(cfg, InTag(m, t), b);
    assert m.out + t + [b] == m.out + (t + [b]);
  }

  /** `t=` at a boundary: the tag is written at the cursor and recorded in
      the slot, and the argument starts after its NUL. */
  lemma TagAndMarker(cfg: Config, m: Machine, t: seq<byte>, e: byte)
    requires Boundary(m) && |t| > 0 && Word(cfg, t) && Classify(cfg, e) == ArgMarker
    ensures Run(cfg, m, t + [e]) == InArg(m, t, [])
  {
    TagText(cfg, m, t);
    TagThenMarker(cfg, m, t, e, InTag(m, t));
  }

  /** `t` and a separator at a boundary: one slot (t, NULL). */
  lemma TagField(cfg: Config, m: Machine, t: seq<byte>, d: byte)
    requires Boundary(m) && |t| > 0 && Word(cfg, t) && Classify(cfg, d) == Separator
    ensures Run(cfg, m, t + [d]) == TagSlot(m, t) && Boundary(TagSlot(m, t))
  {
    TagText(cfg, m, t);
    TagThenSep(cfg, m, t, d, InTag(m, t));
    TagShape(m, t);
  }

  /** Under STROPTX_NEWLINE_TAGS, `t` and a newline at a boundary fill the
      slot (t, NULL) and then the slot ("\n", NULL); without the flag the
      newline ends the tag like a separator. */
  lemma TagLine(cfg: Config, m: Machine, t: seq<byte>)
    requires Boundary(m) && |t| > 0 && Word(cfg, t) && Classify(cfg, NEWLINE) == Newline
    ensures var m' := if FlagSet(cfg.flags, NEWLINE_TAGS) then NewlineSlot(TagSlot(m, t)) else TagSlot(m, t);
      Run(cfg, m, t + [NEWLINE]) == m' && Boundary(m')
  {
    TagText(cfg, m, t);
    TagLineEnd(cfg, m, t);
    RunSnoc(cfg, m, t, NEWLINE);
  }

  /** The newline after the tag text t. */
  lemma TagLineEnd(cfg: Config, m: Machine, t: seq<byte>)
    requires Boundary(m) && Classify(cfg, NEWLINE) == Newline
    ensures Step(cfg, InTag(m, t), NEWLINE) ==
      if FlagSet(cfg.flags, NEWLINE_TAGS) then NewlineSlot(TagSlot(m, t)) else TagSlot(m, t)
  {
    var m1 := InTag(m, t);
    if FlagSet(cfg.flags, NEWLINE_TAGS) {
      NewlineAfterTag(cfg, m1, NEWLINE);
    } else {
      Newlines(cfg);
      StepFields(cfg, m1, NEWLINE, Newline, ENDTAG);
    }
    TagShape(m, t);
  }

  /** `t` and the NUL at a boundary: the slot (t, NULL), then the sentinel. */
  lemma LastTag(cfg: Config, m: Machine, t: seq<byte>)
    requires Boundary(m) && |t| > 0 && Word(cfg, t)
    ensures Run(cfg, m, t + [NUL]) == Sentinel(TagSlot(m, t))
  {
    TagText(cfg, m, t);
    LastTagEnd(cfg, m, t);
    RunThen(cfg, m, t, NUL, InTag(m, t), Sentinel(TagSlot(m, t)));
  }

  /** The NUL after the tag text t. */
  lemma LastTagEnd(cfg: Config, m: Machine, t: seq<byte>)
    requires Boundary(m)
    ensures Step(cfg, InTag(m, t), NUL) == Sentinel(TagSlot(m, t))
  {
    EndInTag(cfg, InTag(m, t));
    TagShape(m, t);
  }

  lemma TagShape(m: Machine, t: seq<byte>)
    requires Boundary(m)
    ensures var m1 := InTag(m, t);
      && m1.(state := Sep, out := m1.out + [NUL], tw := m1.tw[m1.slot := At(m1.start)], aw := m1.aw[m1.slot := Null],
             slot := m1.slot + 1, start := |m1.out| + 1, count := m1.count + 1)
         == TagSlot(m, t)
      && m1.(state := End, out := m1.out + [NUL],
             tw := m1.tw[m1.slot := At(m1.start)][m1.slot + 1 := Null], aw := m1.aw[m1.slot := Null][m1.slot + 1 := Null],
             slot := m1.slot + 1, start := |m1.out| + 1, count := m1.count + 2)
         == Sentinel(TagSlot(m, t))
  {
  }

  /** Plain text inside an argument is copied unchanged. */
  lemma ArgText(cfg: Config, m: Machine, v: seq<byte>)
    requires m.state == Arg && Word(cfg, v)
    ensures Run(cfg, m, v) == m.(out := m.out + v)
  {
    TextCopies(cfg);
    CopyRun(cfg, m, v, {Ordinary});
  }

  /** Argument bytes a that leave the text v, after `t=` at a boundary. */
  lemma TagAndArg(cfg: Config, m: Machine, t: seq<byte>, e: byte, a: seq<byte>, v: seq<byte>)
    requires Boundary(m) && |t| > 0 && Word(cfg, t) && Classify(cfg, e) == ArgMarker
    requires Run(cfg, InArg(m, t, []), a) == InArg(m, t, v)
    ensures Run(cfg, m, t + [e] + a) == InArg(m, t, v)
  {
    TagAndMarker(cfg, m, t, e);
    RunAppend(cfg, m, t + [e], a);
  }

  /** `t=` with argument bytes a that leave the text v, and a separator: the
      slot (t, v). */
  lemma OptionFieldOf(cfg: Config, m: Machine, t: seq<byte>, e: byte, a: seq<byte>, v: seq<byte>, d: byte)
    requires Boundary(m) && |t| > 0 && Word(cfg, t) && Classify(cfg, e) == ArgMarker
    requires Run(cfg, InArg(m, t, []), a) == InArg(m, t, v)
    requires Classify(cfg, d) == Separator
    ensures Run(cfg, m, t + [e] + a + [d]) == OptionSlot(m, t, v) && Boundary(OptionSlot(m, t, v))
  {
    TagAndArg(cfg, m, t, e, a, v);
    OptionEnd(cfg, m, t, v, d);
    RunThen(cfg, m, t + [e] + a, d, InArg(m, t, v), OptionSlot(m, t, v));
  }

  /** The same, ended by the NUL: the slot (t, v), then the sentinel. */
  lemma LastOptionOf(cfg: Config, m: Machine, t: seq<byte>, e: byte, a: seq<byte>, v: seq<byte>)
    requires Boundary(m) && |t| > 0 && Word(cfg, t) && Classify(cfg, e) == ArgMarker
    requires Run(cfg, InArg(m, t, []), a) == InArg(m, t, v)
    ensures Run(cfg, m, t + [e] + a + [NUL]) == Sentinel(OptionSlot(m, t, v))
  {
    TagAndArg(cfg, m, t, e, a, v);
    LastOptionEnd(cfg, m, t, v);
    RunThen(cfg, m, t + [e] + a, NUL, InArg(m, t, v), Sentinel(OptionSlot(m, t, v)));
  }

  /** The separator after the argument v of `t=`. */
  lemma OptionEnd(cfg: Config, m: Machine, t: seq<byte>, v: seq<byte>, d: byte)
    requires Boundary(m) && Classify(cfg, d) == Separator
    ensures Step(cfg, InArg(m, t, v), d) == OptionSlot(m, t, v)
  {
    CloseArg(cfg, InArg(m, t, v), d);
    OptionShape(m, t, v);
  }

  /** The NUL after the argument v of `t=`. */
  lemma LastOptionEnd(cfg: Config, m: Machine, t: seq<byte>, v: seq<byte>)
    requires Boundary(m)
    ensures Step(cfg, InArg(m, t, v), NUL) == Sentinel(OptionSlot(m, t, v))
  {
    EndInArg(cfg, InArg(m, t, v));
    LastOptionShape(m, t, v);
  }

  lemma OptionShape(m: Machine, t: seq<byte>, v: seq<byte>)
    requires Boundary(m)
    ensures var m1 := InArg(m, t, v);
      m1.(state := Sep, out := m1.out + [NUL], aw := m1.aw[m1.slot := At(m1.start)],
          slot := m1.slot + 1, start := |m1.out| + 1, count := m1.count + 1)
      == OptionSlot(m, t, v)
  {
  }

  lemma LastOptionShape(m: Machine, t: seq<byte>, v: seq<byte>)
    requires Boundary(m)
    ensures var m1 := InArg(m, t, v);
      m1.(state := End, out := m1.out + [NUL],
          tw := m1.tw[m1.slot + 1 := Null], aw := m1.aw[m1.slot := At(m1.start)][m1.slot + 1 := Null],
          slot := m1.slot + 1, start := |m1.out| + 1, count := m1.count + 2)
      == Sentinel(OptionSlot(m, t, v))
  {
  }

  /** Argument text moves the argument machine along. */
  lemma InArgText(m: Machine, t: seq<byte>, v: seq<byte>, w: seq<byte>)
    ensures InArg(m, t, v).(out := InArg(m, t, v).out + w) == InArg(m, t, v + w)
  {
    assert m.out + t + [NUL] + v + w == m.out + t + [NUL] + (v + w);
  }

  /** Argument text after the marker. */
  lemma ArgStartText(m: Machine, t: seq<byte>, v: seq<byte>)
    ensures InArg(m, t, []).(out := InArg(m, t, []).out + v) == InArg(m, t, v)
  {
    assert m.out + t + [NUL] + [] + v == m.out + t + [NUL] + v;
  }

  /** `t=v` and a separator at a boundary: one slot (t, v). */
  lemma OptionField(cfg: Config, m: Machine, t: seq<byte>, e: byte, v: seq<byte>, d: byte)
    requires Boundary(m) && |t| > 0 && Word(cfg, t) && Classify(cfg, e) == ArgMarker && Word(cfg, v)
    requires Classify(cfg, d) == Separator
    ensures Run(cfg, m, t + [e] + v + [d]) == OptionSlot(m, t, v) && Boundary(OptionSlot(m, t, v))
  {
    assert Run(cfg, InArg(m, t, []), v) == InArg(m, t, v) by {
      ArgText(cfg, InArg(m, t, []), v);
      ArgStartText(m, t, v);
    }
    OptionFieldOf(cfg, m, t, e, v, v, d);
  }

  /** `t=v` and the NUL at a boundary: the slot (t, v), then the sentinel. */
  lemma LastOption(cfg: Config, m: Machine, t: seq<byte>, e: byte, v: seq<byte>)
    requires Boundary(m) && |t| > 0 && Word(cfg, t) && Classify(cfg, e) == ArgMarker && Word(cfg, v)
    ensures Run(cfg, m, t + [e] + v + [NUL]) == Sentinel(OptionSlot(m, t, v))
  {
    assert Run(cfg, InArg(m, t, []), v) == InArg(m, t, v) by {
      ArgText(cfg, InArg(m, t, []), v);
      ArgStartText(m, t, v);
    }
    LastOptionOf(cfg, m, t, e, v, v);
  }

  /** `t='x'` and a separator at a boundary, without
      STROPTX_KEEP_QUOTATION_MARKS_IN_ARGS: the slot (t, x), the quotes
      gone and the separators, `#`, `=` and newlines inside them kept. */
  lemma QuotedOption(cfg: Config, m: Machine, t: seq<byte>, e: byte, q: byte, x: seq<byte>, d: byte)
    requires Boundary(m) && |t| > 0 && Word(cfg, t) && Classify(cfg, e) == ArgMarker
    requires Classify(cfg, q) == SingleQuote && InClasses(cfg, x, SINGLE_QUOTED)
    requires !FlagSet(cfg.flags, KEEP_QUOTATION_MARKS_IN_ARGS) && Classify(cfg, d) == Separator
    ensures Run(cfg, m, t + [e] + ([q] + x + [q]) + [d]) == OptionSlot(m, t, x) && Boundary(OptionSlot(m, t, x))
  {
    QuotedArg(cfg, InArg(m, t, []), q, x);
    ArgStartText(m, t, x);
    OptionFieldOf(cfg, m, t, e, [q] + x + [q], x, d);
  }

  /** `t=` followed by a backslash and a byte b, then the NUL, without
      STROPTX_KEEP_QUOTATION_MARKS_IN_ARGS: the slot (t, b), then the
      sentinel. */
  lemma EscapedLastOption(cfg: Config, m: Machine, t: seq<byte>, e: byte, x: byte, b: byte)
    requires Boundary(m) && |t| > 0 && Word(cfg, t) && Classify(cfg, e) == ArgMarker
    requires Classify(cfg, x) == Escape && Classify(cfg, b) != Terminator && Classify(cfg, b) != Newline
    requires !FlagSet(cfg.flags, KEEP_QUOTATION_MARKS_IN_ARGS)
    ensures Run(cfg, m, t + [e] + [x, b] + [NUL]) == Sentinel(OptionSlot(m, t, [b]))
  {
    EscapedArg(cfg, InArg(m, t, []), x, b);
    ArgStartText(m, t, [b]);
    LastOptionOf(cfg, m, t, e, [x, b], [b]);
  }
}
