/** What the header of stropt promises about separator runs, newlines,
    comments and the default feature and separator strings, as lemmas
    about the scan of small inputs of any bytes of the right classes. */
module Behaviours {
  import opened Bytes
  import opened Tables
  import opened ScanSpec
  import opened Views
  import opened Tokens
  import opened RoundTrip

  const HASH: byte := 35

  // ---------------------------------------------------------------------
  // Inputs and the slots they fill

  /** Bytes of classes other than END hold no NUL. */
  lemma {:induction false} ClassesNulFree(cfg: Config, w: seq<byte>, cs: set<Class>)
    requires Terminator !in cs && InClasses(cfg, w, cs)
    ensures NulFree(w)
    decreases |w|
  {
    if w != [] {
      ClassesNulFree(cfg, w[..|w| - 1], cs);
      ClassifyTerminator(cfg, w[|w| - 1]);
      assert forall i :: 0 <= i < |w| - 1 ==> w[i] == w[..|w| - 1][i];
    }
  }

  lemma {:induction false} InClassesAppend(cfg: Config, a: seq<byte>, b: seq<byte>, cs: set<Class>)
    requires InClasses(cfg, a, cs) && InClasses(cfg, b, cs)
    ensures InClasses(cfg, a + b, cs)
    decreases |b|
  {
    if b != [] {
      InClassesAppend(cfg, a, b[..|b| - 1], cs);
      assert (a + b)[..|a + b| - 1] == a + b[..|b| - 1];
      assert (a + b)[|a + b| - 1] == b[|b| - 1];
    } else {
      assert a + b == a;
    }
  }

  /** Bytes whose class under c1 is in cs have their class under c2 in cs
      too, when every class of cs is kept by the change. */
  lemma {:induction false} InClassesWiden(c1: Config, c2: Config, w: seq<byte>, cs: set<Class>)
    requires forall b :: Classify(c1, b) in cs ==> Classify(c2, b) in cs
    requires InClasses(c1, w, cs)
    ensures InClasses(c2, w, cs)
    decreases |w|
  {
    if w != [] {
      InClassesWiden(c1, c2, w[..|w| - 1], cs);
    }
  }

  lemma NulFreeAppend(a: seq<byte>, b: seq<byte>)
    requires NulFree(a) && NulFree(b)
    ensures NulFree(a + b)
  {
    assert forall i :: 0 <= i < |a + b| ==> (a + b)[i] == if i < |a| then a[i] else b[i - |a|];
  }

  /** The runs over a and then over b, composed. */
  lemma RunCompose(cfg: Config, m: Machine, a: seq<byte>, b: seq<byte>, m1: Machine, m2: Machine)
    requires Run(cfg, m, a) == m1 && Run(cfg, m1, b) == m2
    ensures Run(cfg, m, a + b) == m2
  {
    RunAppend(cfg, m, a, b);
  }

  /** The scan of a, then b and its NUL, is the run over them. */
  lemma ScanOf(cfg: Config, a: seq<byte>, b: seq<byte>, m: Machine)
    requires NulFree(a) && NulFree(b) && Run(cfg, INIT, a + (b + [NUL])) == m
    ensures NUL in a + b + [NUL] && Scan(cfg, a + b + [NUL]) == m
  {
    NulFreeAppend(a, b);
    ConsumedAll(a + b);
    Reassociate(a, b, [NUL]);
    assert (a + b + [NUL])[|a + b|] == NUL;
  }

  /** The scan of x, then u and its NUL, from the runs over each. */
  lemma ScanAfter(cfg: Config, x: seq<byte>, u: seq<byte>, m1: Machine, m2: Machine)
    requires NulFree(x) && NulFree(u) && Run(cfg, INIT, x) == m1 && Run(cfg, m1, u + [NUL]) == m2
    ensures NUL in x + u + [NUL] && Scan(cfg, x + u + [NUL]) == m2
  {
    RunCompose(cfg, INIT, x, u + [NUL], m1, m2);
    ScanOf(cfg, x, u, m2);
  }

  lemma TwoTagsRecorded(t: CText, u: CText)
    ensures Records(TagSlot(TagSlot(INIT, t), u), [(t, None), (u, None)])
  {
    var f1, f2: Opt := (t, None), (u, None);
    var fs1: seq<Opt> := [f1];
    var fs: seq<Opt> := [f1, f2];
    var none: seq<Opt> := [];
    assert Records(INIT, none);
    assert fs1[..0] == none && fs[..1] == fs1;
    SlotRecords(INIT, fs1);
    SlotRecords(TagSlot(INIT, t), fs);
  }

  lemma ThreeTagsRecorded(t: CText, w: CText, u: CText)
    ensures Records(TagSlot(TagSlot(TagSlot(INIT, t), w), u), [(t, None), (w, None), (u, None)])
  {
    var f1, f2, f3: Opt := (t, None), (w, None), (u, None);
    var fs2: seq<Opt> := [f1, f2];
    var fs: seq<Opt> := [f1, f2, f3];
    TwoTagsRecorded(t, w);
    assert fs[..2] == fs2;
    SlotRecords(TagSlot(TagSlot(INIT, t), w), fs);
  }

  /** A tag, the newline tag, then a tag. */
  lemma NewlineTagRecorded(t: CText, u: CText)
    ensures Records(TagSlot(NewlineSlot(TagSlot(INIT, t)), u), [(t, None), ([NEWLINE], None), (u, None)])
  {
    var f1, f2, f3: Opt := (t, None), ([NEWLINE], None), (u, None);
    var fs: seq<Opt> := [f1, f2, f3];
    var fs1: seq<Opt> := [f1];
    var fs2: seq<Opt> := [f1, f2];
    var m1 := TagSlot(INIT, t);
    var none: seq<Opt> := [];
    assert Records(INIT, none);
    assert fs1[..0] == none;
    SlotRecords(INIT, fs1);
    NewlineAdvances(m1);
    assert fs[..2] == fs2 && fs2[..1] == fs1;
    Extend(m1, NewlineSlot(m1), fs2);
    SlotRecords(NewlineSlot(m1), fs);
  }

  // ---------------------------------------------------------------------
  // Runs of separators (stropt.h:94-96)

  lemma SeparatorRunScan(cfg: Config, t: CText, d: byte, ds: seq<byte>, u: CText)
    requires !FlagSet(cfg.flags, ALLOW_MULTIPLE_SEP)
    requires |t| > 0 && Word(cfg, t) && |u| > 0 && Word(cfg, u)
    requires Classify(cfg, d) == Separator && InClasses(cfg, ds, {Separator})
    ensures var s := t + [d] + ds + u + [NUL];
      NUL in s && Scan(cfg, s) == Sentinel(TagSlot(TagSlot(INIT, t), u))
  {
    var m1 := TagSlot(INIT, t);
    var m2 := Sentinel(TagSlot(m1, u));
    TagField(cfg, INIT, t, d);
    Tokens.Separators(cfg);
    SkipRun(cfg, m1, ds, {Separator});
    RunCompose(cfg, INIT, t + [d], ds, m1, m1);
    LastTag(cfg, m1, u);
    RunCompose(cfg, INIT, t + [d] + ds, u + [NUL], m1, m2);
    ClassifyTerminator(cfg, d);
    NulFreeAppend(t, [d]);
    ClassesNulFree(cfg, ds, {Separator});
    NulFreeAppend(t + [d], ds);
    ScanOf(cfg, t + [d] + ds, u, m2);
  }

  /** Without STROPTX_ALLOW_MULTIPLE_SEP a run of separators between two
      tags counts as one: two tags, and `stropt` returns 3. */
  lemma SeparatorRun(cfg: Config, t: CText, d: byte, ds: seq<byte>, u: CText)
    requires !FlagSet(cfg.flags, ALLOW_MULTIPLE_SEP)
    requires |t| > 0 && Word(cfg, t) && |u| > 0 && Word(cfg, u)
    requires Classify(cfg, d) == Separator && InClasses(cfg, ds, {Separator})
    ensures var s := t + [d] + ds + u + [NUL];
      NUL in s && Count(cfg, s) == 3 && Options(cfg, s) == [(t, None), (u, None)]
  {
    SeparatorRunScan(cfg, t, d, ds, u);
    TwoTagsRead(cfg, t + [d] + ds + u + [NUL], t, u);
  }

  /** The second separator of a pair, at a boundary: an empty tag. */
  lemma EmptyTagSlot(cfg: Config, m: Machine, d: byte)
    requires Boundary(m) && FlagSet(cfg.flags, ALLOW_MULTIPLE_SEP) && Classify(cfg, d) == Separator
    ensures Step(cfg, m, d) == TagSlot(m, []) && Boundary(TagSlot(m, []))
  {
    EmptyTag(cfg, m, d);
    assert m.out + [] + [NUL] == m.out + [NUL];
  }

  lemma SeparatorsNulFree(t: CText, d: byte, d': byte)
    requires d != NUL && d' != NUL
    ensures NulFree(t + [d] + [d'])
  {
    NulFreeAppend(t, [d]);
    NulFreeAppend(t + [d], [d']);
  }

  lemma EmptyFieldScan(cfg: Config, t: CText, d: byte, d': byte, u: CText)
    requires FlagSet(cfg.flags, ALLOW_MULTIPLE_SEP)
    requires |t| > 0 && Word(cfg, t) && |u| > 0 && Word(cfg, u)
    requires Classify(cfg, d) == Separator && Classify(cfg, d') == Separator
    ensures var s := t + [d] + [d'] + u + [NUL];
      NUL in s && Scan(cfg, s) == Sentinel(TagSlot(TagSlot(TagSlot(INIT, t), []), u))
  {
    var m1 := TagSlot(INIT, t);
    var m2 := TagSlot(m1, []);
    var m3 := Sentinel(TagSlot(m2, u));
    TagField(cfg, INIT, t, d);
    EmptyTagSlot(cfg, m1, d');
    RunThen(cfg, INIT, t + [d], d', m1, m2);
    LastTag(cfg, m2, u);
    RunCompose(cfg, INIT, t + [d] + [d'], u + [NUL], m2, m3);
    ClassifyTerminator(cfg, d);
    ClassifyTerminator(cfg, d');
    SeparatorsNulFree(t, d, d');
    ScanOf(cfg, t + [d] + [d'], u, m3);
  }

  /** Under STROPTX_ALLOW_MULTIPLE_SEP two separators in a row mean an
      empty tag between them: three tags, and `stropt` returns 4. */
  lemma EmptyField(cfg: Config, t: CText, d: byte, d': byte, u: CText)
    requires FlagSet(cfg.flags, ALLOW_MULTIPLE_SEP)
    requires |t| > 0 && Word(cfg, t) && |u| > 0 && Word(cfg, u)
    requires Classify(cfg, d) == Separator && Classify(cfg, d') == Separator
    ensures var s := t + [d] + [d'] + u + [NUL];
      NUL in s && Count(cfg, s) == 4 && Options(cfg, s) == [(t, None), ([], None), (u, None)]
  {
    EmptyFieldScan(cfg, t, d, d', u);
    ThreeTagsRead(cfg, t + [d] + [d'] + u + [NUL], t, [], u);
  }

  // ---------------------------------------------------------------------
  // Newlines (stropt.h:97)

  lemma NewlineScan(cfg: Config, t: CText, u: CText)
    requires |t| > 0 && Word(cfg, t) && |u| > 0 && Word(cfg, u) && Classify(cfg, NEWLINE) == Newline
    ensures var s := t + [NEWLINE] + u + [NUL];
      var m1 := if FlagSet(cfg.flags, NEWLINE_TAGS) then NewlineSlot(TagSlot(INIT, t)) else TagSlot(INIT, t);
      NUL in s && Scan(cfg, s) == Sentinel(TagSlot(m1, u))
  {
    var m1 := if FlagSet(cfg.flags, NEWLINE_TAGS) then NewlineSlot(TagSlot(INIT, t)) else TagSlot(INIT, t);
    TagLine(cfg, INIT, t);
    LastTag(cfg, m1, u);
    RunCompose(cfg, INIT, t + [NEWLINE], u + [NUL], m1, Sentinel(TagSlot(m1, u)));
    NulFreeAppend(t, [NEWLINE]);
    ScanOf(cfg, t + [NEWLINE], u, Sentinel(TagSlot(m1, u)));
  }

  /** A newline after a tag ends it; under STROPTX_NEWLINE_TAGS it is also
      read as a tag "\n" of its own, with no argument. */
  lemma NewlineTags(cfg: Config, t: CText, u: CText)
    requires |t| > 0 && Word(cfg, t) && |u| > 0 && Word(cfg, u) && Classify(cfg, NEWLINE) == Newline
    ensures var s := t + [NEWLINE] + u + [NUL];
      && NUL in s
      && (FlagSet(cfg.flags, NEWLINE_TAGS) ==>
            Count(cfg, s) == 4 && Options(cfg, s) == [(t, None), ([NEWLINE], None), (u, None)])
      && (!FlagSet(cfg.flags, NEWLINE_TAGS) ==>
            Count(cfg, s) == 3 && Options(cfg, s) == [(t, None), (u, None)])
  {
    NewlineScan(cfg, t, u);
    if FlagSet(cfg.flags, NEWLINE_TAGS) {
      NewlineTagsRead(cfg, t + [NEWLINE] + u + [NUL], t, u);
    } else {
      TwoTagsRead(cfg, t + [NEWLINE] + u + [NUL], t, u);
    }
  }

  lemma NewlineTagsRead(cfg: Config, s: seq<byte>, t: CText, u: CText)
    requires NUL in s && Scan(cfg, s) == Sentinel(TagSlot(NewlineSlot(TagSlot(INIT, t)), u))
    ensures Count(cfg, s) == 4 && Options(cfg, s) == [(t, None), ([NEWLINE], None), (u, None)]
  {
    NewlineTagRecorded(t, u);
    ReadBack(cfg, s, [(t, None), ([NEWLINE], None), (u, None)], TagSlot(NewlineSlot(TagSlot(INIT, t)), u));
  }

  /** A scan that ended after the slots of two tags reads them. */
  lemma TwoTagsRead(cfg: Config, s: seq<byte>, t: CText, u: CText)
    requires NUL in s && Scan(cfg, s) == Sentinel(TagSlot(TagSlot(INIT, t), u))
    ensures Count(cfg, s) == 3 && Options(cfg, s) == [(t, None), (u, None)]
  {
    TwoTagsRecorded(t, u);
    ReadBack(cfg, s, [(t, None), (u, None)], TagSlot(TagSlot(INIT, t), u));
  }

  /** A scan that ended after the slots of three tags reads them. */
  lemma ThreeTagsRead(cfg: Config, s: seq<byte>, t: CText, w: CText, u: CText)
    requires NUL in s && Scan(cfg, s) == Sentinel(TagSlot(TagSlot(TagSlot(INIT, t), w), u))
    ensures Count(cfg, s) == 4 && Options(cfg, s) == [(t, None), (w, None), (u, None)]
  {
    ThreeTagsRecorded(t, w, u);
    ReadBack(cfg, s, [(t, None), (w, None), (u, None)], TagSlot(TagSlot(TagSlot(INIT, t), w), u));
  }

  /** A scan that ended after the slot of one tag reads it. */
  lemma OneTagRead(cfg: Config, s: seq<byte>, t: CText)
    requires NUL in s && Scan(cfg, s) == Sentinel(TagSlot(INIT, t))
    ensures Count(cfg, s) == 2 && Options(cfg, s) == [(t, None)]
  {
    var fs: seq<Opt> := [(t, None)];
    assert fs[..0] == [];
    SlotRecords(INIT, fs);
    ReadBack(cfg, s, fs, TagSlot(INIT, t));
  }

  // ---------------------------------------------------------------------
  // A trailing separator and the empty input (stropt.h:11-13, 94-96)

  /** The empty input is no option by default, and one empty tag under
      STROPTX_ALLOW_MULTIPLE_SEP. */
  lemma EmptyInput(cfg: Config)
    ensures NUL in [NUL]
    ensures Count(cfg, [NUL]) == if FlagSet(cfg.flags, ALLOW_MULTIPLE_SEP) then 2 else 1
    ensures Options(cfg, [NUL]) == if FlagSet(cfg.flags, ALLOW_MULTIPLE_SEP) then [([], None)] else []
  {
    var s: seq<byte> := [NUL];
    ConsumedAll([]);
    assert [] + [NUL] == s;
    assert Run(cfg, INIT, s) == Step(cfg, Run(cfg, INIT, []), NUL) by { assert s[..0] == []; }
    if FlagSet(cfg.flags, ALLOW_MULTIPLE_SEP) {
      EmptyTagAtEnd(cfg, INIT);
      OneTagRead(cfg, s, []);
    } else {
      EndAtBoundary(cfg, INIT);
      assert Step(cfg, INIT, NUL) == Sentinel(INIT);
      ReadBack(cfg, s, [], INIT);
    }
  }

  /** The scan of a tag and a trailing separator. */
  lemma TrailingSeparatorScan(cfg: Config, t: CText, d: byte)
    requires |t| > 0 && Word(cfg, t) && Classify(cfg, d) == Separator
    ensures var s := t + [d] + [NUL];
      && NUL in s
      && Scan(cfg, s) == if FlagSet(cfg.flags, ALLOW_MULTIPLE_SEP) then Sentinel(TagSlot(TagSlot(INIT, t), []))
                         else Sentinel(TagSlot(INIT, t))
  {
    ClassifyTerminator(cfg, d);
    NulFreeAppend(t, [d]);
    var x := t + [d];
    ConsumedAll(x);
    TagField(cfg, INIT, t, d);
    var m1 := TagSlot(INIT, t);
    if FlagSet(cfg.flags, ALLOW_MULTIPLE_SEP) {
      EmptyTagAtEnd(cfg, m1);
      RunThen(cfg, INIT, x, NUL, m1, Sentinel(TagSlot(m1, [])));
    } else {
      EndAtBoundary(cfg, m1);
      assert Step(cfg, m1, NUL) == Sentinel(m1);
      RunThen(cfg, INIT, x, NUL, m1, Sentinel(m1));
    }
  }

  /** A trailing separator ends the last tag, and under
      STROPTX_ALLOW_MULTIPLE_SEP it also yields an empty tag after it. */
  lemma TrailingSeparator(cfg: Config, t: CText, d: byte)
    requires |t| > 0 && Word(cfg, t) && Classify(cfg, d) == Separator
    ensures var s := t + [d] + [NUL];
      && NUL in s
      && Count(cfg, s) == (if FlagSet(cfg.flags, ALLOW_MULTIPLE_SEP) then 3 else 2)
      && Options(cfg, s) == if FlagSet(cfg.flags, ALLOW_MULTIPLE_SEP) then [(t, None), ([], None)] else [(t, None)]
  {
    TrailingSeparatorScan(cfg, t, d);
    if FlagSet(cfg.flags, ALLOW_MULTIPLE_SEP) {
      TwoTagsRead(cfg, t + [d] + [NUL], t, []);
    } else {
      OneTagRead(cfg, t + [d] + [NUL], t);
    }
  }

  // ---------------------------------------------------------------------
  // Comments (stropt.h:78-81)

  /** The classes a comment passes over: all but the newline and END. */
  const COMMENTED: set<Class> := {Ordinary, Separator, CommentStart, ArgMarker, SingleQuote, DoubleQuote, Escape}

  /** `#`, the comment text and the newline, at a boundary, change nothing. */
  lemma CommentRun(cfg: Config, m: Machine, c: seq<byte>)
    requires Boundary(m) && !FlagSet(cfg.flags, NEWLINE_TAGS)
    requires Classify(cfg, HASH) == CommentStart && Classify(cfg, NEWLINE) == Newline
    requires InClasses(cfg, c, COMMENTED)
    ensures Run(cfg, m, [HASH] + c + [NEWLINE]) == m
  {
    var mc := m.(state := Comm);
    CommentOpens(cfg, m);
    RunThen(cfg, m, [], HASH, m, mc);
    assert [] + [HASH] == [HASH];
    CommentSkips(cfg);
    SkipRun(cfg, mc, c, COMMENTED);
    RunCompose(cfg, m, [HASH], c, mc, mc);
    CommentCloses(cfg, m);
    RunThen(cfg, m, [HASH] + c, NEWLINE, mc, m);
  }

  lemma CommentSkips(cfg: Config)
    ensures forall k :: k in COMMENTED ==> Skips(cfg, Comm, k)
  {
    forall k | k in COMMENTED
      ensures Skips(cfg, Comm, k)
    {
      Comments(cfg, k);
    }
  }

  lemma CommentOpens(cfg: Config, m: Machine)
    requires m.state == Sep && Classify(cfg, HASH) == CommentStart
    ensures Step(cfg, m, HASH) == m.(state := Comm)
  {
    Comments(cfg, CommentStart);
    StepFields(cfg, m, HASH, CommentStart, 0);
  }

  lemma CommentCloses(cfg: Config, m: Machine)
    requires m.state == Sep && !FlagSet(cfg.flags, NEWLINE_TAGS) && Classify(cfg, NEWLINE) == Newline
    ensures Step(cfg, m.(state := Comm), NEWLINE) == m
  {
    Comments(cfg, Newline);
    StepFields(cfg, m.(state := Comm), NEWLINE, Newline, 0);
  }

  lemma TagThenComment(cfg: Config, t: CText, d: byte, c: seq<byte>)
    requires !FlagSet(cfg.flags, NEWLINE_TAGS)
    requires Classify(cfg, HASH) == CommentStart && Classify(cfg, NEWLINE) == Newline
    requires |t| > 0 && Word(cfg, t) && Classify(cfg, d) == Separator && InClasses(cfg, c, COMMENTED)
    ensures Run(cfg, INIT, t + [d] + ([HASH] + c + [NEWLINE])) == TagSlot(INIT, t)
  {
    var m1 := TagSlot(INIT, t);
    TagField(cfg, INIT, t, d);
    CommentRun(cfg, m1, c);
    RunCompose(cfg, INIT, t + [d], [HASH] + c + [NEWLINE], m1, m1);
  }

  lemma CommentScan(cfg: Config, t: CText, d: byte, c: CText, u: CText)
    requires !FlagSet(cfg.flags, NEWLINE_TAGS)
    requires Classify(cfg, HASH) == CommentStart && Classify(cfg, NEWLINE) == Newline
    requires |t| > 0 && Word(cfg, t) && |u| > 0 && Word(cfg, u)
    requires Classify(cfg, d) == Separator && InClasses(cfg, c, COMMENTED)
    ensures var s := t + [d] + ([HASH] + c + [NEWLINE]) + u + [NUL];
      NUL in s && Scan(cfg, s) == Sentinel(TagSlot(TagSlot(INIT, t), u))
  {
    var m1 := TagSlot(INIT, t);
    var x := t + [d] + ([HASH] + c + [NEWLINE]);
    TagThenComment(cfg, t, d, c);
    LastTag(cfg, m1, u);
    ClassifyTerminator(cfg, d);
    CommentNulFree(t, d, c);
    ScanAfter(cfg, x, u, m1, Sentinel(TagSlot(m1, u)));
  }

  lemma CommentNulFree(t: CText, d: byte, c: CText)
    requires d != NUL
    ensures NulFree(t + [d] + ([HASH] + c + [NEWLINE]))
  {
    NulFreeAppend([HASH], c);
    NulFreeAppend([HASH] + c, [NEWLINE]);
    NulFreeAppend(t, [d]);
    NulFreeAppend(t + [d], [HASH] + c + [NEWLINE]);
  }

  /** A comment after a separator is skipped up to its newline: the tags
      on both sides are all `stropt` reads. */
  lemma CommentSkipped(cfg: Config, t: CText, d: byte, c: CText, u: CText)
    requires !FlagSet(cfg.flags, NEWLINE_TAGS)
    requires Classify(cfg, HASH) == CommentStart && Classify(cfg, NEWLINE) == Newline
    requires |t| > 0 && Word(cfg, t) && |u| > 0 && Word(cfg, u)
    requires Classify(cfg, d) == Separator && InClasses(cfg, c, COMMENTED)
    ensures var s := t + [d] + ([HASH] + c + [NEWLINE]) + u + [NUL];
      NUL in s && Count(cfg, s) == 3 && Options(cfg, s) == [(t, None), (u, None)]
  {
    CommentScan(cfg, t, d, c, u);
    TwoTagsRead(cfg, t + [d] + ([HASH] + c + [NEWLINE]) + u + [NUL], t, u);
  }

  lemma CommentTextScan(cfg: Config, t: CText, d: byte, w: CText, u: CText)
    requires !FlagSet(cfg.flags, NEWLINE_TAGS) && Classify(cfg, NEWLINE) == Newline
    requires |t| > 0 && Word(cfg, t) && |w| > 0 && Word(cfg, w) && |u| > 0 && Word(cfg, u)
    requires Classify(cfg, d) == Separator
    ensures var s := t + [d] + (w + [NEWLINE]) + u + [NUL];
      NUL in s && Scan(cfg, s) == Sentinel(TagSlot(TagSlot(TagSlot(INIT, t), w), u))
  {
    var m1 := TagSlot(INIT, t);
    var m2 := TagSlot(m1, w);
    TagField(cfg, INIT, t, d);
    TagLine(cfg, m1, w);
    RunCompose(cfg, INIT, t + [d], w + [NEWLINE], m1, m2);
    LastTag(cfg, m2, u);
    ClassifyTerminator(cfg, d);
    NulFreeAppend(t, [d]);
    NulFreeAppend(w, [NEWLINE]);
    NulFreeAppend(t + [d], w + [NEWLINE]);
    ScanAfter(cfg, t + [d] + (w + [NEWLINE]), u, m2, Sentinel(TagSlot(m2, u)));
  }

  /** With `#` left out of the features it is an ordinary byte: the
      would-be comment `#c` is read as a tag, ended by the newline. */
  lemma CommentAsText(cfg: Config, t: CText, d: byte, c: CText, u: CText)
    requires !FlagSet(cfg.flags, NEWLINE_TAGS)
    requires Classify(cfg, HASH) == Ordinary && Classify(cfg, NEWLINE) == Newline
    requires |t| > 0 && Word(cfg, t) && Word(cfg, c) && |u| > 0 && Word(cfg, u)
    requires Classify(cfg, d) == Separator
    ensures var s := t + [d] + ([HASH] + c + [NEWLINE]) + u + [NUL];
      NUL in s && Count(cfg, s) == 4 && Options(cfg, s) == [(t, None), ([HASH] + c, None), (u, None)]
  {
    NulFreeAppend([HASH], c);
    var w: CText := [HASH] + c;
    assert InClasses(cfg, [HASH], {Ordinary}) by { assert [HASH][..0] == []; }
    InClassesAppend(cfg, [HASH], c, {Ordinary});
    CommentTextScan(cfg, t, d, w, u);
    ThreeTagsRead(cfg, t + [d] + (w + [NEWLINE]) + u + [NUL], t, w, u);
  }

  // ---------------------------------------------------------------------
  // The features and separator strings (stropt.h:78-83)

  /** Every feature but comments: "=\n'\"\\". */
  const NO_COMMENT: CText := [61, 10, 39, 34, 92]

  /** The configuration `stroptx(input, "=\n'\"\\", NULL, 0, ...)` runs with. */
  const NO_COMMENT_CONFIG: Config := Config(Some(NO_COMMENT), None, 0)

  /** Leaving `#` out of the features makes it an ordinary byte (unless it
      is a separator) and changes the class of no other byte. */
  lemma NoCommentClasses(sep: Option<seq<byte>>, flags: bv32, b: byte)
    ensures var without, all := Config(Some(NO_COMMENT), sep, flags), Config(None, sep, flags);
      Classify(without, b) ==
        if b == HASH && b !in Tables.Separators(without) then Ordinary else Classify(all, b)
  {
    DefaultMembers(b);
    assert b in NO_COMMENT <==> b == 61 || b == 10 || b == 39 || b == 34 || b == 92;
  }

  /** Comments are on by default and off without `#` in the features:
      `stropt` skips the comment, the NO_COMMENT configuration reads it as
      a tag. */
  lemma CommentFeature(t: CText, d: byte, c: CText, u: CText)
    requires |t| > 0 && Word(DEFAULT, t) && Word(DEFAULT, c) && |u| > 0 && Word(DEFAULT, u)
    requires DefaultClass(d) == Separator
    ensures var s := t + [d] + ([HASH] + c + [NEWLINE]) + u + [NUL];
      && NUL in s
      && Count(DEFAULT, s) == 3 && Options(DEFAULT, s) == [(t, None), (u, None)]
      && Count(NO_COMMENT_CONFIG, s) == 4
      && Options(NO_COMMENT_CONFIG, s) == [(t, None), ([HASH] + c, None), (u, None)]
  {
    DefaultCharmap(HASH);
    DefaultCharmap(NEWLINE);
    DefaultCharmap(d);
    WordCommented(c);
    CommentSkipped(DEFAULT, t, d, c, u);
    forall b | Classify(DEFAULT, b) in {Ordinary}
      ensures Classify(NO_COMMENT_CONFIG, b) in {Ordinary}
    {
      NoCommentClasses(None, 0, b);
    }
    InClassesWiden(DEFAULT, NO_COMMENT_CONFIG, t, {Ordinary});
    InClassesWiden(DEFAULT, NO_COMMENT_CONFIG, c, {Ordinary});
    InClassesWiden(DEFAULT, NO_COMMENT_CONFIG, u, {Ordinary});
    NoCommentClasses(None, 0, HASH);
    NoCommentClasses(None, 0, NEWLINE);
    NoCommentClasses(None, 0, d);
    CommentAsText(NO_COMMENT_CONFIG, t, d, c, u);
  }

  /** Text is inside a comment. */
  lemma WordCommented(c: seq<byte>)
    requires Word(DEFAULT, c)
    ensures InClasses(DEFAULT, c, COMMENTED)
  {
    forall b | Classify(DEFAULT, b) in {Ordinary}
      ensures Classify(DEFAULT, b) in COMMENTED
    {
    }
    InClassesWiden(DEFAULT, DEFAULT, c, {Ordinary});
  }

  /** Same flags and the same class for every byte: the same run. */
  lemma {:induction false} RunAgrees(c1: Config, c2: Config, m: Machine, p: seq<byte>)
    requires c1.flags == c2.flags && forall b :: Classify(c1, b) == Classify(c2, b)
    ensures Run(c1, m, p) == Run(c2, m, p)
    decreases |p|
  {
    if p != [] {
      RunAgrees(c1, c2, m, p[..|p| - 1]);
    }
  }

  /** features NULL is the same as "#=\n'\"\\": the scan, the count and
      the options are the same. */
  lemma FeaturesDefault(sep: Option<seq<byte>>, flags: bv32, s: seq<byte>)
    requires NUL in s
    ensures var c1, c2 := Config(None, sep, flags), Config(Some(DEFAULT_FEATURES), sep, flags);
      Scan(c1, s) == Scan(c2, s) && Count(c1, s) == Count(c2, s) && Options(c1, s) == Options(c2, s)
  {
    RunAgrees(Config(None, sep, flags), Config(Some(DEFAULT_FEATURES), sep, flags), INIT, Consumed(s));
  }

  /** sep NULL is the same as " \t;,". */
  lemma SeparatorsDefault(features: Option<seq<byte>>, flags: bv32, s: seq<byte>)
    requires NUL in s
    ensures var c1, c2 := Config(features, None, flags), Config(features, Some(DEFAULT_SEP), flags);
      Scan(c1, s) == Scan(c2, s) && Count(c1, s) == Count(c2, s) && Options(c1, s) == Options(c2, s)
  {
    RunAgrees(Config(features, None, flags), Config(features, Some(DEFAULT_SEP), flags), INIT, Consumed(s));
  }
}
