/** Plain option lists: fields with text tags and text arguments, joined by
    one separator. Scanning such a list gives back exactly its fields, one
    slot each, and `stropt2buf` with the same separator and `=` rebuilds
    the list from the arrays the scan leaves. */
module RoundTrip {
  import opened Bytes
  import opened Tables
  import opened ScanSpec
  import opened Serialize
  import opened Views
  import opened Tokens

  /** An option as the caller reads it: its tag and its argument. */
  type Opt = (CText, Arg)

  /** A field with a non-empty text tag and a text argument, if any. */
  predicate Plain(cfg: Config, f: Opt) {
    |f.0| > 0 && Word(cfg, f.0) && (f.1.Some? ==> Word(cfg, f.1.value))
  }

  predicate AllPlain(cfg: Config, fs: seq<Opt>) {
    forall k :: 0 <= k < |fs| ==> Plain(cfg, fs[k])
  }

  /** Each option printed as `stropt2buf` prints a kept slot. */
  function Printed(fs: seq<Opt>, eq: byte): (ps: seq<seq<byte>>)
    ensures |ps| == |fs|
  {
    seq(|fs|, k requires 0 <= k < |fs| => Field(fs[k].0, fs[k].1, eq))
  }

  /** The option string of fs: the printed options joined by sep. */
  function OptionString(fs: seq<Opt>, sep: byte, eq: byte): seq<byte> {
    Join(Printed(fs, eq), sep)
  }

  /** The printed options, each followed by sep. */
  function Written(fs: seq<Opt>, sep: byte, eq: byte): seq<byte>
    decreases |fs|
  {
    if fs == [] then []
    else Written(fs[..|fs| - 1], sep, eq) + Field(fs[|fs| - 1].0, fs[|fs| - 1].1, eq) + [sep]
  }

  // ---------------------------------------------------------------------
  // The scan of a plain option list.

  /** The machine after one option and its separator. */
  function Slot(m: Machine, f: Opt): Machine {
    match f.1
    case None => TagSlot(m, f.0)
    case Some(v) => OptionSlot(m, f.0, v)
  }

  /** The machine after the options fs, each followed by a separator. */
  function Through(fs: seq<Opt>): Machine
    decreases |fs|
  {
    if fs == [] then INIT else Slot(Through(fs[..|fs| - 1]), fs[|fs| - 1])
  }

  /** One option and a separator at a boundary fill one slot. */
  lemma SlotRun(cfg: Config, m: Machine, f: Opt, sep: byte, eq: byte)
    requires Boundary(m) && Plain(cfg, f)
    requires Classify(cfg, eq) == ArgMarker && Classify(cfg, sep) == Separator
    ensures Run(cfg, m, Field(f.0, f.1, eq) + [sep]) == Slot(m, f)
    ensures Boundary(Slot(m, f))
  {
    match f.1
    case None =>
      TagField(cfg, m, f.0, sep);
    case Some(v) =>
      ClassifyTerminator(cfg, eq);
      assert Field(f.0, f.1, eq) + [sep] == f.0 + [eq] + v + [sep];
      OptionField(cfg, m, f.0, eq, v, sep);
  }

  /** The last option and the NUL fill its slot and the sentinel. */
  lemma LastSlotRun(cfg: Config, m: Machine, f: Opt, eq: byte)
    requires Boundary(m) && Plain(cfg, f) && Classify(cfg, eq) == ArgMarker
    ensures Run(cfg, m, Field(f.0, f.1, eq) + [NUL]) == Sentinel(Slot(m, f))
  {
    match f.1
    case None =>
      LastTag(cfg, m, f.0);
    case Some(v) =>
      ClassifyTerminator(cfg, eq);
      assert Field(f.0, f.1, eq) + [NUL] == f.0 + [eq] + v + [NUL];
      LastOption(cfg, m, f.0, eq, v);
  }

  lemma PlainPrefix(cfg: Config, fs: seq<Opt>, n: nat)
    requires AllPlain(cfg, fs) && n <= |fs|
    ensures AllPlain(cfg, fs[..n])
  {
    forall k | 0 <= k < n ensures Plain(cfg, fs[..n][k]) {
      assert fs[..n][k] == fs[k];
    }
  }

  lemma WrittenSnoc(fs: seq<Opt>, sep: byte, eq: byte)
    requires fs != []
    ensures Written(fs, sep, eq) ==
      Written(fs[..|fs| - 1], sep, eq) + (Field(fs[|fs| - 1].0, fs[|fs| - 1].1, eq) + [sep])
  {
  }

  /** Options each followed by a separator, from the start. */
  lemma {:induction false} WrittenRun(cfg: Config, fs: seq<Opt>, sep: byte, eq: byte)
    requires AllPlain(cfg, fs)
    requires Classify(cfg, eq) == ArgMarker && Classify(cfg, sep) == Separator
    ensures Run(cfg, INIT, Written(fs, sep, eq)) == Through(fs)
    ensures Boundary(Through(fs))
    decreases |fs|
  {
    if fs != [] {
      var fs', f := fs[..|fs| - 1], fs[|fs| - 1];
      PlainPrefix(cfg, fs, |fs| - 1);
      WrittenRun(cfg, fs', sep, eq);
      SlotRun(cfg, Through(fs'), f, sep, eq);
      RunAppend(cfg, INIT, Written(fs', sep, eq), Field(f.0, f.1, eq) + [sep]);
      WrittenSnoc(fs, sep, eq);
    }
  }

  /** Printing one more option appends its field. */
  lemma PrintedSnoc(fs: seq<Opt>, eq: byte)
    requires fs != []
    ensures Printed(fs, eq) == Printed(fs[..|fs| - 1], eq) + [Field(fs[|fs| - 1].0, fs[|fs| - 1].1, eq)]
  {
  }

  /** The option string is the options before the last, each followed by
      the separator, then the last option. */
  lemma {:induction false} JoinWritten(fs: seq<Opt>, sep: byte, eq: byte)
    requires fs != [] && sep != NUL
    ensures OptionString(fs, sep, eq) ==
      Written(fs[..|fs| - 1], sep, eq) + Field(fs[|fs| - 1].0, fs[|fs| - 1].1, eq)
    decreases |fs|
  {
    var fs' := fs[..|fs| - 1];
    var p := Field(fs[|fs| - 1].0, fs[|fs| - 1].1, eq);
    PrintedSnoc(fs, eq);
    JoinSnoc(Printed(fs', eq), p, sep);
    if fs' != [] {
      var w := Written(fs'[..|fs'| - 1], sep, eq);
      var q := Field(fs'[|fs'| - 1].0, fs'[|fs'| - 1].1, eq);
      JoinWritten(fs', sep, eq);
      assert OptionString(fs, sep, eq) == w + q + [sep] + p;
      assert Written(fs', sep, eq) == w + q + [sep];
    }
  }

  /** Printed options hold no NUL when `=` is not NUL. */
  lemma {:induction false} PrintedNulFree(fs: seq<Opt>, sep: byte, eq: byte)
    requires sep != NUL && eq != NUL
    ensures NulFree(OptionString(fs, sep, eq))
    decreases |fs|
  {
    var ps := Printed(fs, eq);
    if |fs| > 1 {
      PrintedNulFree(fs[..|fs| - 1], sep, eq);
      assert ps[..|ps| - 1] == Printed(fs[..|fs| - 1], eq);
    }
  }

  /** A plain option list with its NUL is consumed whole, and splits into
      the options before the last, each with its separator, then the last
      option and the NUL. */
  lemma ListInput(fs: seq<Opt>, sep: byte, eq: byte)
    requires fs != [] && sep != NUL && eq != NUL
    ensures var s := OptionString(fs, sep, eq) + [NUL];
      && Consumed(s) == s
      && s == Written(fs[..|fs| - 1], sep, eq) + (Field(fs[|fs| - 1].0, fs[|fs| - 1].1, eq) + [NUL])
  {
    var o := OptionString(fs, sep, eq);
    JoinWritten(fs, sep, eq);
    PrintedNulFree(fs, sep, eq);
    ConsumedAll(o);
    Reassociate(Written(fs[..|fs| - 1], sep, eq), Field(fs[|fs| - 1].0, fs[|fs| - 1].1, eq), [NUL]);
  }

  /** The whole scan of a plain option list: a slot per option, then the
      sentinel. */
  lemma ScanList(cfg: Config, fs: seq<Opt>, sep: byte, eq: byte)
    requires fs != [] && AllPlain(cfg, fs)
    requires Classify(cfg, eq) == ArgMarker && Classify(cfg, sep) == Separator
    ensures Scan(cfg, OptionString(fs, sep, eq) + [NUL]) == Sentinel(Through(fs))
  {
    var fs', f := fs[..|fs| - 1], fs[|fs| - 1];
    ClassifyTerminator(cfg, eq);
    ClassifyTerminator(cfg, sep);
    ListInput(fs, sep, eq);
    PlainPrefix(cfg, fs, |fs| - 1);
    WrittenRun(cfg, fs', sep, eq);
    LastSlotRun(cfg, Through(fs'), f, eq);
    RunAppend(cfg, INIT, Written(fs', sep, eq), Field(f.0, f.1, eq) + [NUL]);
  }

  // ---------------------------------------------------------------------
  // Reading the slots back.

  /** A NUL-free text with a NUL appended is consumed whole. */
  lemma ConsumedAll(x: seq<byte>)
    requires NulFree(x)
    ensures Consumed(x + [NUL]) == x + [NUL]
  {
    var s := x + [NUL];
    assert s[..|x|] == x;
    CStrUpTo(s, |x|);
  }

  lemma Reassociate(a: seq<byte>, b: seq<byte>, c: seq<byte>)
    ensures a + b + c == a + (b + c)
  {
  }

  /** Entry r reads as the text t: the C string at its offset of out,
      ending inside out, or the constant "\n" of a newline tag. */
  ghost predicate Denotes(out: seq<byte>, r: Ref, t: seq<byte>) {
    || (r.At? && NulFrom(out, r.offset) && CStr(out[r.offset..]) == t)
    || (r == NewlineTag && t == [NEWLINE])
  }

  /** Slot k of m holds option f. */
  ghost predicate SlotHolds(m: Machine, k: nat, f: Opt) {
    && k in m.tw && k in m.aw
    && Denotes(m.out, m.tw[k], f.0)
    && (match f.1
        case None => m.aw[k] == Null
        case Some(v) => Denotes(m.out, m.aw[k], v))
  }

  /** Slots 0 to |fs|-1 of m hold the options fs, and the slot cursor and
      the count are past them. */
  ghost predicate Records(m: Machine, fs: seq<Opt>) {
    && m.slot == |fs| && m.count == |fs|
    && forall k :: 0 <= k < |fs| ==> SlotHolds(m, k, fs[k])
  }

  /** Text t followed by a NUL at offset o. */
  lemma ReadToken(out: seq<byte>, o: nat, t: seq<byte>)
    requires o + |t| < |out| && out[o..o + |t|] == t && NulFree(t) && out[o + |t|] == NUL
    ensures Denotes(out, At(o), t)
  {
    assert out[o..][..|t|] == t;
    assert out[o..][|t|] == NUL;
    CStrUpTo(out[o..], |t|);
  }

  /** Writing more text keeps every recorded token. */
  lemma DenotesExtended(out: seq<byte>, out': seq<byte>, r: Ref, t: seq<byte>)
    requires Denotes(out, r, t) && out <= out'
    ensures Denotes(out', r, t)
  {
    if r.At? {
      var o := r.offset;
      var i :| 0 <= i < |out[o..]| && out[o..][i] == NUL;
      assert out'[o..][i] == NUL;
      CStrExtended(out, out', o);
    }
  }

  lemma SlotHoldsExtended(m: Machine, m': Machine, k: nat, f: Opt)
    requires SlotHolds(m, k, f)
    requires m.out <= m'.out && k in m'.tw && k in m'.aw && m'.tw[k] == m.tw[k] && m'.aw[k] == m.aw[k]
    ensures SlotHolds(m', k, f)
  {
    DenotesExtended(m.out, m'.out, m.tw[k], f.0);
    if f.1.Some? {
      DenotesExtended(m.out, m'.out, m.aw[k], f.1.value);
    }
  }

  /** Slots below |fs| keep their options when a step leaves their entries
      alone and only appends text. */
  lemma SlotsKept(m: Machine, m': Machine, fs: seq<Opt>)
    requires m.out <= m'.out
    requires forall k :: 0 <= k < |fs| ==>
      SlotHolds(m, k, fs[k]) && k in m'.tw && k in m'.aw && m'.tw[k] == m.tw[k] && m'.aw[k] == m.aw[k]
    ensures forall k :: 0 <= k < |fs| ==> SlotHolds(m', k, fs[k])
  {
    forall k | 0 <= k < |fs|
      ensures SlotHolds(m', k, fs[k])
    {
      SlotHoldsExtended(m, m', k, fs[k]);
    }
  }

  /** A token t written at the end of x, then its NUL, then anything. */
  lemma TokenAt(x: seq<byte>, t: seq<byte>, y: seq<byte>)
    requires NulFree(t)
    ensures Denotes(x + t + [NUL] + y, At(|x|), t)
  {
    var out := x + t + [NUL] + y;
    assert out[|x|..|x| + |t|] == t && out[|x| + |t|] == NUL;
    ReadToken(out, |x|, t);
  }

  /** m' follows m by one slot holding f: the text written so far stays,
      the cursor and the count move on by one, every other slot is as it
      was, and m' is at a boundary. */
  ghost predicate Advances(m: Machine, m': Machine, f: Opt) {
    && m.out <= m'.out && m'.slot == m.slot + 1 && m'.count == m.count + 1 && Boundary(m')
    && (forall k :: k != m.slot && k in m.tw ==> k in m'.tw && m'.tw[k] == m.tw[k])
    && (forall k :: k != m.slot && k in m.aw ==> k in m'.aw && m'.aw[k] == m.aw[k])
    && SlotHolds(m', m.slot, f)
  }

  /** The slot a tag fills holds it, with no argument. */
  lemma TagSlotHolds(m: Machine, t: CText)
    ensures SlotHolds(TagSlot(m, t), m.slot, (t, None))
  {
    var m' := TagSlot(m, t);
    assert m'.tw[m.slot] == At(|m.out|) && m'.aw[m.slot] == Null;
    assert m'.out == m.out + t + [NUL] + [];
    TokenAt(m.out, t, []);
  }

  /** The slot `t=v` fills holds both. */
  lemma OptionSlotHolds(m: Machine, t: CText, v: CText)
    ensures SlotHolds(OptionSlot(m, t, v), m.slot, (t, Some(v)))
  {
    var m' := OptionSlot(m, t, v);
    assert m'.tw[m.slot] == At(|m.out|) && m'.aw[m.slot] == At(|m.out + t + [NUL]|);
    assert m'.out == m.out + t + [NUL] + (v + [NUL]);
    TokenAt(m.out, t, v + [NUL]);
    assert m'.out == m.out + t + [NUL] + v + [NUL] + [];
    TokenAt(m.out + t + [NUL], v, []);
  }

  lemma TagAdvances(m: Machine, t: CText)
    requires Boundary(m)
    ensures Advances(m, TagSlot(m, t), (t, None))
  {
    TagSlotHolds(m, t);
  }

  lemma OptionAdvances(m: Machine, t: CText, v: CText)
    requires Boundary(m)
    ensures Advances(m, OptionSlot(m, t, v), (t, Some(v)))
  {
    OptionSlotHolds(m, t, v);
    assert m.out <= OptionSlot(m, t, v).out;
  }

  /** The slot a newline tag fills holds ("\n", NULL). */
  lemma NewlineAdvances(m: Machine)
    requires Boundary(m)
    ensures Advances(m, NewlineSlot(m), ([NEWLINE], None))
  {
  }

  lemma SlotAdvances(m: Machine, f: Opt)
    requires Boundary(m)
    ensures Advances(m, Slot(m, f), f)
  {
    match f.1
    case None => TagAdvances(m, f.0);
    case Some(v) => OptionAdvances(m, f.0, v);
  }

  /** Recording one more option: when m records all of fs but its last and
      m' follows m by a slot holding the last, m' records all of fs. */
  lemma Extend(m: Machine, m': Machine, fs: seq<Opt>)
    requires fs != [] && Records(m, fs[..|fs| - 1]) && Advances(m, m', fs[|fs| - 1])
    ensures Records(m', fs)
  {
    var fs' := fs[..|fs| - 1];
    SlotsKept(m, m', fs');
    forall k | 0 <= k < |fs|
      ensures SlotHolds(m', k, fs[k])
    {
      if k < |fs'| {
        assert fs'[k] == fs[k];
      }
    }
  }

  /** One more option recorded at a boundary. */
  lemma SlotRecords(m: Machine, fs: seq<Opt>)
    requires fs != [] && Boundary(m) && Records(m, fs[..|fs| - 1])
    ensures Records(Slot(m, fs[|fs| - 1]), fs) && Boundary(Slot(m, fs[|fs| - 1]))
  {
    SlotAdvances(m, fs[|fs| - 1]);
    Extend(m, Slot(m, fs[|fs| - 1]), fs);
  }

  /** The options so far are all recorded, and the machine is at a boundary. */
  lemma {:induction false} ThroughRecords(fs: seq<Opt>)
    ensures Records(Through(fs), fs) && Boundary(Through(fs))
    decreases |fs|
  {
    if fs != [] {
      ThroughRecords(fs[..|fs| - 1]);
      SlotRecords(Through(fs[..|fs| - 1]), fs);
    }
  }

  /** Slot k of the sentinel machine after the recorded options fs reads
      as fs[k]. */
  lemma SentinelSlot(m: Machine, m0: Machine, fs: seq<Opt>, k: nat)
    requires m == Sentinel(m0) && Records(m0, fs) && Closed(m) && k < |fs|
    ensures k < m.count
    ensures TagsOf(m)[k] == TagText(fs[k].0) && ArgsOf(m)[k] == fs[k].1
  {
    assert SlotHolds(m0, k, fs[k]);
  }

  /** When a scan ends in the sentinel after the recorded options fs, the
      caller reads exactly fs and `stropt` returns |fs| + 1. */
  lemma ReadBack(cfg: Config, s: seq<byte>, fs: seq<Opt>, m0: Machine)
    requires NUL in s && Records(m0, fs) && Scan(cfg, s) == Sentinel(m0)
    ensures Count(cfg, s) == |fs| + 1
    ensures Options(cfg, s) == fs
    ensures forall k :: 0 <= k < |fs| ==> ScanTags(cfg, s)[k] == TagText(fs[k].0) && ScanArgs(cfg, s)[k] == fs[k].1
  {
    ScanClosed(cfg, s);
    var t := ScanTags(cfg, s);
    var a := ScanArgs(cfg, s);
    forall k | 0 <= k < |fs|
      ensures t[k] == TagText(fs[k].0) && a[k] == fs[k].1
    {
      SentinelSlot(Scan(cfg, s), m0, fs, k);
    }
    assert Options(cfg, s) == fs;
  }

  /** `stropt2buf` over the arrays of a scan that ended after the slots of
      fs prints fs joined by sep. */
  lemma RebuiltBack(cfg: Config, s: seq<byte>, fs: seq<Opt>, m0: Machine, sep: byte, eq: byte)
    requires NUL in s && Records(m0, fs) && Scan(cfg, s) == Sentinel(m0)
    ensures Rebuilt(ScanTags(cfg, s), ScanArgs(cfg, s), sep, eq) ==
      OptionString(fs, sep, eq) + (if sep == NEWLINE && fs != [] then [NEWLINE] else [])
  {
    ReadBack(cfg, s, fs, m0);
    var t := ScanTags(cfg, s);
    var a := ScanArgs(cfg, s);
    assert TagCount(t) == |fs|;
    FieldsOfTexts(t[..|fs|], a, fs, eq);
  }

  /** The printed slots of tags holding the options fs, in order. */
  lemma {:induction false} FieldsOfTexts(tags: seq<Tag>, args: seq<Arg>, fs: seq<Opt>, eq: byte)
    requires |tags| == |fs| <= |args|
    requires forall k :: 0 <= k < |fs| ==> tags[k] == TagText(fs[k].0) && args[k] == fs[k].1
    ensures EndOfTags !in tags
    ensures Fields(tags, args, eq) == Printed(fs, eq)
    decreases |fs|
  {
    if fs != [] {
      var n := |fs| - 1;
      FieldsOfTexts(tags[..n], args, fs[..n], eq);
      assert Printed(fs, eq) == Printed(fs[..n], eq) + [Field(fs[n].0, fs[n].1, eq)];
    }
  }

  /** Scanning a plain option list gives back its options, one slot each,
      and rebuilding the arrays with the same separator and `=` gives back
      the list (plus the newline `stropt2buf` adds after a newline
      separator). The list is not empty: the empty string scans to no
      option by default, but to one empty tag under
      STROPTX_ALLOW_MULTIPLE_SEP (Behaviours.EmptyInput). */
  lemma OptionListRoundTrip(cfg: Config, fs: seq<Opt>, sep: byte, eq: byte)
    requires fs != [] && AllPlain(cfg, fs)
    requires Classify(cfg, eq) == ArgMarker && Classify(cfg, sep) == Separator
    ensures var s := OptionString(fs, sep, eq) + [NUL];
      && Count(cfg, s) == |fs| + 1
      && Options(cfg, s) == fs
      && Rebuilt(ScanTags(cfg, s), ScanArgs(cfg, s), sep, eq) ==
           OptionString(fs, sep, eq) + (if sep == NEWLINE then [NEWLINE] else [])
  {
    var s := OptionString(fs, sep, eq) + [NUL];
    ScanList(cfg, fs, sep, eq);
    ThroughRecords(fs);
    ReadBack(cfg, s, fs, Through(fs));
    RebuiltBack(cfg, s, fs, Through(fs), sep, eq);
  }
}
