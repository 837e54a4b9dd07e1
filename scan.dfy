/** The scan of `_stropt_engine` as a pure function: the effect of one input
    byte on the machine (state, text buffer, slot cursor, slot writes, count),
    and the fold of that step over an input. The engine method is proved to
    compute exactly this; the lemmas here state what the source promises of it. */
module ScanSpec {
  import opened Bytes
  import opened Tables

  /** A `char *` the engine stores into `tags`/`args`: NULL, a position in the
      text buffer, or the static string "\n" written for ENDLINE. */
  datatype Ref = Null | At(offset: nat) | NewlineTag

  /** Everything the engine has done after some prefix of its input.
      `out` is what has been written to `buf` (its write cursor is |out|),
      `start` is `thistag`, `slot` is the common cursor of `tags` and `args`,
      `tw` and `aw` record the values written to each slot of `tags`/`args`,
      and `count` is `tagc`. */
  datatype Machine = Machine(state: State, out: seq<byte>, start: nat, slot: nat,
                             tw: map<nat, Ref>, aw: map<nat, Ref>, count: nat)

  /** Before the first byte: state SEP and every cursor at its origin. */
  const INIT: Machine := Machine(Sep, [], 0, 0, map[], map[], 0)

  // The seven actions, applied in the order of the source.

  function NewArgStep(m: Machine, a: Action): Machine {
    if Has(a, NEWARG) then m.(out := m.out + [NUL], tw := m.tw[m.slot := At(m.start)]) else m
  }

  function EndTagStep(m: Machine, a: Action): Machine {
    if Has(a, ENDTAG) then
      m.(out := m.out + [NUL], tw := m.tw[m.slot := At(m.start)], aw := m.aw[m.slot := Null],
         slot := m.slot + 1, start := |m.out| + 1)
    else m
  }

  function EndArgStep(m: Machine, a: Action): Machine {
    if Has(a, ENDARG) then
      m.(out := m.out + [NUL], aw := m.aw[m.slot := At(m.start)],
         slot := m.slot + 1, start := |m.out| + 1)
    else m
  }

  function NewTokenStep(m: Machine, a: Action): Machine {
    if Has(a, NEWTAG) || Has(a, NEWARG) then m.(start := |m.out|) else m
  }

  function CopyStep(m: Machine, a: Action, b: byte): Machine {
    if Has(a, CHCOPY) then m.(out := m.out + [b]) else m
  }

  function EndLineStep(m: Machine, a: Action): Machine {
    if Has(a, ENDLINE) then
      m.(tw := m.tw[m.slot := NewlineTag], aw := m.aw[m.slot := Null], slot := m.slot + 1)
    else m
  }

  function EosStep(m: Machine, a: Action): Machine {
    if Has(a, EOS) then m.(tw := m.tw[m.slot := Null], aw := m.aw[m.slot := Null]) else m
  }

  /** How much `tagc` grows for one action cell. */
  function Counted(a: Action): nat {
    (if Has(a, ENDTAG) || Has(a, ENDARG) then 1 else 0)
    + (if Has(a, ENDLINE) then 1 else 0)
    + (if Has(a, EOS) then 1 else 0)
  }

  /** The writes one action cell makes, in the source's order. */
  function Fill(m: Machine, a: Action, b: byte): Machine {
    EosStep(EndLineStep(CopyStep(NewTokenStep(EndArgStep(EndTagStep(NewArgStep(m, a), a), a), a), a, b), a), a)
  }

  /** One iteration of the engine's loop on input byte b. */
  function Step(cfg: Config, m: Machine, b: byte): Machine {
    var c := Classify(cfg, b);
    var a := ActionOf(cfg, m.state, c);
    Fill(m, a, b).(state := NextState(m.state, c), count := m.count + Counted(a))
  }

  /** Step, field by field. */
  lemma StepFields(cfg: Config, m: Machine, b: byte, c: Class, a: Action)
    requires c == Classify(cfg, b) && a == ActionOf(cfg, m.state, c)
    ensures var f := Fill(m, a, b); var n := Step(cfg, m, b);
      && n.out == f.out && n.start == f.start && n.slot == f.slot && n.tw == f.tw && n.aw == f.aw
      && n.state == NextState(m.state, c) && n.count == m.count + Counted(a)
  {
  }

  /** The machine after the bytes p, starting from m. */
  function Run(cfg: Config, m: Machine, p: seq<byte>): Machine
    decreases |p|
  {
    if p == [] then m else Step(cfg, Run(cfg, m, p[..|p| - 1]), p[|p| - 1])
  }

  function Exec(cfg: Config, p: seq<byte>): Machine {
    Run(cfg, INIT, p)
  }

  /** The bytes the engine reads from a NUL-terminated input: up to and
      including the first NUL. */
  function Consumed(s: seq<byte>): (p: seq<byte>)
    requires NUL in s
    ensures p == CStr(s) + [NUL] && p <= s
  {
    s[..|CStr(s)| + 1]
  }

  /** The whole run of the engine on input s. */
  function Scan(cfg: Config, s: seq<byte>): Machine
    requires NUL in s
  {
    Exec(cfg, Consumed(s))
  }

  /** The engine's return value. */
  function Count(cfg: Config, s: seq<byte>): nat
    requires NUL in s
  {
    Scan(cfg, s).count
  }

  // ---------------------------------------------------------------------
  // The step and the fold

  lemma RunSnoc(cfg: Config, m: Machine, p: seq<byte>, b: byte)
    ensures Run(cfg, m, p + [b]) == Step(cfg, Run(cfg, m, p), b)
  {
    assert (p + [b])[..|p|] == p;
  }

  /** A run, followed by one step whose result is known. */
  lemma RunThen(cfg: Config, m: Machine, p: seq<byte>, b: byte, m1: Machine, m2: Machine)
    requires Run(cfg, m, p) == m1 && Step(cfg, m1, b) == m2
    ensures Run(cfg, m, p + [b]) == m2
  {
    RunSnoc(cfg, m, p, b);
  }

  lemma {:induction false} RunAppend(cfg: Config, m: Machine, p: seq<byte>, q: seq<byte>)
    ensures Run(cfg, m, p + q) == Run(cfg, Run(cfg, m, p), q)
    decreases |q|
  {
    if q == [] {
      assert p + q == p;
    } else {
      var q' := q[..|q| - 1];
      var b := q[|q| - 1];
      assert q == q' + [b];
      assert p + q == (p + q') + [b];
      RunSnoc(cfg, m, p + q', b);
      RunAppend(cfg, m, p, q');
      RunSnoc(cfg, Run(cfg, m, p), q', b);
    }
  }

  /** The effect of one cell on the counters, the cursors and the slot writes,
      when the cell is well shaped (as every configured cell is). */
  lemma FillEffect(m: Machine, a: Action, b: byte)
    requires OneWrite(a)
    ensures var f := Fill(m, a, b);
      && f.slot == m.slot + (if Has(a, ENDTAG) || Has(a, ENDARG) then 1 else 0)
                          + (if Has(a, ENDLINE) then 1 else 0)
      && |f.out| == |m.out| + (if Has(a, NEWARG) || Has(a, ENDTAG) || Has(a, ENDARG) || Has(a, CHCOPY) then 1 else 0)
      && m.out <= f.out
      && (forall k :: k in f.tw ==> k in m.tw || m.slot <= k <= f.slot)
      && (forall k :: k in f.aw ==> k in m.aw || m.slot <= k <= f.slot)
      && (Has(a, EOS) ==> f.slot in f.tw && f.tw[f.slot] == Null && f.slot in f.aw && f.aw[f.slot] == Null)
      && (!Has(a, ENDTAG) && !Has(a, ENDARG) && !Has(a, ENDLINE) && !Has(a, EOS) ==> f.aw == m.aw)
      && (!Has(a, NEWARG) && !Has(a, ENDTAG) && !Has(a, ENDLINE) && !Has(a, EOS) ==> f.tw == m.tw)
      && (m.start <= |m.out| ==> f.start <= |f.out|)
  {
  }

  /** What holds after any NUL-free prefix: the machine is neither in END
      nor in the unreachable NL state, every slot advance was counted,
      the buffer holds at most one byte per input byte, and slots were
      written only at or below the cursor (args strictly below it). */
  ghost predicate Running(m: Machine, n: nat) {
    && m.state != End
    && m.state != Nl
    && m.count == m.slot
    && |m.out| <= n
    && m.start <= |m.out|
    && (forall k :: k in m.tw ==> k <= m.slot)
    && (forall k :: k in m.aw ==> k < m.slot)
  }

  /** One NUL-free byte keeps Running. */
  lemma RunningStep(cfg: Config, m: Machine, n: nat, b: byte)
    requires Running(m, n) && b != NUL
    ensures Running(Step(cfg, m, b), n + 1)
  {
    var c := Classify(cfg, b);
    var a := ActionOf(cfg, m.state, c);
    StepFields(cfg, m, b, c, a);
    ConfiguredWellShaped(cfg.flags, m.state, c);
    FillEffect(m, a, b);
    NextStateNeverNl(m.state, c);
    NextStateEnd(m.state, c);
  }

  lemma {:induction false} RunningInvariant(cfg: Config, p: seq<byte>)
    requires NulFree(p)
    ensures Running(Exec(cfg, p), |p|)
    decreases |p|
  {
    if p != [] {
      var p', b := p[..|p| - 1], p[|p| - 1];
      RunningInvariant(cfg, p');
      RunningStep(cfg, Exec(cfg, p'), |p'|, b);
    }
  }

  /** Every slot below the cursor has its tag (not NULL) and its argument. */
  ghost predicate SlotsBelow(m: Machine) {
    forall k :: 0 <= k < m.slot ==> k in m.tw && k in m.aw && m.tw[k] != Null
  }

  /** `thistag` and every recorded offset lie within the text written so far. */
  ghost predicate OffsetsWithin(m: Machine) {
    && m.start <= |m.out|
    && (forall k :: k in m.tw && m.tw[k].At? ==> m.tw[k].offset <= |m.out|)
    && (forall k :: k in m.aw && m.aw[k].At? ==> m.aw[k].offset <= |m.out|)
  }

  /** How the slots are filled: besides the two above, in an argument state
      the cursor's slot already has its tag, written by NEWARG. */
  ghost predicate SlotsFilled(m: Machine) {
    && SlotsBelow(m)
    && OffsetsWithin(m)
    && (ArgState(m.state) ==> m.slot in m.tw && m.tw[m.slot] != Null)
  }

  lemma SubStepsOffsets(m: Machine, a: Action, b: byte)
    requires OffsetsWithin(m)
    ensures OffsetsWithin(NewArgStep(m, a)) && OffsetsWithin(EndTagStep(m, a))
    ensures OffsetsWithin(EndArgStep(m, a)) && OffsetsWithin(NewTokenStep(m, a))
    ensures OffsetsWithin(CopyStep(m, a, b)) && OffsetsWithin(EndLineStep(m, a))
    ensures OffsetsWithin(EosStep(m, a))
  {
  }

  lemma FillOffsets(m: Machine, a: Action, b: byte)
    requires OffsetsWithin(m)
    ensures OffsetsWithin(Fill(m, a, b))
  {
    var m1 := NewArgStep(m, a);
    SubStepsOffsets(m, a, b);
    var m2 := EndTagStep(m1, a);
    SubStepsOffsets(m1, a, b);
    var m3 := EndArgStep(m2, a);
    SubStepsOffsets(m2, a, b);
    var m4 := NewTokenStep(m3, a);
    SubStepsOffsets(m3, a, b);
    var m5 := CopyStep(m4, a, b);
    SubStepsOffsets(m4, a, b);
    var m6 := EndLineStep(m5, a);
    SubStepsOffsets(m5, a, b);
    SubStepsOffsets(m6, a, b);
  }

  lemma SubStepsSlotsBelow(m: Machine, a: Action, b: byte)
    requires SlotsBelow(m)
    ensures SlotsBelow(NewArgStep(m, a)) && SlotsBelow(EndTagStep(m, a))
    ensures Has(a, ENDARG) ==> m.slot in m.tw && m.tw[m.slot] != Null ==> SlotsBelow(EndArgStep(m, a))
    ensures !Has(a, ENDARG) ==> SlotsBelow(EndArgStep(m, a))
    ensures SlotsBelow(NewTokenStep(m, a)) && SlotsBelow(CopyStep(m, a, b))
    ensures SlotsBelow(EndLineStep(m, a)) && SlotsBelow(EosStep(m, a))
  {
  }

  lemma FillSlotsBelow(m: Machine, a: Action, b: byte)
    requires SlotsBelow(m) && OneWrite(a)
    requires Has(a, ENDARG) ==> m.slot in m.tw && m.tw[m.slot] != Null
    ensures SlotsBelow(Fill(m, a, b))
  {
    var m1 := NewArgStep(m, a);
    SubStepsSlotsBelow(m, a, b);
    var m2 := EndTagStep(m1, a);
    SubStepsSlotsBelow(m1, a, b);
    assert Has(a, ENDARG) ==> m2 == m;
    var m3 := EndArgStep(m2, a);
    SubStepsSlotsBelow(m2, a, b);
    var m4 := NewTokenStep(m3, a);
    SubStepsSlotsBelow(m3, a, b);
    var m5 := CopyStep(m4, a, b);
    SubStepsSlotsBelow(m4, a, b);
    var m6 := EndLineStep(m5, a);
    SubStepsSlotsBelow(m5, a, b);
    SubStepsSlotsBelow(m6, a, b);
  }

  lemma SlotsFilledStep(cfg: Config, m: Machine, b: byte)
    requires SlotsFilled(m)
    ensures SlotsFilled(Step(cfg, m, b))
  {
    var c := Classify(cfg, b);
    var a := ActionOf(cfg, m.state, c);
    ConfiguredWellShaped(cfg.flags, m.state, c);
    EndArgOnlyInArgStates(cfg.flags, m.state, c);
    StepFields(cfg, m, b, c, a);
    FillOffsets(m, a, b);
    FillSlotsBelow(m, a, b);
    if ArgState(NextState(m.state, c)) {
      if ArgState(m.state) {
        ArgStatesSlots(cfg.flags, m.state, c);
      } else {
        ArgStatesEntry(m.state, c);
        NewArgOnlyAtMarker(cfg.flags, m.state, c);
      }
      FillEffect(m, a, b);
    }
  }

  lemma {:induction false} SlotsFilledInvariant(cfg: Config, p: seq<byte>)
    ensures SlotsFilled(Exec(cfg, p))
    decreases |p|
  {
    if p != [] {
      var p' := p[..|p| - 1];
      SlotsFilledInvariant(cfg, p');
      SlotsFilledStep(cfg, Exec(cfg, p'), p[|p| - 1]);
    }
  }

  // ---------------------------------------------------------------------
  // Every recorded token is a C string of the buffer.

  /** Offset o of out starts a C string that ends inside out. */
  ghost predicate NulFrom(out: seq<byte>, o: nat) {
    o < |out| && NUL in out[o..]
  }

  ghost predicate RefsTerminated(w: map<nat, Ref>, out: seq<byte>) {
    forall k :: k in w && w[k].At? ==> NulFrom(out, w[k].offset)
  }

  /** Each offset written to a slot of `tags` or `args` is followed, in the
      text written so far, by the NUL that ends its token. */
  ghost predicate Terminated(m: Machine) {
    RefsTerminated(m.tw, m.out) && RefsTerminated(m.aw, m.out)
  }

  lemma RefsGrow(w: map<nat, Ref>, out: seq<byte>, x: seq<byte>)
    requires RefsTerminated(w, out)
    ensures RefsTerminated(w, out + x)
  {
    forall k | k in w && w[k].At?
      ensures NulFrom(out + x, w[k].offset)
    {
      assert (out + x)[w[k].offset..] == out[w[k].offset..] + x;
    }
  }

  /** Recording a token that starts at o when its NUL is written. */
  lemma RefsClose(w: map<nat, Ref>, out: seq<byte>, k: nat, o: nat)
    requires RefsTerminated(w, out) && o <= |out|
    ensures RefsTerminated(w[k := At(o)], out + [NUL])
  {
    RefsGrow(w, out, [NUL]);
    assert (out + [NUL])[o..][|out| - o] == NUL;
  }

  lemma SubStepsTerminated(m: Machine, a: Action, b: byte)
    requires Terminated(m) && m.start <= |m.out|
    ensures Terminated(NewArgStep(m, a)) && Terminated(EndTagStep(m, a))
    ensures Terminated(EndArgStep(m, a)) && Terminated(NewTokenStep(m, a))
    ensures Terminated(CopyStep(m, a, b)) && Terminated(EndLineStep(m, a))
    ensures Terminated(EosStep(m, a))
  {
    RefsClose(m.tw, m.out, m.slot, m.start);
    RefsClose(m.aw, m.out, m.slot, m.start);
    RefsGrow(m.tw, m.out, [NUL]);
    RefsGrow(m.aw, m.out, [NUL]);
    RefsGrow(m.tw, m.out, [b]);
    RefsGrow(m.aw, m.out, [b]);
  }

  lemma FillTerminated(m: Machine, a: Action, b: byte)
    requires Terminated(m) && OffsetsWithin(m)
    ensures Terminated(Fill(m, a, b))
  {
    var m1 := NewArgStep(m, a);
    SubStepsTerminated(m, a, b);
    SubStepsOffsets(m, a, b);
    var m2 := EndTagStep(m1, a);
    SubStepsTerminated(m1, a, b);
    SubStepsOffsets(m1, a, b);
    var m3 := EndArgStep(m2, a);
    SubStepsTerminated(m2, a, b);
    SubStepsOffsets(m2, a, b);
    var m4 := NewTokenStep(m3, a);
    SubStepsTerminated(m3, a, b);
    SubStepsOffsets(m3, a, b);
    var m5 := CopyStep(m4, a, b);
    SubStepsTerminated(m4, a, b);
    SubStepsOffsets(m4, a, b);
    var m6 := EndLineStep(m5, a);
    SubStepsTerminated(m5, a, b);
    SubStepsOffsets(m5, a, b);
    SubStepsTerminated(m6, a, b);
  }

  lemma {:induction false} TerminatedInvariant(cfg: Config, p: seq<byte>)
    ensures Terminated(Exec(cfg, p))
    decreases |p|
  {
    if p != [] {
      var p' := p[..|p| - 1];
      var m := Exec(cfg, p');
      TerminatedInvariant(cfg, p');
      SlotsFilledInvariant(cfg, p');
      var c := Classify(cfg, p[|p| - 1]);
      var a := ActionOf(cfg, m.state, c);
      StepFields(cfg, m, p[|p| - 1], c, a);
      FillTerminated(m, a, p[|p| - 1]);
    }
  }

  /** The run through the NUL: it ends in END, the return value is the slot
      cursor plus one, and the (NULL, NULL) sentinel sits in that last slot. */
  ghost predicate Finished(m: Machine, n: nat) {
    && m.state == End
    && m.count == m.slot + 1
    && m.slot in m.tw && m.tw[m.slot] == Null
    && m.slot in m.aw && m.aw[m.slot] == Null
    && (forall k :: k in m.tw ==> k <= m.slot)
    && (forall k :: k in m.aw ==> k <= m.slot)
    && |m.out| <= n
  }

  lemma FinishedAtNul(cfg: Config, p: seq<byte>)
    requires NulFree(p)
    ensures Finished(Exec(cfg, p + [NUL]), |p| + 1)
  {
    RunningInvariant(cfg, p);
    RunSnoc(cfg, INIT, p, NUL);
    var m := Exec(cfg, p);
    var c := Classify(cfg, NUL);
    var a := ActionOf(cfg, m.state, c);
    ConfiguredWellShaped(cfg.flags, m.state, c);
    FillEffect(m, a, NUL);
    NextStateEnd(m.state, c);
  }

  /** Termination and the count formula: the scan of any NUL-terminated
      input stops at its first NUL with slot cursor count - 1, and
      the sentinel in that slot; the return value is at least 1. */
  lemma ScanFinishes(cfg: Config, s: seq<byte>)
    requires NUL in s
    ensures Finished(Scan(cfg, s), |CStr(s)| + 1)
    ensures Count(cfg, s) >= 1
  {
    FinishedAtNul(cfg, CStr(s));
  }

  /** One step never moves the slot cursor back. */
  lemma StepSlot(cfg: Config, m: Machine, b: byte)
    ensures m.slot <= Step(cfg, m, b).slot
  {
    var c := Classify(cfg, b);
    var a := ActionOf(cfg, m.state, c);
    StepFields(cfg, m, b, c, a);
  }

  /** The slot cursor only moves forward. */
  lemma {:induction false} SlotMonotone(cfg: Config, p: seq<byte>, j: nat)
    requires j <= |p|
    ensures Exec(cfg, p[..j]).slot <= Exec(cfg, p).slot
    decreases |p| - j
  {
    if j < |p| {
      SlotMonotone(cfg, p, j + 1);
      assert p[..j + 1] == p[..j] + [p[j]];
      RunSnoc(cfg, INIT, p[..j], p[j]);
      StepSlot(cfg, Exec(cfg, p[..j]), p[j]);
    } else {
      assert p[..j] == p;
    }
  }

  /** Before byte i of the consumed prefix the machine is running. */
  lemma PrefixRunning(cfg: Config, s: seq<byte>, i: nat)
    requires NUL in s && i <= |CStr(s)|
    ensures Running(Exec(cfg, Consumed(s)[..i]), i)
  {
    var P := Consumed(s);
    assert P[..i] == CStr(s)[..i];
    RunningInvariant(cfg, CStr(s)[..i]);
  }

  /** The fold over a prefix one byte longer is one step further. */
  lemma ExecPrefix(cfg: Config, p: seq<byte>, i: nat)
    requires i < |p|
    ensures Exec(cfg, p[..i + 1]) == Step(cfg, Exec(cfg, p[..i]), p[i])
  {
    assert p[..i + 1] == p[..i] + [p[i]];
    RunSnoc(cfg, INIT, p[..i], p[i]);
  }

  /** No step of the scan moves the slot cursor past the last slot. */
  lemma PrefixSlot(cfg: Config, s: seq<byte>, i: nat)
    requires NUL in s && i <= |CStr(s)|
    ensures Exec(cfg, Consumed(s)[..i + 1]).slot < Count(cfg, s)
  {
    var P := Consumed(s);
    ScanFinishes(cfg, s);
    SlotMonotone(cfg, P, i + 1);
    assert P[..|P|] == P;
  }

  /** One iteration of the engine on input s, seen from the fold: before
      byte i of the consumed prefix the machine is running, the byte's step
      is the fold one byte further, and it writes no slot past the last. */
  lemma ScanStep(cfg: Config, s: seq<byte>, i: nat)
    requires NUL in s && i <= |CStr(s)|
    ensures var P := Consumed(s);
      var m := Exec(cfg, P[..i]);
      && i < |s| && P[i] == s[i]
      && Running(m, i)
      && Exec(cfg, P[..i + 1]) == Step(cfg, m, s[i])
      && Step(cfg, m, s[i]).slot < Count(cfg, s)
      && (s[i] == NUL <==> i == |CStr(s)|)
  {
    PrefixRunning(cfg, s, i);
    ExecPrefix(cfg, Consumed(s), i);
    PrefixSlot(cfg, s, i);
  }
}
