/** `_stropt_engine` and `stropt` (stropt.c): the table-driven scan over a
    NUL-terminated input, writing token text to `buf` and slot entries to
    `tags`/`args`, or only counting when `tags` is NULL. */
module Engine {
  import opened Bytes
  import opened Tables
  import opened ScanSpec

  /** The entry of an output array at index k after a run that recorded the
      writes w: the last value written there, or what the caller left. */
  function SlotValue(w: map<nat, Ref>, k: nat, before: Ref): Ref {
    if k in w then w[k] else before
  }

  /** `charmap` holds the class of every byte under cfg. */
  predicate CharmapFor(charmap: array<Class>, cfg: Config)
    reads charmap
  {
    charmap.Length == 256 &&
    forall b: byte :: charmap[b as int] == Classify(cfg, b)
  }

  /** `action` is the configured action table of cfg. */
  predicate ActionFor(action: array2<Action>, cfg: Config)
    reads action
  {
    action.Length0 == NSTATES && action.Length1 == NCLASSES &&
    forall s: State, c: Class :: action[StateIndex(s), ClassIndex(c)] == ActionOf(cfg, s, c)
  }

  /** The arrays hold what machine m wrote: `buf` holds m.out and its
      old contents buf0 beyond it, and each slot of `tags`/`args` holds the
      last value m wrote there or its old value. */
  ghost predicate Holds(m: Machine, buf: array<byte>, tags: array<Ref>, args: array<Ref>,
                        buf0: seq<byte>, tags0: seq<Ref>, args0: seq<Ref>)
    reads buf, tags, args
  {
    && |buf0| == buf.Length && |tags0| == tags.Length && |args0| == args.Length
    && |m.out| <= buf.Length && buf[..|m.out|] == m.out && buf[|m.out|..] == buf0[|m.out|..]
    && (forall k :: 0 <= k < tags.Length ==> tags[k] == SlotValue(m.tw, k, tags0[k]))
    && (forall k :: 0 <= k < args.Length ==> args[k] == SlotValue(m.aw, k, args0[k]))
  }

  /** Holds, with the engine's cursors equal to m's. */
  ghost predicate Mirrors(m: Machine, buf: array<byte>, tags: array<Ref>, args: array<Ref>,
                          w: nat, thistag: nat, slot: nat,
                          buf0: seq<byte>, tags0: seq<Ref>, args0: seq<Ref>)
    reads buf, tags, args
  {
    && w == |m.out| && thistag == m.start && slot == m.slot
    && Holds(m, buf, tags, args, buf0, tags0, args0)
  }

  /** The part of the buffer past w that still holds its old contents keeps
      holding them past w + 1. */
  lemma TailAfter(cur: seq<byte>, buf0: seq<byte>, w: nat)
    requires w < |cur| == |buf0| && cur[w..] == buf0[w..]
    ensures cur[w + 1..] == buf0[w + 1..]
  {
    assert cur[w + 1..] == cur[w..][1..];
    assert buf0[w + 1..] == buf0[w..][1..];
  }

  // The seven actions of one step on the arrays, each against its step function.

  method DoNewArg(buf: array<byte>, tags: array<Ref>, args: array<Ref>, a: Action,
                  w: nat, thistag: nat, slot: nat, ghost m: Machine,
                  ghost buf0: seq<byte>, ghost tags0: seq<Ref>, ghost args0: seq<Ref>)
    returns (w': nat, thistag': nat, slot': nat)
    requires tags != args
    requires Mirrors(m, buf, tags, args, w, thistag, slot, buf0, tags0, args0)
    requires Has(a, NEWARG) ==> |m.out| < buf.Length && m.slot < tags.Length
    modifies buf, tags
    ensures Mirrors(NewArgStep(m, a), buf, tags, args, w', thistag', slot', buf0, tags0, args0)
    ensures !Has(a, NEWARG) ==> unchanged(buf)
  {
    w', thistag', slot' := w, thistag, slot;
    if Has(a, NEWARG) {
      TailAfter(buf[..], buf0, w);
      buf[w'] := NUL; w' := w' + 1;
      tags[slot'] := At(thistag');
      assert buf[..w'] == buf[..w] + [NUL];
      assert buf[w'..] == old(buf[w'..]);
    }
  }

  method DoEndTag(buf: array<byte>, tags: array<Ref>, args: array<Ref>, a: Action,
                  w: nat, thistag: nat, slot: nat, ghost m: Machine,
                  ghost buf0: seq<byte>, ghost tags0: seq<Ref>, ghost args0: seq<Ref>)
    returns (w': nat, thistag': nat, slot': nat)
    requires tags != args
    requires Mirrors(m, buf, tags, args, w, thistag, slot, buf0, tags0, args0)
    requires Has(a, ENDTAG) ==> |m.out| < buf.Length && m.slot < tags.Length && m.slot < args.Length
    modifies buf, tags, args
    ensures Mirrors(EndTagStep(m, a), buf, tags, args, w', thistag', slot', buf0, tags0, args0)
    ensures !Has(a, ENDTAG) ==> unchanged(buf)
  {
    w', thistag', slot' := w, thistag, slot;
    if Has(a, ENDTAG) {
      TailAfter(buf[..], buf0, w);
      buf[w'] := NUL; w' := w' + 1;
      tags[slot'] := At(thistag');
      args[slot'] := Null;
      slot' := slot' + 1;
      thistag' := w';
      assert buf[..w'] == buf[..w] + [NUL];
      assert buf[w'..] == old(buf[w'..]);
    }
  }

  method DoEndArg(buf: array<byte>, tags: array<Ref>, args: array<Ref>, a: Action,
                  w: nat, thistag: nat, slot: nat, ghost m: Machine,
                  ghost buf0: seq<byte>, ghost tags0: seq<Ref>, ghost args0: seq<Ref>)
    returns (w': nat, thistag': nat, slot': nat)
    requires tags != args
    requires Mirrors(m, buf, tags, args, w, thistag, slot, buf0, tags0, args0)
    requires Has(a, ENDARG) ==> |m.out| < buf.Length && m.slot < args.Length
    modifies buf, args
    ensures Mirrors(EndArgStep(m, a), buf, tags, args, w', thistag', slot', buf0, tags0, args0)
    ensures !Has(a, ENDARG) ==> unchanged(buf)
  {
    w', thistag', slot' := w, thistag, slot;
    if Has(a, ENDARG) {
      TailAfter(buf[..], buf0, w);
      buf[w'] := NUL; w' := w' + 1;
      args[slot'] := At(thistag');
      slot' := slot' + 1;
      thistag' := w';
      assert buf[..w'] == buf[..w] + [NUL];
      assert buf[w'..] == old(buf[w'..]);
    }
  }

  method DoCopy(input: array<byte>, i: nat, ghost b: byte,
                buf: array<byte>, tags: array<Ref>, args: array<Ref>, a: Action,
                w: nat, thistag: nat, slot: nat, ghost m: Machine,
                ghost buf0: seq<byte>, ghost tags0: seq<Ref>, ghost args0: seq<Ref>)
    returns (w': nat, thistag': nat, slot': nat)
    requires i < input.Length && (Has(a, CHCOPY) ==> input[i] == b)
    requires Mirrors(m, buf, tags, args, w, thistag, slot, buf0, tags0, args0)
    requires Has(a, CHCOPY) ==> |m.out| < buf.Length
    modifies buf
    ensures Mirrors(CopyStep(m, a, b), buf, tags, args, w', thistag', slot', buf0, tags0, args0)
  {
    w', thistag', slot' := w, thistag, slot;
    if Has(a, CHCOPY) {
      TailAfter(buf[..], buf0, w);
      buf[w'] := input[i]; w' := w' + 1;
      assert buf[..w'] == buf[..w] + [b];
      assert buf[w'..] == old(buf[w'..]);
    }
  }

  method DoEndLine(tags: array<Ref>, args: array<Ref>, a: Action, slot: nat, ghost m: Machine,
                   ghost tags0: seq<Ref>, ghost args0: seq<Ref>)
    returns (slot': nat)
    requires tags != args && slot == m.slot
    requires |tags0| == tags.Length && |args0| == args.Length
    requires forall k :: 0 <= k < tags.Length ==> tags[k] == SlotValue(m.tw, k, tags0[k])
    requires forall k :: 0 <= k < args.Length ==> args[k] == SlotValue(m.aw, k, args0[k])
    requires Has(a, ENDLINE) ==> m.slot < tags.Length && m.slot < args.Length
    modifies tags, args
    ensures var f := EndLineStep(m, a);
      && slot' == f.slot
      && (forall k :: 0 <= k < tags.Length ==> tags[k] == SlotValue(f.tw, k, tags0[k]))
      && (forall k :: 0 <= k < args.Length ==> args[k] == SlotValue(f.aw, k, args0[k]))
  {
    slot' := slot;
    if Has(a, ENDLINE) {
      tags[slot'] := NewlineTag;
      args[slot'] := Null;
      slot' := slot' + 1;
    }
  }

  method DoEos(tags: array<Ref>, args: array<Ref>, a: Action, slot: nat, ghost m: Machine,
               ghost tags0: seq<Ref>, ghost args0: seq<Ref>)
    requires tags != args && slot == m.slot
    requires |tags0| == tags.Length && |args0| == args.Length
    requires forall k :: 0 <= k < tags.Length ==> tags[k] == SlotValue(m.tw, k, tags0[k])
    requires forall k :: 0 <= k < args.Length ==> args[k] == SlotValue(m.aw, k, args0[k])
    requires Has(a, EOS) ==> m.slot < tags.Length && m.slot < args.Length
    modifies tags, args
    ensures var f := EosStep(m, a);
      && (forall k :: 0 <= k < tags.Length ==> tags[k] == SlotValue(f.tw, k, tags0[k]))
      && (forall k :: 0 <= k < args.Length ==> args[k] == SlotValue(f.aw, k, args0[k]))
  {
    if Has(a, EOS) {
      tags[slot] := Null;
      args[slot] := Null;
    }
  }

  /** The first four actions of a cell: the ones that close the current
      token and start the next. */
  method CloseToken(buf: array<byte>, tags: array<Ref>, args: array<Ref>, a: Action,
                    w: nat, thistag: nat, slot: nat, ghost m: Machine,
                    ghost buf0: seq<byte>, ghost tags0: seq<Ref>, ghost args0: seq<Ref>)
    returns (w': nat, thistag': nat, slot': nat)
    requires OneWrite(a) && tags != args
    requires Mirrors(m, buf, tags, args, w, thistag, slot, buf0, tags0, args0)
    requires |m.out| < buf.Length && m.slot < tags.Length && m.slot < args.Length
    modifies buf, tags, args
    ensures Mirrors(NewTokenStep(EndArgStep(EndTagStep(NewArgStep(m, a), a), a), a),
                    buf, tags, args, w', thistag', slot', buf0, tags0, args0)
  {
    ghost var f1 := NewArgStep(m, a);
    w', thistag', slot' := DoNewArg(buf, tags, args, a, w, thistag, slot, m, buf0, tags0, args0);
    ghost var f2 := EndTagStep(f1, a);
    w', thistag', slot' := DoEndTag(buf, tags, args, a, w', thistag', slot', f1, buf0, tags0, args0);
    w', thistag', slot' := DoEndArg(buf, tags, args, a, w', thistag', slot', f2, buf0, tags0, args0);
    if Has(a, NEWTAG) || Has(a, NEWARG) {
      thistag' := w';
    }
  }

  /** The body of `if (tags) { ... }` for one input byte b = input[i] and its
      action cell a: the seven actions in the source's order. A well-shaped
      cell writes at most one byte, so when it copies, input[i] is still b
      even if buf is input. */
  method ApplyActions(input: array<byte>, i: nat, ghost b: byte, a: Action,
                      buf: array<byte>, tags: array<Ref>, args: array<Ref>,
                      w: nat, thistag: nat, slot: nat, ghost m: Machine,
                      ghost buf0: seq<byte>, ghost tags0: seq<Ref>, ghost args0: seq<Ref>)
    returns (w': nat, thistag': nat, slot': nat)
    requires i < input.Length && input[i] == b
    requires OneWrite(a) && tags != args
    requires Mirrors(m, buf, tags, args, w, thistag, slot, buf0, tags0, args0)
    requires |m.out| <= i && |m.out| < buf.Length
    requires Fill(m, a, b).slot < tags.Length && Fill(m, a, b).slot < args.Length
    modifies buf, tags, args
    ensures Mirrors(Fill(m, a, b), buf, tags, args, w', thistag', slot', buf0, tags0, args0)
    ensures forall k :: i < k < input.Length ==> input[k] == old(input[k])
  {
    FillEffect(m, a, b);
    ghost var f4 := NewTokenStep(EndArgStep(EndTagStep(NewArgStep(m, a), a), a), a);
    w', thistag', slot' := CloseToken(buf, tags, args, a, w, thistag, slot, m, buf0, tags0, args0);
    if Has(a, CHCOPY) {
      assert f4.out == m.out;
      assert input[i] == b;
    }
    ghost var f5 := CopyStep(f4, a, b);
    w', thistag', slot' := DoCopy(input, i, b, buf, tags, args, a, w', thistag', slot', f4, buf0, tags0, args0);
    ghost var f6 := EndLineStep(f5, a);
    slot' := DoEndLine(tags, args, a, slot', f5, tags0, args0);
    DoEos(tags, args, a, slot', f6, tags0, args0);
    forall k | i < k < input.Length
      ensures input[k] == old(input[k])
    {
      if input == buf {
        assert buf[k] == buf0[k];
      }
    }
  }

  /** What the engine loop keeps before reading byte i of input s: the
      machine m is the fold over the bytes before i, the input from i on is
      unread and unchanged, and, when filling, the arrays mirror m. */
  ghost predicate Inv(input: array<byte>, cfg: Config, tags: array?<Ref>, args: array?<Ref>, buf: array?<byte>,
                      s: seq<byte>, buf0: seq<byte>, tags0: seq<Ref>, args0: seq<Ref>,
                      i: nat, state: State, tagc: nat, thistag: nat, w: nat, slot: nat, m: Machine)
    reads input, tags, args, buf
  {
    && NUL in s
    && i <= |CStr(s)| + 1
    && m == Exec(cfg, Consumed(s)[..i])
    && state == m.state && tagc == m.count
    && (state != End <==> i <= |CStr(s)|)
    && |s| == input.Length
    && (forall k :: i <= k < input.Length ==> input[k] == s[k])
    && (tags != null ==> args != null && buf != null && Mirrors(m, buf, tags, args, w, thistag, slot, buf0, tags0, args0))
    && (tags == null ==> (buf != null ==> buf[..] == buf0) && (args != null ==> args[..] == args0))
  }

  lemma InvStart(input: array<byte>, cfg: Config, tags: array?<Ref>, args: array?<Ref>, buf: array?<byte>,
                 s: seq<byte>, buf0: seq<byte>, tags0: seq<Ref>, args0: seq<Ref>)
    requires s == input[..] && NUL in s
    requires tags != null ==> args != null && buf != null
    requires buf0 == (if buf == null then [] else buf[..])
    requires tags0 == (if tags == null then [] else tags[..])
    requires args0 == (if args == null then [] else args[..])
    ensures Inv(input, cfg, tags, args, buf, s, buf0, tags0, args0, 0, Sep, 0, 0, 0, 0, INIT)
  {
    assert Consumed(s)[..0] == [];
    if tags != null {
      assert buf[..0] == [] && buf[0..] == buf0[0..];
    }
  }

  /** When the loop has reached END it has read the whole consumed prefix. */
  lemma InvDone(input: array<byte>, cfg: Config, tags: array?<Ref>, args: array?<Ref>, buf: array?<byte>,
                s: seq<byte>, buf0: seq<byte>, tags0: seq<Ref>, args0: seq<Ref>,
                i: nat, state: State, tagc: nat, thistag: nat, w: nat, slot: nat, m: Machine)
    requires Inv(input, cfg, tags, args, buf, s, buf0, tags0, args0, i, state, tagc, thistag, w, slot, m)
    requires state == End
    ensures m == Scan(cfg, s) && tagc == Count(cfg, s)
  {
    assert Consumed(s)[..i] == Consumed(s);
  }

  /** One iteration of the engine's loop: classify input[i], look up the
      action cell, perform its writes when filling, count, and move to the
      next state. */
  method EngineStep(input: array<byte>, charmap: array<Class>, action: array2<Action>,
                    ghost cfg: Config, tags: array?<Ref>, args: array?<Ref>, buf: array?<byte>,
                    ghost s: seq<byte>, ghost buf0: seq<byte>, ghost tags0: seq<Ref>, ghost args0: seq<Ref>,
                    i: nat, state: State, tagc: nat, thistag: nat, w: nat, slot: nat, ghost m: Machine)
    returns (state': State, tagc': nat, thistag': nat, w': nat, slot': nat, ghost m': Machine)
    requires CharmapFor(charmap, cfg) && ActionFor(action, cfg)
    requires Inv(input, cfg, tags, args, buf, s, buf0, tags0, args0, i, state, tagc, thistag, w, slot, m)
    requires state != End
    requires tags != null ==> tags != args && tags.Length >= Count(cfg, s) && args.Length >= Count(cfg, s)
    requires tags != null ==> buf.Length >= |CStr(s)| + 1
    modifies buf, tags, args
    ensures Inv(input, cfg, tags, args, buf, s, buf0, tags0, args0, i + 1, state', tagc', thistag', w', slot', m')
  {
    ScanStep(cfg, s, i);
    var b := input[i];
    var c := charmap[b as int];
    var a := action[StateIndex(state), ClassIndex(c)];
    ConfiguredWellShaped(cfg.flags, state, c);
    StepFields(cfg, m, b, c, a);
    ClassifyTerminator(cfg, b);
    NextStateEnd(m.state, c);
    m' := Step(cfg, m, b);

    w', thistag', slot' := w, thistag, slot;
    if tags != null {
      w', thistag', slot' := ApplyActions(input, i, b, a, buf, tags, args, w, thistag, slot, m, buf0, tags0, args0);
    }
    tagc' := tagc;
    if Has(a, ENDTAG) || Has(a, ENDARG) {
      tagc' := tagc' + 1;
    }
    if Has(a, ENDLINE) {
      tagc' := tagc' + 1;
    }
    if Has(a, EOS) {
      tagc' := tagc' + 1;
    }
    state' := NextState(state, c);
  }

  /** The engine. `cfg` names the configuration the two tables were built
      from. With `tags` NULL it only counts; otherwise the three arrays must
      have the sizes of the two-call protocol, and `buf` may be `input`. */
  method StroptEngine(input: array<byte>, charmap: array<Class>, action: array2<Action>,
                      ghost cfg: Config, tags: array?<Ref>, args: array?<Ref>, buf: array?<byte>)
    returns (tagc: nat)
    requires NUL in input[..]
    requires CharmapFor(charmap, cfg) && ActionFor(action, cfg)
    requires tags != null ==> args != null && buf != null && tags != args
    requires tags != null ==> tags.Length >= Count(cfg, input[..]) && args.Length >= Count(cfg, input[..])
    requires tags != null ==> buf.Length >= |CStr(input[..])| + 1
    modifies buf, tags, args
    ensures tagc == Count(cfg, old(input[..]))
    ensures tags != null ==> Holds(Scan(cfg, old(input[..])), buf, tags, args, old(buf[..]), old(tags[..]), old(args[..]))
    ensures tags == null ==> (buf != null ==> buf[..] == old(buf[..])) && (args != null ==> args[..] == old(args[..]))
    ensures input != buf ==> input[..] == old(input[..])
  {
    ghost var s := input[..];
    ghost var P := Consumed(s);
    ghost var buf0 := if buf == null then [] else buf[..];
    ghost var tags0 := if tags == null then [] else tags[..];
    ghost var args0 := if args == null then [] else args[..];

    var state := Sep;
    tagc := 0;
    var thistag: nat := 0;  // start of the token being accumulated in buf
    var w: nat := 0;        // write cursor of buf
    var slot: nat := 0;     // cursor of tags and args
    var i: nat := 0;        // read cursor of input
    ghost var m := INIT;
    InvStart(input, cfg, tags, args, buf, s, buf0, tags0, args0);
    while state != End
      invariant Inv(input, cfg, tags, args, buf, s, buf0, tags0, args0, i, state, tagc, thistag, w, slot, m)
      decreases |CStr(s)| + 1 - i
    {
      state, tagc, thistag, w, slot, m :=
        EngineStep(input, charmap, action, cfg, tags, args, buf, s, buf0, tags0, args0,
                   i, state, tagc, thistag, w, slot, m);
      i := i + 1;
    }
    InvDone(input, cfg, tags, args, buf, s, buf0, tags0, args0, i, state, tagc, thistag, w, slot, m);
  }
}
