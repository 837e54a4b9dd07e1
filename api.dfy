/** The two public parsers of stropt.c: `stropt`, which runs the engine on the
    default tables, and `stroptx`, which first builds a character map from its
    features and separator strings and an action table from its flags. */
module Api {
  import opened Bytes
  import opened Tables
  import opened ScanSpec
  import opened Engine

  /** The table `default_charmap`, as the array `stropt` hands to the engine. */
  method DefaultCharmapTable() returns (charmap: array<Class>)
    ensures fresh(charmap) && charmap.Length == 256
    ensures forall b: byte :: charmap[b as int] == DefaultClass(b)
  {
    charmap := new Class[256](i => if 0 <= i < 256 then DefaultClass(i as byte) else Ordinary);
  }

  /** The table `default_action`, as an array indexed by the C numbers of
      states and classes. */
  method DefaultActionTable() returns (action: array2<Action>)
    ensures fresh(action) && action.Length0 == NSTATES && action.Length1 == NCLASSES
    ensures forall s: State, c: Class :: action[StateIndex(s), ClassIndex(c)] == DefaultAction(s, c)
  {
    action := new Action[NSTATES, NCLASSES]((i, j) =>
      if 0 <= i < NSTATES && 0 <= j < NCLASSES then DefaultAction(StateAt(i), ClassAt(j)) else 0);
    forall s: State, c: Class
      ensures action[StateIndex(s), ClassIndex(c)] == DefaultAction(s, c)
    {
      StateIndexInverse(s);
      ClassIndexInverse(c);
    }
  }

  /** `stropt`: the engine on `default_charmap` and `default_action`, which
      are the tables of the default configuration. */
  method Stropt(input: array<byte>, tags: array?<Ref>, args: array?<Ref>, buf: array?<byte>)
    returns (tagc: nat)
    requires NUL in input[..]
    requires tags != null ==> args != null && buf != null && tags != args
    requires tags != null ==> tags.Length >= Count(DEFAULT, input[..]) && args.Length >= Count(DEFAULT, input[..])
    requires tags != null ==> buf.Length >= |CStr(input[..])| + 1
    modifies buf, tags, args
    ensures tagc == Count(DEFAULT, old(input[..]))
    ensures tags != null ==> Holds(Scan(DEFAULT, old(input[..])), buf, tags, args, old(buf[..]), old(tags[..]), old(args[..]))
    ensures tags == null ==> (buf != null ==> buf[..] == old(buf[..])) && (args != null ==> args[..] == old(args[..]))
    ensures input != buf ==> input[..] == old(input[..])
  {
    var charmap := DefaultCharmapTable();
    var action := DefaultActionTable();
    forall b: byte ensures charmap[b as int] == Classify(DEFAULT, b) {
      DefaultCharmap(b);
    }
    forall s: State, c: Class ensures action[StateIndex(s), ClassIndex(c)] == ActionOf(DEFAULT, s, c) {
      DefaultActions(s, c);
    }
    tagc := StroptEngine(input, charmap, action, DEFAULT, tags, args, buf);
  }

  // ---------------------------------------------------------------------
  // stroptx

  /** The byte string a `char *` argument of `stroptx` points to, with NULL
      replaced by its default. */
  function OrDefault(p: Option<seq<byte>>, default: seq<byte>): seq<byte> {
    p.GetOr(default)
  }

  /** The strings the charmap is built from are the C strings of the
      arguments, or the defaults for NULL. */
  lemma OrDefaultStrings(cfg: Config)
    ensures Features(cfg) == CStr(OrDefault(cfg.features, DEFAULT_FEATURES))
    ensures Separators(cfg) == CStr(OrDefault(cfg.sep, DEFAULT_SEP))
  {
  }

  /** The charmap `stroptx` builds: all CHAR, byte 0 END, each feature
      byte its class in `default_charmap`, then each separator byte SEP. */
  method BuildCharmap(cfg: Config) returns (charmap: array<Class>)
    ensures fresh(charmap)
    ensures CharmapFor(charmap, cfg)
  {
    charmap := new Class[256](_ => Ordinary);
    charmap[0] := Terminator;
    var features := OrDefault(cfg.features, DEFAULT_FEATURES);
    var k := 0;
    while k < |features| && features[k] != NUL
      invariant k <= |features| && NulFree(features[..k])
      invariant charmap.Length == 256
      invariant forall i :: 0 <= i < 256 ==>
                  charmap[i] == (if i == 0 then Terminator
                                 else if i as byte in features[..k] then DefaultClass(i as byte)
                                 else Ordinary)
    {
      charmap[features[k] as int] := DefaultClass(features[k]);
      assert features[..k + 1] == features[..k] + [features[k]];
      k := k + 1;
    }
    CStrUpTo(features, k);
    OrDefaultStrings(cfg);
    var sep := OrDefault(cfg.sep, DEFAULT_SEP);
    var j := 0;
    while j < |sep| && sep[j] != NUL
      invariant j <= |sep| && NulFree(sep[..j])
      invariant charmap.Length == 256
      invariant forall i :: 0 <= i < 256 ==>
                  charmap[i] == (if i == 0 then Terminator
                                 else if i as byte in sep[..j] then Separator
                                 else if i as byte in Features(cfg) then DefaultClass(i as byte)
                                 else Ordinary)
    {
      charmap[sep[j] as int] := Separator;
      assert sep[..j + 1] == sep[..j] + [sep[j]];
      j := j + 1;
    }
    CStrUpTo(sep, j);
    OrDefaultStrings(cfg);
    assert forall b: byte :: charmap[b as int] == Classify(cfg, b);
  }

  /** `action[s][c] |= bits`. */
  method OrInto(action: array2<Action>, s: State, c: Class, bits: Action)
    requires action.Length0 == NSTATES && action.Length1 == NCLASSES
    modifies action
    ensures action[StateIndex(s), ClassIndex(c)] == OrBits(old(action[StateIndex(s), ClassIndex(c)]), bits)
    ensures forall s': State, c': Class :: s' != s || c' != c ==>
              action[StateIndex(s'), ClassIndex(c')] == old(action[StateIndex(s'), ClassIndex(c')])
  {
    action[StateIndex(s), ClassIndex(c)] := action[StateIndex(s), ClassIndex(c)] | bits;
    assert bits != 0 ==> OrBits(old(action[StateIndex(s), ClassIndex(c)]), bits) == old(action[StateIndex(s), ClassIndex(c)]) | bits;
    forall s': State, c': Class | s' != s || c' != c
      ensures StateIndex(s') != StateIndex(s) || ClassIndex(c') != ClassIndex(c)
    {
      StateIndexInverse(s); StateIndexInverse(s');
      ClassIndexInverse(c); ClassIndexInverse(c');
    }
  }

  /** The quote and escape columns of row s get CHCOPY: the three lines
      with which each keep-quotes block starts a row. */
  method CopyQuotes(action: array2<Action>, s: State)
    requires action.Length0 == NSTATES && action.Length1 == NCLASSES
    modifies action
    ensures forall c: Class :: (c == SingleQuote || c == DoubleQuote || c == Escape) ==>
              action[StateIndex(s), ClassIndex(c)] == OrBits(old(action[StateIndex(s), ClassIndex(c)]), CHCOPY)
    ensures forall s': State, c: Class :: (s' != s || (c != SingleQuote && c != DoubleQuote && c != Escape)) ==>
              action[StateIndex(s'), ClassIndex(c)] == old(action[StateIndex(s'), ClassIndex(c)])
  {
    OrInto(action, s, SingleQuote, CHCOPY);
    OrInto(action, s, DoubleQuote, CHCOPY);
    OrInto(action, s, Escape, CHCOPY);
  }

  /** The STROPTX_KEEP_QUOTATION_MARKS_IN_TAGS block. */
  method AddKeepInTags(action: array2<Action>, flags: bv32)
    requires action.Length0 == NSTATES && action.Length1 == NCLASSES
    modifies action
    ensures forall s: State, c: Class ::
              action[StateIndex(s), ClassIndex(c)] == OrBits(old(action[StateIndex(s), ClassIndex(c)]), KeepInTagsBits(flags, s, c))
  {
    if FlagSet(flags, KEEP_QUOTATION_MARKS_IN_TAGS) {
      CopyQuotes(action, Char);
      CopyQuotes(action, Sep);
      OrInto(action, Sq, SingleQuote, CHCOPY);
      OrInto(action, Dq, DoubleQuote, CHCOPY);
    }
  }

  /** The STROPTX_KEEP_QUOTATION_MARKS_IN_ARGS block. */
  method AddKeepInArgs(action: array2<Action>, flags: bv32)
    requires action.Length0 == NSTATES && action.Length1 == NCLASSES
    modifies action
    ensures forall s: State, c: Class ::
              action[StateIndex(s), ClassIndex(c)] == OrBits(old(action[StateIndex(s), ClassIndex(c)]), KeepInArgsBits(flags, s, c))
  {
    if FlagSet(flags, KEEP_QUOTATION_MARKS_IN_ARGS) {
      CopyQuotes(action, Arg);
      OrInto(action, ASq, SingleQuote, CHCOPY);
      OrInto(action, ADq, DoubleQuote, CHCOPY);
    }
  }

  /** The STROPTX_ALLOW_MULTIPLE_SEP block. */
  method AddMultipleSep(action: array2<Action>, flags: bv32)
    requires action.Length0 == NSTATES && action.Length1 == NCLASSES
    modifies action
    ensures forall s: State, c: Class ::
              action[StateIndex(s), ClassIndex(c)] == OrBits(old(action[StateIndex(s), ClassIndex(c)]), MultipleSepBits(flags, s, c))
  {
    if FlagSet(flags, ALLOW_MULTIPLE_SEP) {
      OrInto(action, Sep, Separator, NEWTAG | ENDTAG);
      OrInto(action, Sep, Terminator, ENDTAG);
    }
  }

  /** The STROPTX_NEWLINE_TAGS block. */
  method AddNewlineTags(action: array2<Action>, flags: bv32)
    requires action.Length0 == NSTATES && action.Length1 == NCLASSES
    modifies action
    ensures forall s: State, c: Class ::
              action[StateIndex(s), ClassIndex(c)] == OrBits(old(action[StateIndex(s), ClassIndex(c)]), NewlineTagsBits(flags, s, c))
  {
    if FlagSet(flags, NEWLINE_TAGS) {
      OrInto(action, Char, Newline, ENDLINE);
      OrInto(action, Sep, Newline, ENDLINE);
      OrInto(action, Comm, Newline, ENDLINE);
      OrInto(action, Nl, Newline, ENDLINE);
      OrInto(action, Arg, Newline, ENDLINE);
    }
  }

  /** The action table `stroptx` builds: a copy of `default_action` with
      the bits of each set flag ORed in. */
  method BuildActions(flags: bv32) returns (action: array2<Action>)
    ensures fresh(action)
    ensures action.Length0 == NSTATES && action.Length1 == NCLASSES
    ensures forall s: State, c: Class :: action[StateIndex(s), ClassIndex(c)] == ConfiguredAction(flags, s, c)
  {
    action := DefaultActionTable();
    AddKeepInTags(action, flags);
    AddKeepInArgs(action, flags);
    AddMultipleSep(action, flags);
    AddNewlineTags(action, flags);
    forall s: State, c: Class
      ensures action[StateIndex(s), ClassIndex(c)] == ConfiguredAction(flags, s, c)
    {
      ConfiguredStaged(flags, s, c);
    }
  }

  /** `stroptx`: the engine on the tables built from features, sep and
      flags (NULL strings as None). */
  method Stroptx(input: array<byte>, features: Option<seq<byte>>, sep: Option<seq<byte>>, flags: bv32,
                 tags: array?<Ref>, args: array?<Ref>, buf: array?<byte>)
    returns (tagc: nat)
    requires NUL in input[..]
    requires tags != null ==> args != null && buf != null && tags != args
    requires tags != null ==> (tags.Length >= Count(Config(features, sep, flags), input[..])
                               && args.Length >= Count(Config(features, sep, flags), input[..]))
    requires tags != null ==> buf.Length >= |CStr(input[..])| + 1
    modifies buf, tags, args
    ensures tagc == Count(Config(features, sep, flags), old(input[..]))
    ensures tags != null ==> Holds(Scan(Config(features, sep, flags), old(input[..])), buf, tags, args,
                                   old(buf[..]), old(tags[..]), old(args[..]))
    ensures tags == null ==> (buf != null ==> buf[..] == old(buf[..])) && (args != null ==> args[..] == old(args[..]))
    ensures input != buf ==> input[..] == old(input[..])
  {
    var cfg := Config(features, sep, flags);
    var charmap := BuildCharmap(cfg);
    var action := BuildActions(flags);
    tagc := StroptEngine(input, charmap, action, cfg, tags, args, buf);
  }
}
