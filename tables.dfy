/** The constant data of stropt.c: parser states, character classes, the
    transition table, the default action table and the default character map,
    plus the configured variants that `stroptx` derives from them. */
module Tables {
  import opened Bytes

  /** Parser states; the C numbering is given by StateIndex. */
  datatype State = Char | Sep | End | Comm | Nl | Arg | Sq | Dq | Esc | ASq | ADq | AEsc

  /** Character classes. In C they share the numbers CHAR..ESC with the first
      nine states; ClassIndex gives that number. */
  datatype Class =
    | Ordinary     // CHAR
    | Separator    // SEP
    | Terminator   // END
    | CommentStart // COMM
    | Newline      // NL
    | ArgMarker    // ARG
    | SingleQuote  // SQ
    | DoubleQuote  // DQ
    | Escape       // ESC

  const NSTATES := 12
  const NCLASSES := 9

  function StateIndex(s: State): (k: nat)
    ensures k < NSTATES
  {
    match s
    case Char => 0 case Sep => 1 case End => 2 case Comm => 3 case Nl => 4 case Arg => 5
    case Sq => 6 case Dq => 7 case Esc => 8 case ASq => 9 case ADq => 10 case AEsc => 11
  }

  function StateAt(k: nat): (s: State)
    requires k < NSTATES
    ensures StateIndex(s) == k
  {
    [Char, Sep, End, Comm, Nl, Arg, Sq, Dq, Esc, ASq, ADq, AEsc][k]
  }

  function ClassIndex(c: Class): (k: nat)
    ensures k < NCLASSES
  {
    match c
    case Ordinary => 0 case Separator => 1 case Terminator => 2 case CommentStart => 3
    case Newline => 4 case ArgMarker => 5 case SingleQuote => 6 case DoubleQuote => 7
    case Escape => 8
  }

  function ClassAt(k: nat): (c: Class)
    requires k < NCLASSES
    ensures ClassIndex(c) == k
  {
    [Ordinary, Separator, Terminator, CommentStart, Newline, ArgMarker,
     SingleQuote, DoubleQuote, Escape][k]
  }

  lemma StateIndexInverse(s: State)
    ensures StateAt(StateIndex(s)) == s
  {
  }

  lemma ClassIndexInverse(c: Class)
    ensures ClassAt(ClassIndex(c)) == c
  {
  }

  // ---------------------------------------------------------------------
  // The transition table `nextstate`

  /** `nextstate[s][c]`. Rows follow the C table; the END row holds 0 (CHAR)
      outside its END column. */
  function NextState(s: State, c: Class): State {
    match s
    case Char =>
      (match c
       case Ordinary => Char case Separator => Sep case Terminator => End
       case CommentStart => Comm case Newline => Sep case ArgMarker => Arg
       case SingleQuote => Sq case DoubleQuote => Dq case Escape => Esc)
    case Sep =>
      (match c
       case Ordinary => Char case Separator => Sep case Terminator => End
       case CommentStart => Comm case Newline => Sep case ArgMarker => Char
       case SingleQuote => Sq case DoubleQuote => Dq case Escape => Esc)
    case End => if c == Terminator then End else Char
    case Comm =>
      (match c
       case Terminator => End case Newline => Sep
       case _ => Comm)
    case Nl =>
      (match c
       case Ordinary => Char case Separator => Sep case Terminator => End
       case CommentStart => Comm case Newline => Sep case ArgMarker => Char
       case SingleQuote => Sq case DoubleQuote => Dq case Escape => Esc)
    case Arg =>
      (match c
       case Ordinary => Arg case Separator => Sep case Terminator => End
       case CommentStart => Comm case Newline => Sep case ArgMarker => Arg
       case SingleQuote => ASq case DoubleQuote => ADq case Escape => AEsc)
    case Sq => if c == Terminator then End else if c == SingleQuote then Char else Sq
    case Dq => if c == Terminator then End else if c == DoubleQuote then Char else Dq
    case Esc => if c == Terminator then End else Char
    case ASq => if c == Terminator then End else if c == SingleQuote then Arg else ASq
    case ADq => if c == Terminator then End else if c == DoubleQuote then Arg else ADq
    case AEsc => if c == Terminator then End else Arg
  }

  /** Terminator, and nothing else, leads to End, from every state. */
  lemma NextStateEnd(s: State, c: Class)
    ensures NextState(s, c) == End <==> c == Terminator
  {
  }

  /** No cell of the transition table leads to NL. */
  lemma NextStateNeverNl(s: State, c: Class)
    ensures NextState(s, c) != Nl
  {
  }

  // ---------------------------------------------------------------------
  // Action bits

  /** One cell of an action table: a set of the bits below. */
  type Action = bv8

  const NEWTAG: Action := 0x01
  const NEWARG: Action := 0x02
  const CHCOPY: Action := 0x04
  const ENDTAG: Action := 0x08
  const ENDARG: Action := 0x10
  const ENDLINE: Action := 0x20
  const EOS: Action := 0x40

  predicate Has(a: Action, bit: Action) {
    a & bit != 0
  }

  /** At most one of the four actions that write a byte to the text buffer.
      This is what bounds the buffer by the input length. */
  predicate OneWrite(a: Action) {
    && !(Has(a, NEWARG) && Has(a, ENDTAG))
    && !(Has(a, NEWARG) && Has(a, ENDARG))
    && !(Has(a, NEWARG) && Has(a, CHCOPY))
    && !(Has(a, ENDTAG) && Has(a, ENDARG))
    && !(Has(a, ENDTAG) && Has(a, CHCOPY))
    && !(Has(a, ENDARG) && Has(a, CHCOPY))
  }

  /** `default_action[s][c]`; cells the C initializers leave out are 0. */
  function DefaultAction(s: State, c: Class): Action {
    match s
    case Char =>
      (match c
       case Ordinary => CHCOPY case Separator => ENDTAG case Terminator => EOS | ENDTAG
       case CommentStart => ENDTAG case Newline => ENDTAG case ArgMarker => NEWARG
       case _ => 0)
    case Sep =>
      (match c
       case Ordinary => NEWTAG | CHCOPY case Terminator => EOS
       case SingleQuote => NEWTAG case DoubleQuote => NEWTAG case Escape => NEWTAG
       case _ => 0)
    case End => if c == Terminator then EOS else 0
    case Comm => if c == Terminator then EOS else 0
    case Nl =>
      (match c
       case Ordinary => NEWTAG | CHCOPY case Terminator => EOS
       case _ => 0)
    case Arg =>
      (match c
       case Ordinary => CHCOPY case Separator => ENDARG case Terminator => EOS | ENDARG
       case CommentStart => ENDARG case Newline => ENDARG case ArgMarker => CHCOPY
       case _ => 0)
    case Sq =>
      (match c
       case Terminator => EOS | ENDTAG case SingleQuote => 0
       case _ => CHCOPY)
    case Dq =>
      (match c
       case Terminator => EOS | ENDTAG case DoubleQuote => 0
       case _ => CHCOPY)
    case Esc =>
      (match c
       case Terminator => EOS | ENDTAG case Newline => 0
       case _ => CHCOPY)
    case ASq =>
      (match c
       case Terminator => EOS | ENDARG case SingleQuote => 0
       case _ => CHCOPY)
    case ADq =>
      (match c
       case Terminator => EOS | ENDARG case DoubleQuote => 0
       case _ => CHCOPY)
    case AEsc =>
      (match c
       case Terminator => EOS | ENDARG case Newline => 0
       case _ => CHCOPY)
  }

  // ---------------------------------------------------------------------
  // stroptx flags (stropt.h)

  const KEEP_QUOTATION_MARKS_IN_TAGS: bv32 := 0x1
  const KEEP_QUOTATION_MARKS_IN_ARGS: bv32 := 0x2
  const KEEP_QUOTATION_MARKS: bv32 := 0x3
  const ALLOW_MULTIPLE_SEP: bv32 := 0x4
  const NEWLINE_TAGS: bv32 := 0x8

  predicate FlagSet(flags: bv32, f: bv32) {
    flags & f != 0
  }

  /** The cells STROPTX_KEEP_QUOTATION_MARKS_IN_TAGS adds CHCOPY to: an opening
      quote or backslash in a tag, and the closing quote of a quoted tag. */
  function KeepInTagsBits(flags: bv32, s: State, c: Class): Action {
    if FlagSet(flags, KEEP_QUOTATION_MARKS_IN_TAGS) &&
       (((s == Char || s == Sep) && (c == SingleQuote || c == DoubleQuote || c == Escape)) ||
        (s == Sq && c == SingleQuote) || (s == Dq && c == DoubleQuote))
    then CHCOPY else 0
  }

  /** The same for arguments, under STROPTX_KEEP_QUOTATION_MARKS_IN_ARGS. */
  function KeepInArgsBits(flags: bv32, s: State, c: Class): Action {
    if FlagSet(flags, KEEP_QUOTATION_MARKS_IN_ARGS) &&
       ((s == Arg && (c == SingleQuote || c == DoubleQuote || c == Escape)) ||
        (s == ASq && c == SingleQuote) || (s == ADq && c == DoubleQuote))
    then CHCOPY else 0
  }

  /** STROPTX_ALLOW_MULTIPLE_SEP: a separator, or the end, right after a
      separator closes an empty tag. */
  function MultipleSepBits(flags: bv32, s: State, c: Class): Action {
    if FlagSet(flags, ALLOW_MULTIPLE_SEP) && s == Sep && c == Separator then NEWTAG | ENDTAG
    else if FlagSet(flags, ALLOW_MULTIPLE_SEP) && s == Sep && c == Terminator then ENDTAG
    else 0
  }

  /** STROPTX_NEWLINE_TAGS: an unquoted, unescaped newline also emits the
      "\n" tag. */
  function NewlineTagsBits(flags: bv32, s: State, c: Class): Action {
    if FlagSet(flags, NEWLINE_TAGS) && c == Newline &&
       (s == Char || s == Sep || s == Comm || s == Nl || s == Arg)
    then ENDLINE else 0
  }

  /** The bits that the flags OR into cell (s, c) of the default table. */
  function ExtraAction(flags: bv32, s: State, c: Class): Action {
    KeepInTagsBits(flags, s, c) | KeepInArgsBits(flags, s, c)
    | MultipleSepBits(flags, s, c) | NewlineTagsBits(flags, s, c)
  }

  /** `a |= bits`, which leaves a as it is when bits is empty. */
  function OrBits(a: Action, bits: Action): (r: Action)
    ensures bits == 0 ==> r == a
  {
    if bits == 0 then a else a | bits
  }

  /** The action table `stroptx` runs the engine with. */
  function ConfiguredAction(flags: bv32, s: State, c: Class): (a: Action)
  {
    DefaultAction(s, c) | ExtraAction(flags, s, c)
  }

  /** The shape every configured cell has, whatever the flags: at most one
      buffer write, EOS exactly in the END column, no copy and no ENDLINE there. */
  predicate WellShaped(a: Action, c: Class) {
    && OneWrite(a)
    && (Has(a, EOS) <==> c == Terminator)
    && (c == Terminator ==> !Has(a, CHCOPY) && !Has(a, ENDLINE) && !Has(a, NEWARG))
  }

  /** The configured cell is what the four flag blocks of `stroptx` leave
      after ORing their bits, one block after the other, into the default cell. */
  lemma ConfiguredStaged(flags: bv32, s: State, c: Class)
    ensures ConfiguredAction(flags, s, c) ==
      OrBits(OrBits(OrBits(OrBits(DefaultAction(s, c), KeepInTagsBits(flags, s, c)),
        KeepInArgsBits(flags, s, c)), MultipleSepBits(flags, s, c)), NewlineTagsBits(flags, s, c))
  {
  }

  /** The states that read an argument. */
  predicate ArgState(s: State) {
    s == Arg || s == ASq || s == ADq || s == AEsc
  }

  /** NEWARG is set in one cell only, the first `=` of a tag, whatever the
      flags, and that cell leads to ARG. */
  lemma NewArgOnlyAtMarker(flags: bv32, s: State, c: Class)
    ensures Has(ConfiguredAction(flags, s, c), NEWARG) <==> s == Char && c == ArgMarker
    ensures Has(ConfiguredAction(flags, s, c), NEWARG) ==> NextState(s, c) == Arg
  {
  }

  /** The argument states are entered only through that cell. */
  lemma ArgStatesEntry(s: State, c: Class)
    requires !ArgState(s) && ArgState(NextState(s, c))
    ensures s == Char && c == ArgMarker
  {
  }

  /** Leaving the argument states always closes the argument with ENDARG;
      moving among them writes no slot; ENDTAG never occurs in them. */
  lemma ArgStatesSlots(flags: bv32, s: State, c: Class)
    requires ArgState(s)
    ensures var a := ConfiguredAction(flags, s, c);
      && (!ArgState(NextState(s, c)) ==> Has(a, ENDARG))
      && (ArgState(NextState(s, c)) ==>
            !Has(a, NEWARG) && !Has(a, ENDTAG) && !Has(a, ENDARG) && !Has(a, ENDLINE) && !Has(a, EOS))
      && !Has(a, ENDTAG)
  {
  }

  /** ENDARG occurs only in the argument states. */
  lemma EndArgOnlyInArgStates(flags: bv32, s: State, c: Class)
    ensures Has(ConfiguredAction(flags, s, c), ENDARG) ==> ArgState(s)
  {
  }

  /** No configured cell writes two bytes to the buffer. */
  lemma ConfiguredOneWrite(flags: bv32, s: State, c: Class)
    ensures OneWrite(ConfiguredAction(flags, s, c))
  {
    match s
    case Char => case Sep => case End => case Comm => case Nl => case Arg =>
    case Sq => case Dq => case Esc => case ASq => case ADq => case AEsc =>
  }

  /** EOS sits exactly in the END column, which copies nothing, emits no
      newline tag and starts no argument, under every flag combination. */
  lemma ConfiguredEndColumn(flags: bv32, s: State, c: Class)
    ensures var a := ConfiguredAction(flags, s, c);
      && (Has(a, EOS) <==> c == Terminator)
      && (c == Terminator ==> !Has(a, CHCOPY) && !Has(a, ENDLINE) && !Has(a, NEWARG))
  {
    match s
    case Char => case Sep => case End => case Comm => case Nl => case Arg =>
    case Sq => case Dq => case Esc => case ASq => case ADq => case AEsc =>
  }

  /** The flags only add bits: every default bit of a cell stays set. */
  lemma ConfiguredKeepsDefault(flags: bv32, s: State, c: Class)
    ensures ConfiguredAction(flags, s, c) & DefaultAction(s, c) == DefaultAction(s, c)
  {
  }

  lemma ConfiguredWellShaped(flags: bv32, s: State, c: Class)
    ensures WellShaped(ConfiguredAction(flags, s, c), c)
  {
    ConfiguredOneWrite(flags, s, c);
    ConfiguredEndColumn(flags, s, c);
  }

  /** STROPTX_KEEP_QUOTATION_MARKS is both KEEP flags: it keeps the quotes
      in tags and in arguments, and builds the same action table. */
  lemma KeepIsBoth()
    ensures KEEP_QUOTATION_MARKS == KEEP_QUOTATION_MARKS_IN_TAGS | KEEP_QUOTATION_MARKS_IN_ARGS
  {
  }

  // ---------------------------------------------------------------------
  // Character maps

  const DEFAULT_FEATURES: CText := [35, 61, 10, 39, 34, 92]  // # = \n ' " backslash
  const DEFAULT_SEP: CText := [32, 9, 59, 44]                // space \t ; ,

  /** `default_charmap[b]`, with unsigned byte indices. */
  function DefaultClass(b: byte): Class {
    if b == 0 then Terminator
    else if b == 32 || b == 9 || b == 59 || b == 44 then Separator
    else if b == 35 then CommentStart
    else if b == 61 then ArgMarker
    else if b == 10 then Newline
    else if b == 39 then SingleQuote
    else if b == 34 then DoubleQuote
    else if b == 92 then Escape
    else Ordinary
  }

  /** The configuration of one `stroptx` call: the features and separator
      strings (None for NULL) and the flag bits. */
  datatype Config = Config(features: Option<seq<byte>>, sep: Option<seq<byte>>, flags: bv32)

  /** The configuration `stropt` runs with. */
  const DEFAULT: Config := Config(None, None, 0)

  /** The feature bytes in effect: the C string given, or all features. */
  function Features(cfg: Config): CText {
    match cfg.features
    case None => DEFAULT_FEATURES
    case Some(f) => CStr(f)
  }

  /** The separator bytes in effect: the C string given, or " \t;,". */
  function Separators(cfg: Config): CText {
    match cfg.sep
    case None => DEFAULT_SEP
    case Some(s) => CStr(s)
  }

  /** The class of byte b under the charmap `stroptx` builds. */
  function Classify(cfg: Config, b: byte): Class {
    if b == 0 then Terminator
    else if b in Separators(cfg) then Separator
    else if b in Features(cfg) then DefaultClass(b)
    else Ordinary
  }

  /** Byte 0, and no other byte, is END under every configuration. */
  lemma ClassifyTerminator(cfg: Config, b: byte)
    ensures Classify(cfg, b) == Terminator <==> b == 0
  {
  }

  function ActionOf(cfg: Config, s: State, c: Class): Action {
    ConfiguredAction(cfg.flags, s, c)
  }

  /** `stropt` is `stroptx` with NULL features, NULL separators and no
      flags. First, the charmap built from the default strings is
      `default_charmap`. */
  lemma DefaultCharmap(b: byte)
    ensures Classify(DEFAULT, b) == DefaultClass(b)
  {
    DefaultStrings();
    DefaultMembers(b);
    if b == 0 {
    } else if b in DEFAULT_SEP {
      assert DefaultClass(b) == Separator;
    } else if b in DEFAULT_FEATURES {
    } else {
      assert DefaultClass(b) == Ordinary;
    }
  }

  /** The default strings hold no NUL, so they are their own C strings. */
  lemma DefaultStrings()
    ensures Features(DEFAULT) == DEFAULT_FEATURES && Separators(DEFAULT) == DEFAULT_SEP
  {
    assert NulFree(DEFAULT_FEATURES) && NulFree(DEFAULT_SEP);
  }

  lemma DefaultMembers(b: byte)
    ensures b in DEFAULT_SEP <==> b == 32 || b == 9 || b == 59 || b == 44
    ensures b in DEFAULT_FEATURES <==> b == 35 || b == 61 || b == 10 || b == 39 || b == 34 || b == 92
  {
  }

  /** Second, with no flag set the action table is `default_action`. */
  lemma DefaultActions(s: State, c: Class)
    ensures ActionOf(DEFAULT, s, c) == DefaultAction(s, c)
  {
    assert ExtraAction(0, s, c) == 0;
  }
}
