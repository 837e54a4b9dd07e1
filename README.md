# libstropt tokenizer, modelled in Dafny

libstropt parses option strings such as `font=12,typeface=bodoni,italic` into
tags and arguments without allocating. The caller scans the string twice:

- a first call with `tags == NULL` returns the number of options plus one;
- a second call fills caller-sized `tags`/`args` arrays with pointers into a
  caller buffer that receives the NUL-separated token text.

`stroptx` builds the character map and the action table from a `features`
string, a `sep` string and four flag bits. `stropt2buf` and `stropt2str` turn
the arrays back into a string and skip deleted slots.

The model covers all of `stropt.c` except its `#if 0` demo, plus the
constants, the wrapper and the documented contracts of `stropt.h`.

| file | module | what it holds |
|---|---|---|
| bytes.dfy | `Bytes` | bytes, `Option`, C strings (`CStr`, `NulFree`, `CText`) |
| tables.dfy | `Tables` | states and classes with the C numbering, `nextstate`, `default_action`, the flag bits, the configured action cell, the `stroptx` charmap as a function (`Classify`) |
| scan.dfy | `ScanSpec` | the engine as a pure fold: one `Step` per input byte applies the action bits in the source's order, and `Scan`/`Count` run it to the first NUL; invariants of the fold |
| engine.dfy | `Engine` | `_stropt_engine` as a method over arrays, proved to leave exactly what `Scan` describes in `buf`, `tags` and `args` and to return `Count` |
| views.dfy | `Views` | reading the arrays back as C strings: `ScanTags`, `ScanArgs`, `Options` |
| api.dfy | `Api` | `stropt`, `stroptx` and its charmap/action construction as methods |
| serialize.dfy | `Serialize` | `stropt2buf`/`stropt2str` as a loop proved against `Rebuilt`; deleted slots |
| tokens.dfy | `Tokens` | what each kind of token does to the machine: tags, `=` arguments, quotes, escapes, comments, separators, newlines |
| roundtrip.dfy | `RoundTrip` | a list of plain options printed, scanned and rebuilt |
| examples.dfy | `Examples` | the two examples of the header |
| behaviours.dfy | `Behaviours` | separator runs, empty fields, newline tags, comments on and off, the NULL defaults of `features`/`sep` |

How the model represents the C data:

- **Pointers.** A pointer stored in `tags`/`args` is a `Ref`:
  - `Null`;
  - `At(offset)`, an offset into `buf`;
  - `NewlineTag`, the static `"\n"` that ENDLINE stores.
- **Serializer slots.** The serializer sees dereferenced slots: a `Tag` is
  `EndOfTags`, `Deleted` (`STROPTX_DELETED_TAG`) or the tag's text, and an
  `Arg` is an optional text.
- **NULL strings.** `features == NULL` and `sep == NULL` are `None`.
- **Flags.** The flags are a `bv32`, and action cells are `bv8` with the C
  bit values.
- **Aliasing.** `buf` may be the input array itself, as the header allows.
  The engine is proved to read byte `i` before it writes buffer position `i`.
- **No re-quoting.** The serializer prints texts as they are and does not
  quote them again. So the quoting example rebuilds to
  `values=1,2,3,4,equal==`, which is what the C code prints.

## Model

| member | source | states |
|---|---|---|
| Tables.StateAt | stropt.c:27-41 | the C number of every state is below NSTATES, and the number decodes back to the state |
| Tables.ClassAt | stropt.c:27-42 | the C number of every class is below NINTAGS, and the number decodes back to the class |
| Tables.NextState | stropt.c:54-67 | the `nextstate` table, cell by cell; its properties are in the NextStateEnd, NextStateNeverNl and ArgStatesEntry rows |
| Tables.DefaultAction | stropt.c:69-83 | the `default_action` table, cell by cell, with the cells the initializers omit as 0; its properties are in the ConfiguredOneWrite, ConfiguredEndColumn, ArgStatesSlots and EndArgOnlyInArgStates rows, which hold for flags 0 |
| Tables.NextStateEnd | stropt.c:54-66 | in every row of `nextstate` the END class, and only it, leads to END |
| Tables.NextStateNeverNl | stropt.c:54-67 | no cell of `nextstate` is NL; the scan starts in SEP (stropt.c:94), so the NL row is dead |
| Tables.KeepInTagsBits | stropt.c:161-170 | the bits the STROPTX_KEEP_QUOTATION_MARKS_IN_TAGS block ORs into each cell; Api.AddKeepInTags proves the C block ORs exactly these |
| Tables.KeepInArgsBits | stropt.c:171-177 | the same for STROPTX_KEEP_QUOTATION_MARKS_IN_ARGS; see Api.AddKeepInArgs |
| Tables.MultipleSepBits | stropt.c:178-181 | the same for STROPTX_ALLOW_MULTIPLE_SEP; see Api.AddMultipleSep and Tokens.Separators |
| Tables.NewlineTagsBits | stropt.c:182-188 | the same for STROPTX_NEWLINE_TAGS; see Api.AddNewlineTags and Tokens.Newlines |
| Tables.ConfiguredAction | stropt.c:161-188 | the action table `stroptx` runs with: `default_action` with the four blocks' bits ORed in (also stropt.c:151); its properties are in the ConfiguredStaged, ConfiguredKeepsDefault, ConfiguredOneWrite and ConfiguredEndColumn rows, and Api.BuildActions ties it to the C table |
| Tables.ConfiguredStaged | stropt.c:161-188 | the configured cell is the `default_action` cell after the four flag blocks OR in their bits, in the source's order (also stropt.c:151) |
| Tables.ConfiguredKeepsDefault | stropt.c:161-188 | flags only add bits: every bit of the default cell stays set |
| Tables.ConfiguredOneWrite | stropt.c:71-82 | under every flag word, every cell sets at most one of NEWARG, ENDTAG, ENDARG and CHCOPY (at most one buffer byte per input byte) (also stropt.c:103-122, 161-181) |
| Tables.ConfiguredEndColumn | stropt.c:71-82 | EOS is set exactly in the END column, and that column never copies, writes a newline tag or starts an argument (also stropt.c:127-130) |
| Tables.ConfiguredWellShaped | stropt.c:71-82 | the two facts above, together, for every configured cell (also stropt.c:161-188) |
| Tables.NewArgOnlyAtMarker | stropt.c:103-106 | NEWARG is set in the CHAR/ARG cell only, whatever the flags, and that cell leads to ARG (also stropt.c:55, 71) |
| Tables.ArgStatesEntry | stropt.c:54-66 | ARG, ASQ, ADQ and AESC are entered from outside only by `=` in state CHAR |
| Tables.ArgStatesSlots | stropt.c:113-118 | leaving the argument states always does ENDARG; moves inside them write no slot; no argument state does ENDTAG (also stropt.c:76, 80-82) |
| Tables.EndArgOnlyInArgStates | stropt.c:71-82 | ENDARG is set only in argument states |
| Tables.KeepIsBoth | stropt.h:88-93 | STROPTX_KEEP_QUOTATION_MARKS is IN_TAGS OR IN_ARGS; that the marks are then kept in tags and in arguments is stated by Tokens.TagQuoteMarks, Tokens.ArgQuoteMarks and Tokens.EscapeMarks |
| Tables.ClassifyTerminator | stropt.c:152 | byte 0, and no other byte, is END under every configuration (also stropt.c:86) |
| Tables.DefaultClass | stropt.c:85-90 | the `default_charmap` initializer: END for 0, SEP for space, tab, `;` and `,`, the feature classes for `#=\n'"\`, CHAR (0) otherwise; see Api.DefaultCharmapTable |
| Tables.Features | stropt.c:153-154 | the feature string, `"#=\n'\"\\"` when NULL; see Tables.DefaultStrings and Behaviours.FeaturesDefault |
| Tables.Separators | stropt.c:155-156 | the separator string, `" \t;,"` when NULL; see Tables.DefaultStrings and Behaviours.SeparatorsDefault |
| Tables.Classify | stropt.c:150-160 | the class of a byte in the built charmap: END for 0, SEP for separators (assigned last), the default class for feature bytes, CHAR otherwise; Api.BuildCharmap proves the C loops build it, Behaviours.NoCommentClasses and Tables.DefaultCharmap state its cases |
| Tables.DefaultCharmap | stropt.c:150-160 | the charmap `stroptx` builds from NULL features and NULL separators is `default_charmap` (also stropt.c:85-90) |
| Tables.DefaultStrings | stropt.c:153-156 | NULL features and separators stand for `"#=\n'\"\\"` and `" \t;,"` |
| Tables.DefaultMembers | stropt.c:153-156 | the bytes of the two default strings, listed |
| Tables.DefaultActions | stropt.c:143-151 | with no flags the action table is `default_action`, so `stropt` is `stroptx(input, NULL, NULL, 0, …)` |
| ScanSpec.NewArgStep | stropt.c:103-106 | NEWARG: a NUL ends the tag, which is stored in the current slot; see Engine.DoNewArg and Tokens.OpenArg |
| ScanSpec.EndTagStep | stropt.c:107-112 | ENDTAG: a NUL ends the tag, (tag, NULL) is stored and the slot cursor and `thistag` move on; see Engine.DoEndTag and Tokens.CloseTag |
| ScanSpec.EndArgStep | stropt.c:113-118 | ENDARG: a NUL ends the argument, which is stored beside its tag, and the cursors move on; see Engine.DoEndArg and Tokens.CloseArg |
| ScanSpec.NewTokenStep | stropt.c:119-120 | NEWTAG or NEWARG: `thistag` moves to the write cursor; see Tokens.OpenTag |
| ScanSpec.CopyStep | stropt.c:121-122 | CHCOPY: the input byte is appended to `buf`; see Engine.DoCopy and Tokens.TextCopies |
| ScanSpec.EndLineStep | stropt.c:123-126 | ENDLINE: ("\n", NULL) is stored and the slot cursor moves on; see Engine.DoEndLine and Tokens.NewlineAfterTag |
| ScanSpec.EosStep | stropt.c:127-130 | EOS: the (NULL, NULL) sentinel is stored at the cursor; see Engine.DoEos and ScanSpec.FinishedAtNul |
| ScanSpec.Counted | stropt.c:132-137 | `tagc` grows by one for ENDTAG or ENDARG, one for ENDLINE and one for EOS; see Tokens.EndInTag and Tokens.NewlineAfterTag |
| ScanSpec.Fill | stropt.c:102-131 | the seven writes of one cell, in the source's order; ScanSpec.FillEffect states what they do together and Engine.ApplyActions ties them to the C code |
| ScanSpec.Step | stropt.c:98-138 | one loop iteration: the writes of the cell for the byte's class, the count, and the next state; Engine.EngineStep ties it to the C loop |
| ScanSpec.Run | stropt.c:97-139 | the loop over the bytes read, as a fold of Step; ScanSpec.PrefixRunning and ScanSpec.FinishedAtNul state its invariant and its end |
| ScanSpec.Scan | stropt.c:97-140 | the fold over the input's C string and its NUL; Engine.InvDone and Engine.StroptEngine tie it to the C function |
| ScanSpec.Count | stropt.c:132-140 | the count of the scan; ScanSpec.ScanFinishes states it is at least 1, RoundTrip.ReadBack that it is the number of options plus one |
| ScanSpec.Consumed | stropt.c:97-98 | the engine reads the input's C string and its NUL, a prefix of the input (also stropt.c:138) |
| ScanSpec.FillEffect | stropt.c:103-130 | one cell's writes: the slot cursor moves on once for ENDTAG/ENDARG and once for ENDLINE; exactly one buffer byte is written when NEWARG, ENDTAG, ENDARG or CHCOPY is set; only slots from the cursor on are written; EOS writes the (NULL, NULL) sentinel |
| ScanSpec.RunningStep | stropt.c:97-139 | a non-NUL byte keeps the running invariant, with one more byte of budget |
| ScanSpec.RunningInvariant | stropt.c:97-139 | after k non-NUL bytes: the loop has not ended, the state is not NL, `tagc` equals the slot cursor, at most k bytes are in `buf`, and no slot past the cursor has been written |
| ScanSpec.SlotsFilledInvariant | stropt.c:103-118 | every slot below the cursor holds a non-NULL tag, and in argument states the cursor's slot already holds its tag |
| ScanSpec.TerminatedInvariant | stropt.c:104-114 | every pointer stored in `tags`/`args` is followed in `buf` by the NUL that ends its token |
| ScanSpec.FinishedAtNul | stropt.c:127-137 | at the first NUL the loop ends: `tagc` is the slot cursor plus one, the (NULL, NULL) sentinel is in slot `tagc - 1`, nothing past it is written, and `buf` holds at most `strlen(input) + 1` bytes (also stropt.c:97) |
| ScanSpec.ScanFinishes | stropt.h:11-13 | every scan finishes as above and returns at least 1 |
| ScanSpec.SlotMonotone | stropt.c:109-124 | the slot cursor never moves back |
| ScanSpec.PrefixRunning | stropt.c:97-139 | the running invariant holds at every position before the NUL |
| ScanSpec.PrefixSlot | stropt.c:102-126 | every slot written during the scan is below the returned count, so arrays of `tagc` entries suffice for the second call |
| ScanSpec.ScanStep | stropt.c:97-98 | step i of the scan reads `input[i]`, and that byte is NUL exactly at position `strlen(input)` (also stropt.c:138) |
| Engine.DoNewArg | stropt.c:103-106 | NEWARG writes the NUL that ends the tag and stores the tag in the current slot, without moving the cursor |
| Engine.DoEndTag | stropt.c:107-112 | ENDTAG ends the tag, stores (tag, NULL) and moves to the next slot |
| Engine.DoEndArg | stropt.c:113-118 | ENDARG ends the argument, stores it beside its tag and moves to the next slot |
| Engine.DoCopy | stropt.c:121-122 | CHCOPY copies the input byte to the write cursor |
| Engine.DoEndLine | stropt.c:123-126 | ENDLINE stores ("\n", NULL) and moves to the next slot |
| Engine.DoEos | stropt.c:127-130 | EOS stores the (NULL, NULL) sentinel at the cursor |
| Engine.CloseToken | stropt.c:103-120 | the token-closing actions of one cell, in the source's order, including the `thistag` update |
| Engine.ApplyActions | stropt.c:102-131 | all writes of one cell equal the step of the specification, and input bytes past the read position are untouched |
| Engine.EngineStep | stropt.c:98-138 | one loop iteration keeps the loop invariant: the arrays and cursors equal the fold over the bytes read, in dry runs and fill runs alike |
| Engine.InvDone | stropt.c:138-140 | when the loop stops, its machine is the full scan and `tagc` is the count (also stropt.c:97) |
| Engine.StroptEngine | stropt.c:92-141 | returns `Count` whether or not `tags` is NULL; with `tags` it leaves in `buf`/`tags`/`args` exactly what `Scan` wrote over their old contents; a dry run writes nothing; a separate `buf` leaves the input untouched |
| Views.TagOf | stropt.c:105-128 | a stored tag pointer reads as the end of the tags exactly when it is NULL, and never as a deleted slot |
| Views.ArgOf | stropt.c:110-129 | a stored argument pointer reads as "no argument" exactly when it is NULL |
| Views.ScanClosed | stropt.c:127-137 | after a scan, slots 0 to `tagc - 1` are all written, the first `tagc - 1` tags are non-NULL, and the last slot is (NULL, NULL) |
| Views.ScanTags | stropt.h:11-13 | the tags read back are `tagc` entries, the first NULL is at `tagc - 1`, and none is deleted |
| Views.ScanArgs | stropt.h:11-13 | the arguments read back are `tagc` entries, and the last is NULL |
| Views.Options | stropt.h:11-13 | the options read back number `tagc - 1` |
| Views.FilledArrays | stropt.c:102-130 | after the filling call, slot k of `tags`/`args` points into `buf` and reads as the k-th tag and argument of the scan |
| Api.DefaultCharmapTable | stropt.c:85-90 | the byte table holds `default_charmap`: END for 0, SEP for space, tab, `;` and `,`, the feature classes for `#=\n'"\`, CHAR otherwise |
| Api.DefaultActionTable | stropt.c:69-83 | the 12×9 table holds `default_action` cell by cell, with the cells the initializers omit set to 0 |
| Api.Stropt | stropt.c:143-145 | `stropt` is the engine on the default tables. Its contract: the count (stropt.h:11-13), the filled arrays, nothing written in a dry run, and the input untouched when `buf` is another array (stropt.h:16-17). `buf` may be the input itself (stropt.h:32-33) |
| Api.OrDefaultStrings | stropt.c:153-156 | the charmap is built from the C strings given, or from the defaults for NULL |
| Api.BuildCharmap | stropt.c:148-160 | the built charmap classifies every byte as `Classify` does: 0 is END, separators are SEP because they are assigned last, other feature bytes get their default class, and all other bytes are CHAR |
| Api.OrInto | stropt.c:162 | ORing bits into `action[s][c]` changes that cell only |
| Api.CopyQuotes | stropt.c:162-167 | CHCOPY is ORed into the quote and escape cells of one row, and nothing else changes |
| Api.AddKeepInTags | stropt.c:161-170 | the STROPTX_KEEP_QUOTATION_MARKS_IN_TAGS block ORs exactly its bits into every cell |
| Api.AddKeepInArgs | stropt.c:171-177 | the STROPTX_KEEP_QUOTATION_MARKS_IN_ARGS block ORs exactly its bits into every cell |
| Api.AddMultipleSep | stropt.c:178-181 | the STROPTX_ALLOW_MULTIPLE_SEP block ORs exactly its bits into every cell |
| Api.AddNewlineTags | stropt.c:182-188 | the STROPTX_NEWLINE_TAGS block ORs exactly its bits into every cell |
| Api.BuildActions | stropt.c:161-188 | the copied and patched table holds `ConfiguredAction(flags)` in every cell (also stropt.c:151) |
| Api.Stroptx | stropt.c:147-190 | `stroptx` returns the count of the configured scan, fills the arrays with it, writes nothing in a dry run, and leaves the input untouched when `buf` is another array |
| Serialize.Field | stropt.c:207-211 | one kept slot as printed: the tag and, when there is an argument, `eq` (none when 0) and the argument; see Serialize.PrintSlot |
| Serialize.Fields | stropt.c:204-214 | the printed fields of the slots not deleted, in order; see Serialize.DeletedSkipped |
| Serialize.Join | stropt.c:204-214 | the fields with `nextsep` between them, none before the first (also stropt.c:194, 206, 212); see Serialize.PrintSlot and RoundTrip.RebuiltBack |
| Serialize.Rebuilt | stropt.c:204-216 | the joined fields plus one newline when `sep` is `'\n'` and a field was kept; Serialize.Stropt2Buf proves the C loop prints it, Serialize.NothingKept and RoundTrip.RebuiltBack state its cases |
| Serialize.TagCount | stropt.c:204 | serialization stops at the first NULL tag: slots before it are not NULL |
| Serialize.PrintSlot | stropt.c:206-211 | a kept slot prints the pending separator (none when 0), the tag, and, when there is an argument, `eq` (none when 0) and the argument |
| Serialize.Stropt2Buf | stropt.c:192-221 | the loop with `nextsep` produces `Rebuilt`: the kept fields before the NULL tag, joined by `sep`, plus one newline when `sep` is `'\n'` and a field was kept |
| Serialize.Stropt2Str | stropt.h:107-109 | `stropt2str` returns what `stropt2buf(NULL, 0, …)` returns |
| Serialize.DeletedSkipped | stropt.h:100-101 | deleting slot k (STROPTX_DELETED_TAG, stropt.h:111) prints exactly what the arrays without slot k print: no text and no separator |
| Serialize.NothingKept | stropt.c:204-216 | when every slot is deleted, the output is empty, with no separator and no trailing newline (also stropt.c:194) |
| Tokens.TextCopies | stropt.c:71-76 | ordinary bytes are copied in CHAR and ARG, and so is a second `=` in ARG (also stropt.c:55, 60) |
| Tokens.SingleQuotedCopies | stropt.c:77-80 | inside single quotes every class except the closing quote and END is copied, and the state stays (also stropt.c:61, 64) |
| Tokens.DoubleQuotedCopies | stropt.c:78-81 | the same for double quotes (also stropt.c:62, 65) |
| Tokens.TagQuoteMarks | stropt.c:161-170 | quote marks in tags open and close the quoted states and are copied only under KEEP_QUOTATION_MARKS_IN_TAGS; after a separator they also start a tag (also stropt.c:55-56, 61-62, 71-72, 77-78) |
| Tokens.ArgQuoteMarks | stropt.c:171-177 | the same for arguments, under KEEP_QUOTATION_MARKS_IN_ARGS (also stropt.c:60, 64-65, 76, 80-81) |
| Tokens.EscapeMarks | stropt.c:161-174 | a backslash enters ESC/AESC and is copied only when the matching keep flag is set (also stropt.c:55-56, 60, 71-72, 76) |
| Tokens.Escaped | stropt.c:79-82 | the byte after a backslash is copied, unless it is a newline, and the scan returns to CHAR/ARG (also stropt.c:63, 66) |
| Tokens.Comments | stropt.c:71-74 | `#` ends a tag and enters COMM; COMM discards everything but a newline, which returns to SEP (with a newline tag under the flag) (also stropt.c:55-56, 58, 185) |
| Tokens.Separators | stropt.c:178-181 | without ALLOW_MULTIPLE_SEP a separator after a separator does nothing; with it, it does NEWTAG and ENDTAG, and the end after a separator gains ENDTAG (also stropt.c:56, 72) |
| Tokens.Markers | stropt.c:71-76 | the first `=` of a tag does NEWARG; a later `=` is copied; an `=` right after a separator is dropped (also stropt.c:55-56, 60) |
| Tokens.Newlines | stropt.c:182-188 | an unquoted newline ends a tag or argument like a separator, and adds ENDLINE under NEWLINE_TAGS (also stropt.c:55-56, 60, 71-72, 76) |
| Tokens.OpenTag | stropt.c:119-122 | the first byte of a tag sets `thistag` to the write cursor and is copied (also stropt.c:72) |
| Tokens.CloseTag | stropt.c:107-112 | a separator after a tag stores (tag, NULL) and counts one option (also stropt.c:71, 132-133) |
| Tokens.OpenArg | stropt.c:103-106 | `=` after a tag ends it and stores it in the current slot, and the argument starts after the NUL (also stropt.c:71, 119-120) |
| Tokens.CloseArg | stropt.c:113-118 | a separator after an argument stores it and counts one option (also stropt.c:76, 132-133) |
| Tokens.EndInTag | stropt.c:127-137 | the NUL after a tag stores it and the sentinel, and counts two (also stropt.c:71, 107-112) |
| Tokens.EndInArg | stropt.c:127-137 | the NUL after an argument stores it and the sentinel, and counts two (also stropt.c:76, 113-118) |
| Tokens.EndAtBoundary | stropt.c:127-137 | without STROPTX_ALLOW_MULTIPLE_SEP, the NUL after a separator stores only the sentinel and counts one (also stropt.c:72) |
| Tokens.EmptyTagAtEnd | stropt.c:178-181 | with STROPTX_ALLOW_MULTIPLE_SEP, the NUL after a separator stores an empty tag at the write cursor and then the sentinel, and counts two (also stropt.c:107-112, 127-137) |
| Tokens.EmptyTag | stropt.c:107-120 | under ALLOW_MULTIPLE_SEP a second separator stores an empty tag (also stropt.c:179) |
| Tokens.NewlineAfterTag | stropt.c:107-126 | under NEWLINE_TAGS a newline after a tag stores the tag and then ("\n", NULL), and counts two (also stropt.c:134-135, 183) |
| Tokens.QuotedArg | stropt.c:171-177 | a single-quoted argument text is copied without its quotes, or with them under KEEP_QUOTATION_MARKS_IN_ARGS (also stropt.c:60, 64, 76, 80) |
| Tokens.EscapedArg | stropt.c:76-82 | an escaped byte in an argument is copied without the backslash, or with it under the keep flag (also stropt.c:60, 66, 174) |
| Tokens.TagText | stropt.c:119-122 | a plain word after a separator is copied as one tag whose start is `thistag` (also stropt.c:55-56, 71-72) |
| Tokens.TagField | stropt.c:107-112 | a plain tag and a separator fill one (tag, NULL) slot (also stropt.c:71-72) |
| Tokens.TagLine | stropt.c:107-126 | a plain tag and a newline fill one slot, plus the ("\n", NULL) slot under NEWLINE_TAGS (also stropt.c:71, 183) |
| Tokens.LastTag | stropt.c:107-137 | a plain tag at the end of the input fills one slot and the sentinel (also stropt.c:71) |
| Tokens.OptionField | stropt.c:103-118 | `tag=arg` and a separator fill one (tag, arg) slot (also stropt.c:71, 76) |
| Tokens.LastOption | stropt.c:103-137 | `tag=arg` at the end fills one slot and the sentinel (also stropt.c:71, 76) |
| Tokens.QuotedOption | stropt.c:76-80 | `tag='text'` and a separator fill the slot (tag, text), separators inside the quotes included (also stropt.c:60, 64) |
| Tokens.EscapedLastOption | stropt.c:76-82 | `tag=\b` at the end fills the slot (tag, "b") (also stropt.c:60, 66) |
| RoundTrip.WrittenRun | stropt.c:97-139 | scanning plain options, each followed by a separator, fills one slot per option |
| RoundTrip.ScanList | stropt.c:97-139 | a printed list of plain options scans to its slots followed by the sentinel |
| RoundTrip.ThroughRecords | stropt.c:103-118 | those slots hold the options, in order |
| RoundTrip.ReadBack | stropt.h:11-13 | a scan whose slots hold options fs returns the number of options in fs plus one, and its tags and arguments read back as fs |
| RoundTrip.RebuiltBack | stropt.c:204-216 | the serializer, given those arrays, prints fs joined by `sep` |
| RoundTrip.OptionListRoundTrip | stropt.h:4-13 | printing plain options with a separator and `=`, scanning the result and rebuilding it gives back the options and the string (plus the trailing newline when `sep` is `'\n'`) (also stropt.h:100) |
| Examples.FontString | stropt.h:7 | the three options font=12, typeface=bodoni and italic print as `font=12,typeface=bodoni,italic` |
| Examples.FontExample | stropt.h:7 | `stropt("font=12,typeface=bodoni,italic")` returns 4, reads back (font, 12), (typeface, bodoni), (italic, NULL), and rebuilds to the same string |
| Examples.QuotedThenEscaped | stropt.h:8-9 | `t='x',u=\b` fills (t, x) and (u, "b") under any configuration that classifies its bytes so |
| Examples.DefaultQuotedThenEscaped | stropt.h:8-9 | the same under the default tables |
| Examples.QuotingExample | stropt.h:8-9 | `stropt("values='1,2,3,4',equal=\=")` returns 3, reads back (values, "1,2,3,4") and (equal, "="), and rebuilds to `values=1,2,3,4,equal==` |
| Behaviours.SeparatorRun | stropt.h:94-95 | without ALLOW_MULTIPLE_SEP, a run of separators between two tags acts as one: the count is 3, and the options are the two tags |
| Behaviours.EmptyFieldScan | stropt.c:178-181 | with the flag, two separators in a row scan to a slot holding an empty tag (also stropt.c:72) |
| Behaviours.EmptyField | stropt.h:94-96 | with ALLOW_MULTIPLE_SEP, two separators in a row denote an empty field: the count is 4, and the empty tag lies between the two tags |
| Behaviours.EmptyInput | stropt.h:11-13 | the empty string returns 1 and reads back no option without STROPTX_ALLOW_MULTIPLE_SEP; with it, it returns 2 and reads back one empty tag (also stropt.c:180) |
| Behaviours.TrailingSeparatorScan | stropt.c:178-181 | a tag followed by a separator and the end scans to its slot and the sentinel, with an empty-tag slot between them under the flag (also stropt.c:107-112, 127-137) |
| Behaviours.TrailingSeparator | stropt.h:94-96 | a separator after the last tag returns 2 and reads back the tag without STROPTX_ALLOW_MULTIPLE_SEP; with it, a trailing empty field follows: it returns 3 and reads back the tag and an empty tag |
| Behaviours.NewlineTags | stropt.h:97 | a newline between two tags is a ("\n", NULL) option under STROPTX_NEWLINE_TAGS (count 4), and a plain separator without it (count 3) |
| Behaviours.CommentRun | stropt.c:72-74 | a comment from `#` to the newline, after a separator, leaves the machine as it was (also stropt.c:58) |
| Behaviours.CommentSkipped | stropt.h:76 | a comment line between two tags is discarded: the count is 3 |
| Behaviours.CommentAsText | stropt.h:78-81 | when `#` is ordinary, `#c` is an option like any other: the count is 4 |
| Behaviours.NoCommentClasses | stropt.c:157-160 | dropping `#` from the features changes the class of `#` alone, to CHAR unless it is a separator |
| Behaviours.CommentFeature | stropt.h:78-81 | with all features `#c` is a comment (count 3); with features `"=\n'\"\\"` it is the tag `#c` (count 4) |
| Behaviours.RunAgrees | stropt.c:97-139 | two configurations with the same flags and the same class for every byte scan alike |
| Behaviours.FeaturesDefault | stropt.h:79-80 | `features == NULL` scans, counts and reads back exactly as `features == "#=\n'\"\\"` |
| Behaviours.SeparatorsDefault | stropt.h:83 | `sep == NULL` scans, counts and reads back exactly as `sep == " \t;,"` |

## Left out

- Stream output in `stropt2buf`: the model returns the output as a byte
  sequence instead of using `open_memstream`/`fmemopen`. Truncation to a
  caller buffer of `size` bytes and the NULL return when no stream can be
  opened are not modelled, because they depend on the C library's streams.
- Serialize.Stropt2Buf: models the `buf == NULL` path only. The
  fixed-buffer path writes the same bytes, cut to the buffer's size by the
  stream.
- The `#if 0` demo `parse_args`/`main` in stropt.c and the example blocks
  of stropt.h are stdin/printf drivers.
- The static `charmap` of `stroptx` is shared between calls, which makes
  `stroptx` non-reentrant. The model builds a fresh array per call.
- Bytes are 0..255. The C code indexes `charmap` with a possibly signed
  `char`, which is undefined for bytes from 0x80. The model classifies those
  bytes through the same 256-entry table, as CHAR unless they are listed as
  separators.
- `args == NULL`: the header allows it (stropt.h:46-58, 103), but the engine
  and the serializer dereference `args` whenever `tags` is not NULL. The
  model therefore requires `args` whenever `tags` is given, and requires
  `tags` and `args` to be distinct arrays.
- Pointers:
  - Pointers into `buf` are offsets.
  - `STROPTX_DELETED_TAG` is a constructor of the slot datatype rather than
    the address `(char *) -1`.
  - The only aliasing modelled is `buf` being the input array.
- The serializer's input is the dereferenced slots rather than the pointers.
- Deleted arguments are not modelled: the C code would dereference
  `(char *) -1`.
- RoundTrip.OptionListRoundTrip: stated for options whose tags and arguments
  are plain text. The serializer does not quote, so a text holding a
  separator or a quote does not survive the round trip.
  The list is not empty: the empty string scans to no option
  (`stropt("")` returns 1) only without STROPTX_ALLOW_MULTIPLE_SEP; with
  the flag it scans to one empty tag and returns 2 (Behaviours.EmptyInput).
- Behaviours.SeparatorRun, Behaviours.EmptyField, Behaviours.NewlineTags,
  Behaviours.CommentSkipped, Behaviours.CommentAsText and
  Behaviours.CommentFeature: each is stated for two plain tags around the
  construct, not for every input. The per-cell lemmas of `Tokens`
  (Tokens.Separators, Tokens.Newlines, Tokens.Comments) give the general
  rule.
- Examples.QuotedThenEscaped and Examples.QuotingExample: the quoted text
  may hold any bytes but the quote and NUL. The escaped byte is any byte but
  a newline and NUL.
