# automata — a verified model of the notation compiler and its simulators

`automata` compiles a small notation for finite automata, pushdown automata
and Turing machines. A source file is a list of declarations, for example
`Q = {q0, q1}`, `F = {q1}` or `d(q0, a) = {q1}`. The loader lexes and parses
it into items, tuples and lists, reads the `type = ...` declaration that
starts the file, and hands the rest to the compiler for that kind of
machine. The compiler checks every name and reports problems into a log of
errors, warnings and notes. It returns a machine only when no error was
logged. The web editor highlights the source, shows the log as coloured
terminal output, and steps the compiled machine through an input one
configuration frontier at a time.

This project models that core in Dafny and proves what each part promises.

- **Current loader** (`automata/src/loader`):
  - the line-aware lexer (`lexer.dfy`);
  - the diagnostics log and its excerpt renderer (`log.dfy`, `text.dfy`);
  - the syntax tree and its typed accessors (`ast.dfy`);
  - the recursive-descent parser, as a class proved against functions of the parser state (`parser.dfy`, `parserspec.dfy`);
  - the context and the dispatcher (`loadercontext.dfy`, `loader.dfy`).
- **Machine compilers** (`automata/src/automatan`):
  - finite automata (`fa.dfy`), pushdown automata (`pda.dfy`), and their shared sections (`automatan.dfy`);
  - the Turing-machine compiler, a class over its fields (`tm.dfy`).
- **First loader and simulator** (`src/loader`, `src/automata`):
  - the lexer, parser, syntax tree and log (`lexer.dfy`, `legacyparser.dfy`, `legacyparserspec.dfy`, `legacyast.dfy`, `legacylog.dfy`);
  - the dense state and symbol tables (`densemaps.dfy`);
  - the pushdown-automaton loader (`npdaload.dfy`) and its frontier simulator (`npdasim.dfy`).
- **Oldest lexer and parser** (`src/lexer.rs`, `src/parser.rs`): `earlylexer.dfy`, `earlyast.dfy`, `earlyparser.dfy`, `earlyparserspec.dfy`.
- **WebAssembly bindings** (`web_lib/src/lib.rs`): `weblib.dfy`.
- **Web front end**:
  - machine grouping (`webautomata.dfy`);
  - the three simulators (`fasim.dfy`, `pdasim.dfy`, `tmsim.dfy`) and their shared frontier (`simfrontier.dfy`);
  - the highlight registry (`highlight.dfy`);
  - ANSI-to-HTML rendering (`ansi.dfy`);
  - the editor's marks (`editoranalysis.dfy`).
- `common.dfy` holds the shared vocabulary: options, spans, and UTF-8/UTF-16 widths.

Where the source updates state step by step, the model does too:

- The parsers, the Turing-machine compiler, the simulators and the highlight registry are classes. Their methods carry `modifies` clauses.
- The compilers' declaration loops are `while` loops.

Each method is proved to compute what a specification function says. That
function's properties are then proved as lemmas:

- the declarations loop leaves a sound draft;
- a loaded machine only refers to declared names;
- a simulator step replaces the frontier by exactly the successors of its paths;
- escaping HTML can be undone.

## Model

| member | source | states |
|---|---|---|
| Common.Join | automata/src/loader/mod.rs:67-69 | a joined span runs from the start of the left span to the end of the right one |
| Common.MapSpanned | automata/src/loader/mod.rs:75-77 | `map` applies the function to the value and never changes the span |
| Common.AsRef | automata/src/loader/mod.rs:79-81 | `as_ref` keeps the value and the span |
| Common.EofSpan | automata/src/loader/mod.rs:111-113 | `eof` is the empty span (len, len) at the end of the source |
| Common.Utf8Len | src/loader/lexer.rs:78-82 | a character advances the byte position by 1 to 4 bytes, and by exactly 1 iff it is ASCII (section 3 of RFC 3629) |
| Common.Utf16Len | web_lib/src/lib.rs:51-52 | a character takes one or two UTF-16 code units, two iff it lies above U+FFFF (section 2.1 of RFC 2781) |
| Common.Utf8WidthConcat | src/loader/lexer.rs:78-82 | the byte length of concatenated text is the sum of the byte lengths |
| Common.Utf16WidthConcat | web_lib/src/lib.rs:51-53 | the UTF-16 length of concatenated text is the sum of the lengths, so running sums can be split at any token |
| Common.OffsetMonotone | src/loader/lexer.rs:78-82 | byte offsets grow strictly with the character index, by at least one per character |
| Common.DecimalRoundTrip | automata/src/loader/log.rs:215 | reading back the decimal rendering of a line number gives the number |
| Common.NatToStringInjective | automata/src/loader/log.rs:215 | distinct line numbers render differently |
| Common.NatToStringLength | automata/src/loader/log.rs:184-188 | a number renders with floor(log10 n) + 1 digits, which the gutter width is compared against |
| Common.PadLeft | automata/src/loader/log.rs:215 | `{:>padding$}` right-aligns in a field of the given width, filling with spaces and keeping the text as its suffix |
| Lexer.SkipBlank | src/loader/lexer.rs:110-121 | the leading-blank loop stops at a line feed, a non-blank or the end, never before its start |
| Lexer.IdentEnd | src/loader/lexer.rs:184-193 | the identifier loop ends within the text, at or after where it began |
| Lexer.TokenAt | src/loader/lexer.rs:124-196 | the token started by the character at `j` always takes at least that character and stays within the text |
| Lexer.Scan | src/loader/lexer.rs:109-199 | an emitted item takes at least one character after the skipped blanks, and its byte span runs from the first non-blank to the new position, so start < end |
| Lexer.ScanEndIffBlank | src/loader/lexer.rs:110-124 | `next` returns None exactly when only white space other than line feeds remains |
| Lexer.LineEndIsOneByte | src/loader/lexer.rs:113-117 | a line feed is returned as LineEnd with a span of exactly that one byte |
| Lexer.EqualsSign | src/loader/lexer.rs:137-143 | `=>` is one LBigArrow token; a lone `=` is Eq and the following character is left unread |
| Lexer.MinusSign | src/loader/lexer.rs:144-150 | `->` is one LSmallArrow token; a `-` not followed by `>` is InvalidChar('-') and the following character is left unread |
| Lexer.IdentEndMaximal | src/loader/lexer.rs:102-104 | every character of the run satisfies continue_ident and the character after it does not |
| Lexer.IdentIsMaximalRun | src/loader/lexer.rs:98-104 | an identifier is one begin_ident character followed by the maximal run of continue_ident characters |
| Lexer.LineCommentThenLineEnd | src/loader/lexer.rs:152-164 | a line comment with no line feed after it hits the out-of-range slice; otherwise its span stops before the line feed and the next item is LineEnd starting where the comment ends |
| Lexer.UnclosedBlockComment | src/loader/lexer.rs:165-176 | a block comment with no closing star-slash runs to the end of the text and gives UnclosedMultiLine |
| Lexer.LexAllOrdered | src/loader/lexer.rs:197-198 | the items of a whole run come in source order, each non-empty and none overlapping |
| Lexer.Lexer.constructor | src/loader/lexer.rs:71-76 | a new lexer is at position 0 of its input |
| Lexer.Lexer.Consume | src/loader/lexer.rs:78-82 | consume returns the next character and advances by its UTF-8 length, or returns None at the end without moving |
| Lexer.Lexer.Peek | src/loader/lexer.rs:84-86 | peek returns the next character without moving |
| Lexer.Lexer.Backtrack | src/loader/lexer.rs:88-94 | backtrack steps back over one character, and does nothing at position 0 |
| Lexer.Lexer.Next | src/loader/lexer.rs:109-199 | one call returns the item, and leaves the cursor where the scanning function says; None at the end, and a panic on the out-of-range comment slice |
| Lexer.Lexer.Rest | src/loader/lexer.rs:124-196 | the dispatch on the first character yields the token the scanning function gives and stops where it stops |
| Lexer.Lexer.LineComment | src/loader/lexer.rs:153-164 | the line-comment loop stops on the line feed, steps back over it, and the comment text runs from after the two slashes through the position |
| Lexer.Lexer.BlockComment | src/loader/lexer.rs:165-176 | the block-comment loop ends after the first star-slash with the text between, or at the end of input with UnclosedMultiLine |
| EarlyLexer.PunctuationDescribesItself | src/lexer.rs:29-52 | the corrected display of every punctuation token is the quoted character the lexer reads for it |
| EarlyLexer.DescribeAsWrittenSwapsParentheses | src/lexer.rs:32-33 | the display as written prints `)` for LPar and `(` for RPar, and agrees with the corrected display on every other token |
| EarlyLexer.SkipSpace | src/lexer.rs:120-124 | the blank-skipping loop, line feeds included, stops within the text at or after where it began |
| EarlyLexer.IdentEnd | src/lexer.rs:180-189 | the identifier loop ends within the text, at or after where it began |
| EarlyLexer.LineCommentEnd | src/lexer.rs:156-160 | a line comment ends just after its line feed, or at the end of the text |
| EarlyLexer.TokenAt | src/lexer.rs:127-192 | the token started by the character at `j` takes at least that character and stays within the text |
| EarlyLexer.Scan | src/lexer.rs:119-196 | an emitted item takes at least one character, and its byte span (start, position) is non-empty and ends at the new position |
| EarlyLexer.ScanSkipsSpace | src/lexer.rs:120-127 | `next` returns None exactly when only white space, line feeds included, remains; otherwise the item starts at the first non-blank |
| EarlyLexer.MinusSign | src/lexer.rs:147-153 | `->` is one LSmallArrow token; a `-` not followed by `>` is InvalidChar('-') and the next character is left unread |
| EarlyLexer.IdentEndMaximal | src/lexer.rs:180-189 | every character of the run is alphanumeric or `_` and the character after it is not |
| EarlyLexer.IdentIsMaximalRun | src/lexer.rs:180-189 | an identifier is an alphabetic character or `_` followed by the maximal run of alphanumerics and `_` |
| EarlyLexer.LineCommentThroughNewline | src/lexer.rs:156-160 | a line comment consumes through its line feed, or to the end of input, and its text is everything after the two slashes up to there |
| EarlyLexer.UnclosedBlockComment | src/lexer.rs:161-172 | a block comment with no closing star-slash runs to the end of the text and gives UnclosedMultiLine |
| EarlyLexer.LexAllOrdered | src/lexer.rs:193-195 | the items of a whole run come in source order, each non-empty and none overlapping |
| EarlyLexer.Lexer.constructor | src/lexer.rs:85-91 | a new lexer has start and position 0 |
| EarlyLexer.Lexer.EofSpan | src/lexer.rs:111-113 | eof_span is the empty span at the input's byte length |
| EarlyLexer.Lexer.Consume | src/lexer.rs:93-97 | consume returns the next character and advances by its UTF-8 length, or returns None at the end without moving |
| EarlyLexer.Lexer.Peek | src/lexer.rs:99-101 | peek returns the next character without moving |
| EarlyLexer.Lexer.Backtrack | src/lexer.rs:103-109 | backtrack steps back over one character, and does nothing at position 0 |
| EarlyLexer.Lexer.Next | src/lexer.rs:119-196 | one call returns the item the scanning function gives and moves to where it stops, and `start` is reset to the new position |
| EarlyLexer.Lexer.Rest | src/lexer.rs:127-192 | the dispatch on the first character yields the token the scanning function gives and stops where it stops |
| EarlyLexer.Lexer.LineComment | src/lexer.rs:156-160 | the line-comment loop stops after the line feed or at the end, with the text from after the slashes to there |
| EarlyLexer.Lexer.BlockComment | src/lexer.rs:161-172 | the block-comment loop ends after the first star-slash with the text between, or at the end with UnclosedMultiLine |
| SourceText.IndexAt | automata/src/loader/log.rs:181-182 | a byte offset maps to the character index at that offset exactly when it is a character boundary, which is when `str::get` succeeds |
| SourceText.Before | automata/src/loader/log.rs:192 | `src.get(..b)` is a prefix of the text when it succeeds |
| SourceText.LastIndexOf | automata/src/loader/log.rs:193 | `rfind` finds the last occurrence of the character, or reports that there is none |
| SourceText.Lines | src/loader/log.rs:133 | `lines()` yields as many lines as `split_inclusive` yields pieces |
| SourceText.SplitInclusiveConcat | automata/src/loader/log.rs:212 | the `split_inclusive` pieces are non-empty and joined give back the text |
| SourceText.SplitInclusiveLines | automata/src/loader/log.rs:212 | every piece but the last ends with its only line feed |
| SourceText.Cells | automata/src/loader/log.rs:230-237 | an underline has one cell per character of its line |
| SourceText.CellAt | automata/src/loader/log.rs:230-237 | the cell of character `p` is `~` exactly when the index has reached a byte offset in `[lo, hi)` there |
| SourceText.Untab | automata/src/loader/log.rs:216-222 | the printed line has a space for each tab and every other character unchanged |
| Log.SetChild | automata/src/loader/log.rs:146-151 | emitting on a chained entry keeps that entry's message, span and level |
| Log.SetChildShape | automata/src/loader/log.rs:146-151 | emitting on the entry `depth` steps down makes the new entry its child, keeps every entry above it, and drops what hung below |
| Log.Logs.constructor | automata/src/loader/log.rs:97-102 | a fresh log has no entries and no error |
| Log.Logs.Emit | automata/src/loader/log.rs:89-93 | emit appends at the end, leaves earlier entries unchanged, sets the flag iff the level is Error, and hands back the appended entry |
| Log.Logs.EmitOn | automata/src/loader/log.rs:146-151 | emitting through a handed-back entry replaces its child and leaves the error flag unchanged |
| Log.Logs.ContainsErrors | automata/src/loader/log.rs:104-106 | contains_errors is true iff some entry emitted on the log has level Error |
| Log.UnderlinesAsWritten | automata/src/loader/log.rs:207-241 | the underline loop as written, which adds one byte per line on top of the line feed already counted, gives one underline per line |
| Log.Underlines | automata/src/loader/log.rs:207-241 | the corrected underline loop gives one underline per line, each continuing at the byte where the previous line ended |
| Log.UnderlinesDrift | automata/src/loader/log.rs:236-239 | as written, the underline of line `k` is computed `k` bytes further on than the line really starts |
| Log.UnderlinesContinue | automata/src/loader/log.rs:207-241 | in the corrected loop the underline of line `k` starts at the excerpt start plus the widths of the lines before it |
| Log.UnderlinesMarkOffsets | automata/src/loader/log.rs:230-237 | in the corrected loop each underline is as long as its line, and a cell is `~` exactly when its character's byte offset lies in `[span.0, span.1)` |
| Log.UnderlineMarksSpan | automata/src/loader/log.rs:190-241 | in a rendered excerpt the cell under each source character is `~` exactly when that character's byte offset lies in the span |
| Log.LinesWidthJoined | automata/src/loader/log.rs:207-214 | the bytes of the first `k` lines of the split are the bytes of those lines joined |
| Log.PiecePosition | automata/src/loader/log.rs:207-214 | character `p` of piece `k` of `split_inclusive` of the excerpt is the source character at the matching index and byte offset |
| Log.GutterAligned | automata/src/loader/log.rs:184-188 | with the corrected gutter, every line number up to the last is printed as wide as the underline indent of padding + 3 |
| Log.GutterAsWrittenMisaligned | automata/src/loader/log.rs:184-188 | as written, in an excerpt ending at line 10 the gutter of line 9 is one column narrower than the underline indent |
| Log.UnderlineAsWrittenMissesSecondLine | automata/src/loader/log.rs:230-239 | as written, for `ab` newline `cd` and span [1, 4), the `c` at byte 3 gets no `~`, while the corrected loop marks it |
| Log.WriteExcerpt | automata/src/loader/log.rs:180-241 | the excerpt writer produces the numbered lines and underlines of the span's lines, with the corrected gutter and underline index (see Findings) |
| Log.WriteBlocks | automata/src/loader/log.rs:207-241 | the line loop produces each line's block in order, with the corrected underline index carried from line to line (see Findings) |
| Log.WriteBlock | automata/src/loader/log.rs:215-240 | one line's block is the corrected gutter (see Findings), the line with tabs as spaces, a line break unless the line ends in one, the indent and the underline |
| Log.Display | automata/src/loader/log.rs:169-244 | rendering prints the entry's header and corrected excerpt (see Findings), then those of each entry of its child chain, in order |
| LegacyLog.Logs.constructor | src/loader/log.rs:12-18 | a fresh log holds the source, has no entries and no error |
| LegacyLog.Logs.ContainsErrors | src/loader/log.rs:20-22 | contains_errors is true iff some emitted entry has level Error |
| LegacyLog.Logs.Emit | src/loader/log.rs:24-27 | emit appends the entry and sets the flag iff its level is Error; the flag never clears |
| LegacyLog.Logs.EmitErrorLocless | src/loader/log.rs:29-35 | appends an Error entry without a span and sets the flag |
| LegacyLog.Logs.EmitError | src/loader/log.rs:37-43 | appends an Error entry with the span and sets the flag |
| LegacyLog.Logs.EmitWarning | src/loader/log.rs:45-51 | appends a Warning entry with the span and leaves the flag |
| LegacyLog.Logs.EmitWarningLocless | src/loader/log.rs:53-59 | appends a Warning entry without a span and leaves the flag |
| LegacyLog.Logs.EmitInfo | src/loader/log.rs:61-67 | appends an Info entry with the span and leaves the flag |
| LegacyLog.NoErrorsConcat | src/loader/log.rs:24-27 | a log built in two parts is error-free iff both parts are |
| LegacyLog.Underlines | src/loader/log.rs:132-158 | one underline per `lines()` line, the index moving one byte past each line for its removed line feed |
| LegacyLog.Render | src/loader/log.rs:105-159 | rendering fails (the `ilog10(0)` panic) exactly when the entry has a span and the text before its end has no lines |
| LegacyLog.UnderlinesContinue | src/loader/log.rs:147-156 | while no earlier line ended in a carriage return, line `k`'s underline starts where the pieces before it end |
| LegacyLog.LinesMarkOffsets | src/loader/log.rs:147-154 | in such lines each cell is `~` exactly when its character's byte offset lies in `[span.0, span.1)` |
| LegacyLog.UnderlineMarksSpan | src/loader/log.rs:118-158 | in an excerpt without carriage returns the cell under each source character is `~` exactly when its byte offset lies in the span |
| LegacyLog.LinesOfCrFreeText | src/loader/log.rs:133 | in text without carriage returns each `lines()` line before the last is its piece without the line feed |
| LegacyLog.CrlfLineMissesUnderline | src/loader/log.rs:156 | on a CRLF line ending the index skips one byte of two, so the next line's underline is off by one |
| LegacyLog.Display | src/loader/log.rs:94-162 | the renderer prints the header and then, per excerpt line, the gutter, the line with tabs as spaces and its underline; None for the panic |
| LegacyLog.WriteBlocks | src/loader/log.rs:132-158 | the line loop produces each line's block in order with the index carried over |
| LegacyLog.WriteBlock | src/loader/log.rs:134-157 | one line's block is gutter, untabbed line, line break, indent and underline |
| Ast.Weak | automata/src/loader/ast.rs:107-119 | `list_weak` and `set_weak` give a list's elements, or a one-element slice holding the item itself, and never log |
| Ast.WeakAgreesWithExpectSet | automata/src/loader/ast.rs:87-119 | `set_weak` gives what `expect_set` accepts and otherwise only the item itself |
| Ast.AccessorsPartition | automata/src/loader/ast.rs:68-105 | every ident is a symbol, the symbols that are not idents are exactly the epsilons, and exactly the lists are neither symbols nor tuples |
| Ast.ExpectSymbol | automata/src/loader/ast.rs:68-75 | accepts Ident and Epsilon symbols; a tuple or list logs exactly one "expected ident found ..." error at the item's span |
| Ast.ExpectIdent | automata/src/loader/ast.rs:77-85 | returns the name exactly for an Ident; an epsilon, tuple or list logs exactly one error and gives None |
| Ast.ExpectSet | automata/src/loader/ast.rs:87-95 | returns the elements exactly for a list and logs exactly one error otherwise |
| Ast.ExpectList | automata/src/loader/ast.rs:97-105 | returns the elements exactly for a list and logs exactly one error otherwise |
| Ast.ExpectTuple | automata/src/loader/ast.rs:121-129 | returns the tuple with the item's own span exactly for a tuple and logs exactly one error otherwise |
| LoaderContext.Context.constructor | automata/src/loader/mod.rs:96-101 | a new context holds the source and a fresh log with no entries and no error |
| LoaderContext.Context.Eof | automata/src/loader/mod.rs:111-113 | eof is the empty span at the source's byte length |
| LoaderContext.Context.ContainsErrors | automata/src/loader/mod.rs:115-117 | the context has errors iff some entry of its log has level Error |
| ParserSpec.Pull | automata/src/loader/parser.rs:46-57 | the lexer loop passes over comments and lexical errors, hands out the first other item, and holds it in the peek slot exactly when it is a line end; None only when the items are used up |
| ParserSpec.PullLogs | automata/src/loader/parser.rs:47-55 | each lexical error passed over is logged once, in order, as "lexer: ..." at its span |
| ParserSpec.PullSkips | automata/src/loader/parser.rs:47-55 | everything passed over is a comment or an error, and the token handed out is the first item that is neither |
| ParserSpec.NextOpt | automata/src/loader/parser.rs:40-58 | `next_token_optional` never hands out a comment, keeps a line end held, and consumes input whenever it hands out another token |
| ParserSpec.PeekOpt | automata/src/loader/parser.rs:60-65 | `peek_token_optional` holds what it shows, None only at the end of input, and changes nothing when a token is already held |
| ParserSpec.NextTok | automata/src/loader/parser.rs:67-70 | `next_token` hands out the held or next token, a LineEnd at the eof span at the end of input, and empties the slot unless the token is a line end |
| ParserSpec.PeekTok | automata/src/loader/parser.rs:72-75 | `peek_token` shows the held token or the synthetic LineEnd at the eof span, never a comment, and changes nothing once a token is held |
| ParserSpec.PeekIdempotent | automata/src/loader/parser.rs:60-75 | peeking twice shows the same token and the second peek changes nothing; the peeked token is what `next_token` hands out |
| ParserSpec.LineEndIsSticky | automata/src/loader/parser.rs:34-45 | once a LineEnd is held, `next_token_optional`, `next_token` and `peek_token` keep returning it, and only `advance_line` clears it |
| ParserSpec.Expect | automata/src/loader/parser.rs:77-91 | `expect_token` reports a match iff the upcoming token is the expected one, returns its span, consumes it only on a match, and on a mismatch logs exactly one "unexpected ... expected ..." error and leaves it in place |
| ParserSpec.AdvanceLine | automata/src/loader/parser.rs:34-38 | at a held line end, `advance_line` empties the peek slot and does nothing else |
| ParserSpec.AsSymbol | automata/src/loader/parser.rs:93-111 | `~` and the epsilon spellings become Epsilon carrying their spelling, other identifiers become Ident with their name, and any other token logs one error and gives `<INVALID>`, always at the token's span |
| ParserSpec.ParseSymbol | automata/src/loader/parser.rs:113-116 | `parse_symbol` takes one token, so it consumes input unless that token is a line end |
| ParserSpec.ParseItem | automata/src/loader/parser.rs:142-164 | `parse_item` consumes at least one token unless a line end is upcoming, which it leaves in place |
| ParserSpec.ItemKind | automata/src/loader/parser.rs:142-164 | the item is a tuple exactly when `(` is upcoming and a bare symbol exactly when none of `(`, `{` and `[` is upcoming |
| ParserSpec.ParseTupple | automata/src/loader/parser.rs:118-140 | `parse_tupple` consumes input whenever it starts at `(` |
| ParserSpec.TuppleShape | automata/src/loader/parser.rs:118-123 | a tuple starts at the token where it was expected; without `(` it is the empty tuple at that token, whose mismatch is logged and which is left unconsumed |
| ParserSpec.TuppleLoopKeeps | automata/src/loader/parser.rs:125-139 | the tuple loop keeps every item parsed so far, also when cut off at the end of the line, and the tuple starts at its `(` |
| ParserSpec.ListSeparator | automata/src/loader/parser.rs:186-204 | after an item a comma is consumed if present and remembered, so the list has seen a comma iff one was seen before or is next; a change of comma use is only a warning |
| ParserSpec.ListPass | automata/src/loader/parser.rs:187-204 | one item and its separator consume input unless the line has ended, and a line end is left in place |
| ParserSpec.ListRoundShape | automata/src/loader/parser.rs:187-212 | a loop turn that ends the list keeps the items so far and gives a kind that fits the closing token and the commas; a turn that goes on never forgets a comma |
| ParserSpec.ListItemTurnShape | automata/src/loader/parser.rs:205-211 | a list cut off by the end of the line keeps its items and is `BraceComma`, whatever its brackets |
| ParserSpec.ListLoopShape | automata/src/loader/parser.rs:186-221 | the list keeps every item parsed, starts at its opening token, and its kind fits its closing delimiter and whether any comma was seen |
| ParserSpec.ListKindMatchesOpener | automata/src/loader/parser.rs:169-171 | a list opened by `{` is a brace list, one opened by `[` is never `Brace`, and the list starts at its opening token |
| ParserSpec.ListWrongOpener | automata/src/loader/parser.rs:172-183 | a list that does not start with `{` or `[` logs one error naming both closing tokens and is the empty `BracketComma` list at that token |
| ParserSpec.LhsLoop | automata/src/loader/parser.rs:229-235 | the left-hand side keeps the first symbol and stops at `->` or the end of the line |
| ParserSpec.GroupSymbols | automata/src/loader/parser.rs:250-252 | an alternative's symbols run up to the bar `Or` or the end of the line |
| ParserSpec.OneGroup | automata/src/loader/parser.rs:248-262 | an alternative stops at the bar `Or` or the line end and spans its first to its last symbol, or the rule's start when empty |
| ParserSpec.GroupsLoop | automata/src/loader/parser.rs:248-269 | the alternatives loop adds at least one group, keeps the earlier ones, and stops at the end of the line |
| ParserSpec.ProductionRule | automata/src/loader/parser.rs:228-288 | `parse_production_rule` always gives a rule that starts at its first symbol and whose left-hand side begins with it, and stops at the end of the line |
| ParserSpec.TransitionFunction | automata/src/loader/parser.rs:290-304 | `parse_transition_function` gives a transition function named by the identifier and starting at it, or nothing when `=` is missing |
| ParserSpec.SkipLine | automata/src/loader/parser.rs:349 | the recovery loop drops tokens up to and including a line end and never raises the progress measure |
| ParserSpec.ElementStep | automata/src/loader/parser.rs:309-358 | a line end gives nothing; `ident (` can only give a transition function, `ident =` only an item, and any other pair only a production rule; the line is logged and dropped otherwise |
| ParserSpec.ElementLoop | automata/src/loader/parser.rs:307-359 | the loop returns the first element found, never a table, and nothing only at the end of input |
| ParserSpec.NextElement | automata/src/loader/parser.rs:306-362 | `next_element` consumes input when it returns an element and returns nothing only at the end of input |
| ParserSpec.Elements | automata/src/loader/parser.rs:17-23 | iterating the parser to the end uses up the whole input |
| ParserSpec.ElementsAreNotTables | automata/src/loader/parser.rs:306-362 | collecting the parser keeps the elements found before and adds no table |
| ParserSpec.SkipComma | automata/src/loader/parser.rs:127-129 | skipping the optional comma never moves backwards and keeps a held line end held |
| ParserSpec.TuppleLoop | automata/src/loader/parser.rs:125-139 | the tuple loop never moves backwards through the input |
| ParserSpec.TuppleTurn | automata/src/loader/parser.rs:126-134 | a turn of the tuple loop never moves backwards, and one that goes on has consumed input |
| ParserSpec.ParseList | automata/src/loader/parser.rs:166-222 | `parse_list` never moves backwards, and consumes input unless it starts at a line end |
| ParserSpec.ListRound | automata/src/loader/parser.rs:187-212 | a turn of the list loop never moves backwards, and one that goes on has consumed input |
| ParserSpec.ListItemTurn | automata/src/loader/parser.rs:188-211 | a turn that parses an item never moves backwards, and one that goes on has consumed input |
| ParserSpec.AfterListItem | automata/src/loader/parser.rs:205-211 | after an item the loop goes on exactly when no line end is held |
| ParserSpec.ListLoop | automata/src/loader/parser.rs:186-221 | the list loop never moves backwards through the input |
| Parser.Parser.constructor | automata/src/loader/parser.rs:26-32 | a new parser reads the lexer's items of the context's source from the start with nothing held |
| Parser.Parser.NextTokenOptional | automata/src/loader/parser.rs:40-58 | updates the peek slot, the lexer position and the log exactly as `ParserSpec.NextOpt` says, so a held line end stays held |
| Parser.Parser.PeekTokenOptional | automata/src/loader/parser.rs:60-65 | updates the parser state exactly as `ParserSpec.PeekOpt` says |
| Parser.Parser.NextToken | automata/src/loader/parser.rs:67-70 | hands out the token and new state `ParserSpec.NextTok` gives, with the synthetic LineEnd at eof |
| Parser.Parser.PeekToken | automata/src/loader/parser.rs:72-75 | shows the token and leaves the state `ParserSpec.PeekTok` gives |
| Parser.Parser.ExpectToken | automata/src/loader/parser.rs:77-91 | matches, consumes and logs exactly as `ParserSpec.Expect` says: consumed only on a match, one error otherwise |
| Parser.Parser.AdvanceLine | automata/src/loader/parser.rs:34-38 | clears the sticky line end exactly as `ParserSpec.AdvanceLine` says |
| Parser.Parser.ParseAsSymbol | automata/src/loader/parser.rs:93-111 | converts the token as `ParserSpec.AsSymbol` says |
| Parser.Parser.ParseSymbol | automata/src/loader/parser.rs:113-116 | takes a token and converts it as `ParserSpec.ParseSymbol` says |
| Parser.Parser.ParseTupple | automata/src/loader/parser.rs:118-140 | parses a tuple with the result and state `ParserSpec.ParseTupple` gives |
| Parser.Parser.ParseTuppleItems | automata/src/loader/parser.rs:125-139 | the tuple loop gives the result and state of `ParserSpec.TuppleLoop` |
| Parser.Parser.ParseItem | automata/src/loader/parser.rs:142-164 | parses an item with the result and state `ParserSpec.ParseItem` gives |
| Parser.Parser.ParseList | automata/src/loader/parser.rs:166-222 | parses a list with the result and state `ParserSpec.ParseList` gives |
| Parser.Parser.ParseListItems | automata/src/loader/parser.rs:186-221 | the list loop gives the result and state of `ParserSpec.ListLoop` |
| Parser.Parser.ListSeparator | automata/src/loader/parser.rs:190-204 | the comma check and optional comma follow `ParserSpec.ListSeparator` |
| Parser.Parser.ListPass | automata/src/loader/parser.rs:188-204 | one item and its separator follow `ParserSpec.ListPass` |
| Parser.Parser.ParseProductionRule | automata/src/loader/parser.rs:228-288 | parses a production rule with the result and state `ParserSpec.ProductionRule` gives |
| Parser.Parser.ParseGroup | automata/src/loader/parser.rs:249-262 | parses one alternative as `ParserSpec.OneGroup` says |
| Parser.Parser.ParseTransitionFunction | automata/src/loader/parser.rs:290-304 | parses a transition function as `ParserSpec.TransitionFunction` says |
| Parser.Parser.SkipLine | automata/src/loader/parser.rs:349 | drops the rest of the line as `ParserSpec.SkipLine` says |
| Parser.Parser.ElementStep | automata/src/loader/parser.rs:309-358 | one pass of the element loop follows `ParserSpec.ElementStep` |
| Parser.Parser.NextElement | automata/src/loader/parser.rs:306-362 | `next_element` gives the element and state `ParserSpec.NextElement` gives |
| Parser.Parser.Collect | automata/src/loader/parser.rs:17-23 | draining the parser gives all elements in source order, as `ParserSpec.Elements` says, and uses up the input |
| Parser.Parser.SkipComma | automata/src/loader/parser.rs:127-129 | skips the optional comma as `ParserSpec.SkipComma` says |
| Parser.Parser.TuppleTurn | automata/src/loader/parser.rs:126-134 | one turn of the tuple loop follows `ParserSpec.TuppleTurn` |
| Parser.Parser.ListRound | automata/src/loader/parser.rs:187-212 | one turn of the list loop follows `ParserSpec.ListRound` |
| Parser.Parser.ListItemTurn | automata/src/loader/parser.rs:188-211 | a turn that parses an item follows `ParserSpec.ListItemTurn` |
| Parser.Parser.AfterListItem | automata/src/loader/parser.rs:205-211 | the test after an item follows `ParserSpec.AfterListItem` |
| LegacyParserSpec.Pull | src/loader/parser.rs:42-55 | the lexer loop of `next_token` passes over comments and lexical errors, hands out the first other item and holds it in the peek slot exactly when it is a line end; None only once the items are used up |
| LegacyParserSpec.PullLogs | src/loader/parser.rs:50-52 | each lexical error passed over is logged once, in order, as "lexer: ..." at its span |
| LegacyParserSpec.PullSkips | src/loader/parser.rs:43-53 | everything passed over is a comment or an error, and the token handed out is the first item that is neither |
| LegacyParserSpec.NextTok | src/loader/parser.rs:36-56 | `next_token` never hands out a comment, keeps a held line end held, consumes input whenever it hands out any other token, and at the end of input returns None with nothing held |
| LegacyParserSpec.PeekTok | src/loader/parser.rs:58-63 | `peek_token` holds what it shows and changes nothing once a token is held |
| LegacyParserSpec.PeekIdempotent | src/loader/parser.rs:58-63 | peeking twice shows the same token and changes nothing more; the peeked token is the one `next_token` hands out, with the same log |
| LegacyParserSpec.LineEndIsSticky | src/loader/parser.rs:26-38 | once a LineEnd is held, `next_token` and `peek_token` keep returning it, and `advance_line` only empties the slot |
| LegacyParserSpec.Expect | src/loader/parser.rs:65-84 | `expect_token` reports a match iff the upcoming token is the expected one, returns its span (the eof span at the end of input), consumes it only on a match, and otherwise logs exactly one "unexpected ..." error |
| LegacyParserSpec.AdvanceLine | src/loader/parser.rs:26-34 | `advance_line` does nothing at the end of input, empties the slot at a line end, and otherwise logs one error naming the token found and leaves it in place |
| LegacyParserSpec.AdvanceLineAtEof | src/loader/parser.rs:27-29 | at the end of input with nothing held, `advance_line` changes nothing |
| LegacyParserSpec.ParseSymbol | src/loader/parser.rs:86-116 | `~`, `epsilon` and the Greek epsilon are Epsilon, other identifiers are themselves, anything else is `<INVALID>` with exactly one error logged; the symbol carries the token's span, or the eof span at the end of input |
| LegacyParserSpec.ParseItem | src/loader/parser.rs:152-190 | `parse_item` consumes at least one token unless the line or the input has ended, where the upcoming token is left in place |
| LegacyParserSpec.ItemKind | src/loader/parser.rs:152-158 | the item is a tuple exactly when `(` is upcoming and a list exactly when `{` or `[` is upcoming |
| LegacyParserSpec.ParseTupple | src/loader/parser.rs:118-150 | `parse_tupple` consumes input whenever it starts at `(` |
| LegacyParserSpec.SkipComma | src/loader/parser.rs:127-129 | the comma after an item is consumed iff it is upcoming; a line end stays upcoming |
| LegacyParserSpec.AfterItem | src/loader/parser.rs:127-144 | after an item the loop goes on unless the line or input has ended; a cut-off tuple or list keeps every item parsed and starts at its opening token |
| LegacyParserSpec.TuppleTurn | src/loader/parser.rs:125-145 | one pass of the tuple loop consumes input when it goes on and keeps the items so far when it ends |
| LegacyParserSpec.TuppleLoopKeeps | src/loader/parser.rs:125-149 | the tuple loop keeps every item parsed so far, also when cut off at the end of the line, and the tuple starts at its `(` |
| LegacyParserSpec.TuppleShape | src/loader/parser.rs:118-123 | a tuple starts at its `(`; without `(` it is the empty tuple and the token found is left unconsumed |
| LegacyParserSpec.ParseList | src/loader/parser.rs:192-255 | `parse_list` consumes input whenever a token other than a line end is upcoming |
| LegacyParserSpec.ListTurn | src/loader/parser.rs:224-245 | one pass of the list loop consumes input when it goes on, never forgets a comma once seen, and keeps the items so far when it ends |
| LegacyParserSpec.ListLoopShape | src/loader/parser.rs:223-254 | a list keeps the items parsed before each turn, starts at its opening token, and its kind fits its closing token and its commas (a cut-off list is BraceComma) |
| LegacyParserSpec.ListKindMatchesOpener | src/loader/parser.rs:195-253 | a list opened by `{` is Brace or BraceComma, one opened by `[` is never Brace, and a list starts at the token taken |
| LegacyParserSpec.SymbolRun | src/loader/parser.rs:268-295 | the symbol loops of `parse_production_rule` keep the symbols so far and stop only at the end of input or a stop token, which is left held |
| LegacyParserSpec.OneGroup | src/loader/parser.rs:289-306 | an alternative ends at the end of input, a line end or the bar `Or`, and its span runs from its first to its last symbol (the rule's start when empty) |
| LegacyParserSpec.GroupsLoop | src/loader/parser.rs:288-313 | the alternatives loop adds at least one alternative and keeps those before it |
| LegacyParserSpec.ProductionRule | src/loader/parser.rs:261-332 | a production rule starts at its first symbol, and its left-hand side begins with that symbol |
| LegacyParserSpec.RuleHasAlternatives | src/loader/parser.rs:286-320 | once `->` is found the right-hand side has at least one alternative, so "cannot have empty production rule" is never logged |
| LegacyParserSpec.TransitionFunction | src/loader/parser.rs:334-348 | a transition function is named by its identifier and starts there; nothing is returned when `=` is missing |
| LegacyParserSpec.SkipLine | src/loader/parser.rs:412-419 | the recovery loop drops tokens until the input ends or a line end is held |
| LegacyParserSpec.ElementStep | src/loader/parser.rs:353-421 | one pass of `next_element`'s loop follows the arms in order: a line end goes round again; `name (` gives a transition function, an epsilon spelling or identifier followed by `->`, an identifier or `~` gives a production rule led by Epsilon or that identifier, `name =` gives a declaration; anything found starts with an identifier or `~` |
| LegacyParserSpec.ElementRound | src/loader/parser.rs:351-352 | each pass consumes input unless the input has ended |
| LegacyParserSpec.NextElement | src/loader/parser.rs:350-425 | `next_element` returns None only at the end of input, never returns a table, and consumes input when it returns an element |
| LegacyParserSpec.Elements | src/loader/parser.rs:427-435 | `parse_elements` drains the input |
| LegacyParserSpec.ElementsAreNotTables | src/loader/parser.rs:427-435 | the elements come in source order after those found before, and none of them is a table |
| LegacyParserSpec.TuppleLoop | src/loader/parser.rs:125-149 | the tuple loop never moves backwards through the input |
| LegacyParserSpec.ListLoop | src/loader/parser.rs:224-254 | the list loop never moves backwards through the input |
| LegacyParserSpec.RuleRhs | src/loader/parser.rs:286-331 | after `->` the rule keeps the left-hand side it was given, starts at the rule's first symbol and has at least one alternative, so the empty-rule error is never logged |
| LegacyParser.Parser.constructor | src/loader/parser.rs:14-20 | a new parser reads the lexer's items of the source from the start, with an empty log over that source and nothing held; `input()` and `eof_span()` of the lexer are taken as the source text and the empty span at its end |
| LegacyParser.Parser.NextToken | src/loader/parser.rs:36-56 | hands out the token and leaves the peek slot, lexer position and log as `LegacyParserSpec.NextTok` says |
| LegacyParser.Parser.PeekToken | src/loader/parser.rs:58-63 | shows the token and leaves the state `LegacyParserSpec.PeekTok` gives |
| LegacyParser.Parser.ExpectToken | src/loader/parser.rs:65-84 | matches, consumes and logs exactly as `LegacyParserSpec.Expect` says |
| LegacyParser.Parser.AdvanceLine | src/loader/parser.rs:26-34 | changes the state as `LegacyParserSpec.AdvanceLine` says |
| LegacyParser.Parser.ParseSymbol | src/loader/parser.rs:86-116 | returns the symbol and new state `LegacyParserSpec.ParseSymbol` gives |
| LegacyParser.Parser.ParseItem | src/loader/parser.rs:152-190 | returns the item and new state `LegacyParserSpec.ParseItem` gives |
| LegacyParser.Parser.ParseTupple | src/loader/parser.rs:118-150 | returns the tuple and new state `LegacyParserSpec.ParseTupple` gives |
| LegacyParser.Parser.SkipComma | src/loader/parser.rs:127-129 | consumes the comma after an item as `LegacyParserSpec.SkipComma` says |
| LegacyParser.Parser.AfterItem | src/loader/parser.rs:127-144 | ends or continues the tuple or list loop as `LegacyParserSpec.AfterItem` says |
| LegacyParser.Parser.TuppleItems | src/loader/parser.rs:125-149 | the loop of `parse_tupple` yields the tuple and state `LegacyParserSpec.TuppleLoop` gives |
| LegacyParser.Parser.TuppleTurn | src/loader/parser.rs:125-145 | one pass of the tuple loop does what `LegacyParserSpec.TuppleTurn` says |
| LegacyParser.Parser.ParseList | src/loader/parser.rs:192-255 | returns the list and new state `LegacyParserSpec.ParseList` gives |
| LegacyParser.Parser.ListItems | src/loader/parser.rs:223-254 | the loop of `parse_list` yields the list and state `LegacyParserSpec.ListLoop` gives |
| LegacyParser.Parser.ListTurn | src/loader/parser.rs:224-245 | one pass of the list loop does what `LegacyParserSpec.ListTurn` says |
| LegacyParser.Parser.SymbolRun | src/loader/parser.rs:268-295 | the symbol loops give the symbols and state `LegacyParserSpec.SymbolRun` gives |
| LegacyParser.Parser.ParseGroup | src/loader/parser.rs:289-306 | one alternative is parsed as `LegacyParserSpec.OneGroup` says |
| LegacyParser.Parser.ParseGroups | src/loader/parser.rs:288-313 | the alternatives loop gives what `LegacyParserSpec.GroupsLoop` gives |
| LegacyParser.Parser.ParseProductionRule | src/loader/parser.rs:261-332 | returns the rule and new state `LegacyParserSpec.ProductionRule` gives |
| LegacyParser.Parser.ParseTransitionFunction | src/loader/parser.rs:334-348 | returns what `LegacyParserSpec.TransitionFunction` gives |
| LegacyParser.Parser.SkipLine | src/loader/parser.rs:412-419 | drops tokens as `LegacyParserSpec.SkipLine` says |
| LegacyParser.Parser.ElementStep | src/loader/parser.rs:353-421 | one pass of `next_element`'s loop does what `LegacyParserSpec.ElementStep` says |
| LegacyParser.Parser.NextElement | src/loader/parser.rs:350-425 | returns the element and new state `LegacyParserSpec.NextElement` gives |
| LegacyParser.Parser.ParseElements | src/loader/parser.rs:427-435 | returns the elements and final state `LegacyParserSpec.Elements` gives: all input consumed, no tables |
| LegacyParser.Parser.ParseRuleRhs | src/loader/parser.rs:286-331 | parses the alternatives after `->` with the rule and state `LegacyParserSpec.RuleRhs` gives |
| LegacyAst.WeakAgreesWithExpectSet | src/loader/ast.rs:97-109 | `list_weak`/`set_weak` give a list's elements, exactly what `expect_set` accepts, and the item alone otherwise |
| LegacyAst.MismatchNamesShapes | src/loader/ast.rs:65-121 | an accessor's error is at the item's span and names the shape found: ident, list and tuple exactly when the item is one |
| LegacyAst.NpdaSource | src/loader/ast.rs:136-158 | a transition function's arguments are accepted iff they are exactly (ident, ident or epsilon, ident), and then their names and spans are returned |
| LegacyAst.NpdaMove | src/loader/ast.rs:159-173 | a transition target is accepted iff it is exactly (ident, item), and then gives the state and the weak view of the item |
| LegacyAst.ExpectIdent | src/loader/ast.rs:65-75 | returns the identifier's name, and otherwise logs exactly one "expected ident found ..." error at the item |
| LegacyAst.ExpectSet | src/loader/ast.rs:77-85 | returns a list's elements, and otherwise logs exactly one "expected set found ..." error |
| LegacyAst.ExpectList | src/loader/ast.rs:87-95 | returns a list's elements, and otherwise logs exactly one "expected list found ..." error |
| LegacyAst.ExpectTuple | src/loader/ast.rs:111-121 | returns the tuple with the item's span, and otherwise logs exactly one "expected tuple found ..." error |
| LegacyAst.ExpectNpdaSource | src/loader/ast.rs:136-158 | returns `NpdaSource` of the tuple, and logs the shape error at the tuple's span exactly when it is None |
| LegacyAst.ExpectNpdaMove | src/loader/ast.rs:159-173 | returns `NpdaMove` of the tuple, and logs the shape error at the tuple's span exactly when it is None |
| EarlyParserSpec.Settle | src/parser.rs:66-77 | the loop of `next_token` passes over comments and lexical errors and stops at the first other item or the end of the items |
| EarlyParserSpec.SettleLogs | src/parser.rs:70-75 | everything passed over is a comment or an error, and each error is logged once, in order, at its span |
| EarlyParserSpec.SettleIdempotent | src/parser.rs:66-77 | passing over comments and errors a second time changes nothing |
| EarlyParserSpec.NextTok | src/parser.rs:65-78 | `next_token` never returns a comment, consumes input whenever it returns a token, and returns None only once the items are used up |
| EarlyParserSpec.PeekTok | src/parser.rs:80-93 | `peek_token`, corrected (see Findings), shows the token `next_token` would return without taking it, passing over comments and errors, and is None exactly at the end of the items |
| EarlyParserSpec.PeekAgreesWithNext | src/parser.rs:65-93 | the corrected peek shows what `next_token` returns, `next_token` after a peek returns the same as without it, and a second peek changes nothing |
| EarlyParserSpec.PeekRoundAsWritten | src/parser.rs:81-92 | as written, one pass of `peek_token`'s loop logs a lexical error without moving past it |
| EarlyParserSpec.PeekAsWrittenNeverReturns | src/parser.rs:81-92 | as written, `peek_token` at a lexical error is still at that item after any number of passes, having logged the same error once per pass |
| EarlyParserSpec.PeekAsWrittenShowsComments | src/parser.rs:82-84 | as written, `peek_token` shows a comment that `next_token` then passes over, so the two disagree |
| EarlyParserSpec.Expect | src/parser.rs:95-117 | `expect_token` takes the next token whatever it is, reports a match iff it is the expected token, returns its span (the eof span at the end of input), and logs exactly one error on a mismatch; its messages print tokens with the as-written display of `src/lexer.rs:30-35` |
| EarlyParserSpec.ParseSymbol | src/parser.rs:119-153 | `~`, `epsilon` and `ε` are Epsilon, other identifiers are themselves, and anything else is `<INVALID>` at the token's span with one error logged at the eof span; the token is taken in every case; its messages print tokens with the as-written display of `src/lexer.rs:30-35` |
| EarlyParserSpec.SkipComma | src/parser.rs:164-166 | the comma after an element is taken iff it is upcoming |
| EarlyParserSpec.ParseTupple | src/parser.rs:155-184 | `parse_tupple`, peeking with the corrected peek (see Findings), always takes at least the token where `(` was expected; its messages print tokens with the as-written display of `src/lexer.rs:30-35` |
| EarlyParserSpec.TuppleClose | src/parser.rs:181-183 | the `)` is expected after the loop and the tuple keeps the symbols parsed; its messages print tokens with the as-written display of `src/lexer.rs:30-35` |
| EarlyParserSpec.TuppleLoop | src/parser.rs:162-179 | the tuple loop, peeking with the corrected peek (see Findings), keeps every symbol parsed before each pass; its messages print tokens with the as-written display of `src/lexer.rs:30-35` |
| EarlyParserSpec.ParseItem | src/parser.rs:186-223 | `parse_item`, corrected (see Findings), takes at least one token whenever one is upcoming; its messages print tokens with the as-written display of `src/lexer.rs:30-35` |
| EarlyParserSpec.ParseList | src/parser.rs:225-252 | `parse_list`, with the corrected `parse_item` and peek (see Findings), always takes at least the token where `{` was expected; its messages print tokens with the as-written display of `src/lexer.rs:30-35` |
| EarlyParserSpec.ListClose | src/parser.rs:250-251 | the `}` is expected after the corrected list loop (see Findings) and the list keeps the items parsed; its messages print tokens with the as-written display of `src/lexer.rs:30-35` |
| EarlyParserSpec.ListLoop | src/parser.rs:232-249 | the list loop, with the corrected `parse_item` and peek (see Findings), keeps every item parsed before each pass |
| EarlyParserSpec.ParseItemAsWritten | src/parser.rs:191-205 | as written, `parse_item` logs a token that cannot start an item but does not take it; its messages print tokens with the as-written display of `src/lexer.rs:30-35` |
| EarlyParserSpec.ListRoundAsWritten | src/parser.rs:232-249 | as written, one pass of the list loop with the as-written `parse_item`; its messages print tokens with the as-written display of `src/lexer.rs:30-35` |
| EarlyParserSpec.ListAsWrittenSpins | src/parser.rs:186-249 | as written, a list whose next token cannot start an item and is neither `}` nor `,` goes round again at the same token, adding one `<INVALID>` item and one error per pass |
| EarlyParserSpec.ListRoundProgresses | src/parser.rs:232-236 | with `parse_item` corrected, every pass of the list loop that goes on takes at least one token |
| EarlyParserSpec.Assignment | src/parser.rs:260-272 | an assignment starts at its identifier; its destination is a function exactly when `(` follows the identifier and is the bare name otherwise; its item is parsed with the corrected `parse_item` (see Findings) |
| EarlyParserSpec.Elements | src/parser.rs:254-283 | `parse_elements`, with the corrected `parse_item` and peek (see Findings), drains the input and keeps the elements found before; its messages print tokens with the as-written display of `src/lexer.rs:30-35` |
| EarlyParserSpec.ElementsAreAssignments | src/parser.rs:254-283 | every element `parse_elements` adds is an assignment |
| EarlyParser.Parser.constructor | src/parser.rs:61-63 | a new parser reads the lexer's items of the source from the start, with the eof span after the last byte and an empty log |
| EarlyParser.Parser.NextToken | src/parser.rs:65-78 | returns the token and new state `EarlyParserSpec.NextTok` gives |
| EarlyParser.Parser.PeekToken | src/parser.rs:80-93 | returns the token and state the corrected `EarlyParserSpec.PeekTok` gives, which passes over comments (see Findings) |
| EarlyParser.Parser.ExpectToken | src/parser.rs:95-117 | matches, consumes and logs exactly as `EarlyParserSpec.Expect` says, with the as-written token display |
| EarlyParser.Parser.ParseSymbol | src/parser.rs:119-153 | returns the symbol and new state `EarlyParserSpec.ParseSymbol` gives, with the as-written token display |
| EarlyParser.Parser.SkipComma | src/parser.rs:164-166 | takes the comma as `EarlyParserSpec.SkipComma` says |
| EarlyParser.Parser.ParseTupple | src/parser.rs:155-184 | returns the tuple and new state `EarlyParserSpec.ParseTupple` gives, with the corrected peek (see Findings) |
| EarlyParser.Parser.TuppleSymbols | src/parser.rs:162-183 | the loop of `parse_tupple` yields what `EarlyParserSpec.TuppleLoop` gives, with the corrected peek (see Findings) |
| EarlyParser.Parser.ParseItem | src/parser.rs:186-223 | returns the item and new state the corrected `EarlyParserSpec.ParseItem` gives (see Findings) |
| EarlyParser.Parser.ParseList | src/parser.rs:225-252 | returns the list and new state `EarlyParserSpec.ParseList` gives, with the corrected `parse_item` and peek (see Findings) |
| EarlyParser.Parser.ListItems | src/parser.rs:232-251 | the loop of `parse_list` yields what `EarlyParserSpec.ListLoop` gives, with the corrected `parse_item` (see Findings) |
| EarlyParser.Parser.ParseAssignment | src/parser.rs:260-272 | returns the assignment and new state `EarlyParserSpec.Assignment` gives, with the corrected `parse_item` (see Findings) |
| EarlyParser.Parser.ParseElements | src/parser.rs:254-283 | returns the elements and final state `EarlyParserSpec.Elements` gives, with the corrected `parse_item` and peek (see Findings): all input consumed, every element an assignment |
| Automatan.NoErrorsConcat | automata/src/loader/log.rs:104-106 | a log is free of errors exactly when both its halves are |
| Automatan.OnlyErrors | automata/src/automatan/fa.rs:228-234 | a log made only of errors is free of errors exactly when it is empty |
| Automatan.Check | automata/src/automatan/fa.rs:228-234 | a check after the loop adds an error exactly when it fails |
| Automatan.ParseCheck | automata/src/automatan/fa.rs:228-234 | logs what `Check` gives and nothing else |
| Automatan.Chained | automata/src/loader/log.rs:147-151 | emitting on an entry keeps its level and hangs the note below it |
| Automatan.EmitChained | automata/src/loader/mod.rs:157-166 | `emit_error(..).emit_help_logless(..)` appends one entry, the error with the help hung below it |
| Automatan.NameEntriesKeys | automata/src/automatan/fa.rs:70-80 | after a named set the names are exactly the earlier ones and the identifiers of the list; nothing else is dropped or added |
| Automatan.NameEntriesPrefix | automata/src/automatan/fa.rs:70-80 | the entries a named set logs come after those of any prefix of the list |
| Automatan.NameRepeatLogged | automata/src/automatan/fa.rs:74-79 | a name that occurs twice in a set is reported as redefined at its second occurrence |
| Automatan.NamesSectionGrows | automata/src/automatan/fa.rs:63-85 | a names section never forgets a name declared before |
| Automatan.ParseNameEntry | automata/src/automatan/fa.rs:71-79 | one element of a named set: the map and log `NameEntry` gives |
| Automatan.ParseNameEntries | automata/src/automatan/fa.rs:70-80 | the loop over a named set gives the map and log `NameEntries` gives |
| Automatan.ParseNamesBody | automata/src/automatan/fa.rs:67-84 | a named set after the `already` check: the map and log `NamesBody` gives, including "... cannot be empty" |
| Automatan.ParseNamesSection | automata/src/automatan/fa.rs:63-85 | a whole `Q` section: the map and log `NamesSection` gives |
| Automatan.LetterEntriesKeys | automata/src/automatan/fa.rs:93-108 | every identifier of the alphabet becomes a letter, also one longer than one character |
| Automatan.LetterEntriesSound | automata/src/automatan/fa.rs:98-100 | letters are never dropped, and when nothing was reported every letter is a single character |
| Automatan.LettersSectionSound | automata/src/automatan/fa.rs:86-112 | the same for a whole alphabet section |
| Automatan.ParseLetterEntry | automata/src/automatan/fa.rs:94-107 | one letter: the map and log `LetterEntry` gives |
| Automatan.ParseLetterEntries | automata/src/automatan/fa.rs:93-108 | the loop over the alphabet gives what `LetterEntries` gives |
| Automatan.ParseLettersBody | automata/src/automatan/fa.rs:90-111 | the alphabet after the `already` check gives what `LettersBody` gives |
| Automatan.ParseLettersSection | automata/src/automatan/fa.rs:86-112 | a whole alphabet section gives what `LettersSection` gives |
| Automatan.FinalEntriesWithinStates | automata/src/automatan/fa.rs:120-134 | final states stay among the states whatever is logged, and an identifier that is not a state is reported |
| Automatan.ParseFinalEntry | automata/src/automatan/fa.rs:121-133 | one final state: the map and log `FinalEntry` gives |
| Automatan.ParseFinalEntries | automata/src/automatan/fa.rs:120-134 | the loop over the final states gives what `FinalEntries` gives |
| Automatan.ChoiceSection | automata/src/automatan/fa.rs:136-148 | a chosen initial name is either the one chosen before or a declared one |
| Automatan.ParseChoiceSection | automata/src/automatan/fa.rs:136-148 | the choice and log `ChoiceSection` gives |
| Automatan.DefaultChoice | automata/src/automatan/fa.rs:236-246 | a missing choice falls back to the default name with one entry, an error exactly when that name is not declared; a present choice logs nothing |
| Automatan.ParseDefaultChoice | automata/src/automatan/fa.rs:236-246 | the name and log `DefaultChoice` gives |
| Automatan.AddTargetDuplicate | automata/src/automatan/fa.rs:202-209 | re-adding a present target changes nothing and is a "duplicate transition" warning, with no error when non-determinism is permitted |
| Automatan.AddTargetKeeps | automata/src/automatan/fa.rs:193-209 | adding a target records it under its starting point, leaves every other starting point alone, and keeps every starting point at exactly one target unless non-determinism is permitted or an error was logged |
| Automatan.ParseAddTarget | automata/src/automatan/fa.rs:193-209 | the map and log `AddTarget` gives |
| Automatan.LetterOf | automata/src/automatan/fa.rs:164-180 | a letter is kept, epsilon gives no letter, and at most one error is logged: none exactly when epsilon moves are permitted (for epsilon) or the letter is in the alphabet |
| Automatan.ParseLetterOf | automata/src/automatan/fa.rs:164-180 | the letter and log `LetterOf` gives |
| FiniteAutomata.Source | automata/src/automatan/fa.rs:262-277 | `expect_fa_transition_function` accepts exactly a tuple of an identifier and a symbol |
| FiniteAutomata.TransitionDecl | automata/src/automatan/fa.rs:153-211 | a transition declaration changes only the transitions; a malformed argument tuple or an undeclared starting state changes nothing and logs exactly one error |
| FiniteAutomata.TargetListSound | automata/src/automatan/fa.rs:182-210 | targets added under a starting point are declared states, no other starting point appears, and each starting point keeps one target unless non-determinism is permitted or an error was logged |
| FiniteAutomata.TargetListComplete | automata/src/automatan/fa.rs:182-210 | every target identifier that names a state is recorded under the starting point with its own span and the function's |
| FiniteAutomata.DeclareSound | automata/src/automatan/fa.rs:59-226 | each declaration keeps the loop invariant: initial and final states, starting points and targets are declared states, and letters, epsilon moves and branching are right unless an error was logged |
| FiniteAutomata.SoundWeakens | automata/src/automatan/fa.rs:248-250 | the compile invariant still holds after more errors are logged, because an error only relaxes its one-target and one-character rules |
| FiniteAutomata.ItemDeclSound | automata/src/automatan/fa.rs:63-151 | every named declaration keeps the invariant |
| FiniteAutomata.StatesDeclSound | automata/src/automatan/fa.rs:63-85 | a `Q` section keeps the invariant |
| FiniteAutomata.AlphabetDeclSound | automata/src/automatan/fa.rs:86-112 | an alphabet section keeps the invariant |
| FiniteAutomata.InitialDeclSound | automata/src/automatan/fa.rs:136-148 | an `I`/`q0` declaration keeps the invariant |
| FiniteAutomata.StatesGrowSound | automata/src/automatan/fa.rs:74-79 | more states keep the invariant |
| FiniteAutomata.AlphabetGrowsSound | automata/src/automatan/fa.rs:102-107 | more single-character letters keep the invariant |
| FiniteAutomata.FinalsDeclSound | automata/src/automatan/fa.rs:113-135 | an `F` section keeps the invariant |
| FiniteAutomata.TransitionDeclSound | automata/src/automatan/fa.rs:153-211 | a transition declaration keeps the invariant |
| FiniteAutomata.DeclarationsSound | automata/src/automatan/fa.rs:59-226 | the declaration loop keeps the invariant from the empty draft on |
| FiniteAutomata.CompiledWellFormed | automata/src/automatan/fa.rs:228-258 | a machine compiled without an error has its initial, final, starting and target states among the states, a non-empty alphabet of single characters, only declared letters, epsilon moves only when permitted and, unless non-determinism is permitted, one target per starting point |
| FiniteAutomata.FinishChecks | automata/src/automatan/fa.rs:228-246 | no error after the loop means an alphabet, states and an initial state among them |
| FiniteAutomata.ParseTarget | automata/src/automatan/fa.rs:183-209 | one target: the table and log `Target` gives |
| FiniteAutomata.ParseTargetList | automata/src/automatan/fa.rs:182-210 | the loop over the targets gives what `TargetList` gives |
| FiniteAutomata.ParseTransitionDecl | automata/src/automatan/fa.rs:153-211 | the draft and log `TransitionDecl` gives |
| FiniteAutomata.ParseFinalsDecl | automata/src/automatan/fa.rs:113-135 | the draft and log `FinalsDecl` gives |
| FiniteAutomata.ParseItemDecl | automata/src/automatan/fa.rs:63-151 | the draft and log `ItemDecl` gives |
| FiniteAutomata.ParseDeclaration | automata/src/automatan/fa.rs:59-225 | the draft and log `Declare` gives |
| FiniteAutomata.ParseFinish | automata/src/automatan/fa.rs:228-258 | the machine and log `Finish` gives |
| FiniteAutomata.Parse | automata/src/automatan/fa.rs:44-259 | `Fa::parse` logs what `Compiled` gives and returns a machine exactly when the context holds no error, and that machine is well formed |
| PushdownAutomata.PushListReversed | automata/src/automatan/pda.rs:252-267 | what a transition pushes is exactly the declared stack symbols of its list, in reverse order |
| PushdownAutomata.PushListQuiet | automata/src/automatan/pda.rs:255-265 | the pushed list logs nothing exactly when every item is an epsilon or a declared stack symbol |
| PushdownAutomata.PushListDeclared | automata/src/automatan/pda.rs:261-264 | every symbol pushed is a declared stack symbol |
| PushdownAutomata.Source | automata/src/automatan/pda.rs:361-383 | `expect_pda_transition_function` accepts exactly (ident, symbol, ident) |
| PushdownAutomata.Move | automata/src/automatan/pda.rs:384-398 | `expect_pda_transition` accepts exactly an identifier followed by one item |
| PushdownAutomata.TransitionDecl | automata/src/automatan/pda.rs:202-289 | a transition declaration changes only the transitions |
| PushdownAutomata.TargetSound | automata/src/automatan/pda.rs:239-287 | one target keeps targets at declared states with declared pushed symbols, adds no other starting point, and keeps the branching discipline |
| PushdownAutomata.TargetListSound | automata/src/automatan/pda.rs:239-288 | the loop over the targets does the same for all of them |
| PushdownAutomata.TransitionDeclSound | automata/src/automatan/pda.rs:202-289 | a transition declaration keeps the loop invariant |
| PushdownAutomata.TransitionTargetsSound | automata/src/automatan/pda.rs:239-288 | targets under a checked starting point keep the invariant |
| PushdownAutomata.SoundWeakens | automata/src/automatan/pda.rs:344-346 | the compile invariant still holds after more errors are logged, because an error only relaxes its one-target and one-character rules |
| PushdownAutomata.DeclareSound | automata/src/automatan/pda.rs:66-304 | each declaration keeps the invariant: initial state and stack symbol, final states, starting points and targets are declared, and letters, epsilon moves and branching are right unless an error was logged |
| PushdownAutomata.ItemDeclSound | automata/src/automatan/pda.rs:70-200 | every named declaration keeps the invariant |
| PushdownAutomata.InitialDeclSound | automata/src/automatan/pda.rs:169-181 | an `I`/`q0` declaration keeps the invariant |
| PushdownAutomata.InitialStackDeclSound | automata/src/automatan/pda.rs:182-197 | an `S`/`z0` declaration keeps the invariant |
| PushdownAutomata.StatesDeclSound | automata/src/automatan/pda.rs:70-92 | a `Q` section keeps the invariant |
| PushdownAutomata.SymbolsDeclSound | automata/src/automatan/pda.rs:145-168 | a stack symbols section keeps the invariant |
| PushdownAutomata.AlphabetDeclSound | automata/src/automatan/pda.rs:93-119 | an alphabet section keeps the invariant |
| PushdownAutomata.FinalsDeclSound | automata/src/automatan/pda.rs:120-144 | an `F` section keeps the invariant |
| PushdownAutomata.GrowsSound | automata/src/automatan/pda.rs:70-168 | more states, stack symbols or single-character letters keep the invariant |
| PushdownAutomata.DeclarationsSound | automata/src/automatan/pda.rs:66-304 | the declaration loop keeps the invariant from the empty draft on |
| PushdownAutomata.FinishChecks | automata/src/automatan/pda.rs:306-342 | no error after the loop means stack symbols, an alphabet, states, and initial state and stack symbol among them |
| PushdownAutomata.MissingChecks | automata/src/automatan/pda.rs:306-316 | no "never defined" error means stack symbols, an alphabet and states |
| PushdownAutomata.CompiledWellFormed | automata/src/automatan/pda.rs:306-356 | a machine compiled without an error is well formed: declared initial state and stack symbol, final states among the states, a non-empty alphabet of single characters, and a transition table over declared states, symbols and letters with the branching discipline |
| PushdownAutomata.ParsePushSymbol | automata/src/automatan/pda.rs:255-265 | one pushed item: the symbols and log `PushSymbol` gives |
| PushdownAutomata.ParsePushList | automata/src/automatan/pda.rs:252-267 | the pushed list, read from its last item: the symbols and log `PushList` gives |
| PushdownAutomata.ParseTarget | automata/src/automatan/pda.rs:240-287 | one target: the table and log `Target` gives |
| PushdownAutomata.ParseTargetList | automata/src/automatan/pda.rs:239-288 | the loop over the targets gives what `TargetList` gives |
| PushdownAutomata.ParseTransitionDecl | automata/src/automatan/pda.rs:202-289 | the draft and log `TransitionDecl` gives |
| PushdownAutomata.ParseFinalsDecl | automata/src/automatan/pda.rs:120-144 | the draft and log `FinalsDecl` gives |
| PushdownAutomata.ParseItemDecl | automata/src/automatan/pda.rs:70-200 | the draft and log `ItemDecl` gives |
| PushdownAutomata.ParseDeclaration | automata/src/automatan/pda.rs:66-303 | the draft and log `Declare` gives |
| PushdownAutomata.ParseMissing | automata/src/automatan/pda.rs:306-316 | logs the "never defined" errors `Missing` gives |
| PushdownAutomata.ParseFinish | automata/src/automatan/pda.rs:306-342 | the machine and log `Finish` gives |
| PushdownAutomata.Parse | automata/src/automatan/pda.rs:50-357 | `Pda::parse` logs what `Compiled` gives and returns a machine exactly when the context holds no error, and that machine is well formed |
| PushdownAutomata.TupleTargetSound | automata/src/automatan/pda.rs:242-287 | a target tuple keeps targets at declared states with declared pushed symbols, adds no other starting point, and keeps the branching invariant |
| PushdownAutomata.ParseTupleTarget | automata/src/automatan/pda.rs:242-287 | a target already known to be a tuple: the table and log `TupleTarget` gives |
| TuringMachines.Alternatives | automata/src/loader/mod.rs:16-35 | the `maker!(str: ...)` spelling list is each name between single quotes, so it starts and ends with a quote |
| TuringMachines.ChainedNamesKeys | automata/src/automatan/tm.rs:225-238 | after a set of names the names are exactly the earlier ones and the identifiers of the list, and the last occurrence's span wins |
| TuringMachines.SetBodyGrows | automata/src/automatan/tm.rs:216-243 | a section of names never forgets one, records the identifiers of a set, and is marked as defined exactly when its item is a set |
| TuringMachines.Choice | automata/src/automatan/tm.rs:303-347 | the initial state or blank symbol is kept or becomes a declared name defined at this declaration; nothing is logged exactly when none was chosen before and the item is an identifier that is declared |
| TuringMachines.DirectionSpellings | automata/src/automatan/tm.rs:437-440 | a direction is named exactly by its spellings (`left`/`L`/`<`, `right`/`R`/`>`, epsilon/`~`), and every other identifier names none |
| TuringMachines.Source | automata/src/automatan/tm.rs:411-426 | `expect_tm_transition_function` accepts exactly two identifiers and returns them with their spans |
| TuringMachines.Move | automata/src/automatan/tm.rs:427-463 | `expect_tm_transition` accepts exactly (ident, ident, symbol), logging the shape error otherwise; an unknown direction is logged once and read as no move |
| TuringMachines.TransitionDecl | automata/src/automatan/tm.rs:349-407 | a transition declaration changes only the transitions |
| TuringMachines.TransitionDeclSkips | automata/src/automatan/tm.rs:349-368 | a malformed argument tuple or an undeclared state or tape symbol changes nothing and logs exactly one error |
| TuringMachines.SoundWeakens | automata/src/automatan/tm.rs:169-171 | the compile invariant still holds after more errors are logged, because an error only relaxes its one-target rule |
| TuringMachines.TargetListSound | automata/src/automatan/tm.rs:370-406 | targets added are declared states and tape symbols, no other starting point appears, and the branching discipline is kept |
| TuringMachines.TargetListComplete | automata/src/automatan/tm.rs:370-406 | every well-shaped target whose state and symbol are declared is recorded under the starting point |
| TuringMachines.TransitionDeclSound | automata/src/automatan/tm.rs:349-407 | a transition declaration keeps the loop invariant |
| TuringMachines.StatesDeclSound | automata/src/automatan/tm.rs:216-243 | `compile_states` keeps the invariant |
| TuringMachines.SymbolsDeclSound | automata/src/automatan/tm.rs:245-272 | `compile_symbols` keeps the invariant |
| TuringMachines.FinalsDeclSound | automata/src/automatan/tm.rs:274-301 | `compile_final_states` keeps the invariant |
| TuringMachines.ItemDeclSound | automata/src/automatan/tm.rs:186-195 | every named declaration keeps the invariant |
| TuringMachines.DeclareSound | automata/src/automatan/tm.rs:183-214 | `compile_top_level` keeps the invariant: initial state, blank symbol, final states, starting points and targets are declared, and branching is right unless an error was logged |
| TuringMachines.DeclarationsSound | automata/src/automatan/tm.rs:118-120 | the declaration loop keeps the invariant |
| TuringMachines.FinishChecks | automata/src/automatan/tm.rs:122-171 | an empty table is only a warning, and no error after the loop means final states were given, the initial state is a state and the blank symbol a state or a tape symbol |
| TuringMachines.CompiledWellFormed | automata/src/automatan/tm.rs:114-181 | a machine compiled without an error is well formed |
| TuringMachines.TapeSectionNamedByDelta | automata/src/automatan/tm.rs:187-192 | `T = {...}` selects no section while `d = {...}` declares tape symbols, as the match is written |
| TuringMachines.BlankMustBeState | automata/src/automatan/tm.rs:326-347 | `B = x` with `x` not a state is an error and leaves the blank symbol unset, even when `x` is a tape symbol |
| TuringMachines.EmitTwoNotes | automata/src/automatan/tm.rs:160-166 | a warning with a help note and an info note below it is one entry with the notes chained |
| TuringMachines.ExpectSource | automata/src/automatan/tm.rs:411-426 | returns `Source` and logs the shape error exactly when it is None |
| TuringMachines.ExpectMove | automata/src/automatan/tm.rs:427-463 | returns and logs what `Move` gives |
| TuringMachines.TmCompiler.constructor | automata/src/automatan/tm.rs:97-112 | a new compiler has nothing declared |
| TuringMachines.TmCompiler.Compile | automata/src/automatan/tm.rs:114-181 | logs what `Compiled` gives and returns a machine exactly when the context holds no error, and that machine is well formed |
| TuringMachines.TmCompiler.FinishAll | automata/src/automatan/tm.rs:122-180 | the machine and log `Finish` gives |
| TuringMachines.TmCompiler.FinishFinals | automata/src/automatan/tm.rs:122-126 | logs "final states never defined" with its help exactly as `MissingFinals` says |
| TuringMachines.TmCompiler.FinishTransitions | automata/src/automatan/tm.rs:160-167 | logs the "no transitions defined" warning as `NoTransitions` says |
| TuringMachines.TmCompiler.FinishInitial | automata/src/automatan/tm.rs:128-142 | the initial state and log `DefaultInitial` gives |
| TuringMachines.TmCompiler.FinishBlank | automata/src/automatan/tm.rs:144-158 | the blank symbol and log `DefaultBlank` gives |
| TuringMachines.TmCompiler.CompileTopLevel | automata/src/automatan/tm.rs:183-214 | the new fields and log `Declare` gives |
| TuringMachines.TmCompiler.CompileItem | automata/src/automatan/tm.rs:186-195 | the new fields and log `ItemDecl` gives |
| TuringMachines.TmCompiler.InsertNames | automata/src/automatan/tm.rs:225-238 | the names and log `ChainedNames` gives |
| TuringMachines.TmCompiler.CompileSet | automata/src/automatan/tm.rs:216-243 | the names, definition span and log `SetBody` gives |
| TuringMachines.TmCompiler.CompileStates | automata/src/automatan/tm.rs:216-243 | the new fields and log `StatesDecl` gives |
| TuringMachines.TmCompiler.CompileSymbols | automata/src/automatan/tm.rs:245-272 | the new fields and log `SymbolsDecl` gives |
| TuringMachines.TmCompiler.CompileFinalStates | automata/src/automatan/tm.rs:274-301 | the new fields and log `FinalsDecl` gives |
| TuringMachines.TmCompiler.CompileChoice | automata/src/automatan/tm.rs:303-347 | the choice and log `Choice` gives |
| TuringMachines.TmCompiler.CompileInitialState | automata/src/automatan/tm.rs:303-324 | the new fields and log `InitialDecl` gives |
| TuringMachines.TmCompiler.CompileBlankSymbol | automata/src/automatan/tm.rs:326-347 | the new fields and log `BlankDecl` gives, looking the name up among the states |
| TuringMachines.TmCompiler.CompileTransitionFunction | automata/src/automatan/tm.rs:349-407 | the new fields and log `TransitionDecl` gives |
| TuringMachines.TmCompiler.CompileTarget | automata/src/automatan/tm.rs:370-406 | one target: only the transitions change, as `Target` says |
| TuringMachines.Compile | automata/src/automatan/tm.rs:67-75 | `Tm::compile` runs a fresh compiler: logs what `Compiled` gives and returns a well-formed machine exactly when the context holds no error |
| Loader.KindOfSpellings | automata/src/loader/mod.rs:169-175 | a type is named exactly by its two spellings, and `npda` names none (the lower-case arm is spelled `npdaA`) |
| Loader.OptionsOf | automata/src/loader/mod.rs:186-203 | the N types permit both non-determinism and epsilon moves and the D types neither |
| Loader.TypeOf | automata/src/loader/mod.rs:152-184 | reading the type logs nothing when it succeeds and exactly one error when it fails |
| Loader.TypeOfReads | automata/src/loader/mod.rs:152-184 | a type is read exactly from a first declaration `type = <spelling>` of that type |
| Loader.ParseType | automata/src/loader/mod.rs:152-184 | `parse_type` returns and logs what `TypeOf` gives, with the eof span when there is no declaration |
| Loader.Dispatch | automata/src/loader/mod.rs:196-203 | the compiler the type selects logs what it compiles to and returns a well-formed machine of that family exactly when the context holds no error |
| Loader.CompileDeclarations | automata/src/loader/mod.rs:196-203 | after the parse: no machine when the type cannot be read; otherwise the log and machine of the selected compiler, a machine exactly when the log holds no error |
| Loader.ParseUniversal | automata/src/loader/mod.rs:134-204 | `parse_universal` stops with no machine when parsing logged an error; otherwise it appends what type and compiler log, returns a machine exactly when the log holds no error, and that machine is the one the selected compiler builds, well formed for the type read |
| DenseMaps.At | src/automata/mod.rs:27-29 | a dense lookup answers exactly for indices below the length, with the element at that index |
| DenseMaps.GetStateInRange | src/automata/mod.rs:24-30 | a state map answers for a state exactly when its index is within the vector, and with that element |
| DenseMaps.GetSymbolInRange | src/automata/mod.rs:35-41 | a symbol map answers for a symbol exactly when its index is within the vector, and with that element |
| DenseMaps.GetEpsilonCharIsSome | src/automata/mod.rs:68-85 | looking up a letter in an epsilon map is looking up `Some(letter)`; each key answers exactly when present |
| DenseMaps.GetCharIsLookup | src/automata/mod.rs:58-66 | a character map answers exactly for its keys, with the stored value |
| DenseMaps.SlotInjective | src/automata/mod.rs:52-55 | `state + max_state * symbol` names each (state, symbol) pair once when every state is below `max_state` |
| DenseMaps.SlotDecomposes | src/automata/mod.rs:52-55 | the slot modulo `max_state` is the state and the quotient is the symbol |
| DenseMaps.SlotInTable | src/automata/mod.rs:52-55 | every in-range pair lands inside a table of `max_state * symbols` cells |
| DenseMaps.Tabulate | src/automata/mod.rs:43-47 | a table built over all pairs has `max_state * symbols` cells and keeps its `max_state` |
| DenseMaps.TabulateGet | src/automata/mod.rs:49-56 | looking a pair up in a tabulated table gives the value computed for that pair |
| NpdaLoader.NumberEntrySound | src/automata/npda.rs:203-217 | a state or stack-symbol entry keeps every earlier index, gives a new name the next index `len`, and on a redefinition keeps the old index and logs an error; indices stay injective when no error is logged |
| NpdaLoader.NumberEntriesSound | src/automata/npda.rs:203-218 | the whole entry loop keeps earlier names, stays below 65536 and stays injective unless it logs an error |
| NpdaLoader.NumberEntriesKeys | src/automata/npda.rs:203-218 | after the loop the declared names are the earlier ones plus every identifier of the list |
| NpdaLoader.NumberEntryKeys | src/automata/npda.rs:204-217 | one entry adds exactly its identifier, if it is one |
| NpdaLoader.NumbersSectionSound | src/automata/npda.rs:196-223 | a `Q` or `T` section only grows the map, keeps earlier indices and keeps them injective unless it logs an error |
| NpdaLoader.LastIndexQuiet | src/automata/npda.rs:207-213 | the 65536th name gets index 65535 without any message, so a table of 65536 states is accepted |
| NpdaLoader.LetterEntriesSound | src/automata/npda.rs:231-243 | the alphabet loop adds the first character of every identifier, and without errors every letter was exactly one character |
| NpdaLoader.FinalEntriesWithin | src/automata/npda.rs:256-267 | every final state collected is the index of a declared state |
| NpdaLoader.ChoiceSectionDeclared | src/automata/npda.rs:298-326 | an `I` or `S` choice is the earlier one or the index of a declared name |
| NpdaLoader.LetterKeySound | src/automata/npda.rs:350-370 | a transition letter is epsilon or a one-character identifier; a longer identifier logs an error and becomes epsilon; without errors the letter is in the alphabet |
| NpdaLoader.PushListReversed | src/automata/npda.rs:385-400 | the pushed stack is the declared non-epsilon symbols in reverse order |
| NpdaLoader.PushListQuiet | src/automata/npda.rs:385-400 | the push list logs nothing exactly when every entry is epsilon or a declared stack symbol |
| NpdaLoader.PushListDeclared | src/automata/npda.rs:385-400 | every pushed symbol is a declared stack symbol |
| NpdaLoader.TransitionDecl | src/automata/npda.rs:331-411 | a transition declaration changes only the transition map |
| NpdaLoader.Check | src/automata/npda.rs:428-438 | a check after the loop logs no error exactly when it holds |
| NpdaLoader.DefaultIndex | src/automata/npda.rs:440-465 | an explicit choice is kept silently; otherwise one message is logged, an error exactly when the fallback name (`z0` or `q0`) is undeclared, and the fallback's index is used when it exists |
| NpdaLoader.TargetSound | src/automata/npda.rs:373-410 | one target keeps the transition map within the declared states and symbols and adds at most its own key |
| NpdaLoader.TargetListSound | src/automata/npda.rs:373-410 | the target loop keeps the transition map within range and adds at most its key |
| NpdaLoader.TransitionDeclSound | src/automata/npda.rs:331-411 | a transition declaration keeps the draft sound, with letters in the alphabet unless it logs an error |
| NpdaLoader.GrowsSound | src/automata/npda.rs:192-425 | a draft grown from a sound one with the same indices stays sound |
| NpdaLoader.SoundWeakens | src/automata/npda.rs:192-425 | the loader invariant still holds after more errors are logged, because an error only relaxes its distinct-index and declared-letter rules |
| NpdaLoader.NumbersDeclSound | src/automata/npda.rs:196-223 | a `Q` or `T` section keeps the draft sound |
| NpdaLoader.AlphabetDeclSound | src/automata/npda.rs:224-247 | an alphabet section keeps the draft sound |
| NpdaLoader.ItemDeclSound | src/automata/npda.rs:196-329 | every item declaration keeps the draft sound, injective unless it logs an error |
| NpdaLoader.DeclareSound | src/automata/npda.rs:195-425 | every top-level element keeps the draft sound |
| NpdaLoader.DeclarationsSound | src/automata/npda.rs:192-426 | the whole declaration loop yields a sound draft: indices in range, injective and letters declared unless an error was logged |
| NpdaLoader.EndingChecks | src/automata/npda.rs:428-465 | without errors after the loop, states, alphabet and stack symbols are non-empty and the initial state and stack symbol are declared indices |
| NpdaLoader.ParseNumberEntry | src/automata/npda.rs:204-217 | one entry updates the map and log as `NumberEntry` says |
| NpdaLoader.ParseNumberEntries | src/automata/npda.rs:203-218 | the entry loop updates the map and log as `NumberEntries` says |
| NpdaLoader.NumbersSectionShape | src/automata/npda.rs:196-223 | a section is its "already set" check, the entry loop and the "cannot be empty" check, in that order |
| NpdaLoader.ParseNumbersSection | src/automata/npda.rs:196-223 | a `Q` or `T` section updates the map and log as `NumbersSection` says |
| NpdaLoader.ParseLetterEntry | src/automata/npda.rs:232-242 | one alphabet entry updates the set and log as `LetterEntry` says |
| NpdaLoader.ParseLetterEntries | src/automata/npda.rs:231-243 | the alphabet loop updates the set and log as `LetterEntries` says |
| NpdaLoader.AlphabetSectionShape | src/automata/npda.rs:224-247 | an alphabet section is its "already set" check, the loop and the "cannot be empty" check |
| NpdaLoader.ParseAlphabetSection | src/automata/npda.rs:224-247 | an alphabet section updates the set and log as `AlphabetSection` says |
| NpdaLoader.ParseFinalEntry | src/automata/npda.rs:257-266 | one final-state entry updates the set and log as `FinalEntry` says |
| NpdaLoader.ParseFinalEntries | src/automata/npda.rs:252-267 | the final-state loop starts from an empty set and follows `FinalEntries` |
| NpdaLoader.ParseFinalsSection | src/automata/npda.rs:248-269 | an `F` section replaces the final states as `FinalsSection` says |
| NpdaLoader.ParseChoice | src/automata/npda.rs:298-326 | an `I` or `S` item sets the choice and logs as `ChoiceSection` says |
| NpdaLoader.ParseLetterKey | src/automata/npda.rs:350-370 | the transition letter and its log follow `LetterKey` |
| NpdaLoader.ParsePushSymbol | src/automata/npda.rs:388-398 | one pushed entry gives the symbol and log `PushSymbol` gives |
| NpdaLoader.ParsePushList | src/automata/npda.rs:385-400 | walking the push list from its end gives the stack and log `PushList` gives |
| NpdaLoader.ParseTarget | src/automata/npda.rs:374-409 | one target updates the transition map and log as `Target` says |
| NpdaLoader.ParseMove | src/automata/npda.rs:381-409 | a well-formed target tuple updates the map and log as `Move` says |
| NpdaLoader.AddTo | src/automata/npda.rs:403-409 | inserting a target adds it to its key's set, leaves every other key alone and warns exactly when it was already there |
| NpdaLoader.ParseTargetList | src/automata/npda.rs:373-410 | the target loop updates the map and log as `TargetList` says |
| NpdaLoader.ParseTransitionDecl | src/automata/npda.rs:331-411 | a transition declaration updates the draft and log as `TransitionDecl` says |
| NpdaLoader.ParseItemDecl | src/automata/npda.rs:196-329 | an item declaration updates the draft and log as `ItemDecl` says |
| NpdaLoader.ParseDeclaration | src/automata/npda.rs:195-425 | one top-level element updates the draft and log as `Declare` says |
| NpdaLoader.ParseDeclarations | src/automata/npda.rs:192-426 | the declaration loop yields the draft and log `Declarations` gives |
| NpdaLoader.NameTable | src/automata/npda.rs:467-480 | the name vector has one slot per name and each name sits at its own index |
| NpdaLoader.NamesOfInjective | src/automata/npda.rs:467-480 | in a name table every declared name is found at its index |
| NpdaLoader.FinalFlags | src/automata/npda.rs:482-487 | the flag vector has one flag per state, set exactly for the final states |
| NpdaLoader.PushAll | src/automata/npda.rs:497-499 | pushing a set of targets onto a cell appends each of them once |
| NpdaLoader.BuildTable | src/automata/npda.rs:489-500 | the table has `states * symbols` cells, a `max_state` of the state count truncated to 16 bits, and each cell holds what its slot's keys map to |
| NpdaLoader.BuildCells | src/automata/npda.rs:489-500 | filling the cells key by key gives `states * symbols` cells laid out as `CellsOf` says |
| NpdaLoader.ParseMissing | src/automata/npda.rs:428-438 | the "never defined" checks log as `Missing` says |
| NpdaLoader.ParseDefault | src/automata/npda.rs:440-465 | choosing the initial state or stack symbol logs and returns as `DefaultIndex` says |
| NpdaLoader.LoadShape | src/automata/npda.rs:428-465 | the log of loading is the loop's log, then the missing checks, then the stack default, then the state default |
| NpdaLoader.LoadReady | src/automata/npda.rs:467-500 | after the loop the indices are below 65536, the finals are states and the transition keys are in range, as building the tables needs |
| NpdaLoader.Load | src/automata/npda.rs:178-516 | `load_from_ast` logs `LoadLogs`, returns a machine exactly when the context holds no error, and that machine is the one `Loaded` describes |
| NpdaLoader.LoadedSound | src/automata/npda.rs:440-516 | a machine loaded without errors has a declared initial state and stack symbol, a non-empty alphabet, every name at its index and one final flag per state |
| NpdaLoader.LoadedTransitionsSound | src/automata/npda.rs:489-516 | every transition of a loaded machine reads a letter of the alphabet and leads to a declared state pushing declared symbols |
| NpdaLoader.FullWidthTargets | src/automata/npda.rs:489-500 | with the full state count as width, the table's cell for a pair holds exactly the declared targets |
| NpdaLoader.LoadedTargets | src/automata/npda.rs:489-500 | below 65536 states the loaded table answers for a state, letter and stack symbol with exactly the declared targets |
| NpdaLoader.WideTableAliases | src/automata/npda.rs:489-500 | with exactly 65536 states `max_state` wraps to 0 and every stack symbol reads the targets declared for symbol 0 |
| NpdaLoader.ParseNumbersBody | src/automata/npda.rs:200-222 | the set of a `Q` or `T` section, then its emptiness check, update the map and log as `NumbersBody` says |
| NpdaLoader.ParseFinalsList | src/automata/npda.rs:253-268 | the set of an `F` section gives the final states and log `FinalsList` gives, and nothing when the item is not a set |
| NpdaLoader.ParseMoveTo | src/automata/npda.rs:386-409 | a target at a declared state resolves its pushed symbols and joins the set under its key, as `MoveTo` says |
| NpdaSimulator.Moves | src/automata/npda.rs:111-126 | each target of the popped configuration yields exactly one new configuration |
| NpdaSimulator.StepFromAccepts | src/automata/npda.rs:106-160 | a step accepts exactly when some running configuration, with a non-empty stack, is at the end of the input in a final state or with the initial stack left after the pop; an accepting step leaves nothing running |
| NpdaSimulator.StepFromFrontier | src/automata/npda.rs:103-167 | a step that does not accept keeps exactly the epsilon and letter successors of the running configurations, and rejects exactly when there are none |
| NpdaSimulator.AcceptThenReject | src/automata/npda.rs:136-138 | returning Accept drains the running configurations, so the following step rejects |
| NpdaSimulator.NextCharAdvances | src/automata/npda.rs:128-158 | advancing by the UTF-8 length of the next character lands on a character boundary |
| NpdaSimulator.StepFromAligned | src/automata/npda.rs:103-167 | every running position stays on a character boundary of the input |
| NpdaSimulator.NoNextCharAtEnd | src/automata/npda.rs:128-132 | there is no next character exactly at the end of the input |
| NpdaSimulator.EmptyStackAsWritten | src/automata/npda.rs:107-137 | because the stack is popped before the test, a machine holding just its initial stack at the end of the input is rejected |
| NpdaSimulator.EmptyStackCorrected | src/automata/npda.rs:107-137 | testing the stack before the pop accepts that same run |
| NpdaSimulator.CorrectedAcceptsInitialStack | src/automata/npda.rs:133-138 | with the test before the pop, any configuration holding exactly the initial stack at the end of the input makes the step accept |
| NpdaSimulator.Simulator.Begin | src/automata/npda.rs:91-101 | `begin` starts one configuration: the initial state, the initial stack symbol, position 0 |
| NpdaSimulator.Simulator.Step | src/automata/npda.rs:103-167 | `step` returns the outcome and leaves the frontier that `StepResult` gives |
| NpdaSimulator.PushMoves | src/automata/npda.rs:111-126 | the inner loop appends one configuration per target, in order |
| SimFrontier.Status | web/root/src/simulation/pda.ts:146-150 | the status is accept exactly when some path was accepted, and reject exactly when none was and no path is left |
| SimFrontier.EnterGrouped | web/root/src/simulation/fa.ts:49-55 | entering a path keeps `current_states` the grouping of the frontier by state |
| SimFrontier.AcceptingAccepts | web/root/src/simulation/fa.ts:49 | the accepted list only receives paths that were entered and accept |
| SimFrontier.EntersSpec | web/root/src/simulation/fa.ts:41-56 | entering paths in order appends them to the frontier, appends the accepting ones to `accepted`, leaves `rejected` alone and keeps the grouping |
| SimFrontier.ExtendsNothing | web/root/src/simulation/fa.ts:86-111 | a loop turn that enters and rejects nothing leaves the state as it was |
| SimFrontier.ExtendsEnters | web/root/src/simulation/fa.ts:96 | entering a list of paths extends the state by exactly those paths |
| SimFrontier.ExtendsEnter | web/root/src/simulation/fa.ts:41-56 | entering one more path extends the frontier by it |
| SimFrontier.ExtendsRefused | web/root/src/simulation/fa.ts:90 | rejecting a path extends only `rejected` |
| SimFrontier.ExtendsChain | web/root/src/simulation/fa.ts:86-111 | two extensions in a row are one extension by both lists |
| FaSimulation.Successors | web/root/src/simulation/fa.ts:68-76 | each transition taken from a path yields exactly one new path |
| FaSimulation.ExpandedSpec | web/root/src/simulation/fa.ts:86-111 | one turn of the step loop enters the path's epsilon and then letter successors and rejects the path exactly when it has none |
| FaSimulation.ExpandedAllSpec | web/root/src/simulation/fa.ts:86-111 | the whole loop enters the successors of every path, in order, and rejects exactly the dead ends |
| FaSimulation.StepSpec | web/root/src/simulation/fa.ts:78-116 | a step after an acceptance or on an empty frontier changes nothing; otherwise the frontier becomes the successors, `accepted` the accepting ones, `rejected` grows by the dead ends and the outcome is the new status |
| FaSimulation.NextWellFormed | web/root/src/simulation/fa.ts:68-76 | every successor of a path is a state of the machine within the input, with its `accepted` flag and representation as `init_state` computes them |
| FaSimulation.FrontierWellFormed | web/root/src/simulation/fa.ts:86-111 | the new frontier is well formed and the dead ends come from the old frontier |
| FaSimulation.InitialValid | web/root/src/simulation/fa.ts:58-66 | the initial state is valid: one path, grouped by its state |
| FaSimulation.StepKeepsValid | web/root/src/simulation/fa.ts:78-116 | a step keeps the state valid, and every accepted path has read the whole input and is in a final state |
| FaSimulation.FaSim.constructor | web/root/src/simulation/fa.ts:29-33 | the constructor starts from the initial state with the initial path |
| FaSimulation.FaSim.InitState | web/root/src/simulation/fa.ts:35-56 | `init_state` computes the accepted flag and representation and enters the path |
| FaSimulation.FaSim.Transition | web/root/src/simulation/fa.ts:68-76 | `transition` enters the successor, one position further when it consumes |
| FaSimulation.FaSim.TransitionAll | web/root/src/simulation/fa.ts:96 | taking a list of transitions enters their successors in order |
| FaSimulation.FaSim.Expand | web/root/src/simulation/fa.ts:86-111 | one loop turn updates the state as `Expanded` says |
| FaSimulation.FaSim.Step | web/root/src/simulation/fa.ts:78-116 | `step` returns the outcome and new state `StepResult` gives |
| PdaSimulation.Accepts | web/root/src/simulation/pda.ts:40-55 | a path accepts only at the end of the input: by final state when the machine has final states, otherwise by holding exactly the initial stack symbol |
| PdaSimulation.Successor | web/root/src/simulation/pda.ts:86-102 | a move pops the top and pushes the transition's symbols; it yields no path exactly when the stack would be empty, and only a letter move advances the position |
| PdaSimulation.MovesAccounted | web/root/src/simulation/pda.ts:86-102 | every move either creates a path or rejects the parent, and with more than one symbol on the stack none rejects |
| PdaSimulation.StepAccounted | web/root/src/simulation/pda.ts:110-141 | a path yields one path or rejection per applicable transition, and is rejected once when none applies |
| PdaSimulation.TransitionedAllSpec | web/root/src/simulation/pda.ts:121-123 | taking a list of transitions enters the moves in order and rejects the parent once per move that empties the stack |
| PdaSimulation.ExpandedSpec | web/root/src/simulation/pda.ts:110-141 | one turn of the step loop enters the epsilon and letter moves of the path and records its rejections |
| PdaSimulation.ExpandedAllSpec | web/root/src/simulation/pda.ts:110-141 | the whole loop enters the moves of every path, in order, and records every rejection |
| PdaSimulation.StepSpec | web/root/src/simulation/pda.ts:104-150 | a step replaces the frontier by its moves, adds the accepting ones to `accepted`, adds the rejections, and reports the status, so a run that accepted keeps reporting acceptance |
| PdaSimulation.MovesWellFormed | web/root/src/simulation/pda.ts:86-102 | every move is a well-formed path and every rejection is the parent itself |
| PdaSimulation.NextWellFormed | web/root/src/simulation/pda.ts:110-141 | the successors of a path are well formed and its rejections are itself |
| PdaSimulation.FrontierWellFormed | web/root/src/simulation/pda.ts:110-141 | the new frontier is well formed and every rejection comes from the old frontier |
| PdaSimulation.InitialValid | web/root/src/simulation/pda.ts:75-84 | the initial state is valid: one path with the initial stack symbol, grouped by its state |
| PdaSimulation.StepKeepsValid | web/root/src/simulation/pda.ts:104-150 | a step keeps the state valid, and every accepted path has read the whole input and accepts by final state or by initial stack as the machine says |
| PdaSimulation.PdaSim.constructor | web/root/src/simulation/pda.ts:34-38 | the constructor starts from the initial state with the initial path |
| PdaSimulation.PdaSim.InitState | web/root/src/simulation/pda.ts:57-73 | `init_state` computes the accepted flag and representation and enters the path |
| PdaSimulation.PdaSim.Transition | web/root/src/simulation/pda.ts:86-102 | `transition` enters the move or rejects the parent as `Transitioned` says |
| PdaSimulation.PdaSim.TransitionAll | web/root/src/simulation/pda.ts:121-123 | taking a list of transitions updates the state as `TransitionedAll` says |
| PdaSimulation.PdaSim.Expand | web/root/src/simulation/pda.ts:110-141 | one loop turn updates the state as `Expanded` says |
| PdaSimulation.PdaSim.Step | web/root/src/simulation/pda.ts:104-144 | `step` returns the outcome and new state `StepResult` gives |
| TmSimulation.Cells | web/root/src/simulation/tm.ts:40 | the shown tape has one cell per tape cell |
| TmSimulation.InitialTape | web/root/src/simulation/tm.ts:56-62 | the tape holds one cell per input character, or a single blank for the empty input |
| TmSimulation.Move | web/root/src/simulation/tm.ts:75-99 | a move writes the symbol under the head and moves the head one cell in its direction; every other cell keeps its place, and a blank cell is added when the head leaves the tape at either end |
| TmSimulation.LeftFromFirstCellAsWritten | web/root/src/simulation/tm.ts:81-84 | as written, going left from the first cell gives the new path an empty tape with its head off it and inserts the symbol into the parent's tape |
| TmSimulation.LeftFromFirstCellExample | web/root/src/simulation/tm.ts:81-84 | on tape `a` writing `b` and going left, the code as written gives an empty tape while the corrected move gives `_ b` |
| TmSimulation.KnownCount | web/root/src/simulation/tm.ts:75-99 | counts the targets before the first direction the `switch` does not handle |
| TmSimulation.MovesSpec | web/root/src/simulation/tm.ts:120-122 | the moves of a path are the successors of its targets up to the first unknown direction, and the loop throws exactly when there is one |
| TmSimulation.SweepThrows | web/root/src/simulation/tm.ts:112-123 | a step throws exactly when one of its paths throws |
| TmSimulation.TransitionedAllSpec | web/root/src/simulation/tm.ts:120-122 | taking the targets enters the moves in order and throws as `Moves` says |
| TmSimulation.ExpandedSpec | web/root/src/simulation/tm.ts:112-123 | one loop turn enters the path's moves, rejects it when it has no target, and throws exactly when a move does |
| TmSimulation.ExpandedAllSpec | web/root/src/simulation/tm.ts:112-123 | the loop enters the moves of every path until one throws and rejects the paths without a target |
| TmSimulation.StepSpec | web/root/src/simulation/tm.ts:104-128 | a step after an acceptance or on an empty frontier changes nothing; otherwise the frontier becomes the moves, `accepted` the accepting ones, `rejected` grows by the stuck paths, and the outcome is the status unless a move threw |
| TmSimulation.CompiledDirectionsThrow | web/root/src/simulation/tm.ts:75-99 | none of the direction names the compiler serialises is handled by the `switch`, so any path with a compiled transition to follow throws |
| TmSimulation.NextWellFormed | web/root/src/simulation/tm.ts:67-102 | with the corrected left move at cell 0 (see Findings), every successor keeps its head on its tape and its accepted flag tells whether its state is final; a rejection is the path itself |
| TmSimulation.SweepWellFormed | web/root/src/simulation/tm.ts:112-123 | with the corrected left move at cell 0 (see Findings), the new frontier is well formed and the rejected paths come from the old one |
| TmSimulation.InitialValid | web/root/src/simulation/tm.ts:52-65 | the initial state is valid: one path on the input tape, head on the first cell |
| TmSimulation.StepKeepsValid | web/root/src/simulation/tm.ts:104-128 | with the corrected left move at cell 0 (see Findings), a step keeps the state valid and every accepted path is in a final state |
| TmSimulation.TmSim.constructor | web/root/src/simulation/tm.ts:33-37 | the constructor starts from the initial path |
| TmSimulation.TmSim.InitState | web/root/src/simulation/tm.ts:39-50 | `init_state` computes the representation and enters the path |
| TmSimulation.TmSim.Transition | web/root/src/simulation/tm.ts:67-102 | `transition`, with the corrected left move at cell 0 (see Findings), throws exactly on a direction the `switch` does not handle and otherwise enters the successor |
| TmSimulation.TmSim.MoveTape | web/root/src/simulation/tm.ts:75-99 | the `switch` computes the tape and head that the corrected `Move` gives (see Findings for cell 0) |
| TmSimulation.TmSim.TransitionAll | web/root/src/simulation/tm.ts:120-122 | taking the targets updates the state as `TransitionedAll` says, with the corrected left move at cell 0 (see Findings) |
| TmSimulation.TmSim.Expand | web/root/src/simulation/tm.ts:112-123 | one loop turn updates the state as `Expanded` says, with the corrected left move at cell 0 (see Findings) |
| TmSimulation.TmSim.Step | web/root/src/simulation/tm.ts:104-128 | `step` returns the outcome and new state `StepResult` gives, with the corrected left move at cell 0 (see Findings) |
| TmSimulation.TransitionedAllStops | web/root/src/simulation/tm.ts:120-122 | once a move has thrown, the remaining targets change nothing |
| TmSimulation.ExpandedAllStops | web/root/src/simulation/tm.ts:112-123 | once a path has thrown, the remaining paths change nothing |
| WebAutomata.SelectEmpty | web/root/src/automata.ts:26-33 | the values listed under a key are non-empty exactly when some transition has that key |
| WebAutomata.SelectMembers | web/root/src/automata.ts:26-33 | every value listed under a key comes from a transition with that key |
| WebAutomata.GroupSelects | web/root/src/automata.ts:31-33 | a grouping layer holds a key exactly when some entry has it, and lists that key's values in order |
| WebAutomata.Group2Selects | web/root/src/automata.ts:28-33 | a two-level grouping holds the first key exactly when some entry has it, and its inner layer groups that key's entries |
| WebAutomata.Group3Selects | web/root/src/automata.ts:51-58 | a three-level grouping holds the first key exactly when some entry has it, and its inner layers group that key's entries |
| WebAutomata.GroupSnoc | web/root/src/automata.ts:31-33 | grouping one more entry appends its value under its key |
| WebAutomata.Group2Snoc | web/root/src/automata.ts:28-33 | grouping one more entry on two levels appends its value under its two keys |
| WebAutomata.Group3Snoc | web/root/src/automata.ts:51-58 | grouping one more entry on three levels appends its value under its three keys |
| WebAutomata.Pairs | web/root/src/automata.ts:26-27 | the inner loop visits the pairs of one `from` with each of its targets, in order |
| WebAutomata.FirstHash | web/root/src/automata.ts:35 | in an edge key the first `#` is the one after the source state, when that state holds none |
| WebAutomata.EdgeKeyInjective | web/root/src/automata.ts:35 | when state names hold no `#`, an edge key names one pair of states |
| WebAutomata.LetterOrEpsilon | web/root/src/automata.ts:38 | a letter labels its edge; a missing or empty letter shows as ε |
| WebAutomata.FaSelect | web/root/src/automata.ts:24-45 | the FA layers under a state and then a letter list exactly the targets of the transitions from that state on that letter |
| WebAutomata.PdaSelect | web/root/src/automata.ts:46-71 | the PDA layers under a state, stack symbol and letter list exactly the targets of those transitions |
| WebAutomata.TmSelect | web/root/src/automata.ts:72-94 | the Turing machine layers under a state and symbol list exactly the targets of those transitions |
| WebAutomata.FaLayersExact | web/root/src/automata.ts:24-45 | the FA grouping holds a state exactly when some transition leaves it, and lists under a state and letter every target of those transitions, once each, in order |
| WebAutomata.PdaLayersExact | web/root/src/automata.ts:46-71 | the PDA grouping holds a state exactly when some transition leaves it, and lists under state, stack top and letter exactly those targets in order |
| WebAutomata.TmLayersExact | web/root/src/automata.ts:72-94 | the Turing machine grouping holds a state exactly when some transition leaves it, and lists under state and symbol exactly those targets in order |
| WebAutomata.EdgesExact | web/root/src/automata.ts:35-41 | the edge map holds a key exactly when some pair has it, with that key's edges in order |
| WebAutomata.FaEdgePerPair | web/root/src/automata.ts:35-41 | there is one edge per (from, to) pair, keyed by the two states and carrying the letter label and both spans |
| WebAutomata.ParseMachine | web/root/src/automata.ts:3-97 | `parse_machine_from_json` fills `transitions_components` and `edges` from the transition list for each kind of machine and keeps every other field |
| WebAutomata.GroupFa | web/root/src/automata.ts:24-45 | the FA loops build exactly the two-level grouping and the edges of all (from, to) pairs |
| WebAutomata.FaTargets | web/root/src/automata.ts:27-42 | the inner FA loop adds the pairs of one `from` to the grouping and the edges |
| WebAutomata.GroupPda | web/root/src/automata.ts:46-71 | the PDA loops build exactly the three-level grouping and the edges |
| WebAutomata.PdaTargets | web/root/src/automata.ts:50-68 | the inner PDA loop adds the pairs of one `from` |
| WebAutomata.GroupTm | web/root/src/automata.ts:72-94 | the Turing machine loops build exactly the two-level grouping and the edges |
| WebAutomata.TmTargets | web/root/src/automata.ts:76-91 | the inner Turing machine loop adds the pairs of one `from` |
| Highlight.FirstColon | web/root/src/highlight.ts:24-26 | in a key the first colon after the start offset is the one that ends it |
| Highlight.SplitAtColon | web/root/src/highlight.ts:24-26 | a key `x:y` with `x` a string of digits splits back into `x` and `y` |
| Highlight.KindNameInjective | web/root/src/highlight.ts:6 | different kinds have different names |
| Highlight.AsKeyInjective | web/root/src/highlight.ts:24-26 | different highlights have different keys |
| Highlight.Added | web/root/src/highlight.ts:60-68 | adding counts the highlight once more, leaves every other key alone and signals exactly when the key was new |
| Highlight.Removed | web/root/src/highlight.ts:69-79 | removing uncounts a present highlight, drops it at zero, leaves every other key alone and signals exactly when it was dropped |
| Highlight.Cleared | web/root/src/highlight.ts:80-85 | removing all empties the registry and signals exactly when it held something |
| Highlight.RemoveUndoesAdd | web/root/src/highlight.ts:60-79 | removing a highlight right after adding it restores the registry |
| Highlight.SignalsIffKeysChange | web/root/src/highlight.ts:60-79 | the add and remove handlers emit `highlight/update` exactly when the set of shown highlights changes |
| Highlight.Highlights.constructor | web/root/src/highlight.ts:21 | the registry starts empty |
| Highlight.Highlights.Add | web/root/src/highlight.ts:60-68 | the add handler updates the registry and signals as `Added` says |
| Highlight.Highlights.Remove | web/root/src/highlight.ts:69-79 | the remove handler updates the registry and signals as `Removed` says |
| Highlight.Highlights.RemoveAll | web/root/src/highlight.ts:80-85 | the remove-all handler updates the registry and signals as `Cleared` says |
| Highlight.Highlights.AutomatonUpdated | web/root/src/highlight.ts:56-58 | a new automaton drops every highlight, signalling exactly when there were some |
| Ansi.ReplaceAllConcat | web/root/src/terminal.ts:9-14 | a global replacement distributes over concatenation |
| Ansi.ReplaceAbsent | web/root/src/terminal.ts:9-14 | replacing a character that does not occur changes nothing |
| Ansi.EscapeHtmlConcat | web/root/src/terminal.ts:9-14 | escaping distributes over concatenation |
| Ansi.EscapeHtmlChar | web/root/src/terminal.ts:9-14 | escaping one character gives its entity, or the character itself |
| Ansi.EscapeHtmlPerChar | web/root/src/terminal.ts:9-14 | the three passes of `escapeHtml` escape each character on its own, so `&` is never escaped twice |
| Ansi.EscapedHasNoTags | web/root/src/terminal.ts:9-14 | escaped text holds no `<` and no `>` |
| Ansi.UnescapeStep | web/root/src/terminal.ts:9-14 | decoding an escaped character recovers it |
| Ansi.UnescapeEscape | web/root/src/terminal.ts:9-14 | escaping loses nothing: decoding the entities gives back the original text |
| Ansi.FoldKeepsUntouched | web/root/src/terminal.ts:41-65 | codes that do not touch an attribute leave it as it was |
| Ansi.FoldForgets | web/root/src/terminal.ts:41-65 | once the codes touch an attribute, its value no longer depends on the starting style |
| Ansi.ApplyCodesIdempotent | web/root/src/terminal.ts:41-65 | applying the same codes twice is applying them once |
| Ansi.ResetForgets | web/root/src/terminal.ts:47-48 | a 0 wipes out every earlier code and the starting style |
| Ansi.Classes | web/root/src/terminal.ts:32-36 | a style has no classes exactly when it is plain |
| Ansi.OpenSpan | web/root/src/terminal.ts:30-39 | empty text gives nothing, plain style gives the escaped text, any other style wraps the escaped text in a span with its classes |
| Ansi.ParamEnd | web/root/src/terminal.ts:19 | finds the end of the run of digits and semicolons |
| Ansi.MatchAt | web/root/src/terminal.ts:19 | a sequence matched at `i` is at least `ESC [ m` long and ends within the input |
| Ansi.NextMatch | web/root/src/terminal.ts:68 | the next match is the first position from the last index where a sequence starts, or none when no later position starts one |
| Ansi.SplitOn | web/root/src/terminal.ts:72 | splitting always gives at least one piece; a parameter string splits into pieces of digits |
| Ansi.ParseCodes | web/root/src/terminal.ts:72 | an empty parameter string gives no codes (which `applyCodes` then treats as a single 0) |
| Ansi.RenderStep | web/root/src/terminal.ts:67-76 | one loop turn renders the chunk before the match in the current style and continues after it with the codes applied |
| Ansi.RenderLast | web/root/src/terminal.ts:78 | with no match left the rest is rendered in the current style |
| Ansi.AnsiToHtml | web/root/src/terminal.ts:17-80 | `ansiToHtml` returns the rendering `Render` describes |
| Ansi.ApplyCodesTo | web/root/src/terminal.ts:41-65 | the code loop updates the style as `ApplyCodes` says |
| Ansi.PlainRendering | web/root/src/terminal.ts:17-80 | from a plain style the output is the escaped text with the sequences removed, when no code sets a style |
| Ansi.NoEscapeNoMatch | web/root/src/terminal.ts:68 | text without an escape character holds no sequence |
| Ansi.NoSequenceOnlyEscapes | web/root/src/terminal.ts:17-80 | text without an escape character is only escaped |
| EditorAnalysis.TokenClass | web/root/editor.js:31-46 | a kind maps to `rb-` exactly when it is one of the six bracket kinds; the other known kinds get their own class and unknown kinds `tok-ident` |
| EditorAnalysis.BracketClassesByLevel | web/root/editor.js:83-86 | brackets at different scope levels get different classes |
| EditorAnalysis.ToLower | web/root/editor.js:50 | lower-casing keeps the length, turns each letter A to Z into the same letter of a to z, and keeps every other character |
| EditorAnalysis.SeverityClass | web/root/editor.js:49-54 | warning and info, in any case, get their own classes; anything else, including a missing level, gets the error class |
| EditorAnalysis.SevRank | web/root/editor.js:55-59 | "error" ranks 3, "warning" 2, anything else 1 |
| EditorAnalysis.Clamp | web/root/editor.js:81-82 | a clamped range lies within the document with its end not before its start, and a range already inside is kept |
| EditorAnalysis.TokenMark | web/root/editor.js:80-90 | a token's mark, when there is one, is a non-empty range inside the document |
| EditorAnalysis.DiagnosticMark | web/root/editor.js:92-104 | a diagnostic's mark, when there is one, is a non-empty range inside the document |
| EditorAnalysis.DiagnosticShown | web/root/editor.js:92-104 | a diagnostic is shown exactly when its clamped start is before the end of the document, from that start, and an empty range is widened to one character |
| EditorAnalysis.TokenMarksInside | web/root/editor.js:80-90 | every token mark lies inside the document, at most one per token |
| EditorAnalysis.DiagnosticMarksInside | web/root/editor.js:92-104 | every diagnostic mark lies inside the document, at most one per diagnostic |
| EditorAnalysis.BuildMarks | web/root/editor.js:72-106 | `buildAnalysis` lays the token marks and then the diagnostic marks, all inside the document |
| EditorAnalysis.MarkTokens | web/root/editor.js:80-90 | the token loop pushes the marks `TokenMarks` gives |
| EditorAnalysis.MarkDiagnostics | web/root/editor.js:92-104 | the diagnostic loop appends the marks `DiagnosticMarks` gives |
| WebLib.BytePrefix | web_lib/src/lib.rs:182-187 | the characters that fit within the first `b` bytes: a prefix of the text no wider than `b` bytes, and the longest such prefix |
| WebLib.BytePrefixOffset | web_lib/src/lib.rs:182-187 | at a character boundary the byte prefix is exactly the characters before it |
| WebLib.Utf16OffsetAt | web_lib/src/lib.rs:51-53 | the UTF-16 offset of a character boundary is the UTF-16 width of the text before it |
| WebLib.Utf16WidthCounts | web_lib/src/lib.rs:51-52 | a text is at least as wide in UTF-16 units as it has characters, and exactly as wide when none lies outside the Basic Multilingual Plane |
| WebLib.LastLine | web_lib/src/lib.rs:82-85 | the text after the last line break: a suffix holding no line break, preceded by one when shorter than the text |
| WebLib.KindOf | web_lib/src/lib.rs:55-104 | a lexer error is `error`; `~`, an identifier first on its line and the Greek-letter and spelled-out keywords are `keyword`; other identifiers are `ident`; comments `comment`; the operators and line ends `punc`; each bracket its own kind |
| WebLib.Scoped | web_lib/src/lib.rs:106-116 | an opener reports the depth before it and deepens by one, a closer shallows by one (not below 0) and reports the new depth, anything else reports the depth unchanged |
| WebLib.Toks | web_lib/src/lib.rs:41-125 | `lex` gives one token per lexed item |
| WebLib.TokAt | web_lib/src/lib.rs:46-123 | token `k` carries item `k`'s offsets in UTF-16 units, its kind, and the level the depth before it gives |
| WebLib.DepthSnoc | web_lib/src/lib.rs:106-123 | one more item adds one token and updates the depth as `Scoped` says |
| WebLib.TokClass | web_lib/src/lib.rs:55-104 | a token's kind depends only on its item and on whether its line holds only white space before it; a lexical error is shown at the depth before it |
| WebLib.MatchingBracketsShareLevel | web_lib/src/lib.rs:106-116 | an opener and the closer that returns to its depth report the same level |
| WebLib.LexAllStep | web_lib/src/lib.rs:45-46 | one scan of the lexer ends the items, panics, or emits an item followed by the items after it |
| WebLib.ItemOffsets | web_lib/src/lib.rs:47-53 | the running UTF-16 index gives each item's start and end as the UTF-16 width of the text before them |
| WebLib.ItemKindAt | web_lib/src/lib.rs:81-90 | an item is classed by the text of its line before it |
| WebLib.LexStepToks | web_lib/src/lib.rs:46-123 | one conversion appends the item's token and keeps the running index and depth in step |
| WebLib.Convert | web_lib/src/lib.rs:46-123 | the closure of `lex` converts one item to the token `Toks` gives and advances the UTF-16 index and depth |
| WebLib.Lex | web_lib/src/lib.rs:41-125 | `lex` returns exactly the tokens of the lexed items, and panics exactly when the lexer does |
| WebLib.TokOffsets | web_lib/src/lib.rs:51-53 | a token starts at the UTF-16 width of the text before its item and spans the width of its text |
| WebLib.LevelOf | web_lib/src/lib.rs:176-180 | the level conversion is an error exactly for errors and has no answer for help notes |
| WebLib.Diagnostics | web_lib/src/lib.rs:172-189 | one diagnostic per log entry, in order, with the corrected UTF-16 offsets (see Findings) |
| WebLib.DiagnosticOnToken | web_lib/src/lib.rs:182-187 | a diagnostic over a token's span covers exactly the range `lex` gives that token |
| WebLib.DiagnosticAsWrittenOffset | web_lib/src/lib.rs:182-187 | counting characters as written agrees with the UTF-16 offset exactly when no earlier character lies outside the Basic Multilingual Plane |
| WebLib.DiagnosticAsWrittenMisplaced | web_lib/src/lib.rs:182-187 | after an emoji, a stray `-` is reported at offset 1 as written while `lex` puts it at 2 |
| WebLib.Report | web_lib/src/lib.rs:167-189 | the rendered log and the diagnostics list are every entry, in order, with the corrected excerpt and UTF-16 offsets (see Findings) |
| WebLib.Compile | web_lib/src/lib.rs:160-196 | `compile` logs what the loader logs, renders it with the corrected excerpt and offsets (see Findings), returns a machine exactly when no diagnostic is an error, and that machine is the one the loader compiles the source to |

## Left out

- Input and output are not modelled: reading files, the DOM, the editor widget, timers, canvas drawing, `formatTerminal` and the splitters.
- JSON is not modelled: `serde_json`, the machine output serialised for the web side, and the JSON-to-`Map` conversion. That conversion is treated as the identity, so simulators receive the machine's maps directly.
- Running a simulator to completion is left to its caller. Only `step` and the functions it uses are modelled.
- The `println!` that the first NPDA simulator's `step` makes is not modelled.
- The `todo!` stubs are not modelled: `parse_regex`, the `expect_*_transition` accessors, and `expect_tm` / `expect_ntm`. They have no behaviour to model.
- `HashMap` iteration order is left open. Loops over a map pick any remaining key, and every ensures holds for all orders.
- The saturating `usize` nesting depth of the first parser is an unbounded `nat`.
- `is_alphabetic` and `is_alphanumeric` in `src/lexer.rs` use Unicode tables. They are parameters of `EarlyLexer`.
- The `Debug` escaping of names in messages is simplified to the plain name between quotes.
- Text offsets:
  - Rust strings are sequences of Unicode scalar values, and byte offsets are UTF-8 widths of their prefixes.
  - JavaScript strings are taken as one UTF-16 unit per character, except in `WebLib`, where UTF-16 widths are counted exactly.
- `toLowerCase` in the ANSI renderer is modelled for ASCII letters only.
- `tokenClass` of `editor.js` ignores keys inherited from `Object.prototype`.
- The ANSI renderer's `NaN` branch is unreachable, because it only ever parses digit runs. The model omits it.
- Highlighting: the wiring of the highlight bus to the canvas is not modelled, and neither are `highlight_from_node_id`, `dehighlight_from_node_id`, `highlight_from_edge_id` or `dehighlight_from_edge_id`, which only look up a canvas element and emit a bus event.
- `sevLabel` and `sevAnsiColorClass` in `editor.js` are presentation tables and are not modelled.
- The `escape` and `ansi` helpers that `editor.js` repeats are modelled once, by `Ansi`.
- `LogSink` and its helpers are plain constructors of log entries.
- `web/root/src/constants.ts` is not part of this model.
- `automata/src/loader/lexer.rs` is not part of this model. `src/loader/lexer.rs` (`Lexer`) stands in for the lexer that `automata/src/loader/parser.rs` imports.
- `automata/src/loader/mod.rs` does not define the constants `EPSILON_LOWER`, `GAMMA_LOWER` and `SIGMA_UPPER`, although `web_lib/src/lib.rs` and `automata/src/automatan/pda.rs` import them. Their values are taken from `src/loader/mod.rs:6-10`.
- `src/loader/lexer.rs` defines only `new` on `Lexer`, while `src/loader/parser.rs:16` and `:23` call `lexer.input()` and `lexer.eof_span()`. `LegacyParser.Parser` takes them as the source text and as the empty span at its byte length, as `eof_span` in `src/lexer.rs:111-113` computes it.
- `src/automata/mod.rs` lacks `Index`, `IndexMut`, `get_mut_or_insert_default` and `entries()`, which `src/automata/npda.rs` uses. `DenseMaps` models them by their evident meaning: indexing, insert-if-missing and in-order enumeration.
- Lexer.Scan: the first loader's lexer panics when a line comment ends the input without a newline, because it slices past the end. `Lexer.Scan` returns `Panic` there, `Lexer.Lexer.Next` requires that this case does not arise, as the source cannot continue past it, and `LexAll` gives `None`.
- TmSimulation.NextWellFormed: proved for the corrected left move at cell 0. With the move as written (`splice` at `web/root/src/simulation/tm.ts:83`) the new path has an empty tape, so its head is not on its tape.
- TmSimulation.SweepWellFormed: proved for the corrected left move at cell 0, for the reason given for `NextWellFormed`.
- TmSimulation.StepKeepsValid: proved for the corrected left move at cell 0, for the reason given for `NextWellFormed`.
- TmSimulation.TmSim.Transition: enters the corrected successor. It does not model the empty tape that `splice` returns, nor the symbol `splice` inserts into the parent path's tape (`TmSimulation.MoveAsWritten` computes both).
- TmSimulation.TmSim.MoveTape: computes the corrected `Move` at cell 0, not `MoveAsWritten`.
- TmSimulation.TmSim.TransitionAll: later targets of the same parent read the parent's tape unchanged. As written, they read the tape that `splice` changed.
- TmSimulation.TmSim.Expand: built on the corrected `Transition`.
- TmSimulation.TmSim.Step: steps with the corrected left move at cell 0.
- Log.WriteExcerpt: writes the corrected gutter width and underline index of `Log.Gutter` and `Log.Underlines`. `Log.GutterAsWritten` and `Log.UnderlinesAsWritten` model `automata/src/loader/log.rs:184-188` and `:236-239` as written.
- Log.WriteBlocks: carries the corrected underline index, the line's width, not the width plus one.
- Log.WriteBlock: pads the gutter to the digit count of the last line number, not to its `ilog10`.
- Log.Display: prints the corrected excerpt, so its output differs from the source's on excerpts of more than one line and on excerpts ending at line 10, 100, and so on.
- WebLib.Diagnostics: converts offsets to UTF-16 units. As written, `web_lib/src/lib.rs:182-187` counts characters (`WebLib.DiagnosticAsWritten`); the two agree when no earlier character lies outside the Basic Multilingual Plane (`WebLib.DiagnosticAsWrittenOffset`).
- WebLib.Report: uses the corrected `Log.Display` and the corrected diagnostic offsets.
- WebLib.Compile: its log uses the corrected `Log.Display` and the corrected diagnostic offsets.
- EarlyParserSpec.PeekTok: passes over comments as well as lexical errors. As written, `src/parser.rs:82-84` shows a comment to its caller (`EarlyParserSpec.PeekAsWrittenShowsComments`).
- EarlyParser.Parser.PeekToken: follows the corrected `EarlyParserSpec.PeekTok`.
- EarlyParserSpec.ParseItem: consumes a token that cannot start an item, which `src/parser.rs:191-205` leaves in place. As written the list loop then spins (`EarlyParserSpec.ParseItemAsWritten`, `EarlyParserSpec.ListAsWrittenSpins`). On input that terminates, such as `a = = b = c`, the source logs a second error when `parse_elements` meets the left-over `=`, and the model does not. It also peeks with the corrected `EarlyParserSpec.PeekTok`.
- EarlyParserSpec.ParseTupple: peeks with the corrected `EarlyParserSpec.PeekTok`, which passes over comments. As written, a comment before the `)` makes the loop take one more symbol, so the `)` is reported as an unexpected token.
- EarlyParserSpec.TuppleLoop: peeks with the corrected `EarlyParserSpec.PeekTok`, as `ParseTupple` does.
- EarlyParserSpec.TuppleClose: expects `)` after a tuple loop that peeked with the corrected `EarlyParserSpec.PeekTok`.
- EarlyParserSpec.ParseList: built on the corrected `EarlyParserSpec.ParseItem` and `EarlyParserSpec.PeekTok`. As written a list holding a token that cannot start an item never ends (`EarlyParserSpec.ListAsWrittenSpins`).
- EarlyParserSpec.ListLoop: runs the corrected, consuming `EarlyParserSpec.ParseItem`, for the reason given for `ParseList`.
- EarlyParserSpec.ListClose: closes a list that the corrected `EarlyParserSpec.ParseItem` and `EarlyParserSpec.PeekTok` parsed.
- EarlyParserSpec.Assignment: parses its item with the corrected `EarlyParserSpec.ParseItem`, so an assignment whose right-hand side cannot start an item takes that token; as written it is left for `parse_elements`, which reports it again.
- EarlyParserSpec.Elements: logs one error where the source logs two on an assignment whose right-hand side cannot start an item, such as `a = = b = c`, because of the corrected `EarlyParserSpec.ParseItem`.
- EarlyParser.Parser.ParseItem: follows the corrected `EarlyParserSpec.ParseItem`.
- EarlyParser.Parser.ParseTupple: follows `EarlyParserSpec.ParseTupple`, with the corrected peek.
- EarlyParser.Parser.TuppleSymbols: follows `EarlyParserSpec.TuppleLoop`, with the corrected peek.
- EarlyParser.Parser.ParseList: follows `EarlyParserSpec.ParseList`, with the corrected `ParseItem` and peek.
- EarlyParser.Parser.ListItems: follows `EarlyParserSpec.ListLoop`, with the corrected `ParseItem`.
- EarlyParser.Parser.ParseAssignment: follows `EarlyParserSpec.Assignment`, with the corrected `ParseItem`.
- EarlyParser.Parser.ParseElements: follows `EarlyParserSpec.Elements`, with the corrected `ParseItem`.
- WebLib.LevelOf: the level match in `web_lib/src/lib.rs` has no arm for `Help`. The model maps `Help` to `None`, not to a severity.

## Quirks of the code

The model follows the code in these places, although the behaviour may look unintended.

- Redefining a state: `src/automata/npda.rs` keeps the index of the first definition. `automata/src/automatan/fa.rs`, `pda.rs` and `tm.rs` insert into a `HashMap`, so the later definition overwrites the earlier one and the last span is kept.
- The Turing-machine compiler (`automata/src/automatan/tm.rs`):
  - it checks the blank symbol `B = x` against the declared states, not the symbols (`TuringMachines.BlankMustBeState`);
  - it keys the tape-symbol section by the transition function's aliases (`TuringMachines.TapeSectionNamedByDelta`);
  - when the initial state is missing, its help text suggests adding `B = ...`.
- Turing-machine directions: the Rust side serialises a direction as `"Left"`, `"Right"` or `"None"`, but `web/root/src/simulation/tm.ts` switches on `"_"`, `"<"` and `">"`. Every compiled direction therefore reaches the simulator's throwing branch (`TmSimulation.CompiledDirectionsThrow`).
- `step` in `web/root/src/simulation/pda.ts` has no early return after acceptance. It keeps expanding the remaining paths.
- `automata/src/automatan/fa.rs` and `pda.rs` define `parse`, while the dispatcher calls `compile`. The model treats them as one operation.
- The oldest parser (`src/parser.rs`) logs errors in symbols and items at the end-of-input span.
- The oldest parser's messages print tokens with the `Display` of `src/lexer.rs:30-35` as written (`EarlyLexer.DescribeAsWritten`), so `(` and `)` appear swapped in them, as the source prints them.
- `parse_list` in `automata/src/loader/parser.rs:205-211` gives the `BraceComma` kind to a list that the end of the line cuts off, whatever its brackets (`ParserSpec.ListItemTurnShape`).
- In the first NPDA simulator, the `Accept` result leaves the running frontier empty.

## Findings

| source | as written | input that shows it | evidently intended | confidence | as-written member | corrected member |
|---|---|---|---|---|---|---|
| src/automata/npda.rs:107-138 | the empty-stack acceptance test compares the stack after the top symbol was popped with the initial stack | a machine with no transitions, input `""`, start stack `[Z]`: the popped stack `[]` is not `[Z]`, so the run is rejected | accept when the stack still holds exactly the initial symbol, tested before the pop | high (not executed) | NpdaSimulator.EmptyStackAsWritten | NpdaSimulator.CorrectedAcceptsInitialStack |
| src/automata/npda.rs:489-493 | `max_state` is `states.len() as u16`, which wraps to 0 at 65536 states; the loader logs no error for that many states | a machine declaring 65536 states: the slot `q + max_state * s` becomes just `q`, so every stack symbol of a state reads the same cell, the one of stack symbol 0 | keep the full state count as the table width | medium (not executed) | NpdaLoader.WideTableAliases | NpdaLoader.FullWidthTargets |
| src/lexer.rs:30-35 | `Display` writes `LPar` as `)` and `RPar` as `(` | the token `LPar` | each parenthesis describes itself | high (not executed) | EarlyLexer.DescribeAsWrittenSwapsParentheses | EarlyLexer.PunctuationDescribesItself |
| src/parser.rs:80-93 | `peek_token` loops on an `Err` item without advancing, logging the same error on every pass | any source with a lexical error, such as a stray `$` | log the error once, skip the item and peek the next token, as `next_token` does | high (not executed) | EarlyParserSpec.PeekAsWrittenNeverReturns | EarlyParserSpec.PeekAgreesWithNext |
| src/parser.rs:82-84 | `peek_token` returns any `Ok` item, comments included, although `next_token` passes over comments | `s = // note` followed by `{a}` on the next line: `parse_item` peeks the comment and reports it as an unexpected token, and the assignment gets `<INVALID>` | pass over comments when peeking, as `next_token` does | high (not executed) | EarlyParserSpec.PeekAsWrittenShowsComments | EarlyParserSpec.PeekAgreesWithNext |
| src/parser.rs:186-252 | `parse_item` peeks an unexpected token but does not consume it, so the list loop meets the same token again | `{ = }`: the `=` is reported and the loop repeats on it forever | consume the unexpected token so every list round makes progress | high (not executed) | EarlyParserSpec.ListAsWrittenSpins | EarlyParserSpec.ListRoundProgresses |
| web/root/src/simulation/tm.ts:81-84 | moving left from cell 0 uses the result of `splice`, which is `[]`, as the new tape, and inserts the symbol into the parent path's tape | tape `["a"]`, head 0, write `b`, move `<`: the new tape is empty | prepend a blank and keep the written cell: `["_", "b"]` at head 0 | high (not executed) | TmSimulation.LeftFromFirstCellAsWritten | TmSimulation.Move |
| web_lib/src/lib.rs:182-187 | diagnostic offsets count characters (`chars().count()`), but the editor indexes UTF-16 units | the source `😀-` with the error span on `-` (bytes 4..5): offset 1, where the editor needs 2 | count UTF-16 code units of the prefix | high (not executed) | WebLib.DiagnosticAsWrittenMisplaced | WebLib.DiagnosticOnToken |
| automata/src/loader/log.rs:236-239 | the underline byte index advances by the line's width, which already includes its `\n`, and then by one more | `ab\ncd` with the span `[1, 4)`: the `c` of the second line gets no `~` | advance by the line's width only | high (not executed) | Log.UnderlineAsWrittenMissesSecondLine | Log.UnderlineMarksSpan |
| automata/src/loader/log.rs:184-188 | the gutter padding is `ilog10(line_end)`, one less than the number of digits | an excerpt ending at line 10: the gutter `9: ` is 3 columns wide, but the underline is indented 4 | pad to the digit count of `line_end` | high (not executed) | Log.GutterAsWrittenMisaligned | Log.GutterAligned |
