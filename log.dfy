// The diagnostics sink of the loader (automata/src/loader/log.rs): an
// append-only log with a monotone error flag, entries that carry a chain of
// child notes, and the rendering of an entry as a numbered source excerpt
// with `~` underlines.

module Log {
  import opened Common
  import opened SourceText

  datatype LogLevel = Info | Warning | Error | Help

  datatype LogEntry = LogEntry(message: string, span: Option<Span>, level: LogLevel, child: Option<LogEntry>)

  // ---------------------------------------------------------------------
  // The `LogSink` helpers: each builds a childless entry of one level, with
  // a span or (the locless and logless forms) without one.

  function ErrorAt(message: string, span: Span): LogEntry { LogEntry(message, Some(span), Error, None) }
  function ErrorLocless(message: string): LogEntry { LogEntry(message, None, Error, None) }
  function WarningAt(message: string, span: Span): LogEntry { LogEntry(message, Some(span), Warning, None) }
  function WarningLocless(message: string): LogEntry { LogEntry(message, None, Warning, None) }
  function InfoAt(message: string, span: Span): LogEntry { LogEntry(message, Some(span), Info, None) }
  function InfoLogless(message: string): LogEntry { LogEntry(message, None, Info, None) }
  function HelpAt(message: string, span: Span): LogEntry { LogEntry(message, Some(span), Help, None) }
  function HelpLogless(message: string): LogEntry { LogEntry(message, None, Help, None) }

  // ---------------------------------------------------------------------
  // Child chains.

  /** Number of entries hanging below `e`. */
  function ChainLength(e: LogEntry): nat
  {
    match e.child
    case None => 0
    case Some(c) => 1 + ChainLength(c)
  }

  /** The entry `depth` steps down the chain of `e`. */
  function EntryAt(e: LogEntry, depth: nat): LogEntry
    requires depth <= ChainLength(e)
  {
    if depth == 0 then e else EntryAt(e.child.value, depth - 1)
  }

  /** `LogEntry::emit` on the entry `depth` steps down: its child becomes `c`. */
  function SetChild(e: LogEntry, depth: nat, c: LogEntry): (r: LogEntry)
    requires depth <= ChainLength(e)
    ensures r.message == e.message && r.span == e.span && r.level == e.level
  {
    if depth == 0 then e.(child := Some(c))
    else e.(child := Some(SetChild(e.child.value, depth - 1, c)))
  }

  /** Emitting on an entry of a chain replaces that entry's child with the new
      entry, keeps every entry above it, and drops what hung below it. */
  lemma {:induction false} SetChildShape(e: LogEntry, depth: nat, c: LogEntry)
    requires depth <= ChainLength(e)
    ensures ChainLength(SetChild(e, depth, c)) == depth + 1 + ChainLength(c)
    ensures EntryAt(SetChild(e, depth, c), depth + 1) == c
    ensures forall d :: 0 <= d <= depth ==>
      EntryAt(SetChild(e, depth, c), d).message == EntryAt(e, d).message &&
      EntryAt(SetChild(e, depth, c), d).span == EntryAt(e, d).span &&
      EntryAt(SetChild(e, depth, c), d).level == EntryAt(e, d).level
  {
    if depth > 0 {
      SetChildShape(e.child.value, depth - 1, c);
    }
  }

  /** The `&mut LogEntry` that `emit` hands back: the entry `depth` steps down
      the chain of the log's entry number `index`. */
  datatype Handle = Handle(index: nat, depth: nat)

  class Logs {
    var entries: seq<LogEntry>
    var hasError: bool

    /** The flag records exactly whether an Error entry was emitted at top
        level; errors in child notes do not set it. */
    ghost predicate Valid()
      reads this
    {
      hasError <==> exists i :: 0 <= i < |entries| && entries[i].level == Error
    }

    predicate Live(h: Handle)
      reads this
    {
      h.index < |entries| && h.depth <= ChainLength(entries[h.index])
    }

    constructor ()
      ensures Valid() && entries == [] && !hasError
    {
      entries := [];
      hasError := false;
    }

    /** `Logs::emit`: appends `e` and hands back the appended entry. */
    method Emit(e: LogEntry) returns (h: Handle)
      requires Valid()
      modifies this
      ensures Valid()
      ensures entries == old(entries) + [e]
      ensures hasError == (old(hasError) || e.level == Error)
      ensures h == Handle(|entries| - 1, 0) && Live(h)
    {
      ghost var before := entries;
      hasError := hasError || e.level == Error;
      entries := entries + [e];
      h := Handle(|entries| - 1, 0);
      assert entries[h.index] == e;
      assert forall i :: 0 <= i < |before| ==> entries[i] == before[i];
    }

    /** `LogEntry::emit` through a handle: the handled entry's child becomes
        `e`; the error flag is untouched. */
    method EmitOn(h: Handle, e: LogEntry) returns (h': Handle)
      requires Valid() && Live(h)
      modifies this
      ensures Valid()
      ensures entries == old(entries)[h.index := SetChild(old(entries)[h.index], h.depth, e)]
      ensures hasError == old(hasError)
      ensures h' == Handle(h.index, h.depth + 1) && Live(h')
    {
      SetChildShape(entries[h.index], h.depth, e);
      entries := entries[h.index := SetChild(entries[h.index], h.depth, e)];
      h' := Handle(h.index, h.depth + 1);
      assert forall i :: 0 <= i < |entries| ==> entries[i].level == old(entries)[i].level;
    }

    /** `contains_errors`. */
    function ContainsErrors(): (r: bool)
      reads this
      requires Valid()
      ensures r <==> exists i :: 0 <= i < |entries| && entries[i].level == Error
    {
      hasError
    }
  }

  // ---------------------------------------------------------------------
  // Rendering (`LogEntryDisplay`).

  const RESET := "\U{1B}[0;22m"
  const BOLD := "\U{1B}[1m"
  const RED := "\U{1B}[31m"
  const GREEN := "\U{1B}[32m"
  const YELLOW := "\U{1B}[33m"
  const CYAN := "\U{1B}[36m"

  function Label(level: LogLevel): string
  {
    match level
    case Help => BOLD + GREEN + "help" + RESET + BOLD + ": "
    case Info => BOLD + CYAN + "info" + RESET + BOLD + ": "
    case Warning => BOLD + YELLOW + "warning" + RESET + BOLD + ": "
    case Error => BOLD + RED + "error" + RESET + BOLD + ": "
  }

  function Header(e: LogEntry): string
  {
    Label(e.level) + e.message + RESET + "\n"
  }

  /** Line number of the first excerpt line: the lines of `src[..=span.0]`. */
  function LineStart(src: string, span: Span): nat
  {
    LineCount(BeforeOrEmpty(src, span.start + 1))
  }

  /** The lines of `src[..span.1]`. */
  function LineEnd(src: string, span: Span): nat
  {
    LineCount(BeforeOrEmpty(src, span.end))
  }

  function Padding(lineEnd: nat): nat
  {
    if lineEnd == 0 then 1 else Log10(lineEnd)
  }

  /** Byte offset of the start of the line holding `span.0`. */
  function ExcerptStart(src: string, span: Span): nat
  {
    match Before(src, span.start)
    case None => 0
    case Some(p) =>
      match LastIndexOf(p, '\n')
      case None => 0
      case Some(i) => Offset(src, i) + 1
  }

  /** Byte offset of the end of the line holding `span.1`. */
  function ExcerptEnd(src: string, span: Span): nat
  {
    var before := BeforeOrEmpty(src, span.end);
    if |before| > 0 && before[|before| - 1] == '\n' then span.end
    else
      match IndexAt(src, span.end)
      case None => Utf8Width(src)
      case Some(k) =>
        var f := FindFrom(src, '\n', k);
        if f < |src| then Offset(src, f) else Utf8Width(src)
  }

  /** `src.get(start..end).unwrap_or("")`. */
  function ExcerptText(src: string, span: Span): string
  {
    match IndexAt(src, ExcerptStart(src, span))
    case None => []
    case Some(a) =>
      match IndexAt(src, ExcerptEnd(src, span))
      case None => []
      case Some(z) => if a <= z then src[a..z] else []
  }

  function ExcerptLines(src: string, span: Span): seq<string>
  {
    SplitInclusive(ExcerptText(src, span))
  }

  /** The underlines of consecutive lines when the first one starts at byte
      `index`, each line continuing where the previous one ended. */
  function Underlines(lines: seq<string>, index: nat, lo: nat, hi: nat): (r: seq<string>)
    ensures |r| == |lines|
    decreases |lines|
  {
    if lines == [] then []
    else [Cells(lines[0], index, lo, hi)] + Underlines(lines[1..], index + Utf8Width(lines[0]), lo, hi)
  }

  /** The underlines as the source computes them: after each line's
      characters, whose widths already include the line feed, the index is
      advanced by one byte more. */
  function UnderlinesAsWritten(lines: seq<string>, index: nat, lo: nat, hi: nat): (r: seq<string>)
    ensures |r| == |lines|
    decreases |lines|
  {
    if lines == [] then []
    else [Cells(lines[0], index, lo, hi)] + UnderlinesAsWritten(lines[1..], index + Utf8Width(lines[0]) + 1, lo, hi)
  }

  /** The line-number gutter as the source writes it: the number
      right-aligned to `padding` columns. */
  function GutterAsWritten(number: nat, padding: nat): string
  {
    PadLeft(NatToString(number), padding) + ": "
  }

  /** The gutter right-aligned to the width of the underline indent. */
  function Gutter(number: nat, padding: nat): string
  {
    PadLeft(NatToString(number), padding + 1) + ": "
  }

  function LineBreakUnlessEnded(line: string): string
  {
    if |line| > 0 && line[|line| - 1] == '\n' then "" else "\n"
  }

  function Block(number: nat, padding: nat, line: string, cells: string): string
  {
    (BOLD + CYAN + Gutter(number, padding) + RESET) + Untab(line) + LineBreakUnlessEnded(line)
    + (BOLD + CYAN) + Spaces(padding + 3) + cells + (RESET + "\n")
  }

  /** The numbered, underlined lines of an excerpt whose first line is line
      `first` and starts at byte `start`. */
  function Blocks(lines: seq<string>, first: nat, padding: nat, cells: seq<string>): string
    requires |cells| == |lines|
    decreases |lines|
  {
    if lines == [] then []
    else Block(first, padding, lines[0], cells[0]) + Blocks(lines[1..], first + 1, padding, cells[1..])
  }

  function Excerpt(src: string, span: Span): string
  {
    var lines := ExcerptLines(src, span);
    Blocks(lines, LineStart(src, span), Padding(LineEnd(src, span)), Underlines(lines, ExcerptStart(src, span), span.start, span.end))
  }

  function SpanExcerpt(src: string, span: Option<Span>): string
  {
    match span
    case None => ""
    case Some(sp) => Excerpt(src, sp)
  }

  /** An entry followed by its child chain. */
  function Render(src: string, e: LogEntry): string
    decreases e
  {
    Header(e) + SpanExcerpt(src, e.span) + RenderFrom(src, e.child)
  }

  function RenderFrom(src: string, next: Option<LogEntry>): string
    decreases next
  {
    match next
    case None => ""
    case Some(e) => Render(src, e)
  }

  // ---------------------------------------------------------------------
  // Properties of the rendering.

  /** The number of bytes in the first `k` lines. */
  function LinesWidth(lines: seq<string>, k: nat): nat
    requires k <= |lines|
  {
    if k == 0 then 0 else Utf8Width(lines[0]) + LinesWidth(lines[1..], k - 1)
  }

  /** `LinesWidth` is the width of the first `k` lines joined. */
  lemma {:induction false} LinesWidthJoined(lines: seq<string>, k: nat)
    requires k <= |lines|
    ensures LinesWidth(lines, k) == Utf8Width(Concat(lines[..k]))
  {
    if k == 0 {
      assert lines[..0] == [];
    } else {
      LinesWidthJoined(lines[1..], k - 1);
      assert lines[..k] == [lines[0]] + lines[1..][..k - 1];
      ConcatCons(lines[0], lines[1..][..k - 1]);
      Utf8WidthConcat(lines[0], Concat(lines[1..][..k - 1]));
    }
  }

  /** The source's underline of line `k` is the one it should draw shifted
      by `k` bytes: line `k` is treated as starting `k` bytes after it does. */
  lemma {:induction false} UnderlinesDrift(lines: seq<string>, index: nat, lo: nat, hi: nat, k: nat)
    requires k < |lines|
    ensures UnderlinesAsWritten(lines, index, lo, hi)[k] == Cells(lines[k], index + LinesWidth(lines, k) + k, lo, hi)
    decreases k
  {
    if k > 0 {
      var rest := lines[1..];
      UnderlinesDrift(rest, index + Utf8Width(lines[0]) + 1, lo, hi, k - 1);
      assert UnderlinesAsWritten(lines, index, lo, hi)[k] == UnderlinesAsWritten(rest, index + Utf8Width(lines[0]) + 1, lo, hi)[k - 1];
      assert rest[k - 1] == lines[k];
    }
  }

  /** The intended underline of line `k` starts at the byte where the lines
      before it end. */
  lemma {:induction false} UnderlinesContinue(lines: seq<string>, index: nat, lo: nat, hi: nat, k: nat)
    requires k < |lines|
    ensures Underlines(lines, index, lo, hi)[k] == Cells(lines[k], index + LinesWidth(lines, k), lo, hi)
    decreases k
  {
    if k > 0 {
      var rest := lines[1..];
      UnderlinesContinue(rest, index + Utf8Width(lines[0]), lo, hi, k - 1);
      assert Underlines(lines, index, lo, hi)[k] == Underlines(rest, index + Utf8Width(lines[0]), lo, hi)[k - 1];
      assert rest[k - 1] == lines[k];
    }
  }

  /** With the underline index continuing from line to line, the cell under
      character `p` of line `k` is `~` exactly when that character's byte
      offset in the text lies in `[lo, hi)`. */
  lemma UnderlinesMarkOffsets(lines: seq<string>, index: nat, lo: nat, hi: nat, k: nat, p: nat)
    requires k < |lines| && p < |lines[k]|
    ensures var u := Underlines(lines, index, lo, hi)[k];
      var at := index + Utf8Width(Concat(lines[..k]) + lines[k][..p]);
      |u| == |lines[k]| && u[p] == if lo <= at < hi then '~' else ' '
  {
    UnderlinesContinue(lines, index, lo, hi, k);
    LinesWidthJoined(lines, k);
    CellAt(lines[k], index + Utf8Width(Concat(lines[..k])), lo, hi, p);
    Utf8WidthConcat(Concat(lines[..k]), lines[k][..p]);
  }

  /** In the rendered excerpt, cell `p` of line `k` is `~` exactly when the
      source character it stands under has a byte offset in the span. */
  lemma UnderlineMarksSpan(src: string, span: Span, k: nat, p: nat)
    requires k < |ExcerptLines(src, span)| && p < |ExcerptLines(src, span)[k]|
    ensures var lines := ExcerptLines(src, span);
      var a := IndexAt(src, ExcerptStart(src, span)).value;
      var c := a + |Concat(lines[..k])| + p;
      var u := Underlines(lines, ExcerptStart(src, span), span.start, span.end)[k];
      c < |src| && src[c] == lines[k][p] &&
      |u| == |lines[k]| && u[p] == if span.start <= Offset(src, c) < span.end then '~' else ' '
  {
    var lines := ExcerptLines(src, span);
    var a := IndexAt(src, ExcerptStart(src, span)).value;
    var z := IndexAt(src, ExcerptEnd(src, span)).value;
    assert a <= z && ExcerptText(src, span) == src[a..z];
    PiecePosition(src, a, z, k, p);
    UnderlinesMarkOffsets(lines, ExcerptStart(src, span), span.start, span.end, k, p);
  }

  /** Where character `p` of piece `k` of `split_inclusive(src[a..z])` sits
      in `src`, by index and by byte offset. */
  lemma {:induction false} PiecePosition(src: string, a: nat, z: nat, k: nat, p: nat)
    requires a <= z <= |src|
    requires k < |SplitInclusive(src[a..z])| && p < |SplitInclusive(src[a..z])[k]|
    ensures var lines := SplitInclusive(src[a..z]);
      var c := a + |Concat(lines[..k])| + p;
      c < z && src[c] == lines[k][p] &&
      Offset(src, c) == Offset(src, a) + Utf8Width(Concat(lines[..k]) + lines[k][..p])
  {
    hide SplitInclusive, Concat, Utf8Width;
    var text := src[a..z];
    var lines := SplitInclusive(text);
    SplitInclusiveConcat(text);
    ConcatPrefix(lines, k, p);
    var at := |Concat(lines[..k])| + p;
    assert src[a + at] == text[at] == lines[k][p];
    var before := Concat(lines[..k]) + lines[k][..p];
    assert |before| == at;
    assert before == text[..at] == src[a..a + at];
    OffsetAfter(src, a, before);
  }

  /** The byte offset just after `piece`, which starts at index `a`. */
  lemma OffsetAfter(src: string, a: nat, piece: string)
    requires a + |piece| <= |src| && src[a..a + |piece|] == piece
    ensures Offset(src, a + |piece|) == Offset(src, a) + Utf8Width(piece)
  {
    assert src[..a + |piece|] == src[..a] + piece;
    Utf8WidthConcat(src[..a], piece);
  }

  /** Character `p` of part `k` sits at index `|Concat(parts[..k])| + p` of
      the concatenation. */
  lemma {:induction false} ConcatPrefix(parts: seq<string>, k: nat, p: nat)
    requires k < |parts| && p < |parts[k]|
    ensures var at := |Concat(parts[..k])| + p;
      at < |Concat(parts)| && Concat(parts)[at] == parts[k][p] &&
      Concat(parts)[..at] == Concat(parts[..k]) + parts[k][..p]
    decreases |parts|
  {
    if k == |parts| - 1 {
      assert parts[..|parts| - 1] == parts[..k];
    } else {
      ConcatPrefix(parts[..|parts| - 1], k, p);
      assert parts[..|parts| - 1][..k] == parts[..k];
    }
  }

  /** The gutter of every line number up to `lineEnd` is as wide as the
      underline indent, so each underline stands under its own line. */
  lemma GutterAligned(number: nat, lineEnd: nat)
    requires 1 <= number <= lineEnd
    ensures |Gutter(number, Padding(lineEnd))| == Padding(lineEnd) + 3
  {
    NatToStringLength(number);
    Log10Monotone(number, lineEnd);
  }

  lemma {:induction false} Log10Monotone(a: nat, b: nat)
    requires 1 <= a <= b
    ensures Log10(a) <= Log10(b)
  {
    if a >= 10 {
      Log10Monotone(a / 10, b / 10);
    }
  }

  /** Counter-example for the source's gutter: in an excerpt whose last line
      is line 10, line 9's gutter is one column narrower than the indent of
      its underline. */
  lemma GutterAsWrittenMisaligned()
    ensures Padding(10) == 1
    ensures |GutterAsWritten(9, Padding(10))| == 3 && Padding(10) + 3 == 4
  {
    assert Log10(10) == 1 + Log10(1);
  }

  /** Counter-example for the source's underline: in `ab\ncd` with the span
      `[1, 4)` covering `b`, the line feed and `c`, the source leaves `c`
      (byte 3) without its `~`, while the intended underline marks it. */
  lemma UnderlineAsWrittenMissesSecondLine()
    ensures var lines := ["ab\n", "cd"];
      UnderlinesAsWritten(lines, 0, 1, 4)[1] == "  " &&
      Underlines(lines, 0, 1, 4)[1] == "~ "
  {
    var lines := ["ab\n", "cd"];
    assert Utf8Width("ab\n") == 3 by {
      Utf8WidthAscii("ab\n");
    }
    assert lines[1..] == ["cd"];
    assert Cells("cd", 4, 1, 4) == "  " by {
      assert "cd"[1..] == "d";
    }
    assert Cells("cd", 3, 1, 4) == "~ " by {
      assert "cd"[1..] == "d";
    }
  }

  // ---------------------------------------------------------------------
  // The renderer.

  /** Writes the excerpt of `span`: per line, the gutter and the line with
      tabs as spaces, then the indent and the underline, advancing the byte
      index across the line's characters. */
  method WriteExcerpt(src: string, span: Span) returns (out: string)
    ensures out == Excerpt(src, span)
  {
    var lines := ExcerptLines(src, span);
    var first := LineStart(src, span);
    var padding := Padding(LineEnd(src, span));
    var start := ExcerptStart(src, span);
    out := WriteBlocks(lines, first, padding, start, span);
  }

  lemma EmptyPrefix(s: string)
    ensures [] + s == s
  {
  }

  lemma UnderlinesTail(lines: seq<string>, index: nat, width: nat, lo: nat, hi: nat)
    requires lines != [] && width == Utf8Width(lines[0])
    ensures Underlines(lines, index, lo, hi)[0] == Cells(lines[0], index, lo, hi)
    ensures Underlines(lines, index, lo, hi)[1..] == Underlines(lines[1..], index + width, lo, hi)
  {
    var u := Underlines(lines, index, lo, hi);
    assert u == [Cells(lines[0], index, lo, hi)] + Underlines(lines[1..], index + width, lo, hi);
  }

  /** The loop of `WriteBlocks` keeps its invariant when it appends the
      block of the next line, `width` bytes long. */
  lemma WriteStep(todo: seq<string>, number: nat, padding: nat, index: nat, width: nat, span: Span, out: string, block: string, goal: string)
    requires todo != [] && width == Utf8Width(todo[0])
    requires out + Blocks(todo, number, padding, Underlines(todo, index, span.start, span.end)) == goal
    requires block == Block(number, padding, todo[0], Cells(todo[0], index, span.start, span.end))
    ensures (out + block) + Blocks(todo[1..], number + 1, padding, Underlines(todo[1..], index + width, span.start, span.end)) == goal
  {
    UnderlinesTail(todo, index, width, span.start, span.end);
  }

  method WriteBlocks(lines: seq<string>, first: nat, padding: nat, start: nat, span: Span) returns (out: string)
    ensures out == Blocks(lines, first, padding, Underlines(lines, start, span.start, span.end))
  {
    ghost var goal := Blocks(lines, first, padding, Underlines(lines, start, span.start, span.end));
    var todo: seq<string>, number: nat, index: nat := lines, first, start;
    out := [];
    EmptyPrefix(goal);
    while todo != []
      invariant out + Blocks(todo, number, padding, Underlines(todo, index, span.start, span.end)) == goal
      decreases |todo|
    {
      var block := WriteBlock(number, padding, todo[0], index, span);
      var width := Utf8Width(todo[0]);
      WriteStep(todo, number, padding, index, width, span, out, block, goal);
      out, todo, number, index := out + block, todo[1..], number + 1, index + width;
    }
  }

  method WriteBlock(number: nat, padding: nat, line: string, index: nat, span: Span) returns (out: string)
    ensures out == Block(number, padding, line, Cells(line, index, span.start, span.end))
  {
    var text := [];
    for j := 0 to |line|
      invariant text == Untab(line)[..j]
    {
      text := text + [if line[j] == '\t' then ' ' else line[j]];
    }
    assert text == Untab(line);
    var cells := [];
    var at := index;
    for j := 0 to |line|
      invariant at == index + Utf8Width(line[..j])
      invariant cells == Cells(line, index, span.start, span.end)[..j]
    {
      CellAt(line, index, span.start, span.end, j);
      cells := cells + [if span.start <= at < span.end then '~' else ' '];
      OffsetStep(line, j);
      at := at + Utf8Len(line[j]);
    }
    assert cells == Cells(line, index, span.start, span.end);
    out := (BOLD + CYAN + Gutter(number, padding) + RESET) + text + LineBreakUnlessEnded(line)
      + (BOLD + CYAN) + Spaces(padding + 3) + cells + (RESET + "\n");
  }

  /** `LogEntryDisplay::fmt`: the entry, then each entry of its child chain. */
  /** The loop of `Display` keeps its invariant when it appends the next
      entry of the chain. */
  lemma DisplayStep(src: string, next: Option<LogEntry>, out: string, part: string, goal: string)
    requires next.Some?
    requires out + RenderFrom(src, next) == goal
    requires part == Header(next.value) + SpanExcerpt(src, next.value.span)
    ensures (out + part) + RenderFrom(src, next.value.child) == goal
  {
  }

  method Display(src: string, entry: LogEntry) returns (out: string)
    ensures out == Render(src, entry)
  {
    ghost var goal := Render(src, entry);
    out := [];
    var next: Option<LogEntry> := Some(entry);
    EmptyPrefix(goal);
    while next.Some?
      invariant out + RenderFrom(src, next) == goal
      decreases next
    {
      var part := Header(next.value);
      if next.value.span.Some? {
        var x := WriteExcerpt(src, next.value.span.value);
        part := part + x;
      }
      DisplayStep(src, next, out, part, goal);
      out, next := out + part, next.value.child;
    }
  }
}
