// The first loader's diagnostics (src/loader/log.rs): flat entries without
// child notes, a log that owns the source text, and a renderer that walks
// the excerpt with `lines()` instead of `split_inclusive`.

module LegacyLog {
  import opened Common
  import opened SourceText
  import Log

  datatype LogLevel = Info | Warning | Error

  datatype LogEntry = LogEntry(message: string, span: Option<Span>, level: LogLevel)

  class Logs {
    const src: string
    var entries: seq<LogEntry>
    var hasError: bool

    ghost predicate Valid()
      reads this
    {
      hasError <==> exists i :: 0 <= i < |entries| && entries[i].level == Error
    }

    constructor (src: string)
      ensures Valid() && this.src == src && entries == [] && !hasError
    {
      this.src := src;
      entries := [];
      hasError := false;
    }

    function ContainsErrors(): (r: bool)
      reads this
      requires Valid()
      ensures r <==> exists i :: 0 <= i < |entries| && entries[i].level == Error
    {
      hasError
    }

    method Emit(e: LogEntry)
      requires Valid()
      modifies this
      ensures Valid()
      ensures entries == old(entries) + [e]
      ensures hasError == (old(hasError) || e.level == Error)
    {
      ghost var before := entries;
      hasError := hasError || e.level == Error;
      entries := entries + [e];
      assert entries[|entries| - 1] == e;
      assert forall i :: 0 <= i < |before| ==> entries[i] == before[i];
    }

    method EmitErrorLocless(message: string)
      requires Valid()
      modifies this
      ensures Valid() && hasError
      ensures entries == old(entries) + [LogEntry(message, None, Error)]
    {
      Emit(LogEntry(message, None, Error));
    }

    method EmitError(message: string, span: Span)
      requires Valid()
      modifies this
      ensures Valid() && hasError
      ensures entries == old(entries) + [LogEntry(message, Some(span), Error)]
    {
      Emit(LogEntry(message, Some(span), Error));
    }

    method EmitWarning(message: string, span: Span)
      requires Valid()
      modifies this
      ensures Valid() && hasError == old(hasError)
      ensures entries == old(entries) + [LogEntry(message, Some(span), Warning)]
    {
      Emit(LogEntry(message, Some(span), Warning));
    }

    method EmitWarningLocless(message: string)
      requires Valid()
      modifies this
      ensures Valid() && hasError == old(hasError)
      ensures entries == old(entries) + [LogEntry(message, None, Warning)]
    {
      Emit(LogEntry(message, None, Warning));
    }

    method EmitInfo(message: string, span: Span)
      requires Valid()
      modifies this
      ensures Valid() && hasError == old(hasError)
      ensures entries == old(entries) + [LogEntry(message, Some(span), Info)]
    {
      Emit(LogEntry(message, Some(span), Info));
    }
  }

  /** No entry of `logs` is an error. */
  predicate NoErrors(logs: seq<LogEntry>)
  {
    forall i :: 0 <= i < |logs| ==> logs[i].level != Error
  }

  lemma NoErrorsConcat(a: seq<LogEntry>, b: seq<LogEntry>)
    ensures NoErrors(a + b) <==> NoErrors(a) && NoErrors(b)
  {
    forall i | 0 <= i < |a| ensures a[i] == (a + b)[i] {
    }
    forall i | 0 <= i < |b| ensures b[i] == (a + b)[|a| + i] {
    }
    if NoErrors(a) && NoErrors(b) {
      forall i | 0 <= i < |a + b| ensures (a + b)[i].level != Error {
        if i >= |a| {
          assert (a + b)[i] == b[i - |a|];
        }
      }
    }
  }

  /** Appending in two steps is appending once. */
  lemma Appended(before: seq<LogEntry>, done: seq<LogEntry>, more: seq<LogEntry>)
    ensures (before + done) + more == before + (done + more)
  {
  }

  // ---------------------------------------------------------------------
  // Rendering.

  function Label(level: LogLevel): string
  {
    match level
    case Info => Log.BOLD + Log.CYAN + "info" + Log.RESET + Log.BOLD + ": "
    case Warning => Log.BOLD + Log.YELLOW + "warning" + Log.RESET + Log.BOLD + ": "
    case Error => Log.BOLD + Log.RED + "error" + Log.RESET + Log.BOLD + ": "
  }

  function Header(e: LogEntry): string
  {
    Label(e.level) + e.message + Log.RESET + "\n"
  }

  /** Byte offset of the end of the line holding `span.1`; unlike the current
      renderer, a span ending just after a line feed runs on to the end of
      the following line. */
  function ExcerptEnd(src: string, span: Span): nat
  {
    match IndexAt(src, span.end)
    case None => Utf8Width(src)
    case Some(k) =>
      var f := FindFrom(src, '\n', k);
      if f < |src| then Offset(src, f) else Utf8Width(src)
  }

  function ExcerptText(src: string, span: Span): string
  {
    match IndexAt(src, Log.ExcerptStart(src, span))
    case None => []
    case Some(a) =>
      match IndexAt(src, ExcerptEnd(src, span))
      case None => []
      case Some(z) => if a <= z then src[a..z] else []
  }

  /** Underlines of `lines()` pieces: after each line the index moves one
      byte further, for the line feed that `lines()` removed. */
  function Underlines(lines: seq<string>, index: nat, lo: nat, hi: nat): (r: seq<string>)
    ensures |r| == |lines|
    decreases |lines|
  {
    if lines == [] then []
    else [Cells(lines[0], index, lo, hi)] + Underlines(lines[1..], index + Utf8Width(lines[0]) + 1, lo, hi)
  }

  function Block(number: nat, padding: nat, line: string, cells: string): string
  {
    (Log.BOLD + Log.CYAN + Log.GutterAsWritten(number, padding) + Log.RESET) + Untab(line) + "\n"
    + (Log.BOLD + Log.CYAN) + Spaces(padding + 3) + cells + (Log.RESET + "\n")
  }

  function Blocks(lines: seq<string>, first: nat, padding: nat, cells: seq<string>): string
    requires |cells| == |lines|
    decreases |lines|
  {
    if lines == [] then []
    else Block(first, padding, lines[0], cells[0]) + Blocks(lines[1..], first + 1, padding, cells[1..])
  }

  /** The rendering of one entry, or `None` where the source panics: the
      gutter width is `ilog10` of the last line number, which panics when
      the text before the span's end has no lines. */
  function Render(src: string, e: LogEntry): (r: Option<string>)
    ensures r.None? <==> e.span.Some? && Log.LineEnd(src, e.span.value) == 0
  {
    match e.span
    case None => Some(Header(e))
    case Some(span) =>
      var lineEnd := Log.LineEnd(src, span);
      if lineEnd == 0 then None
      else
        var lines := Lines(ExcerptText(src, span));
        Some(Header(e) + Blocks(lines, Log.LineStart(src, span), Log10(lineEnd),
                                Underlines(lines, Log.ExcerptStart(src, span), span.start, span.end)))
  }

  // ---------------------------------------------------------------------
  // Properties.

  /** When no line before line `k` ends in a carriage return, line `k`'s
      underline starts at the byte where the pieces before it end. */
  lemma {:induction false} UnderlinesContinue(lines: seq<string>, pieces: seq<string>, index: nat, lo: nat, hi: nat, k: nat)
    requires |lines| == |pieces| && k < |pieces|
    requires forall j :: 0 <= j < k ==> lines[j] + "\n" == pieces[j]
    ensures Underlines(lines, index, lo, hi)[k] == Cells(lines[k], index + Log.LinesWidth(pieces, k), lo, hi)
    decreases k
  {
    if k > 0 {
      assert Utf8Width(pieces[0]) == Utf8Width(lines[0]) + 1 by {
        assert lines[0] + "\n" == pieces[0];
        Utf8WidthConcat(lines[0], "\n");
        assert Utf8Width("\n") == Utf8Width([]) + Utf8Len('\n');
      }
      var rest := lines[1..];
      assert forall j :: 0 <= j < k - 1 ==> rest[j] + "\n" == pieces[1..][j] by {
        forall j | 0 <= j < k - 1
          ensures rest[j] + "\n" == pieces[1..][j]
        {
          assert rest[j] == lines[j + 1] && pieces[1..][j] == pieces[j + 1];
        }
      }
      UnderlinesContinue(rest, pieces[1..], index + Utf8Width(pieces[0]), lo, hi, k - 1);
      assert Underlines(lines, index, lo, hi)[k] == Underlines(rest, index + Utf8Width(lines[0]) + 1, lo, hi)[k - 1];
      assert rest[k - 1] == lines[k];
    }
  }

  /** A `split_inclusive` piece without a carriage return is its `lines()`
      line followed by the line feed, when it has one. */
  lemma PieceIsLinePlusFeed(piece: string)
    requires |piece| > 0 && piece[|piece| - 1] == '\n'
    requires forall m :: 0 <= m < |piece| ==> piece[m] != '\r'
    ensures StripLineEnding(piece) + "\n" == piece
  {
  }

  lemma StripIsPrefix(piece: string)
    ensures StripLineEnding(piece) <= piece
  {
  }

  /** The cell under character `p` of line `k` marks the byte offset of
      that character within the pieces. */
  lemma LinesMarkOffsets(lines: seq<string>, pieces: seq<string>, index: nat, lo: nat, hi: nat, k: nat, p: nat)
    requires |lines| == |pieces| && k < |pieces| && p < |lines[k]| && lines[k] <= pieces[k]
    requires forall j :: 0 <= j < k ==> lines[j] + "\n" == pieces[j]
    ensures var u := Underlines(lines, index, lo, hi)[k];
      var at := index + Utf8Width(Concat(pieces[..k]) + pieces[k][..p]);
      |u| == |lines[k]| && u[p] == if lo <= at < hi then '~' else ' '
  {
    UnderlinesContinue(lines, pieces, index, lo, hi, k);
    Log.LinesWidthJoined(pieces, k);
    CellAt(lines[k], index + Utf8Width(Concat(pieces[..k])), lo, hi, p);
    assert lines[k][..p] == pieces[k][..p];
    Utf8WidthConcat(Concat(pieces[..k]), pieces[k][..p]);
  }

  /** On text without carriage returns, the cell under character `p` of
      line `k` is `~` exactly when that character's byte offset in the
      source lies in the span. */
  lemma UnderlineMarksSpan(src: string, span: Span, k: nat, p: nat)
    requires forall m :: 0 <= m < |src| ==> src[m] != '\r'
    requires k < |Lines(ExcerptText(src, span))| && p < |Lines(ExcerptText(src, span))[k]|
    ensures var text := ExcerptText(src, span);
      var pieces := SplitInclusive(text);
      var a := IndexAt(src, Log.ExcerptStart(src, span)).value;
      var c := a + |Concat(pieces[..k])| + p;
      var u := Underlines(Lines(text), Log.ExcerptStart(src, span), span.start, span.end)[k];
      c < |src| && src[c] == Lines(text)[k][p] &&
      |u| == |Lines(text)[k]| && u[p] == if span.start <= Offset(src, c) < span.end then '~' else ' '
  {
    var a := IndexAt(src, Log.ExcerptStart(src, span)).value;
    var z := IndexAt(src, ExcerptEnd(src, span)).value;
    assert a <= z && ExcerptText(src, span) == src[a..z];
    SliceMarks(src, a, z, span.start, span.end, k, p);
  }

  lemma SliceMarks(src: string, a: nat, z: nat, lo: nat, hi: nat, k: nat, p: nat)
    requires a <= z <= |src| && forall m :: 0 <= m < |src| ==> src[m] != '\r'
    requires k < |Lines(src[a..z])| && p < |Lines(src[a..z])[k]|
    ensures var pieces := SplitInclusive(src[a..z]);
      var c := a + |Concat(pieces[..k])| + p;
      var u := Underlines(Lines(src[a..z]), Offset(src, a), lo, hi)[k];
      c < |src| && src[c] == Lines(src[a..z])[k][p] &&
      |u| == |Lines(src[a..z])[k]| && u[p] == if lo <= Offset(src, c) < hi then '~' else ' '
  {
    var text := src[a..z];
    var pieces := SplitInclusive(text);
    var lines := Lines(text);
    forall m | 0 <= m < |text|
      ensures text[m] != '\r'
    {
      assert text[m] == src[a + m];
    }
    LinesOfCrFreeText(text, k);
    StripIsPrefix(pieces[k]);
    assert lines[k] == StripLineEnding(pieces[k]);
    Log.PiecePosition(src, a, z, k, p);
    LinesMarkOffsets(lines, pieces, Offset(src, a), lo, hi, k, p);
  }

  /** In text without carriage returns every `lines()` line before the last
      is its `split_inclusive` piece without the line feed. */
  lemma LinesOfCrFreeText(text: string, k: nat)
    requires forall m :: 0 <= m < |text| ==> text[m] != '\r'
    requires k < |SplitInclusive(text)|
    ensures forall j :: 0 <= j < k ==> Lines(text)[j] + "\n" == SplitInclusive(text)[j]
  {
    var pieces := SplitInclusive(text);
    SplitInclusiveLines(text);
    SplitInclusiveConcat(text);
    forall j | 0 <= j < k
      ensures Lines(text)[j] + "\n" == pieces[j]
    {
      PieceHasNoCr(pieces, j);
      PieceIsLinePlusFeed(pieces[j]);
    }
  }

  /** The pieces of a concatenation are within it, so they inherit its
      characters. */
  lemma PieceHasNoCr(pieces: seq<string>, j: nat)
    requires j < |pieces| && forall m :: 0 <= m < |Concat(pieces)| ==> Concat(pieces)[m] != '\r'
    ensures forall m :: 0 <= m < |pieces[j]| ==> pieces[j][m] != '\r'
  {
    forall m | 0 <= m < |pieces[j]|
      ensures pieces[j][m] != '\r'
    {
      Log.ConcatPrefix(pieces, j, m);
    }
  }

  /** On `a\r\nb` with the span `[3, 4)` covering `b`, the renderer leaves
      `b` without its `~`: `lines()` dropped two bytes of the first line's
      ending and the index skipped only one. */
  lemma CrlfLineMissesUnderline()
    ensures Underlines(["a", "b"], 0, 3, 4)[1] == " "
  {
    assert Utf8Width("a") == Utf8Width([]) + Utf8Len('a');
    assert ["a", "b"][1..] == ["b"];
  }

  // ---------------------------------------------------------------------
  // The renderer.

  /** `LogEntryDisplay::fmt`; `None` stands for the panic. */
  method Display(src: string, entry: LogEntry) returns (r: Option<string>)
    ensures r == Render(src, entry)
  {
    var out := Header(entry);
    if entry.span.None? {
      return Some(out);
    }
    var span := entry.span.value;
    var lineEnd := Log.LineEnd(src, span);
    if lineEnd == 0 {
      return None;
    }
    var lines := Lines(ExcerptText(src, span));
    var x := WriteBlocks(lines, Log.LineStart(src, span), Log10(lineEnd), Log.ExcerptStart(src, span), span);
    r := Some(out + x);
  }

  lemma EmptyPrefix(s: string)
    ensures [] + s == s
  {
  }

  lemma UnderlinesTail(lines: seq<string>, index: nat, width: nat, lo: nat, hi: nat)
    requires lines != [] && width == Utf8Width(lines[0])
    ensures Underlines(lines, index, lo, hi)[0] == Cells(lines[0], index, lo, hi)
    ensures Underlines(lines, index, lo, hi)[1..] == Underlines(lines[1..], index + width + 1, lo, hi)
  {
    var u := Underlines(lines, index, lo, hi);
    assert u == [Cells(lines[0], index, lo, hi)] + Underlines(lines[1..], index + width + 1, lo, hi);
  }

  /** The loop of `WriteBlocks` keeps its invariant when it appends the
      block of the next line, `width` bytes long. */
  lemma WriteStep(todo: seq<string>, number: nat, padding: nat, index: nat, width: nat, span: Span, out: string, block: string, goal: string)
    requires todo != [] && width == Utf8Width(todo[0])
    requires out + Blocks(todo, number, padding, Underlines(todo, index, span.start, span.end)) == goal
    requires block == Block(number, padding, todo[0], Cells(todo[0], index, span.start, span.end))
    ensures (out + block) + Blocks(todo[1..], number + 1, padding, Underlines(todo[1..], index + width + 1, span.start, span.end)) == goal
  {
    UnderlinesTail(todo, index, width, span.start, span.end);
  }

  method WriteBlocks(lines: seq<string>, first: nat, padding: nat, start: nat, span: Span) returns (out: string)
    ensures out == Blocks(lines, first, padding, Underlines(lines, start, span.start, span.end))
  {
    ghost var goal := Blocks(lines, first, padding, Underlines(lines, start, span.start, span.end));
    var todo: seq<string>, number: nat, index: nat := lines, first, start;
    out := [];
    EmptyPrefix(goal);
    while todo != []
      invariant out + Blocks(todo, number, padding, Underlines(todo, index, span.start, span.end)) == goal
      decreases |todo|
    {
      var block := WriteBlock(number, padding, todo[0], index, span);
      var width := Utf8Width(todo[0]);
      WriteStep(todo, number, padding, index, width, span, out, block, goal);
      out, todo, number, index := out + block, todo[1..], number + 1, index + width + 1;
    }
  }

  method WriteBlock(number: nat, padding: nat, line: string, index: nat, span: Span) returns (out: string)
    ensures out == Block(number, padding, line, Cells(line, index, span.start, span.end))
  {
    var text := [];
    for j := 0 to |line|
      invariant text == Untab(line)[..j]
    {
      text := text + [if line[j] == '\t' then ' ' else line[j]];
    }
    assert text == Untab(line);
    var cells := [];
    var at := index;
    for j := 0 to |line|
      invariant at == index + Utf8Width(line[..j])
      invariant cells == Cells(line, index, span.start, span.end)[..j]
    {
      CellAt(line, index, span.start, span.end, j);
      cells := cells + [if span.start <= at < span.end then '~' else ' '];
      OffsetStep(line, j);
      at := at + Utf8Len(line[j]);
    }
    assert cells == Cells(line, index, span.start, span.end);
    out := (Log.BOLD + Log.CYAN + Log.GutterAsWritten(number, padding) + Log.RESET) + text + "\n"
      + (Log.BOLD + Log.CYAN) + Spaces(padding + 3) + cells + (Log.RESET + "\n");
  }
}
