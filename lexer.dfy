// The line-aware lexer of the loader (src/loader/lexer.rs): a cursor over
// the source text that yields spanned tokens or lexical errors, one per call.
//
// The source is a `&str` and its cursor a byte offset. Here the text is a
// sequence of Unicode scalar values; the lexer keeps both the byte offset
// (`position`, what spans are made of) and the index of the next character
// (`cursor`), tied by `position == Utf8Width(input[..cursor])`.

module Lexer {
  import opened Common

  datatype Token =
    | LPar | RPar
    | LBrace | RBrace
    | LBracket | RBracket
    | Tilde | Eq | Comma
    | Or | Plus | Star | And
    | LSmallArrow | LBigArrow
    | Comment(text: string)
    | Ident(name: string)
    | LineEnd

  datatype LexError = InvalidChar(c: char) | UnclosedMultiLine

  datatype LexResult = Ok(token: Token) | Err(error: LexError)

  type LexItem = Spanned<LexResult>

  /** One call of the lexer: the end of input, an item and the index after it,
      or the out-of-bounds slice of a line comment that runs to end of input. */
  datatype LexStep = End | Emit(item: LexItem, next: nat) | Panic

  /** `Display` for tokens; `alternate` is the `{:#}` form, which quotes an
      identifier's text. */
  function Describe(t: Token, alternate: bool): string
  {
    match t
    case LPar => "'('"
    case RPar => "')'"
    case LBrace => "'{'"
    case RBrace => "'}'"
    case LBracket => "'['"
    case RBracket => "']'"
    case Tilde => "'~'"
    case Eq => "'='"
    case Comma => "','"
    case Or => "'|'"
    case Plus => "'+'"
    case Star => "'*'"
    case And => "'&'"
    case LSmallArrow => "'->'"
    case LBigArrow => "'=>'"
    case Comment(_) => "<comment>"
    case Ident(name) => if alternate then "\"" + name + "\"" else "ident"
    case LineEnd => "eol"
  }

  /** `Debug` for lexical errors. */
  function DebugLexError(e: LexError): string
  {
    match e
    case InvalidChar(c) => "InvalidChar('" + [c] + "')"
    case UnclosedMultiLine => "UnclosedMultiLine"
  }

  // ---------------------------------------------------------------------
  // Character classes.
  //
  // `begin_ident` is `is_alphabetic || '_' || (!is_ascii && !is_control &&
  // !is_whitespace)`. No alphabetic or alphanumeric character is a control
  // or white-space character, so outside ASCII both predicates reduce to the
  // last disjunct, and inside ASCII to the ASCII letter and digit ranges.

  predicate BeginIdent(c: char)
  {
    IsAsciiAlphabetic(c) || c == '_' || (c as int >= 0x80 && !IsControl(c) && !IsWhitespace(c))
  }

  predicate ContinueIdent(c: char)
  {
    IsAsciiAlphanumeric(c) || c == '_' || (c as int >= 0x80 && !IsControl(c) && !IsWhitespace(c))
  }

  /** The single-character tokens. */
  function Punctuation(c: char): Option<Token>
  {
    match c
    case '(' => Some(LPar)
    case ')' => Some(RPar)
    case '{' => Some(LBrace)
    case '}' => Some(RBrace)
    case '[' => Some(LBracket)
    case ']' => Some(RBracket)
    case '~' => Some(Tilde)
    case '+' => Some(Plus)
    case '*' => Some(Star)
    case '&' => Some(And)
    case ',' => Some(Comma)
    case '|' => Some(Or)
    case _ => None
  }

  // ---------------------------------------------------------------------
  // The scanning function: what one call of `next` does from index `i`.

  /** Skips white space other than a line feed. */
  function SkipBlank(s: seq<char>, i: nat): (j: nat)
    requires i <= |s|
    ensures i <= j <= |s|
    decreases |s| - i
  {
    if i < |s| && IsWhitespace(s[i]) && s[i] != '\n' then SkipBlank(s, i + 1) else i
  }

  /** End of the run of identifier characters starting at `i`. */
  function IdentEnd(s: seq<char>, i: nat): (j: nat)
    requires i <= |s|
    ensures i <= j <= |s|
    decreases |s| - i
  {
    if i < |s| && ContinueIdent(s[i]) then IdentEnd(s, i + 1) else i
  }

  /** Index just after the first closing star-slash pair whose star is at or
      after `i`. */
  function FindClose(s: seq<char>, i: nat): (r: Option<nat>)
    requires i <= |s|
    ensures r.Some? ==> i + 2 <= r.value <= |s|
    decreases |s| - i
  {
    if i + 1 < |s| then
      if s[i] == '*' && s[i + 1] == '/' then Some(i + 2) else FindClose(s, i + 1)
    else None
  }

  /** The token starting at the non-blank character `s[j]` and the index
      after it; None where the source slices past the end of the input. */
  function TokenAt(s: seq<char>, j: nat): (r: Option<(LexResult, nat)>)
    requires j < |s|
    ensures r.Some? ==> j < r.value.1 <= |s|
  {
    var c := s[j];
    if Punctuation(c).Some? then Some((Ok(Punctuation(c).value), j + 1))
    else if c == '=' then
      if j + 1 < |s| && s[j + 1] == '>' then Some((Ok(LBigArrow), j + 2)) else Some((Ok(Eq), j + 1))
    else if c == '-' then
      if j + 1 < |s| && s[j + 1] == '>' then Some((Ok(LSmallArrow), j + 2))
      else Some((Err(InvalidChar('-')), j + 1))
    else if c == '/' then
      if j + 1 < |s| && s[j + 1] == '/' then
        var e := FindFrom(s, '\n', j + 2);
        // the text is `input[start + 2..=position]`: it takes the line feed
        // too, and has no byte to take when the comment runs to the end
        if e < |s| then Some((Ok(Comment(s[j + 2..e + 1])), e)) else None
      else if j + 1 < |s| && s[j + 1] == '*' then
        match FindClose(s, j + 2)
        case Some(e) => Some((Ok(Comment(s[j + 2..e - 2])), e))
        case None => Some((Err(UnclosedMultiLine), |s|))
      else Some((Err(InvalidChar('/')), j + 1))
    else if BeginIdent(c) then
      var e := IdentEnd(s, j + 1);
      Some((Ok(Ident(s[j..e])), e))
    else Some((Err(InvalidChar(c)), j + 1))
  }

  /** One call of `Lexer::next` on a lexer whose next character is `s[i]`. */
  function Scan(s: seq<char>, i: nat): (r: LexStep)
    requires i <= |s|
    ensures r.Emit? ==> i < r.next <= |s|
    ensures r.Emit? ==> r.item.span.start < r.item.span.end == Offset(s, r.next)
    ensures r.Emit? ==> SkipBlank(s, i) < r.next && r.item.span.start == Offset(s, SkipBlank(s, i))
  {
    var j := SkipBlank(s, i);
    if j == |s| then End
    else if s[j] == '\n' then
      OffsetStep(s, j);
      Emit(Spanned(Ok(LineEnd), Span(Offset(s, j), Offset(s, j + 1))), j + 1)
    else
      match TokenAt(s, j)
      case None => Panic
      case Some((res, n)) =>
        OffsetMonotone(s, j, n);
        Emit(Spanned(res, Span(Offset(s, j), Offset(s, n))), n)
  }

  /** All items from index `i` to the end, or None if lexing reaches a line
      comment that runs to end of input. */
  function LexAll(s: seq<char>, i: nat): (r: Option<seq<LexItem>>)
    requires i <= |s|
    decreases |s| - i
  {
    match Scan(s, i)
    case End => Some([])
    case Panic => None
    case Emit(item, n) =>
      match LexAll(s, n)
      case None => None
      case Some(rest) => Some([item] + rest)
  }

  // ---------------------------------------------------------------------
  // Properties of the scanning function.

  /** `next` returns None exactly when only blanks other than line feeds remain. */
  lemma {:induction false} ScanEndIffBlank(s: seq<char>, i: nat)
    requires i <= |s|
    ensures Scan(s, i).End? <==> forall k :: i <= k < |s| ==> IsWhitespace(s[k]) && s[k] != '\n'
    decreases |s| - i
  {
    if i < |s| && IsWhitespace(s[i]) && s[i] != '\n' {
      ScanEndIffBlank(s, i + 1);
      assert Scan(s, i) == Scan(s, i + 1);
    }
  }

  /** A line feed is its own token, one byte wide. */
  lemma LineEndIsOneByte(s: seq<char>, i: nat)
    requires i <= |s|
    requires Scan(s, i).Emit? && Scan(s, i).item.value == Ok(LineEnd)
    ensures Scan(s, i).item.span.end == Scan(s, i).item.span.start + 1
    ensures s[Scan(s, i).next - 1] == '\n'
  {
    var j := SkipBlank(s, i);
    OffsetStep(s, j);
  }

  /** A lone `=` is Eq and does not take the character after it; `=>` is one token. */
  lemma EqualsSign(s: seq<char>, i: nat)
    requires i <= |s| && SkipBlank(s, i) < |s| && s[SkipBlank(s, i)] == '='
    ensures var j := SkipBlank(s, i);
      Scan(s, i).Emit? &&
      if j + 1 < |s| && s[j + 1] == '>' then Scan(s, i).item.value == Ok(LBigArrow) && Scan(s, i).next == j + 2
      else Scan(s, i).item.value == Ok(Eq) && Scan(s, i).next == j + 1
  {
  }

  /** `->` is one token; a `-` not followed by `>` is an error and the
      character after it is left for the next call. */
  lemma MinusSign(s: seq<char>, i: nat)
    requires i <= |s| && SkipBlank(s, i) < |s| && s[SkipBlank(s, i)] == '-'
    ensures var j := SkipBlank(s, i);
      Scan(s, i).Emit? &&
      if j + 1 < |s| && s[j + 1] == '>' then Scan(s, i).item.value == Ok(LSmallArrow) && Scan(s, i).next == j + 2
      else Scan(s, i).item.value == Err(InvalidChar('-')) && Scan(s, i).next == j + 1
  {
  }

  lemma {:induction false} IdentEndMaximal(s: seq<char>, i: nat)
    requires i <= |s|
    ensures forall k :: i <= k < IdentEnd(s, i) ==> ContinueIdent(s[k])
    ensures IdentEnd(s, i) == |s| || !ContinueIdent(s[IdentEnd(s, i)])
    decreases |s| - i
  {
    if i < |s| && ContinueIdent(s[i]) {
      IdentEndMaximal(s, i + 1);
    }
  }

  /** An identifier is the maximal run of one `begin_ident` character and
      then `continue_ident` characters. */
  lemma IdentIsMaximalRun(s: seq<char>, i: nat)
    requires i <= |s| && Scan(s, i).Emit? && Scan(s, i).item.value.Ok? && Scan(s, i).item.value.token.Ident?
    ensures var name := Scan(s, i).item.value.token.name; var n := Scan(s, i).next;
      |name| >= 1 && BeginIdent(name[0]) && name == s[n - |name|..n] &&
      (forall k :: 1 <= k < |name| ==> ContinueIdent(name[k])) &&
      (n == |s| || !ContinueIdent(s[n]))
  {
    var j := SkipBlank(s, i);
    IdentEndMaximal(s, j + 1);
  }

  /** A line comment stops before its line feed, so the next call yields
      LineEnd; a line comment with no line feed after it is the out-of-bounds
      slice. */
  lemma LineCommentThenLineEnd(s: seq<char>, i: nat)
    requires i <= |s|
    requires var j := SkipBlank(s, i); j + 1 < |s| && s[j] == '/' && s[j + 1] == '/'
    ensures Scan(s, i).Panic? <==> forall k :: SkipBlank(s, i) + 2 <= k < |s| ==> s[k] != '\n'
    ensures Scan(s, i).Emit? ==>
      Scan(s, i).item.value.Ok? && Scan(s, i).item.value.token.Comment? &&
      Scan(s, Scan(s, i).next).Emit? && Scan(s, Scan(s, i).next).item.value == Ok(LineEnd) &&
      Scan(s, Scan(s, i).next).item.span.start == Scan(s, i).item.span.end
  {
    var j := SkipBlank(s, i);
    FindFromSkips(s, '\n', j + 2);
  }

  // A block comment without its closing star-slash runs to the end and is an
  // error.
  lemma {:induction false} UnclosedBlockComment(s: seq<char>, i: nat)
    requires i <= |s|
    requires var j := SkipBlank(s, i); j + 1 < |s| && s[j] == '/' && s[j + 1] == '*'
    requires forall k :: SkipBlank(s, i) + 2 <= k < |s| - 1 ==> !(s[k] == '*' && s[k + 1] == '/')
    ensures Scan(s, i) == Emit(Spanned(Err(UnclosedMultiLine), Span(Offset(s, SkipBlank(s, i)), Utf8Width(s))), |s|)
  {
    var j := SkipBlank(s, i);
    NoCloseFrom(s, j + 2);
    assert s[..|s|] == s;
  }

  lemma {:induction false} NoCloseFrom(s: seq<char>, i: nat)
    requires i <= |s|
    requires forall k :: i <= k < |s| - 1 ==> !(s[k] == '*' && s[k + 1] == '/')
    ensures FindClose(s, i) == None
    decreases |s| - i
  {
    if i + 1 < |s| {
      NoCloseFrom(s, i + 1);
    }
  }

  /** Items come out in source order and never overlap. */
  lemma {:induction false} LexAllOrdered(s: seq<char>, i: nat)
    requires i <= |s| && LexAll(s, i).Some?
    ensures var items := LexAll(s, i).value;
      (forall k :: 0 <= k < |items| ==> Offset(s, i) <= items[k].span.start < items[k].span.end <= Utf8Width(s)) &&
      (forall k :: 0 <= k < |items| - 1 ==> items[k].span.end <= items[k + 1].span.start)
    decreases |s| - i
  {
    match Scan(s, i)
    case End =>
    case Emit(item, n) =>
      var j := SkipBlank(s, i);
      OffsetMonotone(s, i, j);
      OffsetMonotone(s, n, |s|);
      assert s[..|s|] == s;
      LexAllOrdered(s, n);
      var rest := LexAll(s, n).value;
      assert LexAll(s, i).value == [item] + rest;
      if |rest| > 0 {
        assert Offset(s, n) <= rest[0].span.start;
      }
  }

  // ---------------------------------------------------------------------
  // The lexer itself.

  class Lexer {
    const input: seq<char>
    /** Byte offset of the next character (the source's `position`). */
    var position: nat
    /** Index of the next character. */
    var cursor: nat

    ghost predicate Valid()
      reads this
    {
      cursor <= |input| && position == Offset(input, cursor)
    }

    constructor (input: seq<char>)
      ensures Valid() && this.input == input && cursor == 0 && position == 0
    {
      this.input := input;
      position := 0;
      cursor := 0;
    }

    /** Takes the next character, if any. */
    method Consume() returns (c: Option<char>)
      requires Valid()
      modifies this
      ensures Valid()
      ensures old(cursor) < |input| ==> c == Some(input[old(cursor)]) && cursor == old(cursor) + 1
      ensures old(cursor) == |input| ==> c == None && cursor == old(cursor)
    {
      if cursor < |input| {
        c := Some(input[cursor]);
        OffsetStep(input, cursor);
        position := position + Utf8Len(input[cursor]);
        cursor := cursor + 1;
      } else {
        c := None;
      }
    }

    /** Looks at the next character without taking it. */
    method Peek() returns (c: Option<char>)
      requires Valid()
      ensures c == if cursor < |input| then Some(input[cursor]) else None
    {
      c := if cursor < |input| then Some(input[cursor]) else None;
    }

    /** Steps back over the character taken last. */
    method Backtrack()
      requires Valid()
      modifies this
      ensures Valid()
      ensures cursor == if old(cursor) > 0 then old(cursor) - 1 else 0
    {
      if cursor > 0 {
        OffsetStep(input, cursor - 1);
        position := position - Utf8Len(input[cursor - 1]);
        cursor := cursor - 1;
      }
    }

    /** `Iterator::next`: one item, or None at end of input. */
    method Next() returns (r: Option<LexItem>)
      requires Valid() && !Scan(input, cursor).Panic?
      modifies this
      ensures Valid()
      ensures match Scan(input, old(cursor))
        case End => r == None && cursor == |input|
        case Emit(item, n) => r == Some(item) && cursor == n
        case Panic => false
    {
      ghost var from := cursor;
      var c := Peek();
      while c.Some? && IsWhitespace(c.value)
        invariant Valid() && from <= cursor <= |input|
        invariant SkipBlank(input, from) == SkipBlank(input, cursor)
        invariant c == if cursor < |input| then Some(input[cursor]) else None
        decreases |input| - cursor
      {
        if c.value == '\n' {
          var start := position;
          var _ := Consume();
          r := Some(Spanned(Ok(LineEnd), Span(start, position)));
          return;
        }
        var _ := Consume();
        c := Peek();
      }
      var start := position;
      var j := cursor;
      var first := Consume();
      if first.None? {
        return None;
      }
      var res := Rest(j, first.value);
      r := Some(Spanned(res, Span(start, position)));
    }

    /** Everything `next` does after taking the first character `ch` of a
        token at index `j`. */
    method Rest(j: nat, ch: char) returns (res: LexResult)
      requires Valid() && j < |input| && cursor == j + 1 && input[j] == ch
      requires TokenAt(input, j).Some?
      modifies this
      ensures Valid() && TokenAt(input, j) == Some((res, cursor))
    {
      if Punctuation(ch).Some? {
        res := Ok(Punctuation(ch).value);
      } else if ch == '=' {
        var p := Peek();
        if p == Some('>') {
          var _ := Consume();
          res := Ok(LBigArrow);
        } else {
          res := Ok(Eq);
        }
      } else if ch == '-' {
        var p := Peek();
        if p == Some('>') {
          var _ := Consume();
          res := Ok(LSmallArrow);
        } else {
          res := Err(InvalidChar('-'));
        }
      } else if ch == '/' {
        var second := Consume();
        if second == Some('/') {
          res := LineComment(j);
        } else if second == Some('*') {
          res := BlockComment(j);
        } else if second.Some? {
          Backtrack();
          res := Err(InvalidChar('/'));
        } else {
          res := Err(InvalidChar('/'));
        }
      } else if BeginIdent(ch) {
        while true
          invariant Valid() && j + 1 <= cursor <= |input|
          invariant IdentEnd(input, j + 1) == IdentEnd(input, cursor)
          decreases |input| - cursor
        {
          var d := Consume();
          if d.Some? && ContinueIdent(d.value) {
          } else if d.Some? {
            Backtrack();
            break;
          } else {
            break;
          }
        }
        res := Ok(Ident(input[j..cursor]));
      } else {
        res := Err(InvalidChar(ch));
      }
    }

    /** The body of a `//` comment whose first slash is at index `j`. */
    method LineComment(j: nat) returns (res: LexResult)
      requires Valid() && cursor == j + 2 <= |input|
      requires FindFrom(input, '\n', j + 2) < |input|
      modifies this
      ensures Valid() && cursor == FindFrom(input, '\n', j + 2)
      ensures res == Ok(Comment(input[j + 2..cursor + 1]))
    {
      while true
        invariant Valid() && j + 2 <= cursor <= FindFrom(input, '\n', j + 2)
        invariant FindFrom(input, '\n', j + 2) == FindFrom(input, '\n', cursor)
        decreases |input| - cursor
      {
        var d := Consume();
        if d == Some('\n') {
          Backtrack();
          break;
        }
      }
      res := Ok(Comment(input[j + 2..cursor + 1]));
    }

    /** The body of a block comment whose opening slash is at index `j`. */
    method BlockComment(j: nat) returns (res: LexResult)
      requires Valid() && cursor == j + 2 <= |input|
      modifies this
      ensures Valid()
      ensures match FindClose(input, j + 2)
        case Some(e) => cursor == e && res == Ok(Comment(input[j + 2..e - 2]))
        case None => cursor == |input| && res == Err(UnclosedMultiLine)
    {
      while true
        invariant Valid() && j + 2 <= cursor <= |input|
        invariant FindClose(input, j + 2) == FindClose(input, cursor)
        decreases |input| - cursor
      {
        var d := Consume();
        if d == Some('*') {
          var p := Peek();
          if p == Some('/') {
            var _ := Consume();
            res := Ok(Comment(input[j + 2..cursor - 2]));
            return;
          }
        } else if d.None? {
          res := Err(UnclosedMultiLine);
          return;
        }
      }
    }
  }
}
