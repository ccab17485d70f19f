// The oldest lexer (src/lexer.rs): a cursor over the source text that
// yields spanned tokens or lexical errors, one per call. Unlike the
// line-aware lexer of the loader it has no line-end token: every white-space
// character, line feeds included, is skipped.
//
// As in module Lexer, the text is a sequence of Unicode scalar values and
// the lexer keeps the byte offset `position` together with the index
// `cursor` of the next character. Identifiers are classified with Unicode's
// Alphabetic and Alphanumeric properties, which the model takes as
// parameters (`Classes`).

module EarlyLexer {
  import opened Common
  import L = Lexer

  datatype Token =
    | LPar | RPar
    | LBrace | RBrace
    | LBracket | RBracket
    | Tilde | Eq | Comma
    | Or | Plus | Star | And
    | LSmallArrow | LBigArrow
    | Comment(text: string)
    | Ident(name: string)

  datatype LexError = InvalidChar(c: char) | UnclosedMultiLine

  datatype LexResult = Ok(token: Token) | Err(error: LexError)

  type LexItem = Spanned<LexResult>

  /** `char::is_alphabetic` and `char::is_alphanumeric`. */
  datatype Classes = Classes(alphabetic: char -> bool, alphanumeric: char -> bool)

  // ---------------------------------------------------------------------
  // Display.

  /** `Display` for tokens as the source writes it: the two parentheses
      print as each other. */
  function DescribeAsWritten(t: Token, alternate: bool): string
  {
    match t
    case LPar => "')'"
    case RPar => "'('"
    case _ => Describe(t, alternate)
  }

  /** `Display` for tokens, each punctuation token printed as its own
      spelling in quotes; `alternate` is the `{:#}` form, which quotes an
      identifier's text. */
  function Describe(t: Token, alternate: bool): string
  {
    match t
    case LPar => "'('"
    case RPar => "')'"
    case LBrace => "'{'"
    case RBrace => "'}'"
    case LBracket => "'['"
    case RBracket => "']'"
    case Tilde => "'~'"
    case Eq => "'='"
    case Comma => "','"
    case Or => "'|'"
    case Plus => "'+'"
    case Star => "'*'"
    case And => "'&'"
    case LSmallArrow => "'->'"
    case LBigArrow => "'=>'"
    case Comment(_) => "<comment>"
    case Ident(name) => if alternate then "\"" + name + "\"" else "ident"
  }

  /** `Debug` for lexical errors. */
  function DebugLexError(e: LexError): string
  {
    match e
    case InvalidChar(c) => "InvalidChar('" + [c] + "')"
    case UnclosedMultiLine => "UnclosedMultiLine"
  }

  /** The single-character tokens. */
  function Punctuation(c: char): Option<Token>
  {
    match c
    case '(' => Some(LPar)
    case ')' => Some(RPar)
    case '{' => Some(LBrace)
    case '}' => Some(RBrace)
    case '[' => Some(LBracket)
    case ']' => Some(RBracket)
    case '~' => Some(Tilde)
    case '+' => Some(Plus)
    case '*' => Some(Star)
    case '&' => Some(And)
    case ',' => Some(Comma)
    case '|' => Some(Or)
    case _ => None
  }

  /** Every single-character token prints as the character it is lexed
      from, in quotes. */
  lemma PunctuationDescribesItself(c: char, alternate: bool)
    requires Punctuation(c).Some?
    ensures Describe(Punctuation(c).value, alternate) == ['\''] + [c] + ['\'']
  {
  }

  /** As written, the opening parenthesis prints as `')'` and the closing
      one as `'('`; every other token prints as intended. */
  lemma DescribeAsWrittenSwapsParentheses(t: Token, alternate: bool)
    ensures t == LPar ==> DescribeAsWritten(t, alternate) == Describe(RPar, alternate) != Describe(t, alternate)
    ensures t == RPar ==> DescribeAsWritten(t, alternate) == Describe(LPar, alternate) != Describe(t, alternate)
    ensures t != LPar && t != RPar ==> DescribeAsWritten(t, alternate) == Describe(t, alternate)
  {
    assert Describe(RPar, alternate)[1] == ')';
    assert Describe(LPar, alternate)[1] == '(';
  }

  // ---------------------------------------------------------------------
  // The scanning function: what one call of `next` does from index `i`.

  /** Skips white space, line feeds included. */
  function SkipSpace(s: seq<char>, i: nat): (j: nat)
    requires i <= |s|
    ensures i <= j <= |s|
    decreases |s| - i
  {
    if i < |s| && IsWhitespace(s[i]) then SkipSpace(s, i + 1) else i
  }

  predicate ContinueIdent(cls: Classes, c: char)
  {
    cls.alphanumeric(c) || c == '_'
  }

  /** End of the run of identifier characters starting at `i`. */
  function IdentEnd(cls: Classes, s: seq<char>, i: nat): (j: nat)
    requires i <= |s|
    ensures i <= j <= |s|
    decreases |s| - i
  {
    if i < |s| && ContinueIdent(cls, s[i]) then IdentEnd(cls, s, i + 1) else i
  }

  /** Index just after a `//` comment's line feed, or the end of input. */
  function LineCommentEnd(s: seq<char>, i: nat): (j: nat)
    requires i <= |s|
    ensures i <= j <= |s|
  {
    var e := FindFrom(s, '\n', i);
    if e < |s| then e + 1 else |s|
  }

  /** The token starting at the non-blank character `s[j]` and the index
      after it. */
  function TokenAt(cls: Classes, s: seq<char>, j: nat): (r: (LexResult, nat))
    requires j < |s|
    ensures j < r.1 <= |s|
  {
    var c := s[j];
    if Punctuation(c).Some? then (Ok(Punctuation(c).value), j + 1)
    else if c == '=' then
      if j + 1 < |s| && s[j + 1] == '>' then (Ok(LBigArrow), j + 2) else (Ok(Eq), j + 1)
    else if c == '-' then
      if j + 1 < |s| && s[j + 1] == '>' then (Ok(LSmallArrow), j + 2)
      else (Err(InvalidChar('-')), j + 1)
    else if c == '/' then
      if j + 1 < |s| && s[j + 1] == '/' then
        var e := LineCommentEnd(s, j + 2);
        (Ok(Comment(s[j + 2..e])), e)
      else if j + 1 < |s| && s[j + 1] == '*' then
        match L.FindClose(s, j + 2)
        case Some(e) => (Ok(Comment(s[j + 2..e - 2])), e)
        case None => (Err(UnclosedMultiLine), |s|)
      else (Err(InvalidChar('/')), j + 1)
    else if cls.alphabetic(c) || c == '_' then
      var e := IdentEnd(cls, s, j + 1);
      (Ok(Ident(s[j..e])), e)
    else (Err(InvalidChar(c)), j + 1)
  }

  /** One call of `Lexer::next` on a lexer whose next character is `s[i]`:
      nothing at the end of input, otherwise an item and the index after it. */
  function Scan(cls: Classes, s: seq<char>, i: nat): (r: Option<(LexItem, nat)>)
    requires i <= |s|
    ensures r.Some? ==> i < r.value.1 <= |s|
    ensures r.Some? ==> r.value.0.span.start < r.value.0.span.end == Offset(s, r.value.1)
  {
    var j := SkipSpace(s, i);
    if j == |s| then None
    else
      var (res, n) := TokenAt(cls, s, j);
      OffsetMonotone(s, j, n);
      Some((Spanned(res, Span(Offset(s, j), Offset(s, n))), n))
  }

  /** All items from index `i` to the end. */
  function LexAll(cls: Classes, s: seq<char>, i: nat): (r: seq<LexItem>)
    requires i <= |s|
    decreases |s| - i
  {
    match Scan(cls, s, i)
    case None => []
    case Some((item, n)) => [item] + LexAll(cls, s, n)
  }

  // ---------------------------------------------------------------------
  // Properties of the scanning function.

  /** `next` returns None exactly when only white space remains; otherwise
      the item starts at the first character that is not white space. */
  lemma {:induction false} ScanSkipsSpace(cls: Classes, s: seq<char>, i: nat)
    requires i <= |s|
    ensures Scan(cls, s, i).None? <==> forall k :: i <= k < |s| ==> IsWhitespace(s[k])
    ensures Scan(cls, s, i).Some? ==>
      var j := SkipSpace(s, i);
      j < |s| && !IsWhitespace(s[j]) && (forall k :: i <= k < j ==> IsWhitespace(s[k]))
      && Scan(cls, s, i).value.0.span.start == Offset(s, j)
    decreases |s| - i
  {
    if i < |s| && IsWhitespace(s[i]) {
      ScanSkipsSpace(cls, s, i + 1);
      assert Scan(cls, s, i) == Scan(cls, s, i + 1);
    }
  }

  /** `->` is one token; a `-` not followed by `>` is an error and the
      character after it is left for the next call. */
  lemma MinusSign(cls: Classes, s: seq<char>, i: nat)
    requires i <= |s| && SkipSpace(s, i) < |s| && s[SkipSpace(s, i)] == '-'
    ensures var j := SkipSpace(s, i); var r := Scan(cls, s, i);
      r.Some? &&
      if j + 1 < |s| && s[j + 1] == '>' then r.value.0.value == Ok(LSmallArrow) && r.value.1 == j + 2
      else r.value.0.value == Err(InvalidChar('-')) && r.value.1 == j + 1
  {
  }

  lemma {:induction false} IdentEndMaximal(cls: Classes, s: seq<char>, i: nat)
    requires i <= |s|
    ensures forall k :: i <= k < IdentEnd(cls, s, i) ==> ContinueIdent(cls, s[k])
    ensures IdentEnd(cls, s, i) == |s| || !ContinueIdent(cls, s[IdentEnd(cls, s, i)])
    decreases |s| - i
  {
    if i < |s| && ContinueIdent(cls, s[i]) {
      IdentEndMaximal(cls, s, i + 1);
    }
  }

  /** An identifier starts with an alphabetic character or `_` and is the
      maximal run of alphanumeric characters and `_` after it. */
  lemma IdentIsMaximalRun(cls: Classes, s: seq<char>, i: nat)
    requires i <= |s| && Scan(cls, s, i).Some?
    requires Scan(cls, s, i).value.0.value.Ok? && Scan(cls, s, i).value.0.value.token.Ident?
    ensures var name := Scan(cls, s, i).value.0.value.token.name; var n := Scan(cls, s, i).value.1;
      |name| >= 1 && (cls.alphabetic(name[0]) || name[0] == '_') && name == s[n - |name|..n] &&
      (forall k :: 1 <= k < |name| ==> ContinueIdent(cls, name[k])) &&
      (n == |s| || !ContinueIdent(cls, s[n]))
  {
    var j := SkipSpace(s, i);
    IdentEndMaximal(cls, s, j + 1);
  }

  /** A line comment takes everything up to and including its line feed,
      or up to the end of input when no line feed follows. */
  lemma LineCommentThroughNewline(cls: Classes, s: seq<char>, i: nat)
    requires i <= |s|
    requires var j := SkipSpace(s, i); j + 1 < |s| && s[j] == '/' && s[j + 1] == '/'
    ensures var j := SkipSpace(s, i); var r := Scan(cls, s, i); var n := r.value.1;
      r.Some? && r.value.0.value == Ok(Comment(s[j + 2..n]))
      && (forall k :: j + 2 <= k < n - 1 ==> s[k] != '\n')
      && (n < |s| || s[n - 1] == '\n' || forall k :: j + 2 <= k < |s| ==> s[k] != '\n')
      && (n < |s| ==> s[n - 1] == '\n')
  {
    var j := SkipSpace(s, i);
    FindFromSkips(s, '\n', j + 2);
  }

  /** A block comment without its closing star-slash runs to the end and is
      an error. */
  lemma UnclosedBlockComment(cls: Classes, s: seq<char>, i: nat)
    requires i <= |s|
    requires var j := SkipSpace(s, i); j + 1 < |s| && s[j] == '/' && s[j + 1] == '*'
    requires forall k :: SkipSpace(s, i) + 2 <= k < |s| - 1 ==> !(s[k] == '*' && s[k + 1] == '/')
    ensures Scan(cls, s, i) == Some((Spanned(Err(UnclosedMultiLine), Span(Offset(s, SkipSpace(s, i)), Utf8Width(s))), |s|))
  {
    var j := SkipSpace(s, i);
    L.NoCloseFrom(s, j + 2);
    assert s[..|s|] == s;
  }

  /** Every item of `items` lies within `[lo, hi)` bytes, and each ends
      where or before the next starts. */
  ghost predicate Ordered(items: seq<LexItem>, lo: nat, hi: nat)
  {
    (forall k :: 0 <= k < |items| ==> lo <= items[k].span.start < items[k].span.end <= hi)
    && (forall k :: 0 <= k < |items| - 1 ==> items[k].span.end <= items[k + 1].span.start)
  }

  /** Items come out in source order and never overlap. */
  lemma {:induction false} LexAllOrdered(cls: Classes, s: seq<char>, i: nat)
    requires i <= |s|
    ensures Ordered(LexAll(cls, s, i), Offset(s, i), Utf8Width(s))
    decreases |s| - i
  {
    hide TokenAt;
    if Scan(cls, s, i).Some? {
      var (item, n) := Scan(cls, s, i).value;
      var j := SkipSpace(s, i);
      assert item.span.start == Offset(s, j);
      OffsetMonotone(s, i, j);
      OffsetMonotone(s, n, |s|);
      assert s[..|s|] == s;
      LexAllOrdered(cls, s, n);
      var rest := LexAll(cls, s, n);
      var items := LexAll(cls, s, i);
      assert items == [item] + rest;
      forall k | 0 <= k < |items|
        ensures Offset(s, i) <= items[k].span.start < items[k].span.end <= Utf8Width(s)
      {
        if k > 0 {
          assert items[k] == rest[k - 1];
        }
      }
      forall k | 0 <= k < |items| - 1
        ensures items[k].span.end <= items[k + 1].span.start
      {
        assert items[k + 1] == rest[k];
        if k > 0 {
          assert items[k] == rest[k - 1];
        }
      }
    }
  }

  // ---------------------------------------------------------------------
  // The lexer itself.

  class Lexer {
    const input: seq<char>
    const cls: Classes
    /** Byte offset where the current token starts. */
    var start: nat
    /** Byte offset of the next character. */
    var position: nat
    /** Index of the next character. */
    var cursor: nat

    ghost predicate Valid()
      reads this
    {
      cursor <= |input| && position == Offset(input, cursor)
    }

    constructor (input: seq<char>, cls: Classes)
      ensures Valid() && this.input == input && this.cls == cls
      ensures cursor == 0 && start == 0 && position == 0
    {
      this.input := input;
      this.cls := cls;
      start := 0;
      position := 0;
      cursor := 0;
    }

    /** `eof_span`: the empty span at the end of the input. */
    function EofSpan(): (r: Span)
      reads this
      ensures r == Span(Utf8Width(input), Utf8Width(input))
    {
      Common.EofSpan(Utf8Width(input))
    }

    /** Takes the next character, if any. */
    method Consume() returns (c: Option<char>)
      requires Valid()
      modifies this
      ensures Valid() && start == old(start)
      ensures old(cursor) < |input| ==> c == Some(input[old(cursor)]) && cursor == old(cursor) + 1
      ensures old(cursor) == |input| ==> c == None && cursor == old(cursor)
    {
      if cursor < |input| {
        c := Some(input[cursor]);
        OffsetStep(input, cursor);
        position := position + Utf8Len(input[cursor]);
        cursor := cursor + 1;
      } else {
        c := None;
      }
    }

    /** Looks at the next character without taking it. */
    method Peek() returns (c: Option<char>)
      requires Valid()
      ensures c == if cursor < |input| then Some(input[cursor]) else None
    {
      c := if cursor < |input| then Some(input[cursor]) else None;
    }

    /** Steps back over the character taken last. */
    method Backtrack()
      requires Valid()
      modifies this
      ensures Valid() && start == old(start)
      ensures cursor == if old(cursor) > 0 then old(cursor) - 1 else 0
    {
      if cursor > 0 {
        OffsetStep(input, cursor - 1);
        position := position - Utf8Len(input[cursor - 1]);
        cursor := cursor - 1;
      }
    }

    /** `Iterator::next`: one item, or None at end of input. Either way
        the next token starts where this call stopped. */
    method Next() returns (r: Option<LexItem>)
      requires Valid()
      modifies this
      ensures Valid() && start == position
      ensures match Scan(cls, input, old(cursor))
        case None => r == None && cursor == |input|
        case Some((item, n)) => r == Some(item) && cursor == n
    {
      ghost var from := cursor;
      var c := Peek();
      while c.Some? && IsWhitespace(c.value)
        invariant Valid() && from <= cursor <= |input|
        invariant SkipSpace(input, from) == SkipSpace(input, cursor)
        invariant c == if cursor < |input| then Some(input[cursor]) else None
        decreases |input| - cursor
      {
        var _ := Consume();
        c := Peek();
      }
      start := position;
      var j := cursor;
      var first := Consume();
      if first.None? {
        return None;
      }
      var res := Rest(j, first.value);
      r := Some(Spanned(res, Span(start, position)));
      start := position;
    }

    /** Everything `next` does after taking the first character `ch` of a
        token at index `j`. */
    method Rest(j: nat, ch: char) returns (res: LexResult)
      requires Valid() && j < |input| && cursor == j + 1 && input[j] == ch
      modifies this
      ensures Valid() && start == old(start) && TokenAt(cls, input, j) == (res, cursor)
    {
      if Punctuation(ch).Some? {
        res := Ok(Punctuation(ch).value);
      } else if ch == '=' {
        var p := Peek();
        if p == Some('>') {
          var _ := Consume();
          res := Ok(LBigArrow);
        } else {
          res := Ok(Eq);
        }
      } else if ch == '-' {
        var p := Peek();
        if p == Some('>') {
          var _ := Consume();
          res := Ok(LSmallArrow);
        } else {
          res := Err(InvalidChar('-'));
        }
      } else if ch == '/' {
        var second := Consume();
        if second == Some('/') {
          res := LineComment(j);
        } else if second == Some('*') {
          res := BlockComment(j);
        } else if second.Some? {
          Backtrack();
          res := Err(InvalidChar('/'));
        } else {
          res := Err(InvalidChar('/'));
        }
      } else if cls.alphabetic(ch) || ch == '_' {
        while true
          invariant Valid() && start == old(start) && j + 1 <= cursor <= |input|
          invariant IdentEnd(cls, input, j + 1) == IdentEnd(cls, input, cursor)
          decreases |input| - cursor
        {
          var d := Consume();
          if d.Some? && ContinueIdent(cls, d.value) {
          } else if d.Some? {
            Backtrack();
            break;
          } else {
            break;
          }
        }
        res := Ok(Ident(input[j..cursor]));
      } else {
        res := Err(InvalidChar(ch));
      }
    }

    /** The body of a `//` comment whose first slash is at index `j`: up to
        and including the line feed. */
    method LineComment(j: nat) returns (res: LexResult)
      requires Valid() && cursor == j + 2 <= |input|
      modifies this
      ensures Valid() && start == old(start) && cursor == LineCommentEnd(input, j + 2)
      ensures res == Ok(Comment(input[j + 2..cursor]))
    {
      while true
        invariant Valid() && start == old(start) && j + 2 <= cursor <= LineCommentEnd(input, j + 2)
        invariant FindFrom(input, '\n', j + 2) == FindFrom(input, '\n', cursor)
        decreases |input| - cursor
      {
        var d := Consume();
        if d == Some('\n') || d.None? {
          break;
        }
      }
      res := Ok(Comment(input[j + 2..cursor]));
    }

    /** The body of a block comment whose opening slash is at index `j`. */
    method BlockComment(j: nat) returns (res: LexResult)
      requires Valid() && cursor == j + 2 <= |input|
      modifies this
      ensures Valid() && start == old(start)
      ensures match L.FindClose(input, j + 2)
        case Some(e) => cursor == e && res == Ok(Comment(input[j + 2..e - 2]))
        case None => cursor == |input| && res == Err(UnclosedMultiLine)
    {
      while true
        invariant Valid() && start == old(start) && j + 2 <= cursor <= |input|
        invariant L.FindClose(input, j + 2) == L.FindClose(input, cursor)
        decreases |input| - cursor
      {
        var d := Consume();
        if d == Some('*') {
          var p := Peek();
          if p == Some('/') {
            var _ := Consume();
            res := Ok(Comment(input[j + 2..cursor - 2]));
            return;
          }
        } else if d.None? {
          res := Err(UnclosedMultiLine);
          return;
        }
      }
    }
  }
}
