// Shared vocabulary of the loader: optional values, byte spans, spanned
// values, and the text measures (UTF-8 and UTF-16 widths, Unicode white
// space and control characters) that the lexers and renderers rely on.

module Common {

  datatype Option<T> = None | Some(value: T)

  /** A half-open range `[start, end)` of byte offsets into the source. */
  datatype Span = Span(start: nat, end: nat)

  /** A value together with the span of source text it came from. */
  datatype Spanned<T> = Spanned(value: T, span: Span)

  /** `Span::join`: from the start of `a` to the end of `b`. */
  function Join(a: Span, b: Span): (r: Span)
    ensures r.start == a.start && r.end == b.end
  {
    Span(a.start, b.end)
  }

  /** `Spanned::map`: transforms the value, keeps the span. */
  function MapSpanned<A, B>(s: Spanned<A>, f: A -> B): (r: Spanned<B>)
    ensures r.span == s.span && r.value == f(s.value)
  {
    Spanned(f(s.value), s.span)
  }

  /** `Spanned::as_ref`: a borrowed view; in value semantics the same value and span. */
  function AsRef<A>(s: Spanned<A>): (r: Spanned<A>)
    ensures r.span == s.span && r.value == s.value
  {
    Spanned(s.value, s.span)
  }

  /** The empty span at the end of a source of `len` bytes (`Context::eof`). */
  function EofSpan(len: nat): (r: Span)
    ensures r.start == r.end == len
  {
    Span(len, len)
  }

  lemma JoinAssociative(a: Span, b: Span, c: Span)
    ensures Join(Join(a, b), c) == Join(a, Join(b, c)) == Join(a, c)
  {
  }

  // ---------------------------------------------------------------------
  // Encoded widths (RFC 3629 section 3 for UTF-8, RFC 2781 section 2.1 for
  // UTF-16).

  /** Number of bytes of `c` in UTF-8 (`char::len_utf8`). */
  function Utf8Len(c: char): (n: nat)
    ensures 1 <= n <= 4
    ensures n == 1 <==> c as int < 0x80
  {
    if c as int < 0x80 then 1
    else if c as int < 0x800 then 2
    else if c as int < 0x10000 then 3
    else 4
  }

  /** Number of 16-bit code units of `c` in UTF-16 (`char::len_utf16`). */
  function Utf16Len(c: char): (n: nat)
    ensures n == 1 || n == 2
    ensures n == 2 <==> c as int >= 0x10000
  {
    if c as int < 0x10000 then 1 else 2
  }

  /** Byte length of `s` in UTF-8 (`str::len`). */
  function Utf8Width(s: seq<char>): nat
  {
    if s == [] then 0 else Utf8Width(s[..|s| - 1]) + Utf8Len(s[|s| - 1])
  }

  /** Length of `s` in UTF-16 code units. */
  function Utf16Width(s: seq<char>): nat
  {
    if s == [] then 0 else Utf16Width(s[..|s| - 1]) + Utf16Len(s[|s| - 1])
  }

  lemma {:induction false} Utf8WidthConcat(a: seq<char>, b: seq<char>)
    ensures Utf8Width(a + b) == Utf8Width(a) + Utf8Width(b)
    decreases |b|
  {
    if b == [] {
      assert a + b == a;
    } else {
      assert (a + b)[..|a + b| - 1] == a + b[..|b| - 1];
      Utf8WidthConcat(a, b[..|b| - 1]);
    }
  }

  lemma {:induction false} Utf16WidthConcat(a: seq<char>, b: seq<char>)
    ensures Utf16Width(a + b) == Utf16Width(a) + Utf16Width(b)
    decreases |b|
  {
    if b == [] {
      assert a + b == a;
    } else {
      assert (a + b)[..|a + b| - 1] == a + b[..|b| - 1];
      Utf16WidthConcat(a, b[..|b| - 1]);
    }
  }

  /** Byte offset of character index `k` of `s`. */
  function Offset(s: seq<char>, k: nat): nat
    requires k <= |s|
  {
    Utf8Width(s[..k])
  }

  lemma OffsetStep(s: seq<char>, j: nat)
    requires j < |s|
    ensures Offset(s, j + 1) == Offset(s, j) + Utf8Len(s[j])
  {
    assert s[..j + 1][..j] == s[..j];
  }

  /** Index of the first `c` at or after `i`, or `|s|` if there is none. */
  function FindFrom(s: seq<char>, c: char, i: nat): (j: nat)
    requires i <= |s|
    ensures i <= j <= |s|
    ensures j < |s| ==> s[j] == c
    decreases |s| - i
  {
    if i < |s| && s[i] != c then FindFrom(s, c, i + 1) else i
  }

  lemma {:induction false} FindFromSkips(s: seq<char>, c: char, i: nat)
    requires i <= |s|
    ensures forall k :: i <= k < FindFrom(s, c, i) ==> s[k] != c
    decreases |s| - i
  {
    if i < |s| && s[i] != c {
      FindFromSkips(s, c, i + 1);
    }
  }

  /** Every character takes at least one byte, so widths bound lengths. */
  lemma {:induction false} Utf8WidthBounds(s: seq<char>)
    ensures |s| <= Utf8Width(s) <= 4 * |s|
  {
    if s != [] {
      Utf8WidthBounds(s[..|s| - 1]);
    }
  }

  /** Byte offsets grow strictly with the character index. */
  lemma {:induction false} OffsetMonotone(s: seq<char>, i: nat, j: nat)
    requires i <= j <= |s|
    ensures Offset(s, i) + (j - i) <= Offset(s, j)
    decreases j - i
  {
    if i < j {
      OffsetMonotone(s, i, j - 1);
      OffsetStep(s, j - 1);
    }
  }

  /** In ASCII text a byte offset is a character index. */
  lemma {:induction false} Utf8WidthAscii(s: seq<char>)
    requires forall k :: 0 <= k < |s| ==> s[k] as int < 0x80
    ensures Utf8Width(s) == |s|
  {
    if s != [] {
      Utf8WidthAscii(s[..|s| - 1]);
    }
  }

  // ---------------------------------------------------------------------
  // Character classes with fixed, small extents in Unicode.

  /** Unicode `White_Space` (`char::is_whitespace`). */
  predicate IsWhitespace(c: char)
  {
    ('\U{0009}' <= c <= '\U{000D}') || c == ' ' || c == '\U{0085}' || c == '\U{00A0}'
    || c == '\U{1680}' || ('\U{2000}' <= c <= '\U{200A}') || c == '\U{2028}' || c == '\U{2029}'
    || c == '\U{202F}' || c == '\U{205F}' || c == '\U{3000}'
  }

  /** General category Cc (`char::is_control`). */
  predicate IsControl(c: char)
  {
    c <= '\U{001F}' || ('\U{007F}' <= c <= '\U{009F}')
  }

  predicate IsAsciiAlphabetic(c: char)
  {
    ('a' <= c <= 'z') || ('A' <= c <= 'Z')
  }

  predicate IsAsciiDigit(c: char)
  {
    '0' <= c <= '9'
  }

  predicate IsAsciiAlphanumeric(c: char)
  {
    IsAsciiAlphabetic(c) || IsAsciiDigit(c)
  }

  /** `str::trim().is_empty()`: nothing but white space. */
  predicate AllWhitespace(s: seq<char>)
  {
    forall k :: 0 <= k < |s| ==> IsWhitespace(s[k])
  }

  // ---------------------------------------------------------------------
  // Decimal rendering of naturals (`Display` for integers, template
  // literals in TypeScript).

  function DigitChar(d: nat): (c: char)
    requires d < 10
    ensures IsAsciiDigit(c)
  {
    ('0' as int + d) as char
  }

  predicate AllDigits(s: seq<char>)
  {
    forall k :: 0 <= k < |s| ==> IsAsciiDigit(s[k])
  }

  /** The value of a string of decimal digits (`Number` on such a string in
      JavaScript, where the empty string is 0). */
  function DecimalValue(s: seq<char>): nat
    requires AllDigits(s)
  {
    if s == [] then 0 else DecimalValue(s[..|s| - 1]) * 10 + (s[|s| - 1] as int - '0' as int)
  }

  function NatToString(n: nat): (s: string)
    ensures |s| >= 1
    ensures forall k :: 0 <= k < |s| ==> IsAsciiDigit(s[k])
  {
    if n < 10 then [DigitChar(n)] else NatToString(n / 10) + [DigitChar(n % 10)]
  }

  /** Reading back a rendered natural gives the natural. */
  lemma {:induction false} DecimalRoundTrip(n: nat)
    ensures DecimalValue(NatToString(n)) == n
  {
    var s := NatToString(n);
    if n >= 10 {
      DecimalRoundTrip(n / 10);
      assert s[..|s| - 1] == NatToString(n / 10);
    }
  }

  /** Distinct naturals render differently. */
  lemma NatToStringInjective(a: nat, b: nat)
    requires NatToString(a) == NatToString(b)
    ensures a == b
  {
    DecimalRoundTrip(a);
    DecimalRoundTrip(b);
  }

  /** `ilog10`: the number of decimal digits minus one. */
  function Log10(n: nat): (r: nat)
    requires n >= 1
  {
    if n < 10 then 0 else 1 + Log10(n / 10)
  }

  lemma {:induction false} NatToStringLength(n: nat)
    requires n >= 1
    ensures |NatToString(n)| == Log10(n) + 1
  {
    if n >= 10 {
      NatToStringLength(n / 10);
    }
  }

  /** Right-aligns `s` in a field of `width` characters (`{:>width$}`). */
  function PadLeft(s: string, width: nat): (r: string)
    ensures |r| == if |s| < width then width else |s|
    ensures r[|r| - |s|..] == s
    ensures forall k :: 0 <= k < |r| - |s| ==> r[k] == ' '
  {
    if |s| < width then seq(width - |s|, _ => ' ') + s else s
  }

  function Spaces(n: nat): (r: string)
    ensures |r| == n && forall k :: 0 <= k < n ==> r[k] == ' '
  {
    seq(n, _ => ' ')
  }

  /** Concatenation of a sequence of strings. */
  function Concat(parts: seq<string>): string
  {
    if parts == [] then [] else Concat(parts[..|parts| - 1]) + parts[|parts| - 1]
  }
}
