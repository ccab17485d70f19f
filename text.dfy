// Byte-addressed views of the source text used by the diagnostic renderers:
// `str::get` with byte ranges, `split_inclusive("\n")`, `lines()`, and the
// underline cells drawn under an excerpt.

module SourceText {
  import opened Common

  /** The character index whose byte offset is `b`, if `b` is a character
      boundary of `s` (`str::is_char_boundary`). */
  function IndexAt(s: seq<char>, b: nat): (r: Option<nat>)
    ensures r.Some? ==> r.value <= |s| && Offset(s, r.value) == b
    ensures r.None? ==> forall k :: 0 <= k <= |s| ==> Offset(s, k) != b
  {
    assert s[..0] == [];
    IndexFrom(s, b, 0)
  }

  function IndexFrom(s: seq<char>, b: nat, k: nat): (r: Option<nat>)
    requires k <= |s| && Offset(s, k) <= b
    ensures r.Some? ==> k <= r.value <= |s| && Offset(s, r.value) == b
    ensures r.None? ==> forall m :: k <= m <= |s| ==> Offset(s, m) != b
    decreases |s| - k
  {
    if Offset(s, k) == b then Some(k)
    else if k == |s| then None
    else if Offset(s, k + 1) > b then
      OffsetsAbove(s, k + 1);
      None
    else
      IndexFrom(s, b, k + 1)
  }

  lemma OffsetsAbove(s: seq<char>, k: nat)
    requires k <= |s|
    ensures forall m :: k <= m <= |s| ==> Offset(s, k) <= Offset(s, m)
  {
    forall m | k <= m <= |s| ensures Offset(s, k) <= Offset(s, m) {
      OffsetMonotone(s, k, m);
    }
  }

  /** `src.get(..b)`: the text before byte `b`, if `b` is a boundary. */
  function Before(s: seq<char>, b: nat): (r: Option<seq<char>>)
    ensures r.Some? ==> r.value <= s
  {
    match IndexAt(s, b)
    case Some(k) => Some(s[..k])
    case None => None
  }

  /** `src.get(..b).unwrap_or("")`. */
  function BeforeOrEmpty(s: seq<char>, b: nat): seq<char>
  {
    match Before(s, b)
    case Some(p) => p
    case None => []
  }

  /** Index of the last `c` in `s` (`str::rfind`). */
  function LastIndexOf(s: seq<char>, c: char): (r: Option<nat>)
    ensures r.Some? ==> r.value < |s| && s[r.value] == c
    ensures r.Some? ==> forall k :: r.value < k < |s| ==> s[k] != c
    ensures r.None? ==> forall k :: 0 <= k < |s| ==> s[k] != c
  {
    if s == [] then None
    else if s[|s| - 1] == c then Some(|s| - 1)
    else LastIndexOf(s[..|s| - 1], c)
  }

  /** `split_inclusive('\n')`: pieces that each end with a line feed, except
      possibly the last; no piece is empty. */
  function SplitInclusive(s: seq<char>): (r: seq<seq<char>>)
    decreases |s|
  {
    if s == [] then []
    else
      var i := FindFrom(s, '\n', 0);
      if i == |s| then [s] else [s[..i + 1]] + SplitInclusive(s[i + 1..])
  }

  /** Drops the line ending (`\n` or `\r\n`) of one `split_inclusive` piece. */
  function StripLineEnding(piece: seq<char>): seq<char>
  {
    if |piece| > 0 && piece[|piece| - 1] == '\n' then
      var p := piece[..|piece| - 1];
      if |p| > 0 && p[|p| - 1] == '\r' then p[..|p| - 1] else p
    else piece
  }

  /** `str::lines()`. */
  function Lines(s: seq<char>): (r: seq<seq<char>>)
    ensures |r| == |SplitInclusive(s)|
  {
    seq(|SplitInclusive(s)|, k requires 0 <= k < |SplitInclusive(s)| => StripLineEnding(SplitInclusive(s)[k]))
  }

  /** `str::lines().count()`. */
  function LineCount(s: seq<char>): nat
  {
    |SplitInclusive(s)|
  }

  lemma {:induction false} SplitInclusiveConcat(s: seq<char>)
    ensures Concat(SplitInclusive(s)) == s
    ensures forall k :: 0 <= k < |SplitInclusive(s)| ==> |SplitInclusive(s)[k]| > 0
    decreases |s|
  {
    if s != [] {
      var i := FindFrom(s, '\n', 0);
      if i < |s| {
        var rest := s[i + 1..];
        SplitInclusiveConcat(rest);
        ConcatCons(s[..i + 1], SplitInclusive(rest));
        assert s[..i + 1] + rest == s;
      } else {
        assert Concat([s]) == Concat([]) + s;
      }
    }
  }

  /** Every piece but the last ends with its only line feed. */
  lemma {:induction false} SplitInclusiveLines(s: seq<char>)
    ensures forall k :: 0 <= k < |SplitInclusive(s)| - 1 ==> |SplitInclusive(s)[k]| > 0 && SplitInclusive(s)[k][|SplitInclusive(s)[k]| - 1] == '\n'
    ensures forall k, m :: 0 <= k < |SplitInclusive(s)| && 0 <= m < |SplitInclusive(s)[k]| - 1 ==> SplitInclusive(s)[k][m] != '\n'
    decreases |s|
  {
    if s != [] {
      var i := FindFrom(s, '\n', 0);
      FindFromSkips(s, '\n', 0);
      if i < |s| {
        SplitInclusiveLines(s[i + 1..]);
      }
    }
  }

  lemma {:induction false} ConcatCons(head: seq<char>, tail: seq<seq<char>>)
    ensures Concat([head] + tail) == head + Concat(tail)
    decreases |tail|
  {
    var whole := [head] + tail;
    if tail == [] {
      assert whole == [head] && whole[..0] == [];
    } else {
      var init := tail[..|tail| - 1];
      var last := tail[|tail| - 1];
      assert whole[..|tail|] == [head] + init && whole[|tail|] == last;
      ConcatCons(head, init);
      calc {
        Concat(whole);
        Concat([head] + init) + last;
        (head + Concat(init)) + last;
        head + (Concat(init) + last);
      }
    }
  }

  lemma {:induction false} ConcatAppend(parts: seq<seq<char>>, k: nat)
    requires k < |parts|
    ensures Concat(parts[..k + 1]) == Concat(parts[..k]) + parts[k]
  {
    assert parts[..k + 1][..k] == parts[..k];
  }

  // ---------------------------------------------------------------------
  // Underlines.

  /** The underline drawn beneath `line` when its first character is at
      byte `index`: `~` under each character whose byte offset lies in
      `[lo, hi)`, a space elsewhere. */
  function Cells(line: seq<char>, index: nat, lo: nat, hi: nat): (r: seq<char>)
    ensures |r| == |line|
    decreases |line|
  {
    if line == [] then []
    else [if lo <= index < hi then '~' else ' '] + Cells(line[1..], index + Utf8Len(line[0]), lo, hi)
  }

  /** Cell `p` marks the character whose byte offset is `index` plus the
      width of the characters before it. */
  lemma {:induction false} CellAt(line: seq<char>, index: nat, lo: nat, hi: nat, p: nat)
    requires p < |line|
    ensures var at := index + Utf8Width(line[..p]);
      Cells(line, index, lo, hi)[p] == if lo <= at < hi then '~' else ' '
    decreases p
  {
    if p > 0 {
      CellAt(line[1..], index + Utf8Len(line[0]), lo, hi, p - 1);
      assert line[..p] == [line[0]] + line[1..][..p - 1];
      Utf8WidthConcat([line[0]], line[1..][..p - 1]);
      assert Utf8Width([line[0]]) == Utf8Width([]) + Utf8Len(line[0]);
    }
  }

  /** Tabs print as one space; every other character prints as itself. */
  function Untab(line: seq<char>): (r: seq<char>)
    ensures |r| == |line|
    ensures forall k :: 0 <= k < |line| ==> r[k] == if line[k] == '\t' then ' ' else line[k]
  {
    seq(|line|, k requires 0 <= k < |line| => if line[k] == '\t' then ' ' else line[k])
  }
}
