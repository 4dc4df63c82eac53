/** The highlighting decomposition of `Editor._draw_line` (sedit.py:151-206): a line
    is cut into spans, each tagged as a comment, a string literal, a keyword or
    plain text. The colours and the screen writes are left to the terminal. */
module Highlight {
  import opened Text
  import opened Seqs

  datatype Kind = Comment | Str | Keyword | Plain

  datatype Span = Span(text: string, kind: Kind)

  /** The reserved words of SBASIC (sedit.py:27-30). */
  const Keywords: seq<string> := [
    "PRINT", "LET", "IF", "THEN", "ELSE", "GOTO", "GOSUB", "RETURN",
    "FOR", "TO", "STEP", "NEXT", "INPUT", "DIM", "END", "REM"
  ]

  /** A line is a comment when its stripped, upper-cased text starts with `REM`;
      there is no word boundary after the prefix. */
  predicate IsCommentLine(line: string) {
    StartsWith(Upper(Strip(line)), "REM")
  }

  predicate IsWordChar(c: char) {
    IsAlnum(c) || c == '_'
  }

  function Flatten(spans: seq<Span>): string {
    if spans == [] then [] else spans[0].text + Flatten(spans[1..])
  }

  /** Index just past a string literal whose opening quote is at `i`: past the next
      quote, or the end of the line when there is none. */
  function StringEnd(line: string, i: nat): (e: nat)
    requires i < |line| && line[i] == '"'
    ensures i < e <= |line|
    ensures forall k :: i < k < e - 1 ==> line[k] != '"'
    ensures e < |line| ==> e - 1 > i && line[e - 1] == '"'
    ensures e == |line| ==> (e - 1 > i && line[e - 1] == '"') || (forall k :: i < k < |line| ==> line[k] != '"')
  {
    var rest := line[i + 1..];
    var j := i + 1 + IndexOf(rest, '"');
    assert forall k :: i < k < j ==> line[k] == rest[k - i - 1];
    (if j < |line| - 1 then j else |line| - 1) + 1
  }

  /** Index just past the maximal run of letters, digits and underscores that
      starts with the letter at `i`. */
  function WordEnd(line: string, i: nat): (e: nat)
    requires i < |line|
    ensures i <= e <= |line|
    ensures forall k :: i <= k < e ==> IsWordChar(line[k])
    ensures e < |line| ==> !IsWordChar(line[e])
    decreases |line| - i
  {
    if IsWordChar(line[i]) then
      (if i + 1 == |line| then |line| else WordEnd(line, i + 1))
    else i
  }

  /** What each kind of span looks like on its own; `final` says the span reaches
      the end of the line, the only place where a string literal may stay open. */
  predicate SpanShape(s: Span, final: bool) {
    s.text != [] &&
    match s.kind
    case Comment => false
    case Str =>
      s.text[0] == '"' && (forall k :: 0 < k < |s.text| - 1 ==> s.text[k] != '"')
      && (final || (|s.text| >= 2 && s.text[|s.text| - 1] == '"'))
    case Keyword =>
      IsAlpha(s.text[0]) && (forall k :: 0 <= k < |s.text| ==> IsWordChar(s.text[k]))
      && Upper(s.text) in Keywords
    case Plain =>
      if IsAlpha(s.text[0])
      then (forall k :: 0 <= k < |s.text| ==> IsWordChar(s.text[k])) && Upper(s.text) !in Keywords
      else |s.text| == 1 && s.text[0] != '"'
  }

  /** Index just past the span that starts at `i`: a string literal, a word, or
      a single character. */
  function SpanEnd(line: string, i: nat): (e: nat)
    requires i < |line|
    ensures i < e <= |line|
  {
    if line[i] == '"' then StringEnd(line, i)
    else if IsAlpha(line[i]) then WordEnd(line, i)
    else i + 1
  }

  /** The span that starts at `i`. */
  function SpanAt(line: string, i: nat): (s: Span)
    requires i < |line|
    ensures s.text == line[i..SpanEnd(line, i)]
  {
    var e := SpanEnd(line, i);
    var kind :=
      if line[i] == '"' then Str
      else if IsAlpha(line[i]) && Upper(line[i..e]) in Keywords then Keyword
      else Plain;
    Span(line[i..e], kind)
  }

  lemma SpanAtShape(line: string, i: nat)
    requires i < |line|
    ensures SpanShape(SpanAt(line, i), SpanEnd(line, i) == |line|)
  {
    var e := SpanEnd(line, i);
    var t := line[i..e];
    assert forall k :: 0 <= k < |t| ==> t[k] == line[i + k];
  }

  /** Spans of a non-comment line from position `i` on; together they spell the
      rest of the line. */
  function SpansFrom(line: string, i: nat): (spans: seq<Span>)
    requires i <= |line|
    ensures Flatten(spans) == line[i..]
    ensures forall k :: 0 <= k < |spans| ==> spans[k].text != []
    decreases |line| - i
  {
    if i == |line| then []
    else
      var e := SpanEnd(line, i);
      assert line[i..] == line[i..e] + line[e..];
      [SpanAt(line, i)] + SpansFrom(line, e)
  }

  /** Every span of a non-comment line has the shape its kind demands. */
  lemma {:induction false} SpansFromShape(line: string, i: nat)
    requires i <= |line|
    ensures forall k :: 0 <= k < |SpansFrom(line, i)| ==>
      SpanShape(SpansFrom(line, i)[k], k == |SpansFrom(line, i)| - 1)
    decreases |line| - i
  {
    if i < |line| {
      var e := SpanEnd(line, i);
      var rest := SpansFrom(line, e);
      SpanAtShape(line, i);
      SpansFromShape(line, e);
      assert |Flatten(rest)| == |line| - e;
      Cons(SpanAt(line, i), rest);
    }
  }

  /** The highlighted decomposition of a whole line. */
  function Spans(line: string): (spans: seq<Span>)
    ensures Flatten(spans) == line
    ensures IsCommentLine(line) ==> spans == [Span(line, Comment)]
  {
    if IsCommentLine(line) then [Span(line, Comment)] else SpansFrom(line, 0)
  }

  /** Outside comment lines: a string span opens with a quote, holds no quote
      before its last character, and ends in a closing quote unless it is the last
      span of the line; a keyword is a letter-initial word whose upper
      case is reserved; a plain span is a letter-initial word whose upper case is
      not reserved, or one character that is neither a letter nor a quote. */
  lemma SpansShape(line: string)
    requires !IsCommentLine(line)
    ensures forall k :: 0 <= k < |Spans(line)| ==> SpanShape(Spans(line)[k], k == |Spans(line)| - 1)
  {
    SpansFromShape(line, 0);
  }

  /** A keyword or plain word span. */
  predicate IsWordSpan(s: Span) {
    s.text != [] && IsAlpha(s.text[0]) && (s.kind == Keyword || s.kind == Plain)
  }

  /** Word spans are maximal: the span after a word never starts with a letter,
      digit or underscore. */
  lemma {:induction false} WordsAreMaximal(line: string, i: nat)
    requires i <= |line|
    ensures forall k :: 0 <= k < |SpansFrom(line, i)| - 1 && IsWordSpan(SpansFrom(line, i)[k]) ==>
      !IsWordChar(SpansFrom(line, i)[k + 1].text[0])
    decreases |line| - i
  {
    if i < |line| {
      var spans := SpansFrom(line, i);
      var e := SpanEnd(line, i);
      assert spans[1..] == SpansFrom(line, e);
      WordsAreMaximal(line, e);
      if IsWordSpan(spans[0]) && e < |line| {
        var next := SpansFrom(line, e);
        assert line[i] == spans[0].text[0];
        assert e == WordEnd(line, i);
        assert next[0] == SpanAt(line, e);
        assert next[0].text[0] == line[e];
      }
    }
  }

  /** A span as `_draw_line` writes it when `room` columns are left before the
      right edge: a string literal is cut to `segment[:room]`; words and single
      characters are written whole. */
  function Clipped(sp: Span, room: int): (c: Span)
    ensures c.kind == sp.kind && StartsWith(sp.text, c.text)
    ensures sp.kind != Str ==> c == sp
    ensures sp.kind == Str && 0 <= room ==> |c.text| == (if |sp.text| <= room then |sp.text| else room)
  {
    if sp.kind == Str then sp.(text := SliceTo(sp.text, room)) else sp
  }

  /** The spans `_draw_line` emits from position `i` while the column stays inside
      a body `maxw` columns wide. */
  function DrawnFrom(line: string, i: nat, maxw: int): (spans: seq<Span>)
    requires i <= |line|
    ensures spans == [] <==> i == |line| || i >= maxw
    ensures forall k :: 0 <= k < |spans| ==> spans[k].text != [] && spans[k].kind != Comment
    decreases |line| - i
  {
    if i == |line| || i >= maxw then []
    else [Clipped(SpanAt(line, i), maxw - i)] + DrawnFrom(line, SpanEnd(line, i), maxw)
  }

  /** The spans drawn for `line` in a body `maxw` columns wide. A comment line is
      drawn in one call, cut to `line[:maxw]`. */
  function Drawn(line: string, maxw: int): (r: seq<Span>)
    ensures IsCommentLine(line) ==> |r| == 1 && r[0].kind == Comment && StartsWith(line, r[0].text)
    ensures !IsCommentLine(line) ==> forall k :: 0 <= k < |r| ==> r[k].kind != Comment
    ensures !IsCommentLine(line) && line != [] && maxw > 0 ==> r != []
  {
    if IsCommentLine(line) then [Span(SliceTo(line, maxw), Comment)] else DrawnFrom(line, 0, maxw)
  }

  /** A span that fits in the room left is drawn whole. */
  lemma ClippedWhole(sp: Span, room: int)
    requires |sp.text| <= room
    ensures Clipped(sp, room) == sp
  {
  }

  /** A string literal cut at the right edge runs past it, so it is the last span
      drawn. */
  lemma CutIsLast(line: string, i: nat, maxw: int)
    requires i < |line| && i < maxw
    requires Clipped(SpanAt(line, i), maxw - i) != SpanAt(line, i)
    ensures DrawnFrom(line, SpanEnd(line, i), maxw) == []
  {
    if SpanEnd(line, i) <= maxw {
      ClippedWhole(SpanAt(line, i), maxw - i);
    }
  }

  /** What is drawn follows the full decomposition span by span: every span but
      the last is drawn as it is, and the last may be a string literal cut short. */
  lemma {:induction false} DrawnFromPrefix(line: string, i: nat, maxw: int)
    requires i <= |line|
    ensures |DrawnFrom(line, i, maxw)| <= |SpansFrom(line, i)|
    ensures forall k :: 0 <= k < |DrawnFrom(line, i, maxw)| - 1 ==>
      DrawnFrom(line, i, maxw)[k] == SpansFrom(line, i)[k]
    ensures var d := DrawnFrom(line, i, maxw); var sp := SpansFrom(line, i);
      d != [] ==> d[|d| - 1].kind == sp[|d| - 1].kind && StartsWith(sp[|d| - 1].text, d[|d| - 1].text)
    decreases |line| - i
  {
    if i < |line| && i < maxw {
      var e := SpanEnd(line, i);
      var head := SpanAt(line, i);
      var c := Clipped(head, maxw - i);
      DrawnFromPrefix(line, e, maxw);
      var d := DrawnFrom(line, e, maxw);
      var full := SpansFrom(line, e);
      assert SpansFrom(line, i) == [head] + full;
      assert DrawnFrom(line, i, maxw) == [c] + d;
      if c != head {
        CutIsLast(line, i, maxw);
      }
    }
  }

  /** Together the drawn texts are a prefix of the line that reaches at least the
      right edge of the body or the end of the line. */
  lemma {:induction false} DrawnFromText(line: string, i: nat, maxw: int)
    requires i <= |line|
    ensures StartsWith(line[i..], Flatten(DrawnFrom(line, i, maxw)))
    ensures |Flatten(DrawnFrom(line, i, maxw))| >= (if maxw < |line| then maxw else |line|) - i
    decreases |line| - i
  {
    if i < |line| && i < maxw {
      var e := SpanEnd(line, i);
      var head := SpanAt(line, i);
      var c := Clipped(head, maxw - i);
      DrawnFromText(line, e, maxw);
      var d := DrawnFrom(line, e, maxw);
      assert Flatten([c] + d) == c.text + Flatten(d);
      SuffixSplit(line, i, e);
      if c != head {
        CutIsLast(line, i, maxw);
        assert Flatten([c] + d) == c.text;
        StartsWithLonger(head.text, line[e..], c.text);
      } else {
        StartsWithBoth(head.text, line[e..], Flatten(d));
      }
    }
  }

  /** When the line fits in the body, every span is drawn whole. */
  lemma {:induction false} DrawnFromAll(line: string, i: nat, maxw: int)
    requires i <= |line| <= maxw
    ensures DrawnFrom(line, i, maxw) == SpansFrom(line, i)
    decreases |line| - i
  {
    if i < |line| {
      ClippedWhole(SpanAt(line, i), maxw - i);
      DrawnFromAll(line, SpanEnd(line, i), maxw);
    }
  }

  lemma DrawnWhole(line: string, maxw: int)
    requires |line| <= maxw
    ensures Drawn(line, maxw) == Spans(line)
  {
    if !IsCommentLine(line) {
      DrawnFromAll(line, 0, maxw);
    }
  }

  /** The loop of `_draw_line`: walks the line from the left, emitting one span per
      step, while characters remain and the column is inside the body. The screen
      column equals the body's left edge plus `i`. */
  method DrawSpans(line: string, maxw: int) returns (spans: seq<Span>)
    ensures spans == Drawn(line, maxw)
  {
    if IsCommentLine(line) {
      return [Span(SliceTo(line, maxw), Comment)];
    }
    spans := [];
    var i := 0;
    while i < |line| && i < maxw
      invariant 0 <= i <= |line|
      invariant spans + DrawnFrom(line, i, maxw) == DrawnFrom(line, 0, maxw)
      decreases |line| - i
    {
      var span, next := NextSpan(line, i);
      if span.kind == Str {
        span := span.(text := SliceTo(span.text, maxw - i));
      }
      ghost var rest := DrawnFrom(line, next, maxw);
      ConsAssoc(spans, span, rest);
      spans := spans + [span];
      i := next;
    }
  }

  /** One step of the tokenizer's scan: the span starting at `i` and where the
      next one starts. */
  method NextSpan(line: string, i: nat) returns (span: Span, next: nat)
    requires i < |line|
    ensures span == SpanAt(line, i) && next == SpanEnd(line, i)
  {
    var ch := line[i];
    if ch == '"' {
      var j := ScanString(line, i);
      span, next := Span(line[i..j + 1], Str), j + 1;
    } else if IsAlpha(ch) {
      var j := ScanWord(line, i);
      var word := line[i..j];
      span, next := Span(word, if Upper(word) in Keywords then Keyword else Plain), j;
    } else {
      span, next := Span([ch], Plain), i + 1;
    }
  }

  /** The inner loop for a string literal: the index of its closing quote, or of
      the last character when the literal is unterminated. */
  method ScanString(line: string, i: nat) returns (j: nat)
    requires i < |line| && line[i] == '"'
    ensures j + 1 == StringEnd(line, i)
  {
    j := i + 1;
    while j < |line| && line[j] != '"'
      invariant i + 1 <= j <= |line|
      invariant forall k :: i + 1 <= k < j ==> line[k] != '"'
    {
      j := j + 1;
    }
    IndexOfUnique(line[i + 1..], '"', j - i - 1);
    j := if j < |line| - 1 then j else |line| - 1;
  }

  /** The inner loop for a word: the index just past its last letter, digit or
      underscore. */
  method ScanWord(line: string, i: nat) returns (j: nat)
    requires i < |line| && IsAlpha(line[i])
    ensures j == WordEnd(line, i)
  {
    j := i;
    while j < |line| && IsWordChar(line[j])
      invariant i <= j <= |line|
      invariant forall k :: i <= k < j ==> IsWordChar(line[k])
    {
      j := j + 1;
    }
    WordEndUnique(line, i, j);
  }

  lemma ConsAssoc(a: seq<Span>, s: Span, b: seq<Span>)
    ensures (a + [s]) + b == a + ([s] + b)
  {
  }

  lemma {:induction false} IndexOfUnique(s: string, c: char, j: nat)
    requires j <= |s|
    requires forall k :: 0 <= k < j ==> s[k] != c
    requires j < |s| ==> s[j] == c
    ensures j == IndexOf(s, c)
    decreases |s|
  {
    if s != [] && s[0] != c {
      IndexOfUnique(s[1..], c, j - 1);
    }
  }

  lemma {:induction false} WordEndUnique(line: string, i: nat, j: nat)
    requires i < |line| && i <= j <= |line|
    requires forall k :: i <= k < j ==> IsWordChar(line[k])
    requires j < |line| ==> !IsWordChar(line[j])
    ensures j == WordEnd(line, i)
    decreases |line| - i
  {
    if IsWordChar(line[i]) && i + 1 < |line| {
      WordEndUnique(line, i + 1, j);
    }
  }

  /** Whether a line without surrounding whitespace is a comment depends on its
      first three characters only. */
  lemma CommentByPrefix(line: string)
    requires |line| >= 3 && !IsSpace(line[0]) && !IsSpace(line[|line| - 1])
    ensures IsCommentLine(line) <==> Upper(line[..3]) == "REM"
  {
    StripUnpadded(line);
    assert Upper(line)[..3] == Upper(line[..3]);
  }

  /** A reserved word followed by more letters is one plain word. */
  lemma PrinterIsPlain(line: string)
    requires line == "PRINTER = 1"
    ensures Spans(line)[0] == Span("PRINTER", Plain)
  {
    CommentByPrefix(line);
    assert line[..3] == "PRI";
    PrinterWord(line);
  }

  lemma PrinterWord(line: string)
    requires line == "PRINTER = 1"
    ensures SpanAt(line, 0) == Span("PRINTER", Plain)
  {
    WordEndUnique(line, 0, 7);
    assert line[0..7] == "PRINTER";
    LongWordsAreNotKeywords(Upper(line[0..7]));
  }

  /** No reserved word has more than six letters. */
  lemma LongWordsAreNotKeywords(w: string)
    requires |w| > 6
    ensures w !in Keywords
  {
    assert forall kw :: kw in Keywords ==> |kw| <= 6;
  }

  /** A line starting with REM in any case is one comment span, and so is one
      starting with a longer word such as REMOVE. */
  lemma RemLines(a: string, b: string)
    requires a == "rem this is a comment" && b == "REMOVE x"
    ensures Spans(a) == [Span(a, Comment)]
    ensures Spans(b) == [Span(b, Comment)]
  {
    assert a[..3] == "rem";
    StartsWithRem(a);
    assert b[..3] == "REM";
    StartsWithRem(b);
  }

  lemma StartsWithRem(line: string)
    requires |line| >= 3 && !IsSpace(line[0]) && !IsSpace(line[|line| - 1])
    requires Upper(line[..3]) == "REM"
    ensures Spans(line) == [Span(line, Comment)]
  {
    CommentByPrefix(line);
  }
}
