/** Character classes and string operations shared by the editor, the shell and
    the leaderboard. Python's own predicates (`isspace`, `isalpha`, `isalnum`,
    `upper`, `strip`, `split`) are modelled on ASCII. */
module Text {
  import opened Seqs

  /** `str.isspace` restricted to ASCII: tab through carriage return, the four
      information separators 0x1C-0x1F, and the space itself. */
  predicate IsSpace(c: char) {
    c == ' ' || (9 <= c as int <= 13) || (28 <= c as int <= 31)
  }

  predicate IsAlpha(c: char) {
    ('a' <= c <= 'z') || ('A' <= c <= 'Z')
  }

  predicate IsDigit(c: char) {
    '0' <= c <= '9'
  }

  predicate IsAlnum(c: char) {
    IsAlpha(c) || IsDigit(c)
  }

  function UpperChar(c: char): (r: char)
    ensures IsAlpha(c) <==> IsAlpha(r)
    ensures !('a' <= r <= 'z')
  {
    if 'a' <= c <= 'z' then (c as int - 32) as char else c
  }

  /** `str.upper`: the same length, every lower-case letter raised. */
  function Upper(s: string): (r: string)
    ensures |r| == |s|
    ensures forall k :: 0 <= k < |s| ==> r[k] == UpperChar(s[k])
  {
    if s == [] then [] else [UpperChar(s[0])] + Upper(s[1..])
  }

  lemma UpperAppend(a: string, b: string)
    ensures Upper(a + b) == Upper(a) + Upper(b)
  {
  }

  /** Text with no lower-case letter is its own upper case. */
  lemma UpperFixed(s: string)
    requires forall k :: 0 <= k < |s| ==> !('a' <= s[k] <= 'z')
    ensures Upper(s) == s
  {
    assert forall k :: 0 <= k < |s| ==> Upper(s)[k] == s[k];
  }

  predicate StartsWith(s: string, prefix: string) {
    |prefix| <= |s| && s[..|prefix|] == prefix
  }

  /** A prefix stays a prefix when the same text is put in front of both. */
  lemma StartsWithBoth(x: string, y: string, p: string)
    requires StartsWith(y, p)
    ensures StartsWith(x + y, x + p)
  {
    assert (x + y)[..|x + p|] == x + y[..|p|];
  }

  /** A prefix stays a prefix when text is added at the end. */
  lemma StartsWithLonger(x: string, y: string, p: string)
    requires StartsWith(x, p)
    ensures StartsWith(x + y, p)
  {
    assert (x + y)[..|p|] == x[..|p|];
  }

  predicate EndsWith(s: string, suffix: string) {
    |suffix| <= |s| && s[|s| - |suffix|..] == suffix
  }

  /** Number of leading whitespace characters. */
  function LeadingSpaces(s: string): (n: nat)
    ensures n <= |s|
    ensures forall k :: 0 <= k < n ==> IsSpace(s[k])
    ensures n < |s| ==> !IsSpace(s[n])
  {
    if s == [] || !IsSpace(s[0]) then 0 else 1 + LeadingSpaces(s[1..])
  }

  /** Index just past the last non-whitespace character. */
  function TrailingStart(s: string): (n: nat)
    ensures n <= |s|
    ensures forall k :: n <= k < |s| ==> IsSpace(s[k])
    ensures n > 0 ==> !IsSpace(s[n - 1])
  {
    if s == [] || !IsSpace(s[|s| - 1]) then |s| else TrailingStart(s[..|s| - 1])
  }

  function LStrip(s: string): (r: string)
    ensures |r| <= |s| && s[|s| - |r|..] == r
    ensures r != [] ==> !IsSpace(r[0])
    ensures r == [] <==> forall k :: 0 <= k < |s| ==> IsSpace(s[k])
  {
    s[LeadingSpaces(s)..]
  }

  function RStrip(s: string): (r: string)
    ensures |r| <= |s| && s[..|r|] == r
    ensures r != [] ==> !IsSpace(r[|r| - 1])
    ensures forall k :: |r| <= k < |s| ==> IsSpace(s[k])
  {
    s[..TrailingStart(s)]
  }

  /** `str.strip()`: the text between the leading and the trailing whitespace. */
  function Strip(s: string): (r: string)
    ensures r != [] ==> !IsSpace(r[0]) && !IsSpace(r[|r| - 1])
    ensures r == [] <==> forall k :: 0 <= k < |s| ==> IsSpace(s[k])
    ensures LeadingSpaces(s) + |r| <= |s| && s[LeadingSpaces(s)..LeadingSpaces(s) + |r|] == r
    ensures forall k :: LeadingSpaces(s) + |r| <= k < |s| ==> IsSpace(s[k])
  {
    RStrip(LStrip(s))
  }

  /** Stripping removes whitespace only. */
  lemma NonSpaceStrip(s: string)
    ensures NonSpace(Strip(s)) == NonSpace(s)
  {
    var r := Strip(s);
    var lead := LeadingSpaces(s);
    var stop := lead + |r|;
    SliceThree(s, lead, stop);
    var before, after := s[..lead], s[stop..];
    assert forall k :: 0 <= k < |before| ==> IsSpace(before[k]) by {
      forall k | 0 <= k < |before| ensures IsSpace(before[k]) {
        assert before[k] == s[k];
      }
    }
    assert forall k :: 0 <= k < |after| ==> IsSpace(after[k]) by {
      forall k | 0 <= k < |after| ensures IsSpace(after[k]) {
        assert after[k] == s[stop + k];
      }
    }
    NonSpaceBetween(before, r, after);
  }

  lemma NonSpaceBetween(before: string, r: string, after: string)
    requires forall k :: 0 <= k < |before| ==> IsSpace(before[k])
    requires forall k :: 0 <= k < |after| ==> IsSpace(after[k])
    ensures NonSpace(before + r + after) == NonSpace(r)
  {
    NonSpaceAppend(before + r, after);
    NonSpaceAppend(before, r);
    NonSpaceOfSpaces(before);
    NonSpaceOfSpaces(after);
    assert [] + NonSpace(r) + [] == NonSpace(r);
  }

  /** Strip leaves a string without surrounding whitespace as it is. */
  lemma StripUnpadded(s: string)
    requires s == [] || (!IsSpace(s[0]) && !IsSpace(s[|s| - 1]))
    ensures Strip(s) == s
  {
  }

  /** Appending whitespace after text that ends in a non-space does not change Strip. */
  lemma StripTrailingSpace(s: string, pad: string)
    requires s != [] && !IsSpace(s[0]) && !IsSpace(s[|s| - 1])
    requires forall k :: 0 <= k < |pad| ==> IsSpace(pad[k])
    ensures Strip(s + pad) == s
  {
    assert LStrip(s + pad) == s + pad;
    StripTrailingAux(s, pad);
  }

  lemma {:induction false} StripTrailingAux(s: string, pad: string)
    requires s != [] && !IsSpace(s[|s| - 1])
    requires forall k :: 0 <= k < |pad| ==> IsSpace(pad[k])
    ensures TrailingStart(s + pad) == |s|
    decreases |pad|
  {
    if pad != [] {
      var p' := pad[..|pad| - 1];
      assert (s + pad)[..|s + pad| - 1] == s + p';
      StripTrailingAux(s, p');
    } else {
      assert s + pad == s;
    }
  }

  /** Length of the run of non-whitespace characters at the start of `s`. */
  function WordLength(s: string): (n: nat)
    ensures n <= |s|
    ensures forall k :: 0 <= k < n ==> !IsSpace(s[k])
    ensures n < |s| ==> IsSpace(s[n])
  {
    if s == [] || IsSpace(s[0]) then 0 else 1 + WordLength(s[1..])
  }

  predicate NoSpace(w: string) {
    forall k :: 0 <= k < |w| ==> !IsSpace(w[k])
  }

  /** The characters of `s` that are not whitespace, in order. */
  function NonSpace(s: string): string {
    if s == [] then [] else (if IsSpace(s[0]) then [] else [s[0]]) + NonSpace(s[1..])
  }

  function Concat(ws: seq<string>): string {
    if ws == [] then [] else ws[0] + Concat(ws[1..])
  }

  /** `str.split()` with no separator: the maximal runs of non-whitespace. */
  function Words(s: string): (ws: seq<string>)
    ensures forall k :: 0 <= k < |ws| ==> |ws[k]| > 0 && NoSpace(ws[k])
    ensures ws == [] <==> forall k :: 0 <= k < |s| ==> IsSpace(s[k])
    decreases |s|
  {
    var t := LStrip(s);
    if t == [] then []
    else
      var n := WordLength(t);
      var w := t[..n];
      assert w != [] && NoSpace(w);
      var rest := Words(t[n..]);
      Cons(w, rest);
      [w] + rest
  }

  /** Leading whitespace separates no word. */
  lemma WordsSkipSpace(c: char, s: string)
    requires IsSpace(c)
    ensures Words([c] + s) == Words(s)
  {
    assert ([c] + s)[1..] == s;
    assert LStrip([c] + s) == LStrip(s);
  }

  /** A run of non-whitespace is one word. */
  lemma WordsOfWord(w: string)
    requires w != [] && NoSpace(w)
    ensures Words(w) == [w]
  {
    assert LStrip(w) == w;
    assert WordLength(w) == |w|;
    assert w[..|w|] == w && w[|w|..] == [];
  }

  /** A word ends at the first whitespace after it, and the words of the rest follow. */
  lemma WordsWordThenSpace(w: string, c: char, s: string)
    requires w != [] && NoSpace(w) && IsSpace(c)
    ensures Words(w + [c] + s) == [w] + Words(s)
  {
    var x := w + [c] + s;
    assert x[0] == w[0];
    assert LStrip(x) == x;
    assert x[|w|] == c;
    assert forall k :: 0 <= k < |w| ==> x[k] == w[k];
    assert WordLength(x) == |w|;
    assert x[..|w|] == w && x[|w|..] == [c] + s;
    WordsSkipSpace(c, s);
  }

  lemma StripTwo(a: string, b: string)
    requires a != [] && NoSpace(a) && b != [] && NoSpace(b)
    ensures Strip(a + " " + b) == a + " " + b
  {
    var line := a + " " + b;
    assert line[0] == a[0] && line[|line| - 1] == b[|b| - 1];
    StripUnpadded(line);
  }

  /** Two words with one space between them strip to themselves and split in two. */
  lemma WordsOfTwo(a: string, b: string)
    requires a != [] && NoSpace(a) && b != [] && NoSpace(b)
    ensures Strip(a + " " + b) == a + " " + b
    ensures Words(a + " " + b) == [a, b]
  {
    StripTwo(a, b);
    assert " " == [' '];
    WordsWordThenSpace(a, ' ', b);
    WordsOfWord(b);
  }

  lemma {:induction false} NonSpaceAppend(a: string, b: string)
    ensures NonSpace(a + b) == NonSpace(a) + NonSpace(b)
    decreases |a|
  {
    if a == [] {
      assert a + b == b;
    } else {
      assert (a + b)[1..] == a[1..] + b;
      NonSpaceAppend(a[1..], b);
    }
  }

  lemma {:induction false} NonSpaceOfSpaces(s: string)
    requires forall k :: 0 <= k < |s| ==> IsSpace(s[k])
    ensures NonSpace(s) == []
    decreases |s|
  {
    if s != [] {
      NonSpaceOfSpaces(s[1..]);
    }
  }

  lemma {:induction false} NonSpaceOfWord(w: string)
    requires NoSpace(w)
    ensures NonSpace(w) == w
    decreases |w|
  {
    if w != [] {
      NonSpaceOfWord(w[1..]);
    }
  }

  /** The words of a line, glued back together, are its non-whitespace characters. */
  lemma {:induction false} WordsCover(s: string)
    ensures Concat(Words(s)) == NonSpace(s)
    decreases |s|
  {
    var t := LStrip(s);
    NonSpaceLStrip(s);
    if t == [] {
    } else {
      var n := WordLength(t);
      assert t == t[..n] + t[n..];
      NonSpaceAppend(t[..n], t[n..]);
      NonSpaceOfWord(t[..n]);
      WordsCover(t[n..]);
      assert Words(s) == [t[..n]] + Words(t[n..]);
      assert Concat(Words(s)) == t[..n] + Concat(Words(t[n..]));
    }
  }

  lemma NonSpaceLStrip(s: string)
    ensures NonSpace(LStrip(s)) == NonSpace(s)
  {
    var t := LStrip(s);
    var lead := s[..|s| - |t|];
    assert s == lead + t;
    NonSpaceAppend(lead, t);
    NonSpaceOfSpaces(lead);
  }

  /** First index of `c` in `s`, or `|s|` when there is none. */
  function IndexOf(s: string, c: char): (i: nat)
    ensures i <= |s|
    ensures forall k :: 0 <= k < i ==> s[k] != c
    ensures i < |s| ==> s[i] == c
  {
    if s == [] then 0 else if s[0] == c then 0 else 1 + IndexOf(s[1..], c)
  }

  /** `sep.join(parts)`. */
  function Join(parts: seq<string>, sep: string): string {
    if parts == [] then []
    else if |parts| == 1 then parts[0]
    else parts[0] + sep + Join(parts[1..], sep)
  }

  /** `s.split(c)` with a one-character separator: never empty, keeps empty parts. */
  function SplitOn(s: string, c: char): (parts: seq<string>)
    ensures |parts| >= 1
    ensures forall k :: 0 <= k < |parts| ==> c !in parts[k]
    decreases |s|
  {
    var i := IndexOf(s, c);
    if i == |s| then [s] else [s[..i]] + SplitOn(s[i + 1..], c)
  }

  /** Joining the parts of a split with the separator gives the original string back. */
  lemma {:induction false} JoinSplit(s: string, c: char)
    ensures Join(SplitOn(s, c), [c]) == s
    decreases |s|
  {
    var i := IndexOf(s, c);
    if i < |s| {
      JoinSplit(s[i + 1..], c);
      assert s == s[..i] + [c] + s[i + 1..];
    }
  }

  /** Joining all parts but the last, then the separator and the last part, is
      joining them all. */
  lemma {:induction false} JoinInit(parts: seq<string>, sep: string)
    requires |parts| >= 2
    ensures Join(parts[..|parts| - 1], sep) + sep + parts[|parts| - 1] == Join(parts, sep)
    decreases |parts|
  {
    if |parts| > 2 {
      JoinInit(parts[1..], sep);
      assert parts[1..][..|parts| - 2] == parts[..|parts| - 1][1..];
    } else {
      assert parts[..1] == [parts[0]];
    }
  }

  /** `s.rstrip(c)` for one character `c`. */
  function RStripChar(s: string, c: char): (r: string)
    ensures |r| <= |s| && s[..|r|] == r
    ensures r != [] ==> r[|r| - 1] != c
    ensures forall k :: |r| <= k < |s| ==> s[k] == c
  {
    if s == [] || s[|s| - 1] != c then s else RStripChar(s[..|s| - 1], c)
  }

  /** Splitting text that contains no separator gives the text alone. */
  lemma SplitAbsent(s: string, c: char)
    requires c !in s
    ensures SplitOn(s, c) == [s]
  {
  }

  /** Index just past the first newline of `t`, or `|t|` when it has none. */
  function LineEnd(t: string): (n: nat)
    ensures n <= |t|
    ensures t != [] ==> n > 0
    ensures forall k :: 0 <= k < n - 1 ==> t[k] != '\n'
    ensures 0 < n < |t| ==> t[n - 1] == '\n'
    ensures n == |t| && n > 0 && '\n' in t ==> t[n - 1] == '\n'
  {
    var i := IndexOf(t, '\n');
    if i < |t| then i + 1 else |t|
  }

  /** The lines of a text as a file object yields them: each piece ends just after a
      newline, except a final piece without one. */
  function ReadLines(t: string): (ls: seq<string>)
    ensures forall k :: 0 <= k < |ls| ==> |ls[k]| > 0
    ensures forall k :: 0 <= k < |ls| - 1 ==> ls[k][|ls[k]| - 1] == '\n'
    decreases |t|
  {
    if t == [] then []
    else
      var n := LineEnd(t);
      [t[..n]] + ReadLines(t[n..])
  }

  /** Reading loses nothing: the lines put back together are the text. */
  lemma {:induction false} ReadLinesCover(t: string)
    ensures Concat(ReadLines(t)) == t
    decreases |t|
  {
    if t != [] {
      var n := LineEnd(t);
      ReadLinesCover(t[n..]);
      assert ([t[..n]] + ReadLines(t[n..]))[1..] == ReadLines(t[n..]);
      assert t == t[..n] + t[n..];
    }
  }

  /** A line read from a text holds a newline only as its last character, and only
      characters of the text. */
  lemma {:induction false} ReadLinesShape(t: string, c: char)
    requires c !in t
    ensures forall k :: 0 <= k < |ReadLines(t)| ==>
      '\n' !in ReadLines(t)[k][..|ReadLines(t)[k]| - 1] && c !in ReadLines(t)[k]
    decreases |t|
  {
    if t != [] {
      var n := LineEnd(t);
      ReadLinesShape(t[n..], c);
      assert c !in t[..n];
      assert '\n' !in t[..n][..n - 1];
    }
  }

  /** Text without a newline is read as one line, kept whole. */
  lemma ReadLinesSingle(t: string)
    requires t != [] && '\n' !in t
    ensures ReadLines(t) == [t]
  {
    assert IndexOf(t, '\n') == |t|;
    assert LineEnd(t) == |t|;
    assert t[..|t|] == t && t[|t|..] == [];
  }

  lemma ReadLinesHead(line: string, rest: string)
    requires '\n' !in line
    ensures ReadLines(line + "\n" + rest) == [line + "\n"] + ReadLines(rest)
  {
    var t := line + "\n" + rest;
    assert t[|line|] == '\n';
    assert forall k :: 0 <= k < |line| ==> t[k] == line[k];
    assert IndexOf(t, '\n') == |line|;
    assert t[..|line| + 1] == line + "\n";
    assert t[|line| + 1..] == rest;
  }

  lemma {:induction false} IndexOfAppend(a: string, b: string, c: char)
    requires c in a
    ensures IndexOf(a + b, c) == IndexOf(a, c)
    decreases |a|
  {
    if a[0] != c {
      assert (a + b)[1..] == a[1..] + b;
      IndexOfAppend(a[1..], b, c);
    }
  }

  /** The first line of `a + b` is the first line of `a` when `a` holds a newline. */
  lemma LineEndAppend(a: string, b: string)
    requires a != [] && a[|a| - 1] == '\n'
    ensures LineEnd(a + b) == LineEnd(a)
    ensures (a + b)[..LineEnd(a)] == a[..LineEnd(a)]
    ensures (a + b)[LineEnd(a)..] == a[LineEnd(a)..] + b
    ensures LineEnd(a) == |a| || a[|a| - 1] == '\n'
  {
    assert '\n' in a;
    IndexOfAppend(a, b, '\n');
  }

  /** Reading the lines of two texts one after the other, when the first one ends
      with a newline, reads the lines of each. */
  lemma {:induction false} ReadLinesAppend(a: string, b: string)
    requires a == [] || a[|a| - 1] == '\n'
    ensures ReadLines(a + b) == ReadLines(a) + ReadLines(b)
    decreases |a|
  {
    if a == [] {
      assert a + b == b;
      EmptyConcat(ReadLines(b));
    } else {
      var n := LineEnd(a);
      LineEndAppend(a, b);
      var rest := a[n..];
      assert rest == [] || rest[|rest| - 1] == '\n';
      var head := [a[..n]];
      calc {
        ReadLines(a + b);
        head + ReadLines(rest + b);
        { ReadLinesAppend(rest, b); }
        head + (ReadLines(rest) + ReadLines(b));
        { ConcatAssoc(head, ReadLines(rest), ReadLines(b)); }
        (head + ReadLines(rest)) + ReadLines(b);
        ReadLines(a) + ReadLines(b);
      }
    }
  }

  /** Universal-newline translation applied when a file is read in text mode:
      `\r\n` and a lone `\r` both become `\n`. */
  function Universal(t: string): (r: string)
    ensures '\r' !in r
    ensures |r| <= |t|
    decreases |t|
  {
    if t == [] then []
    else if t[0] == '\r' then
      if |t| > 1 && t[1] == '\n' then "\n" + Universal(t[2..]) else "\n" + Universal(t[1..])
    else [t[0]] + Universal(t[1..])
  }

  /** `\r\n` becomes one newline. */
  lemma UniversalCrLf(t: string)
    ensures Universal("\r\n" + t) == "\n" + Universal(t)
  {
    assert ("\r\n" + t)[2..] == t;
  }

  /** A carriage return not followed by a newline becomes a newline. */
  lemma UniversalLoneCr(t: string)
    requires t == [] || t[0] != '\n'
    ensures Universal("\r" + t) == "\n" + Universal(t)
  {
    assert ("\r" + t)[1..] == t;
  }

  /** Every other character is kept. */
  lemma UniversalKeeps(c: char, t: string)
    requires c != '\r'
    ensures Universal([c] + t) == [c] + Universal(t)
  {
    assert ([c] + t)[1..] == t;
  }

  lemma {:induction false} UniversalPlain(t: string)
    requires '\r' !in t
    ensures Universal(t) == t
    decreases |t|
  {
    if t != [] {
      assert t[0] != '\r';
      assert '\r' !in t[1..] by {
        forall k | 0 <= k < |t[1..]| ensures t[1..][k] != '\r' {
          assert t[1..][k] == t[k + 1];
        }
      }
      UniversalPlain(t[1..]);
    }
  }

  lemma {:induction false} UniversalAppend(a: string, b: string)
    requires a == [] || a[|a| - 1] != '\r'
    ensures Universal(a + b) == Universal(a) + Universal(b)
    decreases |a|
  {
    if a == [] {
      assert a + b == b;
    } else if a[0] == '\r' && |a| > 1 && a[1] == '\n' {
      assert (a + b)[2..] == a[2..] + b;
      UniversalAppend(a[2..], b);
    } else {
      assert (a + b)[1..] == a[1..] + b;
      UniversalAppend(a[1..], b);
    }
  }
}
