/** The snake leaderboard of game_Pack.py: the `name:score` line `save_score`
    appends, the tolerant parse `display_leaderboard` and
    `show_leaderboard_in_game` apply to each line of the file, the stable
    descending order they show, and how many entries the in-game view keeps. */
module Leaderboard {
  import opened Opt
  import opened Text
  import opened Seqs

  /** One parsed line: a name and its score. */
  datatype Score = Score(name: string, points: int)

  function DigitChar(d: nat): (c: char)
    requires d < 10
    ensures IsDigit(c) && c as int - '0' as int == d
  {
    (d + '0' as int) as char
  }

  /** Decimal digits of a natural number, without leading zeros. */
  function NatToString(n: nat): (s: string)
    ensures |s| >= 1 && forall k :: 0 <= k < |s| ==> IsDigit(s[k])
    ensures |s| > 1 ==> s[0] != '0'
  {
    if n < 10 then [DigitChar(n)] else NatToString(n / 10) + [DigitChar(n % 10)]
  }

  /** Python's `str(n)` for an integer. */
  function IntToString(n: int): (s: string)
    ensures |s| >= 1 && !IsSpace(s[0]) && !IsSpace(s[|s| - 1])
    ensures ':' !in s && '\n' !in s && '\r' !in s
  {
    if n < 0 then "-" + NatToString(-n) else NatToString(n)
  }

  predicate AllDigits(s: string) {
    forall k :: 0 <= k < |s| ==> IsDigit(s[k])
  }

  /** The value of a run of decimal digits. */
  function DigitsValue(s: string): nat
    requires AllDigits(s)
  {
    if s == [] then 0 else 10 * DigitsValue(s[..|s| - 1]) + (s[|s| - 1] as int - '0' as int)
  }

  lemma {:induction false} DigitsOfNat(n: nat)
    ensures DigitsValue(NatToString(n)) == n
  {
    if n >= 10 {
      var s := NatToString(n);
      assert s[..|s| - 1] == NatToString(n / 10);
      DigitsOfNat(n / 10);
    }
  }

  /** An integer literal `int` accepts: an optional sign, then one or more decimal
      digits. */
  predicate IsIntLiteral(t: string) {
    (|t| >= 2 && (t[0] == '-' || t[0] == '+') && AllDigits(t[1..]))
    || (t != [] && AllDigits(t))
  }

  /** Python's `int(s)` on a string: surrounding whitespace, an optional sign, then
      one or more decimal digits; anything else is a `ValueError` (`None`). */
  function ParseInt(s: string): (r: Option<int>)
    ensures r.Some? <==> IsIntLiteral(Strip(s))
    ensures r.Some? && Strip(s)[0] == '-' ==> r.value == -(DigitsValue(Strip(s)[1..]) as int)
    ensures r.Some? && Strip(s)[0] == '+' ==> r.value == DigitsValue(Strip(s)[1..])
    ensures r.Some? && IsDigit(Strip(s)[0]) ==> r.value == DigitsValue(Strip(s))
  {
    var t := Strip(s);
    if t == [] then None
    else
      var negative := t[0] == '-';
      var body := if t[0] == '-' || t[0] == '+' then t[1..] else t;
      if body == [] || !AllDigits(body) then None
      else
        var magnitude: int := DigitsValue(body);
        Some(if negative then -magnitude else magnitude)
  }

  /** Reading back what `str` wrote gives the same number. */
  lemma IntRoundTrip(n: int)
    ensures ParseInt(IntToString(n)) == Some(n)
  {
    var s := IntToString(n);
    StripUnpadded(s);
    if n < 0 {
      var digits := NatToString(-n);
      DigitsOfNat(-n);
      assert s[0] == '-' && s[1..] == digits;
      assert AllDigits(digits);
    } else {
      var digits := NatToString(n);
      DigitsOfNat(n);
      assert s == digits && s[0] != '-' && s[0] != '+';
      assert AllDigits(digits);
    }
  }

  /** The line `save_score` appends (game_Pack.py:15). */
  function FormatLine(name: string, score: int): (r: string)
    ensures |r| >= |name| + 3 && r[..|name|] == name && r[|name|] == ':' && r[|r| - 1] == '\n'
  {
    name + ":" + IntToString(score) + "\n"
  }

  /** A saved record is one line when the name holds no newline, and its only colon
      follows the name when the name holds none. */
  lemma FormatLineShape(name: string, score: int)
    ensures var r := FormatLine(name, score);
      '\n' !in name ==> forall k :: 0 <= k < |r| - 1 ==> r[k] != '\n'
    ensures var r := FormatLine(name, score);
      ':' !in name ==> forall k :: 0 <= k < |r| && r[k] == ':' ==> k == |name|
  {
    var r := FormatLine(name, score);
    var digits := IntToString(score);
    assert forall k :: |name| < k < |r| - 1 ==> r[k] == digits[k - |name| - 1];
  }

  /** game_Pack.py:29-33: a line counts only if, stripped, it splits at `:` into
      exactly two parts and the second is an integer. */
  function ParseLine(line: string): (r: Option<Score>)
    ensures r.Some? ==> |SplitOn(Strip(line), ':')| == 2
    ensures r.Some? ==>
      r.value.name == SplitOn(Strip(line), ':')[0] && Some(r.value.points) == ParseInt(SplitOn(Strip(line), ':')[1])
    ensures r.None? <==> |SplitOn(Strip(line), ':')| != 2 || ParseInt(SplitOn(Strip(line), ':')[1]).None?
  {
    var parts := SplitOn(Strip(line), ':');
    if |parts| != 2 then None
    else match ParseInt(parts[1])
      case None => None
      case Some(v) => Some(Score(parts[0], v))
  }

  /** Splitting `a:b` where neither side has a colon gives the two sides. */
  lemma SplitPair(a: string, b: string, c: char)
    requires c !in a && c !in b
    ensures SplitOn(a + [c] + b, c) == [a, b]
  {
    var s := a + [c] + b;
    assert forall k :: 0 <= k < |a| ==> s[k] == a[k];
    assert s[|a|] == c;
    assert IndexOf(s, c) == |a|;
    assert s[..|a|] == a && s[|a| + 1..] == b;
    SplitAbsent(b, c);
  }

  /** Stripping a saved line removes just its newline. */
  lemma StripSavedLine(name: string, score: int)
    requires name == [] || !IsSpace(name[0])
    ensures Strip(FormatLine(name, score)) == name + [':'] + IntToString(score)
  {
    var digits := IntToString(score);
    var s := name + [':'] + digits;
    assert s[|s| - 1] == digits[|digits| - 1];
    assert s[0] == if name == [] then ':' else name[0];
    StripTrailingSpace(s, "\n");
    assert FormatLine(name, score) == s + "\n";
  }

  /** A saved line parses back to the name and score, for a name without a colon
      and not starting with whitespace (the game strips it before saving). */
  lemma FormatParse(name: string, score: int)
    requires ':' !in name
    requires name == [] || !IsSpace(name[0])
    ensures ParseLine(FormatLine(name, score)) == Some(Score(name, score))
  {
    var digits := IntToString(score);
    StripSavedLine(name, score);
    SplitPair(name, digits, ':');
    IntRoundTrip(score);
    ParseLineOf(FormatLine(name, score), name + [':'] + digits, [name, digits], score);
  }

  lemma ParseLineOf(line: string, stripped: string, parts: seq<string>, score: int)
    requires Strip(line) == stripped && SplitOn(stripped, ':') == parts
    requires |parts| == 2 && ParseInt(parts[1]) == Some(score)
    ensures ParseLine(line) == Some(Score(parts[0], score))
  {
  }

  /** The entries of the lines, in order, skipping the ones that do not parse. */
  function ParseAll(lines: seq<string>): (r: seq<Score>)
    ensures |r| <= |lines|
  {
    if lines == [] then []
    else match ParseLine(lines[0])
      case Some(e) => [e] + ParseAll(lines[1..])
      case None => ParseAll(lines[1..])
  }

  /** The lines `for line in f` yields from a file opened in text mode. */
  function FileLines(content: string): seq<string> {
    ReadLines(Universal(content))
  }

  /** The reading loop of game_Pack.py:25-33 (and 84-92). */
  method ReadScores(content: string) returns (scores: seq<Score>)
    ensures scores == ParseAll(FileLines(content))
  {
    var lines := FileLines(content);
    scores := [];
    for i := 0 to |lines|
      invariant scores + ParseAll(lines[i..]) == ParseAll(lines)
    {
      DropFirst(lines, i);
      match ParseLine(lines[i]) {
        case Some(e) =>
          ConcatAssoc(scores, [e], ParseAll(lines[i + 1..]));
          scores := scores + [e];
        case None =>
      }
    }
    DropAll(lines);
  }

  lemma {:induction false} ParseAllAppend(a: seq<string>, b: seq<string>)
    ensures ParseAll(a + b) == ParseAll(a) + ParseAll(b)
    decreases |a|
  {
    if a == [] {
      assert a + b == b;
    } else {
      assert (a + b)[0] == a[0] && (a + b)[1..] == a[1..] + b;
      ParseAllAppend(a[1..], b);
    }
  }

  /** One line gives its entry when it parses and nothing when it is malformed:
      the `ValueError` of a bad line is swallowed and the line skipped. */
  lemma ParseAllOne(l: string)
    ensures ParseAll([l]) == (if ParseLine(l).Some? then [ParseLine(l).value] else [])
  {
    assert [l][1..] == [];
  }

  lemma {:induction false} UniversalKeepsNewlineEnd(t: string)
    requires t != [] && t[|t| - 1] == '\n'
    ensures Universal(t) != [] && Universal(t)[|Universal(t)| - 1] == '\n'
    decreases |t|
  {
    if t[0] == '\r' && |t| > 1 && t[1] == '\n' {
      if |t| > 2 {
        UniversalKeepsNewlineEnd(t[2..]);
      }
    } else if |t| > 1 {
      UniversalKeepsNewlineEnd(t[1..]);
    }
  }

  /** A single line without carriage returns, appended to a file that is empty
      or ends in a newline, becomes one more line of the file. */
  lemma FileLinesAppend(content: string, body: string)
    requires content == [] || content[|content| - 1] == '\n'
    requires '\n' !in body && '\r' !in body
    ensures FileLines(content + body + "\n") == FileLines(content) + [body + "\n"]
  {
    var line := body + "\n";
    assert content + body + "\n" == content + line;
    assert '\r' !in line;
    UniversalAppend(content, line);
    UniversalPlain(line);
    assert Universal(content + line) == Universal(content) + line;
    if content != [] {
      UniversalKeepsNewlineEnd(content);
    }
    ReadLinesAppend(Universal(content), line);
    ReadLinesHead(body, "");
    assert line + "" == line;
    assert ReadLines(line) == [line];
  }

  /** Appending a saved line to a file that is empty or ends in a newline adds
      exactly that entry at the end of what the file parses to. */
  lemma AppendScore(content: string, name: string, score: int)
    requires content == [] || content[|content| - 1] == '\n'
    requires ':' !in name && '\n' !in name && '\r' !in name
    requires name == [] || !IsSpace(name[0])
    ensures ParseAll(FileLines(content + FormatLine(name, score)))
         == ParseAll(FileLines(content)) + [Score(name, score)]
  {
    var body := name + ":" + IntToString(score);
    assert FormatLine(name, score) == body + "\n";
    AppendLine(content, body);
    FormatParse(name, score);
    assert ParseAll([body + "\n"]) == [Score(name, score)];
  }

  /** Appending one line to a file that is empty or ends in a newline appends what
      that line parses to. */
  lemma AppendLine(content: string, body: string)
    requires content == [] || content[|content| - 1] == '\n'
    requires '\n' !in body && '\r' !in body
    ensures ParseAll(FileLines(content + (body + "\n"))) == ParseAll(FileLines(content)) + ParseAll([body + "\n"])
  {
    assert content + (body + "\n") == content + body + "\n";
    FileLinesAppend(content, body);
    ParseAllAppend(FileLines(content), [body + "\n"]);
  }

  /** game_Pack.py:205-209: the name typed after the game is stripped, and an empty
      name is not saved; otherwise its line is appended. */
  function SaveAfterGame(typed: string, score: int): (r: Option<string>)
    ensures r.None? <==> Strip(typed) == []
    ensures r.Some? ==> r.value == FormatLine(Strip(typed), score)
  {
    var name := Strip(typed);
    if name != [] then Some(FormatLine(name, score)) else None
  }

  /** A name saved after a game reads back as typed, less surrounding whitespace. */
  lemma SavedNameReadsBack(typed: string, score: int)
    requires ':' !in typed
    requires SaveAfterGame(typed, score).Some?
    ensures ParseLine(SaveAfterGame(typed, score).value) == Some(Score(Strip(typed), score))
  {
    var name := Strip(typed);
    var lead := LeadingSpaces(typed);
    assert forall k :: 0 <= k < |name| ==> name[k] == typed[lead + k];
    FormatParse(name, score);
  }

  // ---- Ordering: sorted(scores, key=score, reverse=True) ----

  /** Ordered by score, highest first. */
  predicate NonIncreasing(xs: seq<Score>) {
    forall i, j :: 0 <= i < j < |xs| ==> xs[i].points >= xs[j].points
  }

  /** The entries with score `v`, in order. */
  function WithPoints(xs: seq<Score>, v: int): seq<Score> {
    if xs == [] then []
    else (if xs[0].points == v then [xs[0]] else []) + WithPoints(xs[1..], v)
  }

  /** Put `e` into a descending list after every entry scoring at least as much. */
  function Insert(xs: seq<Score>, e: Score): (r: seq<Score>)
    ensures multiset(r) == multiset(xs) + multiset{e}
    ensures |r| == |xs| + 1
  {
    if xs == [] || xs[0].points < e.points then [e] + xs
    else
      assert xs == [xs[0]] + xs[1..];
      [xs[0]] + Insert(xs[1..], e)
  }

  /** Python's stable sort by score, descending: entries are added in file order
      and each goes after the ones already there with the same score. */
  function SortDesc(xs: seq<Score>): (r: seq<Score>)
    ensures multiset(r) == multiset(xs) && |r| == |xs|
  {
    if xs == [] then []
    else
      assert xs == xs[..|xs| - 1] + [xs[|xs| - 1]];
      Insert(SortDesc(xs[..|xs| - 1]), xs[|xs| - 1])
  }

  lemma {:induction false} InsertSorted(xs: seq<Score>, e: Score)
    requires NonIncreasing(xs)
    ensures NonIncreasing(Insert(xs, e))
    decreases |xs|
  {
    if xs != [] && xs[0].points >= e.points {
      InsertSorted(xs[1..], e);
      var r := Insert(xs, e);
      var tail := Insert(xs[1..], e);
      assert r == [xs[0]] + tail;
      forall k | 0 <= k < |tail| ensures xs[0].points >= tail[k].points {
        assert tail[k] in multiset(tail);
        assert tail[k] in multiset(xs[1..]) + multiset{e};
        if tail[k] in multiset(xs[1..]) {
          var j :| 1 <= j < |xs| && xs[j] == tail[k] by {
            assert tail[k] in xs[1..];
          }
        }
      }
    }
  }

  /** The leaderboard order: non-increasing by score. */
  lemma {:induction false} SortSorted(xs: seq<Score>)
    ensures NonIncreasing(SortDesc(xs))
    decreases |xs|
  {
    if xs != [] {
      SortSorted(xs[..|xs| - 1]);
      InsertSorted(SortDesc(xs[..|xs| - 1]), xs[|xs| - 1]);
    }
  }

  lemma {:induction false} WithPointsAppend(a: seq<Score>, b: seq<Score>, v: int)
    ensures WithPoints(a + b, v) == WithPoints(a, v) + WithPoints(b, v)
    decreases |a|
  {
    if a == [] {
      assert a + b == b;
    } else {
      var head := if a[0].points == v then [a[0]] else [];
      assert a + b != [] && (a + b)[0] == a[0] && (a + b)[1..] == a[1..] + b;
      assert WithPoints(a + b, v) == head + WithPoints(a[1..] + b, v);
      WithPointsAppend(a[1..], b, v);
      assert WithPoints(a, v) == head + WithPoints(a[1..], v);
      ConcatAssoc(head, WithPoints(a[1..], v), WithPoints(b, v));
    }
  }

  /** Inserting adds `e` after the entries with the same score already present. */
  lemma {:induction false} InsertWithPoints(xs: seq<Score>, e: Score, v: int)
    requires NonIncreasing(xs)
    ensures WithPoints(Insert(xs, e), v)
         == WithPoints(xs, v) + (if e.points == v then [e] else [])
    decreases |xs|
  {
    if xs == [] {
      assert Insert(xs, e) == [e] + [];
    } else if xs[0].points < e.points {
      // every entry of xs scores below e, so none of them has e's score
      assert Insert(xs, e) == [e] + xs;
      if e.points == v {
        assert WithPoints(xs, v) == [] by {
          NoneWithPoints(xs, v);
        }
      }
      assert WithPoints([e] + xs, v) == (if e.points == v then [e] else []) + WithPoints(xs, v) by {
        assert ([e] + xs)[1..] == xs;
      }
    } else {
      var tail := Insert(xs[1..], e);
      var head := if xs[0].points == v then [xs[0]] else [];
      var mine := if e.points == v then [e] else [];
      assert Insert(xs, e) == [xs[0]] + tail;
      assert ([xs[0]] + tail)[0] == xs[0] && ([xs[0]] + tail)[1..] == tail;
      assert WithPoints(Insert(xs, e), v) == head + WithPoints(tail, v);
      InsertWithPoints(xs[1..], e, v);
      assert WithPoints(xs, v) == head + WithPoints(xs[1..], v);
      ConcatAssoc(head, WithPoints(xs[1..], v), mine);
    }
  }

  /** In a descending list that starts below `v`, nothing scores `v`. */
  lemma {:induction false} NoneWithPoints(xs: seq<Score>, v: int)
    requires NonIncreasing(xs) && xs != [] && xs[0].points < v
    ensures WithPoints(xs, v) == []
    decreases |xs|
  {
    if |xs| > 1 {
      NoneWithPoints(xs[1..], v);
    }
  }

  lemma WithPointsSnoc(xs: seq<Score>, v: int)
    requires xs != []
    ensures WithPoints(xs, v) == WithPoints(xs[..|xs| - 1], v)
                                 + (if xs[|xs| - 1].points == v then [xs[|xs| - 1]] else [])
  {
    var init, last := xs[..|xs| - 1], xs[|xs| - 1];
    assert xs == init + [last];
    WithPointsAppend(init, [last], v);
    assert WithPoints([last], v) == (if last.points == v then [last] else []) + WithPoints([], v);
  }

  /** Stability: among entries with equal scores the file order is kept. */
  lemma {:induction false} SortStable(xs: seq<Score>, v: int)
    ensures WithPoints(SortDesc(xs), v) == WithPoints(xs, v)
    decreases |xs|
  {
    if xs != [] {
      var init, last := xs[..|xs| - 1], xs[|xs| - 1];
      var mine := if last.points == v then [last] else [];
      assert SortDesc(xs) == Insert(SortDesc(init), last);
      SortStable(init, v);
      SortSorted(init);
      InsertWithPoints(SortDesc(init), last, v);
      assert WithPoints(SortDesc(xs), v) == WithPoints(init, v) + mine;
      WithPointsSnoc(xs, v);
    }
  }

  // ---- What is shown ----

  /** game_Pack.py:98-99 as written: `sorted_scores[:min(len, sh - 6)]`. */
  function InGameShownAsWritten(sorted: seq<Score>, sh: int): (r: seq<Score>)
    ensures |r| <= |sorted| && r == sorted[..|r|]
  {
    SliceTo(sorted, if |sorted| <= sh - 6 then |sorted| else sh - 6)
  }

  /** The screen row of the `i`-th entry, counting from 1 (game_Pack.py:101). */
  function EntryRow(i: nat): int {
    3 + i
  }

  /** On a window of fewer than 6 rows the cap is negative and the slice keeps all
      but the last `6 - sh` entries instead of none; from three scores on, the last
      of them is written on a row the window does not have (rows are `0 .. sh - 1`),
      where `addstr` raises. */
  lemma InGameOverflow(sorted: seq<Score>, sh: int)
    requires sh < 6 && |sorted| > 6 - sh
    ensures |InGameShownAsWritten(sorted, sh)| == |sorted| - (6 - sh) > 0
    ensures |sorted| >= 3 ==> EntryRow(|InGameShownAsWritten(sorted, sh)|) >= sh
  {
  }

  /** The view the comment at game_Pack.py:97 describes: the top entries, never
      more than the `sh - 6` rows that fit. */
  function InGameShown(sorted: seq<Score>, sh: int): (r: seq<Score>)
    ensures |r| <= |sorted| && r == sorted[..|r|]
    ensures (sh >= 6 ==> |r| <= sh - 6) && (sh < 6 ==> r == [])
    ensures sh >= 6 ==> |r| == |sorted| || |r| == sh - 6
    ensures r != [] ==> EntryRow(|r|) < sh - 2
  {
    if sh < 6 then [] else SliceTo(sorted, if |sorted| <= sh - 6 then |sorted| else sh - 6)
  }

  /** Both agree whenever the window has room for the header and footer. */
  lemma InGameAgrees(sorted: seq<Score>, sh: int)
    requires sh >= 6
    ensures InGameShown(sorted, sh) == InGameShownAsWritten(sorted, sh)
  {
  }

  /** One ranking line, `f"{i}. {name}: {score}"`. */
  function RankLine(rank: nat, e: Score): (r: string)
    ensures '\n' !in e.name ==> '\n' !in r
  {
    IntToString(rank) + ". " + e.name + ": " + IntToString(e.points)
  }

  /** A ranking line reads, left to right, the rank, `. `, the name, `: ` and the
      score. */
  lemma RankLineShape(rank: nat, e: Score)
    ensures var r, n, p := RankLine(rank, e), IntToString(rank), IntToString(e.points);
      |r| == |n| + 2 + |e.name| + 2 + |p| && r[..|n|] == n && r[|n|..|n| + 2] == ". " && r[|n| + 2..|n| + 2 + |e.name|] == e.name
      && r[|r| - |p| - 2..] == ": " + p
  {
    var n, p := IntToString(rank), IntToString(e.points);
    var r := RankLine(rank, e);
    assert r == (n + ". ") + e.name + (": " + p);
  }

  /** What `display_leaderboard` prints after its heading (game_Pack.py:18-41);
      `content` is `None` when the file does not exist. */
  method Display(content: Option<string>) returns (out: seq<string>)
    ensures content.None? ==> out == ["No leaderboard data found."]
    ensures content.Some? && ParseAll(FileLines(content.value)) == [] ==> out == ["No scores found."]
    ensures content.Some? && ParseAll(FileLines(content.value)) != [] ==>
      var ranked := SortDesc(ParseAll(FileLines(content.value)));
      |out| == |ranked| && forall k :: 0 <= k < |out| ==> out[k] == RankLine(k + 1, ranked[k])
  {
    if content.None? {
      return ["No leaderboard data found."];
    }
    var scores := ReadScores(content.value);
    var ranked := SortDesc(scores);
    if ranked == [] {
      return ["No scores found."];
    }
    out := RankLines(ranked);
  }

  /** The numbered lines of game_Pack.py:38-39, counting from 1. */
  method RankLines(ranked: seq<Score>) returns (out: seq<string>)
    ensures |out| == |ranked|
    ensures forall k :: 0 <= k < |out| ==> out[k] == RankLine(k + 1, ranked[k])
  {
    out := [];
    for i := 0 to |ranked|
      invariant |out| == i
      invariant forall k :: 0 <= k < i ==> out[k] == RankLine(k + 1, ranked[k])
    {
      RankLinesSnoc(out, ranked, i);
      out := out + [RankLine(i + 1, ranked[i])];
    }
  }

  /** One more numbered line keeps the lines in step with the ranking. */
  lemma RankLinesSnoc(out: seq<string>, ranked: seq<Score>, i: nat)
    requires i < |ranked| && |out| == i
    requires forall k :: 0 <= k < i ==> out[k] == RankLine(k + 1, ranked[k])
    ensures |out + [RankLine(i + 1, ranked[i])]| == i + 1
    ensures forall k :: 0 <= k < i + 1 ==> (out + [RankLine(i + 1, ranked[i])])[k] == RankLine(k + 1, ranked[k])
  {
    Snoc(out, RankLine(i + 1, ranked[i]));
  }
}
