/** The document and cursor of the editor (sedit.py): a list of lines, the cursor
    row `cursor_y` and column `cursor_x`, and the `modified` flag, with the four
    editing operations, the navigation keys and the viewport rule of `draw`. Each
    operation is a function from the old state to the new one; the `Editor` class
    in sedit.dfy performs the same steps in place. */
module Document {

  datatype Doc = Doc(lines: seq<string>, y: int, x: int, modified: bool)

  /** The cursor addresses an existing line and a column at most its length. */
  predicate Valid(d: Doc) {
    0 <= d.y < |d.lines| && 0 <= d.x <= |d.lines[d.y]|
  }

  /** Lines other than row `y` are the same in both documents. */
  predicate SameOtherLines(a: seq<string>, b: seq<string>, y: int) {
    |a| == |b| && forall k :: 0 <= k < |a| && k != y ==> a[k] == b[k]
  }

  /** `insert_char` (sedit.py:208-212): puts `ch` at the cursor and moves the
      cursor past it. */
  function InsertChar(d: Doc, ch: string): (r: Doc)
    requires Valid(d)
    ensures Valid(r) && r.modified
    ensures r.y == d.y && r.x == d.x + |ch|
    ensures SameOtherLines(r.lines, d.lines, d.y)
    ensures r.lines[d.y][..d.x] == d.lines[d.y][..d.x]
    ensures r.lines[d.y][d.x..r.x] == ch
    ensures r.lines[d.y][r.x..] == d.lines[d.y][d.x..]
  {
    var line := d.lines[d.y];
    var nl := line[..d.x] + ch + line[d.x..];
    assert nl[..d.x] == line[..d.x] && nl[d.x..d.x + |ch|] == ch && nl[d.x + |ch|..] == line[d.x..];
    d.(lines := d.lines[d.y := nl], x := d.x + |ch|, modified := true)
  }

  /** `newline` (sedit.py:214-222): splits the cursor line at the cursor; the cursor
      goes to the start of the second half. */
  function Newline(d: Doc): (r: Doc)
    requires Valid(d)
    ensures Valid(r) && r.modified
    ensures |r.lines| == |d.lines| + 1
    ensures r.y == d.y + 1 && r.x == 0
    ensures r.lines[d.y] + r.lines[d.y + 1] == d.lines[d.y] && |r.lines[d.y]| == d.x
    ensures r.lines[..d.y] == d.lines[..d.y] && r.lines[d.y + 2..] == d.lines[d.y + 1..]
  {
    var line := d.lines[d.y];
    var left := line[..d.x];
    var right := line[d.x..];
    assert left + right == line;
    var ls := d.lines[..d.y] + [left, right] + d.lines[d.y + 1..];
    assert ls[d.y + 2..] == d.lines[d.y + 1..];
    d.(lines := ls, y := d.y + 1, x := 0, modified := true)
  }

  /** `backspace` (sedit.py:224-237): removes the character before the cursor, or
      joins the cursor line onto the previous one at column 0; nothing at all at
      the start of the document. */
  function Backspace(d: Doc): (r: Doc)
    requires Valid(d)
    ensures Valid(r)
    ensures d.x == 0 && d.y == 0 ==> r == d
    ensures d.x > 0 ==>
      r.modified && r.y == d.y && r.x == d.x - 1 &&
      SameOtherLines(r.lines, d.lines, d.y) &&
      r.lines[d.y][..r.x] == d.lines[d.y][..r.x] && r.lines[d.y][r.x..] == d.lines[d.y][d.x..]
    ensures d.x == 0 && d.y > 0 ==>
      r.modified && |r.lines| == |d.lines| - 1 &&
      r.y == d.y - 1 && r.x == |d.lines[d.y - 1]| &&
      r.lines[r.y] == d.lines[d.y - 1] + d.lines[d.y] &&
      r.lines[..r.y] == d.lines[..r.y] && r.lines[d.y..] == d.lines[d.y + 1..]
  {
    if d.x > 0 then
      var line := d.lines[d.y];
      var nl := line[..d.x - 1] + line[d.x..];
      assert nl[..d.x - 1] == line[..d.x - 1] && nl[d.x - 1..] == line[d.x..];
      d.(lines := d.lines[d.y := nl], x := d.x - 1, modified := true)
    else if d.y > 0 then
      var prev := d.lines[d.y - 1];
      var cur := d.lines[d.y];
      var ls := d.lines[..d.y - 1] + [prev + cur] + d.lines[d.y + 1..];
      assert ls[d.y..] == d.lines[d.y + 1..];
      d.(lines := ls, y := d.y - 1, x := |prev|, modified := true)
    else d
  }

  /** `delete_char` (sedit.py:239-248): removes the character under the cursor, or
      joins the next line onto the cursor line at its end; nothing at the end of
      the last line. The cursor never moves. */
  function DeleteChar(d: Doc): (r: Doc)
    requires Valid(d)
    ensures Valid(r) && r.y == d.y && r.x == d.x
    ensures d.x == |d.lines[d.y]| && d.y == |d.lines| - 1 ==> r == d
    ensures d.x < |d.lines[d.y]| ==>
      r.modified && SameOtherLines(r.lines, d.lines, d.y) &&
      r.lines[d.y][..d.x] == d.lines[d.y][..d.x] && r.lines[d.y][d.x..] == d.lines[d.y][d.x + 1..]
    ensures d.x == |d.lines[d.y]| && d.y < |d.lines| - 1 ==>
      r.modified && |r.lines| == |d.lines| - 1 &&
      r.lines[d.y] == d.lines[d.y] + d.lines[d.y + 1] &&
      r.lines[..d.y] == d.lines[..d.y] && r.lines[d.y + 1..] == d.lines[d.y + 2..]
  {
    var line := d.lines[d.y];
    if d.x < |line| then
      var nl := line[..d.x] + line[d.x + 1..];
      assert nl[..d.x] == line[..d.x] && nl[d.x..] == line[d.x + 1..];
      d.(lines := d.lines[d.y := nl], modified := true)
    else if d.y < |d.lines| - 1 then
      var ls := d.lines[..d.y] + [line + d.lines[d.y + 1]] + d.lines[d.y + 2..];
      assert ls[d.y + 1..] == d.lines[d.y + 2..];
      d.(lines := ls, modified := true)
    else d
  }

  /** The cursor keys of `handle_key` (sedit.py:262-293). */
  datatype Nav = Left | Right | Up | Down | PageDown | PageUp | Home | End

  function Min(a: int, b: int): int { if a <= b then a else b }
  function Max(a: int, b: int): int { if a >= b then a else b }

  /** Moves the cursor; `rows` is the terminal height, of which PageUp and PageDown
      step half. The text and the `modified` flag never change. */
  function Move(d: Doc, key: Nav, rows: nat): (r: Doc)
    requires Valid(d)
    ensures Valid(r)
    ensures r.lines == d.lines && r.modified == d.modified
    ensures key.Left? && d.y == 0 && d.x == 0 ==> r == d
    ensures key.Right? && d.y == |d.lines| - 1 && d.x == |d.lines[d.y]| ==> r == d
    ensures key.Up? || key.Down? || key.PageDown? || key.PageUp? ==> r.x == Min(d.x, |r.lines[r.y]|)
    ensures key.Up? ==> r.y == Max(0, d.y - 1)
    ensures key.Down? ==> r.y == Min(|d.lines| - 1, d.y + 1)
    ensures key.PageDown? ==> r.y == Min(|d.lines| - 1, d.y + rows / 2)
    ensures key.PageUp? ==> r.y == Max(0, d.y - rows / 2)
    ensures key.Home? ==> r.y == d.y && r.x == 0
    ensures key.End? ==> r.y == d.y && r.x == |d.lines[d.y]|
  {
    match key
    case Left =>
      if d.x > 0 then d.(x := d.x - 1)
      else if d.y > 0 then d.(y := d.y - 1, x := |d.lines[d.y - 1]|)
      else d
    case Right =>
      if d.x < |d.lines[d.y]| then d.(x := d.x + 1)
      else if d.y < |d.lines| - 1 then d.(y := d.y + 1, x := 0)
      else d
    case Up =>
      if d.y > 0 then d.(y := d.y - 1, x := Min(d.x, |d.lines[d.y - 1]|)) else d
    case Down =>
      if d.y < |d.lines| - 1 then d.(y := d.y + 1, x := Min(d.x, |d.lines[d.y + 1]|)) else d
    case PageDown =>
      var y := Min(|d.lines| - 1, d.y + rows / 2);
      d.(y := y, x := Min(d.x, |d.lines[y]|))
    case PageUp =>
      var y := Max(0, d.y - rows / 2);
      d.(y := y, x := Min(d.x, |d.lines[y]|))
    case Home => d.(x := 0)
    case End => d.(x := |d.lines[d.y]|)
  }

  predicate AtStart(d: Doc) { d.y == 0 && d.x == 0 }

  predicate AtEnd(d: Doc) requires Valid(d) { d.y == |d.lines| - 1 && d.x == |d.lines[d.y]| }

  /** Left undoes Right everywhere except at the end of the document. */
  lemma LeftUndoesRight(d: Doc, rows: nat)
    requires Valid(d) && !AtEnd(d)
    ensures Move(Move(d, Right, rows), Left, rows) == d
  {
  }

  /** Right undoes Left everywhere except at the start of the document. */
  lemma RightUndoesLeft(d: Doc, rows: nat)
    requires Valid(d) && !AtStart(d)
    ensures Move(Move(d, Left, rows), Right, rows) == d
  {
  }

  /** Inserting one character and deleting it with backspace restores the lines and
      the cursor. */
  lemma InsertThenBackspace(d: Doc, c: char)
    requires Valid(d)
    ensures Backspace(InsertChar(d, [c])) == d.(modified := true)
  {
    var i := InsertChar(d, [c]);
    var b := Backspace(i);
    var line := d.lines[d.y];
    assert b.lines[d.y] == line by {
      assert b.lines[d.y] == i.lines[d.y][..d.x] + i.lines[d.y][d.x + 1..];
      assert line == line[..d.x] + line[d.x..];
    }
    assert b.lines == d.lines;
  }

  /** Splitting a line and pressing backspace at the start of the new line joins the
      two halves back. */
  lemma NewlineThenBackspace(d: Doc)
    requires Valid(d)
    ensures Backspace(Newline(d)) == d.(modified := true)
  {
    var n := Newline(d);
    var b := Backspace(n);
    assert b.lines[..d.y] == d.lines[..d.y];
    assert b.lines[d.y + 1..] == d.lines[d.y + 1..];
    assert b.lines == b.lines[..d.y] + [b.lines[d.y]] + b.lines[d.y + 1..];
    assert d.lines == d.lines[..d.y] + [d.lines[d.y]] + d.lines[d.y + 1..];
  }

  /** Splitting a line, stepping back onto the end of the first half and deleting
      forward joins the two halves back. */
  lemma NewlineThenDelete(d: Doc, rows: nat)
    requires Valid(d)
    ensures DeleteChar(Move(Newline(d), Left, rows)) == d.(modified := true)
  {
    var n := Move(Newline(d), Left, rows);
    assert n.y == d.y && n.x == d.x;
    var r := DeleteChar(n);
    assert r.lines[..d.y] == d.lines[..d.y];
    assert r.lines[d.y + 1..] == d.lines[d.y + 1..];
    assert r.lines == r.lines[..d.y] + [r.lines[d.y]] + r.lines[d.y + 1..];
    assert d.lines == d.lines[..d.y] + [d.lines[d.y]] + d.lines[d.y + 1..];
  }

  /** Deleting forward is stepping right and deleting backward, wherever a step to
      the right is possible. */
  lemma DeleteIsRightThenBackspace(d: Doc, rows: nat)
    requires Valid(d) && !AtEnd(d)
    ensures DeleteChar(d) == Backspace(Move(d, Right, rows))
  {
    var a := DeleteChar(d);
    var b := Backspace(Move(d, Right, rows));
    if d.x < |d.lines[d.y]| {
      assert a.lines[d.y] == b.lines[d.y];
      assert a.lines == b.lines;
    } else {
      assert a.lines == b.lines;
    }
  }

  /** Rows of the body between the status line and the message line (sedit.py:105-107). */
  function BodyHeight(rows: int): (h: int)
    ensures h >= 1 && h >= rows - 2
  {
    Max(1, rows - 2)
  }

  /** The viewport rule of `draw` (sedit.py:109-113): the first visible row after
      scrolling just enough to show the cursor row `y`. */
  function Reconcile(viewY: int, y: int, rows: int): (v: int)
    ensures v <= y < v + BodyHeight(rows)
    ensures viewY <= y < viewY + BodyHeight(rows) ==> v == viewY
    ensures 1 <= 1 + (y - v) <= BodyHeight(rows)
    ensures 0 <= viewY && 0 <= y ==> 0 <= v
    ensures y < viewY ==> v == y
    ensures y >= viewY + BodyHeight(rows) ==> v == y - BodyHeight(rows) + 1
  {
    var h := BodyHeight(rows);
    if y < viewY then y
    else if y >= viewY + h then y - h + 1
    else viewY
  }

  /** Reconciling twice is reconciling once. */
  lemma ReconcileIdempotent(viewY: int, y: int, rows: int)
    ensures Reconcile(Reconcile(viewY, y, rows), y, rows) == Reconcile(viewY, y, rows)
  {
  }
}
