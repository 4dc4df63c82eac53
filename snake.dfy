/** The snake game of game_Pack.py (`snake.main`, lines 120-200) without the
    window: the direction rule, the one-cell move, the crash test, growing and
    shrinking, and where new food may go. The random food cells are an input: a
    sequence of candidate cells, tried in order. */
module Snake {
  import opened Curses

  /** A screen cell, `[row, column]` in the source. */
  datatype Cell = Cell(row: int, col: int)

  datatype Dir = Up | Down | Left | Right

  /** `opposite_directions` (game_Pack.py:122-127). */
  function Opposite(d: Dir): (r: Dir)
    ensures r != d
  {
    match d
    case Up => Down
    case Down => Up
    case Left => Right
    case Right => Left
  }

  lemma OppositeTwice(d: Dir)
    ensures Opposite(Opposite(d)) == d
  {
  }

  /** The arrow key a direction is read from. */
  function KeyOf(d: Dir): int {
    match d
    case Up => KeyUp
    case Down => KeyDown
    case Left => KeyLeft
    case Right => KeyRight
  }

  predicate IsArrow(key: int) {
    key == KeyUp || key == KeyDown || key == KeyLeft || key == KeyRight
  }

  function DirOf(key: int): (d: Dir)
    requires IsArrow(key)
    ensures KeyOf(d) == key
  {
    if key == KeyUp then Up
    else if key == KeyDown then Down
    else if key == KeyLeft then Left
    else Right
  }

  /** game_Pack.py:160-162: an arrow key sets the direction unless it points back
      the way the snake is going; any other key leaves it alone. */
  function Turn(d: Dir, key: int): (r: Dir)
    ensures r != Opposite(d)
    ensures IsArrow(key) && DirOf(key) != Opposite(d) ==> r == DirOf(key)
    ensures !IsArrow(key) || DirOf(key) == Opposite(d) ==> r == d
  {
    if IsArrow(key) && DirOf(key) != Opposite(d) then DirOf(key) else d
  }

  /** The cell one step from `c` (game_Pack.py:164-174); rows grow downwards. */
  function Next(c: Cell, d: Dir): (r: Cell)
    ensures (r.row - c.row) * (r.row - c.row) + (r.col - c.col) * (r.col - c.col) == 1
    ensures d == Up ==> r.row < c.row
    ensures d == Down ==> r.row > c.row
    ensures d == Left ==> r.col < c.col
    ensures d == Right ==> r.col > c.col
  {
    match d
    case Up => Cell(c.row - 1, c.col)
    case Down => Cell(c.row + 1, c.col)
    case Left => Cell(c.row, c.col - 1)
    case Right => Cell(c.row, c.col + 1)
  }

  /** Moving one way and then back returns to the same cell. */
  lemma NextOpposite(c: Cell, d: Dir)
    ensures Next(Next(c, d), Opposite(d)) == c
  {
  }

  /** Inside the border: rows 1..sh-2, columns 1..sw-2. */
  predicate InField(c: Cell, sh: int, sw: int) {
    1 <= c.row < sh - 1 && 1 <= c.col < sw - 1
  }

  /** game_Pack.py:176-178: the new head hits the body (the tail included, before
      it moves) or the border. */
  predicate Crashes(head: Cell, body: seq<Cell>, sh: int, sw: int): (r: bool)
    ensures r <==> head in body || !InField(head, sh, sw)
  {
    head in body || head.row < 1 || head.row >= sh - 1 || head.col < 1 || head.col >= sw - 1
  }

  /** No cell occurs twice. */
  predicate Distinct(body: seq<Cell>) {
    forall i, j :: 0 <= i < j < |body| ==> body[i] != body[j]
  }

  /** Index of the first candidate cell not on the snake (game_Pack.py:191-193);
      `|draws|` when every candidate is taken. */
  function FreeIndex(draws: seq<Cell>, body: seq<Cell>): (k: nat)
    ensures k <= |draws|
    ensures forall j :: 0 <= j < k ==> draws[j] in body
    ensures k < |draws| ==> draws[k] !in body
  {
    if draws == [] || draws[0] !in body then 0 else 1 + FreeIndex(draws[1..], body)
  }

  /** The food placement loop: try candidates until one is off the snake. */
  method FirstFree(draws: seq<Cell>, body: seq<Cell>) returns (k: nat)
    ensures k <= |draws|
    ensures forall j :: 0 <= j < k ==> draws[j] in body
    ensures k < |draws| ==> draws[k] !in body
    ensures k == FreeIndex(draws, body)
  {
    k := 0;
    while k < |draws| && draws[k] in body
      invariant k <= |draws|
      invariant forall j :: 0 <= j < k ==> draws[j] in body
      invariant FreeIndex(draws, body) == k + FreeIndex(draws[k..], body)
    {
      assert draws[k..][1..] == draws[k + 1..];
      k := k + 1;
    }
  }

  /** The game state kept across the loop. */
  datatype GameState = GameState(body: seq<Cell>, dir: Dir, score: nat, food: Cell)

  /** A playable state: the snake is non-empty, has no repeated cell and lies in the
      field, and the food is in the field and off the snake. */
  predicate ValidGame(g: GameState, sh: int, sw: int) {
    |g.body| >= 1 && Distinct(g.body)
    && (forall k :: 0 <= k < |g.body| ==> InField(g.body[k], sh, sw))
    && InField(g.food, sh, sw) && g.food !in g.body
  }

  /** What one pass of the loop ends in. `Stalled` stands for the candidate cells
      running out before a free one comes up, where the source keeps drawing. */
  datatype Outcome = Running | Exited | GameOver | Stalled

  const PauseKey: int := 122  // ord('z')
  const ExitKey: int := 120   // ord('x')

  /** The snake after moving into `head`: it grows when it eats, otherwise the tail
      cell is dropped. */
  function Moved(body: seq<Cell>, head: Cell, eats: bool): (r: seq<Cell>)
    requires |body| >= 1
    ensures |r| == if eats then |body| + 1 else |body|
    ensures r[0] == head
    ensures eats ==> r[1..] == body
    ensures !eats ==> r[1..] == body[..|body| - 1]
  {
    if eats then [head] + body else [head] + body[..|body| - 1]
  }

  /** One pass of the loop (game_Pack.py:142-200) for key `key`. `draws` are the
      food candidates available; the result also says how many were used. */
  function StepGame(g: GameState, key: int, draws: seq<Cell>, sh: int, sw: int): (r: (GameState, Outcome, nat))
    requires |g.body| >= 1
    ensures r.2 <= |draws|
    ensures key == ExitKey ==> r == (g, Exited, 0)
    ensures r.1 == GameOver <==> key != ExitKey && Crashes(Next(g.body[0], Turn(g.dir, key)), g.body, sh, sw)
    ensures r.1 == GameOver ==> r.0.body == g.body && r.0.score == g.score && r.2 == 0
    ensures r.1 == Running ==> |r.0.body| >= 1
    ensures r.1 == Running ==>
      r.0.dir == Turn(g.dir, key) && r.0.body[0] == Next(g.body[0], r.0.dir)
    ensures r.1 == Running && r.0.body[0] == g.food ==>
      r.0.body == [g.food] + g.body && r.0.score == g.score + 1
      && r.2 >= 1 && r.0.food == draws[r.2 - 1] && r.0.food !in r.0.body
    ensures r.1 == Running && r.0.body[0] != g.food ==>
      r.0.body == [r.0.body[0]] + g.body[..|g.body| - 1] && r.0.score == g.score && r.0.food == g.food
    ensures r.1 == Exited <==> key == ExitKey
    ensures r.1 == Stalled <==>
      key != ExitKey && !Crashes(Next(g.body[0], Turn(g.dir, key)), g.body, sh, sw)
      && Next(g.body[0], Turn(g.dir, key)) == g.food && FreeIndex(draws, [g.food] + g.body) == |draws|
    ensures r.1 == Stalled ==>
      r.0.body == [g.food] + g.body && r.0.score == g.score + 1 && r.2 == |draws|
      && forall c :: c in draws ==> c in r.0.body
    ensures r.1 == Running && r.0.body[0] == g.food ==> r.2 == FreeIndex(draws, r.0.body) + 1
    ensures r.1 != Running && r.1 != Exited ==> r.0.dir == Turn(g.dir, key) && r.0.food == g.food
  {
    if key == ExitKey then (g, Exited, 0)
    else
      var dir := Turn(g.dir, key);  // 'z' is no arrow: the pause keeps the direction
      var head := Next(g.body[0], dir);
      if Crashes(head, g.body, sh, sw) then (g.(dir := dir), GameOver, 0)
      else if head == g.food then
        var body := Moved(g.body, head, true);
        var k := FreeIndex(draws, body);
        if k == |draws| then (g.(body := body, dir := dir, score := g.score + 1), Stalled, k)
        else (GameState(body, dir, g.score + 1, draws[k]), Running, k + 1)
      else
        (g.(body := Moved(g.body, head, false), dir := dir), Running, 0)
  }

  /** A pass that keeps the game running keeps it playable, provided the food
      candidates lie in the field as `randint(1, sh-2), randint(1, sw-2)` does. */
  lemma {:induction false} StepKeepsValid(g: GameState, key: int, draws: seq<Cell>, sh: int, sw: int)
    requires ValidGame(g, sh, sw)
    requires forall k :: 0 <= k < |draws| ==> InField(draws[k], sh, sw)
    ensures var r := StepGame(g, key, draws, sh, sw);
      r.1 == Running ==> ValidGame(r.0, sh, sw)
  {
    var r := StepGame(g, key, draws, sh, sw);
    if r.1 == Running {
      var head := r.0.body[0];
      assert head !in g.body && InField(head, sh, sw);
      var rest := r.0.body[1..];
      assert forall k :: 0 <= k < |rest| ==> rest[k] in g.body;
      assert r.0.body == [head] + rest;
      assert Distinct(rest) by {
        forall i, j | 0 <= i < j < |rest| ensures rest[i] != rest[j] {
          if head == g.food {
            assert rest[i] == g.body[i] && rest[j] == g.body[j];
          } else {
            assert rest[i] == g.body[i] && rest[j] == g.body[j];
          }
        }
      }
      forall k | 0 <= k < |r.0.body| ensures InField(r.0.body[k], sh, sw) {
        if k > 0 {
          assert r.0.body[k] == rest[k - 1];
        }
      }
      if head != g.food {
        assert g.food !in rest;
      }
    }
  }

  /** Passes of the loop for a run of keys, drawing food candidates from `draws`
      in order, until the game stops or the keys run out. */
  function PlayGame(g: GameState, keys: seq<int>, draws: seq<Cell>, sh: int, sw: int): (r: (GameState, Outcome))
    requires |g.body| >= 1
    ensures keys == [] ==> r == (g, Running)
    ensures r.1 == Running ==> |r.0.body| >= 1
    decreases |keys|
  {
    if keys == [] then (g, Running)
    else
      var step := StepGame(g, keys[0], draws, sh, sw);
      if step.1 != Running then (step.0, step.1)
      else PlayGame(step.0, keys[1..], draws[step.2..], sh, sw)
  }

  /** A pass that keeps the game running hands the rest of the keys, and the food
      candidates it did not use, to the next pass. */
  lemma PlayRunning(g: GameState, keys: seq<int>, draws: seq<Cell>, sh: int, sw: int, next: GameState, used: nat)
    requires |g.body| >= 1 && keys != []
    requires StepGame(g, keys[0], draws, sh, sw) == (next, Running, used)
    ensures |next.body| >= 1 && used <= |draws|
    ensures PlayGame(g, keys, draws, sh, sw) == PlayGame(next, keys[1..], draws[used..], sh, sw)
  {
  }

  /** A pass that stops the game ends the run there. */
  lemma PlayStops(g: GameState, keys: seq<int>, draws: seq<Cell>, sh: int, sw: int,
                  next: GameState, outcome: Outcome, used: nat)
    requires |g.body| >= 1 && keys != [] && outcome != Running
    requires StepGame(g, keys[0], draws, sh, sw) == (next, outcome, used)
    ensures PlayGame(g, keys, draws, sh, sw) == (next, outcome)
  {
  }

  /** A game that starts playable stays playable for as long as it runs. */
  lemma {:induction false} PlayKeepsValid(g: GameState, keys: seq<int>, draws: seq<Cell>, sh: int, sw: int)
    requires ValidGame(g, sh, sw)
    requires forall k :: 0 <= k < |draws| ==> InField(draws[k], sh, sw)
    ensures PlayGame(g, keys, draws, sh, sw).1 == Running ==> ValidGame(PlayGame(g, keys, draws, sh, sw).0, sh, sw)
    decreases |keys|
  {
    if keys != [] {
      var step := StepGame(g, keys[0], draws, sh, sw);
      StepKeepsValid(g, keys[0], draws, sh, sw);
      if step.1 == Running {
        var rest := draws[step.2..];
        assert forall k :: 0 <= k < |rest| ==> rest[k] == draws[step.2 + k];
        PlayKeepsValid(step.0, keys[1..], rest, sh, sw);
      }
    }
  }

  /** The starting state of game_Pack.py:134-140 for a window of the given size. */
  function Start(rows: int, cols: int): (g: GameState)
    ensures |g.body| == 3 && g.dir == Right && g.score == 0
    ensures forall k :: 1 <= k < 3 ==> Next(g.body[k], Right) == g.body[k - 1]
    ensures g.body[0] == Cell(rows / 2, cols / 4) && g.food == Cell(rows / 2, cols / 2)
  {
    GameState([Cell(rows / 2, cols / 4), Cell(rows / 2, cols / 4 - 1), Cell(rows / 2, cols / 4 - 2)],
              Right, 0, Cell(rows / 2, cols / 2))
  }

  /** The start is playable exactly when the window has at least 3 rows and 12
      columns: fewer rows put the snake on the border, fewer columns its tail. */
  lemma StartValid(rows: nat, cols: nat)
    ensures ValidGame(Start(rows, cols), rows, cols) <==> rows >= 3 && cols >= 12
  {
    var g := Start(rows, cols);
    var r, c := rows / 2, cols / 4;
    if rows >= 3 && cols >= 12 {
      assert 1 <= r < rows - 1;
      assert 3 <= c && c < cols / 2 < cols - 1;
      assert Distinct(g.body);
      assert forall k :: 0 <= k < |g.body| ==> InField(g.body[k], rows, cols);
    } else if rows < 3 {
      assert !InField(g.body[0], rows, cols);
    } else {
      assert c - 2 < 1;
      assert !InField(g.body[2], rows, cols);
    }
  }

  /** The window size and the state of one game. */
  class Game {
    const sh: int
    const sw: int
    var body: seq<Cell>
    var dir: Dir
    var score: nat
    var food: Cell

    ghost function State(): GameState
      reads this
    {
      GameState(body, dir, score, food)
    }

    /** game_Pack.py:130-140: a three-cell snake heading right in the middle row,
        food in the middle of the screen. That start is playable exactly when the
        window has at least 3 rows and 12 columns. */
    constructor (rows: nat, cols: nat)
      ensures sh == rows && sw == cols
      ensures State() == Start(rows, cols)
      ensures ValidGame(State(), sh, sw) <==> rows >= 3 && cols >= 12
    {
      sh, sw := rows, cols;
      body := [Cell(rows / 2, cols / 4), Cell(rows / 2, cols / 4 - 1), Cell(rows / 2, cols / 4 - 2)];
      food := Cell(rows / 2, cols / 2);
      dir := Right;
      score := 0;
      new;
      StartValid(rows, cols);
    }

    /** One pass of the loop, updating the snake in place. Returns how the pass
        ended and how many food candidates it used. */
    method Step(key: int, draws: seq<Cell>) returns (outcome: Outcome, used: nat)
      requires |body| >= 1
      modifies this
      ensures (State(), outcome, used) == StepGame(old(State()), key, draws, sh, sw)
    {
      used := 0;
      if key == ExitKey {
        return Exited, 0;
      }
      if IsArrow(key) && DirOf(key) != Opposite(dir) {
        dir := DirOf(key);
      }
      var head := Next(body[0], dir);
      if Crashes(head, body, sh, sw) {
        return GameOver, 0;
      }
      body := [head] + body;
      if head == food {
        score := score + 1;
        var k := FirstFree(draws, body);
        if k == |draws| {
          return Stalled, k;
        }
        food := draws[k];
        used := k + 1;
      } else {
        assert ([head] + old(body))[..|old(body)|] == [head] + old(body)[..|old(body)| - 1];
        body := body[..|body| - 1];
      }
      outcome := Running;
    }

    /** One pass of the loop on the first of `keys`, stated as what it leaves of
        the run of passes. */
    method Pass(keys: seq<int>, draws: seq<Cell>) returns (outcome: Outcome, used: nat)
      requires |body| >= 1 && keys != []
      modifies this
      ensures outcome != Running ==> (State(), outcome) == PlayGame(old(State()), keys, draws, sh, sw)
      ensures outcome == Running ==> |body| >= 1 && used <= |draws|
      ensures outcome == Running ==>
        PlayGame(old(State()), keys, draws, sh, sw) == PlayGame(State(), keys[1..], draws[used..], sh, sw)
    {
      ghost var before := State();
      outcome, used := Step(keys[0], draws);
      if outcome != Running {
        PlayStops(before, keys, draws, sh, sw, State(), outcome, used);
      } else {
        PlayRunning(before, keys, draws, sh, sw, State(), used);
      }
    }

    /** The `while True` loop over a run of keys; returns how it ended and the
        score the game reports. */
    method Play(keys: seq<int>, draws: seq<Cell>) returns (outcome: Outcome, finalScore: nat)
      requires |body| >= 1
      modifies this
      ensures (State(), outcome) == PlayGame(old(State()), keys, draws, sh, sw)
      ensures finalScore == score
    {
      ghost var start := State();
      var pending, candidates := keys, draws;
      outcome := Running;
      while pending != []
        invariant |body| >= 1 && outcome == Running
        invariant PlayGame(start, keys, draws, sh, sw) == PlayGame(State(), pending, candidates, sh, sw)
        decreases |pending|
      {
        var used;
        outcome, used := Pass(pending, candidates);
        if outcome != Running {
          finalScore := score;
          return;
        }
        pending, candidates := pending[1..], candidates[used..];
      }
      finalScore := score;
    }
  }
}
