/** The screen editor `Editor` of sedit.py with the terminal taken out: the key
    dispatch of `handle_key`, the viewport and body rows of `draw`, saving, the
    run hand-off's effect on the state, and the two-step Ctrl-Q confirmation of
    `run`. The terminal height and width are parameters; the keys the terminal
    would deliver are a sequence; what the file system and the interpreter do is
    an `Env`. */
module Sedit {
  import opened Opt
  import opened Document
  import TextFile
  import Highlight
  import opened Curses
  import opened Seqs

  const CtrlS: int := 19
  const CtrlQ: int := 17
  const CtrlR: int := 18

  /** Columns reserved for the line numbers left of the text (sedit.py:116). */
  const GutterWidth: int := 6

  const ConfirmText: string := "Unsaved changes - press Ctrl-Q again to quit without saving"
  const AbortText: string := "Quit aborted"
  const MissingInterpreterText: string := "sbesic.py not found in project root"
  const RunFinishedText: string := "Run finished"

  /** `chr(key).isprintable()` for a key in 0..255: the ASCII graphic characters and
      space, and the Latin-1 characters from 0xA1 except the soft hyphen 0xAD. */
  predicate IsPrintable(key: int) {
    (32 <= key <= 126) || (161 <= key <= 255 && key != 173)
  }

  /** What a key does in the normal state, in the order `handle_key` tests it. */
  datatype Action =
    | Save | QuitKey | RunKey | Go(nav: Nav)
    | DeleteForward | DeleteBack | Enter | Insert(c: char) | Ignore

  function Classify(key: int): (a: Action)
    ensures a.Insert? <==> 0 <= key <= 255 && IsPrintable(key)
    ensures a.Insert? ==> a.c as int == key
    ensures a.QuitKey? <==> key == CtrlQ
    ensures a.Ignore? <==>
      key !in {CtrlS, CtrlQ, CtrlR, KeyLeft, KeyRight, KeyUp, KeyDown, KeyNPage, KeyPPage,
               KeyHome, KeyEnd, KeyDc, KeyBackspace, 127, 8, 10, 13}
      && !(0 <= key <= 255 && IsPrintable(key))
  {
    if key == CtrlS then Save
    else if key == CtrlQ then QuitKey
    else if key == CtrlR then RunKey
    else if key == KeyLeft then Go(Left)
    else if key == KeyRight then Go(Right)
    else if key == KeyUp then Go(Up)
    else if key == KeyDown then Go(Down)
    else if key == KeyNPage then Go(PageDown)
    else if key == KeyPPage then Go(PageUp)
    else if key == KeyHome then Go(Home)
    else if key == KeyEnd then Go(End)
    else if key == KeyDc then DeleteForward
    else if key == KeyBackspace || key == 127 || key == 8 then DeleteBack
    else if key == 10 || key == 13 then Enter
    else if 0 <= key <= 255 && IsPrintable(key) then Insert(key as char)
    else Ignore
  }

  /** The index into `lines` that the handler for `a` reads first, as written in
      sedit.py:208-293, or `None` when it reads no line. A valid document always
      has that line. */
  function LineRead(a: Action, d: Doc, rows: nat): (r: Option<int>)
    ensures Document.Valid(d) && r.Some? ==> 0 <= r.value < |d.lines|
    ensures a.Insert? || a.Enter? || a.DeleteForward? || a == Go(Right) || a == Go(End) ==> r == Some(d.y)
  {
    match a
    case Go(Left) => if d.x > 0 || d.y <= 0 then None else Some(d.y - 1)
    case Go(Right) => Some(d.y)
    case Go(Up) => if d.y > 0 then Some(d.y - 1) else None
    case Go(Down) => if d.y < |d.lines| - 1 then Some(d.y + 1) else None
    case Go(PageDown) => Some(Min(|d.lines| - 1, d.y + rows / 2))
    case Go(PageUp) => Some(Max(0, d.y - rows / 2))
    case Go(Home) => None
    case Go(End) => Some(d.y)
    case DeleteForward => Some(d.y)
    case DeleteBack => if d.x > 0 then Some(d.y) else if d.y > 0 then Some(d.y - 1) else None
    case Enter => Some(d.y)
    case Insert(_) => Some(d.y)
    case Save => None
    case QuitKey => None
    case RunKey => None
    case Ignore => None
  }

  /** The key raises an uncaught `IndexError`: the line it reads is not there, even
      with Python's negative indices counting from the end. */
  predicate KeyFails(d: Doc, key: int, rows: nat) {
    var i := LineRead(Classify(key), d, rows);
    i.Some? && !(-|d.lines| <= i.value < |d.lines|)
  }

  /** As written, an existing empty file loads with no lines, and then Right, End,
      PageDown, PageUp, Delete, Enter and every printable key fail; the other keys
      work. */
  lemma EmptyFileKeys(key: int, rows: nat)
    ensures var d := Doc(TextFile.Load(Some("")), 0, 0, false);
      KeyFails(d, key, rows) <==>
        Classify(key).Insert? || Classify(key).Enter? || Classify(key).DeleteForward?
        || Classify(key) in {Go(Right), Go(End), Go(PageDown), Go(PageUp)}
  {
    TextFile.LoadEmptyFile();
  }

  /** What the outside world answers: whether writing the file fails and with what
      text, whether the interpreter script exists, and whether launching it fails. */
  datatype Env = Env(saveError: Option<string>, interpreterFound: bool, runError: Option<string>)

  /** The editor's fields other than the terminal handle. */
  datatype EditorState = EditorState(filename: string, doc: Doc, viewY: int, message: string)

  predicate ValidState(s: EditorState) {
    Document.Valid(s.doc) && s.viewY >= 0
  }

  /** `save_file` (sedit.py:62-69): a successful write clears `modified`; a failed
      one only reports. The text never changes. */
  function AfterSave(s: EditorState, error: Option<string>): (r: EditorState)
    ensures r.doc == s.doc.(modified := s.doc.modified && error.Some?)
    ensures r.filename == s.filename && r.viewY == s.viewY
    ensures error.None? ==> r.message == "Saved " + s.filename
    ensures error.Some? ==> r.message == "Save error: " + error.value
  {
    match error
    case None => s.(doc := s.doc.(modified := false), message := "Saved " + s.filename)
    case Some(e) => s.(message := "Save error: " + e)
  }

  /** The state effect of `run_file` (sedit.py:74-89): without the interpreter only a
      message; otherwise an unsaved document is saved first, and the message tells
      whether the run could be launched. */
  function AfterRun(s: EditorState, env: Env): (r: EditorState)
    ensures r.doc.lines == s.doc.lines && r.doc.y == s.doc.y && r.doc.x == s.doc.x
    ensures r.filename == s.filename && r.viewY == s.viewY
    ensures !env.interpreterFound ==> r == s.(message := MissingInterpreterText)
    ensures env.interpreterFound ==> r.doc.modified == (s.doc.modified && env.saveError.Some?)
    ensures env.interpreterFound && env.runError.None? ==> r.message == RunFinishedText
    ensures env.interpreterFound && env.runError.Some? ==> r.message == "Run error: " + env.runError.value
  {
    if !env.interpreterFound then s.(message := MissingInterpreterText)
    else
      var saved := if s.doc.modified then AfterSave(s, env.saveError) else s;
      match env.runError
      case None => saved.(message := RunFinishedText)
      case Some(e) => saved.(message := "Run error: " + e)
  }

  /** What `handle_key` reports back to the loop. */
  datatype KeyResult = Continue | ConfirmQuit | Quit

  /** One key in the normal state (sedit.py:250-303). */
  function OnKey(s: EditorState, key: int, rows: nat, env: Env): (r: (EditorState, KeyResult))
    requires ValidState(s)
    ensures ValidState(r.0) && r.0.viewY == s.viewY && r.0.filename == s.filename
    ensures r.1 == Quit <==> key == CtrlQ && !s.doc.modified
    ensures r.1 == ConfirmQuit <==> key == CtrlQ && s.doc.modified
    ensures r.1 == ConfirmQuit ==> r.0 == s.(message := ConfirmText)
    ensures r.1 == Quit ==> r.0 == s
    ensures Classify(key).Ignore? ==> r == (s, Continue)
    ensures Classify(key).Save? ==> r == (AfterSave(s, env.saveError), Continue)
    ensures Classify(key).RunKey? ==> r == (AfterRun(s, env), Continue)
    ensures Classify(key).Go? ==> r == (s.(doc := Move(s.doc, Classify(key).nav, rows)), Continue)
    ensures Classify(key).DeleteForward? ==> r == (s.(doc := DeleteChar(s.doc)), Continue)
    ensures Classify(key).DeleteBack? ==> r == (s.(doc := Backspace(s.doc)), Continue)
    ensures Classify(key).Enter? ==> r == (s.(doc := Newline(s.doc)), Continue)
    ensures Classify(key).Insert? ==> r == (s.(doc := Document.InsertChar(s.doc, [Classify(key).c])), Continue)
    ensures Classify(key).Go? ==> r.0.doc.lines == s.doc.lines && r.0.doc.modified == s.doc.modified
    ensures r.0.doc.lines != s.doc.lines ==> r.0.doc.modified
  {
    match Classify(key)
    case Save => (AfterSave(s, env.saveError), Continue)
    case QuitKey => if s.doc.modified then (s.(message := ConfirmText), ConfirmQuit) else (s, Quit)
    case RunKey => (AfterRun(s, env), Continue)
    case Go(nav) => (s.(doc := Move(s.doc, nav, rows)), Continue)
    case DeleteForward => (s.(doc := DeleteChar(s.doc)), Continue)
    case DeleteBack => (s.(doc := Backspace(s.doc)), Continue)
    case Enter => (s.(doc := Newline(s.doc)), Continue)
    case Insert(c) => (s.(doc := Document.InsertChar(s.doc, [c])), Continue)
    case Ignore => (s, Continue)
  }

  /** Where the session loop of `run` stands between two keys. */
  datatype Phase = Editing | Confirming | Ended

  /** One key through the loop of `run` (sedit.py:305-319). While editing, the frame
      is drawn (the viewport reconciled) before the key is handled; while
      confirming, the key is read with no frame drawn and is never applied to the
      document. */
  function Feed(s: EditorState, phase: Phase, key: int, rows: nat, env: Env): (r: (EditorState, Phase))
    requires ValidState(s)
    ensures ValidState(r.0)
    ensures phase == Ended ==> r == (s, Ended)
    ensures phase == Editing && key == CtrlQ && !s.doc.modified ==> r.1 == Ended
    ensures phase == Editing && key == CtrlQ && s.doc.modified ==>
      r.1 == Confirming && r.0.doc == s.doc && r.0.message == ConfirmText
    ensures phase == Editing && key != CtrlQ ==> r.1 == Editing
    ensures phase == Editing ==>
      r.0 == OnKey(s.(viewY := Reconcile(s.viewY, s.doc.y, rows)), key, rows, env).0
    ensures phase == Confirming && key == CtrlQ ==> r == (s, Ended)
    ensures phase == Confirming && key != CtrlQ ==> r == (s.(message := AbortText), Editing)
  {
    match phase
    case Ended => (s, Ended)
    case Confirming =>
      if key == CtrlQ then (s, Ended) else (s.(message := AbortText), Editing)
    case Editing =>
      var drawn := s.(viewY := Reconcile(s.viewY, s.doc.y, rows));
      var (t, res) := OnKey(drawn, key, rows, env);
      (t, if res == Quit then Ended else if res == ConfirmQuit then Confirming else Editing)
  }

  /** A whole sequence of keys through the loop; keys after the end are not read. */
  function Drive(s: EditorState, phase: Phase, keys: seq<int>, rows: nat, env: Env): (r: (EditorState, Phase))
    requires ValidState(s)
    ensures ValidState(r.0)
    decreases |keys|
  {
    if keys == [] || phase == Ended then (s, phase)
    else
      var (t, p) := Feed(s, phase, keys[0], rows, env);
      Drive(t, p, keys[1..], rows, env)
  }

  /** Ctrl-Q on a document with unsaved changes, then any other key: the session
      goes on with the document untouched and "Quit aborted" showing. */
  lemma QuitAborted(s: EditorState, k: int, rest: seq<int>, rows: nat, env: Env)
    requires ValidState(s) && s.doc.modified && k != CtrlQ
    ensures Drive(s, Editing, [CtrlQ, k] + rest, rows, env)
         == Drive(s.(viewY := Reconcile(s.viewY, s.doc.y, rows), message := AbortText), Editing, rest, rows, env)
  {
    var keys := [CtrlQ, k] + rest;
    assert keys[1..] == [k] + rest;
    assert ([k] + rest)[1..] == rest;
  }

  /** Ctrl-Q twice ends a session with unsaved changes; once ends a saved one. */
  lemma QuitKeys(s: EditorState, rest: seq<int>, rows: nat, env: Env)
    requires ValidState(s)
    ensures s.doc.modified ==> Drive(s, Editing, [CtrlQ, CtrlQ] + rest, rows, env).1 == Ended
    ensures !s.doc.modified ==> Drive(s, Editing, [CtrlQ] + rest, rows, env).1 == Ended
  {
    var keys := [CtrlQ, CtrlQ] + rest;
    assert keys[1..] == [CtrlQ] + rest;
    assert ([CtrlQ] + rest)[1..] == rest;
    if s.doc.modified {
      var (t, p) := Feed(s, Editing, CtrlQ, rows, env);
      assert p == Confirming;
      assert Drive(s, Editing, keys, rows, env) == Drive(t, Confirming, [CtrlQ] + rest, rows, env);
      assert Drive(t, Confirming, [CtrlQ] + rest, rows, env) == Drive(t, Ended, rest, rows, env);
    }
  }

  /** Once the session has ended, no further key changes anything. */
  lemma {:induction false} EndedIsFinal(s: EditorState, keys: seq<int>, rows: nat, env: Env)
    requires ValidState(s)
    ensures Drive(s, Ended, keys, rows, env) == (s, Ended)
  {
  }

  /** Reading keys one at a time or all at once leads to the same place. */
  lemma {:induction false} DriveAppend(s: EditorState, phase: Phase, a: seq<int>, b: seq<int>, rows: nat, env: Env)
    requires ValidState(s)
    ensures Drive(s, phase, a + b, rows, env)
         == (var m := Drive(s, phase, a, rows, env); Drive(m.0, m.1, b, rows, env))
    decreases |a|
  {
    if a == [] {
      assert a + b == b;
    } else if phase != Ended {
      var (t, p) := Feed(s, phase, a[0], rows, env);
      assert (a + b)[0] == a[0];
      assert (a + b)[1..] == a[1..] + b;
      DriveAppend(t, p, a[1..], b, rows, env);
    } else {
      EndedIsFinal(s, b, rows, env);
    }
  }

  /** One drawn body row: its screen row, the 1-based line number in the gutter,
      and the document text shown there. */
  datatype BodyLine = BodyLine(screenRow: int, number: int, text: string)

  /** Body row `k` (from 0) of a frame whose top document line is `viewY`. */
  function RowAt(lines: seq<string>, viewY: nat, k: nat): (r: BodyLine)
    requires viewY + k < |lines|
    ensures r.screenRow == k + 1 && r.number == viewY + r.screenRow
    ensures 1 <= r.number <= |lines| && r.text == lines[r.number - 1]
  {
    BodyLine(k + 1, viewY + k + 1, lines[viewY + k])
  }

  /** The first `n` body rows of a frame whose top document line is `viewY`; rows
      past the end of the document stay empty. */
  function Frame(lines: seq<string>, viewY: nat, n: nat): (r: seq<BodyLine>)
    ensures forall k :: 0 <= k < |r| ==> 1 <= r[k].screenRow <= n && r[k].number == viewY + r[k].screenRow
    ensures forall k :: 0 <= k < |r| ==> 1 <= r[k].number <= |lines| && r[k].text == lines[r[k].number - 1]
  {
    if n == 0 then []
    else if viewY + n - 1 < |lines| then Frame(lines, viewY, n - 1) + [RowAt(lines, viewY, n - 1)]
    else Frame(lines, viewY, n - 1)
  }

  /** A frame shows the document lines from `viewY` on, one per screen row from
      row 1, as many as fit. */
  lemma {:induction false} FrameShape(lines: seq<string>, viewY: nat, n: nat)
    ensures |Frame(lines, viewY, n)| == (if viewY + n <= |lines| then n else if viewY <= |lines| then |lines| - viewY else 0)
    ensures forall k :: 0 <= k < |Frame(lines, viewY, n)| ==>
      viewY + k < |lines| && Frame(lines, viewY, n)[k] == RowAt(lines, viewY, k)
    decreases n
  {
    if n > 0 {
      FrameShape(lines, viewY, n - 1);
    }
  }

  /** Spans drawn row by row stay in step with the frame when one more row is drawn. */
  lemma DrawnSnoc(frame: seq<BodyLine>, spans: seq<seq<Highlight.Span>>, row: BodyLine,
                  rowSpans: seq<Highlight.Span>, w: int)
    requires |spans| == |frame|
    requires forall k :: 0 <= k < |spans| ==> spans[k] == Highlight.Drawn(frame[k].text, w)
    requires rowSpans == Highlight.Drawn(row.text, w)
    ensures |spans + [rowSpans]| == |frame + [row]|
    ensures forall k :: 0 <= k < |spans| + 1 ==>
      (spans + [rowSpans])[k] == Highlight.Drawn((frame + [row])[k].text, w)
  {
    Snoc(spans, rowSpans);
    Snoc(frame, row);
  }

  /** The body loop of `draw` (sedit.py:115-139): each screen row below the header
      shows the next document line, highlighted up to the right edge. */
  method DrawBody(lines: seq<string>, viewY: nat, height: nat, cols: int)
      returns (frame: seq<BodyLine>, spans: seq<seq<Highlight.Span>>)
    ensures frame == Frame(lines, viewY, height)
    ensures |spans| == |frame|
    ensures forall k :: 0 <= k < |spans| ==> spans[k] == Highlight.Drawn(frame[k].text, cols - GutterWidth)
  {
    var top := 1;
    frame, spans := [], [];
    var i := 0;
    while i < height
      invariant 0 <= i <= height
      invariant frame == Frame(lines, viewY, i)
      invariant |spans| == |frame|
      invariant forall k :: 0 <= k < |spans| ==> spans[k] == Highlight.Drawn(frame[k].text, cols - GutterWidth)
    {
      var lnNo := viewY + i;
      if lnNo < |lines| {
        var rowSpans := Highlight.DrawSpans(lines[lnNo], cols - GutterWidth);
        var row := BodyLine(top + i, lnNo + 1, lines[lnNo]);
        DrawnSnoc(frame, spans, row, rowSpans, cols - GutterWidth);
        frame := frame + [row];
        spans := spans + [rowSpans];
      }
      i := i + 1;
    }
  }

  class Editor {
    var filename: string
    var lines: seq<string>
    var cursorX: int
    var cursorY: int
    var viewX: int
    var viewY: int
    var modified: bool
    var message: string

    ghost function State(): EditorState
      reads this
    {
      EditorState(filename, Doc(lines, cursorY, cursorX, modified), viewY, message)
    }

    /** The cursor is on the text, the viewport starts on a line, and there is no
        horizontal scrolling. */
    ghost predicate Valid()
      reads this
    {
      ValidState(State()) && viewX == 0
    }

    /** `__init__` and `load_file` (sedit.py:34-60); `content` is `None` when the
        file does not exist. The lines are opened with `TextFile.Open`, so an
        existing empty file gives one empty line, as a missing file does. */
    constructor (name: string, content: Option<string>)
      ensures filename == name && lines == TextFile.Open(content)
      ensures cursorX == 0 && cursorY == 0 && viewX == 0 && viewY == 0
      ensures !modified && message == ""
      ensures Valid()
    {
      filename := name;
      lines := TextFile.Open(content);
      cursorX, cursorY := 0, 0;
      viewX, viewY := 0, 0;
      modified := false;
      message := "";
    }

    method InsertChar(ch: string)
      requires Valid()
      modifies this
      ensures Valid()
      ensures State() == old(State()).(doc := Document.InsertChar(old(State()).doc, ch))
    {
      var line := lines[cursorY];
      lines := lines[cursorY := line[..cursorX] + ch + line[cursorX..]];
      cursorX := cursorX + |ch|;
      modified := true;
    }

    method Newline()
      requires Valid()
      modifies this
      ensures Valid()
      ensures State() == old(State()).(doc := Document.Newline(old(State()).doc))
    {
      var line := lines[cursorY];
      var left := line[..cursorX];
      var right := line[cursorX..];
      lines := lines[cursorY := left];
      lines := lines[..cursorY + 1] + [right] + lines[cursorY + 1..];
      cursorY := cursorY + 1;
      cursorX := 0;
      modified := true;
    }

    method Backspace()
      requires Valid()
      modifies this
      ensures Valid()
      ensures State() == old(State()).(doc := Document.Backspace(old(State()).doc))
    {
      if cursorX > 0 {
        var line := lines[cursorY];
        lines := lines[cursorY := line[..cursorX - 1] + line[cursorX..]];
        cursorX := cursorX - 1;
        modified := true;
      } else if cursorY > 0 {
        var prev := lines[cursorY - 1];
        var cur := lines[cursorY];
        cursorX := |prev|;
        lines := lines[cursorY - 1 := prev + cur];
        lines := lines[..cursorY] + lines[cursorY + 1..];
        cursorY := cursorY - 1;
        modified := true;
      }
    }

    method DeleteChar()
      requires Valid()
      modifies this
      ensures Valid()
      ensures State() == old(State()).(doc := Document.DeleteChar(old(State()).doc))
    {
      var line := lines[cursorY];
      if cursorX < |line| {
        lines := lines[cursorY := line[..cursorX] + line[cursorX + 1..]];
        modified := true;
      } else if cursorY < |lines| - 1 {
        lines := lines[cursorY := line + lines[cursorY + 1]];
        lines := lines[..cursorY + 1] + lines[cursorY + 2..];
        modified := true;
      }
    }

    /** Returns the text handed to the file. */
    method SaveFile(error: Option<string>) returns (written: string)
      requires Valid()
      modifies this
      ensures Valid()
      ensures written == TextFile.Serialize(lines)
      ensures State() == AfterSave(old(State()), error)
    {
      written := TextFile.Serialize(lines);
      match error {
        case None =>
          modified := false;
          message := "Saved " + filename;
        case Some(e) =>
          message := "Save error: " + e;
      }
    }

    method RunFile(env: Env)
      requires Valid()
      modifies this
      ensures Valid()
      ensures State() == AfterRun(old(State()), env)
    {
      if !env.interpreterFound {
        message := MissingInterpreterText;
        return;
      }
      if modified {
        var _ := SaveFile(env.saveError);
      }
      message := "Running... (output in terminal)";
      match env.runError {
        case None => message := RunFinishedText;
        case Some(e) => message := "Run error: " + e;
      }
    }

    /** The cursor branches of `handle_key` (sedit.py:262-289). */
    method MoveCursor(nav: Nav, rows: nat)
      requires Valid()
      modifies this
      ensures Valid()
      ensures State() == old(State()).(doc := Move(old(State()).doc, nav, rows))
    {
      match nav {
        case Left =>
          if cursorX > 0 {
            cursorX := cursorX - 1;
          } else if cursorY > 0 {
            cursorY := cursorY - 1;
            cursorX := |lines[cursorY]|;
          }
        case Right =>
          if cursorX < |lines[cursorY]| {
            cursorX := cursorX + 1;
          } else if cursorY < |lines| - 1 {
            cursorY := cursorY + 1;
            cursorX := 0;
          }
        case Up =>
          if cursorY > 0 {
            cursorY := cursorY - 1;
            cursorX := Min(cursorX, |lines[cursorY]|);
          }
        case Down =>
          if cursorY < |lines| - 1 {
            cursorY := cursorY + 1;
            cursorX := Min(cursorX, |lines[cursorY]|);
          }
        case PageDown =>
          cursorY := Min(|lines| - 1, cursorY + rows / 2);
          cursorX := Min(cursorX, |lines[cursorY]|);
        case PageUp =>
          cursorY := Max(0, cursorY - rows / 2);
          cursorX := Min(cursorX, |lines[cursorY]|);
        case Home =>
          cursorX := 0;
        case End =>
          cursorX := |lines[cursorY]|;
      }
    }

    method HandleKey(key: int, rows: nat, env: Env) returns (res: KeyResult)
      requires Valid()
      modifies this
      ensures Valid()
      ensures (State(), res) == OnKey(old(State()), key, rows, env)
    {
      res := Continue;
      if key == CtrlS {
        var _ := SaveFile(env.saveError);
      } else if key == CtrlQ {
        if modified {
          message := ConfirmText;
          return ConfirmQuit;
        }
        return Quit;
      } else if key == CtrlR {
        RunFile(env);
      } else {
        MoveOrEdit(key, rows, env);
      }
    }

    /** The keys of `handle_key` other than the control keys: cursor movement and
        editing (sedit.py:262-303). */
    method MoveOrEdit(key: int, rows: nat, env: Env)
      requires Valid() && key != CtrlS && key != CtrlQ && key != CtrlR
      modifies this
      ensures Valid()
      ensures (State(), Continue) == OnKey(old(State()), key, rows, env)
    {
      match Classify(key)
      case Go(nav) => MoveCursor(nav, rows);
      case DeleteForward => DeleteChar();
      case DeleteBack => Backspace();
      case Enter => Newline();
      case Insert(c) => InsertChar([c]);
      case Ignore =>
      case Save => assert false;
      case QuitKey => assert false;
      case RunKey => assert false;
    }

    /** The parts of `draw` (sedit.py:91-149) that compute rather than print:
        reconcile the viewport, decompose each visible line, and place the cursor.
        `rows` and `cols` are the terminal size. */
    method Draw(rows: nat, cols: int) returns (frame: seq<BodyLine>, spans: seq<seq<Highlight.Span>>, cursorRow: int, cursorCol: int)
      requires Valid()
      modifies this
      ensures Valid()
      ensures State() == old(State()).(viewY := Reconcile(old(viewY), cursorY, rows))
      ensures frame == Frame(lines, viewY, BodyHeight(rows))
      ensures |spans| == |frame|
      ensures forall k :: 0 <= k < |spans| ==> spans[k] == Highlight.Drawn(frame[k].text, cols - GutterWidth)
      ensures cursorRow == 1 + (cursorY - viewY) && 1 <= cursorRow <= BodyHeight(rows)
      ensures cursorCol == cursorX + GutterWidth
    {
      var top := 1;
      var bottom := rows - 2;
      var height := Max(1, bottom - top + 1);
      if cursorY < viewY {
        viewY := cursorY;
      } else if cursorY >= viewY + height {
        viewY := cursorY - height + 1;
      }
      frame, spans := DrawBody(lines, viewY, height, cols);
      cursorRow := 1 + (cursorY - viewY);
      var cursX := cursorX - viewX + GutterWidth;
      cursorCol := Max(GutterWidth, cursX);
    }

    /** One pass of the loop of `run` in the normal state: draw, then handle `key`. */
    method EditKey(key: int, rows: nat, cols: int, env: Env) returns (phase: Phase)
      requires Valid()
      modifies this
      ensures Valid()
      ensures (State(), phase) == Feed(old(State()), Editing, key, rows, env)
    {
      var _, _, _, _ := Draw(rows, cols);
      var res := HandleKey(key, rows, env);
      phase := if res == Quit then Ended else if res == ConfirmQuit then Confirming else Editing;
    }

    /** The loop of `run`: draw, read a key, handle it; after a confirmation request
        the next key is read at once. Returns where the loop stands when the keys
        run out or the session ends. */
    method Run(keys: seq<int>, rows: nat, cols: int, env: Env) returns (phase: Phase)
      requires Valid()
      modifies this
      ensures Valid()
      ensures (State(), phase) == Drive(old(State()), Editing, keys, rows, env)
    {
      var i := 0;
      phase := Editing;
      while i < |keys| && phase != Ended
        invariant 0 <= i <= |keys|
        invariant Valid()
        invariant Drive(State(), phase, keys[i..], rows, env) == Drive(old(State()), Editing, keys, rows, env)
        decreases |keys| - i
      {
        var key := keys[i];
        assert keys[i..][0] == key && keys[i..][1..] == keys[i + 1..];
        i := i + 1;
        if phase == Editing {
          phase := EditKey(key, rows, cols, env);
        } else if key == CtrlQ {
          phase := Ended;
        } else {
          message := AbortText;
          phase := Editing;
        }
      }
    }
  }
}
