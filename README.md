# SDOS core, modelled in Dafny

SDOS is a small DOS simulator. This project models three of its parts and proves
properties of each:

- **`sedit`, the SBASIC screen editor (sedit.py).**
  - The document and cursor, and the four editing operations.
  - The navigation keys and the key dispatch of `handle_key`.
  - The viewport and body rows that `draw` computes.
  - The highlighting tokenizer of `_draw_line`.
  - Saving, and what a run hand-off does to the editor state.
  - The two-step Ctrl-Q confirmation of the session loop.
  - The on-disk text format that `load_file` reads and `save_file` writes.
- **The command shell (SDOS.py).**
  - How a command line is split into a command and its arguments.
  - The fixed file system.
  - The directory changes of `CD`.
  - The checks and the lookup of `RUN`.
  - The rows of a `DIR` listing.
  - The read–execute loop, which stops at `EXIT` or when a `RUN` lookup crashes.
- **The snake game and its leaderboard (game_Pack.py).**
  - One pass of the game loop: turning, moving, crashing, eating and placing new food.
  - The `name:score` line that `save_score` appends.
  - The tolerant parse of the leaderboard file.
  - Python's stable descending sort of the scores.
  - How many entries the in-game view shows.

Files and modules:

| file | module | contents |
|---|---|---|
| text.dfy | `Text` | Python's string operations on ASCII: `strip`, `upper`, `split()`, `split(c)`, `join`, `rstrip(c)`, the lines a text-mode file yields, and universal-newline translation |
| textfile.dfy | `TextFile` | the editor's file format and its round trips |
| document.dfy | `Document` | the editor's document and cursor as values, the edit and navigation functions, and the viewport rule |
| highlight.dfy | `Highlight` | the span decomposition of `_draw_line` and its drawing loop |
| sedit.dfy | `Sedit` | the class `Editor`, whose methods update the fields in place, proved against the functions `OnKey`, `Feed` and `Drive`, which specify the key dispatch and the session loop |
| dos.dfy | `Dos` | the shell: the file system, `Tokenise`, `ChangeDir`, `RunScript`, `Dispatch`, `Exec`, `Transcript`, and the class `Shell` |
| snake.dfy | `Snake` | the game as functions (`StepGame`, `PlayGame`) and the class `Game`, which updates the snake in place |
| leaderboard.dfy | `Leaderboard` | line format, parsing, reading loop, insertion sort, display |
| curses.dfy, option.dfy, seqs.dfy | `Curses`, `Opt`, `Seqs` | ncurses key codes, `Option`, and generic sequence facts |

The world outside the programs is given as parameters:

- **Terminal size.** `rows`, `cols`, `sh` and `sw`.
- **Keys.** A sequence of key codes stands for the keys the terminal would deliver.
- **File contents.** An `Option<string>`, where `None` is a missing file.
- **The environment.** `Env` gives the result of writing a file and whether the interpreter is present and launches.
- **Random food.** The random food cells are a sequence of candidates.

Where the informal description of the programs and their code disagree, the model follows the code:

- **PageUp and PageDown** move by half the terminal height (`rows // 2`, sedit.py:283-288), not by half the body height.
- **Plain spans.** A character that is neither a letter nor a quote is its own one-character plain span (sedit.py:200-206), not part of a longer run.
- **Empty files.** As written, an existing empty file loads as a document with no lines at all, not as one empty line (sedit.py:56-58), and several keys then fail. The editor opens files with the corrected `TextFile.Open`; see "## Findings".
- **Comment lines.** Any line whose stripped, upper-cased text starts with `REM` is a comment, including `REMOVE x` (sedit.py:154).

## Model

| member | source | states |
|---|---|---|
| Text.Upper | SDOS.py:166 | upper-casing keeps the length and raises each letter independently |
| Text.UpperFixed | SDOS.py:166 | a string without lower-case letters is its own upper-case form |
| Text.Strip | game_Pack.py:29 | the result is the slice between the leading and the trailing whitespace; it is empty exactly when the string is all whitespace |
| Text.NonSpaceStrip | SDOS.py:165 | stripping removes only whitespace: the non-whitespace characters are unchanged |
| Text.Words | SDOS.py:165 | `split()` yields non-empty words without whitespace, and none exactly when the line is blank |
| Text.WordsCover | SDOS.py:165 | the words glued together are exactly the line's non-whitespace characters, in order |
| Text.WordsSkipSpace | SDOS.py:165 | leading whitespace yields no word |
| Text.WordsOfWord | SDOS.py:165 | a non-empty run without whitespace is one word |
| Text.WordsWordThenSpace | SDOS.py:165 | a word ends at the first whitespace: a run followed by whitespace is the first word, and the rest of the line gives the other words |
| Text.WordsOfTwo | SDOS.py:165-167 | `a b` with `a`, `b` free of whitespace strips to itself and splits into exactly `a` and `b` |
| Text.SplitOn | game_Pack.py:29 | `split(c)` yields at least one part and no part contains `c` |
| Text.JoinSplit | SDOS.py:210-212 | joining the parts of a split with the separator restores the string |
| Text.JoinInit | SDOS.py:212 | joining all parts but the last, then the separator and the last part, equals joining them all |
| Text.RStripChar | SDOS.py:210 | `rstrip(c)` returns a prefix that does not end in `c`, and it cuts off only copies of `c` |
| Text.ReadLines | game_Pack.py:26-27 | a file yields non-empty lines, and every line but the last ends in a newline |
| Text.ReadLinesCover | game_Pack.py:26-27 | the lines a file yields, concatenated, are its whole text |
| Text.ReadLinesShape | sedit.py:57-58 | a line holds a newline only as its last character, and only characters of the text |
| Text.ReadLinesAppend | game_Pack.py:14-15 | appending to a text that ends in a newline appends its lines to the lines of the text |
| Text.ReadLinesSingle | sedit.py:57-58 | a non-empty text without a newline is read as one whole line |
| Text.Universal | sedit.py:57 | universal-newline translation leaves no carriage return and never lengthens the text |
| Text.UniversalPlain | sedit.py:57 | a text without carriage returns is read unchanged |
| Text.UniversalCrLf | sedit.py:57 | a `\r\n` pair is read as one newline |
| Text.UniversalLoneCr | sedit.py:57 | a carriage return not followed by a newline is read as a newline |
| Text.UniversalKeeps | sedit.py:57 | every character other than a carriage return is read unchanged |
| TextFile.Load | sedit.py:55-60 | a missing file loads as one empty line; each loaded line is a line of the file less its trailing newlines, so no loaded line holds a newline or carriage return |
| TextFile.SerializeTerminated | sedit.py:65 | joining with newlines plus a final newline ends every line with a newline |
| TextFile.LoadSave | sedit.py:55-69 | loading what was saved returns the same lines, for a non-empty document without line breaks |
| TextFile.SaveLoadIdempotent | sedit.py:55-69 | a document read from disk survives another save and load unchanged |
| TextFile.LoadEmptyFile | sedit.py:56-58 | an existing empty file loads as no lines at all |
| TextFile.Open | sedit.py:55-60 | the editor always starts with at least one line and no line breaks: what `Load` gives, and one empty line for an existing empty file |
| TextFile.OpenSave | sedit.py:55-69 | an opened document, the empty file included, survives a save and a load |
| TextFile.SaveNoLines | sedit.py:65 | a document with no lines is written as one newline and reads back as one empty line |
| TextFile.MissingFileRoundTrip | sedit.py:55-69 | the new-file document survives a save and a load |
| Document.InsertChar | sedit.py:208-212 | the text appears at the cursor between the old halves of the line; the cursor moves past it; other lines are unchanged; `modified` is set |
| Document.Newline | sedit.py:214-222 | the line is split at the cursor into two lines whose concatenation is the old line; the cursor moves to the start of the second; surrounding lines shift by one |
| Document.Backspace | sedit.py:224-237 | removes the character before the cursor, or joins the line onto the previous one with the cursor at the joint; nothing at the start of the document |
| Document.DeleteChar | sedit.py:239-248 | removes the character under the cursor, or joins the next line on; nothing at the end of the document; the cursor stays |
| Document.Move | sedit.py:262-293 | each navigation key's cursor rule, including wrapping at line ends, clamping the column, and PageUp/PageDown by `rows / 2`; text and `modified` unchanged; the cursor stays valid |
| Document.LeftUndoesRight | sedit.py:262-273 | Left after Right restores the cursor everywhere except at the end of the document |
| Document.RightUndoesLeft | sedit.py:262-273 | Right after Left restores the cursor everywhere except at the start of the document |
| Document.InsertThenBackspace | sedit.py:208-237 | inserting a character then pressing backspace restores the lines and the cursor |
| Document.NewlineThenBackspace | sedit.py:214-237 | Enter then backspace joins the split line back |
| Document.NewlineThenDelete | sedit.py:214-248 | Enter, Left, then Delete joins the split line back |
| Document.DeleteIsRightThenBackspace | sedit.py:224-248 | Delete equals Right followed by Backspace wherever Right can move |
| Document.BodyHeight | sedit.py:105-107 | the body has at least one row and at least `rows - 2` |
| Document.Reconcile | sedit.py:109-113 | after reconciling, the cursor row is visible; a viewport that already shows it is kept; otherwise it scrolls just far enough |
| Document.ReconcileIdempotent | sedit.py:109-113 | reconciling twice equals reconciling once |
| Highlight.StringEnd | sedit.py:165-171 | a string span ends just past the first quote after the opening one; without such a quote, or when that quote is the last character, it runs to the end of the line |
| Highlight.WordEnd | sedit.py:181-185 | a word is the maximal run of letters, digits and underscores |
| Highlight.SpanAt | sedit.py:163-206 | the span at `i` is the text from `i` to its end |
| Highlight.SpanAtShape | sedit.py:163-206 | the span at `i` has the shape of its kind (string, keyword, plain word, or single character); a string span ends in a closing quote unless it reaches the end of the line |
| Highlight.SpansFrom | sedit.py:161-206 | the spans from `i` are non-empty and spell the rest of the line |
| Highlight.Spans | sedit.py:151-206 | the spans spell the whole line; a comment line is a single comment span |
| Highlight.SpansShape | sedit.py:161-206 | outside comment lines every span has the shape its kind demands, and only the last span can be an unterminated string |
| Highlight.WordsAreMaximal | sedit.py:181-197 | the span after a word never starts with a letter, digit or underscore |
| Highlight.DrawnFrom | sedit.py:161-206 | from `i` something is drawn exactly when `i` is inside the line and left of the right edge; every drawn span is non-empty and none is a comment; `DrawnFromPrefix` and `DrawnFromText` relate it to the full decomposition |
| Highlight.Drawn | sedit.py:151-206 | a comment line is drawn as one comment span holding a prefix of the line; any other line has no comment span, and a non-empty one is drawn in at least one span when the body has room |
| Highlight.DrawnFromPrefix | sedit.py:161-206 | the drawn spans follow the decomposition: every span but the last is drawn whole, and the last keeps its kind and a prefix of its text |
| Highlight.DrawnFromText | sedit.py:156-206 | the drawn text is a prefix of the line from `i`, reaching the right edge or the end of the line |
| Highlight.Clipped | sedit.py:173 | a string span is cut to the room left before the right edge (`segment[:x+maxw-col]`); other spans are drawn whole |
| Highlight.ClippedWhole | sedit.py:173 | a string span that fits is drawn whole |
| Highlight.CutIsLast | sedit.py:163-174 | after a string span that had to be cut, nothing more is drawn on the row |
| Highlight.DrawnWhole | sedit.py:163 | a line that fits the body is drawn in full |
| Highlight.DrawSpans | sedit.py:151-206 | the loop of `_draw_line` emits exactly the spans `Drawn` specifies: a comment line cut to the body width (`line[:maxw]`), and string spans cut at the right edge |
| Highlight.NextSpan | sedit.py:163-197 | one pass of the outer loop yields the span at `i` and the index where the next span starts |
| Highlight.ScanString | sedit.py:167-170 | the inner quote loop stops one before `StringEnd` |
| Highlight.ScanWord | sedit.py:182-184 | the inner word loop stops at `WordEnd` |
| Highlight.CommentByPrefix | sedit.py:154 | a comment line is decided by the first three characters of the stripped text |
| Highlight.PrinterIsPlain | sedit.py:181-195 | `PRINTER = 1` starts with the plain word `PRINTER`, not a keyword |
| Highlight.RemLines | sedit.py:154-159 | `rem this is a comment` and `REMOVE x` are each one comment span |
| Highlight.StartsWithRem | sedit.py:154-159 | a trimmed line beginning with `REM` in any case is one comment span |
| Sedit.Classify | sedit.py:250-303 | a key is inserted exactly when it is a printable code in 0..255; it is ignored exactly when no branch of `handle_key` matches it |
| Sedit.LineRead | sedit.py:208-293 | the line index each key handler reads first; in a valid document it is always a line of the document, and Right, End, Delete, Enter and printable keys read the cursor line |
| Sedit.EmptyFileKeys | sedit.py:250-293 | after an existing empty file is loaded as written, Right, End, PageDown, PageUp, Delete, Enter and printable keys, and only these, read a line that does not exist |
| Sedit.AfterSave | sedit.py:62-69 | a successful save clears `modified` and reports `Saved <file>`; a failed one keeps the flag and reports the error; the text never changes |
| Sedit.AfterRun | sedit.py:74-89 | without the interpreter only the message changes; otherwise unsaved text is saved first, and the message says the run finished or gives the run error |
| Sedit.OnKey | sedit.py:250-303 | each class of key does its own operation: Ctrl-S saves (`AfterSave`), Ctrl-R runs (`AfterRun`), cursor keys `Move`, Delete `DeleteChar`, Backspace `Backspace`, Enter `Newline`, a printable key `InsertChar` of that character, ignored keys nothing; Ctrl-Q quits a saved document and asks to confirm an unsaved one; cursor keys never change the text; any text change sets `modified` |
| Sedit.Feed | sedit.py:305-319 | in the normal state a key is handled by `OnKey` after the viewport is reconciled; while confirming, only Ctrl-Q ends the session, and any other key aborts with `Quit aborted` without touching the document |
| Sedit.Drive | sedit.py:305-319 | the cursor stays valid through any key sequence |
| Sedit.QuitAborted | sedit.py:311-317 | Ctrl-Q on unsaved text followed by another key leaves the document as it was and shows `Quit aborted` |
| Sedit.QuitKeys | sedit.py:305-319 | Ctrl-Q twice ends a session with unsaved changes; once ends a saved one |
| Sedit.EndedIsFinal | sedit.py:314-319 | once the session has ended, no key changes anything |
| Sedit.DriveAppend | sedit.py:305-319 | processing two key sequences in turn equals processing their concatenation |
| Sedit.RowAt | sedit.py:115-131 | body row `k` is screen row `k + 1`, numbered `view_y + k + 1`, and shows the document line of that number |
| Sedit.Frame | sedit.py:115-131 | every row of a frame of `n` rows sits on a screen row from 1 to `n`, is numbered by that screen row plus `view_y`, and shows the document line of that number; `FrameShape` fixes how many rows there are |
| Sedit.FrameShape | sedit.py:115-131 | the frame shows document lines from `view_y` on, one per screen row from row 1, with 1-based numbers |
| Sedit.DrawBody | sedit.py:115-139 | the body loop yields the frame, each row with its highlighted spans as `Drawn` cuts them to the body width |
| Sedit.Editor.constructor | sedit.py:34-60 | fields start at zero and empty, the lines are the opened file, and the editor starts valid |
| Sedit.Editor.InsertChar | sedit.py:208-212 | the new state is `Document.InsertChar` of the old one |
| Sedit.Editor.Newline | sedit.py:214-222 | the new state is `Document.Newline` of the old one |
| Sedit.Editor.Backspace | sedit.py:224-237 | the new state is `Document.Backspace` of the old one |
| Sedit.Editor.DeleteChar | sedit.py:239-248 | the new state is `Document.DeleteChar` of the old one |
| Sedit.Editor.SaveFile | sedit.py:62-69 | writes the serialised lines, and the new state is `AfterSave` of the old one |
| Sedit.Editor.RunFile | sedit.py:74-89 | the new state is `AfterRun` of the old one |
| Sedit.Editor.MoveCursor | sedit.py:262-293 | the new state is `Document.Move` of the old one |
| Sedit.Editor.HandleKey | sedit.py:250-303 | the new state and the result are `OnKey` of the old state |
| Sedit.Editor.MoveOrEdit | sedit.py:262-303 | the editing and cursor keys leave `OnKey`'s state and report `Continue` |
| Sedit.Editor.Draw | sedit.py:91-149 | reconciles `view_y`; returns the frame and its spans, and a cursor position within the body |
| Sedit.Editor.EditKey | sedit.py:307-310 | one pass of the loop in the normal state equals `Feed` |
| Sedit.Editor.Run | sedit.py:305-319 | the in-place loop over a key sequence ends where `Drive` says |
| Dos.EntriesOf | SDOS.py:110 | a known directory gives its entries, an unknown path none |
| Dos.Tokenise | SDOS.py:162-167 | a line is skipped exactly when it is blank; otherwise the command is the first word upper-cased and the arguments are the remaining words |
| Dos.TokeniseWord | SDOS.py:162-167 | a line of one word is that command, upper-cased, with no arguments |
| Dos.TokeniseCommand | SDOS.py:162-167 | `name arg` tokenises to the upper-cased name with the one argument `arg` |
| Dos.TokeniseRun | SDOS.py:162-167 | `RUN name` tokenises to `RUN` with the argument `name` |
| Dos.TokenShape | SDOS.py:165-167 | the command and every argument are non-empty and hold no whitespace |
| Dos.TokensCover | SDOS.py:165-166 | the words of the line are its non-blank characters, and the first one upper-cased names the command |
| Dos.Parent | SDOS.py:210-212 | a parent path ends in a backslash |
| Dos.ParentSegment | SDOS.py:210-212 | the parent plus the last segment is the path without trailing backslashes |
| Dos.NoParentWithoutSeparator | SDOS.py:210-214 | a path without a backslash has no parent |
| Dos.ChangeDir | SDOS.py:195-221 | the shell never leaves the file system; a failed `CD` keeps the directory; a missing drive is reported upper-cased |
| Dos.TargetKind | SDOS.py:199-215 | a target is a drive exactly when it has two characters and the second is `:`; it names a subdirectory exactly when it is neither a drive, `\` nor `..` |
| Dos.CdTo | SDOS.py:198-221 | for an upper-cased target: the directory stays in the file system and a failed change keeps it; the reply is `NoDrive` exactly for a drive the file system lacks, `AtRoot` exactly for `..` without a parent, and `NoPath` exactly for a name whose path is not a directory |
| Dos.CdDrive | SDOS.py:199-204 | `CD X:` succeeds exactly for the drives `A:` and `C:`, and then moves to `X:\`; otherwise it stays and reports the drive missing |
| Dos.CdRoot | SDOS.py:205-207 | `CD \` moves to `A:\` from the floppy and to `C:\` from anywhere on drive C |
| Dos.CdNameOutsideRoot | SDOS.py:215-221 | outside `C:\` no directory has subdirectories, so `CD name` reports that the path cannot be found and stays put |
| Dos.FilesKeys | SDOS.py:38-58 | the file system has the four directories `C:\`, `C:\GAMES`, `C:\BIN` and `A:\` |
| Dos.RootOf | SDOS.py:205-207 | `CD \` goes to the root of the current drive |
| Dos.ParentTable | SDOS.py:208-214 | `CD ..` goes from the two subdirectories to `C:\`; the drive roots have no parent |
| Dos.ParentInFiles | SDOS.py:208-212 | a parent the shell reaches is in the file system |
| Dos.CdUp | SDOS.py:208-212 | `CD ..` from a subdirectory moves to `C:\` |
| Dos.CdUpAtRoot | SDOS.py:208-214 | `CD ..` at a drive root stays and reports that it is already at the root |
| Dos.CdDown | SDOS.py:215-219 | `CD name` from `C:\` enters `C:\NAME` in any letter case |
| Dos.CdFromRoot | SDOS.py:215-221 | from `C:\`, `CD name` enters `C:\NAME` exactly when the name is `GAMES` or `BIN` in some letter case, and otherwise reports that the path cannot be found |
| Dos.RootSubdirs | SDOS.py:38-58 | the directories below `C:\` are exactly `GAMES` and `BIN` |
| Dos.UpAndBack | SDOS.py:208-219 | `CD ..` then `CD` back into the directory just left returns there |
| Dos.RunTarget | SDOS.py:226-228 | the file name passes exactly when, upper-cased, it ends in `.SDOS` |
| Dos.RunAsWritten | SDOS.py:222-239 | the written lookup crashes exactly when a `.SDOS` name meets a non-empty directory, and never runs a script |
| Dos.RunAlwaysCrashes | SDOS.py:230-232 | in every directory of the file system, `RUN x.SDOS` crashes |
| Dos.FindEntry | SDOS.py:231-233 | finds an entry whose upper-cased name matches, or reports that none does |
| Dos.RunScript | SDOS.py:222-239 | the corrected `RUN` never crashes; it rejects exactly the names that, upper-cased, do not end in `.SDOS`; it runs only a matching entry of the current directory and reports a missing script only when none matches |
| Dos.RunAgrees | SDOS.py:222-239 | written and corrected `RUN` agree wherever the written one does not crash |
| Dos.NoScriptFiles | SDOS.py:38-58 | no file of the file system has a `.SDOS` name |
| Dos.NoScriptsOnDisk | SDOS.py:222-239 | the corrected `RUN` never finds a script |
| Dos.PadRight | SDOS.py:114 | `{s:<w}` keeps `s` at the front and fills with spaces to width `w` |
| Dos.PadLeft | SDOS.py:114 | `{s:>w}` keeps `s` at the end and fills with spaces in front |
| Dos.DirRow | SDOS.py:114 | a row is at least 29 characters, and everything between the name and the size is blank; `DirRowShape` fixes its exact width and both ends |
| Dos.DirRowShape | SDOS.py:114 | a `DIR` row starts with the name in a column of at least 20 and ends with the size in a column of at least 8 |
| Dos.ListDir | SDOS.py:109-115 | one row per entry of the directory, in order; none for an unknown path |
| Dos.DirRows | SDOS.py:112-114 | the listing loop yields one `DirRow` per entry |
| Dos.Dispatch | SDOS.py:168-244 | `DIR` lists the current directory, `ECHO` replies with its arguments joined by spaces, `CD` alone shows the directory and `CD x` replies and moves as `ChangeDir(cwd, x)`, `RUN` replies with the written lookup, `EXIT` halts, the commands left to other code reply `Other`, and every other command `Unknown`; only a successful `CD` moves |
| Dos.Exec | SDOS.py:162-245 | a blank line is skipped and any other line is answered by `Dispatch` of its tokens; only `EXIT` halts; only a successful `CD` changes directory; a line is a run exactly when its command is `RUN`, and the reply is the written lookup `RunAsWritten` |
| Dos.ExecRun | SDOS.py:222-239 | a `RUN` line replies with the written lookup of its arguments and keeps the directory |
| Dos.ExecRunScript | SDOS.py:222-239 | `RUN x.SDOS` in any directory of the file system crashes |
| Dos.ExecCd | SDOS.py:188-221 | the line `CD x` replies and moves as `ChangeDir(cwd, x)` |
| Dos.Transcript | SDOS.py:154-245 | at most one reply per line, and the shell stays inside the file system; the session ends at `EXIT` or at the crash of a lookup |
| Dos.TranscriptStopsAtEnd | SDOS.py:154-243 | only the last reply can end the session (`EXIT` or a crash), and fewer replies than lines means the session ended |
| Dos.TranscriptStep | SDOS.py:154-245 | the first line is answered by `Exec`, and the rest is read from the directory it leaves, unless that reply ended the session |
| Dos.ExitEndsSession | SDOS.py:240-243 | `EXIT`, in any letter case, ends the session with `Halt`, whatever lines follow |
| Dos.RunEndsSession | SDOS.py:154-232 | `RUN x.SDOS` ends the session with the crash, whatever lines follow |
| Dos.Shell.constructor | SDOS.py:23 | the shell starts in `C:\` |
| Dos.Shell.Execute | SDOS.py:162-245 | updates `current_dir` and replies as `Exec` says, `RUN` included |
| Dos.Shell.Loop | SDOS.py:154-245 | the loop stops at `EXIT` or a crash, and its replies and final directory are `Transcript`'s |
| Leaderboard.NatToString | game_Pack.py:15 | `str(n)` of a natural number is digits without a leading zero |
| Leaderboard.IntToString | game_Pack.py:15 | `str(n)` is non-empty, unpadded and free of `:` and line breaks |
| Leaderboard.FormatLine | game_Pack.py:15 | a saved record starts with the name, then a colon, and ends in a newline; `FormatParse` reads it back |
| Leaderboard.FormatLineShape | game_Pack.py:15 | a record is one line when the name holds no newline, and its only colon is the one after a colon-free name |
| Leaderboard.DigitsOfNat | game_Pack.py:30 | the digits of `n` have the value `n` |
| Leaderboard.ParseInt | game_Pack.py:30 | `int()` accepts exactly the stripped text that is an optional sign followed by at least one digit, and gives its signed value; everything else raises `ValueError` |
| Leaderboard.IntRoundTrip | game_Pack.py:15-30 | `int(str(n)) == n` for every integer |
| Leaderboard.ParseLine | game_Pack.py:29-33 | a line counts exactly when, stripped, it splits at `:` into two parts of which the second is an integer |
| Leaderboard.SplitPair | game_Pack.py:29 | `a:b` without other colons splits into `a` and `b` |
| Leaderboard.StripSavedLine | game_Pack.py:15-29 | stripping a saved line removes only its newline |
| Leaderboard.FormatParse | game_Pack.py:12-33 | a saved line parses back to its name and score |
| Leaderboard.ParseAll | game_Pack.py:25-33 | there are no more entries than lines |
| Leaderboard.ParseAllOne | game_Pack.py:28-33 | one line gives its entry when it parses and nothing when it is malformed |
| Leaderboard.ReadScores | game_Pack.py:25-33 | the reading loop collects `ParseAll` of the file's lines |
| Leaderboard.ParseAllAppend | game_Pack.py:27-33 | parsing two runs of lines equals parsing each in turn |
| Leaderboard.FileLinesAppend | game_Pack.py:14-15 | appending a line to a file that ends in a newline adds it as one more line |
| Leaderboard.AppendLine | game_Pack.py:12-15 | appending one line to a file that is empty or ends in a newline appends what that line parses to |
| Leaderboard.AppendScore | game_Pack.py:12-33 | after `save_score`, the file parses to the old entries followed by the new one |
| Leaderboard.SaveAfterGame | game_Pack.py:204-209 | a blank name is not saved; otherwise the stripped name's line is written |
| Leaderboard.SavedNameReadsBack | game_Pack.py:204-209 | a saved name reads back as typed, less surrounding whitespace |
| Leaderboard.Insert | game_Pack.py:35 | insertion adds exactly one entry |
| Leaderboard.SortDesc | game_Pack.py:35 | the sorted list is a permutation of the input |
| Leaderboard.InsertSorted | game_Pack.py:35 | insertion keeps the list non-increasing |
| Leaderboard.SortSorted | game_Pack.py:35 | the sorted list is non-increasing by score |
| Leaderboard.InsertWithPoints | game_Pack.py:35 | an inserted entry goes after the entries with the same score |
| Leaderboard.SortStable | game_Pack.py:35 | entries with equal scores keep their file order |
| Seqs.SliceTo | game_Pack.py:99 | `xs[:n]` is a prefix of the length Python gives, also for negative `n` |
| Leaderboard.InGameShownAsWritten | game_Pack.py:98-99 | the in-game view as written is a prefix of the sorted scores |
| Leaderboard.InGameOverflow | game_Pack.py:98-101 | below 6 rows the written cap is negative and still shows entries, and with 3 or more scores the last one lands on a row outside the window |
| Leaderboard.InGameShown | game_Pack.py:96-101 | the corrected view is the top entries, at most `sh - 6`, none when `sh < 6`, and every entry lands above the footer row |
| Leaderboard.InGameAgrees | game_Pack.py:98-99 | written and corrected views agree when `sh >= 6` |
| Leaderboard.Display | game_Pack.py:18-41 | a missing file, or one without valid lines, gives its message; otherwise one `i. name: score` line per entry in sorted order |
| Leaderboard.RankLine | game_Pack.py:39 | a ranking line holds no newline when the name holds none, so each entry prints as one line; `RankLineShape` fixes its layout |
| Leaderboard.RankLineShape | game_Pack.py:39 | a ranking line reads, left to right, the rank, `. `, the name, `: ` and the score, and nothing else |
| Leaderboard.RankLines | game_Pack.py:38-39 | the numbering loop counts from 1 |
| Snake.Opposite | game_Pack.py:122-127 | no direction is its own opposite |
| Snake.OppositeTwice | game_Pack.py:122-127 | the opposite of the opposite is the direction itself |
| Snake.DirOf | game_Pack.py:160 | an arrow key reads back as the direction of that key |
| Snake.Turn | game_Pack.py:160-162 | an arrow key turns unless it points back; the snake never reverses |
| Snake.Next | game_Pack.py:164-174 | the head moves exactly one cell in the direction of travel |
| Snake.NextOpposite | game_Pack.py:164-174 | moving one way and back returns to the same cell |
| Snake.Crashes | game_Pack.py:176-178 | the new head crashes exactly when it lies on the body (tail included) or outside the field inside the border; `StepGame` ends the game on exactly this |
| Snake.FreeIndex | game_Pack.py:191-193 | the first candidate cell off the snake, or none left |
| Snake.FirstFree | game_Pack.py:191-193 | the food loop stops at `FreeIndex` |
| Snake.Moved | game_Pack.py:186-197 | the snake gains a head, and it loses its tail unless it eats |
| Snake.StepGame | game_Pack.py:142-200 | `x`, and only `x`, exits with the game unchanged; a crash, and only a crash, ends the game unchanged; eating grows the snake, scores one and puts food on the first free candidate; otherwise the snake slides; the pass is `Stalled` exactly when it eats and no candidate is free |
| Snake.StepKeepsValid | game_Pack.py:142-200 | a running pass keeps the snake distinct and in the field, and the food off it |
| Snake.PlayGame | game_Pack.py:142-200 | without keys the game is unchanged, and a running game keeps a non-empty snake |
| Snake.PlayRunning | game_Pack.py:142-200 | a running pass hands the remaining keys and unused candidates to the next pass |
| Snake.PlayStops | game_Pack.py:142-200 | a pass that stops the game ends the run |
| Snake.PlayKeepsValid | game_Pack.py:142-200 | a playable game stays playable as long as it runs |
| Snake.Start | game_Pack.py:134-140 | the snake starts as three cells in a row, head first at `(sh/2, sw/4)`, each one step right of the next, heading right with score 0, and the food at `(sh/2, sw/2)`; `StartValid` says when that is playable |
| Snake.StartValid | game_Pack.py:134-140 | the start is playable exactly when the window has at least 3 rows and 12 columns |
| Snake.Game.constructor | game_Pack.py:130-140 | the game starts in `Start`, which is playable exactly for windows of at least 3 × 12 |
| Snake.Game.Step | game_Pack.py:142-200 | updating in place yields `StepGame` |
| Snake.Game.Pass | game_Pack.py:142-200 | one pass leaves what `PlayGame` says of the rest of the run |
| Snake.Game.Play | game_Pack.py:142-200 | the in-place loop ends where `PlayGame` says, and reports the score |

## Left out

- **Terminal drawing.** Screen writes, colours, reverse video, the cursor movement call and curses errors are left out. The status line text, the message bar text and the gutter number text are not computed.
- **The run hand-off.** The interpreter subprocess, its output and its lookup on disk are left out. `Env` states only whether the interpreter exists and whether launching fails. The transient `Running...` message is overwritten before the next draw and is not modelled.
- **Horizontal scrolling.** `view_x` stays 0, as the source never changes it.
- **Character classes are ASCII.** `isspace`, `isalpha`, `isalnum`, `upper` and the `'utf-8'`/`errors='replace'` decoding are modelled on ASCII. Python's Unicode behaviour for other characters is not modelled.
- **Key codes.** They are the ncurses values of `KEY_LEFT` and the rest. `chr(key).isprintable()` is modelled exactly for 0..255.
- Leaderboard.ParseInt: does not accept underscores between digits or non-ASCII digits, which Python's `int()` does.
- Text.Upper: raises ASCII letters only; Python's `str.upper` also maps other letters and can lengthen a string.
- Snake.StepGame: the random food draw is a finite sequence of candidate cells. When every candidate lies on the snake, the pass ends `Stalled`, where the source keeps drawing.
- **The leaderboard pause.** Pressing `z` during the game shows the leaderboard and waits for `z` again (game_Pack.py:71-114). Only the shown slice is modelled. The pass itself goes on with the direction unchanged, which the model keeps.
- **Sleeps, the game-over message, the game menu and the text adventure.** These are I/O only.
- **The `sedit()` entry point and its argument handling.** These are outside the editor's state.
- **The remaining shell commands.** `HELP`, `CLS`, `VER`, `TIME`, `GAMES`, `OS`, `PING`, `PI` and `SEDIT` print fixed text, the clock, random latencies or another program. They become an `Other` reply. `CD` without an argument and `ECHO` are replies carrying their text.
- **The boot simulation.** boot_sim.py and `dos_intro` only print, so they are not part of this model.
- **Drawing past the right edge.** A word or a single character that starts inside the body is drawn whole (sedit.py:186-206); only comment lines and string spans are cut. Cutting at the terminal's edge is left to curses.
- **Crash output.** When a `RUN` lookup crashes, the model ends the session with a `LookupCrash` reply; Python's traceback text is not modelled.
- **End-of-file and interrupts.** These are the shell's other exit (SDOS.py:158-160). The model treats them as the end of the input sequence.

## Findings

| source | as written | input that shows it | evidently intended | confidence | as-written member | corrected member |
|---|---|---|---|---|---|---|
| SDOS.py:231-232 | the lookup reads `f["name"]` from `(name, size)` tuples, which raises `TypeError` | `RUN X.SDOS` in `C:\` (any directory with entries) | compare the entry's name, then run it or report it missing; as written, the uncaught error ends the shell, which the model's loop does (Dos.RunEndsSession) | not executed | Dos.RunAlwaysCrashes | Dos.RunScript |
| game_Pack.py:98-99 | `sorted_scores[:min(len, sh - 6)]` with `sh < 6` slices from the end | `sh = 5` with 3 saved scores: the slice keeps 2 entries, and the second is written to row 5 of a 5-row window, where `addstr` raises an uncaught `curses.error` | show no entries when there is no room | not executed | Leaderboard.InGameOverflow | Leaderboard.InGameShown |
| sedit.py:56-58 | an existing empty file loads as no lines, and the key handlers then index `lines[cursor_y]` (sedit.py:209, 215, 240, 269, 285, 289, 293), which raises an uncaught `IndexError`; Up, Down, Left, Home, Backspace, Ctrl-S, Ctrl-Q and Ctrl-R still work | open an existing empty file and type `A` | open an empty file as one empty line, as a missing file is | not executed | Sedit.EmptyFileKeys | TextFile.Open |
