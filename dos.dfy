/** The command shell of SDOS.py: the simulated file system, how a command line is
    split into a command and its arguments, the current-directory changes of `CD`,
    the `RUN` checks, and the `DIR` listing. What a command prints is a `Reply`;
    the printing itself is left to the terminal. */
module Dos {
  import opened Opt
  import opened Text
  import opened Seqs

  /** One directory entry: a name and its size column (`<DIR>` for directories). */
  datatype Entry = Entry(name: string, size: string)

  /** The fixed file system (SDOS.py:38-58): directory path to its entries. */
  const Files: map<string, seq<Entry>> := map[
    "C:\\" := RootEntries,
    "C:\\GAMES" := GamesEntries,
    "C:\\BIN" := BinEntries,
    "A:\\" := FloppyEntries
  ]

  const RootEntries: seq<Entry> :=
    [Entry("AUTOEXEC.BAT", "2KB"), Entry("CONFIG.SYS", "1KB"), Entry("COMMAND.COM", "38KB"),
     Entry("GAMES", "<DIR>"), Entry("BIN", "<DIR>")]
  const GamesEntries: seq<Entry> :=
    [Entry("SNAKE.C", "12KB"), Entry("ADVENTURE.C", "8KB"), Entry("GAMES.EXE", "20KB")]
  const BinEntries: seq<Entry> := [Entry("UTIL.EXE", "15KB"), Entry("NETSTAT.EXE", "10KB")]
  const FloppyEntries: seq<Entry> := [Entry("README.TXT", "4KB")]

  /** The directory the shell starts in (SDOS.py:23). */
  const StartDir: string := "C:\\"

  /** `FILES.get(path, [])`. */
  function EntriesOf(path: string): (es: seq<Entry>)
    ensures path !in Files ==> es == []
    ensures path in Files ==> es == Files[path]
  {
    if path in Files then Files[path] else []
  }

  /** A command line after tokenising: the upper-cased command word and the rest. */
  datatype Command = Command(name: string, args: seq<string>)

  /** SDOS.py:162-167: a blank line is skipped; otherwise the stripped line is split
      at whitespace and the first word, upper-cased, names the command. */
  function Tokenise(line: string): (r: Option<Command>)
    ensures r.None? <==> forall k :: 0 <= k < |line| ==> IsSpace(line[k])
    ensures r.Some? ==> |Words(Strip(line))| >= 1
    ensures r.Some? ==> r.value.name == Upper(Words(Strip(line))[0])
    ensures r.Some? ==> r.value.args == Words(Strip(line))[1..]
  {
    var stripped := Strip(line);
    if stripped == [] then None
    else
      var parts := Words(stripped);
      Some(Command(Upper(parts[0]), parts[1..]))
  }

  /** The command and each argument are non-empty and hold no whitespace. */
  lemma TokenShape(line: string)
    requires Tokenise(line).Some?
    ensures var c := Tokenise(line).value;
      |c.name| > 0 && NoSpace(c.name) &&
      forall k :: 0 <= k < |c.args| ==> |c.args[k]| > 0 && NoSpace(c.args[k])
  {
    var parts := Words(Strip(line));
    assert |parts| > 0;
    var c := Tokenise(line).value;
    assert c.name == Upper(parts[0]) && c.args == parts[1..];
    UpperNoSpace(parts[0]);
    forall k | 0 <= k < |c.args|
      ensures |c.args[k]| > 0 && NoSpace(c.args[k])
    {
      assert c.args[k] == parts[k + 1];
    }
  }

  /** A command word and one argument separated by a space: the command is the
      word upper-cased and the argument is kept as typed. */
  lemma TokeniseCommand(name: string, arg: string)
    requires name != [] && NoSpace(name) && arg != [] && NoSpace(arg)
    ensures Tokenise(name + " " + arg) == Some(Command(Upper(name), [arg]))
  {
    WordsOfTwo(name, arg);
    assert [name, arg][1..] == [arg];
  }

  /** A line holding one word is that command with no arguments. */
  lemma TokeniseWord(w: string)
    requires w != [] && NoSpace(w)
    ensures Tokenise(w) == Some(Command(Upper(w), []))
  {
    StripUnpadded(w);
    WordsOfWord(w);
    assert [w][1..] == [];
  }

  /** Upper-casing a word without whitespace gives a word without whitespace. */
  lemma UpperNoSpace(w: string)
    requires NoSpace(w)
    ensures |Upper(w)| == |w| && NoSpace(Upper(w))
  {
    forall k | 0 <= k < |w| ensures !IsSpace(Upper(w)[k]) {
      assert Upper(w)[k] == UpperChar(w[k]);
    }
  }

  /** The words of a command line are exactly its non-blank characters, in order:
      the command word (before upper-casing) followed by the arguments. */
  lemma TokensCover(line: string)
    requires Tokenise(line).Some?
    ensures |Words(Strip(line))| >= 1
    ensures Upper(Words(Strip(line))[0]) == Tokenise(line).value.name
    ensures Concat(Words(Strip(line))) == NonSpace(line)
  {
    WordsCover(Strip(line));
    NonSpaceStrip(line);
  }

  /** Outcome of `CD` with an argument. */
  datatype CdReply = Moved | NoDrive(target: string) | AtRoot | NoPath

  /** The parent directory of `cwd` as `CD ..` computes it: strip trailing
      backslashes, drop the last segment, and end in a backslash; `None` when
      there is only one segment. */
  function Parent(cwd: string): (r: Option<string>)
    ensures r.Some? ==> |r.value| > 0 && r.value[|r.value| - 1] == '\\'
  {
    var parts := SplitOn(RStripChar(cwd, '\\'), '\\');
    if |parts| > 1 then Some(Join(parts[..|parts| - 1], "\\") + "\\") else None
  }

  /** Going up removes exactly the last segment of the path: the parent followed by
      that segment is the path without its trailing backslashes. */
  lemma ParentSegment(cwd: string)
    requires Parent(cwd).Some?
    ensures var parts := SplitOn(RStripChar(cwd, '\\'), '\\');
      var last := parts[|parts| - 1];
      '\\' !in last && Parent(cwd).value + last == RStripChar(cwd, '\\')
  {
    var parts := SplitOn(RStripChar(cwd, '\\'), '\\');
    JoinInit(parts, "\\");
    JoinSplit(RStripChar(cwd, '\\'), '\\');
  }

  /** A path with no backslash at all has no parent. */
  lemma NoParentWithoutSeparator(cwd: string)
    requires '\\' !in cwd
    ensures Parent(cwd).None?
  {
    var s := RStripChar(cwd, '\\');
    assert '\\' !in s by {
      forall k | 0 <= k < |s| ensures s[k] != '\\' {
        assert s[k] == cwd[k];
      }
    }
    SplitAbsent(s, '\\');
  }

  /** How `CD` reads its upper-cased target: a drive `X:`, the root `\`, the parent
      `..`, or a name below the current directory. */
  datatype Target = DriveTarget | RootTarget | UpTarget | SubTarget

  function TargetKind(t: string): (k: Target)
    ensures k == DriveTarget <==> |t| == 2 && t[1] == ':'
    ensures k == SubTarget <==> !(|t| == 2 && t[1] == ':') && t != "\\" && t != ".."
  {
    if |t| == 2 && t[1] == ':' then DriveTarget
    else if t == "\\" then RootTarget
    else if t == ".." then UpTarget
    else SubTarget
  }

  /** `CD target` with a target (SDOS.py:194-221); the target is upper-cased first. */
  function ChangeDir(cwd: string, arg: string): (r: (string, CdReply))
    requires cwd in Files
    ensures r.0 in Files
    ensures r.1 != Moved ==> r.0 == cwd
    ensures r.1.NoDrive? ==> r.1.target == Upper(arg)
  {
    CdTo(cwd, Upper(arg))
  }

  /** `CD` with an upper-cased target (SDOS.py:198-221). */
  function CdTo(cwd: string, target: string): (r: (string, CdReply))
    requires cwd in Files
    ensures r.0 in Files
    ensures r.1 != Moved ==> r.0 == cwd
    ensures r.1.NoDrive? ==> r.1.target == target
    ensures r.1.NoDrive? <==> TargetKind(target) == DriveTarget && target + "\\" !in Files
    ensures r.1 == AtRoot <==> TargetKind(target) == UpTarget && Parent(cwd).None?
    ensures r.1 == NoPath <==> TargetKind(target) == SubTarget && RStripChar(cwd, '\\') + "\\" + target !in Files
  {
    match TargetKind(target)
    case DriveTarget =>
      var drive := target + "\\";
      if drive in Files then (drive, Moved) else (cwd, NoDrive(target))
    case RootTarget =>
      (RootOf(cwd), Moved)
    case UpTarget =>
      (match Parent(cwd)
       case Some(p) => (ParentInFiles(cwd); p, Moved)
       case None => (cwd, AtRoot))
    case SubTarget =>
      var path := RStripChar(cwd, '\\') + "\\" + target;
      if path in Files then (path, Moved) else (cwd, NoPath)
  }

  /** `CD X:` moves to the root of drive `X` when the file system has it, and only
      the drives `A:` and `C:` exist. */
  lemma CdDrive(cwd: string, target: string)
    requires cwd in Files && |target| == 2 && target[1] == ':'
    ensures CdTo(cwd, target).1 == Moved <==> target == "A:" || target == "C:"
    ensures CdTo(cwd, target).1 == Moved ==> CdTo(cwd, target).0 == target + "\\"
    ensures CdTo(cwd, target).1 != Moved ==> CdTo(cwd, target) == (cwd, NoDrive(target))
  {
    var drive := target + "\\";
    if drive in Files {
      FilesKeys(drive);
      assert target == drive[..2];
    } else {
      assert target != "A:" && target != "C:" by {
        assert "A:" + "\\" == "A:\\" && "C:" + "\\" == "C:\\";
      }
    }
  }

  /** `CD \` goes to the root of the current drive. */
  lemma CdRoot(cwd: string)
    requires cwd in Files
    ensures ChangeDir(cwd, "\\") == (if cwd == "A:\\" then "A:\\" else "C:\\", Moved)
  {
    assert Upper("\\") == "\\";
  }

  /** Only `C:\` has subdirectories: `CD name` anywhere else reports that the path
      cannot be found. */
  lemma CdNameOutsideRoot(cwd: string, target: string)
    requires cwd in Files && cwd != "C:\\" && |target| > 0
    requires TargetKind(target) == SubTarget
    ensures CdTo(cwd, target) == (cwd, NoPath)
  {
    SubPathMissing(cwd, target);
  }

  /** Below `A:\`, `C:\GAMES` and `C:\BIN` the file system has no directories. */
  lemma SubPathMissing(cwd: string, t: string)
    requires cwd in Files && cwd != "C:\\" && t != []
    ensures RStripChar(cwd, '\\') + "\\" + t !in Files
  {
    var path := RStripChar(cwd, '\\') + "\\" + t;
    FilesKeys(cwd);
    StrippedDir(cwd);
    if cwd == "A:\\" {
      assert path[0] == 'A' && |path| >= 4;
    } else if cwd == "C:\\GAMES" {
      assert |path| >= 10;
    } else {
      assert path[3] == 'B' && |path| >= 8;
    }
    if path in Files {
      FilesKeys(path);
    }
  }

  /** A directory without its trailing backslashes. */
  lemma StrippedDir(cwd: string)
    requires cwd in Files
    ensures RStripChar(cwd, '\\') == if cwd == "A:\\" then "A:" else if cwd == "C:\\" then "C:" else cwd
  {
    FilesKeys(cwd);
    if cwd == "A:\\" || cwd == "C:\\" {
      assert cwd[..2] == [cwd[0], ':'];
      assert RStripChar(cwd, '\\') == RStripChar([cwd[0], ':'], '\\') == [cwd[0], ':'];
    } else {
      assert cwd[|cwd| - 1] != '\\';
    }
  }

  /** The directories of the file system, written out. */
  lemma FilesKeys(cwd: string)
    requires cwd in Files
    ensures cwd == "C:\\" || cwd == "C:\\GAMES" || cwd == "C:\\BIN" || cwd == "A:\\"
  {
  }

  /** The root of the drive `cwd` is on: `current_dir[0][0] + ":\\"`. */
  function RootOf(cwd: string): (r: string)
    requires cwd in Files
    ensures r in Files && r == [cwd[0]] + ":\\"
    ensures r == (if cwd == "A:\\" then "A:\\" else "C:\\")
  {
    FilesKeys(cwd);
    assert [cwd[0]] + ":\\" == (if cwd == "A:\\" then "A:\\" else "C:\\");
    [cwd[0]] + ":\\"
  }

  /** The parent of a path one level below a drive root is that root. */
  lemma ParentOfSub(drive: char, name: string)
    requires '\\' !in name && name != [] && drive != '\\'
    ensures Parent([drive, ':', '\\'] + name) == Some([drive, ':', '\\'])
  {
    var cwd := [drive, ':', '\\'] + name;
    assert RStripChar(cwd, '\\') == cwd;
    assert IndexOf(cwd, '\\') == 2 by {
      assert cwd[0] != '\\' && cwd[1] != '\\' && cwd[2] == '\\';
    }
    assert cwd[..2] == [drive, ':'] && cwd[2 + 1..] == name;
    SplitAbsent(name, '\\');
    var parts := SplitOn(cwd, '\\');
    assert parts == [[drive, ':']] + [name];
    assert parts[..|parts| - 1] == [[drive, ':']];
    assert Join([[drive, ':']], "\\") == [drive, ':'];
    assert [drive, ':'] + "\\" == [drive, ':', '\\'];
    assert Parent(cwd) == Some(Join(parts[..|parts| - 1], "\\") + "\\");
  }

  /** A drive root has no parent. */
  lemma ParentOfRoot(drive: char)
    requires drive != '\\'
    ensures Parent([drive, ':', '\\']).None?
  {
    var cwd := [drive, ':', '\\'];
    assert RStripChar(cwd, '\\') == RStripChar([drive, ':'], '\\') == [drive, ':'];
    NoParentWithoutSeparator([drive, ':']);
  }

  /** `CD ..` in each directory of the file system: the two subdirectories go up to
      `C:\`, and the drive roots have nowhere to go. */
  lemma ParentTable(cwd: string)
    requires cwd in Files
    ensures Parent(cwd) == (if cwd == "C:\\GAMES" || cwd == "C:\\BIN" then Some("C:\\") else None)
  {
    FilesKeys(cwd);
    if cwd == "C:\\GAMES" {
      assert cwd == ['C', ':', '\\'] + "GAMES";
      ParentOfSub('C', "GAMES");
    } else if cwd == "C:\\BIN" {
      assert cwd == ['C', ':', '\\'] + "BIN";
      ParentOfSub('C', "BIN");
    } else if cwd == "C:\\" {
      ParentOfRoot('C');
    } else {
      ParentOfRoot('A');
    }
  }

  /** The parents the shell can reach stay inside the file system. */
  lemma ParentInFiles(cwd: string)
    requires cwd in Files && Parent(cwd).Some?
    ensures Parent(cwd).value in Files
  {
    ParentTable(cwd);
  }

  /** `CD ..` in a subdirectory goes to `C:\`. */
  lemma CdUp(cwd: string)
    requires cwd in Files && Parent(cwd).Some?
    ensures ChangeDir(cwd, "..") == ("C:\\", Moved)
  {
    ParentTable(cwd);
    assert Upper("..") == "..";
  }

  /** `CD name` from `C:\` enters the subdirectory `C:\NAME`, in any letter case. */
  lemma CdDown(cwd: string, name: string)
    requires cwd == "C:\\GAMES" || cwd == "C:\\BIN"
    requires Upper(name) == cwd[3..]
    ensures ChangeDir("C:\\", name) == (cwd, Moved)
  {
    assert RStripChar("C:\\", '\\') == "C:";
    assert "C:" + "\\" + cwd[3..] == cwd;
  }

  /** `CD ..` at a drive root reports that it is already there and stays. */
  lemma CdUpAtRoot(cwd: string)
    requires cwd == "A:\\" || cwd == "C:\\"
    ensures ChangeDir(cwd, "..") == (cwd, AtRoot)
  {
    ParentTable(cwd);
    assert Upper("..") == "..";
  }

  /** From `C:\` a name enters a directory exactly when it is `GAMES` or `BIN` in
      some letter case; every other name reports that the path cannot be found. */
  lemma CdFromRoot(name: string)
    requires name != [] && TargetKind(Upper(name)) == SubTarget
    ensures ChangeDir("C:\\", name) ==
      (if Upper(name) == "GAMES" || Upper(name) == "BIN" then ("C:\\" + Upper(name), Moved)
       else ("C:\\", NoPath))
  {
    var t := Upper(name);
    assert RStripChar("C:\\", '\\') == "C:";
    assert "C:" + "\\" + t == "C:\\" + t;
    RootSubdirs(t);
  }

  /** The directories below `C:\` are `GAMES` and `BIN`. */
  lemma RootSubdirs(t: string)
    requires t != []
    ensures "C:\\" + t in Files <==> t == "GAMES" || t == "BIN"
  {
    var path := "C:\\" + t;
    assert path[0] == 'C' && |path| > 3 && path[3..] == t;
    if path in Files {
      FilesKeys(path);
      assert path != "C:\\" && path != "A:\\";
      assert path == "C:\\GAMES" || path == "C:\\BIN";
      assert "C:\\GAMES"[3..] == "GAMES" && "C:\\BIN"[3..] == "BIN";
    }
    if t == "GAMES" {
      assert path == "C:\\GAMES";
    }
    if t == "BIN" {
      assert path == "C:\\BIN";
    }
  }

  /** `CD ..` then `CD` back into the directory just left returns to where the
      shell was. */
  lemma UpAndBack(cwd: string, name: string)
    requires cwd in Files && Parent(cwd).Some?
    requires Upper(name) == cwd[3..]
    ensures ChangeDir(ChangeDir(cwd, "..").0, name) == (cwd, Moved)
  {
    CdUp(cwd);
    ParentTable(cwd);
    CdDown(cwd, name);
  }

  /** Outcome of `RUN`. */
  datatype RunReply =
    | RunUsage
    | NotSdos(filename: string)
    | LookupCrash
    | ScriptMissing(filename: string)
    | ScriptRan(filename: string, entry: Entry)

  /** The file name `RUN` looks for, and whether it passes the suffix check. */
  function RunTarget(args: seq<string>): (r: Option<string>)
    requires args != []
    ensures r.Some? <==> EndsWith(Upper(args[0]), ".SDOS")
    ensures r.Some? ==> r.value == Upper(args[0])
  {
    var filename := Upper(args[0]);
    if EndsWith(filename, ".SDOS") then Some(filename) else None
  }

  /** `RUN` as written (SDOS.py:222-239): entries are `(name, size)` pairs, and the
      lookup indexes each with `f["name"]`, which raises `TypeError` on the first
      entry of a non-empty directory; nothing catches it. */
  function RunAsWritten(cwd: string, args: seq<string>): (r: RunReply)
    ensures args == [] <==> r == RunUsage
    ensures r.LookupCrash? <==> args != [] && EndsWith(Upper(args[0]), ".SDOS") && EntriesOf(cwd) != []
    ensures !r.ScriptRan?
  {
    if args == [] then RunUsage
    else match RunTarget(args)
      case None => NotSdos(Upper(args[0]))
      case Some(filename) => if EntriesOf(cwd) != [] then LookupCrash else ScriptMissing(filename)
  }

  /** In every directory of the file system, a `.SDOS` name makes `RUN` crash. */
  lemma RunAlwaysCrashes(cwd: string, args: seq<string>)
    requires cwd in Files && args != [] && EndsWith(Upper(args[0]), ".SDOS")
    ensures RunAsWritten(cwd, args) == LookupCrash
  {
    FilesKeys(cwd);
  }

  /** The first entry whose upper-cased name is `filename`. */
  function FindEntry(entries: seq<Entry>, filename: string): (r: Option<Entry>)
    ensures r.Some? ==> r.value in entries && Upper(r.value.name) == filename
    ensures r.None? <==> forall e :: e in entries ==> Upper(e.name) != filename
  {
    if entries == [] then None
    else if Upper(entries[0].name) == filename then Some(entries[0])
    else FindEntry(entries[1..], filename)
  }

  /** `RUN` with the lookup it evidently means: match the entry names. */
  function RunScript(cwd: string, args: seq<string>): (r: RunReply)
    ensures r != LookupCrash
    ensures args == [] <==> r == RunUsage
    ensures r.ScriptRan? ==>
      r.entry in EntriesOf(cwd) && Upper(r.entry.name) == r.filename
      && EndsWith(r.filename, ".SDOS") && r.filename == Upper(args[0])
    ensures r.ScriptMissing? ==>
      EndsWith(r.filename, ".SDOS") && forall e :: e in EntriesOf(cwd) ==> Upper(e.name) != r.filename
    ensures r.NotSdos? <==> args != [] && !EndsWith(Upper(args[0]), ".SDOS")
  {
    if args == [] then RunUsage
    else match RunTarget(args)
      case None => NotSdos(Upper(args[0]))
      case Some(filename) =>
        match FindEntry(EntriesOf(cwd), filename)
        case Some(e) => ScriptRan(filename, e)
        case None => ScriptMissing(filename)
  }

  /** Both agree except where the written lookup crashes. */
  lemma RunAgrees(cwd: string, args: seq<string>)
    requires RunAsWritten(cwd, args) != LookupCrash
    ensures RunScript(cwd, args) == RunAsWritten(cwd, args)
  {
  }

  /** A name in the table can only end in `.SDOS` if its fifth character from the
      end is a dot. */
  lemma NotScriptName(name: string)
    requires |name| < 5 || name[|name| - 5] != '.'
    ensures !EndsWith(Upper(name), ".SDOS")
  {
    if |name| >= 5 {
      assert Upper(name)[|name| - 5] == UpperChar(name[|name| - 5]);
    }
  }

  lemma NoScriptIn(es: seq<Entry>)
    requires forall e :: e in es ==> |e.name| < 5 || e.name[|e.name| - 5] != '.'
    ensures forall e :: e in es ==> !EndsWith(Upper(e.name), ".SDOS")
  {
    forall e | e in es ensures !EndsWith(Upper(e.name), ".SDOS") {
      NotScriptName(e.name);
    }
  }

  lemma RootNoScript()
    ensures forall e :: e in RootEntries ==> !EndsWith(Upper(e.name), ".SDOS")
  {
    NoScriptIn(RootEntries);
  }

  lemma GamesNoScript()
    ensures forall e :: e in GamesEntries ==> !EndsWith(Upper(e.name), ".SDOS")
  {
    NoScriptIn(GamesEntries);
  }

  lemma BinNoScript()
    ensures forall e :: e in BinEntries ==> !EndsWith(Upper(e.name), ".SDOS")
  {
    NoScriptIn(BinEntries);
  }

  lemma FloppyNoScript()
    ensures forall e :: e in FloppyEntries ==> !EndsWith(Upper(e.name), ".SDOS")
  {
    NoScriptIn(FloppyEntries);
  }

  /** No file of the file system has a `.SDOS` name. */
  lemma NoScriptFiles(cwd: string)
    requires cwd in Files
    ensures forall e :: e in Files[cwd] ==> !EndsWith(Upper(e.name), ".SDOS")
  {
    FilesKeys(cwd);
    if cwd == "C:\\" {
      assert Files[cwd] == RootEntries;
      RootNoScript();
    } else if cwd == "C:\\GAMES" {
      assert Files[cwd] == GamesEntries;
      GamesNoScript();
    } else if cwd == "C:\\BIN" {
      assert Files[cwd] == BinEntries;
      BinNoScript();
    } else {
      assert Files[cwd] == FloppyEntries;
      FloppyNoScript();
    }
  }

  /** So the corrected `RUN` never finds a script to run. */
  lemma NoScriptsOnDisk(cwd: string, args: seq<string>)
    requires cwd in Files
    ensures !RunScript(cwd, args).ScriptRan?
  {
    NoScriptFiles(cwd);
    if args != [] && RunTarget(args).Some? {
      assert FindEntry(EntriesOf(cwd), Upper(args[0])).None?;
    }
  }

  /** Python's `f"{s:<w}"`: `s` padded with spaces on the right to width `w`. */
  function PadRight(s: string, w: nat): (r: string)
    ensures |r| == if |s| >= w then |s| else w
    ensures r[..|s|] == s
    ensures forall k :: |s| <= k < |r| ==> r[k] == ' '
  {
    if |s| >= w then s else s + seq(w - |s|, _ => ' ')
  }

  /** Python's `f"{s:>w}"`: `s` padded with spaces on the left to width `w`. */
  function PadLeft(s: string, w: nat): (r: string)
    ensures |r| == if |s| >= w then |s| else w
    ensures r[|r| - |s|..] == s
    ensures forall k :: 0 <= k < |r| - |s| ==> r[k] == ' '
  {
    if |s| >= w then s else seq(w - |s|, _ => ' ') + s
  }

  /** One line of a `DIR` listing (SDOS.py:114). */
  function DirRow(e: Entry): (r: string)
    ensures |r| >= 29
    ensures forall k :: |e.name| <= k < |r| - |e.size| ==> r[k] == ' '
  {
    PadRight(e.name, 20) + " " + PadLeft(e.size, 8)
  }

  /** The name starts the row in a column of at least 20, and the size ends it,
      right-aligned in a column of at least 8. */
  lemma DirRowShape(e: Entry)
    ensures |DirRow(e)| == (if |e.name| >= 20 then |e.name| else 20) + 1 + (if |e.size| >= 8 then |e.size| else 8)
    ensures DirRow(e)[..|e.name|] == e.name
    ensures DirRow(e)[|DirRow(e)| - |e.size|..] == e.size
  {
    DirRowStart(e);
    DirRowEnd(e);
  }

  lemma DirRowStart(e: Entry)
    ensures DirRow(e)[..|e.name|] == e.name
  {
    var a, b := PadRight(e.name, 20), PadLeft(e.size, 8);
    PrefixOfConcat(a + " ", b, |e.name|);
    PrefixOfConcat(a, " ", |e.name|);
  }

  lemma DirRowEnd(e: Entry)
    ensures DirRow(e)[|DirRow(e)| - |e.size|..] == e.size
  {
    var a, b := PadRight(e.name, 20), PadLeft(e.size, 8);
    SuffixOfConcat(a + " ", b, |e.size|);
  }

  /** The rows `cmd_dir` prints for `path` (SDOS.py:109-115); an unknown path lists
      nothing. */
  method ListDir(path: string) returns (rows: seq<string>)
    ensures |rows| == |EntriesOf(path)|
    ensures forall k :: 0 <= k < |rows| ==> rows[k] == DirRow(EntriesOf(path)[k])
  {
    rows := DirRows(EntriesOf(path));
  }

  /** The loop of SDOS.py:113-114 over the entries of one directory. */
  method DirRows(entries: seq<Entry>) returns (rows: seq<string>)
    ensures |rows| == |entries|
    ensures forall k :: 0 <= k < |rows| ==> rows[k] == DirRow(entries[k])
  {
    rows := [];
    for i := 0 to |entries|
      invariant |rows| == i
      invariant forall k :: 0 <= k < i ==> rows[k] == DirRow(entries[k])
    {
      DirRowsSnoc(rows, entries, i);
      rows := rows + [DirRow(entries[i])];
    }
  }

  /** One more listed entry keeps the rows in step with the entries. */
  lemma DirRowsSnoc(rows: seq<string>, entries: seq<Entry>, i: nat)
    requires i < |entries| && |rows| == i
    requires forall k :: 0 <= k < i ==> rows[k] == DirRow(entries[k])
    ensures |rows + [DirRow(entries[i])]| == i + 1
    ensures forall k :: 0 <= k < i + 1 ==> (rows + [DirRow(entries[i])])[k] == DirRow(entries[k])
  {
    Snoc(rows, DirRow(entries[i]));
  }

  /** What a command line makes the shell say. Commands whose output is only fixed
      text, the clock, the network or another program are `Other`. */
  datatype Reply =
    | Blank
    | Dir(path: string)
    | Echo(text: string)
    | CdShow(current: string)
    | Cd(reply: CdReply)
    | Run(run: RunReply)
    | Halt
    | Unknown(cmd: string)
    | Other(cmd: string)

  /** The commands whose effect this model computes. */
  const Builtins: set<string> := {"DIR", "ECHO", "CD", "RUN", "EXIT"}

  /** The commands the loop dispatches to code outside this model. */
  const OtherCommands: set<string> := {"HELP", "CLS", "VER", "TIME", "GAMES", "OS", "PING", "PI", "SEDIT"}

  /** The replies after which the program reads no more lines: `EXIT`, and a `RUN`
      whose lookup raises, since nothing around the loop catches the error
      (SDOS.py:156-160, 249-251). */
  predicate EndsSession(reply: Reply) {
    reply.Halt? || (reply.Run? && reply.run.LookupCrash?)
  }

  /** The reply to a tokenised command (SDOS.py:168-244): the `elif` chain on the
      command word, with `RUN` dispatched to the lookup as written. */
  function Dispatch(cwd: string, c: Command): (r: (string, Reply))
    requires cwd in Files
    ensures r.0 in Files && !r.1.Blank?
    ensures r.0 != cwd ==> c.name == "CD" && r.1 == Cd(Moved)
    ensures r.1.Halt? <==> c.name == "EXIT"
    ensures r.1.Run? <==> c.name == "RUN"
    ensures r.1.Run? ==> r.1.run == RunAsWritten(cwd, c.args)
    ensures c.name == "DIR" ==> r == (cwd, Dir(cwd))
    ensures c.name == "ECHO" ==> r == (cwd, Echo(Join(c.args, " ")))
    ensures c.name == "CD" && c.args == [] ==> r == (cwd, CdShow(cwd))
    ensures c.name == "CD" && c.args != [] ==> r == (ChangeDir(cwd, c.args[0]).0, Cd(ChangeDir(cwd, c.args[0]).1))
    ensures c.name in OtherCommands ==> r == (cwd, Other(c.name))
    ensures r.1.Unknown? <==> c.name !in Builtins + OtherCommands
    ensures r.1.Unknown? ==> r == (cwd, Unknown(c.name))
  {
    var cmd, args := c.name, c.args;
    if cmd == "DIR" then (cwd, Dir(cwd))
    else if cmd == "ECHO" then (cwd, Echo(Join(args, " ")))
    else if cmd == "CD" then
      if args == [] then (cwd, CdShow(cwd))
      else
        var (next, reply) := ChangeDir(cwd, args[0]);
        (next, Cd(reply))
    else if cmd == "RUN" then (cwd, Run(RunAsWritten(cwd, args)))
    else if cmd == "EXIT" then (cwd, Halt)
    else if cmd in OtherCommands then (cwd, Other(cmd))
    else (cwd, Unknown(cmd))
  }

  /** One command line (SDOS.py:159-244): the new current directory and the reply. */
  function Exec(cwd: string, line: string): (r: (string, Reply))
    requires cwd in Files
    ensures r.0 in Files
    ensures r.1.Blank? <==> Tokenise(line).None?
    ensures Tokenise(line).Some? ==> r == Dispatch(cwd, Tokenise(line).value)
    ensures r.1.Halt? <==> Tokenise(line).Some? && Tokenise(line).value.name == "EXIT"
    ensures r.0 != cwd ==> Tokenise(line).Some? && Tokenise(line).value.name == "CD" && r.1 == Cd(Moved)
    ensures r.1.Run? <==> Tokenise(line).Some? && Tokenise(line).value.name == "RUN"
    ensures r.1.Run? ==> r.1.run == RunAsWritten(cwd, Tokenise(line).value.args)
  {
    match Tokenise(line)
    case None => (cwd, Blank)
    case Some(c) => Dispatch(cwd, c)
  }

  /** The replies to a run of input lines; the shell stops reading after `EXIT` or
      a `RUN` that crashes. */
  function Transcript(cwd: string, input: seq<string>): (r: (string, seq<Reply>))
    requires cwd in Files
    ensures r.0 in Files
    ensures |r.1| <= |input|
    decreases |input|
  {
    if input == [] then (cwd, [])
    else
      var step := Exec(cwd, input[0]);
      if EndsSession(step.1) then (step.0, [step.1])
      else
        var rest := Transcript(step.0, input[1..]);
        (rest.0, [step.1] + rest.1)
  }

  /** Only the last reply may end the session, and when the replies are fewer than
      `n` input lines, the last one did. */
  predicate StopsAtEnd(replies: seq<Reply>, n: nat) {
    (forall k :: 0 <= k < |replies| - 1 ==> !EndsSession(replies[k])) &&
    (|replies| < n ==> |replies| > 0 && EndsSession(replies[|replies| - 1]))
  }

  lemma ConsStops(x: Reply, rest: seq<Reply>, n: nat)
    requires !EndsSession(x) && StopsAtEnd(rest, n)
    ensures StopsAtEnd([x] + rest, n + 1)
  {
    Cons(x, rest);
  }

  /** Only the last reply can end the session, and the shell answers fewer lines
      than it was given only when it stopped at `EXIT` or at a crashing `RUN`. */
  lemma {:induction false} TranscriptStopsAtEnd(cwd: string, input: seq<string>)
    requires cwd in Files
    ensures StopsAtEnd(Transcript(cwd, input).1, |input|)
    decreases |input|
  {
    if input != [] {
      var step := Exec(cwd, input[0]);
      if !EndsSession(step.1) {
        TranscriptStopsAtEnd(step.0, input[1..]);
        ConsStops(step.1, Transcript(step.0, input[1..]).1, |input| - 1);
      }
    }
  }

  /** The first line is answered by `Exec`; the rest of the input is read from the
      directory it leaves, unless its reply ended the session. */
  lemma TranscriptStep(cwd: string, line: string, rest: seq<string>)
    requires cwd in Files
    ensures var step := Exec(cwd, line);
      Transcript(cwd, [line] + rest) ==
        if EndsSession(step.1) then (step.0, [step.1])
        else (Transcript(step.0, rest).0, [step.1] + Transcript(step.0, rest).1)
  {
    var input := [line] + rest;
    assert input[0] == line && input[1..] == rest;
  }

  /** `EXIT`, in any letter case, ends the session: nothing after it is read. */
  lemma ExitEndsSession(cwd: string, w: string, rest: seq<string>)
    requires cwd in Files && w != [] && NoSpace(w) && Upper(w) == "EXIT"
    ensures Transcript(cwd, [w] + rest) == (cwd, [Halt])
  {
    TokeniseWord(w);
    TranscriptStep(cwd, w, rest);
  }

  /** `CD target` replies with the outcome of `ChangeDir` and moves there. */
  lemma ExecCd(cwd: string, target: string)
    requires cwd in Files && target != [] && NoSpace(target)
    ensures Exec(cwd, "CD " + target) == (ChangeDir(cwd, target).0, Cd(ChangeDir(cwd, target).1))
  {
    assert NoSpace("CD");
    TokeniseCommand("CD", target);
    UpperFixed("CD");
    assert "CD" + " " == "CD ";
  }

  /** `RUN name` tokenises as the command `RUN` with the one argument `name`. */
  lemma TokeniseRun(name: string)
    requires name != [] && NoSpace(name)
    ensures Tokenise("RUN " + name) == Some(Command("RUN", [name]))
  {
    assert NoSpace("RUN");
    TokeniseCommand("RUN", name);
    UpperFixed("RUN");
    assert "RUN" + " " == "RUN ";
  }

  /** A `RUN` line leaves the directory and replies with the lookup as written. */
  lemma ExecRun(cwd: string, line: string, args: seq<string>)
    requires cwd in Files && Tokenise(line) == Some(Command("RUN", args))
    ensures Exec(cwd, line) == (cwd, Run(RunAsWritten(cwd, args)))
  {
  }

  /** `RUN name.SDOS` crashes in every directory and leaves it unchanged. */
  lemma ExecRunScript(cwd: string, name: string)
    requires cwd in Files && name != [] && NoSpace(name) && EndsWith(Upper(name), ".SDOS")
    ensures Exec(cwd, "RUN " + name) == (cwd, Run(LookupCrash))
  {
    TokeniseRun(name);
    ExecRun(cwd, "RUN " + name, [name]);
    RunAlwaysCrashes(cwd, [name]);
  }

  /** So `RUN name.SDOS` ends the program: nothing after it is read. */
  lemma RunEndsSession(cwd: string, name: string, rest: seq<string>)
    requires cwd in Files && name != [] && NoSpace(name) && EndsWith(Upper(name), ".SDOS")
    ensures Transcript(cwd, ["RUN " + name] + rest) == (cwd, [Run(LookupCrash)])
  {
    var input := ["RUN " + name] + rest;
    assert input[0] == "RUN " + name;
    ExecRunScript(cwd, name);
    assert EndsSession(Run(LookupCrash));
  }

  /** `current_dir` together with the loop that reads and runs command lines. */
  class Shell {
    var currentDir: string

    ghost predicate Valid()
      reads this
    {
      currentDir in Files
    }

    constructor ()
      ensures Valid() && currentDir == StartDir
    {
      currentDir := StartDir;
    }

    method Execute(line: string) returns (reply: Reply)
      requires Valid()
      modifies this
      ensures Valid()
      ensures (currentDir, reply) == Exec(old(currentDir), line)
    {
      var tokens := Tokenise(line);
      if tokens.None? {
        return Blank;
      }
      var cmd, args := tokens.value.name, tokens.value.args;
      if cmd == "DIR" {
        reply := Dir(currentDir);
      } else if cmd == "ECHO" {
        reply := Echo(Join(args, " "));
      } else if cmd == "CD" {
        if args == [] {
          reply := CdShow(currentDir);
        } else {
          var next, cd := ChangeDir(currentDir, args[0]).0, ChangeDir(currentDir, args[0]).1;
          currentDir := next;
          reply := Cd(cd);
        }
      } else if cmd == "RUN" {
        reply := Run(RunAsWritten(currentDir, args));
      } else if cmd == "EXIT" {
        reply := Halt;
      } else if cmd in OtherCommands {
        reply := Other(cmd);
      } else {
        reply := Unknown(cmd);
      }
    }

    /** `dos_loop`: run the lines until `EXIT`, a crashing `RUN`, or the end of the
        input. */
    method Loop(input: seq<string>) returns (replies: seq<Reply>)
      requires Valid()
      modifies this
      ensures Valid()
      ensures (currentDir, replies) == Transcript(old(currentDir), input)
    {
      ghost var start := currentDir;
      replies := [];
      var i := 0;
      assert input[0..] == input;
      while i < |input|
        invariant 0 <= i <= |input| && Valid()
        invariant Transcript(start, input).0 == Transcript(currentDir, input[i..]).0
        invariant Transcript(start, input).1 == replies + Transcript(currentDir, input[i..]).1
      {
        DropFirst(input, i);
        var reply := Execute(input[i]);
        ConcatAssoc(replies, [reply], Transcript(currentDir, input[i + 1..]).1);
        replies := replies + [reply];
        i := i + 1;
        if EndsSession(reply) {
          return;
        }
      }
      assert replies + [] == replies;
    }
  }
}
