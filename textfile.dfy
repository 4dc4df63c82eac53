/** The on-disk format of the editor (`load_file`, `save_file`, sedit.py:55-69):
    lines joined by newlines with a final newline; reading splits the text into
    lines after universal-newline translation and strips the trailing newline of
    each. */
module TextFile {
  import opened Text
  import opened Opt

  /** The text `save_file` writes. */
  function Serialize(lines: seq<string>): string {
    Join(lines, "\n") + "\n"
  }

  /** The lines `load_file` puts in the buffer; `None` is a file that does not exist. */
  function Load(content: Option<string>): (lines: seq<string>)
    ensures content.None? ==> lines == [""]
    ensures forall k :: 0 <= k < |lines| ==> '\n' !in lines[k] && '\r' !in lines[k]
  {
    match content
    case None => [""]
    case Some(t) =>
      var raw := ReadLines(Universal(t));
      var lines := seq(|raw|, k requires 0 <= k < |raw| => RStripChar(raw[k], '\n'));
      ReadLinesShape(Universal(t), '\r');
      assert forall k :: 0 <= k < |lines| ==> '\n' !in lines[k] && '\r' !in lines[k] by {
        forall k | 0 <= k < |lines| ensures '\n' !in lines[k] && '\r' !in lines[k] {
          var r := raw[k];
          assert '\n' !in r[..|r| - 1] && '\r' !in r;
          var l := lines[k];
          assert l == r[..|l|];
          if |l| > 0 {
            assert l == r[..|l| - 1] + [l[|l| - 1]];
            assert r[..|l| - 1] == r[..|r| - 1][..|l| - 1];
          }
        }
      }
      lines
  }

  /** Saving writes every line followed by a newline. */
  function Terminated(lines: seq<string>): string {
    if lines == [] then [] else lines[0] + "\n" + Terminated(lines[1..])
  }

  lemma {:induction false} SerializeTerminated(lines: seq<string>)
    requires lines != []
    ensures Serialize(lines) == Terminated(lines)
    decreases |lines|
  {
    if |lines| > 1 {
      SerializeTerminated(lines[1..]);
    }
  }

  predicate NoBreaks(lines: seq<string>) {
    forall k :: 0 <= k < |lines| ==> '\n' !in lines[k] && '\r' !in lines[k]
  }

  lemma {:induction false} TerminatedPlain(lines: seq<string>)
    requires NoBreaks(lines)
    ensures '\r' !in Terminated(lines)
    decreases |lines|
  {
    if lines != [] {
      TerminatedPlain(lines[1..]);
    }
  }

  lemma {:induction false} ReadTerminated(lines: seq<string>)
    requires NoBreaks(lines)
    ensures ReadLines(Terminated(lines)) == seq(|lines|, k requires 0 <= k < |lines| => lines[k] + "\n")
    decreases |lines|
  {
    if lines != [] {
      ReadLinesHead(lines[0], Terminated(lines[1..]));
      ReadTerminated(lines[1..]);
    }
  }

  /** Loading what was saved gives the same lines back, for a non-empty document
      whose lines hold no line-break characters. */
  lemma LoadSave(lines: seq<string>)
    requires lines != []
    requires NoBreaks(lines)
    ensures Load(Some(Serialize(lines))) == lines
  {
    SerializeTerminated(lines);
    TerminatedPlain(lines);
    UniversalPlain(Terminated(lines));
    ReadTerminated(lines);
    var raw := ReadLines(Universal(Serialize(lines)));
    assert raw == seq(|lines|, k requires 0 <= k < |lines| => lines[k] + "\n");
    var loaded := Load(Some(Serialize(lines)));
    assert |loaded| == |lines|;
    forall k | 0 <= k < |lines| ensures loaded[k] == lines[k] {
      var l := lines[k];
      assert raw[k] == l + "\n";
      assert (l + "\n")[..|l + "\n"| - 1] == l;
      assert l == [] || l[|l| - 1] != '\n';
      assert (l + "\n")[..|l|] == l;
      assert RStripChar(l + "\n", '\n') == RStripChar(l, '\n') == l;
    }
  }

  /** A document loaded from disk is stable under one more save and load. */
  lemma SaveLoadIdempotent(content: Option<string>)
    requires Load(content) != []
    ensures Load(Some(Serialize(Load(content)))) == Load(content)
  {
    LoadSave(Load(content));
  }

  /** A file that exists but is empty loads as a document with no lines at all. */
  lemma LoadEmptyFile()
    ensures Load(Some("")) == []
  {
  }

  /** The lines the editor starts from: what `Load` gives, except that an existing
      empty file opens as one empty line, as a missing file does, so the cursor
      always has a line to stand on. */
  function Open(content: Option<string>): (lines: seq<string>)
    ensures lines != [] && NoBreaks(lines)
    ensures Load(content) != [] ==> lines == Load(content)
    ensures content == Some("") ==> lines == [""]
  {
    var loaded := Load(content);
    if loaded == [] then [""] else loaded
  }

  /** An opened document survives a save and a load, the empty file included. */
  lemma OpenSave(content: Option<string>)
    ensures Load(Some(Serialize(Open(content)))) == Open(content)
  {
    LoadSave(Open(content));
  }

  /** A document with no lines is saved as one newline and comes back with one empty line. */
  lemma SaveNoLines()
    ensures Serialize([]) == "\n"
    ensures Load(Some(Serialize([]))) == [""]
  {
    var t := "\n";
    assert LineEnd(t) == 1;
    assert t[..1] == t && t[1..] == [];
    assert ReadLines(t) == [t];
  }

  /** The new-file state survives a save and a load. */
  lemma MissingFileRoundTrip()
    ensures Load(Some(Serialize(Load(None)))) == Load(None)
  {
    LoadSave([""]);
  }
}
