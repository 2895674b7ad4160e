/** The file system as the core uses it: whole-file text by path, `File.exists`,
    writers that truncate or append, and line-by-line reading. */
module FileSystem {
  import opened Wrappers

  /** The text of a file, or "" when there is none. */
  function ContentsOf(files: map<string, string>, path: string): string {
    if path in files then files[path] else ""
  }

  /** The files the core reads and writes. A path in `unwritable` is one whose
      output stream cannot be opened (a missing directory, no permission): opening
      it throws, and nothing is written. Once a stream is open, `PrintWriter`
      swallows write errors, so a write either happens in full or not at all. */
  class FileStore {
    var files: map<string, string>
    var unwritable: set<string>

    constructor (files0: map<string, string>, unwritable0: set<string>)
      ensures files == files0 && unwritable == unwritable0
    {
      files := files0;
      unwritable := unwritable0;
    }

    /** `new File(path).exists()`. */
    predicate Exists(path: string)
      reads this
    {
      path in files
    }

    /** A `FileOutputStream(path)` writer: the file is replaced by `content`. */
    method Overwrite(path: string, content: string) returns (ok: bool)
      modifies this`files
      ensures ok <==> path !in unwritable
      ensures ok ==> files == old(files)[path := content]
      ensures !ok ==> files == old(files)
    {
      ok := path !in unwritable;
      if ok {
        files := files[path := content];
      }
    }

    /** A `FileOutputStream(path, true)` writer: `content` is added after the existing
        text, and a missing file is created. */
    method Append(path: string, content: string) returns (ok: bool)
      modifies this`files
      ensures ok <==> path !in unwritable
      ensures ok ==> files == old(files)[path := ContentsOf(old(files), path) + content]
      ensures !ok ==> files == old(files)
    {
      ok := path !in unwritable;
      if ok {
        files := files[path := ContentsOf(files, path) + content];
      }
    }

    /** A `FileInputStream(path)` read of the whole text; `None` where opening throws. */
    method Read(path: string) returns (r: Option<string>)
      ensures path in files <==> r != None
      ensures path in files ==> r == Some(files[path])
    {
      if path in files {
        r := Some(files[path]);
      } else {
        r := None;
      }
    }
  }

  // ---- lines -------------------------------------------------------------------

  /** What successive `println` calls write: each line followed by a line feed. */
  function Lines(ls: seq<string>): string {
    if ls == [] then "" else ls[0] + "\n" + Lines(ls[1..])
  }

  predicate IsBreak(c: char) {
    c == '\n' || c == '\r'
  }

  /** A line holds no line feed and no carriage return. */
  predicate OneLine(s: string) {
    forall i | 0 <= i < |s| :: !IsBreak(s[i])
  }

  /** The position of the first line break in `s`, or `|s|`. */
  function LineEnd(s: string): (k: nat)
    ensures k <= |s|
    ensures k < |s| ==> IsBreak(s[k])
    decreases |s|
  {
    if |s| == 0 || IsBreak(s[0]) then 0 else 1 + LineEnd(s[1..])
  }

  /** The lines `BufferedReader.readLine` returns until it returns null: a line ends
      at a line feed, a carriage return, or a carriage return followed by a line
      feed, and text after the last break is a final line. */
  function ReadLines(s: string): seq<string>
    decreases |s|
  {
    if s == [] then []
    else
      var k := LineEnd(s);
      if k == |s| then [s]
      else if s[k] == '\r' && k + 1 < |s| && s[k + 1] == '\n' then [s[..k]] + ReadLines(s[k + 2..])
      else [s[..k]] + ReadLines(s[k + 1..])
  }

  lemma {:induction false} LinesAppend(a: seq<string>, b: seq<string>)
    ensures Lines(a + b) == Lines(a) + Lines(b)
    decreases |a|
  {
    if a != [] {
      assert (a + b)[1..] == a[1..] + b;
      LinesAppend(a[1..], b);
    } else {
      assert a + b == b;
    }
  }

  lemma {:induction false} LineEndOfLine(l: string, rest: string)
    requires OneLine(l)
    ensures LineEnd(l + "\n" + rest) == |l|
    decreases |l|
  {
    if l != [] {
      assert (l + "\n" + rest)[1..] == l[1..] + "\n" + rest;
      LineEndOfLine(l[1..], rest);
    }
  }

  /** One more `println` adds the line and a line feed at the end. */
  lemma LinesSnoc(ls: seq<string>, l: string)
    ensures Lines(ls + [l]) == Lines(ls) + l + "\n"
  {
    LinesAppend(ls, [l]);
    assert Lines([l]) == l + "\n" + "";
  }

  /** One line written with its line feed is read back as that line. */
  lemma ReadLinesStep(l: string, rest: string)
    requires OneLine(l)
    ensures ReadLines(l + "\n" + rest) == [l] + ReadLines(rest)
  {
    var s := l + "\n" + rest;
    LineEndOfLine(l, rest);
    assert s[..|l|] == l;
    assert s[|l| + 1..] == rest;
  }

  lemma LinesCons(ls: seq<string>, rest: string)
    requires ls != []
    ensures Lines(ls) + rest == ls[0] + "\n" + (Lines(ls[1..]) + rest)
  {
  }

  lemma ConsAppend<T>(xs: seq<T>, ys: seq<T>)
    requires xs != []
    ensures [xs[0]] + (xs[1..] + ys) == xs + ys
  {
  }

  /** Text written line by line and read back line by line gives the same lines,
      followed by the lines of whatever comes after, provided no written line holds a
      line break of its own. */
  lemma {:induction false} ReadLinesOfLines(ls: seq<string>, rest: string)
    requires forall i | 0 <= i < |ls| :: OneLine(ls[i])
    ensures ReadLines(Lines(ls) + rest) == ls + ReadLines(rest)
    decreases |ls|
  {
    if ls != [] {
      LinesCons(ls, rest);
      ReadLinesStep(ls[0], Lines(ls[1..]) + rest);
      ReadLinesOfLines(ls[1..], rest);
      ConsAppend(ls, ReadLines(rest));
    } else {
      assert Lines(ls) + rest == rest;
    }
  }

  /** Text written line by line reads back as exactly its lines. */
  lemma ReadBack(ls: seq<string>)
    requires forall i | 0 <= i < |ls| :: OneLine(ls[i])
    ensures ReadLines(Lines(ls)) == ls
  {
    ReadLinesOfLines(ls, "");
    assert Lines(ls) + "" == Lines(ls);
    assert ls + ReadLines("") == ls;
  }
}
