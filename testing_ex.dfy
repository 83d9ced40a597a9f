/**
 * Decoration of test log lines with the caller's file and line. The
 * caller lookup (runtime.Caller) is a parameter: the file and line it
 * reports, or nothing when the caller is unknown.
 */
module TestingEx {
  import opened Wrappers
  import opened GoStrings

  datatype Caller = Caller(file: string, line: int)

  /** The text after the last c, or all of s when it has no c. */
  function CutAfterLast(s: string, c: char): (r: string)
    ensures c !in r
    ensures |r| <= |s| && r == s[|s| - |r|..]
    ensures c !in s ==> r == s
    ensures c in s ==> |r| < |s| && s[|s| - |r| - 1] == c
  {
    var i := LastIndex(s, c);
    if i >= 0 then
      AfterLast(s, c);
      s[i + 1..]
    else s
  }

  /** The file name cut after the last '/', or after the last '\\' when there is no '/'. */
  function BaseName(file: string): (r: string)
    ensures '/' !in r
    ensures '/' in file ==> r == CutAfterLast(file, '/')
    ensures '/' !in file ==> '\\' !in r
    ensures '/' !in file ==> r == CutAfterLast(file, '\\')
    ensures '/' !in file && '\\' !in file ==> r == file
    ensures |r| <= |file| && r == file[|file| - |r|..]
  {
    if '/' in file then CutAfterLast(file, '/')
    else
      var r := CutAfterLast(file, '\\');
      NotInSuffix(file, |file| - |r|, '/');
      r
  }

  /** A character absent from a text is absent from its suffixes. */
  lemma NotInSuffix(s: string, k: nat, c: char)
    requires k <= |s| && c !in s
    ensures c !in s[k..]
  {
    var t := s[k..];
    forall j | 0 <= j < |t|
      ensures t[j] != c
    {
      assert t[j] == s[k + j];
    }
  }

  /** The text after the last occurrence of c does not contain c. */
  lemma AfterLast(s: string, c: char)
    requires LastIndex(s, c) >= 0
    ensures c !in s[LastIndex(s, c) + 1..]
  {
    var i := LastIndex(s, c);
    var t := s[i + 1..];
    forall k | 0 <= k < |t|
      ensures t[k] != c
    {
      assert t[k] == s[i + 1 + k];
    }
  }

  /** The file and line a decorated line starts with: "???" and 1 for an unknown caller. */
  function Location(caller: Option<Caller>): (string, int)
  {
    if caller.Some? then (BaseName(caller.value.file), caller.value.line) else ("???", 1)
  }

  /** The message split into lines, without the one empty piece a trailing newline leaves. */
  function Lines(s: string): (lines: seq<string>)
    ensures |lines| >= 1
  {
    var pieces := Split(s, '\n');
    if |pieces| > 1 && pieces[|pieces| - 1] == "" then pieces[..|pieces| - 1] else pieces
  }

  /** The text every decorated message starts with. */
  function Header(caller: Option<Caller>): string
  {
    var (file, line) := Location(caller);
    "\t" + file + ":" + IntToString(line) + ": "
  }

  /** The decorated message: the header, the lines joined by a newline and two tabs, one final newline. */
  function Decorated(caller: Option<Caller>, s: string): string
  {
    Header(caller) + Join(Lines(s), "\n\t\t") + "\n"
  }

  /** decorateWithCalldepth, writing the pieces one after another into a buffer. */
  method Decorate(caller: Option<Caller>, s: string) returns (out: string)
    ensures out == Decorated(caller, s)
  {
    var buf := Header(caller);
    ghost var head := buf;
    var lines := Lines(s);
    var i := 0;
    while i < |lines|
      invariant 0 <= i <= |lines|
      invariant buf == head + Join(lines[..i], "\n\t\t")
    {
      JoinStep(lines, i, "\n\t\t");
      if i > 0 {
        AppendAssoc(head, Join(lines[..i], "\n\t\t"), "\n\t\t");
        buf := buf + "\n\t\t";
      }
      AppendAssoc(head, Join(lines[..i], "\n\t\t") + (if i > 0 then "\n\t\t" else ""), lines[i]);
      buf := buf + lines[i];
      i := i + 1;
    }
    assert lines[..i] == lines;
    out := buf + "\n";
  }

  /** Joining one more line adds the separator, unless it is the first, and the line. */
  lemma JoinStep(lines: seq<string>, i: nat, sep: string)
    requires i < |lines|
    ensures Join(lines[..i + 1], sep) == Join(lines[..i], sep) + (if i > 0 then sep else "") + lines[i]
  {
    assert lines[..i + 1] == lines[..i] + [lines[i]];
    if i > 0 {
      JoinSnoc(lines[..i], lines[i], sep);
    } else {
      assert lines[..1] == [lines[0]];
    }
  }

  /**
   * The lines, joined back with '\n', give the message without its
   * trailing newline: the message itself when it has none.
   */
  lemma LinesRoundTrip(s: string)
    ensures |s| > 0 && s[|s| - 1] == '\n' ==> Join(Lines(s), "\n") + "\n" == s
    ensures (|s| == 0 || s[|s| - 1] != '\n') ==> Join(Lines(s), "\n") == s
    ensures forall k :: 0 <= k < |Lines(s)| ==> '\n' !in Lines(s)[k]
  {
    SplitPiecesAvoidSep(s, '\n');
    if |s| > 0 && s[|s| - 1] == '\n' {
      var t := s[..|s| - 1];
      assert s == t + ['\n'];
      SplitSnocSep(t, '\n');
      JoinSplit(t, '\n');
      assert Lines(s) == Split(t, '\n');
    } else {
      JoinSplit(s, '\n');
      var pieces := Split(s, '\n');
      if |pieces| > 1 && pieces[|pieces| - 1] == "" {
        LastPieceNonEmpty(s, '\n');
      }
    }
    assert "\n" == ['\n'];
  }

  /** Text that does not end with the separator has a non-empty last piece unless it is empty itself. */
  lemma {:induction false} LastPieceNonEmpty(s: string, sep: char)
    requires |s| > 0 && s[|s| - 1] != sep
    ensures Split(s, sep)[|Split(s, sep)| - 1] != ""
    decreases |s|
  {
    var i := IndexOf(s, sep);
    if i >= 0 {
      var tail := s[i + 1..];
      assert tail[|tail| - 1] == s[|s| - 1];
      LastPieceNonEmpty(tail, sep);
      var rest := Split(tail, sep);
      assert Split(s, sep) == [s[..i]] + rest;
      assert Split(s, sep)[|Split(s, sep)| - 1] == rest[|rest| - 1];
    }
  }

  /**
   * The newline fmt.Sprintln puts after a message is not doubled: the
   * message decorates the same with or without it.
   */
  lemma TrailingNewlineNotDoubled(caller: Option<Caller>, t: string)
    requires |t| == 0 || t[|t| - 1] != '\n'
    ensures Decorated(caller, t + "\n") == Decorated(caller, t)
  {
    SplitSnocSep(t, '\n');
    assert t + "\n" == t + ['\n'];
    var pieces := Split(t, '\n');
    if |pieces| > 1 && pieces[|pieces| - 1] == "" {
      LastPieceNonEmpty(t, '\n');
    }
    assert (pieces + [""])[..|pieces|] == pieces;
  }

  /** An unknown caller is reported as file "???" at line 1; a known one by the base name of its file. */
  lemma LocationRules(caller: Option<Caller>)
    ensures caller.None? ==> Header(caller) == "\t???:1: "
    ensures caller.Some? ==> Header(caller) == "\t" + BaseName(caller.value.file) + ":" + IntToString(caller.value.line) + ": "
  {
    if caller.None? {
      assert IntToString(1) == "1";
    }
  }

  /** The part of the test state that collects log output. */
  class Common {
    var output: string

    constructor()
      ensures output == ""
    {
      output := "";
    }

    /** logWithCalldepth: the decorated message is appended to the output. */
    method LogWithCalldepth(caller: Option<Caller>, s: string)
      modifies this
      ensures output == old(output) + Decorated(caller, s)
    {
      var d := Decorate(caller, s);
      output := output + d;
    }

    /**
     * LogCalldepth with string operands: fmt.Sprintln separates them by
     * spaces and ends them with a newline.
     */
    method LogCalldepth(caller: Option<Caller>, args: seq<string>)
      modifies this
      ensures output == old(output) + Decorated(caller, Join(args, " ") + "\n")
    {
      LogWithCalldepth(caller, Join(args, " ") + "\n");
    }
  }
}
