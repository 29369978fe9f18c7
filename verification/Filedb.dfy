/** The log file: lines are appended, and the last one is read back through a window of 1024 bytes. */
module Filedb {

  const WINDOW: int := 1024

  type Text = seq<char>

  // ---- the library functions it uses ----

  predicate Blank(c: char) {
    c == ' ' || c == '\n'
  }

  function TrimLeft(s: Text): Text {
    if s != [] && Blank(s[0]) then TrimLeft(s[1..]) else s
  }

  function TrimRight(s: Text): Text {
    if s != [] && Blank(s[|s| - 1]) then TrimRight(s[..|s| - 1]) else s
  }

  function Trim(s: Text): Text {
    TrimLeft(TrimRight(s))
  }

  /** The last element of strings.Split at line breaks. */
  function LastPiece(s: Text): Text {
    if s == [] || s[|s| - 1] == '\n' then [] else LastPiece(s[..|s| - 1]) + [s[|s| - 1]]
  }

  function LastLine(content: Text): Text {
    LastPiece(Trim(if |content| < WINDOW then content else content[|content| - WINDOW..]))
  }

  class File {
    var content: Text

    constructor ()
      ensures content == []
    {
      content := [];
    }

    method WriteLine(s: Text)
      modifies this
      ensures content == old(content) + s
    {
      content := content + s;
    }

    /** Fill a buffer of at most 1024 bytes from the end of the file and take its last line. */
    method ReadLastLine() returns (s: Text)
      ensures s == LastLine(content)
    {
      var size := |content|;
      var off := 0;
      var b: array<char>;
      if size < WINDOW {
        b := new char[size](_ => ' ');
      } else {
        b := new char[WINDOW](_ => ' ');
        off := size - WINDOW;
      }
      var i := 0;
      while i < b.Length
        invariant 0 <= i <= b.Length && off + b.Length == size
        invariant b[..i] == content[off..off + i]
      {
        b[i] := content[off + i];
        i := i + 1;
      }
      assert b[..] == b[..i] && content[off..size] == content[off..];
      s := LastPiece(Trim(b[..]));
    }
  }

  // ---- what is read back ----

  /** A record: no line break in it, and no blank at either end. */
  ghost predicate Record(s: Text) {
    s != [] && !Blank(s[0]) && !Blank(s[|s| - 1]) && forall i :: 0 <= i < |s| ==> s[i] != '\n'
  }

  /** The content of a file after its records were written, each ended by a line break. */
  function Written(records: seq<Text>): Text {
    if records == [] then []
    else Written(records[..|records| - 1]) + (records[|records| - 1] + ['\n'])
  }

  ghost predicate WholeLines(s: Text) {
    s == [] || s[|s| - 1] == '\n'
  }

  lemma {:induction false} PieceAfterLines(lines: Text, s: Text)
    requires WholeLines(lines) && forall i :: 0 <= i < |s| ==> s[i] != '\n'
    ensures LastPiece(lines + s) == s
  {
    if s == [] {
      assert lines + s == lines;
    } else {
      var n := |s| - 1;
      assert (lines + s)[..|lines + s| - 1] == lines + s[..n];
      PieceAfterLines(lines, s[..n]);
      assert s[..n] + [s[n]] == s;
    }
  }

  lemma {:induction false} TrimKeepsLastRecord(lines: Text, s: Text)
    requires WholeLines(lines) && Record(s)
    ensures LastPiece(TrimLeft(lines + s)) == s
  {
    if lines == [] {
      assert lines + s == s;
      PieceAfterLines([], s);
      assert [] + s == s;
    } else if Blank(lines[0]) {
      assert (lines + s)[1..] == lines[1..] + s;
      TrimKeepsLastRecord(lines[1..], s);
    } else {
      PieceAfterLines(lines, s);
    }
  }

  lemma TrimDropsLineBreak(t: Text)
    requires t != [] && !Blank(t[|t| - 1])
    ensures TrimRight(t + ['\n']) == t
  {
    assert (t + ['\n'])[..|t|] == t;
  }

  lemma {:induction false} TrimLeftShortens(s: Text)
    ensures |TrimLeft(s)| <= |s|
  {
    if s != [] && Blank(s[0]) { TrimLeftShortens(s[1..]); }
  }

  lemma {:induction false} PieceIsPart(s: Text)
    ensures |LastPiece(s)| <= |s|
  {
    if s != [] && s[|s| - 1] != '\n' { PieceIsPart(s[..|s| - 1]); }
  }

  lemma WrittenIsLines(records: seq<Text>)
    ensures WholeLines(Written(records))
  {}

  // A window over whole lines followed by all of the last record.
  lemma WideWindow(before: Text, last: Text)
    requires WholeLines(before) && Record(last) && |last| < WINDOW
    ensures LastLine(before + (last + ['\n'])) == last
  {
    var content := before + (last + ['\n']);
    var off := if |content| < WINDOW then 0 else |content| - WINDOW;
    var seen := before[off..];
    assert content[off..] == (seen + last) + ['\n'];
    assert (if |content| < WINDOW then content else content[|content| - WINDOW..]) == content[off..];
    TrimDropsLineBreak(seen + last);
    TrimKeepsLastRecord(seen, last);
  }

  // A window that begins inside the last record.
  lemma NarrowWindow(before: Text, last: Text)
    requires Record(last) && |last| >= WINDOW
    ensures |LastLine(before + (last + ['\n']))| < |last|
  {
    var content := before + (last + ['\n']);
    var cut := last[|last| - WINDOW + 1..];
    assert content[|content| - WINDOW..] == cut + ['\n'];
    TrimDropsLineBreak(cut);
    TrimLeftShortens(cut);
    PieceIsPart(TrimLeft(cut));
  }

  /** The last record is read back exactly when it is shorter than the window; what is read of a longer one is not a
      record that was written last. */
  lemma LastRecordIsReadBack(records: seq<Text>)
    requires records != [] && forall i :: 0 <= i < |records| ==> Record(records[i])
    ensures LastLine(Written(records)) == records[|records| - 1] <==> |records[|records| - 1]| < 1024
  {
    var before, last := Written(records[..|records| - 1]), records[|records| - 1];
    WrittenIsLines(records[..|records| - 1]);
    if |last| < WINDOW { WideWindow(before, last); } else { NarrowWindow(before, last); }
  }

  // ---- whatever the file holds ----

  ghost predicate AllBlank(s: Text) {
    forall i :: 0 <= i < |s| ==> Blank(s[i])
  }

  /** The last line of a text between blanks: up to its last character that is not blank, from the last line break
      before that, or from the first such character if there is none. */
  ghost predicate IsLastLine(window: Text, before: Text, s: Text, after: Text) {
    && window == before + s + after && AllBlank(after) && (forall i :: 0 <= i < |s| ==> s[i] != '\n')
    && (s == [] ==> AllBlank(window))
    && (s != [] ==> !Blank(s[|s| - 1]) && (if AllBlank(before) then !Blank(s[0]) else before[|before| - 1] == '\n'))
  }

  lemma {:induction false} RightBlanks(s: Text) returns (after: Text)
    ensures s == TrimRight(s) + after && AllBlank(after)
    ensures TrimRight(s) == [] || !Blank(TrimRight(s)[|TrimRight(s)| - 1])
  {
    if s != [] && Blank(s[|s| - 1]) {
      var more := RightBlanks(s[..|s| - 1]);
      after := more + [s[|s| - 1]];
    } else {
      after := [];
    }
  }

  lemma {:induction false} LeftBlanks(s: Text) returns (before: Text)
    ensures s == before + TrimLeft(s) && AllBlank(before)
    ensures TrimLeft(s) == [] || !Blank(TrimLeft(s)[0])
  {
    if s != [] && Blank(s[0]) {
      var more := LeftBlanks(s[1..]);
      before := [s[0]] + more;
    } else {
      before := [];
    }
  }

  lemma {:induction false} LinesBefore(s: Text) returns (before: Text)
    ensures s == before + LastPiece(s) && WholeLines(before)
    ensures forall i :: 0 <= i < |LastPiece(s)| ==> LastPiece(s)[i] != '\n'
  {
    if s == [] || s[|s| - 1] == '\n' {
      before := s;
    } else {
      before := LinesBefore(s[..|s| - 1]);
    }
  }

  lemma LineAfterBlanks(left: Text, lines: Text, s: Text)
    requires AllBlank(left) && WholeLines(lines) && forall i :: 0 <= i < |s| ==> s[i] != '\n'
    requires var u := lines + s; u == [] || (!Blank(u[0]) && !Blank(u[|u| - 1]))
    ensures IsLastLine(left + (lines + s), left + lines, s, [])
  {
    var u, before := lines + s, left + lines;
    assert left + u == before + s + [];
    if s == [] {
      assert u == lines;
    } else {
      assert u[|u| - 1] == s[|s| - 1];
      if lines == [] {
        assert u == s && before == left;
      } else {
        assert u[0] == lines[0] && before[|left|] == lines[0];
      }
    }
  }

  lemma TrimmedLine(t: Text) returns (before: Text)
    requires t == [] || !Blank(t[|t| - 1])
    ensures IsLastLine(t, before, LastPiece(TrimLeft(t)), [])
  {
    var left := LeftBlanks(t);
    var u := TrimLeft(t);
    var lines := LinesBefore(u);
    before := left + lines;
    if u != [] { assert u[|u| - 1] == t[|t| - 1]; }
    LineAfterBlanks(left, lines, LastPiece(u));
  }

  lemma BlanksBehind(t: Text, before: Text, s: Text, after: Text)
    requires IsLastLine(t, before, s, []) && AllBlank(after)
    ensures IsLastLine(t + after, before, s, after)
  {
    assert before + s + [] == before + s;
  }

  /** What is read back of any file is the last line of its last 1024 characters. */
  lemma LastLineIsRead(content: Text) returns (before: Text, after: Text)
    ensures IsLastLine(if |content| < 1024 then content else content[|content| - 1024..], before, LastLine(content),
                       after)
  {
    var window := if |content| < 1024 then content else content[|content| - 1024..];
    after := RightBlanks(window);
    before := TrimmedLine(TrimRight(window));
    BlanksBehind(TrimRight(window), before, LastLine(content), after);
  }
}
