/**
 * The Dialog record of Assets/Scripts/Level/Dialog: a level number, a text
 * built from lines joined by newlines, its length, the audio length and the
 * icon name.
 */
module DialogText {

  /** No character of the line is a line break. */
  predicate SingleLine(s: string) {
    forall i :: 0 <= i < |s| ==> s[i] != '\n'
  }

  /** The lines with one "\n" between consecutive lines and none at the end. */
  function JoinLines(parts: seq<string>): string
    decreases |parts|
  {
    if |parts| == 0 then ""
    else if |parts| == 1 then parts[0]
    else parts[0] + "\n" + JoinLines(parts[1..])
  }

  /** Splitting at every "\n"; always at least one (possibly empty) piece. */
  function SplitLines(s: string): (r: seq<string>)
    ensures |r| >= 1
    decreases |s|
  {
    if |s| == 0 then [""]
    else if s[0] == '\n' then [""] + SplitLines(s[1..])
    else var rest := SplitLines(s[1..]); [[s[0]] + rest[0]] + rest[1..]
  }

  function TotalLength(parts: seq<string>): nat
    decreases |parts|
  {
    if |parts| == 0 then 0 else |parts[0]| + TotalLength(parts[1..])
  }

  /** Appending one line to a non-empty list adds a "\n" and that line at the end. */
  lemma {:induction false} JoinLinesSnoc(parts: seq<string>, p: string)
    requires |parts| >= 1
    ensures JoinLines(parts + [p]) == JoinLines(parts) + "\n" + p
    decreases |parts|
  {
    if |parts| == 1 {
      assert parts + [p] == [parts[0], p];
      assert [parts[0], p][1..] == [p];
    } else {
      var tail := parts[1..];
      assert (parts + [p])[1..] == tail + [p];
      JoinLinesSnoc(tail, p);
    }
  }

  /** A text of k >= 1 lines is as long as the lines together plus k - 1 line breaks. */
  lemma {:induction false} JoinLinesLength(parts: seq<string>)
    requires |parts| >= 1
    ensures |JoinLines(parts)| == TotalLength(parts) + |parts| - 1
    decreases |parts|
  {
    if |parts| > 1 {
      JoinLinesLength(parts[1..]);
    } else {
      assert parts[1..] == [];
    }
  }

  /** A single line splits into itself. */
  lemma {:induction false} SplitSingleLine(s: string)
    requires SingleLine(s)
    ensures SplitLines(s) == [s]
    decreases |s|
  {
    if |s| > 0 {
      SplitSingleLine(s[1..]);
      assert [s[0]] + s[1..] == s;
    }
  }

  /** Splitting a line followed by "\n" and a rest gives that line and the rest's pieces. */
  lemma {:induction false} SplitAfterLine(line: string, rest: string)
    requires SingleLine(line)
    ensures SplitLines(line + "\n" + rest) == [line] + SplitLines(rest)
    decreases |line|
  {
    if |line| == 0 {
      assert line + "\n" + rest == "\n" + rest;
      assert ("\n" + rest)[1..] == rest;
    } else {
      var s := line + "\n" + rest;
      assert s[0] == line[0];
      assert s[1..] == line[1..] + "\n" + rest;
      SplitAfterLine(line[1..], rest);
      assert [line[0]] + line[1..] == line;
    }
  }

  /**
   * The join can be undone: when no line holds a line break, splitting the
   * text at its line breaks gives exactly the lines back.
   */
  lemma {:induction false} SplitJoinLines(parts: seq<string>)
    requires |parts| >= 1
    requires forall k :: 0 <= k < |parts| ==> SingleLine(parts[k])
    ensures SplitLines(JoinLines(parts)) == parts
    decreases |parts|
  {
    if |parts| == 1 {
      SplitSingleLine(parts[0]);
    } else {
      SplitAfterLine(parts[0], JoinLines(parts[1..]));
      SplitJoinLines(parts[1..]);
      assert [parts[0]] + parts[1..] == parts;
    }
  }

  /** No lines give the empty text. */
  lemma NoLinesGiveEmptyText(parts: seq<string>)
    requires |parts| == 0
    ensures JoinLines(parts) == "" && TotalLength(parts) == 0
  {
  }

  /** The text of one dialog line. */
  class Dialog {
    var level: int
    var text: string
    var textLength: int
    var audioClipLength: real
    var icon: string
    var isEvil: bool

    /** Dialog(int): only the level is given, everything else is empty. */
    constructor (definedLevel: int)
      ensures level == definedLevel && text == "" && textLength == 0
      ensures audioClipLength == 0.0 && icon == "" && !isEvil
    {
      level := definedLevel;
      text := "";
      textLength := 0;
      audioClipLength := 0.0;
      icon := "";
      isEvil := false;
    }

    /**
     * setText: the text is rebuilt from nothing, so the old text plays no part,
     * and its length is recorded.
     */
    method SetText(parts: seq<string>)
      modifies this`text, this`textLength
      ensures text == JoinLines(parts) && textLength == |text|
    {
      var joined := "";
      for i := 0 to |parts|
        invariant joined == if i == 0 then "" else JoinLines(parts[..i]) + (if i < |parts| then "\n" else "")
        modifies {}
      {
        if i > 0 {
          JoinLinesSnoc(parts[..i], parts[i]);
          assert parts[..i + 1] == parts[..i] + [parts[i]];
        } else {
          assert parts[..1] == [parts[0]];
        }
        joined := joined + parts[i];
        if i < |parts| - 1 {
          joined := joined + "\n";
        }
      }
      assert |parts| > 0 ==> parts[..|parts|] == parts;
      text := joined;
      textLength := |text|;
    }
  }

}
