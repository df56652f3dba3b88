/** How many lines a source has: Utils::calcNumberOfLines (Utils.cpp) and countPhysicalLines
    (qvm/BaseQVM.cpp). */
module SourceLines {

  predicate IsEol(c: char) {
    c == '\n' || c == '\r'
  }

  /** What is still to be counted; `isNewLine` says that the current line is empty so far. */
  function Tally(text: string, isNewLine: bool): nat {
    if text == "" then if isNewLine then 0 else 1
    else if IsEol(text[0]) then (if isNewLine then 0 else 1) + Tally(text[1..], true)
    else Tally(text[1..], false)
  }

  /** calcNumberOfLines */
  method CalcNumberOfLines(text: string) returns (n: nat)
    ensures n == Tally(text, true)
  {
    n := 0;
    var isNewLine := true;
    for i := 0 to |text|
      invariant Tally(text, true) == n + Tally(text[i..], isNewLine)
      invariant !isNewLine ==> text != ""
    {
      assert text[i..][1..] == text[i + 1..];
      if IsEol(text[i]) {
        if !isNewLine {
          isNewLine := true;
          n := n + 1;
        }
      } else {
        isNewLine := false;
      }
    }
    if !isNewLine && text != "" {
      n := n + 1;
    }
  }

  // ---------- the lines of a file ----------

  /** Lines with an end of line between them; a final one leaves an empty last line. */
  function Text(lines: seq<string>, eol: string): string {
    if lines == [] then "" else if |lines| == 1 then lines[0] else lines[0] + eol + Text(lines[1..], eol)
  }

  predicate Plain(line: string) {
    forall i :: 0 <= i < |line| ==> !IsEol(line[i])
  }

  predicate AllPlain(lines: seq<string>) {
    forall i :: 0 <= i < |lines| ==> Plain(lines[i])
  }

  /** "\n", "\r\n" or "\r" */
  predicate EndsLine(eol: string) {
    eol != "" && forall i :: 0 <= i < |eol| ==> IsEol(eol[i])
  }

  function NonEmpty(lines: seq<string>): nat {
    if lines == [] then 0 else NonEmpty(lines[..|lines| - 1]) + if lines[|lines| - 1] == "" then 0 else 1
  }

  lemma {:induction false} NonEmptyFirst(lines: seq<string>)
    requires lines != []
    ensures NonEmpty(lines) == NonEmpty(lines[1..]) + if lines[0] == "" then 0 else 1
  {
    if |lines| == 1 {
      assert lines[..0] == [] && lines[1..] == [];
    } else {
      assert lines[1..][..|lines| - 2] == lines[..|lines| - 1][1..];
      NonEmptyFirst(lines[..|lines| - 1]);
    }
  }

  lemma {:induction false} TallyLine(line: string, rest: string, isNewLine: bool)
    requires Plain(line)
    ensures Tally(line + rest, isNewLine) == Tally(rest, isNewLine && line == "")
  {
    if line == "" {
      assert line + rest == rest;
    } else {
      assert (line + rest)[1..] == line[1..] + rest;
      TallyLine(line[1..], rest, false);
    }
  }

  lemma {:induction false} TallyEol(eol: string, rest: string, isNewLine: bool)
    requires EndsLine(eol)
    ensures Tally(eol + rest, isNewLine) == (if isNewLine then 0 else 1) + Tally(rest, true)
  {
    assert (eol + rest)[1..] == eol[1..] + rest;
    if |eol| == 1 {
      assert eol[1..] + rest == rest;
    } else {
      TallyEol(eol[1..], rest, true);
    }
  }

  /** The number of lines of a file is the number of its lines that are not empty, whatever
      ends them. */
  lemma {:induction false} CountsNonEmpty(lines: seq<string>, eol: string)
    requires AllPlain(lines) && EndsLine(eol)
    ensures Tally(Text(lines, eol), true) == NonEmpty(lines)
  {
    if |lines| == 1 {
      assert lines[0] + "" == lines[0] && lines[1..] == [];
      TallyLine(lines[0], "", true);
      NonEmptyFirst(lines);
    } else if lines != [] {
      var rest := Text(lines[1..], eol);
      assert lines[0] + eol + rest == lines[0] + (eol + rest);
      TallyLine(lines[0], eol + rest, true);
      TallyEol(eol, rest, lines[0] == "");
      CountsNonEmpty(lines[1..], eol);
      NonEmptyFirst(lines);
    }
  }

  /** Either character ends a line, written out. */
  lemma CountWrittenOut()
    ensures Tally("a\rb\r\n\nc", true) == 3
  {
    assert "a\rb\r\n\nc"[1..] == "\rb\r\n\nc" && "\rb\r\n\nc"[1..] == "b\r\n\nc" && "b\r\n\nc"[1..] == "\r\n\nc";
    assert "\r\n\nc"[1..] == "\n\nc" && "\n\nc"[1..] == "\nc" && "\nc"[1..] == "c" && "c"[1..] == "";
    assert Tally("c", true) == 1 && Tally("\n\nc", true) == 1 && Tally("b\r\n\nc", true) == 2;
  }

  lemma {:induction false} NoneEmpty(lines: seq<string>)
    ensures NonEmpty(lines) <= |lines|
    ensures NonEmpty(lines) == |lines| <==> forall i :: 0 <= i < |lines| ==> lines[i] != ""
  {
    if lines != [] {
      NoneEmpty(lines[..|lines| - 1]);
    }
  }

  predicate EmptyOnesLast(lines: seq<string>) {
    forall i, l :: 0 <= i < l < |lines| && lines[l] != "" ==> lines[i] != ""
  }

  /** Every line with text has a number within the count exactly when no empty line comes
      before a line with text. */
  lemma {:induction false} EmptyLast(lines: seq<string>)
    ensures (forall l :: 0 <= l < |lines| && lines[l] != "" ==> l < NonEmpty(lines)) <==>
            EmptyOnesLast(lines)
  {
    if lines != [] {
      var last := |lines| - 1;
      var init := lines[..last];
      EmptyLast(init);
      NoneEmpty(init);
      if lines[last] == "" {
        assert NonEmpty(lines) == NonEmpty(init);
      } else {
        NoneEmpty(lines);
        assert (forall l :: 0 <= l < |lines| && lines[l] != "" ==> l < NonEmpty(lines)) ==> NonEmpty(lines) == |lines|;
      }
    }
  }

  // ---------- physical lines ----------

  /** countPhysicalLines */
  function Breaks(text: string): nat {
    if text == "" then 0 else Breaks(text[..|text| - 1]) + if text[|text| - 1] == '\n' then 1 else 0
  }

  method CountPhysicalLines(text: string) returns (n: nat)
    ensures n == if text == "" then 0 else 1 + Breaks(text)
  {
    if text == "" {
      return 0;
    }
    n := 1;
    for i := 0 to |text|
      invariant n == 1 + Breaks(text[..i])
    {
      assert text[..i + 1][..i] == text[..i];
      if text[i] == '\n' {
        n := n + 1;
      }
    }
    assert text[..|text|] == text;
  }

  lemma {:induction false} BreaksConcat(a: string, b: string)
    ensures Breaks(a + b) == Breaks(a) + Breaks(b)
  {
    if b == "" {
      assert a + b == a;
    } else {
      var n := |b| - 1;
      assert (a + b)[..|a| + n] == a + b[..n];
      BreaksConcat(a, b[..n]);
    }
  }

  lemma {:induction false} NoBreaks(line: string)
    requires Plain(line)
    ensures Breaks(line) == 0
  {
    if line != "" {
      NoBreaks(line[..|line| - 1]);
    }
  }

  /** The other count takes every line, the empty ones included. */
  lemma {:induction false} CountsAll(lines: seq<string>, eol: string)
    requires lines != [] && AllPlain(lines) && (eol == "\n" || eol == "\r\n")
    ensures 1 + Breaks(Text(lines, eol)) == |lines|
  {
    NoBreaks(lines[0]);
    if |lines| > 1 {
      CountsAll(lines[1..], eol);
      assert Breaks(eol) == 1 by {
        BreaksConcat("\r", "\n");
        assert "\r\n" == "\r" + "\n" && "\n"[..0] == "" && "\r"[..0] == "";
      }
      BreaksConcat(lines[0], eol);
      BreaksConcat(lines[0] + eol, Text(lines[1..], eol));
    }
  }
}
