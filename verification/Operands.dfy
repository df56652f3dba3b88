/** Splitting the operand list of a QIR call at its top-level commas
    (processors/CudaQBridge.h, the Python function `operands`). */
module Operands {
  import opened Text

  function Nesting(c: char): int {
    if c == '(' then 1 else if c == ')' then -1 else 0
  }

  /** What is still to be produced after reading some text: `depth` is the current nesting
      and `cur` the operand being collected. */
  function Split(text: string, depth: int, cur: string): seq<string> {
    if text == "" then
      if Strip(cur) != "" then [Strip(cur)] else []
    else
      var d := depth + Nesting(text[0]);
      if text[0] == ',' && d == 0 then [Strip(cur)] + Split(text[1..], d, "")
      else Split(text[1..], d, cur + [text[0]])
  }

  method SplitOperands(text: string) returns (out: seq<string>)
    ensures out == Split(text, 0, "")
  {
    out := [];
    var depth, cur := 0, "";
    for i := 0 to |text|
      invariant Split(text, 0, "") == out + Split(text[i..], depth, cur)
    {
      assert text[i..][1..] == text[i + 1..];
      var ch := text[i];
      if ch == '(' {
        depth := depth + 1;
      } else if ch == ')' {
        depth := depth - 1;
      }
      if ch == ',' && depth == 0 {
        out := out + [Strip(cur)];
        cur := "";
      } else {
        cur := cur + [ch];
      }
    }
    if Strip(cur) != "" {
      out := out + [Strip(cur)];
    }
  }

  // ---------- the inverse of joining ----------

  /** Every comma is nested and every parenthesis closed, reading from a given depth. */
  predicate Enclosed(s: string, depth: int) {
    if s == "" then depth == 0
    else (s[0] == ',' ==> depth != 0) && Enclosed(s[1..], depth + Nesting(s[0]))
  }

  predicate IsOperand(s: string) {
    Stripped(s) && Enclosed(s, 0)
  }

  /** The operands with a comma and some white space between them. */
  function Join(items: seq<string>, pad: string): string {
    if items == [] then ""
    else if |items| == 1 then items[0]
    else items[0] + "," + pad + Join(items[1..], pad)
  }

  lemma ReadThrough(s: string, rest: string, depth: int, cur: string)
    requires Enclosed(s, depth)
    ensures Split(s + rest, depth, cur) == Split(rest, 0, cur + s)
  {
    if s == "" {
      assert s + rest == rest && cur + s == cur;
    } else {
      assert (s + rest)[1..] == s[1..] + rest;
      assert cur + [s[0]] + s[1..] == cur + s;
      ReadThrough(s[1..], rest, depth + Nesting(s[0]), cur + [s[0]]);
    }
  }

  lemma SpacesAreEnclosed(pad: string)
    requires AllSpace(pad)
    ensures Enclosed(pad, 0)
  {
    if pad != "" {
      SpacesAreEnclosed(pad[1..]);
    }
  }

  lemma AtComma(rest: string, cur: string)
    ensures Split("," + rest, 0, cur) == [Strip(cur)] + Split(rest, 0, "")
  {
    hide Strip;
    assert ("," + rest)[1..] == rest;
  }

  /** Splitting undoes joining, for any operands whose own commas are in parentheses. */
  lemma {:induction false} SplitInvertsJoin(items: seq<string>, pad: string)
    requires forall i :: 0 <= i < |items| ==> IsOperand(items[i])
    requires AllSpace(pad)
    ensures Split(Join(items, pad), 0, "") == items
  {
    if items != [] {
      SplitPadded(items, pad, "");
    }
  }

  lemma {:induction false} SplitPadded(items: seq<string>, pad: string, before: string)
    requires forall i :: 0 <= i < |items| ==> IsOperand(items[i])
    requires items != [] && AllSpace(pad) && AllSpace(before)
    ensures Split(Join(items, pad), 0, before) == items
  {
    hide Strip, Enclosed, AllSpace, Stripped;
    var item := items[0];
    StripPadded(before, item);
    if |items| == 1 {
      assert item == item + "";
      ReadThrough(item, "", 0, before);
      NotEmpty(item);
    } else {
      var tail := Join(items[1..], pad);
      assert Join(items, pad) == item + ("," + (pad + tail));
      hide Join, Split;
      ReadThrough(item, "," + (pad + tail), 0, before);
      AtComma(pad + tail, before + item);
      SpacesAreEnclosed(pad);
      ReadThrough(pad, tail, 0, "");
      assert "" + pad == pad;
      SplitPadded(items[1..], pad, pad);
    }
  }

  lemma NotEmpty(s: string)
    requires Stripped(s)
    ensures s != ""
  {
  }

  /** An operand list, written out: only the commas outside parentheses separate. */
  lemma ListWrittenOut()
    ensures Split("a, f(b, (c)), d", 0, "") == ["a", "f(b, (c))", "d"]
  {
    var items := ["a", "f(b, (c))", "d"];
    assert Join(items[1..][1..], " ") == "d" && Join(items[1..], " ") == "f(b, (c)), d";
    assert Join(items, " ") == "a, f(b, (c)), d";
    NestedOperand();
    SplitInvertsJoin(items, " ");
  }

  lemma NestedOperand()
    ensures IsOperand("f(b, (c))")
  {
    assert Enclosed(")", 1) && Enclosed("))", 2) && Enclosed("c))", 2) && Enclosed("(c))", 1);
    assert " (c))"[1..] == "(c))" && ", (c))"[1..] == " (c))" && "b, (c))"[1..] == ", (c))";
    assert Enclosed(" (c))", 1) && Enclosed(", (c))", 1) && Enclosed("b, (c))", 1);
    assert "(b, (c))"[1..] == "b, (c))" && "f(b, (c))"[1..] == "(b, (c))";
    assert Enclosed("(b, (c))", 0);
  }
}
