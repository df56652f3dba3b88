/** Small string operations shared by the components that work on text. */
module Text {

  /** ASCII white space, as Python's str.strip removes it. */
  predicate IsSpace(c: char) {
    c in {' ', '\t', '\n', '\r', 11 as char, 12 as char}
  }

  function TrimLeft(s: string): string {
    if s != "" && IsSpace(s[0]) then TrimLeft(s[1..]) else s
  }

  function TrimRight(s: string): string {
    if s != "" && IsSpace(s[|s| - 1]) then TrimRight(s[..|s| - 1]) else s
  }

  function Strip(s: string): string {
    TrimRight(TrimLeft(s))
  }

  predicate AllSpace(s: string) {
    forall i :: 0 <= i < |s| ==> IsSpace(s[i])
  }

  /** Starts and ends with something other than white space. */
  predicate Stripped(s: string) {
    s != "" && !IsSpace(s[0]) && !IsSpace(s[|s| - 1])
  }

  lemma StripPadded(pad: string, s: string)
    requires AllSpace(pad) && Stripped(s)
    ensures Strip(pad + s) == s
  {
    if pad == "" {
      assert pad + s == s;
    } else {
      assert (pad + s)[1..] == pad[1..] + s;
      StripPadded(pad[1..], s);
    }
  }

  lemma {:induction false} TrimRightEnds(s: string)
    requires s != "" && !IsSpace(s[0])
    ensures Stripped(TrimRight(s)) && TrimRight(s)[0] == s[0]
  {
    if IsSpace(s[|s| - 1]) {
      TrimRightEnds(s[..|s| - 1]);
    }
  }

  lemma {:induction false} TrimLeftStarts(s: string)
    ensures TrimLeft(s) == "" || !IsSpace(TrimLeft(s)[0])
  {
    if s != "" && IsSpace(s[0]) {
      TrimLeftStarts(s[1..]);
    }
  }

  lemma StripTwice(s: string)
    ensures Strip(Strip(s)) == Strip(s)
    ensures Strip(s) == "" || Stripped(Strip(s))
  {
    TrimLeftStarts(s);
    var t := TrimLeft(s);
    if t != "" {
      TrimRightEnds(t);
      assert Strip(s) == "" + Strip(s);
      StripPadded("", Strip(s));
    }
  }

  lemma {:induction false} TrimLeftPadded(pad: string, s: string)
    requires AllSpace(pad) && s != "" && !IsSpace(s[0])
    ensures TrimLeft(pad + s) == s
  {
    if pad == "" {
      assert pad + s == s;
    } else {
      assert (pad + s)[1..] == pad[1..] + s;
      TrimLeftPadded(pad[1..], s);
    }
  }

  /** Trimming stops in front of the last character that is no white space. */
  lemma {:induction false} TrimRightKeeps(s: string, rest: string)
    requires s != "" && !IsSpace(s[|s| - 1])
    ensures StartsWith(TrimRight(s + rest), s)
  {
    if rest == "" {
      assert s + rest == s;
    } else {
      var n := |rest| - 1;
      assert (s + rest)[..|s| + n] == s + rest[..n];
      TrimRightKeeps(s, rest[..n]);
    }
  }

  predicate StartsWith(s: string, prefix: string) {
    |prefix| <= |s| && s[..|prefix|] == prefix
  }

  // ---------- decimal numerals ----------

  function Digit(d: nat): char
    requires d < 10
  {
    '0' + d as char
  }

  function Decimal(n: nat): string {
    if n < 10 then [Digit(n)] else Decimal(n / 10) + [Digit(n % 10)]
  }

  lemma {:induction false} DecimalLength(n: nat)
    ensures |Decimal(n)| >= 1 && (|Decimal(n)| == 1 <==> n < 10)
  {
    if n >= 10 {
      DecimalLength(n / 10);
    }
  }

  /** Different numbers have different numerals. */
  lemma {:induction false} DecimalInjective(m: nat, n: nat)
    requires Decimal(m) == Decimal(n)
    ensures m == n
  {
    DecimalLength(m);
    DecimalLength(n);
    var k := |Decimal(m)| - 1;
    assert Decimal(m)[k] == Digit(m % 10) && Decimal(n)[k] == Digit(n % 10);
    if m >= 10 {
      assert Decimal(m)[..k] == Decimal(m / 10) && Decimal(n)[..k] == Decimal(n / 10);
      DecimalInjective(m / 10, n / 10);
    }
  }

  lemma StripOf(line: string)
    requires Stripped(line)
    ensures Strip(line) == line
  {
    assert "" + line == line;
    StripPadded("", line);
  }

  /** Which characters are stripped, written out. */
  lemma StripWrittenOut()
    ensures Strip("\t\n a\tb \r") == "a\tb"
    ensures IsSpace(11 as char) && IsSpace(12 as char) && !IsSpace('\0') && !IsSpace('_')
  {
    assert "\t\n a\tb \r" == "\t\n " + "a\tb \r";
    TrimLeftPadded("\t\n ", "a\tb \r");
    hide TrimLeft;
    assert "a\tb \r"[..4] == "a\tb " && "a\tb "[..3] == "a\tb";
  }
}
