/** The tables from source lines to gates of qvm/BaseQVM.cpp. */
module SourceMap {
  import opened Basics
  import opened Text

  // ---------- which lines count ----------

  /** Declarations, comments, braces and barriers are not executed; all other lines are. */
  predicate Executable(raw: string) {
    var line := Strip(raw);
    && line != "" && line[0] != '/' && line[0] != '#'
    && (forall i :: 0 <= i < |PASSIVE| ==> !StartsWith(line, PASSIVE[i]))
    && line != "{" && line != "}"
  }

  const PASSIVE := ["OPENQASM", "include", "qreg", "creg", "gate", "opaque", "barrier"]

  /** isExecutableQasmLine */
  method IsExecutable(raw: string) returns (yes: bool)
    ensures yes == Executable(raw)
  {
    var line := Strip(raw);
    if line == "" || line[0] == '/' || line[0] == '#' {
      return false;
    }
    for i := 0 to |PASSIVE|
      invariant forall k :: 0 <= k < i ==> !StartsWith(line, PASSIVE[k])
    {
      if StartsWith(line, PASSIVE[i]) {
        return false;
      }
    }
    return line != "{" && line != "}";
  }

  /** A line of the seven kinds is passed over whatever comes after the word: an operation
      whose own name begins with one of them is not counted as a gate either. */
  lemma PassiveWordHides(pad: string, i: nat, rest: string)
    requires AllSpace(pad) && i < |PASSIVE|
    ensures !Executable(pad + PASSIVE[i] + rest)
  {
    var word := PASSIVE[i];
    assert !IsSpace(word[0]) && !IsSpace(word[|word| - 1]);
    TrimLeftPadded(pad, word + rest);
    assert pad + word + rest == pad + (word + rest);
    TrimRightKeeps(word, rest);
    assert StartsWith(Strip(pad + word + rest), PASSIVE[i]);
  }

  /** Lines that the map never sees. */
  predicate LeftOut(line: string) {
    line == "" || line[0] == '#'
  }

  /** Utils::parseSourcePerLines: neither empty nor starting with '#'. */
  function Parsed(lines: seq<string>): seq<string> {
    if lines == [] then []
    else
      var line := lines[|lines| - 1];
      Parsed(lines[..|lines| - 1]) + if LeftOut(line) then [] else [line]
  }

  method ParseLines(lines: seq<string>) returns (parsed: seq<string>)
    ensures parsed == Parsed(lines)
  {
    parsed := [];
    for i := 0 to |lines|
      invariant parsed == Parsed(lines[..i])
    {
      assert lines[..i + 1][..i] == lines[..i];
      if lines[i] == "" {
        continue;
      }
      if lines[i][0] != '#' {
        parsed := parsed + [lines[i]];
      }
    }
    assert lines[..|lines|] == lines;
  }

  // ---------- OpenQASM ----------

  type Table = seq<seq<nat>>

  function Executables(lines: seq<string>): nat {
    if lines == [] then 0
    else Executables(lines[..|lines| - 1]) + if Executable(lines[|lines| - 1]) then 1 else 0
  }

  function Flatten(table: Table): seq<nat> {
    if table == [] then [] else Flatten(table[..|table| - 1]) + table[|table| - 1]
  }

  /** A line that is executed has the number of executed lines before it as its only gate;
      any other line has none. */
  predicate IsQasmTable(original: nat, qasm: seq<string>, table: Table) {
    && |table| == original
    && forall i :: 0 <= i < original ==> table[i] == QasmBucket(qasm, i)
  }

  function QasmBucket(qasm: seq<string>, i: nat): seq<nat> {
    if i < |qasm| && Executable(qasm[i]) then [Executables(qasm[..i])] else []
  }

  /** generateOpenQASMCodeMapping; with no lines on either side the table is left alone. */
  method MapQasm(originalSource: seq<string>, preparedSource: seq<string>, before: Table) returns (table: Table)
    ensures var original, qasm := Parsed(originalSource), Parsed(preparedSource);
            if original == [] || qasm == [] then table == before else IsQasmTable(|original|, qasm, table)
  {
    hide Executable, Parsed;
    var original := ParseLines(originalSource);
    var qasm := ParseLines(preparedSource);
    if |original| <= 0 || |qasm| <= 0 {
      return before;
    }
    table := seq(|original|, _ => []);
    var n := Min(|original|, |qasm|);
    var execIndex: nat := 0;
    for i := 0 to n
      invariant |table| == |original| && execIndex == Executables(qasm[..i])
      invariant forall k :: 0 <= k < i ==> table[k] == QasmBucket(qasm, k)
      invariant forall k :: i <= k < |table| ==> table[k] == []
    {
      assert qasm[..i + 1][..i] == qasm[..i];
      var yes := IsExecutable(qasm[i]);
      if yes {
        table := table[i := table[i] + [execIndex]];
        execIndex := execIndex + 1;
      }
    }
  }

  lemma UpToNext(n: nat)
    ensures UpTo(n) + [n] == UpTo(n + 1) && UpTo(n) + [] == UpTo(n)
  {
  }

  /** Read from the top, the table counts the gates: every gate once, in order, up to the
      number of executed lines that have an original line. */
  lemma {:induction false} QasmTableCounts(original: nat, qasm: seq<string>, table: Table)
    requires IsQasmTable(original, qasm, table)
    ensures Flatten(table) == UpTo(Executables(qasm[..Min(original, |qasm|)]))
    decreases original
  {
    hide Executable;
    if original > 0 {
      var last := original - 1;
      QasmTableCounts(last, qasm, table[..last]);
      if last < |qasm| {
        assert qasm[..last + 1][..last] == qasm[..last];
        UpToNext(Executables(qasm[..last]));
      } else {
        assert table[last] == [] && qasm[..|qasm|] == qasm;
      }
    } else {
      assert table == [] && qasm[..0] == [] && UpTo(0) == [];
    }
  }

  /** The line of the file that the l-th line of the map stands for. */
  function Physical(lines: seq<string>, l: nat): (p: nat)
    requires l < |Parsed(lines)|
    ensures p < |lines|
  {
    var last := |lines| - 1;
    if !LeftOut(lines[last]) && l == |Parsed(lines)| - 1 then last else Physical(lines[..last], l)
  }

  function LeftOutBefore(lines: seq<string>, n: nat): nat
    requires n <= |lines|
  {
    if n == 0 then 0 else LeftOutBefore(lines, n - 1) + if LeftOut(lines[n - 1]) then 1 else 0
  }

  lemma {:induction false} LeftOutOfPrefix(lines: seq<string>, m: nat, n: nat)
    requires n <= m <= |lines|
    ensures LeftOutBefore(lines[..m], n) == LeftOutBefore(lines, n)
  {
    if n > 0 {
      LeftOutOfPrefix(lines, m, n - 1);
    }
  }

  lemma {:induction false} ParsedCount(lines: seq<string>)
    ensures |Parsed(lines)| + LeftOutBefore(lines, |lines|) == |lines|
  {
    hide LeftOut;
    if lines != [] {
      ParsedCount(lines[..|lines| - 1]);
      LeftOutOfPrefix(lines, |lines| - 1, |lines| - 1);
    }
  }

  /** The map's lines are the file's lines, further down by the lines left out before them. */
  lemma {:induction false} PhysicalIs(lines: seq<string>, l: nat)
    requires l < |Parsed(lines)|
    ensures var p := Physical(lines, l); lines[p] == Parsed(lines)[l] && p == l + LeftOutBefore(lines, p)
  {
    hide LeftOut;
    var last := |lines| - 1;
    var init := lines[..last];
    ParsedCount(init);
    LeftOutOfPrefix(lines, last, last);
    if LeftOut(lines[last]) || l < |Parsed(lines)| - 1 {
      PhysicalIs(init, l);
      LeftOutOfPrefix(lines, last, Physical(init, l));
    }
  }

  lemma {:induction false} NoneLeftOut(lines: seq<string>, n: nat)
    requires n <= |lines|
    ensures LeftOutBefore(lines, n) == 0 <==> forall k :: 0 <= k < n ==> !LeftOut(lines[k])
  {
    hide LeftOut;
    if n > 0 {
      NoneLeftOut(lines, n - 1);
    }
  }

  /** Stepping looks up bucket l for line l + 1 of the file. The bucket belongs to the line
      Physical gives, and that is the same line exactly when no line before it is blank or
      starts with '#'. */
  lemma BucketOfLine(source: seq<string>, table: Table, l: nat)
    requires l < |Parsed(source)| && IsQasmTable(|Parsed(source)|, Parsed(source), table)
    ensures var p := Physical(source, l);
            (table[l] != [] <==> Executable(source[p])) &&
            (p == l <==> forall k :: 0 <= k < p ==> !LeftOut(source[k]))
  {
    hide Executable, LeftOut;
    PhysicalIs(source, l);
    NoneLeftOut(source, Physical(source, l));
  }

  lemma {:induction false} ParsedKept(lines: seq<string>, i: nat)
    requires i < |Parsed(lines)|
    ensures !LeftOut(Parsed(lines)[i])
  {
    hide LeftOut;
    if i < |Parsed(lines[..|lines| - 1])| {
      ParsedKept(lines[..|lines| - 1], i);
    }
  }

  lemma {:induction false} LeftOutGrows(lines: seq<string>, m: nat, n: nat)
    requires m <= n <= |lines|
    ensures LeftOutBefore(lines, m) <= LeftOutBefore(lines, n) <= LeftOutBefore(lines, m) + (n - m)
    decreases n - m
  {
    hide LeftOut;
    if m < n {
      LeftOutGrows(lines, m, n - 1);
    }
  }

  predicate InPlace(source: seq<string>) {
    forall l: nat :: l < |Parsed(source)| ==> Physical(source, l) == l
  }

  lemma PrefixInPlace(source: seq<string>, l: nat)
    requires Parsed(source) <= source && l < |Parsed(source)|
    ensures Physical(source, l) == l
  {
    hide LeftOut, Parsed, Physical;
    var m, p := |Parsed(source)|, Physical(source, l);
    PhysicalIs(source, l);
    forall k | 0 <= k < m ensures !LeftOut(source[k]) {
      ParsedKept(source, k);
    }
    NoneLeftOut(source, m);
    LeftOutGrows(source, p, if p < m then m else p);
    LeftOutGrows(source, if p < m then p else m, p);
  }

  /** Every bucket stands for its own line exactly when the lines left out all come last. */
  lemma BucketsOfFile(source: seq<string>)
    ensures InPlace(source) <==> Parsed(source) <= source
  {
    hide LeftOut, Parsed, Physical;
    ParsedCount(source);
    if InPlace(source) {
      forall l: nat | l < |Parsed(source)| ensures source[l] == Parsed(source)[l] {
        PhysicalIs(source, l);
      }
      assert Parsed(source) == source[..|Parsed(source)|];
    }
    if Parsed(source) <= source {
      forall l: nat | l < |Parsed(source)| ensures Physical(source, l) == l {
        PrefixInPlace(source, l);
      }
    }
  }

  // ---------- the table and the circuit ----------

  /** The gates the circuit has from the lines before the i-th, when `counts` says how many
      each line gives it. */
  function GatesBefore(counts: seq<nat>, i: nat): nat
    requires i <= |counts|
  {
    if i == 0 then 0 else GatesBefore(counts, i - 1) + counts[i - 1]
  }

  function From(first: nat, n: nat): (r: seq<nat>)
    ensures |r| == n
    decreases n
  {
    if n == 0 then [] else [first] + From(first + 1, n - 1)
  }

  function CircuitBucket(counts: seq<nat>, i: nat): seq<nat> {
    if i < |counts| then From(GatesBefore(counts, i), counts[i]) else []
  }

  /** Each line has the numbers of its own gates in the circuit. */
  predicate IsCircuits(original: nat, counts: seq<nat>, table: Table) {
    |table| == original && forall i :: 0 <= i < original ==> table[i] == CircuitBucket(counts, i)
  }

  predicate OneGateEach(qasm: seq<string>, counts: seq<nat>, n: nat)
    requires n <= |qasm| == |counts|
  {
    forall i :: 0 <= i < n ==> counts[i] == if Executable(qasm[i]) then 1 else 0
  }

  lemma {:induction false} SameBefore(qasm: seq<string>, counts: seq<nat>, n: nat)
    requires n <= |qasm| == |counts| && OneGateEach(qasm, counts, n)
    ensures GatesBefore(counts, n) == Executables(qasm[..n])
  {
    hide Executable;
    if n > 0 {
      SameBefore(qasm, counts, n - 1);
      assert qasm[..n][..n - 1] == qasm[..n - 1];
    }
  }

  /** The numbers in the table are the circuit's own exactly when every line that counts as
      executable gives the circuit one gate, and every other line none. */
  lemma TableIsCircuits(original: nat, qasm: seq<string>, counts: seq<nat>, table: Table)
    requires IsQasmTable(original, qasm, table) && |counts| == |qasm|
    ensures IsCircuits(original, counts, table) <==> OneGateEach(qasm, counts, Min(original, |qasm|))
  {
    hide Executable, Executables, GatesBefore;
    var n := Min(original, |qasm|);
    if OneGateEach(qasm, counts, n) {
      forall i | 0 <= i < original ensures table[i] == CircuitBucket(counts, i) {
        if i < n {
          SameBefore(qasm, counts, i);
        }
      }
    }
    if IsCircuits(original, counts, table) {
      forall i | 0 <= i < n ensures counts[i] == if Executable(qasm[i]) then 1 else 0 {
        assert |table[i]| == |CircuitBucket(counts, i)| == counts[i];
        assert |table[i]| == |QasmBucket(qasm, i)|;
      }
    }
  }

  /** The lines of a file that the map keeps, written out. */
  lemma KeptWrittenOut()
    ensures Parsed(["# c", "", "// d", "x q[0];"]) == ["// d", "x q[0];"]
  {
    ParsedFour("# c", "", "// d", "x q[0];");
  }

  /** Lines with a gate, written out; a name may begin like one of the seven words. */
  lemma GatesWrittenOut()
    ensures Executable("cx q[0], q[1];") && Executable("if (c == 1) x q[0];")
  {
    Counts("if (c == 1) x q[0];");
    Counts("cx q[0], q[1];");
  }

  lemma ParsedFour(a: string, b: string, c: string, d: string)
    requires LeftOut(a) && LeftOut(b) && !LeftOut(c) && !LeftOut(d)
    ensures Parsed([a, b, c, d]) == [c, d]
  {
    hide LeftOut;
    assert [a, b, c, d][..3] == [a, b, c] && [a, b, c][..2] == [a, b] && [a, b][..1] == [a] && [a][..0] == [];
    assert Parsed([a]) == [] && Parsed([a, b]) == [] && Parsed([a, b, c]) == [c];
  }

  /** Comments, braces and blank lines have no gate. */
  lemma SignsHide()
    ensures !Executable("// d") && !Executable("# c") && !Executable("{") && !Executable("}") && !Executable("")
  {
    StripOf("// d");
    StripOf("# c");
    StripOf("{");
    StripOf("}");
  }

  /** Declarations and barriers have none either. */
  lemma WordsHide()
    ensures !Executable("OPENQASM 2.0;") && !Executable("include \"q.inc\";")
    ensures !Executable("qreg q[1];") && !Executable("creg c[1];") && !Executable("gate g a {")
    ensures !Executable("opaque p a;") && !Executable("barrier q;")
  {
    hide Executable;
    assert "OPENQASM 2.0;"[..8] == "OPENQASM" && "include \"q.inc\";"[..7] == "include";
    assert "qreg q[1];"[..4] == "qreg" && "creg c[1];"[..4] == "creg" && "gate g a {"[..4] == "gate";
    assert "opaque p a;"[..6] == "opaque" && "barrier q;"[..7] == "barrier";
    WordHides("OPENQASM 2.0;", 0);
    WordHides("include \"q.inc\";", 1);
    WordHides("qreg q[1];", 2);
    WordHides("creg c[1];", 3);
    WordHides("gate g a {", 4);
    WordHides("opaque p a;", 5);
    WordHides("barrier q;", 6);
  }

  lemma WordHides(line: string, i: nat)
    requires i < |PASSIVE| && StartsWith(line, PASSIVE[i])
    ensures !Executable(line)
  {
    var word := PASSIVE[i];
    PassiveWordHides("", i, line[|word|..]);
    assert "" + word + line[|word|..] == line;
  }

  /** Two letters are enough to tell it from all the words. */
  lemma Counts(line: string)
    requires Stripped(line) && |line| >= 2 && line[0] in "ic" && line[1] in "fx"
    ensures Executable(line)
  {
    StripOf(line);
    forall i | 0 <= i < |PASSIVE| ensures !StartsWith(line, PASSIVE[i]) {
      var word := PASSIVE[i];
      assert |line| >= |word| ==> line[..|word|][0] == line[0] && line[..|word|][1] == line[1];
    }
  }

  lemma CountsAsGate(pad: string, line: string)
    requires AllSpace(pad) && Stripped(line) && line[0] !in "/#Oiqcgob{}"
    ensures Executable(pad + line)
  {
    StripPadded(pad, line);
  }

  /** A definition over several lines: its body counts as a gate that the circuit does not have,
      and the operation behind it is given the number after its own. */
  lemma BodyIsCounted(table: Table)
    requires IsQasmTable(4, ["gate g a {", "  x a;", "}", "y q[0];"], table)
    ensures table[1] == [0] && table[3] == [1] && !IsCircuits(4, [0, 0, 0, 1], table)
  {
    var qasm := ["gate g a {", "  x a;", "}", "y q[0];"];
    FourLines();
    CountedLines(qasm, table);
  }

  lemma FourLines()
    ensures !Executable("gate g a {") && Executable("  x a;") && !Executable("}") && Executable("y q[0];")
  {
    assert "  x a;" == "  " + "x a;" && "y q[0];" == "" + "y q[0];";
    CountsAsGate("  ", "x a;");
    CountsAsGate("", "y q[0];");
    PassiveWordHides("", 4, " g a {");
    assert "" + PASSIVE[4] + " g a {" == "gate g a {";
    BraceIsNoGate();
  }

  lemma CountedLines(qasm: seq<string>, table: Table)
    requires |qasm| == 4 && IsQasmTable(4, qasm, table)
    requires !Executable(qasm[0]) && Executable(qasm[1]) && !Executable(qasm[2]) && Executable(qasm[3])
    ensures table[1] == [0] && table[3] == [1] && !IsCircuits(4, [0, 0, 0, 1], table)
  {
    hide Executable;
    var counts := [0, 0, 0, 1];
    TableIsCircuits(4, qasm, counts, table);
    assert counts[1] != 1 && !OneGateEach(qasm, counts, 4);
    assert qasm[..3][..2] == qasm[..2] && qasm[..2][..1] == qasm[..1] && qasm[..1][..0] == [];
    assert Executables(qasm[..1]) == 0 && Executables(qasm[..2]) == 1 && Executables(qasm[..3]) == 1;
  }

  lemma BraceIsNoGate()
    ensures !Executable("}")
  {
    assert "}" == "" + "}";
    StripPadded("", "}");
  }

  // ---------- C++ ----------

  /** The source line of every executed instruction, in order; 0 where the tool gave none. */
  function GateLines(qasm: seq<string>, lines: seq<int>): seq<int> {
    if qasm == [] then []
    else
      var i := |qasm| - 1;
      GateLines(qasm[..i], lines) +
      if Executable(qasm[i]) then [if i < |lines| then lines[i] else 0] else []
  }

  /** The loop of translateCppSource. */
  method CollectGateLines(qasm: seq<string>, lines: seq<int>) returns (gateLines: seq<int>)
    ensures gateLines == GateLines(qasm, lines)
  {
    gateLines := [];
    for i := 0 to |qasm|
      invariant gateLines == GateLines(qasm[..i], lines)
    {
      assert qasm[..i + 1][..i] == qasm[..i];
      var yes := IsExecutable(qasm[i]);
      if yes {
        gateLines := gateLines + [if i < |lines| then lines[i] else 0];
      }
    }
    assert qasm[..|qasm|] == qasm;
  }

  /** The k-th executed instruction has the k-th entry. */
  lemma {:induction false} GateLineOf(qasm: seq<string>, lines: seq<int>, i: nat)
    requires i < |qasm| && Executable(qasm[i])
    ensures |GateLines(qasm, lines)| == Executables(qasm) > Executables(qasm[..i])
    ensures GateLines(qasm, lines)[Executables(qasm[..i])] == if i < |lines| then lines[i] else 0
  {
    hide Executable;
    var last := |qasm| - 1;
    GateLineCount(qasm, lines);
    GateLineCount(qasm[..last], lines);
    if i < last {
      GateLineOf(qasm[..last], lines, i);
      assert qasm[..last][..i] == qasm[..i];
    }
  }

  lemma {:induction false} GateLineCount(qasm: seq<string>, lines: seq<int>)
    ensures |GateLines(qasm, lines)| == Executables(qasm)
  {
    hide Executable;
    if qasm != [] {
      GateLineCount(qasm[..|qasm| - 1], lines);
    }
  }

  predicate Increasing(bucket: seq<nat>) {
    forall i, j :: 0 <= i < j < |bucket| ==> bucket[i] < bucket[j]
  }

  /** The gates that come from the line, in order and each once. */
  ghost predicate IsBucket(gateLines: seq<int>, line: int, bucket: seq<nat>) {
    Increasing(bucket) && forall i: nat :: i in bucket <==> i < |gateLines| && gateLines[i] == line
  }

  /** The bucket of every line holds exactly its gates. */
  ghost predicate IsIndex(gateLines: seq<int>, n: nat, table: Table) {
    |table| == n && forall l :: 0 <= l < n ==> IsBucket(gateLines, l + 1, table[l])
  }

  lemma NextGate(gateLines: seq<int>, i: nat, line: int, bucket: seq<nat>)
    requires i < |gateLines| && IsBucket(gateLines[..i], line, bucket)
    ensures IsBucket(gateLines[..i + 1], line, if gateLines[i] == line then bucket + [i] else bucket)
  {
    forall k | 0 <= k < |bucket| ensures bucket[k] < i {
      assert bucket[k] in bucket;
    }
  }

  /** generateCppCodeMapping */
  method MapCpp(gateLines: seq<int>, n: nat) returns (table: Table)
    ensures IsIndex(gateLines, n, table)
  {
    hide IsBucket;
    table := seq(n, _ => []);
    forall l | 0 <= l < n ensures IsBucket(gateLines[..0], l + 1, table[l]) {
      EmptyBucket(gateLines[..0], l + 1);
    }
    for i := 0 to |gateLines|
      invariant IsIndex(gateLines[..i], n, table)
    {
      forall l | 0 <= l < n
        ensures IsBucket(gateLines[..i + 1], l + 1, if gateLines[i] == l + 1 then table[l] + [i] else table[l])
      {
        NextGate(gateLines, i, l + 1, table[l]);
      }
      var l := gateLines[i];
      if l >= 1 && l <= n {
        table := table[l - 1 := table[l - 1] + [i]];
      }
    }
    assert gateLines[..|gateLines|] == gateLines;
  }

  lemma EmptyBucket(gateLines: seq<int>, line: int)
    requires gateLines == []
    ensures IsBucket(gateLines, line, [])
  {
  }

  lemma FirstIsMember(bucket: seq<nat>)
    ensures bucket != [] ==> bucket[0] in bucket
  {
  }

  lemma {:induction false} SameMembers(a: seq<nat>, b: seq<nat>)
    requires Increasing(a) && Increasing(b) && forall x: nat :: x in a <==> x in b
    ensures a == b
    decreases |a|
  {
    if a == [] {
      FirstIsMember(b);
    } else {
      assert a[0] in b && b[0] in a;
      assert a[0] == b[0];
      forall x: nat ensures x in a[1..] <==> x in b[1..] {
        assert x in a[1..] <==> x in a && x != a[0];
        assert x in b[1..] <==> x in b && x != b[0];
      }
      SameMembers(a[1..], b[1..]);
    }
  }

  /** Being the index leaves no freedom: there is one table for the given gate lines, with
      every gate of a line in the file in it once and no other entry. */
  lemma IndexIsUnique(gateLines: seq<int>, n: nat, table: Table, other: Table)
    requires IsIndex(gateLines, n, table) && IsIndex(gateLines, n, other)
    ensures table == other
    ensures forall i: nat, l: nat :: l < n ==> (i in table[l] <==> i < |gateLines| && gateLines[i] == l + 1)
  {
    forall l | 0 <= l < n ensures table[l] == other[l] {
      assert IsBucket(gateLines, l + 1, table[l]) && IsBucket(gateLines, l + 1, other[l]);
      SameMembers(table[l], other[l]);
    }
    forall i: nat, l: nat | l < n ensures i in table[l] <==> i < |gateLines| && gateLines[i] == l + 1 {
      assert IsBucket(gateLines, l + 1, table[l]);
    }
  }
}
