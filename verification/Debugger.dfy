/** The stepping debugger: Debugger.cpp over qvm/QppQVM.cpp, after a launch that parsed its
    source. A circuit is its number of gates; running one only moves the iterator on. */
module Debugger {
  import opened Basics
  import opened SourceLines

  const GUARD: nat := 1_000_000

  /** A gate of the circuit; what it does is left to the engine. */
  type Gate = string

  /** What a launch fixes: the gates of the circuit, the source line of each instruction
      (C++ only) and the instructions of each source line. */
  datatype Program = Program(gates: seq<Gate>, gateLines: seq<int>, lineGates: seq<seq<int>>) {

    predicate ByInstruction() {
      gateLines != []
    }

    /** Where instruction stepping stops. */
    function End(): nat {
      Min(|gates|, |gateLines|)
    }
  }

  /** The iterator into the circuit, currentExecIndex, and currentState.currentLine. */
  datatype State = State(it: nat, execIndex: nat, line: int)

  // ---------- one step ----------

  /** stepInstruction; the flag is the return of -1. */
  function StepInstruction(p: Program, s: State): (bool, State) {
    if s.it == |p.gates| || s.execIndex >= |p.gateLines| then
      (true, s)
    else
      var next := s.execIndex + 1;
      var line := if next < |p.gateLines| && p.gateLines[next] > 0 then p.gateLines[next] else s.line;
      (false, State(s.it + 1, next, line))
  }

  predicate Mapped(p: Program, line: int) {
    1 <= line <= |p.lineGates| && p.lineGates[line - 1] != []
  }

  /** The line a step looks at. */
  function Looked(line: int): int {
    if line <= 0 then 1 else line
  }

  /** The line-by-line part of stepForward. */
  function StepLine(p: Program, s: State): (bool, State) {
    if p.lineGates == [] then
      (false, s)
    else
      var line := Looked(s.line);
      if line > |p.lineGates| then
        (true, s.(line := line))
      else
        (false, s.(it := if Mapped(p, line) && s.it != |p.gates| then s.it + 1 else s.it, line := line + 1))
  }

  function StepOnce(p: Program, s: State): (bool, State) {
    if p.ByInstruction() then StepInstruction(p, s) else StepLine(p, s)
  }

  /** C++ `%`, which keeps the sign of the dividend. */
  function Rem(x: int, n: int): int
    requires n > 0
  {
    if x >= 0 then x % n else -(-x % n)
  }

  /** The line the i-th try of Continue looks at. */
  function Candidate(line: int, n: int, i: int): int
    requires n > 0
  {
    Rem(line + i, n) + 1
  }

  /** debug() */
  function Start(p: Program, line: int): State {
    State(0, 0, if !p.ByInstruction() then line else if p.gateLines[0] > 0 then p.gateLines[0] else 1)
  }

  // ---------- the machine ----------

  class QVM {
    const program: Program
    var it: nat
    var execIndex: nat
    var line: int
    ghost var executed: seq<Gate> // the gates run so far

    /** The gates run are the first ones of the circuit, in order, each once. */
    ghost predicate Valid()
      reads this
    {
      it <= |program.gates| && executed == program.gates[..it]
    }

    ghost function View(): State
      reads this
    {
      State(it, execIndex, line)
    }

    constructor (program: Program, line: int)
      ensures Valid() && this.program == program && View() == Start(program, line)
    {
      this.program := program;
      it, execIndex, executed := 0, 0, [];
      this.line :=
        if program.gateLines == [] then line else if program.gateLines[0] > 0 then program.gateLines[0] else 1;
    }

    method Execute()
      requires Valid() && it < |program.gates|
      modifies this`it, this`executed
      ensures Valid() && it == old(it) + 1
    {
      executed := executed + [program.gates[it]];
      it := it + 1;
    }

    method StepForward() returns (atEnd: bool)
      requires Valid()
      modifies this
      ensures Valid() && (atEnd, View()) == StepOnce(program, old(View()))
    {
      if program.gateLines != [] {
        if it == |program.gates| || execIndex >= |program.gateLines| {
          return true;
        }
        Execute();
        execIndex := execIndex + 1;
        if execIndex < |program.gateLines| && program.gateLines[execIndex] > 0 {
          line := program.gateLines[execIndex];
        }
        return false;
      }
      var totalLines := |program.lineGates|;
      if totalLines == 0 {
        return false;
      }
      if line <= 0 {
        line := 1;
      }
      if line > totalLines {
        return true;
      }
      var hasOp := program.lineGates[line - 1] != [];
      if hasOp && it != |program.gates| {
        Execute();
      }
      line := line + 1;
      return false;
    }
  }

  // ---------- instruction mode ----------

  /** The last positive line among the instructions up to the k-th; 1 when there is none. */
  function LastLine(lines: seq<int>, k: nat): int {
    if k < |lines| && lines[k] > 0 then lines[k] else if k == 0 then 1 else LastLine(lines, k - 1)
  }

  predicate AtInstruction(p: Program, s: State) {
    p.ByInstruction() && s.it == s.execIndex <= p.End() && s.line == LastLine(p.gateLines, s.execIndex)
  }

  lemma StartsAtInstruction(p: Program, line: int)
    requires p.ByInstruction()
    ensures AtInstruction(p, Start(p, line))
  {
  }

  function At(p: Program, k: nat): State {
    State(k, k, LastLine(p.gateLines, k))
  }

  /** A step runs exactly the next instruction, until there is none. */
  lemma InstructionStep(p: Program, s: State)
    requires AtInstruction(p, s)
    ensures StepOnce(p, s) == if s.execIndex == p.End() then (true, s) else (false, At(p, s.execIndex + 1))
    ensures AtInstruction(p, StepOnce(p, s).1)
  {
  }

  function Steps(p: Program, s: State, k: nat): State {
    if k == 0 then s else StepOnce(p, Steps(p, s, k - 1)).1
  }

  /** In instruction mode every state that single steps reach has the iterator at
      currentExecIndex, the gates before it run, and the current line as it should be; the next
      step says that it is over exactly when all instructions have been run. */
  lemma {:induction false} InstructionSteps(p: Program, line: int, k: nat)
    requires p.ByInstruction()
    ensures Steps(p, Start(p, line), k) == At(p, Min(k, p.End()))
    ensures AtInstruction(p, Steps(p, Start(p, line), k))
    ensures StepOnce(p, Steps(p, Start(p, line), k)).0 <==> k >= p.End()
  {
    StartsAtInstruction(p, line);
    if k > 0 {
      InstructionSteps(p, line, k - 1);
      InstructionStep(p, Steps(p, Start(p, line), k - 1));
    }
    InstructionStep(p, Steps(p, Start(p, line), k));
  }

  /** No instruction between the two stands on a breakpoint line. */
  predicate NoStop(p: Program, stops: set<int>, from: nat, to: nat) {
    forall k :: from < k < to ==> LastLine(p.gateLines, k) !in stops
  }

  class Debugger {
    const qvm: QVM
    var numSourceLines: nat
    var breakpoints: set<int>

    constructor (qvm: QVM)
      ensures this.qvm == qvm && numSourceLines == 0 && breakpoints == {}
    {
      this.qvm, numSourceLines, breakpoints := qvm, 0, {};
    }

    /** What launch asks the QVM for once the source is loaded: getSourceLines, which in
        instruction mode counts every line, and otherwise those that are not empty. */
    method Launch(source: string)
      modifies this`numSourceLines
      ensures qvm.program.ByInstruction() ==> numSourceLines == if source == "" then 0 else 1 + Breaks(source)
      ensures !qvm.program.ByInstruction() ==> numSourceLines == Tally(source, true)
    {
      if qvm.program.gateLines != [] {
        numSourceLines := CountPhysicalLines(source);
      } else {
        numSourceLines := CalcNumberOfLines(source);
      }
    }

    method ClearBreakpoints()
      modifies this`breakpoints
      ensures breakpoints == {}
    {
      breakpoints := {};
    }

    method AddBreakpoint(line: int)
      modifies this`breakpoints
      ensures breakpoints == old(breakpoints) + {line}
    {
      breakpoints := breakpoints + {line};
    }

    /** Continue runs the least number of instructions, at least one, that reaches a
        breakpoint line; with none ahead it runs to the end and says so. Only a million
        instructions without either make it give up. */
    method ContinueInstructions() returns (finished: bool, hit: bool, ghost k: nat)
      requires qvm.Valid() && AtInstruction(qvm.program, qvm.View())
      modifies qvm
      ensures qvm.Valid() && AtInstruction(qvm.program, qvm.View())
      ensures qvm.View() == Steps(qvm.program, old(qvm.View()), k) && qvm.execIndex == old(qvm.execIndex) + k
      ensures NoStop(qvm.program, breakpoints, old(qvm.execIndex), qvm.execIndex)
      ensures hit ==> !finished && 1 <= k <= 1_000_000 && qvm.line in breakpoints
      ensures finished ==> qvm.execIndex == qvm.program.End() && (k > 0 ==> qvm.line !in breakpoints)
      ensures !hit && !finished ==> k == 1_000_000 && qvm.line !in breakpoints
      ensures qvm.program.End() - old(qvm.execIndex) < 1_000_000 ==> hit || finished
    {
      finished, hit, k := false, false, 0;
      ghost var s, p := qvm.View(), qvm.program;
      for guard := 0 to GUARD
        invariant qvm.Valid() && AtInstruction(p, qvm.View()) && k == guard
        invariant qvm.View() == Steps(p, s, k) && qvm.execIndex == s.execIndex + k
        invariant NoStop(p, breakpoints, s.execIndex, qvm.execIndex + 1)
      {
        InstructionStep(p, qvm.View());
        var atEnd := qvm.StepForward();
        if atEnd {
          finished := true;
          return;
        }
        k := k + 1;
        if qvm.line in breakpoints {
          hit := true;
          return;
        }
      }
    }

    /** Continue tries the lines after the current one in cyclic order and moves to the first
        with a breakpoint; it runs no gate. */
    method ContinueLines() returns (hit: bool, ghost i: int)
      requires qvm.Valid()
      modifies qvm`line
      ensures qvm.Valid()
      ensures hit ==> 0 <= i < numSourceLines && qvm.line == Candidate(old(qvm.line), numSourceLines, i)
      ensures hit ==> qvm.line in breakpoints
      ensures hit ==> forall j :: 0 <= j < i ==> Candidate(old(qvm.line), numSourceLines, j) !in breakpoints
      ensures !hit ==> qvm.line == old(qvm.line)
      ensures !hit ==> forall j :: 0 <= j < numSourceLines ==> Candidate(qvm.line, numSourceLines, j) !in breakpoints
    {
      hit, i := false, 0;
      for n := 0 to numSourceLines
        invariant qvm.line == old(qvm.line)
        invariant forall j :: 0 <= j < n ==> Candidate(qvm.line, numSourceLines, j) !in breakpoints
      {
        var l := Candidate(qvm.line, numSourceLines, n);
        if l in breakpoints {
          hit, i := true, n;
          qvm.line := l;
          return;
        }
      }
    }

    /** continueDebugger: only instruction mode can finish the program, and only it runs gates. */
    method Continue() returns (finished: bool, hit: bool)
      requires qvm.Valid() && (qvm.program.ByInstruction() ==> AtInstruction(qvm.program, qvm.View()))
      modifies qvm
      ensures qvm.Valid() && (hit ==> !finished && qvm.line in breakpoints)
      ensures qvm.program.ByInstruction() ==>
                AtInstruction(qvm.program, qvm.View()) && (finished ==> qvm.execIndex == qvm.program.End())
      ensures !qvm.program.ByInstruction() ==> !finished && qvm.View() == old(qvm.View()).(line := qvm.line)
      ensures !qvm.program.ByInstruction() && !hit ==> qvm.line == old(qvm.line)
    {
      ghost var k: int;
      if qvm.program.gateLines != [] {
        finished, hit, k := ContinueInstructions();
      } else {
        finished := false;
        hit, k := ContinueLines();
      }
    }
  }

  // ---------- line mode ----------

  /** How far l lies after the current line, going round at the end of the source. */
  function CyclicDistance(line: int, n: int, l: int): int
    requires n > 0
  {
    (l - 1 - line) % n
  }

  lemma MultipleSize(k: int, n: int, m: int)
    requires n > 0 && m == k * n
    ensures (k >= 1 ==> m >= n) && (k <= -1 ==> m <= -n)
  {
  }

  lemma SmallMod(x: int, q: int, n: int)
    requires n > 0 && 0 <= x < n
    ensures (x + q * n) % n == x
  {
    var y := x + q * n;
    var d, r := y / n, y % n;
    assert y == d * n + r;
    assert (q - d) * n == q * n - d * n;
    MultipleSize(q - d, n, r - x);
  }

  /** From a line that is not negative, the i-th try is the one line among the first n at
      cyclic distance i, so trying in order means picking the nearest. */
  lemma CandidateAtDistance(line: int, n: int, i: int, l: int)
    requires n > 0 && line >= 0 && 0 <= i < n
    ensures 1 <= Candidate(line, n, i) <= n
    ensures 1 <= l <= n ==> (Candidate(line, n, i) == l <==> CyclicDistance(line, n, l) == i)
  {
    if 1 <= l <= n {
      if Candidate(line, n, i) == l {
        Congruent(line + i, l - 1, n, i);
      }
      if CyclicDistance(line, n, l) == i {
        Congruent(l - 1 - line, i, n, l - 1);
      }
    }
  }

  /** x leaves the remainder r, so what is left of it under another shift is known too. */
  lemma Congruent(x: int, r: int, n: int, y: int)
    requires n > 0 && 0 <= r < n && 0 <= y < n && x % n == r
    ensures (r - x + y) % n == y && (y + (x - r)) % n == y
  {
    var q := x / n;
    assert x == q * n + r;
    MulNeg(q, n);
    SmallMod(y, 0 - q, n);
    SmallMod(y, q, n);
  }

  lemma MulNeg(q: int, n: int)
    ensures (0 - q) * n == 0 - q * n
  {
  }

  /** The line ContinueLines moves to is the breakpoint cyclically next after the current line
      among the first n lines; it stays put exactly when these hold no breakpoint. */
  lemma NearestBreakpoint(line: int, n: int, stops: set<int>, hit: bool, i: int)
    requires n > 0 && line >= 0
    requires hit ==> 0 <= i < n && Candidate(line, n, i) in stops &&
                     forall j :: 0 <= j < i ==> Candidate(line, n, j) !in stops
    requires !hit ==> forall j :: 0 <= j < n ==> Candidate(line, n, j) !in stops
    ensures hit <==> exists l :: 1 <= l <= n && l in stops
    ensures hit ==> forall l :: 1 <= l <= n && l in stops ==>
                      CyclicDistance(line, n, Candidate(line, n, i)) <= CyclicDistance(line, n, l)
  {
    hide Candidate, CyclicDistance;
    forall l | 1 <= l <= n && l in stops
      ensures hit && CyclicDistance(line, n, Candidate(line, n, i)) <= CyclicDistance(line, n, l)
    {
      DistanceInRange(line, n, l);
      var d := CyclicDistance(line, n, l);
      CandidateAtDistance(line, n, d, l);
      if hit {
        CandidateAtDistance(line, n, i, l);
        CandidateAtDistance(line, n, i, Candidate(line, n, i));
      }
    }
    if hit {
      CandidateAtDistance(line, n, i, 1);
    }
  }

  lemma DistanceInRange(line: int, n: int, l: int)
    requires n > 0
    ensures 0 <= CyclicDistance(line, n, l) < n
  {
  }

  /** Some try of Continue looks at line l. */
  predicate Tries(line: int, n: int, l: int)
    requires n >= 0
  {
    exists i :: 0 <= i < n && Candidate(line, n, i) == l
  }

  lemma TriesFirstLines(line: int, n: int, l: int)
    requires n >= 0 && line >= 0
    ensures Tries(line, n, l) <==> 1 <= l <= n
  {
    hide Candidate, CyclicDistance;
    if 1 <= l <= n {
      DistanceInRange(line, n, l);
      CandidateAtDistance(line, n, CyclicDistance(line, n, l), l);
    }
    if Tries(line, n, l) {
      var i :| 0 <= i < n && Candidate(line, n, i) == l;
      CandidateAtDistance(line, n, i, l);
    }
  }

  /** Continue looks at every line of the file exactly when no line is empty, because only
      lines that are not empty count towards numSourceLines. */
  lemma ContinueCoversFile(lines: seq<string>, eol: string, line: int)
    requires AllPlain(lines) && EndsLine(eol) && line >= 0
    ensures (forall l :: 1 <= l <= |lines| ==> Tries(line, Tally(Text(lines, eol), true), l)) <==>
            (forall i :: 0 <= i < |lines| ==> lines[i] != "")
  {
    hide Tries, Tally, Text, AllPlain, NonEmpty;
    var n := Tally(Text(lines, eol), true);
    CountsNonEmpty(lines, eol);
    NoneEmpty(lines);
    forall l | 1 <= l <= |lines| ensures Tries(line, n, l) <==> l <= n {
      TriesFirstLines(line, n, l);
    }
    assert n < |lines| ==> !Tries(line, n, |lines|);
  }

  /** It looks at every line that is not empty exactly when the empty ones come last. */
  lemma ContinueCoversText(lines: seq<string>, eol: string, line: int)
    requires AllPlain(lines) && EndsLine(eol) && line >= 0
    ensures (forall l :: 1 <= l <= |lines| && lines[l - 1] != "" ==> Tries(line, Tally(Text(lines, eol), true), l)) <==>
            EmptyOnesLast(lines)
  {
    hide Tries, Tally, Text, AllPlain, NonEmpty, EmptyOnesLast;
    var n := Tally(Text(lines, eol), true);
    CountsNonEmpty(lines, eol);
    EmptyLast(lines);
    forall l | 1 <= l <= |lines| ensures Tries(line, n, l) <==> l <= n {
      TriesFirstLines(line, n, l);
    }
    if forall l :: 1 <= l <= |lines| && lines[l - 1] != "" ==> Tries(line, n, l) {
      forall l | 0 <= l < |lines| && lines[l] != "" ensures l < n {
        assert Tries(line, n, l + 1);
      }
    }
  }

  /** A file of four lines, the second of them empty: wherever the debugger stands, Continue
      never looks at the last line, so a breakpoint on it is never reached. */
  lemma EmptyLineHidesLast(line: int)
    ensures var lines := ["OPENQASM 2.0;", "", "qreg q[1];", "x q[0];"];
            Tally(Text(lines, "\n"), true) == 3 && !Tries(line, 3, 4)
  {
    var lines := ["OPENQASM 2.0;", "", "qreg q[1];", "x q[0];"];
    CountsNonEmpty(lines, "\n");
    var one, two, three := lines[..1], lines[..2], lines[..3];
    assert one[..0] == [] && NonEmpty(one) == 1;
    assert two[..1] == one && NonEmpty(two) == 1;
    assert three[..2] == two && NonEmpty(three) == 2;
    forall i | 0 <= i < 3 ensures Candidate(line, 3, i) != 4 {
      CandidateBelow(line, 3, i);
    }
  }

  lemma CandidateBelow(line: int, n: int, i: int)
    requires n > 0
    ensures Candidate(line, n, i) <= n
  {
  }

  /** The sign of the dividend, written out: from a negative line there are tries below line 1. */
  lemma NegativeTries()
    ensures Rem(-7, 3) == -1 && Rem(7, 3) == 1 && Candidate(-7, 3, 0) == 0
  {
  }

  /** A session in line mode: steps, and continues that move to some line or stay. */
  datatype Command = StepForward | Continue(line: int)

  function Do(p: Program, s: State, c: Command): State {
    if c.StepForward? then StepOnce(p, s).1 else s.(line := c.line)
  }

  function After(p: Program, s: State, run: seq<Command>): State {
    if run == [] then s else Do(p, After(p, s, run[..|run| - 1]), run[|run| - 1])
  }

  /** How many steps of the run were taken on lines that have instructions. */
  function MappedSteps(p: Program, s: State, run: seq<Command>): nat {
    if run == [] then
      0
    else
      var before := run[..|run| - 1];
      MappedSteps(p, s, before) +
      if run[|run| - 1].StepForward? && Mapped(p, Looked(After(p, s, before).line)) then 1 else 0
  }

  /** In line mode, whatever is stepped and continued: the number of gates run is the number
      of steps on mapped lines, up to the length of the circuit. */
  lemma {:induction false} GatesRun(p: Program, line: int, run: seq<Command>)
    requires !p.ByInstruction()
    ensures After(p, Start(p, line), run).it == Min(|p.gates|, MappedSteps(p, Start(p, line), run))
  {
    if run != [] {
      GatesRun(p, line, run[..|run| - 1]);
    }
  }

  /** How many of the first n source lines have instructions. */
  function MappedLines(p: Program, n: nat): nat
    requires n <= |p.lineGates|
  {
    if n == 0 then 0 else MappedLines(p, n - 1) + if p.lineGates[n - 1] != [] then 1 else 0
  }

  /** Stepping through a source from the top looks at each line once: after k steps the gates
      run are as many as the lines passed have instructions, up to the length of the circuit,
      so a line of several instructions runs only one and the rest of the circuit lags. */
  lemma {:induction false} StepsThrough(p: Program, line: int, k: nat)
    requires !p.ByInstruction() && p.lineGates != [] && line <= 1
    ensures var s, passed := Steps(p, Start(p, line), k), Min(k, |p.lineGates|);
            s.it == Min(|p.gates|, MappedLines(p, passed)) && Looked(s.line) == passed + 1
  {
    if k > 0 {
      StepsThrough(p, line, k - 1);
    }
  }

  /** In line mode the step after the last line says that it is over, and no step before; a
      source without lines is never over and nothing moves. */
  lemma LinesEnd(p: Program, line: int, k: nat)
    requires !p.ByInstruction() && line <= 1
    ensures p.lineGates != [] ==> (StepOnce(p, Steps(p, Start(p, line), k)).0 <==> k >= |p.lineGates|)
    ensures p.lineGates == [] ==> forall s :: StepOnce(p, s) == (false, s)
  {
    if p.lineGates != [] {
      StepsThrough(p, line, k);
    }
  }

  /** All gates have been run when the end is reached exactly when there are at least as many
      mapped lines as gates. */
  lemma AllGatesRun(p: Program, line: int)
    requires !p.ByInstruction() && p.lineGates != [] && line <= 1
    ensures Steps(p, Start(p, line), |p.lineGates|).it == |p.gates| <==>
            MappedLines(p, |p.lineGates|) >= |p.gates|
  {
    StepsThrough(p, line, |p.lineGates|);
  }
}
