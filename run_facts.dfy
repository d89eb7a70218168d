/*
 * How a run of the simulator ends: `execute` stops without error only
 * once the program halted or pc ran past the last entry, and it reports
 * the execution limit only after exactly `MaxInstructions` counted steps
 * of a program that is still running; the exit syscall is what halts a
 * generated program.
 */
module RunFacts {
  import opened Util
  import opened Machine
  import opened MachineFacts

  /** What the messages an instruction can throw begin with: "Error executing" or "Cannot read". */
  predicate Thrown(m: string)
  {
    |m| >= 2 && (m[0] == 'C' || m[1] == 'r')
  }

  lemma LimitNotThrown()
    ensures !Thrown(LimitExceeded())
  {
  }

  lemma ExecutingThrown(c: string, m: string)
    ensures Thrown(Executing(c, m))
  {
  }

  lemma UndefinedThrown(p: string)
    ensures Thrown(ReadOfUndefined(p))
  {
  }

  /** A line that fails reports its message prefixed by the line. */
  lemma InstructionThrows(s: State, code: string)
    requires |s.registers| == 32
    ensures ExecuteInstruction(s, code).fault.Some? ==> Thrown(ExecuteInstruction(s, code).fault.value)
  {
    var c := StripComment(code);
    if c != [] {
      var o := Dispatch(s, ParseInstruction(c));
      if o.fault.Some? {
        ExecutingThrown(c, o.fault.value);
      }
    }
  }

  /** No error a step throws reads like the limit message. */
  lemma StepThrows(s: State)
    requires |s.registers| == 32
    ensures Step(s).fault.Some? ==> Thrown(Step(s).fault.value)
  {
    var at := SkipLabels(s.instructions, s.pc);
    if at < 0 {
      UndefinedThrown("type");
    } else if at < |s.instructions| {
      InstructionThrows(s.(pc := at), s.instructions[at].code);
    }
  }

  /** How the loop of `execute` may end: see `RunEnds`. */
  predicate Ended(o: Outcome)
  {
    o.state.executed <= MaxInstructions &&
    (o.fault.None? ==> !o.state.running || o.state.pc >= |o.state.instructions|) &&
    (o.fault == Some(LimitExceeded()) ==>
       o.state.executed == MaxInstructions && o.state.running && o.state.pc < |o.state.instructions|)
  }

  /** A program that stopped, or whose pc passed the last entry, ends the loop at once. */
  lemma RunStopped(s: State)
    requires |s.registers| == 32 && s.executed <= MaxInstructions && (!s.running || s.pc >= |s.instructions|)
    ensures Run(s) == Outcome(s, None)
  { }

  /** A program still running when the count reaches the limit ends the loop with the limit error. */
  lemma RunAtLimit(s: State)
    requires |s.registers| == 32 && s.executed == MaxInstructions && s.running && s.pc < |s.instructions|
    ensures Run(s) == Outcome(s, Some(LimitExceeded()))
  { }

  /** One round of the loop that throws ends it with that error. */
  lemma RunStops(s: State)
    requires |s.registers| == 32 && s.executed < MaxInstructions && s.running && s.pc < |s.instructions|
    requires Step(s).fault.Some?
    ensures Run(s) == Step(s)
  { }

  /** One round of the loop that does not throw counts the step and goes on. */
  lemma RunGoesOn(s: State, t: State)
    requires |s.registers| == 32 && s.executed < MaxInstructions && s.running && s.pc < |s.instructions|
    requires Step(s).fault.None? && t == Counted(Step(s).state)
    ensures |t.registers| == 32 && t.executed <= MaxInstructions && Run(s) == Run(t)
  { }

  /**
   * The loop of `execute` counts at most `MaxInstructions` steps; it ends
   * without error only when the program halted or pc passed the last
   * entry, and with the limit error only when the count reached
   * `MaxInstructions` while the program was still running inside its
   * instruction list.
   */
  lemma {:induction false} RunEnds(s: State)
    requires |s.registers| == 32 && s.executed <= MaxInstructions
    ensures Ended(Run(s))
    decreases MaxInstructions - s.executed
  {
    if s.running && s.pc < |s.instructions| && s.executed < MaxInstructions {
      if Step(s).fault.Some? {
        RunStops(s);
        StepThrows(s);
        LimitNotThrown();
      } else {
        var t := Counted(Step(s).state);
        RunGoesOn(s, t);
        RunEnds(t);
      }
    }
  }

  /** `execute` ends as its loop does, having started from a count of 0. */
  lemma ExecuteEnds(s: State)
    requires |s.registers| == 32
    ensures var o := Execute(s);
      (o.fault.None? ==> !o.state.running || o.state.pc >= |o.state.instructions|) &&
      (o.fault == Some(LimitExceeded()) ==> o.state.executed == MaxInstructions && o.state.running)
  {
    RunEnds(s.(running := true, output := [], executed := 0));
  }

  /** `syscall` with 10 in `$v0` stops the machine and moves past the line, changing nothing else it shows. */
  lemma ExitHalts(s: State, pad: string)
    requires |s.registers| == 32 && At(s, "syscall", pad, []) && s.registers[2] == 10
    ensures Step(s).fault.None? && !Step(s).state.running && Step(s).state.pc == s.pc + 1
    ensures Step(s).state.registers == s.registers && Step(s).state.memory == s.memory &&
            Step(s).state.output == s.output
  {
    assert ["syscall"] + [] == ["syscall"];
    StepLine(s, "syscall", pad, []);
    DispatchExit(s);
  }

  /** The opcode `syscall`: the service named by `$v0`, never an error. */
  lemma DispatchSyscall(s: State)
    requires |s.registers| == 32
    ensures Dispatch(s, ["syscall"]) == Outcome(Syscall(s), None)
  {
    assert "syscall" !in RegisterOps;
  }

  /** `syscall` with 10 in `$v0`: the machine stops, nothing else changes. */
  lemma DispatchExit(s: State)
    requires |s.registers| == 32 && s.registers[2] == 10
    ensures Dispatch(s, ["syscall"]) == Outcome(s.(running := false), None)
  {
    DispatchSyscall(s);
  }

  /** A running program at the exit syscall ends `execute`'s loop there, without error, after one more step. */
  lemma ExitEndsRun(s: State, pad: string)
    requires |s.registers| == 32 && At(s, "syscall", pad, []) && s.registers[2] == 10
    requires s.running && s.executed < MaxInstructions
    ensures Run(s) == Outcome(Counted(Step(s).state), None)
  {
    ExitHalts(s, pad);
  }

  // ---------------------------------------------------------------------
  // Loading the lines the generator writes
  // ---------------------------------------------------------------------

  /** Text that `trim` leaves as it is, and a `:` cannot split. */
  predicate Unpadded(s: string)
  {
    |s| > 0 && ':' !in s && !IsJsSpace(s[0]) && !IsJsSpace(s[|s| - 1])
  }

  /** A data-section line `name: d` as the generator writes them. */
  predicate LabelledData(l: Loader, line: string, name: string, d: string)
  {
    l.section == DataPart && line == name + ": " + d && Unpadded(name) && Unpadded(d) &&
    name[0] != '#' && name[0] != '.'
  }

  lemma TrimKeeps(s: string)
    requires Unpadded(s)
    ensures Trim(s) == s && Trim(" " + s) == s
  {
    assert TrimStart(s) == s;
    assert TrimStart(" " + s) == TrimStart(s) by {
      assert (" " + s)[1..] == s;
    }
  }

  /** A line starting with neither `#` nor `.` is no comment and no directive of the loader. */
  lemma NotDirective(line: string)
    requires |line| > 0 && line[0] != '#' && line[0] != '.'
    ensures !StartsWith(line, "#") && line != "" && line != ".data" && line != ".text" && !StartsWith(line, ".globl")
  {
    assert line[..1] == [line[0]];
    assert ".globl"[0] == '.' && ".data"[0] == '.' && ".text"[0] == '.';
  }

  /** `name: d` splits at its one `:`. */
  lemma SplitsAtColon(name: string, d: string)
    requires ':' !in name && ':' !in d
    ensures Split(name + ": " + d, ':') == [name, " " + d]
  {
    var rest := " " + d;
    assert ':' !in rest;
    assert name + ": " + d == name + [':'] + rest;
    SplitAfter(name, ':', rest);
    SplitNone(rest, ':');
  }

  /** Such a line is neither a comment nor a section directive: the loader hands its label and its directive on. */
  lemma DataLineRead(l: Loader, line: string, name: string, d: string)
    requires LabelledData(l, line, name, d)
    ensures LoadLine(l, line) == Directive(l, name, d, ParseArg(Split(d, ' '), 1))
  {
    assert line[0] == name[0] && line[|name|] == ':';
    NotDirective(line);
    SplitsAtColon(name, d);
    TrimKeeps(name);
    TrimKeeps(d);
  }

  /** The directives the loader tells apart by their first letters. */
  lemma DirectivesDiffer(d: string)
    ensures StartsWith(d, ".space") ==> !StartsWith(d, ".word")
    ensures StartsWith(d, ".byte") ==> !StartsWith(d, ".word") && !StartsWith(d, ".space")
  {
    if StartsWith(d, ".space") {
      assert d[1] == 's';
    }
    if StartsWith(d, ".byte") {
      assert d[1] == 'b';
    }
  }

  /** `x: .word ...` names the next address, which now holds the word 0, and moves it on by 4. */
  lemma WordLoads(l: Loader, line: string, name: string, d: string)
    requires LabelledData(l, line, name, d) && StartsWith(d, ".word") && l.address.Some?
    ensures var m := LoadLine(l, line);
      m.dataSegment == l.dataSegment[name := l.address] && LoadWord(m.memory, l.address.value) == 0 &&
      m.address == Some(l.address.value + 4) && m.section == DataPart && m.instructions == l.instructions
  {
    DataLineRead(l, line, name, d);
    WordDirective(l, name, d, ParseArg(Split(d, ' '), 1));
    WordRoundTrip(l.memory, l.address.value, 0);
    ToInt32OfInt32(0);
  }

  lemma WordDirective(l: Loader, name: string, d: string, size: Option<int>)
    requires StartsWith(d, ".word") && l.address.Some?
    ensures Directive(l, name, d, size) ==
            l.(dataSegment := l.dataSegment[name := l.address], memory := StoreWord(l.memory, l.address.value, 0),
               address := Some(l.address.value + 4))
  { }

  /** `x: .byte ...` names the next address, which now holds the byte 0, and moves it on by 1. */
  lemma ByteLoads(l: Loader, line: string, name: string, d: string)
    requires LabelledData(l, line, name, d) && StartsWith(d, ".byte") && l.address.Some?
    ensures var m := LoadLine(l, line);
      m.dataSegment == l.dataSegment[name := l.address] && LoadByte(m.memory, l.address.value) == 0 &&
      m.address == Some(l.address.value + 1) && m.section == DataPart && m.instructions == l.instructions
  {
    DataLineRead(l, line, name, d);
    ByteDirective(l, name, d, ParseArg(Split(d, ' '), 1));
  }

  lemma ByteDirective(l: Loader, name: string, d: string, size: Option<int>)
    requires StartsWith(d, ".byte") && l.address.Some?
    ensures Directive(l, name, d, size) ==
            l.(dataSegment := l.dataSegment[name := l.address], memory := StoreByte(l.memory, l.address.value, 0),
               address := Some(l.address.value + 1))
  {
    DirectivesDiffer(d);
  }

  /** The zero fill of `.space`: the `n` bytes from `a` on read 0, every other byte is kept. */
  lemma {:induction false} FillZeroes(mem: map<int, int>, a: int, n: int, i: int)
    ensures a <= i < a + n ==> LoadByte(Fill(mem, a, n), i) == 0
    ensures !(a <= i < a + n) ==> LoadByte(Fill(mem, a, n), i) == LoadByte(mem, i)
    decreases n
  {
    if n > 0 {
      FillZeroes(mem, a, n - 1, i);
    }
  }

  /** `x: .space N` names the next address, from which N bytes now read 0, and moves it on by N. */
  lemma SpaceLoads(l: Loader, line: string, name: string, d: string, n: int)
    requires LabelledData(l, line, name, d) && StartsWith(d, ".space") && l.address.Some?
    requires ParseArg(Split(d, ' '), 1) == Some(n)
    ensures var m := LoadLine(l, line);
      m.dataSegment == l.dataSegment[name := l.address] &&
      (forall i :: l.address.value <= i < l.address.value + n ==> LoadByte(m.memory, i) == 0) &&
      m.address == Some(l.address.value + n) && m.section == DataPart && m.instructions == l.instructions
  {
    DataLineRead(l, line, name, d);
    SpaceDirective(l, name, d, n);
    assert LoadLine(l, line) == Directive(l, name, d, Some(n));
    var m := LoadLine(l, line);
    forall i | l.address.value <= i < l.address.value + n
      ensures LoadByte(m.memory, i) == 0
    {
      FillZeroes(l.memory, l.address.value, n, i);
    }
  }

  lemma SpaceDirective(l: Loader, name: string, d: string, n: int)
    requires StartsWith(d, ".space") && l.address.Some?
    ensures Directive(l, name, d, Some(n)) ==
            l.(dataSegment := l.dataSegment[name := l.address], memory := Fill(l.memory, l.address.value, n),
               address := Some(l.address.value + n))
  {
    DirectivesDiffer(d);
  }

  /** In the text section `x:` becomes the marker of label `x`. */
  lemma LabelLineMarks(l: Loader, name: string)
    requires l.section == TextPart && |name| > 0 && name[0] != '#' && name[0] != '.'
    ensures LoadLine(l, name + ":") == l.(instructions := l.instructions + [Label(name)])
  {
    var line := name + ":";
    assert line[0] == name[0] && line[..1] == [name[0]];
    assert line[..|line| - 1] == name;
  }

  /** In the text section any other line is an instruction, kept as written. */
  lemma InstructionLineKept(l: Loader, line: string)
    requires l.section == TextPart && |line| > 0 && line[0] != '#' && line[0] != '.' && line[|line| - 1] != ':'
    ensures LoadLine(l, line) == l.(instructions := l.instructions + [Instruction(line)])
  {
    assert line[..1] == [line[0]];
  }
}
