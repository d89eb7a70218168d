/*
 * The `MIPSSimulator` object of the executor: the machine state lives in
 * fields that its methods update in place. Each method is proved against
 * the function of the `Machine` module that describes the same operation
 * on a `State` value, through `Snapshot`, the value of the fields.
 */
module Executor {
  import opened Util
  import opened Machine
  import RunFacts

  class Simulator {
    var registers: seq<int>
    var memory: map<int, int>
    var dataSegment: map<string, Option<int>>
    var pc: int
    var instructions: seq<Entry>
    var running: bool
    var output: seq<int>
    var executed: nat
    var lo: int
    var hi: int
    var trace: seq<TraceEntry>

    /** The machine state the fields hold. */
    function Snapshot(): State
      reads this
    {
      State(registers, memory, dataSegment, pc, instructions, running, output, executed, lo, hi, trace)
    }

    /** `constructor`, which calls `reset`. */
    constructor ()
      ensures Snapshot() == Initial
    {
      registers := InitialRegisters();
      memory := map[];
      dataSegment := map[];
      pc := 0;
      instructions := [];
      running := false;
      output := [];
      executed := 0;
      lo := 0;
      hi := 0;
      trace := [];
    }

    /** `reset`: 32 registers, all 0 but `$sp`; empty memory, labels, program, output and trace. */
    method Reset()
      modifies this
      ensures Snapshot() == Initial
    {
      registers := InitialRegisters();
      memory := map[];
      dataSegment := map[];
      pc := 0;
      instructions := [];
      running := false;
      output := [];
      executed := 0;
      lo := 0;
      hi := 0;
      trace := [];
    }

    /** Puts a whole state into the fields. */
    method Restore(t: State)
      modifies this
      ensures Snapshot() == t
    {
      registers, memory, dataSegment, pc, instructions := t.registers, t.memory, t.dataSegment, t.pc, t.instructions;
      running, output, executed, lo, hi, trace := t.running, t.output, t.executed, t.lo, t.hi, t.trace;
    }

    /** `storeWord`: the four bytes of the value, lowest first. */
    method StoreWord(address: int, value: int)
      modifies this
      ensures Snapshot() == old(Snapshot()).(memory := Machine.StoreWord(old(memory), address, value))
    {
      var w := ToInt32(value);
      memory := memory[address := w % 0x100];
      memory := memory[address + 1 := (w / 0x100) % 0x100];
      memory := memory[address + 2 := (w / 0x1_0000) % 0x100];
      memory := memory[address + 3 := (w / 0x100_0000) % 0x100];
    }

    /** `storeByte`: the low 8 bits of the value. */
    method StoreByte(address: int, value: int)
      modifies this
      ensures Snapshot() == old(Snapshot()).(memory := Machine.StoreByte(old(memory), address, value))
    {
      memory := memory[address := value % 256];
    }

    // -------------------------------------------------------------------
    // load
    // -------------------------------------------------------------------

    /** The `.space` loop: `size` bytes from `address` on become 0. */
    method ZeroFill(address: int, size: int)
      modifies this
      ensures Snapshot() == old(Snapshot()).(memory := Fill(old(memory), address, size))
    {
      var i := 0;
      while i < size
        invariant i == 0 || i <= size
        invariant Snapshot() == old(Snapshot()).(memory := Fill(old(memory), address, i))
        decreases size - i
      {
        memory := memory[address + i := 0];
        i := i + 1;
      }
    }

    /** The `.asciiz` loop: the character codes of `text` from `address` on, then the terminator 0. */
    method StoreText(address: int, text: string)
      modifies this
      ensures Snapshot() == old(Snapshot()).(memory := StoreChars(old(memory), address, text))
    {
      var i := 0;
      while i < |text|
        invariant 0 <= i <= |text|
        invariant Snapshot() == old(Snapshot()).(memory := memory)
        invariant StoreChars(old(memory), address, text) == StoreChars(memory, address + i, text[i..])
      {
        StoreByte(address + i, CharCodeAt(text[i]));
        assert text[i..][1..] == text[i + 1..];
        i := i + 1;
      }
      StoreByte(address + |text|, 0);
    }

    /** One directive of the data section, for the label `name`, at `address`; the next address. */
    method ReadDirective(address: Option<int>, name: string, directive: string) returns (next: Option<int>)
      modifies this
      ensures var l := Loader(DataPart, address, old(memory), old(dataSegment), old(instructions));
        var size := ParseArg(Split(directive, ' '), 1);
        Loader(DataPart, next, memory, dataSegment, instructions) == Directive(l, name, directive, size)
      ensures Snapshot() == old(Snapshot()).(memory := memory, dataSegment := dataSegment)
    {
      next := address;
      if StartsWith(directive, ".word") {
        dataSegment := dataSegment[name := address];
        if address.Some? {
          StoreWord(address.value, 0);
        }
        next := Plus(address, Some(4));
      } else if StartsWith(directive, ".space") {
        var size := ParseArg(Split(directive, ' '), 1);
        dataSegment := dataSegment[name := address];
        if address.Some? && size.Some? {
          ZeroFill(address.value, size.value);
        }
        next := Plus(address, size);
      } else if StartsWith(directive, ".byte") {
        dataSegment := dataSegment[name := address];
        if address.Some? {
          StoreByte(address.value, 0);
        }
        next := Plus(address, Some(1));
      } else if StartsWith(directive, ".asciiz") {
        dataSegment := dataSegment[name := address];
        var quoted := Quoted(directive, 0);
        if quoted.Some? {
          var text := Unescape(quoted.value);
          if address.Some? {
            StoreText(address.value, text);
          }
          next := Plus(address, Some(|text| + 1));
        }
      }
    }

    /** One trimmed line of `load`, in `section`, with the next data address; the new section and address. */
    method ReadLine(section: Section, address: Option<int>, line: string) returns (section': Section, next: Option<int>)
      modifies this
      ensures var l := Loader(section, address, old(memory), old(dataSegment), old(instructions));
        Loader(section', next, memory, dataSegment, instructions) == Machine.LoadLine(l, line)
      ensures Snapshot() == old(Snapshot()).(memory := memory, dataSegment := dataSegment, instructions := instructions)
    {
      section', next := section, address;
      if StartsWith(line, "#") || line == "" {
      } else if line == ".data" {
        section' := DataPart;
      } else if line == ".text" {
        section' := TextPart;
      } else if StartsWith(line, ".globl") {
      } else if section == DataPart {
        if ':' in line {
          var pieces := Split(line, ':');
          next := ReadDirective(address, Trim(pieces[0]), Trim(pieces[1]));
        }
      } else if section == TextPart {
        if |line| > 0 && line[|line| - 1] == ':' {
          instructions := instructions + [Label(line[..|line| - 1])];
        } else {
          instructions := instructions + [Instruction(line)];
        }
      }
    }

    /** `load`: a reset, then every line of the code in order. */
    method Load(code: string)
      modifies this
      ensures Snapshot() == Machine.Load(code)
    {
      Reset();
      var lines := Lines(code);
      var section := NoSection;
      var address := Some(DataBase);
      var i := 0;
      while i < |lines|
        invariant 0 <= i <= |lines|
        invariant Loader(section, address, memory, dataSegment, instructions) == LoadLines(LoaderStart, lines[..i])
        invariant Snapshot() == Initial.(memory := memory, dataSegment := dataSegment, instructions := instructions)
      {
        LoadLinesNext(lines, i);
        section, address := ReadLine(section, address, lines[i]);
        i := i + 1;
      }
      assert lines[..i] == lines;
    }

    // -------------------------------------------------------------------
    // step and execute
    // -------------------------------------------------------------------

    /** `findLabel`: the index of the first marker of `target`, or the error it throws. */
    method FindLabel(target: Option<string>) returns (r: Result<int>)
      ensures r == Machine.FindLabel(instructions, target)
    {
      var i := 0;
      while i < |instructions|
        invariant 0 <= i <= |instructions|
        invariant Machine.FindLabel(instructions, target) == FindLabelFrom(instructions, target, i)
      {
        if Marks(instructions[i], target) {
          return Ok(i);
        }
        i := i + 1;
      }
      return Err(LabelNotFound(target));
    }

    /** The print-string loop of syscall 4: the bytes from `a` up to a 0 byte, at most 1000 of them. */
    method ReadString(a: int) returns (str: seq<int>)
      ensures str == StringAt(memory, a, MaxStringChars)
    {
      str := [];
      var address := a;
      var left := MaxStringChars;
      while left > 0 && LoadByte(memory, address) != 0
        invariant StringAt(memory, a, MaxStringChars) == str + StringAt(memory, address, left)
      {
        str := str + [CodeUnit(LoadByte(memory, address))];
        address := address + 1;
        left := left - 1;
      }
    }

    /** `handleSyscall`, on the code in `$v0`. */
    method HandleSyscall()
      requires |registers| == 32
      modifies this
      ensures Snapshot() == Syscall(old(Snapshot()))
    {
      var code := registers[2];
      if code == 1 {
        output := output + Units(IntToString(registers[4]));
      } else if code == 4 {
        var str := ReadString(registers[4]);
        output := output + str;
      } else if code == 5 || code == 12 {
        registers := registers[2 := 0];
      } else if code == 10 {
        running := false;
      } else if code == 11 {
        output := output + [CodeUnit(registers[4])];
      }
    }

    /**
     * `executeInstruction`: the line without its comment; nothing for an
     * empty line; a syscall through `handleSyscall`, any other opcode as
     * `Dispatch` describes it; a thrown message is prefixed by the line.
     */
    method ExecuteInstruction(code: string) returns (fault: Option<string>)
      requires |registers| == 32
      modifies this
      ensures Outcome(Snapshot(), fault) == Machine.ExecuteInstruction(old(Snapshot()), code)
    {
      var c := StripComment(code);
      if c == [] {
        return None;
      }
      var parts := ParseInstruction(c);
      var s := Snapshot();
      if Shown(Arg(parts, 0)) == "syscall" {
        SyscallOpcode(s, parts);
        HandleSyscall();
        fault := None;
      } else {
        var o := Dispatch(s, parts);
        Restore(o.state);
        fault := if o.fault.Some? then Some(Executing(c, o.fault.value)) else None;
      }
    }

    /** The label markers from pc on are passed over, one at a time. */
    method SkipLabelMarkers()
      modifies this
      ensures Snapshot() == old(Snapshot()).(pc := SkipLabels(instructions, old(pc)))
    {
      while 0 <= pc < |instructions| && instructions[pc].Label?
        invariant SkipLabels(instructions, pc) == SkipLabels(instructions, old(pc))
        invariant Snapshot() == old(Snapshot()).(pc := pc)
        decreases |instructions| - pc
      {
        pc := pc + 1;
      }
    }

    /**
     * `step`: label markers are skipped; past the end the machine stops;
     * otherwise the instruction runs, the trace records it, and pc moves on.
     */
    method Step() returns (fault: Option<string>)
      requires |registers| == 32
      modifies this
      ensures Outcome(Snapshot(), fault) == Machine.Step(old(Snapshot()))
      ensures |registers| == 32
    {
      SkipLabelMarkers();
      StepAfterSkip(old(Snapshot()));
      fault := StepHere();
    }

    /** `step` once pc is on no label marker. */
    method StepHere() returns (fault: Option<string>)
      requires |registers| == 32 && SkipLabels(instructions, pc) == pc
      modifies this
      ensures Outcome(Snapshot(), fault) == Machine.Step(old(Snapshot()))
      ensures |registers| == 32
    {
      if pc >= |instructions| {
        fault := Halt();
      } else if pc < 0 {
        fault := ReadMissingEntry();
      } else {
        fault := StepInstruction();
      }
    }

    /** Past the end the machine stops. */
    method Halt() returns (fault: Option<string>)
      requires |registers| == 32 && pc >= |instructions| && SkipLabels(instructions, pc) == pc
      modifies this
      ensures Outcome(Snapshot(), fault) == Machine.Step(old(Snapshot()))
      ensures |registers| == 32
    {
      running := false;
      fault := None;
    }

    /** A negative pc reads an entry that is not there. */
    method ReadMissingEntry() returns (fault: Option<string>)
      requires |registers| == 32 && pc < 0
      ensures Outcome(Snapshot(), fault) == Machine.Step(Snapshot())
    {
      fault := Some(ReadOfUndefined("type"));
    }

    /** An instruction runs; on success the trace records it and pc moves on. */
    method StepInstruction() returns (fault: Option<string>)
      requires |registers| == 32 && 0 <= pc < |instructions| && instructions[pc].Instruction?
      modifies this
      ensures Outcome(Snapshot(), fault) == Machine.Step(old(Snapshot()))
      ensures |registers| == 32
    {
      var code := instructions[pc].code;
      StepExecutes(Snapshot(), code);
      fault := RunInstruction(code);
    }

    /** The instruction `code` runs; on success the trace records it and pc moves on. */
    method RunInstruction(code: string) returns (fault: Option<string>)
      requires |registers| == 32
      modifies this
      ensures var o := Machine.ExecuteInstruction(old(Snapshot()), code);
        Outcome(Snapshot(), fault) == if o.fault.Some? then o else Outcome(Advance(o.state, code), None)
      ensures |registers| == 32
    {
      fault := ExecuteInstruction(code);
      if fault.None? {
        Record(code);
      }
    }

    /** The trace records the line and the registers, and pc moves on. */
    method Record(code: string)
      requires |registers| == 32
      modifies this
      ensures Snapshot() == Advance(old(Snapshot()), code)
    {
      trace := trace + [TraceEntry(pc, code, RegisterState(registers))];
      pc := pc + 1;
    }

    /** The loop `for (i = 0; i <= currentStep; i++)` of the step mode, `n` rounds, left once the machine halts. */
    method StepTimes(n: nat) returns (fault: Option<string>)
      requires |registers| == 32
      modifies this
      ensures Outcome(Snapshot(), fault) == Steps(old(Snapshot()), n)
      ensures |registers| == 32
    {
      ghost var goal := Steps(Snapshot(), n);
      var left := n;
      while left > 0 && running
        invariant |registers| == 32 && Steps(Snapshot(), left) == goal
      {
        fault, left := StepRound(left, goal);
        if fault.Some? {
          return;
        }
      }
      StepsStop(Snapshot(), left);
      fault := None;
    }

    /** One round of the stepping loop, `k` rounds being left on the way to `goal`. */
    method StepRound(k: nat, ghost goal: Outcome) returns (fault: Option<string>, rest: nat)
      requires |registers| == 32 && k > 0 && running && Steps(Snapshot(), k) == goal
      modifies this
      ensures |registers| == 32 && rest == Fewer(k)
      ensures fault.Some? ==> Outcome(Snapshot(), fault) == goal
      ensures fault.None? ==> Steps(Snapshot(), rest) == goal
    {
      rest := Fewer(k);
      ghost var s := Snapshot();
      fault := Step();
      if fault.Some? {
        StepsFault(s, k);
      } else {
        StepsGoOn(s, k, Snapshot());
      }
    }

    /** `execute`: running, no output, no steps counted, then steps until the machine stops or the limit is hit. */
    method Execute() returns (fault: Option<string>)
      requires |registers| == 32
      modifies this
      ensures Outcome(Snapshot(), fault) == Machine.Execute(old(Snapshot()))
      ensures |registers| == 32
    {
      running, output, executed := true, [], 0;
      ghost var goal := Run(Snapshot());
      while running && pc < |instructions|
        invariant |registers| == 32 && executed <= MaxInstructions && Run(Snapshot()) == goal
        decreases MaxInstructions - executed
      {
        if executed >= MaxInstructions {
          RunFacts.RunAtLimit(Snapshot());
          return Some(LimitExceeded());
        }
        fault := CountedStep();
        if fault.Some? {
          return;
        }
      }
      RunFacts.RunStopped(Snapshot());
      fault := None;
    }

    /** One round of the loop of `execute`: a step, then one more counted. */
    method CountedStep() returns (fault: Option<string>)
      requires |registers| == 32 && running && pc < |instructions| && executed < MaxInstructions
      modifies this
      ensures |registers| == 32 && executed <= MaxInstructions
      ensures fault.Some? ==> Run(old(Snapshot())) == Outcome(Snapshot(), fault)
      ensures fault.None? ==> Run(old(Snapshot())) == Run(Snapshot()) && executed == old(executed) + 1
    {
      ghost var s := Snapshot();
      fault := Step();
      if fault.Some? {
        RunFacts.RunStops(s);
      } else {
        executed := executed + 1;
        RunFacts.RunGoesOn(s, Snapshot());
      }
    }
  }

  lemma LoadLinesNext(lines: seq<string>, i: nat)
    requires i < |lines|
    ensures LoadLines(LoaderStart, lines[..i + 1]) == Machine.LoadLine(LoadLines(LoaderStart, lines[..i]), lines[i])
  {
    assert lines[..i + 1][..i] == lines[..i];
  }

  lemma StepsStop(s: State, n: nat)
    requires |s.registers| == 32 && (n == 0 || !s.running)
    ensures Steps(s, n) == Outcome(s, None)
  { }

  lemma StepsFault(s: State, n: nat)
    requires |s.registers| == 32 && n > 0 && s.running && Step(s).fault.Some?
    ensures Steps(s, n) == Step(s)
  { }

  lemma StepsGoOn(s: State, n: nat, t: State)
    requires |s.registers| == 32 && n > 0 && s.running && Step(s).fault.None? && t == Step(s).state
    ensures |t.registers| == 32 && Steps(s, n) == Steps(t, Fewer(n))
  { }

  /** Skipping the label markers first changes nothing `step` does. */
  lemma StepAfterSkip(s: State)
    requires |s.registers| == 32
    ensures Step(s) == Step(s.(pc := SkipLabels(s.instructions, s.pc)))
  {
    SkipTwice(s.instructions, s.pc);
  }

  lemma {:induction false} SkipTwice(instrs: seq<Entry>, pc: int)
    ensures SkipLabels(instrs, SkipLabels(instrs, pc)) == SkipLabels(instrs, pc)
    decreases |instrs| - pc
  {
    if 0 <= pc < |instrs| && instrs[pc].Label? {
      SkipTwice(instrs, pc + 1);
    }
  }

  /** `step` on an instruction: it runs; on success the trace records it and pc moves on. */
  lemma StepExecutes(s: State, code: string)
    requires |s.registers| == 32 && 0 <= s.pc < |s.instructions| && s.instructions[s.pc] == Instruction(code)
    ensures var o := Machine.ExecuteInstruction(s, code);
      Step(s) == if o.fault.Some? then o else Outcome(Advance(o.state, code), None)
  {
    assert SkipLabels(s.instructions, s.pc) == s.pc;
    assert s.(pc := s.pc) == s;
  }

  /** The opcode `syscall` is the service `$v0` names, and never throws. */
  lemma SyscallOpcode(s: State, parts: seq<string>)
    requires |s.registers| == 32 && Shown(Arg(parts, 0)) == "syscall"
    ensures Dispatch(s, parts) == Outcome(Syscall(s), None)
  {
    assert "syscall" !in RegisterOps;
  }

  /**
   * `executeMIPS`: a new simulator loads the code, then either steps it
   * `currentStep + 1` times at most (stopping once it halts) or executes
   * it; a thrown error becomes a failure carrying the output and the
   * registers of that moment.
   */
  method ExecuteMIPS(code: string, currentStep: Option<int>, stepMode: bool) returns (r: Response)
    ensures r == Machine.ExecuteMIPS(code, currentStep, stepMode)
  {
    var sim := new Simulator();
    sim.Load(code);
    if stepMode && currentStep.Some? {
      r := StepThrough(sim, currentStep.value);
    } else {
      r := RunThrough(sim);
    }
  }

  /** The step mode: running, then the stepping loop; a thrown error becomes a failure. */
  method StepThrough(sim: Simulator, currentStep: int) returns (r: Response)
    requires |sim.registers| == 32
    modifies sim
    ensures r == StepMode(old(sim.Snapshot()), currentStep)
  {
    sim.running := true;
    var fault := sim.StepTimes(Iterations(currentStep));
    if fault.Some? {
      r := Failure(sim.Snapshot(), fault.value);
    } else {
      r := StepResult(sim.Snapshot(), currentStep);
    }
  }

  /** The full run: `execute`, or the failure it throws. */
  method RunThrough(sim: Simulator) returns (r: Response)
    requires |sim.registers| == 32
    modifies sim
    ensures r == FullRun(old(sim.Snapshot()))
  {
    var fault := sim.Execute();
    var s := sim.Snapshot();
    if fault.Some? {
      r := Failure(s, fault.value);
    } else {
      r := Completed(s.output, RegisterState(s.registers), MemoryState(s.memory), s.executed, s.trace);
    }
  }
}
