/**
 * The HYMN CPU as an object whose methods update its registers, memory and
 * buffers in place: the instruction handlers, the assembler passes that
 * write the symbol table and memory, and the stepping wrapper the web
 * front end drives (load_program, step, run_all, to_state). Every method
 * is proved against the value-level model in modules Assembler and Machine.
 */
module Simulator {
  import opened Wrappers
  import opened Text
  import opened Faults
  import opened Codec
  import opened Assembler
  import opened Machine

  /** One memory entry as to_state reports it. */
  datatype Cell = Cell(decimal: int, instr: string)

  /** The dictionary to_state returns; error is the text of the recorded exception. */
  datatype StateView = StateView(
    pc: int,
    ac: int,
    memory: seq<Cell>,
    output: seq<int>,
    input: seq<int>,
    halted: bool,
    error: Option<string>,
    symbols: map<string, int>)

  class SteppableCpu {
    var pc: int
    var ac: int
    var memory: seq<Word>
    var input: seq<int>
    var output: seq<int>
    var symbols: map<string, int>
    var halted: bool
    var error: Option<Fault>

    /** The fields as a value of the machine model. */
    function State(): MachineState
      reads this
    {
      MachineState(pc, ac, memory, input, output, symbols, halted, error)
    }

    ghost predicate Valid()
      reads this
    {
      WellFormed(State())
    }

    /** CPU(): registers at 0, 30 zero words, empty buffers and table, not halted, no error. */
    constructor ()
      ensures State() == MachineState(0, 0, EmptyMemory(), [], [], map[], false, None)
      ensures Valid() && !Stopped(State())
    {
      pc := 0;
      ac := 0;
      memory := EmptyMemory();
      input := [];
      output := [];
      symbols := map[];
      halted := false;
      error := None;
    }

    method ExecuteJump(data: int) returns (fault: Option<Fault>)
      requires Valid()
      modifies this
      ensures Performed(Execute(old(State()), Jump, data), old(State()), State(), fault)
    {
      if data < 0 || data > 29 {
        return Some(InvalidAddress("JUMP", data));
      }
      pc := data;
      fault := None;
    }

    method ExecuteJzer(data: int) returns (fault: Option<Fault>)
      requires Valid()
      modifies this
      ensures Performed(Execute(old(State()), Jzer, data), old(State()), State(), fault)
    {
      if data < 0 || data > 29 {
        return Some(InvalidAddress("JZER", data));
      }
      if ac == 0 {
        pc := data;
      } else {
        pc := pc + 1;
      }
      fault := None;
    }

    method ExecuteJpos(data: int) returns (fault: Option<Fault>)
      requires Valid()
      modifies this
      ensures Performed(Execute(old(State()), Jpos, data), old(State()), State(), fault)
    {
      if data < 0 || data > 29 {
        return Some(InvalidAddress("JPOS", data));
      }
      if ac > 0 {
        pc := data;
      } else {
        pc := pc + 1;
      }
      fault := None;
    }

    method ExecuteLoad(data: int) returns (fault: Option<Fault>)
      requires Valid()
      modifies this
      ensures Performed(Execute(old(State()), Load, data), old(State()), State(), fault)
    {
      if data < 0 || data > 30 {
        return Some(InvalidAddress("LOAD", data));
      }
      if data != READ_PORT {
        ac := memory[data].decimal;
      } else {
        if input == [] {
          return Some(EmptyInput);
        }
        ac := input[0];
        input := input[1..];
      }
      pc := pc + 1;
      fault := None;
    }

    method ExecuteStor(data: int) returns (fault: Option<Fault>)
      requires Valid()
      modifies this
      ensures Performed(Execute(old(State()), Stor, data), old(State()), State(), fault)
    {
      if data < 0 || data > 31 || data == 30 {
        return Some(InvalidAddress("STOR", data));
      }
      if data != WRITE_PORT {
        var word := FromDecimal(ac);
        if word.Err? {
          return Some(word.error);
        }
        memory := memory[data := word.value];
      } else {
        output := output + [ac];
      }
      pc := pc + 1;
      fault := None;
    }

    method ExecuteAdd(data: int) returns (fault: Option<Fault>)
      requires Valid()
      modifies this
      ensures Performed(Execute(old(State()), Add, data), old(State()), State(), fault)
    {
      if data < 0 || data > 29 {
        return Some(InvalidAddress("ADD", data));
      }
      ac := ac + memory[data].decimal;
      pc := pc + 1;
      fault := None;
    }

    method ExecuteSub(data: int) returns (fault: Option<Fault>)
      requires Valid()
      modifies this
      ensures Performed(Execute(old(State()), Sub, data), old(State()), State(), fault)
    {
      if data < 0 || data > 29 {
        return Some(InvalidAddress("SUB", data));
      }
      ac := ac - memory[data].decimal;
      pc := pc + 1;
      fault := None;
    }

    /** The jump table: every name but halt, aliases included, selects the handler of its canonical name. */
    method Dispatch(name: Mnemonic, data: int) returns (fault: Option<Fault>)
      requires Valid() && name != Halt
      modifies this
      ensures IsCanonical(Canonical(name)) && Canonical(name) != Halt
      ensures Performed(Execute(old(State()), Canonical(name), data), old(State()), State(), fault)
    {
      CanonicalNames(name);
      match name
      case Jump => fault := ExecuteJump(data);
      case Jzer => fault := ExecuteJzer(data);
      case Jpos => fault := ExecuteJpos(data);
      case Load | Read => fault := ExecuteLoad(data);
      case Stor | Store | Write => fault := ExecuteStor(data);
      case Add => fault := ExecuteAdd(data);
      case Sub => fault := ExecuteSub(data);
    }

    /** _inline_labels, with its index-driven loop. */
    static method InlineLabels(program: seq<string>) returns (r: seq<string>)
      requires forall i :: 0 <= i < |program| ==> program[i] != []
      ensures r == Inlined(program)
    {
      hide Inlined;
      r := [];
      var i := 0;
      while i < |program|
        invariant 0 <= i <= |program|
        invariant r + Inlined(program[i..]) == Inlined(program)
        decreases |program| - i
      {
        var line := program[i];
        InlinedAt(program, i);
        if line[|line| - 1] == ':' && i + 1 < |program| {
          r := r + [line + " " + program[i + 1]];
          i := i + 1;
        } else {
          r := r + [line];
        }
        i := i + 1;
      }
      assert program[i..] == [];
    }

    /** _fill_symbol_table: every line containing ':' maps its label to its index, later lines overwriting earlier ones. */
    method FillSymbolTable(program: seq<string>)
      modifies this
      ensures symbols == SymbolsAfter(old(symbols), LineLabels(program), |program|)
      ensures pc == old(pc) && ac == old(ac) && memory == old(memory) && input == old(input) && output == old(output)
      ensures halted == old(halted) && error == old(error)
    {
      var labels := LineLabels(program);
      for idx := 0 to |program|
        invariant symbols == SymbolsAfter(old(symbols), labels, idx)
        invariant pc == old(pc) && ac == old(ac) && memory == old(memory) && input == old(input) && output == old(output)
        invariant halted == old(halted) && error == old(error)
      {
        var tokens := Split(program[idx], ':');
        assert labels[idx] == if |tokens| > 1 then Some(Strip(tokens[0])) else None;
        if |tokens| > 1 {
          symbols := symbols[Strip(tokens[0]) := idx];
        }
      }
    }

    /** _assemble_instruction: the word of the line, stored at idx. */
    method AssembleInstruction(idx: nat, line: string, tokens: seq<string>) returns (fault: Option<Fault>)
      requires |tokens| >= 1 && ParseMnemonic(tokens[0]).Some?
      modifies this
      ensures Assembly(memory, fault) == StoreWord(old(memory), idx, InstructionWord(idx, line, tokens, symbols))
      ensures symbols == old(symbols) && pc == old(pc) && ac == old(ac) && input == old(input) && output == old(output)
      ensures halted == old(halted) && error == old(error)
    {
      if |tokens| > 2 {
        return Some(InvalidInstruction(line));
      }
      var expanded := ExpandPseudoOps(tokens);
      if |expanded| < 2 {
        return Some(IndexOutOfRange);
      }
      var data := ResolveOperand(expanded[1], symbols, idx);
      if data.Err? {
        return Some(data.error);
      }
      var word := FromInstruction(ParseMnemonic(expanded[0]).value, data.value);
      if idx >= |memory| {
        return Some(AssignmentOutOfRange);
      }
      memory := memory[idx := word];
      fault := None;
    }

    /** _assemble_data: the word of the data token, stored at idx. */
    method AssembleData(idx: nat, line: string, tokens: seq<string>) returns (fault: Option<Fault>)
      modifies this
      ensures Assembly(memory, fault) == StoreWord(old(memory), idx, DataWord(idx, line, tokens))
      ensures symbols == old(symbols) && pc == old(pc) && ac == old(ac) && input == old(input) && output == old(output)
      ensures halted == old(halted) && error == old(error)
    {
      if |tokens| != 1 {
        return Some(IllegalLine(idx, line));
      }
      var value := ParseInt(tokens[0], 10);
      if value.None? {
        return Some(InvalidDataValue(tokens[0]));
      }
      var word := FromDecimal(value.value);
      if word.Err? {
        return Some(InvalidDataValue(tokens[0]));
      }
      if idx >= |memory| {
        return Some(AssignmentOutOfRange);
      }
      memory := memory[idx := word.value];
      fault := None;
    }

    /** The body of the _assemble loop: drop the label, split, and assemble as data or as an instruction. */
    method AssembleLine(idx: nat, line: string) returns (fault: Option<Fault>)
      modifies this
      ensures Assembly(memory, fault) == StoreWord(old(memory), idx, LineWord(idx, line, symbols))
      ensures symbols == old(symbols) && pc == old(pc) && ac == old(ac) && input == old(input) && output == old(output)
      ensures halted == old(halted) && error == old(error)
    {
      var tokens := LineTokens(line);
      if tokens == [] {
        return Some(IndexOutOfRange);
      }
      if ParseMnemonic(tokens[0]).None? {
        fault := AssembleData(idx, line, tokens);
      } else {
        fault := AssembleInstruction(idx, line, tokens);
      }
    }

    /** _assemble: each line in turn, stopping at the first that raises. */
    method Assemble(program: seq<string>) returns (fault: Option<Fault>)
      modifies this
      ensures Assembly(memory, fault) == AssembleProgram(program, symbols, old(memory))
      ensures symbols == old(symbols) && pc == old(pc) && ac == old(ac) && input == old(input) && output == old(output)
      ensures halted == old(halted) && error == old(error)
    {
      fault := None;
      var results := LineResults(program, symbols);
      assert AssembleProgram(program, symbols, old(memory)) == AssembledPrefix(results, old(memory), |program|);
      for idx := 0 to |program|
        invariant fault.None? && Assembly(memory, None) == AssembledPrefix(results, old(memory), idx)
        invariant symbols == old(symbols) && pc == old(pc) && ac == old(ac) && input == old(input) && output == old(output)
        invariant halted == old(halted) && error == old(error)
      {
        ghost var before := memory;
        assert AssembledPrefix(results, old(memory), idx + 1) == StoreWord(before, idx, results[idx]);
        fault := AssembleLine(idx, program[idx]);
        if fault.Some? {
          AssembledPrefixSticky(results, old(memory), idx + 1, |program|);
          return;
        }
      }
    }

    /** The passes of load_program after the reset: normalise, inline labels, fill the table, assemble. */
    method AssembleSource(code: string) returns (fault: Option<Fault>)
      requires symbols == map[]
      modifies this
      ensures symbols == SymbolTable(Program(code))
      ensures Assembly(memory, fault) == AssembleProgram(Program(code), symbols, old(memory))
      ensures pc == old(pc) && ac == old(ac) && input == old(input) && output == old(output)
      ensures halted == old(halted) && error == old(error)
    {
      var lines := Normalize(code);
      NormalizedLinesAreClean(code);
      var program := InlineLabels(lines);
      FillSymbolTable(program);
      fault := Assemble(program);
    }

    /**
     * SteppableCPU.load_program: reset every register, memory, the output,
     * the symbol table and both flags, run the assembler passes, and only
     * then install the input values. On a fault the input is the one from
     * before and memory holds the lines assembled so far.
     */
    method LoadProgram(code: string, inputValues: seq<int>) returns (fault: Option<Fault>)
      modifies this
      ensures pc == 0 && ac == 0 && output == [] && !halted && error.None?
      ensures symbols == SymbolTable(Program(code))
      ensures Assembly(memory, fault) == AssembleProgram(Program(code), symbols, EmptyMemory())
      ensures input == if fault.None? then inputValues else old(input)
      ensures fault.None? <==> Machine.LoadProgram(code, inputValues).Ok?
      ensures fault.None? ==> State() == Machine.LoadProgram(code, inputValues).value && Valid()
      ensures fault.Some? ==> fault.value == Machine.LoadProgram(code, inputValues).error
    {
      hide Machine.LoadProgram, Program, SymbolTable, AssembleProgram;
      pc := 0;
      ac := 0;
      memory := EmptyMemory();
      output := [];
      symbols := map[];
      halted := false;
      error := None;
      fault := AssembleSource(code);
      LoadProgramOutcome(code, inputValues);
      if fault.None? {
        input := inputValues;
      }
    }

    /** SteppableCPU.step */
    method Step() returns (progressed: bool)
      requires Valid()
      modifies this
      ensures (State(), progressed) == Machine.Step(old(State()))
      ensures Valid()
    {
      StepKeepsWellFormed(State());
      if halted || error.Some? {
        return false;
      }
      if pc >= |memory| {
        error := Some(IndexOutOfRange);
        return false;
      }
      var word := memory[pc];
      if word.name == Halt {
        halted := true;
        return false;
      }
      var fault := Dispatch(word.name, word.operand);
      if fault.Some? {
        error := fault;
        return false;
      }
      progressed := true;
    }

    /** SteppableCPU.run_all: step until a step fails or maxSteps steps have succeeded. */
    method RunAll(maxSteps: int) returns (steps: nat)
      requires Valid()
      modifies this
      ensures (State(), steps) == Run(old(State()), maxSteps)
      ensures Valid()
    {
      hide Run;
      steps := 0;
      while steps < maxSteps
        invariant Valid()
        invariant steps <= maxSteps || steps == 0
        invariant Run(old(State()), maxSteps) == (Run(State(), maxSteps - steps).0, Run(State(), maxSteps - steps).1 + steps)
        decreases maxSteps - steps
      {
        RunUnfold(State(), maxSteps - steps);
        var progressed := Step();
        if !progressed {
          return;
        }
        steps := steps + 1;
      }
      RunUnfold(State(), maxSteps - steps);
    }

    /**
     * SteppableCPU.to_state: a projection of the fields. Each memory entry
     * carries the word's decimal and its "name operand" rendering, which
     * Codec.RenderReadsBack shows splits back into the word's name and
     * operand; the error is the text of the recorded fault.
     */
    function ToState(): (view: StateView)
      reads this
      ensures view.pc == pc && view.ac == ac && view.halted == halted && view.symbols == symbols
      ensures view.output == output && view.input == input
      ensures |view.memory| == |memory|
      ensures Valid() ==> |view.memory| == MEMORY_SIZE
      ensures forall i :: 0 <= i < |memory| ==> view.memory[i] == Cell(memory[i].decimal, Render(memory[i]))
      ensures view.error.Some? <==> error.Some?
      ensures view.error.Some? ==> view.error.value == Message(error.value) && view.error.value != []
    {
      var cells := seq(|memory|, i requires 0 <= i < |memory| reads this => Cell(memory[i].decimal, Render(memory[i])));
      StateView(pc, ac, cells, output, input, halted,
                if error.Some? then Some(Message(error.value)) else None, symbols)
    }
  }
}
