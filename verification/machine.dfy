/**
 * The HYMN machine as values: its state, the instruction handlers, one
 * step, a bounded run and a program load. Module Simulator runs the same
 * operations in place on a CPU object and is proved against these.
 */
module Machine {
  import opened Wrappers
  import opened Faults
  import opened Codec
  import opened Assembler

  const READ_PORT := 30
  const WRITE_PORT := 31
  const MAX_STEPS := 10000

  datatype MachineState = MachineState(
    pc: int,
    ac: int,
    memory: seq<Word>,
    input: seq<int>,
    output: seq<int>,
    symbols: map<string, int>,
    halted: bool,
    error: Option<Fault>)

  /**
   * What every reachable state satisfies: 30 words whose two views agree, and
   * a pc in 0..30 (30 is reached by a non-jump instruction at address 29).
   */
  ghost predicate WellFormed(s: MachineState) {
    && |s.memory| == MEMORY_SIZE
    && 0 <= s.pc <= MEMORY_SIZE
    && forall i :: 0 <= i < |s.memory| ==> Agrees(s.memory[i])
  }

  /** step() has nothing more to do: the machine halted or recorded an error. */
  predicate Stopped(s: MachineState) {
    s.halted || s.error.Some?
  }

  /** The registers, memory and buffers: what a handler may change. */
  function Registers(s: MachineState): (int, int, seq<Word>, seq<int>, seq<int>) {
    (s.pc, s.ac, s.memory, s.input, s.output)
  }

  /** The addresses each handler accepts before it changes anything. */
  predicate AddressOk(handler: Mnemonic, d: int) {
    match handler
    case Load => 0 <= d <= READ_PORT
    case Stor => (0 <= d < MEMORY_SIZE) || d == WRITE_PORT
    case _ => 0 <= d < MEMORY_SIZE
  }

  /** The text the handler puts in its 'Invalid ... address' message. */
  function HandlerTag(handler: Mnemonic): string {
    match handler
    case Jump => "JUMP"
    case Jzer => "JZER"
    case Jpos => "JPOS"
    case Load => "LOAD"
    case Add => "ADD"
    case Sub => "SUB"
    case _ => "STOR"
  }

  /**
   * The handlers _execute_jump ... _execute_sub. Each one checks its address
   * (and, for load and stor, the input queue and the codec range) before it
   * changes anything.
   */
  function Execute(s: MachineState, handler: Mnemonic, d: int): Result<MachineState, Fault>
    requires |s.memory| == MEMORY_SIZE
    requires IsCanonical(handler) && handler != Halt
  {
    if !AddressOk(handler, d) then Err(InvalidAddress(HandlerTag(handler), d))
    else match handler
      case Jump => Ok(s.(pc := d))
      case Jzer => Ok(s.(pc := if s.ac == 0 then d else s.pc + 1))
      case Jpos => Ok(s.(pc := if s.ac > 0 then d else s.pc + 1))
      case Load =>
        if d != READ_PORT then Ok(s.(ac := s.memory[d].decimal, pc := s.pc + 1))
        else if s.input == [] then Err(EmptyInput)
        else Ok(s.(ac := s.input[0], input := s.input[1..], pc := s.pc + 1))
      case Stor =>
        if d != WRITE_PORT then
          match FromDecimal(s.ac)
          case Err(e) => Err(e)
          case Ok(w) => Ok(s.(memory := s.memory[d := w], pc := s.pc + 1))
        else Ok(s.(output := s.output + [s.ac], pc := s.pc + 1))
      case Add => Ok(s.(ac := s.ac + s.memory[d].decimal, pc := s.pc + 1))
      case Sub => Ok(s.(ac := s.ac - s.memory[d].decimal, pc := s.pc + 1))
  }

  /**
   * How a handler call that produced `fault` relates the states before and
   * after it to the handler's outcome `r`: the new state on success, the old
   * state unchanged on a fault.
   */
  predicate Performed(r: Result<MachineState, Fault>, before: MachineState, after: MachineState, fault: Option<Fault>) {
    match r
    case Ok(t) => fault.None? && after == t
    case Err(e) => fault == Some(e) && after == before
  }

  /**
   * A handler raises exactly for an address outside its range, a read from
   * the empty input queue, or a store to memory of an accumulator outside
   * -128..255; the fault is the tagged address error, the empty-deque error
   * and the codec's Overflow respectively.
   */
  lemma ExecuteFaultsExactly(s: MachineState, handler: Mnemonic, d: int)
    requires |s.memory| == MEMORY_SIZE
    requires IsCanonical(handler) && handler != Halt
    ensures Execute(s, handler, d).Err? <==>
      || !AddressOk(handler, d)
      || (handler == Load && d == READ_PORT && s.input == [])
      || (handler == Stor && d != WRITE_PORT && !(-128 <= s.ac <= 255))
    ensures !AddressOk(handler, d) ==> Execute(s, handler, d) == Err(InvalidAddress(HandlerTag(handler), d))
    ensures AddressOk(handler, d) && handler == Load && d == READ_PORT && s.input == [] ==>
      Execute(s, handler, d) == Err(EmptyInput)
    ensures AddressOk(handler, d) && handler == Stor && d != WRITE_PORT && !(-128 <= s.ac <= 255) ==>
      Execute(s, handler, d) == Err(Overflow)
  {
  }

  /** The jumps: jump always, jzer when ac is 0, jpos when ac is positive; otherwise on to pc + 1. */
  lemma ExecuteJumps(s: MachineState, handler: Mnemonic, d: int)
    requires |s.memory| == MEMORY_SIZE
    requires handler == Jump || handler == Jzer || handler == Jpos
    requires 0 <= d < MEMORY_SIZE
    ensures Execute(s, handler, d).Ok?
    ensures var t := Execute(s, handler, d).value;
      && (t.pc == d <== handler == Jump || (handler == Jzer && s.ac == 0) || (handler == Jpos && s.ac > 0))
      && (t.pc == s.pc + 1 <== (handler == Jzer && s.ac != 0) || (handler == Jpos && s.ac <= 0))
      && t.(pc := s.pc) == s
  {
  }

  /**
   * A successful non-jump handler moves pc on by one. Only a load changes ac
   * without arithmetic; only load 30 consumes input, and it consumes the
   * front value; only stor 31 produces output, and it appends ac; only a
   * store to 0..29 changes memory, and only that slot, to the word
   * MemoryLocation(decimal=ac), whose decimal is ac. Flags and symbols never change.
   */
  lemma ExecuteEffects(s: MachineState, handler: Mnemonic, d: int)
    requires |s.memory| == MEMORY_SIZE
    requires IsCanonical(handler) && handler != Halt
    requires Execute(s, handler, d).Ok?
    ensures var t := Execute(s, handler, d).value;
      && (handler != Jump && handler != Jzer && handler != Jpos ==> t.pc == s.pc + 1)
      && (handler == Load ==> t.ac == if d == READ_PORT then s.input[0] else s.memory[d].decimal)
      && (handler == Add ==> t.ac == s.ac + s.memory[d].decimal)
      && (handler == Sub ==> t.ac == s.ac - s.memory[d].decimal)
      && (handler != Load && handler != Add && handler != Sub ==> t.ac == s.ac)
      && (t.input == if handler == Load && d == READ_PORT then s.input[1..] else s.input)
      && (t.output == if handler == Stor && d == WRITE_PORT then s.output + [s.ac] else s.output)
      && |t.memory| == |s.memory|
      && (forall i :: 0 <= i < |s.memory| && !(handler == Stor && i == d) ==> t.memory[i] == s.memory[i])
      && (handler == Stor && d != WRITE_PORT ==> t.memory[d] == FromDecimal(s.ac).value)
      && (handler == Stor && d != WRITE_PORT ==> t.memory[d].decimal == s.ac && Agrees(t.memory[d]))
      && t.symbols == s.symbols && t.halted == s.halted && t.error == s.error
  {
  }

  /**
   * SteppableCPU.step: nothing once stopped; memory[pc] past the end records
   * an IndexError; a word named halt sets halted; any other word dispatches
   * on its name's handler with its stored operand. Returns whether it progressed.
   */
  function Step(s: MachineState): (MachineState, bool)
    requires WellFormed(s)
  {
    if Stopped(s) then (s, false)
    else if s.pc >= |s.memory| then (s.(error := Some(IndexOutOfRange)), false)
    else
      var w := s.memory[s.pc];
      if w.name == Halt then (s.(halted := true), false)
      else
        CanonicalNames(w.name);
        match Execute(s, Canonical(w.name), w.operand)
        case Ok(t) => (t, true)
        case Err(e) => (s.(error := Some(e)), false)
  }

  lemma {:induction false} StepKeepsWellFormed(s: MachineState)
    requires WellFormed(s)
    ensures WellFormed(Step(s).0)
  {
    if !Stopped(s) && s.pc < |s.memory| && s.memory[s.pc].name != Halt {
      var w := s.memory[s.pc];
      CanonicalNames(w.name);
      var r := Execute(s, Canonical(w.name), w.operand);
      if r.Ok? {
        ExecuteEffects(s, Canonical(w.name), w.operand);
      }
    }
  }

  /** step() returns True exactly when the machine is still live afterwards. */
  lemma StepProgressIffLive(s: MachineState)
    requires WellFormed(s)
    ensures Step(s).1 <==> !Stopped(Step(s).0)
  {
    if !Stopped(s) && s.pc < |s.memory| && s.memory[s.pc].name != Halt {
      var w := s.memory[s.pc];
      CanonicalNames(w.name);
      if Execute(s, Canonical(w.name), w.operand).Ok? {
        ExecuteEffects(s, Canonical(w.name), w.operand);
      }
    }
  }

  /**
   * A step that does not progress leaves pc, ac, memory and both buffers as
   * they were; only halted or error may change, and only from unset to set.
   */
  lemma StepFailureKeepsRegisters(s: MachineState)
    requires WellFormed(s)
    requires !Step(s).1
    ensures Registers(Step(s).0) == Registers(s) && Step(s).0.symbols == s.symbols
    ensures Stopped(s) ==> Step(s).0 == s
    ensures !Stopped(s) ==> Stopped(Step(s).0)
  {
  }

  /** A word named halt stops the machine without touching anything else. */
  lemma StepOnHalt(s: MachineState)
    requires WellFormed(s) && !Stopped(s)
    requires s.pc < MEMORY_SIZE && s.memory[s.pc].name == Halt
    ensures Step(s) == (s.(halted := true), false)
  {
  }

  /** A live machine whose pc has run past the last slot records an error on its next step. */
  lemma StepPastMemoryFaults(s: MachineState)
    requires WellFormed(s) && !Stopped(s)
    requires s.pc == MEMORY_SIZE
    ensures Step(s) == (s.(error := Some(IndexOutOfRange)), false)
    ensures Message(Step(s).0.error.value) == "list index out of range"
  {
  }

  /**
   * run_all: steps while fewer than maxSteps steps have succeeded and the
   * last one progressed; gives the final state and the number of successes.
   */
  function Run(s: MachineState, maxSteps: int): (MachineState, nat)
    requires WellFormed(s)
    decreases if maxSteps < 0 then 0 else maxSteps
  {
    if maxSteps <= 0 then (s, 0)
    else
      StepKeepsWellFormed(s);
      var (t, progressed) := Step(s);
      if !progressed then (t, 0)
      else
        var (u, n) := Run(t, maxSteps - 1);
        (u, n + 1)
  }

  /**
   * One step of Run: with no steps left the state stays; otherwise a step
   * that progresses is followed by the rest of the run and one that does
   * not ends it.
   */
  lemma RunUnfold(s: MachineState, maxSteps: int)
    requires WellFormed(s)
    ensures WellFormed(Step(s).0)
    ensures maxSteps <= 0 ==> Run(s, maxSteps) == (s, 0)
    ensures maxSteps > 0 && Step(s).1 ==> Run(s, maxSteps) == (Run(Step(s).0, maxSteps - 1).0, Run(Step(s).0, maxSteps - 1).1 + 1)
    ensures maxSteps > 0 && !Step(s).1 ==> Run(s, maxSteps) == (Step(s).0, 0)
  {
    StepKeepsWellFormed(s);
  }

  /**
   * A run keeps the state well formed, succeeds at most maxSteps times, and
   * when it stops short of maxSteps the machine has halted or recorded an error.
   */
  lemma {:induction false} RunBounded(s: MachineState, maxSteps: int)
    requires WellFormed(s)
    ensures WellFormed(Run(s, maxSteps).0)
    ensures Run(s, maxSteps).1 <= if maxSteps < 0 then 0 else maxSteps
    ensures 0 < maxSteps && Run(s, maxSteps).1 < maxSteps ==> Stopped(Run(s, maxSteps).0)
    decreases if maxSteps < 0 then 0 else maxSteps
  {
    if maxSteps > 0 {
      StepKeepsWellFormed(s);
      StepProgressIffLive(s);
      var (t, progressed) := Step(s);
      if progressed {
        RunBounded(t, maxSteps - 1);
      }
    }
  }

  /** One step only appends to the output and only consumes the input from its front. */
  lemma StepOnlyAppendsOutput(s: MachineState)
    requires WellFormed(s)
    ensures s.output <= Step(s).0.output
    ensures |Step(s).0.input| <= |s.input|
    ensures Step(s).0.input == s.input[|s.input| - |Step(s).0.input|..]
  {
    if !Stopped(s) && s.pc < |s.memory| && s.memory[s.pc].name != Halt {
      var w := s.memory[s.pc];
      CanonicalNames(w.name);
      if Execute(s, Canonical(w.name), w.operand).Ok? {
        ExecuteEffects(s, Canonical(w.name), w.operand);
      }
    }
  }

  /** Running only appends to the output and only consumes the input from its front. */
  lemma {:induction false} RunOnlyAppendsOutput(s: MachineState, maxSteps: int)
    requires WellFormed(s)
    ensures s.output <= Run(s, maxSteps).0.output
    ensures |Run(s, maxSteps).0.input| <= |s.input|
    ensures Run(s, maxSteps).0.input == s.input[|s.input| - |Run(s, maxSteps).0.input|..]
    decreases if maxSteps < 0 then 0 else maxSteps
  {
    hide Run, Step;
    RunUnfold(s, maxSteps);
    if maxSteps > 0 {
      var (t, progressed) := Step(s);
      StepOnlyAppendsOutput(s);
      if progressed {
        RunOnlyAppendsOutput(t, maxSteps - 1);
      }
    }
  }

  /** A stopped machine stays as it is, whatever the step budget. */
  lemma RunWhenStopped(s: MachineState, maxSteps: int)
    requires WellFormed(s) && Stopped(s)
    ensures Run(s, maxSteps) == (s, 0)
  {
  }

  /** A memory of 30 zero words, as a fresh CPU holds. */
  function EmptyMemory(): (memory: seq<Word>)
    ensures |memory| == MEMORY_SIZE
    ensures forall i :: 0 <= i < MEMORY_SIZE ==> memory[i] == FromDecimal(0).value
  {
    seq(MEMORY_SIZE, _ => ZERO_WORD)
  }

  /** The program lines the assembler passes work on: cleaned source lines with labels inlined. */
  function Program(code: string): seq<string> {
    Inlined(Normalize(code))
  }

  /**
   * load_program on a fresh CPU, from the program lines on: registers and
   * buffers reset, the symbol table of the program, memory assembled over 30
   * zero words, and the input values in their given order; or the fault that
   * assembly raised.
   */
  function LoadLines(program: seq<string>, inputValues: seq<int>): Result<MachineState, Fault> {
    var symbols := SymbolTable(program);
    var assembled := AssembleProgram(program, symbols, EmptyMemory());
    if assembled.fault.Some? then Err(assembled.fault.value)
    else Ok(MachineState(0, 0, assembled.memory, inputValues, [], symbols, false, None))
  }

  /** load_program(code, input) */
  function LoadProgram(code: string, inputValues: seq<int>): Result<MachineState, Fault> {
    LoadLines(Program(code), inputValues)
  }

  /**
   * A load succeeds exactly when the program has at most 30 lines that all
   * assemble; the state is then well formed, live, at pc 0, with the words of
   * the lines in program order and zero words after them.
   */
  lemma LoadLayout(program: seq<string>, inputValues: seq<int>)
    ensures var results := LineResults(program, SymbolTable(program));
      LoadLines(program, inputValues).Ok? <==>
        |program| <= MEMORY_SIZE && forall i :: 0 <= i < |program| ==> results[i].Ok?
    ensures LoadLines(program, inputValues).Ok? ==>
      var s := LoadLines(program, inputValues).value;
      var results := LineResults(program, SymbolTable(program));
      && WellFormed(s) && !Stopped(s) && s.pc == 0 && s.ac == 0
      && s.input == inputValues && s.output == [] && s.symbols == SymbolTable(program)
      && (forall i :: 0 <= i < |program| ==> s.memory[i] == results[i].value)
      && (forall i :: |program| <= i < MEMORY_SIZE ==> s.memory[i] == FromDecimal(0).value)
  {
    hide LineWord;
    var symbols := SymbolTable(program);
    var results := LineResults(program, symbols);
    var assembled := AssembleProgram(program, symbols, EmptyMemory());
    AssembleProgramLayout(program, symbols, EmptyMemory());
    if assembled.fault.None? {
      forall i | 0 <= i < MEMORY_SIZE
        ensures Agrees(assembled.memory[i])
      {
        if i < |program| {
          ResultAgrees(program, i);
        }
      }
      assert LoadLines(program, inputValues).value
          == MachineState(0, 0, assembled.memory, inputValues, [], symbols, false, None);
    }
  }

  /** A successful load is the reset state over the assembled memory, and it is well formed. */
  lemma LoadedIsWellFormed(program: seq<string>, inputValues: seq<int>)
    requires LoadLines(program, inputValues).Ok?
    ensures var symbols := SymbolTable(program);
      LoadLines(program, inputValues).value
        == MachineState(0, 0, AssembleProgram(program, symbols, EmptyMemory()).memory, inputValues, [], symbols, false, None)
    ensures WellFormed(LoadLines(program, inputValues).value)
  {
    LoadLayout(program, inputValues);
  }

  /** The outcome of LoadProgram in terms of the assembler run on the normalised source. */
  lemma LoadProgramOutcome(code: string, inputValues: seq<int>)
    ensures var symbols := SymbolTable(Program(code));
      var assembled := AssembleProgram(Program(code), symbols, EmptyMemory());
      && (LoadProgram(code, inputValues).Ok? <==> assembled.fault.None?)
      && (assembled.fault.Some? ==> LoadProgram(code, inputValues).error == assembled.fault.value)
      && (assembled.fault.None? ==>
            LoadProgram(code, inputValues).value
              == MachineState(0, 0, assembled.memory, inputValues, [], symbols, false, None)
            && WellFormed(LoadProgram(code, inputValues).value))
  {
    var program := Program(code);
    if LoadLines(program, inputValues).Ok? {
      LoadedIsWellFormed(program, inputValues);
    }
  }

  lemma ResultAgrees(program: seq<string>, i: int)
    requires 0 <= i < |program|
    requires LineResults(program, SymbolTable(program))[i].Ok?
    ensures Agrees(LineResults(program, SymbolTable(program))[i].value)
  {
    LineWordAgrees(i, program[i], SymbolTable(program));
  }
}
