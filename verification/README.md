# HYMN simulator — a Dafny model

HYMN is a teaching machine with 30 eight-bit memory words, an accumulator,
a program counter, a memory-mapped input port (address 30) and output port
(address 31), and eight instructions (`halt jump jzer jpos load stor add
sub`, plus the aliases `store`, `read` and `write`). The simulator assembles
a source text in two passes: comments, case and blank lines are cleaned
away, label-only lines are merged with their successor, the symbol table is
filled, and each line becomes a memory word. The CPU then executes the
words. A small web front end keeps one stepping CPU per session id and
offers load, step, run and reset.

This project models that core:

- `codec.dfy` (module `Codec`): the memory word (`MemoryLocation`). It has
  both an instruction view and a decimal view, plus the encode and decode
  between them.
- `faults.dfy` (module `Faults`): the exceptions the core raises. Each has
  the text `str(e)` gives.
- `text.dfy` (module `Text`): the Python string operations the assembler
  relies on. These are `lower`, `strip`, `split`, `splitlines`, `int(s)`,
  `int(s, 2)` and `str(n)`.
- `assembler.dfy` (module `Assembler`): the assembler passes as functions,
  with their properties.
- `machine.dfy` (module `Machine`): the CPU state as a value. It covers the
  seven instruction handlers, one step, a bounded run and a program load,
  with their properties.
- `simulator.dfy` (module `Simulator`): the CPU as a class whose methods
  update its fields in place. These are the handlers, the dispatch table,
  the assembler passes, `load_program`, `step`, `run_all` and `to_state`.
  Each method is proved against the value model.
- `sessions.dfy` (module `Sessions`): the session dictionary of the web
  routes, as a class holding a map from session id to CPU object.
- `scenarios.dfy` (module `Scenarios`): the two test programs. Each loads
  and prints its data value.

The program's own tests expect two behaviours that `app.py` does not
implement:
- a 400 "Missing session ID" reply when no session is given;
- a "timed out" error for an endless loop.

The model follows the code instead: a run stops after `MAX_STEPS` (10000)
successful steps, and a request without a session id is not refused. In
the code such a request falls back to the id `"default"`; the model's
routes take whatever id the JSON layer supplies.

## Model

| member | source | states |
|---|---|---|
| Codec.Name | simulator.py:12-16 | every instruction name is a non-empty token without whitespace |
| Codec.OpcodeOf | simulator.py:12-14 | the opcode table: every name, aliases included, has an opcode below 8 |
| Codec.Decoded | simulator.py:15-16 | the decoder's name for an opcode has that opcode |
| Codec.CanonicalNames | simulator.py:12-16 | only halt has opcode 0; store and write decode as stor, read as load; every other name is its own decoding |
| Codec.ParseMnemonic | simulator.py:47-57 | a token is found in the jump table exactly when it is some instruction's name, and the entry found has that name |
| Codec.FromInstruction | simulator.py:18-23 | an instruction-built word keeps its name and operand; its decimal is 32*opcode+operand, or that minus 256 when it is 128 or more (so `load 40` is -88 and `load -1` is 127); it is below 128 whenever 32*opcode+operand is below 384, and in -128..127 for operands 0..31 |
| Codec.FromDecimal | simulator.py:24-30 | a decimal-built word fails with Overflow exactly outside -128..255; otherwise it keeps the decimal, its name is a decoded name, its operand is in 0..31, and 32*opcode+operand is the value's 8-bit pattern |
| Codec.NewLocation | simulator.py:7-30 | giving both an instruction and a non-zero decimal is exactly the error case; an instruction alone gives FromInstruction's word, decimal and all; otherwise the decimal view is used |
| Codec.EncodeThenDecode | simulator.py:18-30 | encoding an instruction with an operand in 0..31 and decoding its decimal gives back the opcode's decoded name and the same operand |
| Codec.DecodeThenEncode | simulator.py:18-30 | decoding a decimal in -128..127 and re-encoding its view gives back the decimal |
| Codec.HighDecimalStaysUnfolded | simulator.py:18-30 | a decimal in 128..255 is stored as given, but its view re-encodes to the decimal minus 256 |
| Codec.NameParsesBack | simulator.py:47-57 | every instruction name, aliases included, is found in the jump table under its own mnemonic |
| Codec.RenderReadsBack | simulator.py:32-36 | "name operand" splits back into the name and the decimal operand, which parse to the word's instruction and operand |
| Faults.Message | simulator.py:9-10 | every exception text is non-empty, so any fault sets the CPU's error |
| Text.DecimalRoundTrip | app.py:60 | `int(str(n)) == n` for every integer, so the rendered operand reads back |
| Text.BinaryNumeralIsDecimalNumeral | simulator.py:158-164 | an operand that parses in base 2 also parses in base 10, so the base-2 reading is the one that decides; the base-10 value is at least as large for a numeral without a minus sign and at most as large for one with it |
| Assembler.StripComment | simulator.py:113-118 | the result is the prefix of the line before its first '#', and holds no '#' |
| Assembler.NormalizedLinesAreClean | simulator.py:195-197 | every line after the front passes is non-empty, holds no comment, is lower-case and has no surrounding whitespace |
| Assembler.CleanLinesOfClean | app.py:27-29 | the front passes leave lines that are already clean as they are |
| Assembler.CleanLinesDropEmpty | app.py:27-29 | an empty source line is dropped wherever it occurs |
| Assembler.Inlined | simulator.py:120-131 | label inlining never adds lines and keeps at least half of them (the input has at most twice as many lines as the output), and non-empty lines stay non-empty |
| Assembler.InlinedWithoutLabelLines | simulator.py:120-131 | a program with no label-only line before its last line is left unchanged |
| Assembler.LabelsOfLines | simulator.py:133-137 | a line defines a label exactly when it contains ':', and the label is the stripped text before the first ':' (a proper prefix of the line, free of ':', which the ':' follows) |
| Assembler.SymbolTableLastWins | simulator.py:133-137 | the table maps exactly the labels the program defines, each to a line that defines it and to no earlier line than any that defines it |
| Assembler.ResolveOperand | simulator.py:155-164 | a label resolves to its table entry; otherwise a base-2 reading wins; otherwise the token's base-10 value; the InvalidOperand error, with the token and line, is raised exactly when all three fail |
| Assembler.OperandTenIsTwo | simulator.py:155-164 | the operand token "10" means 2, not 10 |
| Assembler.LineWordAgrees | simulator.py:148-173 | every word a line assembles to has agreeing views, and a data word lies in -128..255 |
| Assembler.PseudoOpsExpand | simulator.py:139-146 | read, write and halt become load, stor and halt (same opcode) with the binary operand token for 30, 31 and 0, whatever operand was given; every other token list is unchanged |
| Assembler.InstructionWordCases | simulator.py:148-165 | more than two tokens is an InvalidInstruction fault; read, write and halt give load 30, stor 31 and halt 0 unless the binary token is a label; another mnemonic with no operand raises IndexError |
| Assembler.InstructionWordOperand | simulator.py:148-165 | a mnemonic with one operand succeeds exactly when the operand resolves, and gives FromInstruction of the mnemonic and the resolved value; otherwise the operand's fault |
| Assembler.DataWordCases | simulator.py:167-173 | a data line is an IllegalLine fault unless it is one token; it assembles exactly when int() reads the token as a value in -128..255, to MemoryLocation(decimal=value); otherwise an InvalidDataValue fault naming the token |
| Assembler.LineWordCases | simulator.py:175-186 | the label is removed; no tokens left raises IndexError; a first token outside the jump table makes a data line, assembled as DataWordCases says; otherwise the line is an instruction |
| Assembler.StoreWord | simulator.py:165 | a word stored at an index inside memory replaces that slot only and raises nothing; past the end it raises the list-assignment error and memory is unchanged; a line's fault is passed through with memory unchanged |
| Assembler.AssembledPrefixSticky | simulator.py:175-186 | once a line has raised, later lines change neither memory nor the fault |
| Assembler.AssembleProgramLayout | simulator.py:175-186 | assembly succeeds exactly when the program fits in memory and every line assembles; words then sit at addresses 0.. in program order and the other slots keep their contents |
| Assembler.AssembleProgramFirstFault | simulator.py:175-186 | a failed assembly reports the fault of its first failing line: every earlier line assembled into a memory slot, and that line either raised its own fault or assembled but fell on the first index past the last slot, giving the list-assignment error |
| Assembler.TooLongProgramFails | simulator.py:165 | a program longer than memory never assembles, and when each of its lines assembles the fault is the list-assignment error |
| Machine.ExecuteFaultsExactly | simulator.py:62-111 | a handler raises exactly for an address out of its range, a read of the empty input, or a store to memory of an accumulator outside -128..255; the address error carries the handler's tag and the address, the empty read is the empty-deque error and the out-of-range store is Overflow |
| Machine.ExecuteJumps | simulator.py:62-81 | jump always goes to its operand, jzer when ac is 0, jpos when ac is positive, otherwise on to pc+1; nothing else changes |
| Machine.ExecuteEffects | simulator.py:83-111 | a successful non-jump handler advances pc by one; load, add and sub set ac as the source does; only load 30 consumes input (its front); only stor 31 appends ac to the output; only stor to 0..29 changes memory, and only that slot, which becomes MemoryLocation(decimal=ac) |
| Machine.StepKeepsWellFormed | app.py:35-48 | a step keeps 30 agreeing words and pc within 0..30 |
| Machine.StepProgressIffLive | app.py:35-48 | step() returns True exactly when the machine is still live afterwards |
| Machine.StepFailureKeepsRegisters | app.py:35-48 | a step that fails changes no register, memory or buffer; it leaves a stopped machine alone and otherwise stops it |
| Machine.StepOnHalt | app.py:39-41 | a word named halt only sets the halted flag |
| Machine.StepPastMemoryFaults | app.py:39-48 | a live machine with pc 30 records "list index out of range" |
| Machine.StepOnlyAppendsOutput | app.py:35-48 | one step only appends to the output and only consumes the input from its front |
| Machine.RunBounded | app.py:50-54 | a run keeps the state well formed, succeeds at most max_steps times, and stops short of the bound only on a halted or errored machine |
| Machine.RunOnlyAppendsOutput | app.py:50-54 | a run only appends to the output and only consumes the input from its front |
| Machine.RunWhenStopped | app.py:36-37 | a stopped machine runs no steps and stays as it is |
| Machine.EmptyMemory | simulator.py:43 | 30 slots, each what the decimal constructor builds from 0 |
| Machine.LoadLayout | app.py:17-33 | a load succeeds exactly when the program has at most 30 lines that all assemble; the state is then well formed and live, with pc and ac 0, the given input, an empty output, the program's symbol table, its words in order and zero words after them |
| Machine.LoadProgramOutcome | app.py:17-33 | the load's outcome is the assembler's outcome over 30 zero words: its fault, or the reset state over the assembled memory, and the loaded state is well formed |
| Scenarios.EchoProgramPrintsItsData | app.py:17-54 | the program "load 3 / write / halt / v" loads for every small v, and a run halts after two steps with v appended to the output |
| Scenarios.ProgramAPrintsSeven | test_app.py:7-12 | PROGRAM_A loads, and a full run halts with output [7] |
| Scenarios.ProgramBPrintsNine | test_app.py:14-19 | PROGRAM_B loads, and a full run halts with output [9] |
| Simulator.SteppableCpu.constructor | simulator.py:40-46 | registers 0, 30 zero words, empty buffers and table |
| Simulator.SteppableCpu.ExecuteJump | simulator.py:62-65 | the new state, or the unchanged state with the fault, is what Machine.Execute prescribes |
| Simulator.SteppableCpu.ExecuteJzer | simulator.py:67-73 | as for ExecuteJump |
| Simulator.SteppableCpu.ExecuteJpos | simulator.py:75-81 | as for ExecuteJump |
| Simulator.SteppableCpu.ExecuteLoad | simulator.py:83-90 | as for ExecuteJump |
| Simulator.SteppableCpu.ExecuteStor | simulator.py:92-99 | as for ExecuteJump |
| Simulator.SteppableCpu.ExecuteAdd | simulator.py:101-105 | as for ExecuteJump |
| Simulator.SteppableCpu.ExecuteSub | simulator.py:107-111 | as for ExecuteJump |
| Simulator.SteppableCpu.Dispatch | simulator.py:47-57 | every name but halt, aliases included, runs the handler of its decoded name |
| Simulator.SteppableCpu.InlineLabels | simulator.py:120-131 | the loop computes Assembler.Inlined |
| Simulator.SteppableCpu.FillSymbolTable | simulator.py:133-137 | the table is updated line by line as Assembler.SymbolsAfter says; nothing else changes |
| Simulator.SteppableCpu.AssembleInstruction | simulator.py:148-165 | memory and the fault are the instruction word stored at idx, with InstructionWordCases and InstructionWordOperand giving that word and StoreWord the store |
| Simulator.SteppableCpu.AssembleData | simulator.py:167-173 | memory and the fault are the data word stored at idx, with DataWordCases giving that word and StoreWord the store |
| Simulator.SteppableCpu.AssembleLine | simulator.py:176-186 | memory and the fault are the line's word stored at idx, with LineWordCases giving that word and StoreWord the store |
| Simulator.SteppableCpu.Assemble | simulator.py:175-186 | memory and the fault are Assembler.AssembleProgram over the old memory |
| Simulator.SteppableCpu.AssembleSource | app.py:27-32 | the table is the program's symbol table and memory is its assembly |
| Simulator.SteppableCpu.LoadProgram | app.py:17-33 | the registers, output, table and flags are reset; the input changes only on success; success and the new state, or the fault, agree with Machine.LoadProgram |
| Simulator.SteppableCpu.Step | app.py:35-48 | the new state and the result are Machine.Step of the old state |
| Simulator.SteppableCpu.RunAll | app.py:50-54 | the new state and the count are Machine.Run of the old state |
| Simulator.SteppableCpu.ToState | app.py:56-66 | a projection of the fields; memory keeps its 30 entries, each the word's decimal with its "name operand" rendering (which Codec.RenderReadsBack reads back); the error text is set exactly when a fault is recorded, and is then the fault's non-empty text |
| Sessions.SessionStore.Load | app.py:74-93 | a fault gives a 400 reply with the fault's text and an unchanged table; a success stores a fresh CPU holding the loaded state under the id; other sessions are untouched |
| Sessions.SessionStore.Install | app.py:86-93 | a CPU whose load raised is dropped, with a 400 reply carrying the fault's text; otherwise it is stored under the id, replacing only that entry, and its state is the 200 reply |
| Sessions.SessionStore.LoadFresh | app.py:86-90 | a fresh CPU whose load outcome agrees with Machine.LoadProgram |
| Sessions.SessionStore.Step | app.py:96-103 | an unknown id gives "No program loaded" with 400; otherwise that session's CPU takes one step; other sessions are unchanged |
| Sessions.SessionStore.Run | app.py:106-113 | an unknown id gives "No program loaded" with 400; otherwise that session's CPU runs for up to 10000 steps; other sessions are unchanged |
| Sessions.SessionStore.Reset | app.py:116-121 | the id is removed if present, and the reply is always the reset status |
| Sessions.ResetTwice | app.py:116-121 | resetting twice equals resetting once, with the same reply both times |
| Sessions.TwoUsers | app.py:74-113 | two users loaded under distinct ids each see the output of their own program's run |
| Scenarios.SessionsAreIsolated | test_app.py:31-50 | PROGRAM_A under "user-a" and PROGRAM_B under "user-b" run to outputs [7] and [9] |

## Left out

- HTTP, JSON and Flask are not modelled. The routes take the already decoded
  session id, code and input values. The `"default"` fallback for a request
  without a session field belongs to that decoding and is left out, as are
  the `index` route, `PORT` and `__main__`.
- The input-buffer conversion `[int(x) for x in input_buf if str(x).strip()]`
  (app.py:82-84) and its "Invalid input buffer" reply are not modelled. The
  model takes the converted integers.
- `CPU.run_program`, `get_state` and `simulator.py`'s `__main__` are not
  modelled. They read a file, print, and have an unbounded run loop; the
  web front end does not use them. The front passes they share
  (simulator.py:195-197) are modelled as `Assembler.Normalize`.
- `_execute_halt` is not modelled. The step routine never dispatches on
  halt, because it checks for halt first.
- `source_lines` (app.py:25) is not modelled; nothing in the core reads it.
- Concurrent requests on the module-level dictionary are not modelled.
- Memory is a sequence field that methods reassign. Python's list of
  `MemoryLocation` objects is never shared between CPUs, so aliasing plays
  no part.
- The `type(data) is not int` guards cannot fail: operands are always
  integers after assembly.
- The error field holds the fault. `Faults.Message` gives the text Python
  stores with `str(e)`.
- `Text.Lower` lowers ASCII letters only. Python's `str.lower` also lowers
  other letters.
- `Text.ParseInt` accepts an optional sign and digits only. Python's `int()`
  also accepts underscores, a `0b` prefix with base 2, surrounding
  whitespace and non-ASCII digits.
- `Text.ParseInt` has no digit limit. Python 3.11 and later refuse to convert
  a decimal string of more than 4300 digits, so there such an operand is an
  "Invalid operand" and such a data value an "Invalid data value", while
  the model accepts the operand and reads its value. `str()` of such a huge
  operand would then also raise in `to_state`, which the model's rendering
  does not do. Base-2 operands have no such limit in Python.
- `Text.SplitLines` differs from `str.splitlines` in three ways: it splits
  "\r\n" into two boundaries and so yields an extra empty line, it yields
  `[""]` for the empty text where Python yields `[]`, and a text that ends
  in a line break gets an extra trailing `""`. The front passes drop empty
  lines, so the program is the same.
- `np.binary_repr(d, width=8)` is modelled arithmetically as the value's
  8-bit pattern (`Codec.Pattern`). Its "Overflow!" case, for values outside
  -128..255, is kept with the NumPy 1.x behaviour, where `binary_repr`
  returns a longer string and simulator.py:27-28 raises "Overflow!". Newer
  NumPy releases may raise their own ValueError from `binary_repr` instead,
  so a store of an out-of-range accumulator would record that text; the
  assembler reports "Invalid data value" either way.
- Simulator.SteppableCpu.constructor: sets `halted` and `error`, which
  Python's `SteppableCPU` only gains in `load_program`. The routes never
  step a CPU that has not loaded a program.
- Simulator.SteppableCpu.InlineLabels: requires non-empty lines. The source
  indexes `line[-1]`, and its only caller passes lines the front passes
  have made non-empty.
