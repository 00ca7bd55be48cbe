/**
 * Whole programs through load and run: the program that loads the data word
 * at address 3, writes it and halts ends halted with that value as its only
 * output, and two such programs loaded under two session ids each print
 * their own value.
 */
module Scenarios {
  import opened Wrappers
  import opened Text
  import opened Codec
  import opened Assembler
  import opened Machine
  import Sessions

  /** A line followed by a newline, then the rest of the text. */
  function Line(line: string, rest: string): string {
    line + "\n" + rest
  }

  /** The source text of a four-line program, one line per row, with a leading and a trailing newline. */
  function FourLineSource(a: string, b: string, c: string, d: string): string {
    Line("", Line(a, Line(b, Line(c, Line(d, "")))))
  }

  /** A line followed by a newline is split off as the first piece. */
  lemma LineSplit(line: string, rest: string)
    requires NoLineBreak(line)
    ensures SplitLines(Line(line, rest)) == [line] + SplitLines(rest)
  {
    assert Line(line, rest) == line + ['\n'] + rest;
    SplitLinesCons(line, '\n', rest);
  }

  lemma TwoLinesSplit(c: string, d: string)
    requires NoLineBreak(c) && NoLineBreak(d)
    ensures SplitLines(Line(c, Line(d, ""))) == [c, d, ""]
  {
    SplitLinesSingle("");
    LineSplit(d, "");
    LineSplit(c, Line(d, ""));
  }

  lemma FourLinesSplit(a: string, b: string, c: string, d: string)
    requires NoLineBreak(a) && NoLineBreak(b) && NoLineBreak(c) && NoLineBreak(d)
    ensures SplitLines(FourLineSource(a, b, c, d)) == ["", a, b, c, d, ""]
  {
    var t2 := Line(b, Line(c, Line(d, "")));
    TwoLinesSplit(c, d);
    LineSplit(b, Line(c, Line(d, "")));
    LineSplit(a, t2);
    LineSplit("", Line(a, t2));
  }

  lemma LeadingEmptyDropped(lines: seq<string>)
    ensures CleanLines([""] + lines) == CleanLines(lines)
  {
    CleanLineOfClean("");
    assert ([""] + lines)[1..] == lines;
  }

  lemma TrailingEmptyDropped(lines: seq<string>)
    ensures CleanLines(lines + [""]) == CleanLines(lines)
  {
    CleanLinesDropEmpty(lines, []);
    assert lines + [""] + [] == lines + [""];
    assert lines + [] == lines;
  }

  lemma FourLinesClean(a: string, b: string, c: string, d: string)
    requires IsCleanLine(a) && IsCleanLine(b) && IsCleanLine(c) && IsCleanLine(d)
    ensures CleanLines(["", a, b, c, d, ""]) == [a, b, c, d]
  {
    hide CleanLines;
    var four := [a, b, c, d];
    assert ["", a, b, c, d, ""] == [""] + (four + [""]);
    LeadingEmptyDropped(four + [""]);
    TrailingEmptyDropped(four);
    CleanLinesOfClean(four);
  }

  lemma FourLinesNormalize(a: string, b: string, c: string, d: string)
    requires NoLineBreak(a) && NoLineBreak(b) && NoLineBreak(c) && NoLineBreak(d)
    requires IsCleanLine(a) && IsCleanLine(b) && IsCleanLine(c) && IsCleanLine(d)
    ensures Normalize(FourLineSource(a, b, c, d)) == [a, b, c, d]
  {
    FourLinesSplit(a, b, c, d);
    FourLinesClean(a, b, c, d);
  }

  /** A line without ':' defines no label and is tokenised whole. */
  lemma NoColonLine(line: string)
    requires ':' !in line
    ensures !HasLabel(line) && AfterLabel(line) == line
  {
    SplitJoin(line, ':');
  }

  /** A program none of whose lines contains ':' has an empty symbol table. */
  lemma NoLabelsNoSymbols(program: seq<string>)
    requires forall i :: 0 <= i < |program| ==> ':' !in program[i]
    ensures SymbolTable(program) == map[]
  {
    SymbolTableLastWins(program);
    forall i | 0 <= i < |program|
      ensures !HasLabel(program[i])
    {
      NoColonLine(program[i]);
    }
    assert forall k :: k !in SymbolTable(program);
  }

  /** A decimal numeral is a clean line without ':' or line boundaries. */
  lemma NumeralIsCleanLine(v: int)
    ensures NoLineBreak(IntToString(v)) && IsCleanLine(IntToString(v)) && ':' !in IntToString(v)
  {
    var t := IntToString(v);
    forall i | 0 <= i < |t|
      ensures !IsLineBreak(t[i]) && !IsSpace(t[i]) && !IsUpper(t[i]) && t[i] != '#' && t[i] != ':'
    {
      assert t[i] == '-' || IsDigitIn(t[i], 10);
    }
  }

  /** A decimal numeral names no instruction. */
  lemma NumeralIsNoMnemonic(v: int)
    ensures ParseMnemonic(IntToString(v)).None?
  {
    var t := IntToString(v);
    assert t[0] == '-' || IsDigitIn(t[0], 10);
  }

  /** The data line of the decimal numeral of v assembles to the word of v. */
  lemma DataLine(v: int, index: int, symbols: map<string, int>)
    requires -128 <= v <= 255
    ensures LineTokens(IntToString(v)) == [IntToString(v)]
    ensures LineWord(index, IntToString(v), symbols) == FromDecimal(v)
  {
    var t := IntToString(v);
    NumeralIsCleanLine(v);
    NoColonLine(t);
    SplitWsJoin([t]);
    DecimalRoundTrip(v);
    NumeralIsNoMnemonic(v);
  }

  lemma LoadThreeTokens(line: string)
    requires line == "load 3"
    ensures LineTokens(line) == ["load", "3"]
  {
    NoColonLine(line);
    assert JoinWith(["load", "3"], " ") == line;
    SplitWsJoin(["load", "3"]);
  }

  lemma OneWordTokens(line: string)
    requires line != [] && NoSpace(line) && ':' !in line
    ensures LineTokens(line) == [line]
  {
    NoColonLine(line);
    SplitWsJoin([line]);
  }

  /** "3" is no binary numeral, so it is read as the decimal 3. */
  lemma OperandThree(symbols: map<string, int>, index: int)
    requires "3" !in symbols
    ensures ResolveOperand("3", symbols, index) == Ok(3)
  {
    assert !IsDigitIn('3', 2);
    assert "3"[..0] == "";
    assert DigitsValue("3", 10) == 3;
  }

  lemma LoadThreeWord(line: string, symbols: map<string, int>)
    requires line == "load 3" && symbols == map[]
    ensures LineWord(0, line, symbols) == Ok(Word(Load, 3, -125))
  {
    LoadThreeTokens(line);
    OperandThree(symbols, 0);
  }

  lemma WriteWord(line: string, symbols: map<string, int>)
    requires line == "write" && symbols == map[]
    ensures LineWord(1, line, symbols) == Ok(Word(Stor, 31, -65))
  {
    hide LineWord, InstructionWord;
    OneWordTokens(line);
    LineWordCases(1, line, symbols);
    WriteInstruction(1, line, [line], symbols);
  }

  lemma HaltWord(line: string, symbols: map<string, int>)
    requires line == "halt" && symbols == map[]
    ensures LineWord(2, line, symbols) == Ok(Word(Halt, 0, 0))
  {
    OneWordTokens(line);
    HaltInstruction(2, line, [line], symbols);
  }

  /** The source of the echo program for a data value v. */
  function EchoSource(v: int): string {
    FourLineSource("load 3", "write", "halt", IntToString(v))
  }

  lemma InstructionLinesClean(a: string, b: string, c: string)
    requires a == "load 3" && b == "write" && c == "halt"
    ensures IsCleanLine(a) && IsCleanLine(b) && IsCleanLine(c)
    ensures NoLineBreak(a) && NoLineBreak(b) && NoLineBreak(c)
  {
  }

  /** The program lines of the echo source: its four lines, unchanged. */
  lemma EchoLines(a: string, b: string, c: string, v: int)
    requires a == "load 3" && b == "write" && c == "halt"
    requires -128 <= v <= 255
    ensures Program(FourLineSource(a, b, c, IntToString(v))) == [a, b, c, IntToString(v)]
  {
    var program := [a, b, c, IntToString(v)];
    NumeralIsCleanLine(v);
    InstructionLinesClean(a, b, c);
    FourLinesNormalize(a, b, c, IntToString(v));
    assert forall i :: 0 <= i < 3 ==> !EndsWithColon(program[i]);
    InlinedWithoutLabelLines(program);
  }

  lemma EchoSymbols(a: string, b: string, c: string, v: int)
    requires a == "load 3" && b == "write" && c == "halt"
    ensures SymbolTable([a, b, c, IntToString(v)]) == map[]
  {
    var program := [a, b, c, IntToString(v)];
    NumeralIsCleanLine(v);
    assert ':' !in a && ':' !in b && ':' !in c;
    NoLabelsNoSymbols(program);
  }

  /** The echo program lines assemble to load 3, stor 31, halt 0 and the data word v. */
  lemma EchoWords(a: string, b: string, c: string, v: int)
    requires a == "load 3" && b == "write" && c == "halt"
    requires -128 <= v <= 255
    ensures var program := [a, b, c, IntToString(v)];
      SymbolTable(program) == map[] &&
      LineResults(program, SymbolTable(program)) == [Ok(Word(Load, 3, -125)), Ok(Word(Stor, 31, -65)), Ok(Word(Halt, 0, 0)), FromDecimal(v)]
  {
    hide LineWord;
    var program := [a, b, c, IntToString(v)];
    EchoSymbols(a, b, c, v);
    var results := LineResults(program, map[]);
    LoadThreeWord(a, map[]);
    WriteWord(b, map[]);
    HaltWord(c, map[]);
    DataLine(v, 3, map[]);
    assert results[0] == Ok(Word(Load, 3, -125));
    assert results[1] == Ok(Word(Stor, 31, -65));
    assert results[2] == Ok(Word(Halt, 0, 0));
    assert results[3] == FromDecimal(v);
  }

  /**
   * A live machine at pc 0 whose first three words are load 3, stor 31 and
   * halt makes two successful steps and halts, with the word at address 3
   * appended to its output.
   */
  lemma EchoRun(s: MachineState)
    requires WellFormed(s) && !Stopped(s) && s.pc == 0
    requires s.memory[..3] == [Word(Load, 3, -125), Word(Stor, 31, -65), Word(Halt, 0, 0)]
    ensures var (t, steps) := Run(s, MAX_STEPS);
      && t.halted && t.error.None? && steps == 2 && t.pc == 2
      && t.ac == s.memory[3].decimal && t.output == s.output + [s.memory[3].decimal]
  {
    assert s.memory[0] == Word(Load, 3, -125) && s.memory[1] == Word(Stor, 31, -65) && s.memory[2] == Word(Halt, 0, 0);
    var v := s.memory[3].decimal;
    var s1 := s.(ac := v, pc := 1);
    assert Step(s) == (s1, true);
    var s2 := s1.(output := s.output + [v], pc := 2);
    assert Step(s1) == (s2, true);
    assert Step(s2) == (s2.(halted := true), false);
    assert Run(s2, MAX_STEPS - 2) == (s2.(halted := true), 0);
    assert Run(s1, MAX_STEPS - 1) == (s2.(halted := true), 1);
  }

  /**
   * Loading "load 3 / write / halt / v" for a v in codec range succeeds and
   * lays out load 3, stor 31, halt 0 and the data word v; a full run takes
   * two successful steps and ends halted, with no error, with [v] as the
   * output and v in the accumulator.
   */
  lemma EchoProgramPrintsItsData(v: int, inputValues: seq<int>)
    requires -128 <= v <= 255
    ensures LoadProgram(EchoSource(v), inputValues).Ok?
    ensures WellFormed(LoadProgram(EchoSource(v), inputValues).value)
    ensures var s := LoadProgram(EchoSource(v), inputValues).value;
      && s.memory[..4] == [Word(Load, 3, -125), Word(Stor, 31, -65), Word(Halt, 0, 0), FromDecimal(v).value]
      && var (t, steps) := Run(s, MAX_STEPS);
         t.halted && t.error.None? && t.output == [v] && t.ac == v && t.pc == 2 && steps == 2
  {
    EchoLoaded("load 3", "write", "halt", v, inputValues);
    EchoRun(LoadProgram(EchoSource(v), inputValues).value);
  }

  /** Loading the echo source gives a live machine at pc 0 holding the four words. */
  lemma EchoLoaded(a: string, b: string, c: string, v: int, inputValues: seq<int>)
    requires a == "load 3" && b == "write" && c == "halt"
    requires -128 <= v <= 255
    ensures LoadProgram(FourLineSource(a, b, c, IntToString(v)), inputValues).Ok?
    ensures var s := LoadProgram(FourLineSource(a, b, c, IntToString(v)), inputValues).value;
      && WellFormed(s) && !Stopped(s) && s.pc == 0 && s.output == []
      && s.memory[..4] == [Word(Load, 3, -125), Word(Stor, 31, -65), Word(Halt, 0, 0), FromDecimal(v).value]
      && s.memory[..3] == [Word(Load, 3, -125), Word(Stor, 31, -65), Word(Halt, 0, 0)]
      && s.memory[3].decimal == v
  {
    hide Program, LoadLines;
    EchoLines(a, b, c, v);
    EchoLoad(a, b, c, v, inputValues);
    var s := LoadProgram(FourLineSource(a, b, c, IntToString(v)), inputValues).value;
    assert s.memory[..3] == s.memory[..4][..3];
    assert s.memory[3] == s.memory[..4][3];
  }

  /** A program whose lines all assemble loads as a live machine at pc 0 holding their words in order. */
  lemma LoadOfWords(program: seq<string>, inputValues: seq<int>, words: seq<Word>)
    requires |program| == |words| <= MEMORY_SIZE
    requires forall i :: 0 <= i < |program| ==> LineResults(program, SymbolTable(program))[i] == Ok(words[i])
    ensures LoadLines(program, inputValues).Ok?
    ensures var s := LoadLines(program, inputValues).value;
      && WellFormed(s) && !Stopped(s) && s.pc == 0 && s.output == [] && s.memory[..|words|] == words
  {
    LoadLayout(program, inputValues);
  }

  /** Loading the echo program lines gives a live machine at pc 0 holding the four words. */
  lemma EchoLoad(a: string, b: string, c: string, v: int, inputValues: seq<int>)
    requires a == "load 3" && b == "write" && c == "halt"
    requires -128 <= v <= 255
    ensures var program := [a, b, c, IntToString(v)];
      && LoadLines(program, inputValues).Ok?
      && var s := LoadLines(program, inputValues).value;
      && WellFormed(s) && !Stopped(s) && s.pc == 0 && s.output == []
      && s.memory[..4] == [Word(Load, 3, -125), Word(Stor, 31, -65), Word(Halt, 0, 0), FromDecimal(v).value]
  {
    hide LoadLines, LineResults, SymbolTable;
    var program := [a, b, c, IntToString(v)];
    var words := [Word(Load, 3, -125), Word(Stor, 31, -65), Word(Halt, 0, 0), FromDecimal(v).value];
    EchoWords(a, b, c, v);
    LoadOfWords(program, inputValues, words);
  }

  /** The two programs of the session-isolation tests. */
  const PROGRAM_A := "\nload 3\nwrite\nhalt\n7\n"
  const PROGRAM_B := "\nload 3\nwrite\nhalt\n9\n"

  lemma ProgramAIsEchoSeven()
    ensures EchoSource(7) == PROGRAM_A
  {
    assert IntToString(7) == "7";
  }

  /** PROGRAM_A loads, and a full run ends halted with output [7]. */
  lemma ProgramAPrintsSeven()
    ensures LoadProgram(PROGRAM_A, []).Ok?
    ensures WellFormed(LoadProgram(PROGRAM_A, []).value)
    ensures Run(LoadProgram(PROGRAM_A, []).value, MAX_STEPS).0.halted
    ensures Run(LoadProgram(PROGRAM_A, []).value, MAX_STEPS).0.output == [7]
  {
    hide *;
    ProgramAIsEchoSeven();
    EchoProgramPrintsItsData(7, []);
  }

  lemma ProgramBIsEchoNine()
    ensures EchoSource(9) == PROGRAM_B
  {
    assert IntToString(9) == "9";
  }

  /** PROGRAM_B loads, and a full run ends halted with output [9]. */
  lemma ProgramBPrintsNine()
    ensures LoadProgram(PROGRAM_B, []).Ok?
    ensures WellFormed(LoadProgram(PROGRAM_B, []).value)
    ensures Run(LoadProgram(PROGRAM_B, []).value, MAX_STEPS).0.halted
    ensures Run(LoadProgram(PROGRAM_B, []).value, MAX_STEPS).0.output == [9]
  {
    hide *;
    ProgramBIsEchoNine();
    EchoProgramPrintsItsData(9, []);
  }

  /** The two test programs under "user-a" and "user-b" print [7] and [9] respectively. */
  method SessionsAreIsolated() returns (replyA: Sessions.Reply, replyB: Sessions.Reply)
    ensures replyA.status == Sessions.OK_STATUS && replyB.status == Sessions.OK_STATUS
    ensures replyA.body.View? && replyA.body.view.output == [7]
    ensures replyB.body.View? && replyB.body.view.output == [9]
  {
    ProgramAPrintsSeven();
    ProgramBPrintsNine();
    replyA, replyB := Sessions.TwoUsers("user-a", PROGRAM_A, "user-b", PROGRAM_B);
  }
}
