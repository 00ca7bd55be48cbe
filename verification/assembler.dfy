/**
 * The two-pass HYMN assembler as functions: line normalisation, label
 * inlining, the symbol table, pseudo-op expansion, operand resolution and
 * the word each line assembles to. The CPU methods that run these passes
 * in place are in module Simulator and are proved against these functions.
 */
module Assembler {
  import opened Wrappers
  import opened Text
  import opened Faults
  import opened Codec

  const MEMORY_SIZE := 30

  /** CPU._strip_comment: the text before the first '#'. */
  function StripComment(line: string): (r: string)
    ensures '#' !in r
    ensures r <= line
    ensures |r| < |line| ==> line[|r|] == '#'
  {
    if line == [] then []
    else if line[0] == '#' then []
    else [line[0]] + StripComment(line[1..])
  }

  /** A line the front passes keep: not empty, no comment, lower-case, trimmed. */
  predicate IsCleanLine(line: string) {
    line != [] && '#' !in line && IsLowerCase(line) && IsTrimmed(line)
  }

  function CleanLine(line: string): (r: string)
    ensures r != [] ==> IsCleanLine(r)
  {
    var lowered := Lower(StripComment(line));
    assert '#' !in lowered;
    Strip(lowered)
  }

  /** The two list comprehensions that clean the source lines and drop the empty ones. */
  function CleanLines(lines: seq<string>): (program: seq<string>)
    ensures |program| <= |lines|
  {
    if lines == [] then []
    else
      var line := CleanLine(lines[0]);
      var rest := CleanLines(lines[1..]);
      if line == [] then rest else [line] + rest
  }

  lemma {:induction false} CleanLinesAreClean(lines: seq<string>)
    ensures forall i :: 0 <= i < |CleanLines(lines)| ==> IsCleanLine(CleanLines(lines)[i])
  {
    if lines != [] {
      CleanLinesAreClean(lines[1..]);
      var line := CleanLine(lines[0]);
      var rest := CleanLines(lines[1..]);
      if line != [] {
        assert CleanLines(lines) == [line] + rest;
        forall i | 0 <= i < |CleanLines(lines)|
          ensures IsCleanLine(CleanLines(lines)[i])
        {
          if i > 0 {
            assert CleanLines(lines)[i] == rest[i - 1];
          }
        }
      }
    }
  }


  /** The front passes leave a clean line (and the empty line) as it is. */
  lemma CleanLineOfClean(line: string)
    requires line == [] || IsCleanLine(line)
    ensures CleanLine(line) == line
  {
    assert StripComment(line) == line;
    LowerOfLowerCase(line);
  }

  lemma {:induction false} CleanLinesOfClean(lines: seq<string>)
    requires forall i :: 0 <= i < |lines| ==> IsCleanLine(lines[i])
    ensures CleanLines(lines) == lines
  {
    if lines != [] {
      CleanLinesOfClean(lines[1..]);
      CleanLineOfClean(lines[0]);
      assert [lines[0]] + lines[1..] == lines;
    }
  }

  /** Empty lines are dropped wherever they are. */
  lemma {:induction false} CleanLinesDropEmpty(before: seq<string>, after: seq<string>)
    ensures CleanLines(before + [""] + after) == CleanLines(before + after)
  {
    CleanLineOfClean("");
    if before != [] {
      assert (before + [""] + after)[1..] == before[1..] + [""] + after;
      assert (before + after)[1..] == before[1..] + after;
      CleanLinesDropEmpty(before[1..], after);
    } else {
      assert before + [""] + after == [""] + after;
      assert ([""] + after)[1..] == after;
      assert before + after == after;
    }
  }

  /** The program lines of a source text, before label inlining (simulator.py:195-197). */
  function Normalize(code: string): seq<string> {
    CleanLines(SplitLines(code))
  }

  /**
   * Every line that survives the front passes is non-empty, holds no comment,
   * is lower-case and carries no surrounding whitespace.
   */
  lemma NormalizedLinesAreClean(code: string)
    ensures forall i :: 0 <= i < |Normalize(code)| ==> IsCleanLine(Normalize(code)[i])
  {
    CleanLinesAreClean(SplitLines(code));
  }

  predicate EndsWithColon(line: string) {
    line != [] && line[|line| - 1] == ':'
  }

  /**
   * _inline_labels: a line ending in ':' that has a successor is merged with
   * it into one line. Each output line consumes one or two input lines.
   */
  function Inlined(program: seq<string>): (r: seq<string>)
    ensures |r| <= |program| <= 2 * |r|
    ensures (forall i :: 0 <= i < |program| ==> program[i] != []) ==> forall i :: 0 <= i < |r| ==> r[i] != []
    decreases |program|
  {
    if program == [] then []
    else if EndsWithColon(program[0]) && |program| >= 2 then
      [program[0] + " " + program[1]] + Inlined(program[2..])
    else [program[0]] + Inlined(program[1..])
  }

  /** One step of Inlined from line i on: a label-only line with a successor takes both. */
  lemma InlinedAt(program: seq<string>, i: nat)
    requires i < |program| && program[i] != []
    ensures EndsWithColon(program[i]) && i + 1 < |program| ==>
      Inlined(program[i..]) == [program[i] + " " + program[i + 1]] + Inlined(program[i + 2..])
    ensures !(EndsWithColon(program[i]) && i + 1 < |program|) ==>
      Inlined(program[i..]) == [program[i]] + Inlined(program[i + 1..])
  {
    var rest := program[i..];
    assert rest[0] == program[i];
    if EndsWithColon(program[i]) && i + 1 < |program| {
      assert rest[1] == program[i + 1] && rest[2..] == program[i + 2..];
    } else {
      assert rest[1..] == program[i + 1..];
    }
  }

  /** A program with no label-only line (the last line aside) is left as it is. */
  lemma {:induction false} InlinedWithoutLabelLines(program: seq<string>)
    requires forall i :: 0 <= i < |program| - 1 ==> !EndsWithColon(program[i])
    ensures Inlined(program) == program
    decreases |program|
  {
    if program != [] {
      InlinedWithoutLabelLines(program[1..]);
      assert [program[0]] + program[1..] == program;
    }
  }

  /** A line defines a label when it contains ':' (line.split(':') has more than one piece). */
  predicate HasLabel(line: string) {
    |Split(line, ':')| > 1
  }

  /** The label a line defines: the text before its first ':', stripped. */
  function Label(line: string): string {
    Strip(Split(line, ':')[0])
  }

  /** The label each line defines, if any. */
  function LineLabels(program: seq<string>): (labels: seq<Option<string>>)
    ensures |labels| == |program|
  {
    seq(|program|, i requires 0 <= i < |program| => if HasLabel(program[i]) then Some(Label(program[i])) else None)
  }

  /**
   * A line defines a label exactly when it contains ':'; the label is the
   * text before the first ':' (a proper prefix without ':' that the ':'
   * follows), stripped.
   */
  lemma LabelsOfLines(program: seq<string>)
    ensures forall i :: 0 <= i < |program| ==> (LineLabels(program)[i].Some? <==> ':' in program[i])
    ensures forall i :: 0 <= i < |program| && LineLabels(program)[i].Some? ==>
      var before := Split(program[i], ':')[0];
      && |before| < |program[i]| && before == program[i][..|before|] && ':' !in before
      && program[i][|before|] == ':' && LineLabels(program)[i].value == Strip(before)
  {
  }

  /** The table after _fill_symbol_table has visited the first n lines. */
  function SymbolsAfter(table: map<string, int>, labels: seq<Option<string>>, n: nat): map<string, int>
    requires n <= |labels|
  {
    if n == 0 then table
    else
      var t := SymbolsAfter(table, labels, n - 1);
      if labels[n - 1].Some? then t[labels[n - 1].value := n - 1] else t
  }

  function SymbolTable(program: seq<string>): map<string, int> {
    SymbolsAfter(map[], LineLabels(program), |program|)
  }

  /** Every label maps to a line that defines it. */
  ghost predicate LabelsPointHome(table: map<string, int>, labels: seq<Option<string>>, n: nat)
    requires n <= |labels|
  {
    forall k :: k in table ==> 0 <= table[k] < n && labels[table[k]] == Some(k)
  }

  /** Every line that defines a label is covered, by itself or by a later line with the same label. */
  ghost predicate LabelsLastWin(table: map<string, int>, labels: seq<Option<string>>, n: nat)
    requires n <= |labels|
  {
    forall i :: 0 <= i < n && labels[i].Some? ==> labels[i].value in table && i <= table[labels[i].value]
  }

  lemma {:induction false} SymbolsAfterLastWins(labels: seq<Option<string>>, n: nat)
    requires n <= |labels|
    ensures LabelsPointHome(SymbolsAfter(map[], labels, n), labels, n)
    ensures LabelsLastWin(SymbolsAfter(map[], labels, n), labels, n)
  {
    if n > 0 {
      SymbolsAfterLastWins(labels, n - 1);
    }
  }

  /**
   * The symbol table maps exactly the labels the program defines, each to the
   * index of the last line that defines it.
   */
  lemma SymbolTableLastWins(program: seq<string>)
    ensures forall k :: k in SymbolTable(program) ==>
      var i := SymbolTable(program)[k]; 0 <= i < |program| && HasLabel(program[i]) && Label(program[i]) == k
    ensures forall i :: 0 <= i < |program| && HasLabel(program[i]) ==>
      Label(program[i]) in SymbolTable(program) && i <= SymbolTable(program)[Label(program[i])]
  {
    var labels := LineLabels(program);
    SymbolsAfterLastWins(labels, |program|);
    var t := SymbolTable(program);
    forall k | k in t
      ensures 0 <= t[k] < |program| && HasLabel(program[t[k]]) && Label(program[t[k]]) == k
    {
      assert labels[t[k]] == Some(k);
    }
    forall i | 0 <= i < |program| && HasLabel(program[i])
      ensures Label(program[i]) in t && i <= t[Label(program[i])]
    {
      assert labels[i] == Some(Label(program[i]));
    }
  }

  /** _expand_pseudo_ops: read, write and halt get a fixed binary operand; any operand given is dropped. */
  function ExpandPseudoOps(tokens: seq<string>): seq<string>
    requires |tokens| >= 1
  {
    if tokens[0] == "read" then ["load", "11110"]
    else if tokens[0] == "write" then ["stor", "11111"]
    else if tokens[0] == "halt" then ["halt", "00000"]
    else tokens
  }

  /** An operand token is a label, else a base-2 integer, else a decimal integer. */
  function ResolveOperand(data: string, symbols: map<string, int>, index: int): (r: Result<int, Fault>)
    ensures data in symbols ==> r == Ok(symbols[data])
    ensures data !in symbols && ParseInt(data, 2).Some? ==> r == Ok(ParseInt(data, 2).value)
    ensures data !in symbols && ParseInt(data, 2).None? && ParseInt(data, 10).Some? ==> r == Ok(ParseInt(data, 10).value)
    ensures r.Err? <==> data !in symbols && ParseInt(data, 2).None? && ParseInt(data, 10).None?
    ensures r.Err? ==> r.error == InvalidOperand(data, index)
  {
    if data in symbols then Ok(symbols[data])
    else match ParseInt(data, 2)
      case Some(v) => Ok(v)
      case None =>
        match ParseInt(data, 10)
        case Some(v) => Ok(v)
        case None => Err(InvalidOperand(data, index))
  }

  /** The base-2 reading comes first: the token "10" is the operand 2, not 10. */
  lemma OperandTenIsTwo()
    ensures ResolveOperand("10", map[], 0) == Ok(2)
  {
    assert AllDigitsIn("10", 2);
    assert "10"[..1] == "1" && "1"[..0] == "";
    assert DigitsValue("1", 2) == 1;
    assert DigitsValue("10", 2) == 2;
  }

  /** The word an instruction line assembles to (_assemble_instruction before its memory write). */
  function InstructionWord(index: int, line: string, tokens: seq<string>, symbols: map<string, int>): Result<Word, Fault>
    requires |tokens| >= 1 && ParseMnemonic(tokens[0]).Some?
  {
    if |tokens| > 2 then Err(InvalidInstruction(line))
    else
      var expanded := ExpandPseudoOps(tokens);
      if |expanded| < 2 then Err(IndexOutOfRange)
      else
        match ResolveOperand(expanded[1], symbols, index)
        case Err(e) => Err(e)
        case Ok(operand) => Ok(FromInstruction(ParseMnemonic(expanded[0]).value, operand))
  }

  /** The word a data line assembles to (_assemble_data before its memory write). */
  function DataWord(index: int, line: string, tokens: seq<string>): Result<Word, Fault> {
    if |tokens| != 1 then Err(IllegalLine(index, line))
    else
      match ParseInt(tokens[0], 10)
      case None => Err(InvalidDataValue(tokens[0]))
      case Some(v) =>
        match FromDecimal(v)
        case Err(_) => Err(InvalidDataValue(tokens[0]))
        case Ok(w) => Ok(w)
  }

  /** The text of a line after its label: the pieces after the first ':' joined with spaces. */
  function AfterLabel(line: string): string {
    var parts := Split(line, ':');
    if |parts| > 1 then JoinWith(parts[1..], " ") else parts[0]
  }

  function LineTokens(line: string): seq<string> {
    SplitWs(AfterLabel(line))
  }

  /** The word a program line assembles to, or the fault that line raises. */
  function LineWord(index: int, line: string, symbols: map<string, int>): Result<Word, Fault> {
    var tokens := LineTokens(line);
    if tokens == [] then Err(IndexOutOfRange)
    else if ParseMnemonic(tokens[0]).None? then DataWord(index, line, tokens)
    else InstructionWord(index, line, tokens, symbols)
  }

  /** Every word a line assembles to has agreeing views, and a data word is in codec range. */
  lemma LineWordAgrees(index: int, line: string, symbols: map<string, int>)
    requires LineWord(index, line, symbols).Ok?
    ensures Agrees(LineWord(index, line, symbols).value)
    ensures ParseMnemonic(LineTokens(line)[0]).None? ==> -128 <= LineWord(index, line, symbols).value.decimal <= 255
  {
  }

  /** "11110" read in base 2 is the input port 30, the operand read expands to. */
  lemma ReadPortToken()
    ensures ParseInt("11110", 2) == Some(30)
  {
    assert AllDigitsIn("11110", 2);
    assert "11110"[..4] == "1111" && "1111"[..3] == "111" && "111"[..2] == "11" && "11"[..1] == "1" && "1"[..0] == "";
    assert DigitsValue("11110", 2) == 30;
  }

  /** "11111" read in base 2 is the output port 31, the operand write expands to. */
  lemma WritePortToken()
    ensures ParseInt("11111", 2) == Some(31)
  {
    assert AllDigitsIn("11111", 2);
    assert "11111"[..4] == "1111" && "1111"[..3] == "111" && "111"[..2] == "11" && "11"[..1] == "1" && "1"[..0] == "";
    assert DigitsValue("11111", 2) == 31;
  }

  /** "00000" read in base 2 is 0, the operand halt expands to. */
  lemma HaltToken()
    ensures ParseInt("00000", 2) == Some(0)
  {
    assert AllDigitsIn("00000", 2);
    assert "00000"[..4] == "0000" && "0000"[..3] == "000" && "000"[..2] == "00" && "00"[..1] == "0" && "0"[..0] == "";
    assert DigitsValue("00000", 2) == 0;
  }

  /**
   * _expand_pseudo_ops: read, write and halt become two tokens naming an
   * instruction with the same opcode (load, stor, halt), whose binary operand
   * is the input port 30, the output port 31 and 0; any operand given is
   * dropped. Every other token list is kept as it is.
   */
  lemma PseudoOpsExpand(tokens: seq<string>)
    requires |tokens| >= 1
    ensures var e := ExpandPseudoOps(tokens);
      && (tokens[0] == "read" ==>
            |e| == 2 && ParseMnemonic(e[0]) == Some(Load) && OpcodeOf(Load) == OpcodeOf(Read) && ParseInt(e[1], 2) == Some(30))
      && (tokens[0] == "write" ==>
            |e| == 2 && ParseMnemonic(e[0]) == Some(Stor) && OpcodeOf(Stor) == OpcodeOf(Write) && ParseInt(e[1], 2) == Some(31))
      && (tokens[0] == "halt" ==> |e| == 2 && ParseMnemonic(e[0]) == Some(Halt) && ParseInt(e[1], 2) == Some(0))
      && (tokens[0] != "read" && tokens[0] != "write" && tokens[0] != "halt" ==> e == tokens)
  {
    ReadPortToken();
    WritePortToken();
    HaltToken();
  }

  /** The operand a pseudo-op's binary token resolves to: a label of that name, else the fixed value. */
  function PortOperand(token: string, fixed: int, symbols: map<string, int>): int {
    if token in symbols then symbols[token] else fixed
  }

  /** read, with or without an operand: load from the input port 30. */
  lemma ReadInstruction(index: int, line: string, tokens: seq<string>, symbols: map<string, int>)
    requires 1 <= |tokens| <= 2 && tokens[0] == "read"
    ensures InstructionWord(index, line, tokens, symbols) == Ok(FromInstruction(Load, PortOperand("11110", 30, symbols)))
  {
    ReadPortToken();
    assert ExpandPseudoOps(tokens) == ["load", "11110"];
  }

  /** write, with or without an operand: store to the output port 31. */
  lemma WriteInstruction(index: int, line: string, tokens: seq<string>, symbols: map<string, int>)
    requires 1 <= |tokens| <= 2 && tokens[0] == "write"
    ensures InstructionWord(index, line, tokens, symbols) == Ok(FromInstruction(Stor, PortOperand("11111", 31, symbols)))
  {
    WritePortToken();
    assert ExpandPseudoOps(tokens) == ["stor", "11111"];
  }

  /** halt, with or without an operand: halt 0. */
  lemma HaltInstruction(index: int, line: string, tokens: seq<string>, symbols: map<string, int>)
    requires 1 <= |tokens| <= 2 && tokens[0] == "halt"
    ensures InstructionWord(index, line, tokens, symbols) == Ok(FromInstruction(Halt, PortOperand("00000", 0, symbols)))
  {
    HaltToken();
    assert ExpandPseudoOps(tokens) == ["halt", "00000"];
  }

  /**
   * _assemble_instruction: more than two tokens is an invalid instruction;
   * read, write and halt assemble to load 30, stor 31 and halt 0 (unless the
   * binary token is itself a label) whatever operand was given; any other
   * mnemonic alone has no operand and raises an IndexError.
   */
  lemma InstructionWordCases(index: int, line: string, tokens: seq<string>, symbols: map<string, int>)
    requires |tokens| >= 1 && ParseMnemonic(tokens[0]).Some?
    ensures var m := ParseMnemonic(tokens[0]).value;
      var r := InstructionWord(index, line, tokens, symbols);
      && (|tokens| > 2 ==> r == Err(InvalidInstruction(line)))
      && (|tokens| <= 2 && m == Read ==> r == Ok(FromInstruction(Load, PortOperand("11110", 30, symbols))))
      && (|tokens| <= 2 && m == Write ==> r == Ok(FromInstruction(Stor, PortOperand("11111", 31, symbols))))
      && (|tokens| <= 2 && m == Halt ==> r == Ok(FromInstruction(Halt, PortOperand("00000", 0, symbols))))
      && (|tokens| == 1 && m != Read && m != Write && m != Halt ==> r == Err(IndexOutOfRange))
  {
    var m := ParseMnemonic(tokens[0]).value;
    if |tokens| <= 2 {
      if m == Read {
        ReadInstruction(index, line, tokens, symbols);
      } else if m == Write {
        WriteInstruction(index, line, tokens, symbols);
      } else if m == Halt {
        HaltInstruction(index, line, tokens, symbols);
      }
    }
  }

  /** An instruction with one operand and no pseudo-op: the mnemonic with its resolved operand, or the operand's fault. */
  lemma InstructionWordOperand(index: int, line: string, tokens: seq<string>, symbols: map<string, int>)
    requires |tokens| == 2 && ParseMnemonic(tokens[0]).Some?
    requires tokens[0] != "read" && tokens[0] != "write" && tokens[0] != "halt"
    ensures var r := InstructionWord(index, line, tokens, symbols);
      var operand := ResolveOperand(tokens[1], symbols, index);
      && (r.Ok? <==> operand.Ok?)
      && (r.Ok? ==> r.value == FromInstruction(ParseMnemonic(tokens[0]).value, operand.value))
      && (r.Err? ==> r.error == operand.error)
  {
  }

  /**
   * _assemble_data: a data line must be a single token that int() parses to
   * a value in -128..255, and its word is MemoryLocation(decimal=value);
   * more tokens is an illegal line, a bad token an invalid data value.
   */
  lemma DataWordCases(index: int, line: string, tokens: seq<string>)
    ensures var r := DataWord(index, line, tokens);
      && (|tokens| != 1 ==> r == Err(IllegalLine(index, line)))
      && (|tokens| == 1 ==> (r.Ok? <==> ParseInt(tokens[0], 10).Some? && -128 <= ParseInt(tokens[0], 10).value <= 255))
      && (|tokens| == 1 && r.Ok? ==> r.value == FromDecimal(ParseInt(tokens[0], 10).value).value)
      && (|tokens| == 1 && r.Err? ==> r.error == InvalidDataValue(tokens[0]))
  {
  }

  /**
   * _assemble, one line: no tokens after the label is an IndexError; a first
   * token that names no instruction makes it a data line, which assembles
   * exactly when it is one decimal numeral in -128..255, to that value's
   * word; otherwise it is an instruction line.
   */
  lemma LineWordCases(index: int, line: string, symbols: map<string, int>)
    ensures var tokens := LineTokens(line);
      var r := LineWord(index, line, symbols);
      && (tokens == [] ==> r == Err(IndexOutOfRange))
      && (tokens != [] && ParseMnemonic(tokens[0]).None? ==>
            && (r.Ok? <==> |tokens| == 1 && ParseInt(tokens[0], 10).Some? && -128 <= ParseInt(tokens[0], 10).value <= 255)
            && (r.Ok? ==> r.value == FromDecimal(ParseInt(tokens[0], 10).value).value)
            && (r.Err? ==> r.error == if |tokens| != 1 then IllegalLine(index, line) else InvalidDataValue(tokens[0])))
      && (tokens != [] && ParseMnemonic(tokens[0]).Some? ==> r == InstructionWord(index, line, tokens, symbols))
  {
    var tokens := LineTokens(line);
    if tokens != [] && ParseMnemonic(tokens[0]).None? {
      DataWordCases(index, line, tokens);
    }
  }

  /** The word or fault of every line, in order. */
  function LineResults(program: seq<string>, symbols: map<string, int>): (results: seq<Result<Word, Fault>>)
    ensures |results| == |program|
    ensures forall i :: 0 <= i < |program| ==> results[i] == LineWord(i, program[i], symbols)
  {
    seq(|program|, i requires 0 <= i < |program| => LineWord(i, program[i], symbols))
  }

  /** Memory and the fault, if any, after some lines of _assemble. */
  datatype Assembly = Assembly(memory: seq<Word>, fault: Option<Fault>)

  /** memory[index] = word, which raises for an index past the end of memory. */
  function StoreWord(memory: seq<Word>, index: nat, word: Result<Word, Fault>): (a: Assembly)
    ensures |a.memory| == |memory|
    ensures word.Err? ==> a == Assembly(memory, Some(word.error))
    ensures word.Ok? && index >= |memory| ==> a == Assembly(memory, Some(AssignmentOutOfRange))
    ensures word.Ok? && index < |memory| ==>
      && a.fault.None? && a.memory[index] == word.value
      && forall j :: 0 <= j < |memory| && j != index ==> a.memory[j] == memory[j]
  {
    match word
    case Err(e) => Assembly(memory, Some(e))
    case Ok(w) =>
      if index < |memory| then Assembly(memory[index := w], None)
      else Assembly(memory, Some(AssignmentOutOfRange))
  }

  /** The state of _assemble after the first n lines; the first fault stops it. */
  function AssembledPrefix(results: seq<Result<Word, Fault>>, memory: seq<Word>, n: nat): (a: Assembly)
    requires n <= |results|
    ensures |a.memory| == |memory|
  {
    if n == 0 then Assembly(memory, None)
    else
      var a := AssembledPrefix(results, memory, n - 1);
      if a.fault.Some? then a
      else StoreWord(a.memory, n - 1, results[n - 1])
  }

  function AssembleProgram(program: seq<string>, symbols: map<string, int>, memory: seq<Word>): Assembly {
    AssembledPrefix(LineResults(program, symbols), memory, |program|)
  }

  /** Once a line has raised, later lines change nothing. */
  lemma {:induction false} AssembledPrefixSticky(results: seq<Result<Word, Fault>>, memory: seq<Word>, n: nat, m: nat)
    requires n <= m <= |results|
    requires AssembledPrefix(results, memory, n).fault.Some?
    ensures AssembledPrefix(results, memory, m) == AssembledPrefix(results, memory, n)
    decreases m - n
  {
    if m > n {
      AssembledPrefixSticky(results, memory, n, m - 1);
    }
  }

  /** The first n lines each assemble and fit in memory. */
  ghost predicate LinesAssemble(results: seq<Result<Word, Fault>>, size: nat, n: nat)
    requires n <= |results|
  {
    n <= size && forall i :: 0 <= i < n ==> results[i].Ok?
  }

  /** Lines occupy memory from address 0 in program order; the other slots keep their words. */
  ghost predicate LaidOut(results: seq<Result<Word, Fault>>, before: seq<Word>, after: seq<Word>, n: nat)
    requires n <= |results| && n <= |after| == |before|
    requires forall i :: 0 <= i < n ==> results[i].Ok?
  {
    && (forall i :: 0 <= i < n ==> after[i] == results[i].value)
    && (forall i :: n <= i < |after| ==> after[i] == before[i])
  }

  lemma {:induction false} AssembledPrefixLayout(results: seq<Result<Word, Fault>>, memory: seq<Word>, n: nat)
    requires n <= |results|
    ensures AssembledPrefix(results, memory, n).fault.None? <==> LinesAssemble(results, |memory|, n)
    ensures AssembledPrefix(results, memory, n).fault.None? ==>
      LaidOut(results, memory, AssembledPrefix(results, memory, n).memory, n)
  {
    if n > 0 {
      AssembledPrefixLayout(results, memory, n - 1);
    }
  }

  /** The fault assembly reports for line k: the line's own, or the list-assignment error for a word past the end. */
  function LineFault(results: seq<Result<Word, Fault>>, k: nat): Fault
    requires k < |results|
  {
    if results[k].Err? then results[k].error else AssignmentOutOfRange
  }

  /**
   * A failed assembly reports the fault of its first failing line k: every
   * earlier line assembled into a slot of memory, and line k either raised
   * or, assembling, fell past the last slot.
   */
  lemma {:induction false} AssembledPrefixFirstFault(results: seq<Result<Word, Fault>>, memory: seq<Word>, n: nat)
    requires n <= |results|
    ensures AssembledPrefix(results, memory, n).fault.Some? ==>
      exists k :: 0 <= k < n && LinesAssemble(results, |memory|, k)
        && (results[k].Ok? ==> k == |memory|)
        && AssembledPrefix(results, memory, n).fault.value == LineFault(results, k)
  {
    if n > 0 {
      var prev := AssembledPrefix(results, memory, n - 1);
      AssembledPrefixFirstFault(results, memory, n - 1);
      if prev.fault.None? && AssembledPrefix(results, memory, n).fault.Some? {
        AssembledPrefixLayout(results, memory, n - 1);
        assert LinesAssemble(results, |memory|, n - 1);
      }
    }
  }

  /**
   * Assembly succeeds exactly when the program fits in memory and every line
   * assembles; the words then occupy addresses 0.. in program order and the
   * remaining slots keep their words.
   */
  lemma AssembleProgramLayout(program: seq<string>, symbols: map<string, int>, memory: seq<Word>)
    ensures AssembleProgram(program, symbols, memory).fault.None? <==>
      |program| <= |memory| && forall i :: 0 <= i < |program| ==> LineWord(i, program[i], symbols).Ok?
    ensures AssembleProgram(program, symbols, memory).fault.None? ==>
      && (forall i :: 0 <= i < |program| ==> AssembleProgram(program, symbols, memory).memory[i] == LineWord(i, program[i], symbols).value)
      && (forall i :: |program| <= i < |memory| ==> AssembleProgram(program, symbols, memory).memory[i] == memory[i])
  {
    AssembledPrefixLayout(LineResults(program, symbols), memory, |program|);
  }

  /**
   * A failed assembly reports the first failing line's fault: the line's own
   * exception, or the list-assignment error when every line before it fit
   * and it is the first line past the last slot.
   */
  lemma AssembleProgramFirstFault(program: seq<string>, symbols: map<string, int>, memory: seq<Word>)
    ensures var a := AssembleProgram(program, symbols, memory);
      a.fault.Some? ==>
        exists k :: 0 <= k < |program| && k <= |memory|
          && (forall j :: 0 <= j < k ==> LineWord(j, program[j], symbols).Ok?)
          && (LineWord(k, program[k], symbols).Ok? ==> k == |memory| && a.fault.value == AssignmentOutOfRange)
          && (LineWord(k, program[k], symbols).Err? ==> a.fault.value == LineWord(k, program[k], symbols).error)
  {
    var results := LineResults(program, symbols);
    AssembledPrefixFirstFault(results, memory, |program|);
  }

  /**
   * A program with more lines than memory slots never assembles; when every
   * line assembles on its own, the fault is the list-assignment error.
   */
  lemma TooLongProgramFails(program: seq<string>, symbols: map<string, int>, memory: seq<Word>)
    requires |program| > |memory|
    ensures AssembleProgram(program, symbols, memory).fault.Some?
    ensures (forall i :: 0 <= i < |program| ==> LineWord(i, program[i], symbols).Ok?) ==>
      AssembleProgram(program, symbols, memory).fault == Some(AssignmentOutOfRange)
  {
    AssembleProgramLayout(program, symbols, memory);
    AssembleProgramFirstFault(program, symbols, memory);
  }
}
