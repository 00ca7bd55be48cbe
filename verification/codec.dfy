/**
 * A HYMN memory word (MemoryLocation): a decimal value together with an
 * (instruction name, operand) view. Built from an instruction, the decimal is
 * 32 * opcode + operand folded once into the signed range; built from a
 * decimal, the view is read from the value's 8-bit pattern.
 */
module Codec {
  import opened Wrappers
  import opened Text
  import opened Faults

  /** The instruction names the simulator accepts, the aliases store, read and write included. */
  datatype Mnemonic = Halt | Jump | Jzer | Jpos | Load | Stor | Store | Add | Sub | Read | Write

  function Name(m: Mnemonic): (s: string)
    ensures s != [] && NoSpace(s)
  {
    match m
    case Halt => "halt"
    case Jump => "jump"
    case Jzer => "jzer"
    case Jpos => "jpos"
    case Load => "load"
    case Stor => "stor"
    case Store => "store"
    case Add => "add"
    case Sub => "sub"
    case Read => "read"
    case Write => "write"
  }

  /** INSTR_TO_OPCODE */
  function OpcodeOf(m: Mnemonic): (op: nat)
    ensures op < 8
  {
    match m
    case Halt => 0
    case Jump => 1
    case Jzer => 2
    case Jpos => 3
    case Load | Read => 4
    case Stor | Store | Write => 5
    case Add => 6
    case Sub => 7
  }

  /** OPCODE_TO_INSTR: the name a decoded word gets. */
  function Decoded(op: nat): (m: Mnemonic)
    requires op < 8
    ensures OpcodeOf(m) == op
  {
    [Halt, Jump, Jzer, Jpos, Load, Stor, Add, Sub][op]
  }

  /** The name the decoder gives to the opcode of `m`; it also names m's handler in the dispatch table. */
  function Canonical(m: Mnemonic): Mnemonic {
    Decoded(OpcodeOf(m))
  }

  predicate IsCanonical(m: Mnemonic) {
    Canonical(m) == m
  }

  /** Only the aliases differ from their canonical names, and only `halt` has opcode 0. */
  lemma CanonicalNames(m: Mnemonic)
    ensures IsCanonical(Canonical(m))
    ensures Canonical(m) == Halt <==> m == Halt
    ensures m == Store || m == Write ==> Canonical(m) == Stor
    ensures m == Read ==> Canonical(m) == Load
    ensures m != Store && m != Read && m != Write ==> IsCanonical(m)
  {
  }

  /** Lookup of a token among the instruction names (the keys of the dispatch table). */
  function ParseMnemonic(t: string): (r: Option<Mnemonic>)
    ensures r.Some? ==> Name(r.value) == t
    ensures r.None? ==> forall m :: Name(m) != t
  {
    if t == "halt" then Some(Halt)
    else if t == "jump" then Some(Jump)
    else if t == "jzer" then Some(Jzer)
    else if t == "jpos" then Some(Jpos)
    else if t == "load" then Some(Load)
    else if t == "stor" then Some(Stor)
    else if t == "store" then Some(Store)
    else if t == "add" then Some(Add)
    else if t == "sub" then Some(Sub)
    else if t == "read" then Some(Read)
    else if t == "write" then Some(Write)
    else None
  }

  datatype Word = Word(name: Mnemonic, operand: int, decimal: int)

  /** MemoryLocation(decimal=0): the content of every slot of a fresh memory. */
  const ZERO_WORD := Word(Halt, 0, 0)

  /**
   * The decimal and the instruction view of a word agree modulo 256. It holds
   * of every word either constructor builds, even for an operand outside 0..31.
   */
  predicate Agrees(w: Word) {
    (w.decimal - 32 * OpcodeOf(w.name) - w.operand) % 256 == 0
  }

  /** MemoryLocation(instruction=(m, operand)): no range check on the operand. */
  function FromInstruction(m: Mnemonic, operand: int): (w: Word)
    ensures w.name == m && w.operand == operand
    ensures Agrees(w)
    ensures 32 * OpcodeOf(m) + operand < 384 ==> w.decimal < 128
    ensures 32 * OpcodeOf(m) + operand < 128 ==> w.decimal == 32 * OpcodeOf(m) + operand
    ensures 32 * OpcodeOf(m) + operand >= 128 ==> w.decimal == 32 * OpcodeOf(m) + operand - 256
    ensures 0 <= operand < 32 ==> -128 <= w.decimal < 128
  {
    var raw := 32 * OpcodeOf(m) + operand;
    Word(m, operand, if raw >= 128 then raw - 256 else raw)
  }

  /** The value of np.binary_repr(d, width=8) read as an unsigned number. */
  function Pattern(d: int): int {
    if d >= 0 then d else 256 + d
  }

  /** MemoryLocation(decimal=d): the decimal is kept as given, 128..255 included. */
  function FromDecimal(d: int): (r: Result<Word, Fault>)
    ensures r.Ok? <==> -128 <= d <= 255
    ensures r.Err? ==> r.error == Overflow
    ensures r.Ok? ==> r.value.decimal == d && 0 <= r.value.operand < 32 && IsCanonical(r.value.name)
    ensures r.Ok? ==> 32 * OpcodeOf(r.value.name) + r.value.operand == Pattern(d) && Agrees(r.value)
  {
    if d < -128 || d > 255 then Err(Overflow)
    else
      var p := Pattern(d);
      Ok(Word(Decoded(p / 32), p % 32, d))
  }

  /** The MemoryLocation constructor, with both of its keyword arguments. */
  function NewLocation(instruction: Option<(Mnemonic, int)>, decimal: int): (r: Result<Word, Fault>)
    ensures r == Err(BothViews) <==> instruction.Some? && decimal != 0
    ensures instruction.None? ==> r == FromDecimal(decimal)
    ensures instruction.Some? && decimal == 0 ==> r == Ok(FromInstruction(instruction.value.0, instruction.value.1))
    ensures instruction.Some? && decimal == 0 ==> r.Ok? && r.value.name == instruction.value.0 && r.value.operand == instruction.value.1
  {
    if instruction.Some? && decimal != 0 then Err(BothViews)
    else if instruction.Some? then Ok(FromInstruction(instruction.value.0, instruction.value.1))
    else FromDecimal(decimal)
  }

  /** Encoding an instruction with an operand in 0..31 and decoding the decimal gives the instruction back. */
  lemma EncodeThenDecode(m: Mnemonic, operand: int)
    requires 0 <= operand < 32
    ensures FromDecimal(FromInstruction(m, operand).decimal)
         == Ok(Word(Canonical(m), operand, FromInstruction(m, operand).decimal))
  {
    var raw := 32 * OpcodeOf(m) + operand;
    var w := FromInstruction(m, operand);
    assert Pattern(w.decimal) == raw;
    assert raw / 32 == OpcodeOf(m) && raw % 32 == operand;
  }

  /** Decoding a signed 8-bit decimal and encoding its view gives the decimal back. */
  lemma DecodeThenEncode(d: int)
    requires -128 <= d <= 127
    ensures FromDecimal(d).Ok?
    ensures FromInstruction(FromDecimal(d).value.name, FromDecimal(d).value.operand).decimal == d
  {
    var w := FromDecimal(d).value;
    assert 32 * OpcodeOf(w.name) + w.operand == Pattern(d);
  }

  /** A decimal in 128..255 is stored unfolded, but its view re-encodes to the folded value. */
  lemma HighDecimalStaysUnfolded(d: int)
    requires 128 <= d <= 255
    ensures FromDecimal(d).Ok? && FromDecimal(d).value.decimal == d
    ensures FromInstruction(FromDecimal(d).value.name, FromDecimal(d).value.operand).decimal == d - 256
  {
    var w := FromDecimal(d).value;
    assert 32 * OpcodeOf(w.name) + w.operand == d;
  }

  /** str(MemoryLocation): "name operand". */
  function Render(w: Word): string {
    Name(w.name) + " " + IntToString(w.operand)
  }

  /** The rendering reads back as the word's instruction view: its name and its operand. */
  lemma RenderReadsBack(w: Word)
    ensures SplitWs(Render(w)) == [Name(w.name), IntToString(w.operand)]
    ensures ParseMnemonic(SplitWs(Render(w))[0]) == Some(w.name)
    ensures ParseInt(SplitWs(Render(w))[1], 10) == Some(w.operand)
  {
    var parts := [Name(w.name), IntToString(w.operand)];
    assert JoinWith(parts, " ") == Render(w);
    SplitWsJoin(parts);
    DecimalRoundTrip(w.operand);
    NameParsesBack(w.name);
  }

  /** Every instruction name parses back to its mnemonic. */
  lemma NameParsesBack(m: Mnemonic)
    ensures ParseMnemonic(Name(m)) == Some(m)
  {
    match m
    case Halt => case Jump => case Jzer => case Jpos => case Load => case Stor =>
    case Store => case Add => case Sub => case Read => case Write =>
  }
}
