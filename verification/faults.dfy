/**
 * The exceptions the simulator raises, one constructor per raise site (or
 * per Python built-in error the code lets escape), with the text that
 * `str(e)` gives for each.
 */
module Faults {
  import opened Text

  datatype Fault =
    | BothViews                              // MemoryLocation given an instruction and a non-zero decimal
    | Overflow                               // a decimal whose bit pattern needs more than 8 bits
    | InvalidAddress(handler: string, address: int)  // an _execute_* handler rejects its operand
    | EmptyInput                             // popleft() on the empty input deque
    | IndexOutOfRange                        // memory[pc] past the end, or a missing token
    | AssignmentOutOfRange                   // memory[idx] = ... for a program line past the last slot
    | InvalidInstruction(line: string)       // more than two tokens on an instruction line
    | InvalidOperand(token: string, index: int)
    | IllegalLine(index: int, line: string)  // a data line that is not exactly one token
    | InvalidDataValue(token: string)        // a data token that is not a decimal in codec range

  /** str(e) for the exception `f` stands for; never empty, so the CPU's error field is set by any fault. */
  function Message(f: Fault): (text: string)
    ensures |text| > 0
  {
    match f
    case BothViews =>
      "When setting a memory location, specify only the instruction or data value, not both"
    case Overflow => "Overflow!"
    case InvalidAddress(handler, address) => "Invalid " + handler + " address " + IntToString(address)
    case EmptyInput => "pop from an empty deque"
    case IndexOutOfRange => "list index out of range"
    case AssignmentOutOfRange => "list assignment index out of range"
    case InvalidInstruction(line) => "Invalid instruction " + line
    case InvalidOperand(token, index) => "Invalid operand " + token + " on line " + IntToString(index)
    case IllegalLine(index, line) => "Illegal line " + IntToString(index) + ":" + line
    case InvalidDataValue(token) => "Invalid data value " + token
  }
}
