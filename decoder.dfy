/**
 * The instruction decoder: every character of a program text decodes to one
 * of nine operations. The eight command characters each have their own
 * operation; every other character is a no-op.
 */
module Decoder {

  datatype Operation =
    | MoveLeft
    | MoveRight
    | Increment
    | Decrement
    | ConsolePrint
    | ConsoleRead
    | OpenLoop
    | CloseLoop
    | Skip

  /** The eight characters that decode to something other than Skip. */
  const Commands: string := "<>+-.,[]"

  /** The character that decodes to a given operation other than Skip. */
  function Symbol(op: Operation): (c: char)
    requires op != Skip
    ensures c in Commands
  {
    match op
    case MoveLeft => '<'
    case MoveRight => '>'
    case Increment => '+'
    case Decrement => '-'
    case ConsolePrint => '.'
    case ConsoleRead => ','
    case OpenLoop => '['
    case CloseLoop => ']'
  }

  /** Decodes one program character; total over all characters. */
  function FromChar(c: char): (op: Operation)
    ensures op == MoveLeft <==> c == '<'
    ensures op == MoveRight <==> c == '>'
    ensures op == Increment <==> c == '+'
    ensures op == Decrement <==> c == '-'
    ensures op == ConsolePrint <==> c == '.'
    ensures op == ConsoleRead <==> c == ','
    ensures op == OpenLoop <==> c == '['
    ensures op == CloseLoop <==> c == ']'
  {
    match c
    case '<' => MoveLeft
    case '>' => MoveRight
    case '+' => Increment
    case '-' => Decrement
    case '.' => ConsolePrint
    case ',' => ConsoleRead
    case '[' => OpenLoop
    case ']' => CloseLoop
    case _ => Skip
  }

  /** Exactly the characters other than the eight commands decode to Skip. */
  lemma SkipExactlyOutsideCommands(c: char)
    ensures FromChar(c) == Skip <==> c !in Commands
  {
  }

  /** Decoding the symbol of an operation gives the operation back. */
  lemma FromCharOfSymbol(op: Operation)
    requires op != Skip
    ensures FromChar(Symbol(op)) == op
  {
  }

  /** A command character is the symbol of the operation it decodes to. */
  lemma SymbolOfFromChar(c: char)
    requires c in Commands
    ensures FromChar(c) != Skip && Symbol(FromChar(c)) == c
  {
  }
}
