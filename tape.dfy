/**
 * The byte tape: a vector of unsigned 8-bit cells and a memory pointer.
 *
 * The tape of this interpreter draft does not wrap around: moving left stops
 * at cell 0, moving right has no bound at all (so the pointer may leave the
 * vector), and a cell that would overflow or underflow makes the program
 * panic. The operations that touch a cell therefore require an in-range
 * pointer and a cell value that does not overflow; the interpreter checks
 * those conditions and reports the panic the call would raise.
 */
module Tape {

  /** An unsigned 8-bit cell value. */
  type Byte = x: int | 0 <= x < 256

  /** A signed 32-bit integer, the type of the size argument of the tape's constructor. */
  type I32 = x: int | -0x8000_0000 <= x < 0x8000_0000

  /** Why a tape operation panics. */
  datatype Panic =
    | IndexOutOfBounds    // the memory pointer is at or past the end of the vector
    | AddOverflow         // incrementing a cell that holds 255
    | SubtractOverflow    // decrementing a cell that holds 0

  /** The value of a tape: its cells and its memory pointer. */
  datatype TapeValue = TapeValue(cells: seq<Byte>, pointer: nat)

  /** The pointer designates a cell of the vector. */
  predicate InRange(t: TapeValue) {
    t.pointer < |t.cells|
  }

  /** Incrementing the current cell neither indexes out of range nor overflows. */
  predicate CanIncrement(t: TapeValue) {
    InRange(t) && t.cells[t.pointer] < 255
  }

  /** Decrementing the current cell neither indexes out of range nor underflows. */
  predicate CanDecrement(t: TapeValue) {
    InRange(t) && t.cells[t.pointer] > 0
  }

  /** The tape every constructor call builds, whatever size it is asked for. */
  const Initial: TapeValue := TapeValue([0, 255], 0)

  function MovedLeft(t: TapeValue): (r: TapeValue)
    ensures r.cells == t.cells
    ensures t.pointer > 0 ==> r.pointer == t.pointer - 1
    ensures t.pointer == 0 ==> r.pointer == 0
  {
    if t.pointer > 0 then t.(pointer := t.pointer - 1) else t
  }

  function MovedRight(t: TapeValue): (r: TapeValue)
    ensures r.cells == t.cells
    ensures r.pointer == t.pointer + 1
  {
    t.(pointer := t.pointer + 1)
  }

  function Incremented(t: TapeValue): (r: TapeValue)
    requires CanIncrement(t)
    ensures r.pointer == t.pointer && |r.cells| == |t.cells|
    ensures r.cells[t.pointer] == t.cells[t.pointer] + 1
    ensures forall i :: 0 <= i < |t.cells| && i != t.pointer ==> r.cells[i] == t.cells[i]
  {
    t.(cells := t.cells[t.pointer := t.cells[t.pointer] + 1])
  }

  function Decremented(t: TapeValue): (r: TapeValue)
    requires CanDecrement(t)
    ensures r.pointer == t.pointer && |r.cells| == |t.cells|
    ensures r.cells[t.pointer] == t.cells[t.pointer] - 1
    ensures forall i :: 0 <= i < |t.cells| && i != t.pointer ==> r.cells[i] == t.cells[i]
  {
    t.(cells := t.cells[t.pointer := t.cells[t.pointer] - 1])
  }

  /** Moving right then left always returns to the same tape. */
  lemma MoveLeftUndoesMoveRight(t: TapeValue)
    ensures MovedLeft(MovedRight(t)) == t
  {
  }

  /** Moving left then right returns to the same tape exactly when the pointer was not at 0. */
  lemma MoveRightUndoesMoveLeft(t: TapeValue)
    ensures MovedRight(MovedLeft(t)) == t <==> t.pointer > 0
  {
  }

  /** A successful increment can always be undone by a decrement. */
  lemma DecrementUndoesIncrement(t: TapeValue)
    requires CanIncrement(t)
    ensures CanDecrement(Incremented(t)) && Decremented(Incremented(t)) == t
  {
    assert Decremented(Incremented(t)).cells == t.cells;
  }

  /** A successful decrement can always be undone by an increment. */
  lemma IncrementUndoesDecrement(t: TapeValue)
    requires CanDecrement(t)
    ensures CanIncrement(Decremented(t)) && Incremented(Decremented(t)) == t
  {
    assert Incremented(Decremented(t)).cells == t.cells;
  }

  /**
   * The tape object. Its methods update the pointer and the vector in place;
   * Value() is the tape's current value, and each method is specified by the
   * function above that computes the new value from the old one.
   */
  class Memory {
    var memoryPointer: nat
    var memory: seq<Byte>

    function Value(): TapeValue
      reads this
    {
      TapeValue(memory, memoryPointer)
    }

    /** The requested size is ignored: the vector always has the two cells 0 and 255. */
    constructor (memorySize: I32)
      ensures Value() == Initial
      ensures memory == [0, 255] && memoryPointer == 0
    {
      memoryPointer := 0;
      memory := [0, 255];
    }

    method MoveLeft()
      modifies this
      ensures Value() == MovedLeft(old(Value()))
    {
      if memoryPointer > 0 {
        memoryPointer := memoryPointer - 1;
      }
    }

    method MoveRight()
      modifies this
      ensures Value() == MovedRight(old(Value()))
    {
      memoryPointer := memoryPointer + 1;
    }

    method Decrement()
      requires CanDecrement(Value())
      modifies this
      ensures Value() == Decremented(old(Value()))
    {
      memory := memory[memoryPointer := memory[memoryPointer] - 1];
    }

    method Increment()
      requires CanIncrement(Value())
      modifies this
      ensures Value() == Incremented(old(Value()))
    {
      memory := memory[memoryPointer := memory[memoryPointer] + 1];
    }

    /** Reads the current cell; panics (here: is not callable) when the pointer is past the vector. */
    method Read() returns (v: Byte)
      requires InRange(Value())
      ensures v == memory[memoryPointer]
    {
      return memory[memoryPointer];
    }
  }
}
