/**
 * The interpreter: a tape, a program counter and the loaded program text.
 *
 * One step fetches the character at the program counter, decodes it,
 * dispatches the operation to the tape and advances the counter by one.
 * Only the four tape operations have an effect; the console and loop
 * operations are empty arms of the dispatch. A tape operation that would
 * panic stops the step before the counter moves, with the reason.
 *
 * Transition and Execution are the value-level meaning of one step and of a
 * whole run; the Interpreter class's methods are proved to compute them.
 */
module Machine {
  import opened Decoder
  import opened Tape

  /** The value of an interpreter. */
  datatype State = State(tape: TapeValue, programCounter: nat, programCode: seq<char>)

  /** What one step reports: nothing left to run, one instruction done, or a panic. */
  datatype StepOutcome = Halted | Continued | Panicked(panic: Panic)

  datatype Option<T> = None | Some(value: T)

  datatype StepResult = StepResult(outcome: StepOutcome, next: State)

  /** What a run reports: the outcome of its last step, the final state and the number of steps that continued. */
  datatype RunResult = RunResult(outcome: StepOutcome, final: State, steps: nat)

  /** The interpreter right after construction: the hard-wired two-cell tape, counter 0, no program. */
  const InitialState: State := State(Tape.Initial, 0, [])

  /** The panic, if any, that dispatching op on tape t raises. Index checks come before overflow checks. */
  function PanicOf(op: Operation, t: TapeValue): (p: Option<Panic>)
    ensures p == None <==> (op == Increment ==> CanIncrement(t)) && (op == Decrement ==> CanDecrement(t))
    ensures p == Some(IndexOutOfBounds) <==> (op == Increment || op == Decrement) && !InRange(t)
    ensures p == Some(AddOverflow) <==> op == Increment && InRange(t) && t.cells[t.pointer] == 255
    ensures p == Some(SubtractOverflow) <==> op == Decrement && InRange(t) && t.cells[t.pointer] == 0
  {
    match op
    case Increment =>
      if !InRange(t) then Some(IndexOutOfBounds)
      else if t.cells[t.pointer] == 255 then Some(AddOverflow)
      else None
    case Decrement =>
      if !InRange(t) then Some(IndexOutOfBounds)
      else if t.cells[t.pointer] == 0 then Some(SubtractOverflow)
      else None
    case _ => None
  }

  /** The tape after dispatching op; the console, loop and skip operations leave it as it is. */
  function Dispatch(op: Operation, t: TapeValue): (r: TapeValue)
    requires PanicOf(op, t) == None
    ensures |r.cells| == |t.cells|
    ensures op !in {MoveLeft, MoveRight} ==> r.pointer == t.pointer
    ensures op !in {Increment, Decrement} ==> r.cells == t.cells
  {
    match op
    case MoveLeft => MovedLeft(t)
    case MoveRight => MovedRight(t)
    case Increment => Incremented(t)
    case Decrement => Decremented(t)
    case ConsolePrint => t
    case ConsoleRead => t
    case OpenLoop => t
    case CloseLoop => t
    case Skip => t
  }

  /** The operation at the program counter; defined while the counter is inside the program. */
  function Current(s: State): Operation
    requires s.programCounter < |s.programCode|
  {
    FromChar(s.programCode[s.programCounter])
  }

  /** One step of the interpreter. */
  function Transition(s: State): (r: StepResult)
    ensures r.outcome == Halted <==> s.programCounter >= |s.programCode|
    ensures r.outcome != Continued ==> r.next == s
    ensures r.outcome.Panicked? ==> PanicOf(Current(s), s.tape) == Some(r.outcome.panic)
    ensures r.outcome == Continued ==>
      && PanicOf(Current(s), s.tape) == None
      && r.next.programCounter == s.programCounter + 1
      && r.next.programCode == s.programCode
      && r.next.tape == Dispatch(Current(s), s.tape)
  {
    if s.programCounter >= |s.programCode| then
      StepResult(Halted, s)
    else
      var op := Current(s);
      match PanicOf(op, s.tape)
      case Some(p) => StepResult(Panicked(p), s)
      case None => StepResult(Continued, s.(tape := Dispatch(op, s.tape), programCounter := s.programCounter + 1))
  }

  /**
   * A whole run: steps until a step does not continue. Each step that
   * continues moves the counter one place closer to the end of the program,
   * so every run ends, either having run off the end of the program or
   * inside it. MachineProperties.RunStopsWhereStepStops adds that a run
   * ending inside the program ends on an instruction that panics.
   */
  function Execution(s: State): (r: RunResult)
    decreases |s.programCode| - s.programCounter
    ensures r.outcome != Continued
    ensures r.final.programCode == s.programCode
    ensures |r.final.tape.cells| == |s.tape.cells|
    ensures r.final.programCounter == s.programCounter + r.steps
    ensures r.outcome == Halted ==>
      && r.final.programCounter == (if s.programCounter < |s.programCode| then |s.programCode| else s.programCounter)
      && r.steps == (if s.programCounter < |s.programCode| then |s.programCode| - s.programCounter else 0)
    ensures r.outcome.Panicked? ==> r.final.programCounter < |s.programCode|
  {
    var t := Transition(s);
    if t.outcome == Continued then
      var rest := Execution(t.next);
      RunResult(rest.outcome, rest.final, rest.steps + 1)
    else
      RunResult(t.outcome, s, 0)
  }

  class Interpreter {
    const memory: Memory
    var programCounter: nat
    var programCode: seq<char>

    function Value(): State
      reads this, memory
    {
      State(memory.Value(), programCounter, programCode)
    }

    /** The tape is built with a requested size of 4096, which it ignores. */
    constructor ()
      ensures Value() == InitialState
      ensures fresh(memory)
    {
      memory := new Memory(4096);
      programCounter := 0;
      programCode := [];
    }

    /** Replaces the program text; the counter is not reset and the tape is not touched. */
    method LoadProgram(program: string)
      modifies this
      ensures programCode == program
      ensures programCounter == old(programCounter)
      ensures Value() == old(Value()).(programCode := program)
    {
      programCode := program;
    }

    method Step() returns (outcome: StepOutcome)
      modifies this, memory
      ensures outcome == Transition(old(Value())).outcome
      ensures Value() == Transition(old(Value())).next
    {
      if programCounter >= |programCode| {
        return Halted;
      }
      var ch := programCode[programCounter];
      match FromChar(ch) {
      case MoveLeft => memory.MoveLeft();
      case MoveRight => memory.MoveRight();
      case Increment =>
        if memory.memoryPointer >= |memory.memory| {
          return Panicked(IndexOutOfBounds);
        }
        if memory.memory[memory.memoryPointer] == 255 {
          return Panicked(AddOverflow);
        }
        memory.Increment();
      case Decrement =>
        if memory.memoryPointer >= |memory.memory| {
          return Panicked(IndexOutOfBounds);
        }
        if memory.memory[memory.memoryPointer] == 0 {
          return Panicked(SubtractOverflow);
        }
        memory.Decrement();
      case ConsolePrint =>
      case ConsoleRead =>
      case OpenLoop =>
      case CloseLoop =>
      case Skip =>
      }
      programCounter := programCounter + 1;
      return Continued;
    }

    /** Steps until a step does not continue; reports that step's outcome. */
    method Run() returns (outcome: StepOutcome)
      modifies this, memory
      ensures outcome == Execution(old(Value())).outcome
      ensures Value() == Execution(old(Value())).final
    {
      ghost var goal := Execution(Value());
      outcome := Step();
      while outcome == Continued
        invariant outcome == Continued ==> programCounter <= |programCode|
        invariant outcome == Continued ==> Execution(Value()).outcome == goal.outcome && Execution(Value()).final == goal.final
        invariant outcome != Continued ==> outcome == goal.outcome && Value() == goal.final
        decreases |programCode| - programCounter + (if outcome == Continued then 1 else 0)
      {
        outcome := Step();
      }
    }
  }
}
