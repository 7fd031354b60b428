/**
 * Properties of whole runs of the interpreter: where a run stops, what runs
 * of one repeated command do to the tape, what reloading a program does, and
 * what programs starting with the same few commands as the demonstration
 * programs of the repository's entry point do.
 */
module MachineProperties {
  import opened Decoder
  import opened Tape
  import opened Machine

  /** The state after `new()` followed by loading program p. */
  function Loaded(p: string): (s: State)
    ensures s.tape == Tape.Initial && s.programCounter == 0 && s.programCode == p
  {
    InitialState.(programCode := p)
  }

  /** Constructing an interpreter and loading p gives the state Loaded(p), on a fresh tape. */
  method NewAndLoad(p: string) returns (i: Interpreter)
    ensures fresh(i) && fresh(i.memory)
    ensures i.Value() == Loaded(p)
  {
    i := new Interpreter();
    i.LoadProgram(p);
  }

  /**
   * A run stops exactly at a state where one more step does not continue, and
   * reports that step; a run that panics ends on an operation that panics.
   */
  lemma {:induction false} RunStopsWhereStepStops(s: State)
    ensures Transition(Execution(s).final) == StepResult(Execution(s).outcome, Execution(s).final)
    ensures var r := Execution(s);
      r.outcome.Panicked? ==> PanicOf(Current(r.final), r.final.tape) == Some(r.outcome.panic)
    decreases |s.programCode| - s.programCounter
  {
    var t := Transition(s);
    if t.outcome == Continued {
      RunStopsWhereStepStops(t.next);
    }
  }

  /** A step that continues is the first step of the run: the rest of the run starts from its result. */
  lemma StepIntoRun(s: State)
    requires Transition(s).outcome == Continued
    ensures var r, rest := Execution(s), Execution(Transition(s).next);
      r.outcome == rest.outcome && r.final == rest.final && r.steps == rest.steps + 1
  {
  }

  /** Once the counter is at or past the end of the program, steps and runs change nothing. */
  lemma HaltedIsFixed(s: State)
    requires s.programCounter >= |s.programCode|
    ensures Transition(s) == StepResult(Halted, s)
    ensures Execution(s) == RunResult(Halted, s, 0)
  {
  }

  /** All characters from the counter to the end of the program are c. */
  predicate RestIs(s: State, c: char) {
    forall i :: s.programCounter <= i < |s.programCode| ==> s.programCode[i] == c
  }

  /**
   * A run of n '+' on a cell holding v ends with v + n in the cell when that
   * is at most 255; otherwise it panics with an overflow on the '+' that
   * would take the cell past 255, with 255 in the cell.
   */
  lemma {:induction false} RunOfIncrements(s: State)
    requires s.programCounter <= |s.programCode| && RestIs(s, '+') && InRange(s.tape)
    ensures var n, v, r := |s.programCode| - s.programCounter, s.tape.cells[s.tape.pointer], Execution(s);
      && r.final.tape.pointer == s.tape.pointer
      && (v + n <= 255 ==> r.outcome == Halted && r.final.tape.cells == s.tape.cells[s.tape.pointer := v + n])
      && (v + n > 255 ==>
            && r.outcome == Panicked(AddOverflow)
            && r.final.programCounter == s.programCounter + (255 - v)
            && r.final.tape.cells == s.tape.cells[s.tape.pointer := 255])
    decreases |s.programCode| - s.programCounter
  {
    var p, v, n := s.tape.pointer, s.tape.cells[s.tape.pointer], |s.programCode| - s.programCounter;
    if n > 0 && v < 255 {
      assert Current(s) == Increment;
      var t := Transition(s).next;
      assert t.tape == TapeValue(s.tape.cells[p := v + 1], p);
      StepIntoRun(s);
      RunOfIncrements(t);
      if v + n <= 255 {
        assert t.tape.cells[p := v + 1 + (n - 1)] == s.tape.cells[p := v + n];
      } else {
        assert t.tape.cells[p := 255] == s.tape.cells[p := 255];
      }
    } else if n > 0 {
      assert Current(s) == Increment;
      assert s.tape.cells[p := 255] == s.tape.cells;
    } else {
      assert s.tape.cells[p := v] == s.tape.cells;
    }
  }

  /**
   * A run of n '-' on a cell holding v ends with v - n in the cell when n is
   * at most v; otherwise it panics with an underflow on the '-' that would
   * take the cell below 0, with 0 in the cell.
   */
  lemma {:induction false} RunOfDecrements(s: State)
    requires s.programCounter <= |s.programCode| && RestIs(s, '-') && InRange(s.tape)
    ensures var n, v, r := |s.programCode| - s.programCounter, s.tape.cells[s.tape.pointer], Execution(s);
      && r.final.tape.pointer == s.tape.pointer
      && (n <= v ==> r.outcome == Halted && r.final.tape.cells == s.tape.cells[s.tape.pointer := v - n])
      && (n > v ==>
            && r.outcome == Panicked(SubtractOverflow)
            && r.final.programCounter == s.programCounter + v
            && r.final.tape.cells == s.tape.cells[s.tape.pointer := 0])
    decreases |s.programCode| - s.programCounter
  {
    var p, v, n := s.tape.pointer, s.tape.cells[s.tape.pointer], |s.programCode| - s.programCounter;
    if n > 0 && v > 0 {
      assert Current(s) == Decrement;
      var t := Transition(s).next;
      assert t.tape == TapeValue(s.tape.cells[p := v - 1], p);
      StepIntoRun(s);
      RunOfDecrements(t);
      if n <= v {
        assert t.tape.cells[p := v - 1 - (n - 1)] == s.tape.cells[p := v - n];
      } else {
        assert t.tape.cells[p := 0] == s.tape.cells[p := 0];
      }
    } else if n > 0 {
      assert Current(s) == Decrement;
      assert s.tape.cells[p := 0] == s.tape.cells;
    } else {
      assert s.tape.cells[p := v] == s.tape.cells;
    }
  }

  /** A run of n '>' moves the pointer n cells right, past the end of the vector if need be. */
  lemma {:induction false} RunOfMoveRights(s: State)
    requires s.programCounter <= |s.programCode| && RestIs(s, '>')
    ensures Execution(s).outcome == Halted
    ensures Execution(s).final.tape == TapeValue(s.tape.cells, s.tape.pointer + (|s.programCode| - s.programCounter))
    decreases |s.programCode| - s.programCounter
  {
    if s.programCounter < |s.programCode| {
      assert Current(s) == MoveRight;
      RunOfMoveRights(Transition(s).next);
    }
  }

  /** A run of n '<' moves the pointer n cells left, stopping at cell 0. */
  lemma {:induction false} RunOfMoveLefts(s: State)
    requires s.programCounter <= |s.programCode| && RestIs(s, '<')
    ensures Execution(s).outcome == Halted
    ensures var n := |s.programCode| - s.programCounter;
      Execution(s).final.tape == TapeValue(s.tape.cells, if s.tape.pointer >= n then s.tape.pointer - n else 0)
    decreases |s.programCode| - s.programCounter
  {
    if s.programCounter < |s.programCode| {
      assert Current(s) == MoveLeft;
      RunOfMoveLefts(Transition(s).next);
    }
  }

  /** The characters from the counter on never touch the tape: console, loop and other characters. */
  predicate RestIsInert(s: State) {
    forall i :: s.programCounter <= i < |s.programCode| ==>
      FromChar(s.programCode[i]) !in {MoveLeft, MoveRight, Increment, Decrement}
  }

  /** Brackets, console commands and other characters run to the end of the program and leave the tape as it is. */
  lemma {:induction false} InertRunKeepsTape(s: State)
    requires RestIsInert(s)
    ensures Execution(s).outcome == Halted
    ensures Execution(s).final.tape == s.tape
    decreases |s.programCode| - s.programCounter
  {
    if s.programCounter < |s.programCode| {
      InertRunKeepsTape(Transition(s).next);
    }
  }

  /**
   * Loading a new program after a run keeps the counter where the first run
   * left it: the next run starts at that position of the new program, and
   * does nothing if the new program is not longer than that.
   */
  lemma ReloadKeepsCounter(s: State, b: string)
    requires Execution(s).outcome == Halted
    ensures var f := Execution(s).final;
      var r := Execution(f.(programCode := b));
      && f.programCounter >= |s.programCode|
      && (|b| <= f.programCounter ==> r == RunResult(Halted, f.(programCode := b), 0))
      && (r.outcome == Halted ==> r.steps == (if f.programCounter < |b| then |b| - f.programCounter else 0))
  {
  }

  /**
   * k leading '+' that do not overflow the current cell are one stretch of
   * the run: the run ends where the run from k places further on, with k
   * added to the cell, ends.
   */
  lemma {:induction false} IncrementPrefix(s: State, k: nat)
    requires s.programCounter + k <= |s.programCode| && InRange(s.tape)
    requires forall i :: s.programCounter <= i < s.programCounter + k ==> s.programCode[i] == '+'
    requires s.tape.cells[s.tape.pointer] + k <= 255
    ensures var rest := Execution(AfterIncrements(s, k));
      Execution(s).outcome == rest.outcome && Execution(s).final == rest.final
    decreases k
  {
    if k == 0 {
      assert s.tape.cells[s.tape.pointer := s.tape.cells[s.tape.pointer]] == s.tape.cells;
      assert AfterIncrements(s, 0) == s;
    } else {
      var t := OneIncrement(s, k);
      IncrementPrefix(t, k - 1);
    }
  }

  /** The first of k leading '+' continues, and leaves k - 1 of them to go. */
  lemma OneIncrement(s: State, k: nat) returns (t: State)
    requires 0 < k && s.programCounter + k <= |s.programCode| && InRange(s.tape)
    requires s.programCode[s.programCounter] == '+'
    requires s.tape.cells[s.tape.pointer] + k <= 255
    ensures InRange(t.tape) && t.tape.cells[t.tape.pointer] + (k - 1) <= 255
    ensures t.programCounter == s.programCounter + 1 && t.programCode == s.programCode
    ensures AfterIncrements(t, k - 1) == AfterIncrements(s, k)
    ensures Execution(s).outcome == Execution(t).outcome && Execution(s).final == Execution(t).final
  {
    var p, v := s.tape.pointer, s.tape.cells[s.tape.pointer];
    t := Advance(s, Increment);
    assert t.tape.cells[p := v + 1 + (k - 1)] == s.tape.cells[p := v + k];
  }

  /** The state k places further on, with k added to the current cell. */
  function AfterIncrements(s: State, k: nat): State
    requires InRange(s.tape) && s.tape.cells[s.tape.pointer] + k <= 255
  {
    var p := s.tape.pointer;
    s.(tape := s.tape.(cells := s.tape.cells[p := s.tape.cells[p] + k]), programCounter := s.programCounter + k)
  }

  /** The first |prefix| characters of code are those of prefix. */
  predicate StartsWith(code: string, prefix: string) {
    |prefix| <= |code| && forall i :: 0 <= i < |prefix| ==> code[i] == prefix[i]
  }

  /**
   * A program starting with k '+' (at most 255), then "[>+", panics with an
   * overflow on the second '+' after the bracket: the '+' put k in cell 0, the
   * bracket does nothing, '>' reaches cell 1, which holds 255, and '+'
   * overflows it.
   */
  lemma IncrementsThenSecondCellOverflows(code: string, k: nat)
    requires k <= 255 && k + 3 <= |code|
    requires forall i :: 0 <= i < k ==> code[i] == '+'
    requires code[k] == '[' && code[k + 1] == '>' && code[k + 2] == '+'
    ensures Execution(Loaded(code)).outcome == Panicked(AddOverflow)
    ensures Execution(Loaded(code)).final.programCounter == k + 2
    ensures Execution(Loaded(code)).final.tape == TapeValue([k, 255], 1)
  {
    var s := Loaded(code);
    IncrementPrefix(s, k);
    s := AfterIncrements(s, k);
    assert s.tape == TapeValue([k, 255], 0);
    s := Advance(s, OpenLoop);
    MoveThenIncrementOverflows(s);
  }

  /** A program starting "++++++++[>+" panics with an overflow on its eleventh character, with 8 in cell 0. */
  lemma EightIncrementsThenSecondCellOverflows(code: string)
    requires StartsWith(code, "++++++++[>+")
    ensures Execution(Loaded(code)).outcome == Panicked(AddOverflow)
    ensures Execution(Loaded(code)).final.programCounter == 10
    ensures Execution(Loaded(code)).final.tape == TapeValue([8, 255], 1)
  {
    forall i | 0 <= i < 11
      ensures code[i] == "++++++++[>+"[i]
    {
    }
    IncrementsThenSecondCellOverflows(code, 8);
  }

  /**
   * A program starting "+[->+" panics with an overflow on its fifth
   * character: '+' and '-' leave 0 in cell 0, the bracket does nothing, and
   * the '+' after '>' overflows cell 1.
   */
  lemma IncrementDecrementThenSecondCellOverflows(code: string)
    requires StartsWith(code, "+[->+")
    ensures Execution(Loaded(code)).outcome == Panicked(AddOverflow)
    ensures Execution(Loaded(code)).final.programCounter == 4
    ensures Execution(Loaded(code)).final.tape == TapeValue([0, 255], 1)
  {
    var s := Loaded(code);
    s := Advance(s, Increment);
    s := Advance(s, OpenLoop);
    s := Advance(s, Decrement);
    assert s.tape == TapeValue([0, 255], 0);
    MoveThenIncrementOverflows(s);
  }

  /**
   * A program starting "+>+" panics with an overflow on its third character: the '+' after '>' overflows cell 1.
   */
  lemma IncrementThenSecondCellOverflows(code: string)
    requires StartsWith(code, "+>+")
    ensures Execution(Loaded(code)).outcome == Panicked(AddOverflow)
    ensures Execution(Loaded(code)).final.programCounter == 2
    ensures Execution(Loaded(code)).final.tape == TapeValue([1, 255], 1)
  {
    var s := Advance(Loaded(code), Increment);
    assert s.tape == TapeValue([1, 255], 0);
    MoveThenIncrementOverflows(s);
  }

  /** When the current operation is op and does not panic, the run goes on from the state after op. */
  lemma Advance(s: State, op: Operation) returns (t: State)
    requires s.programCounter < |s.programCode| && Current(s) == op && PanicOf(op, s.tape) == None
    ensures t == s.(tape := Dispatch(op, s.tape), programCounter := s.programCounter + 1)
    ensures Execution(s).outcome == Execution(t).outcome && Execution(s).final == Execution(t).final
  {
    t := Transition(s).next;
  }

  /**
   * With the pointer at cell 0 of the two-cell tape, ">+" overflows cell 1,
   * which still holds the 255 it was built with.
   */
  lemma MoveThenIncrementOverflows(s: State)
    requires s.programCounter + 2 <= |s.programCode|
    requires s.programCode[s.programCounter] == '>' && s.programCode[s.programCounter + 1] == '+'
    requires |s.tape.cells| == 2 && s.tape.pointer == 0 && s.tape.cells[1] == 255
    ensures Execution(s) == RunResult(Panicked(AddOverflow), s.(tape := s.tape.(pointer := 1), programCounter := s.programCounter + 1), 1)
  {
    var t := Advance(s, MoveRight);
    assert Current(t) == Increment;
  }

  /** A '>' then '+' after construction always overflows: the second cell is hard-wired to 255. */
  lemma SecondCellOverflows(p: string)
    requires |p| >= 2 && p[0] == '>' && p[1] == '+'
    ensures Execution(Loaded(p)).outcome == Panicked(AddOverflow)
    ensures Execution(Loaded(p)).final.programCounter == 1
    ensures Execution(Loaded(p)).final.tape == TapeValue([0, 255], 1)
  {
    var s := Loaded(p);
    assert Current(s) == MoveRight;
    var t := Transition(s).next;
    assert Current(t) == Increment;
  }

  /** A '>' '>' then '+' or '-' after construction indexes past the two-cell vector. */
  lemma ThirdCellIsOutOfBounds(p: string)
    requires |p| >= 3 && p[0] == '>' && p[1] == '>' && p[2] in "+-"
    ensures Execution(Loaded(p)).outcome == Panicked(IndexOutOfBounds)
    ensures Execution(Loaded(p)).final.programCounter == 2
    ensures Execution(Loaded(p)).final.tape == TapeValue([0, 255], 2)
  {
    var s0 := Loaded(p);
    assert Current(s0) == MoveRight;
    StepIntoRun(s0);
    var s1 := Transition(s0).next;
    assert Current(s1) == MoveRight;
    StepIntoRun(s1);
    var s2 := Transition(s1).next;
    assert s2.tape == TapeValue([0, 255], 2);
    assert Current(s2) in {Increment, Decrement};
  }
}
