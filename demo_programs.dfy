/**
 * What the demonstration programs of the repository's entry point, and a
 * reload of a program on one interpreter, do on the interpreter as it is
 * written.
 */
module DemoPrograms {
  import opened Decoder
  import opened Tape
  import opened Machine
  import opened MachineProperties

  /** Running "+" and then "++" on one interpreter leaves 2 in cell 0: the first '+' of "++" is never run. */
  lemma ReloadExample()
    ensures var first := Execution(Loaded("+")).final;
      var second := Execution(first.(programCode := "++"));
      && second.outcome == Halted
      && second.final.tape == TapeValue([2, 255], 0)
      && second.steps == 1
  {
    RunOfIncrements(Loaded("+"));
    var first := Execution(Loaded("+")).final;
    assert first.tape == TapeValue([1, 255], 0);
    RunOfIncrements(first.(programCode := "++"));
  }

  /** The "just 20" demonstration program: twenty '+' leave 20 in cell 0. */
  lemma TwentyIncrements(code: string)
    requires code == "++++++++++++++++++++"
    ensures Execution(Loaded(code)).outcome == Halted
    ensures Execution(Loaded(code)).final.tape == TapeValue([20, 255], 0)
  {
    RunOfIncrements(Loaded(code));
  }

  /** The "panic tests" demonstration program "-[-]" panics on its first '-', cell 0 holding 0. */
  lemma DecrementOfZeroPanics()
    ensures Execution(Loaded("-[-]")).outcome == Panicked(SubtractOverflow)
    ensures Execution(Loaded("-[-]")).final == Loaded("-[-]")
  {
    assert Current(Loaded("-[-]")) == Decrement;
  }

  /**
   * "+++[>++<-]" panics with an overflow on its fifth character: the loop
   * bracket does nothing, '>' reaches cell 1, which holds 255, and '+' overflows it.
   */
  lemma LoopDemoOverflowsSecondCell(code: string)
    requires code == "+++[>+" + "+<-]"
    ensures Execution(Loaded(code)).outcome == Panicked(AddOverflow)
    ensures Execution(Loaded(code)).final.programCounter == 5
    ensures Execution(Loaded(code)).final.tape == TapeValue([3, 255], 1)
  {
    forall i | 0 <= i < 6
      ensures code[i] == "+++[>+"[i]
    {
    }
    IncrementsThenSecondCellOverflows(code, 3);
  }

  /** The Hello World demonstration program starts "++++++++[>+". */
  lemma HelloWorldOverflowsSecondCell(code: string)
    requires code == "++++++++[>+" + "+++[>++>+++>+++>+<<<<-]>+>+>->>+[<]<-]>>.>---.+++++++..+++.>>.<-.<.+++.------.--------.>>+.>++."
    ensures Execution(Loaded(code)).outcome == Panicked(AddOverflow)
    ensures Execution(Loaded(code)).final.programCounter == 10
    ensures Execution(Loaded(code)).final.tape == TapeValue([8, 255], 1)
  {
    EightIncrementsThenSecondCellOverflows(code);
  }

  /** The demonstration program "+[->++++[-->++++<]]" starts "+[->+". */
  lemma NestedLoopDemoOverflowsSecondCell(code: string)
    requires code == "+[->+" + "+++[-->++++<]]"
    ensures Execution(Loaded(code)).outcome == Panicked(AddOverflow)
    ensures Execution(Loaded(code)).final.programCounter == 4
    ensures Execution(Loaded(code)).final.tape == TapeValue([0, 255], 1)
  {
    IncrementDecrementThenSecondCellOverflows(code);
  }

  /** The demonstration program "+>++>+++>++++---<--<->>>++++++++++" starts "+>+". */
  lemma CellFillDemoOverflowsSecondCell(code: string)
    requires code == "+>+" + "+>+++>++++---<--<->>>++++++++++"
    ensures Execution(Loaded(code)).outcome == Panicked(AddOverflow)
    ensures Execution(Loaded(code)).final.programCounter == 2
    ensures Execution(Loaded(code)).final.tape == TapeValue([1, 255], 1)
  {
    IncrementThenSecondCellOverflows(code);
  }

  /** The demonstration program that is meant to print 0x48 starts ">+". */
  lemma LetterDemoOverflowsSecondCell(code: string)
    requires code == ">+" + "++++++++[<++++++++>-]<."
    ensures Execution(Loaded(code)).outcome == Panicked(AddOverflow)
    ensures Execution(Loaded(code)).final.programCounter == 1
    ensures Execution(Loaded(code)).final.tape == TapeValue([0, 255], 1)
  {
    SecondCellOverflows(code);
  }
}
