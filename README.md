# rust-brainfuck: a model of the interpreter draft

This project models the Brainfuck interpreter of `src/brainfuck.rs` as it is
written, and proves what it does. The draft has three parts:

- **Instruction decoder** (`decoder.dfy`, module `Decoder`). Each character
  decodes to one of nine operations. The eight characters `<` `>` `+` `-` `.`
  `,` `[` `]` have their own operations. Every other character is `Skip`.
- **Byte tape** (`tape.dfy`, module `Tape`). The class `Memory` holds a vector
  of `u8` cells and a memory pointer. Its methods move the pointer, change the
  current cell and read it. Each method is proved to compute a pure function
  on the tape's value `TapeValue`.
- **Interpreter** (`machine.dfy`, module `Machine`). The class `Interpreter`
  holds the tape, the program counter and the program text. `Step` fetches,
  decodes and dispatches one character and advances the counter. `Run` repeats
  `Step` until it does not continue. `Transition` (one step) and `Execution`
  (a whole run) are their value-level meanings. `machine_properties.dfy`
  (module `MachineProperties`) proves properties of whole runs.
- **Demonstration programs** (`demo_programs.dfy`, module `DemoPrograms`).
  The programs listed in `src/main.rs`, each stated as the exact text and
  run from a freshly loaded interpreter.

The model follows the code, not an idealised Brainfuck:

- The tape constructor ignores its size argument. It always builds the two
  cells `[0, 255]` with the pointer at 0.
- `move_left` stops at cell 0. `move_right` has no bound, so the pointer can
  move past the end of the vector.
- `increment` and `decrement` are plain `u8` arithmetic. They panic on
  overflow (the debug-build behaviour). An index past the end of the vector
  panics too.
- `[` and `]`, `.` and `,` are empty arms of the dispatch: they only advance
  the counter.
- `load_program` replaces the program text. It does not reset the counter or
  the tape.

Rust panics are modelled in two ways. The `Memory` methods that would panic
require the conditions under which they do not (`CanIncrement`,
`CanDecrement`, `InRange`). `Interpreter.Step` checks those conditions before
it dispatches. When one fails it returns `Panicked(reason)` and leaves the
state as it was, because the panic happens before the counter moves. `Run`
returns the outcome of its last step, `Halted` or `Panicked(reason)`; in Rust,
`run` returns nothing and a panic unwinds.

The draft is not a complete Brainfuck interpreter. Its tape does not wrap,
its cells do not wrap, `[` and `]` do nothing, and loading a program does not
reset the counter. One consequence, proved below: every demonstration program
of `src/main.rs` except "just 20" panics on this interpreter. Any `+` on
cell 1 overflows its hard-wired 255, and cell 2 is out of bounds.

## Model

| member | source | states |
|---|---|---|
| `Decoder.FromChar` | src/brainfuck.rs:14-26 | each of `<` `>` `+` `-` `.` `,` `[` `]` decodes to its own operation, in both directions |
| `Decoder.SkipExactlyOutsideCommands` | src/brainfuck.rs:14-26 | a character decodes to Skip exactly when it is none of the eight command characters |
| `Decoder.Symbol` | src/brainfuck.rs:14-26 | the character of a non-Skip operation is one of the eight command characters |
| `Decoder.FromCharOfSymbol` | src/brainfuck.rs:14-26 | decoding the character of an operation gives back that operation |
| `Decoder.SymbolOfFromChar` | src/brainfuck.rs:14-26 | a command character does not decode to Skip, and it is the character of the operation it decodes to |
| `Tape.MovedLeft` | src/brainfuck.rs:63-67 | moving left decrements a positive pointer, keeps it at 0 otherwise, and leaves the cells as they are |
| `Tape.MovedRight` | src/brainfuck.rs:69-71 | moving right adds exactly 1 to the pointer, with no upper bound, and leaves the cells as they are |
| `Tape.Incremented` | src/brainfuck.rs:77-79 | given an in-range pointer and a cell below 255, only the current cell changes, by +1; the pointer and the length stay the same |
| `Tape.Decremented` | src/brainfuck.rs:73-75 | given an in-range pointer and a cell above 0, only the current cell changes, by -1; the pointer and the length stay the same |
| `Tape.MoveLeftUndoesMoveRight` | src/brainfuck.rs:63-71 | moving right and then left always gives back the same tape |
| `Tape.MoveRightUndoesMoveLeft` | src/brainfuck.rs:63-71 | moving left and then right gives back the same tape exactly when the pointer was positive |
| `Tape.DecrementUndoesIncrement` | src/brainfuck.rs:73-79 | after an increment that does not panic, a decrement does not panic and restores the tape |
| `Tape.IncrementUndoesDecrement` | src/brainfuck.rs:73-79 | after a decrement that does not panic, an increment does not panic and restores the tape |
| `Tape.Memory.constructor` | src/brainfuck.rs:47-58 | whatever the requested size, the vector is `[0, 255]` and the pointer is 0 |
| `Tape.Memory.MoveLeft` | src/brainfuck.rs:63-67 | the new tape value is `MovedLeft` of the old one |
| `Tape.Memory.MoveRight` | src/brainfuck.rs:69-71 | the new tape value is `MovedRight` of the old one |
| `Tape.Memory.Decrement` | src/brainfuck.rs:73-75 | callable only when the decrement does not panic; the new tape value is `Decremented` of the old one |
| `Tape.Memory.Increment` | src/brainfuck.rs:77-79 | callable only when the increment does not panic; the new tape value is `Incremented` of the old one |
| `Tape.Memory.Read` | src/brainfuck.rs:81-83 | callable only with an in-range pointer; returns the current cell and changes nothing |
| `Machine.PanicOf` | src/brainfuck.rs:73-79 | only `+` and `-` can panic: with an out-of-range pointer an index panic, else an overflow at 255 for `+` and at 0 for `-`; no panic exactly when the tape operation's precondition holds |
| `Machine.Dispatch` | src/brainfuck.rs:135-145 | no operation changes the vector's length; only `<` and `>` move the pointer; only `+` and `-` change cells, so `.` `,` `[` `]` and Skip leave the tape as it is |
| `Machine.Transition` | src/brainfuck.rs:125-150 | a step halts exactly when the counter is at or past the end, and then changes nothing; a panicking step changes nothing and reports the panic of the current operation; a continuing step adds exactly 1 to the counter, keeps the program and dispatches the decoded current character to the tape |
| `Machine.Execution` | src/brainfuck.rs:152-156 | a run always ends, with Halted or a panic, keeps the program and the vector's length, and moves the counter once per continuing step; a halting run ends with the counter at the larger of its start and the program length, after exactly the difference in steps; a panicking run ends with the counter inside the program |
| `Machine.Interpreter.constructor` | src/brainfuck.rs:104-111 | a new interpreter has the two-cell tape `[0, 255]`, counter 0 and an empty program |
| `Machine.Interpreter.LoadProgram` | src/brainfuck.rs:121-123 | the program text is replaced; the counter and the tape keep their values |
| `Machine.Interpreter.Step` | src/brainfuck.rs:125-150 | the outcome and the new state are those of `Transition` on the old state |
| `Machine.Interpreter.Run` | src/brainfuck.rs:152-156 | the loop ends, and the outcome and the final state are those of `Execution` on the old state |
| `MachineProperties.NewAndLoad` | src/brainfuck.rs:104-123 | constructing an interpreter and loading a program gives a fresh interpreter with a fresh tape `[0, 255]` at 0, counter 0 and the loaded text as its program |
| `MachineProperties.RunStopsWhereStepStops` | src/brainfuck.rs:152-156 | a run stops exactly at a state where one more step does not continue, and reports that step's outcome; a panicking run stops on an operation whose panic is the one reported |
| `MachineProperties.StepIntoRun` | src/brainfuck.rs:152-156 | when a step continues, the run ends where the run from the next state ends, one step later |
| `MachineProperties.HaltedIsFixed` | src/brainfuck.rs:126-128 | once the counter is at or past the end, a step and a run both report Halted and change nothing, however often they are repeated |
| `MachineProperties.RunOfIncrements` | src/brainfuck.rs:77-79 | n `+` on a cell holding v leave v + n in it when that is at most 255; otherwise the run panics with an overflow after 255 - v steps, with 255 in the cell |
| `MachineProperties.RunOfDecrements` | src/brainfuck.rs:73-75 | n `-` on a cell holding v leave v - n in it when n is at most v; otherwise the run panics with an underflow after v steps, with 0 in the cell |
| `MachineProperties.RunOfMoveRights` | src/brainfuck.rs:69-71 | n `>` halt with the pointer n cells further right, past the end of the vector if need be, and the cells unchanged |
| `MachineProperties.RunOfMoveLefts` | src/brainfuck.rs:63-67 | n `<` halt with the pointer n cells further left but not below 0, and the cells unchanged |
| `MachineProperties.InertRunKeepsTape` | src/brainfuck.rs:140-144 | a program rest made of `.` `,` `[` `]` and other characters runs to the end and leaves the tape as it is |
| `MachineProperties.ReloadKeepsCounter` | src/brainfuck.rs:121-123 | after a halting run, a reloaded program runs from the old counter: a program no longer than that does nothing, and otherwise only its characters from that position on run |
| `MachineProperties.IncrementPrefix` | src/brainfuck.rs:77-79 | k `+` in a row that do not overflow the current cell run as one stretch: the run ends where the run from k places further on, with k added to the cell, ends |
| `MachineProperties.OneIncrement` | src/brainfuck.rs:125-150 | the first of k `+` in a row continues, moves the counter one place and leaves a state from which k - 1 `+` reach the same point |
| `MachineProperties.Advance` | src/brainfuck.rs:125-156 | an operation that does not panic, at the counter, is dispatched to the tape and moves the counter by one, and the run goes on from there to the same end |
| `MachineProperties.MoveThenIncrementOverflows` | src/brainfuck.rs:54-57 | with the pointer at cell 0 of the two-cell tape and cell 1 still 255, `>+` moves to cell 1 and panics with an overflow after one step |
| `MachineProperties.IncrementsThenSecondCellOverflows` | src/brainfuck.rs:54-57 | a program of k `+` (k at most 255) followed by `[>+` panics with an overflow at counter k + 2, with k in cell 0 and the pointer at cell 1 |
| `MachineProperties.EightIncrementsThenSecondCellOverflows` | src/brainfuck.rs:54-57 | any program starting `++++++++[>+` panics with an overflow at counter 10, with the tape `[8, 255]` at cell 1 |
| `MachineProperties.IncrementDecrementThenSecondCellOverflows` | src/brainfuck.rs:54-57 | any program starting `+[->+` panics with an overflow at counter 4, with the tape `[0, 255]` at cell 1 |
| `MachineProperties.IncrementThenSecondCellOverflows` | src/brainfuck.rs:54-57 | any program starting `+>+` panics with an overflow at counter 2, with the tape `[1, 255]` at cell 1 |
| `MachineProperties.SecondCellOverflows` | src/brainfuck.rs:54-57 | any program starting `>+` panics with an overflow at counter 1, because cell 1 starts at 255; the commented-out Fibonacci program of src/main.rs:15 is one of them |
| `MachineProperties.ThirdCellIsOutOfBounds` | src/brainfuck.rs:69-79 | any program starting `>>+` or `>>-` panics with an index panic at counter 2, because the vector has two cells |
| `DemoPrograms.ReloadExample` | src/brainfuck.rs:121-123 | running `+` and then loading and running `++` leaves 2 in cell 0, after a single step of the second run |
| `DemoPrograms.HelloWorldOverflowsSecondCell` | src/main.rs:11 | the Hello World program panics with an overflow at counter 10, with the tape `[8, 255]` at cell 1 |
| `DemoPrograms.NestedLoopDemoOverflowsSecondCell` | src/main.rs:18 | `+[->++++[-->++++<]]` panics with an overflow at counter 4, with the tape `[0, 255]` at cell 1 |
| `DemoPrograms.CellFillDemoOverflowsSecondCell` | src/main.rs:19 | `+>++>+++>++++---<--<->>>++++++++++` panics with an overflow at counter 2, with the tape `[1, 255]` at cell 1 |
| `DemoPrograms.LoopDemoOverflowsSecondCell` | src/main.rs:20 | `+++[>++<-]` panics with an overflow at counter 5, with the tape `[3, 255]` at cell 1, instead of reaching the commented 0 and 6 |
| `DemoPrograms.LetterDemoOverflowsSecondCell` | src/main.rs:21 | `>+++++++++[<++++++++>-]<.` panics with an overflow at counter 1, with the tape `[0, 255]` at cell 1, instead of printing 0x48 |
| `DemoPrograms.TwentyIncrements` | src/main.rs:22 | the "just 20" program halts with 20 in cell 0 |
| `DemoPrograms.DecrementOfZeroPanics` | src/main.rs:24-25 | the panic-test program `-[-]` panics with an underflow on its first character and changes nothing |

## Left out

- The `println!` trace of every step (src/brainfuck.rs:132) and `print_state` (src/brainfuck.rs:158-165): console output only.
- `src/main.rs`: the entry point and its clear-screen escape. It calls `Interpreter::new(256)`, which does not match the zero-argument constructor at src/brainfuck.rs:104, so the model follows the constructor as declared. Its programs appear above as lemmas of `DemoPrograms`; the Fibonacci program of src/main.rs:15 is covered by `MachineProperties.SecondCellOverflows`, since it starts `>+`.
- The unused `vector: Vec<i32>` that `Memory::new` fills and discards (src/brainfuck.rs:48-52): it has no effect on the result.
- The traits `HandleMemory` and `HandleProgram`, and the `&mut` accessor `get_memory` (src/brainfuck.rs:113-115): the methods are plain class methods, and the tape is a field of the interpreter with no other alias.
- Loop semantics, wrap-around pointer movement and modular cell arithmetic: the code has none of them, since the loop arms are empty (src/brainfuck.rs:142-143).
- Console input and output: the `.` and `,` arms are empty (src/brainfuck.rs:140-141), so there is no channel to model.
- The release-build behaviour of `u8` arithmetic, which wraps instead of panicking: the model takes the debug-build panic reading.
- The `usize` width of the memory pointer and the program counter: both are `nat`. The counter never exceeds the length of the longest program loaded so far, or 0. The pointer grows by at most one per step, so it cannot reach `usize::MAX`.
- Recursion depth of `run` (src/brainfuck.rs:152-156): Rust's `run` calls itself once per step, so a long enough program exhausts the stack, as src/main.rs:13 anticipates ("until stack overflow"). `Machine.Interpreter.Run` is a loop with no depth limit, so the model does not capture that failure.
- `Machine.Interpreter.Run`: Rust's `run` returns nothing and unwinds on a panic. The model returns the last step's outcome instead, and a panic leaves the state as it was before the panicking step.
