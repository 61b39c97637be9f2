# A verified model of the bf.c Brainfuck interpreter

This project models `run` from bf.c, a Brainfuck interpreter. `run` executes a
NUL-terminated program string on a tape of `MEM_LENGTH` = 30000 unsigned
bytes:

- a cursor `mp` picks a cell of the tape;
- a program counter `pp` picks the current instruction;
- a fixed array of `LOOP_DEPTH` = 100 slots (`loop`, filled up to `lp`) holds
  the start of every open loop.

The eight commands are `> < + - . , [ ]`. Every other character is ignored.
Each `assert` of `run` is a distinct fault: the cursor leaving the tape on
either side, too many open loops, a skip that runs into the terminator, and a
`]` with no loop open.

The comment at the head of bf.c (bf.c:19-20) says that `[` on a zero byte
jumps "past the matching ]" and that `]` jumps back "to the matching [". The
code departs from that comment in the skip, and it allows one loop fewer than
`LOOP_DEPTH` suggests (bf.c:86-114). The model does what the code does:

- **The skip.** A `[` on a zero cell scans forward to the FIRST `]`, whatever
  the nesting, not to the matching one (Samples.SkipIgnoresNesting). It then
  advances `pp` twice, so execution resumes two past that `]` and the
  instruction right after it never runs (Samples.SkipPastNext).
- **The loop-back.** A `]` on a nonzero cell sets `pp` to the saved start and
  advances once. Execution resumes just after the `[`, without testing it
  again and without popping it. While the saved start is the `[` that
  matches this `]`, that is the effect the comment describes. A skip can
  break the pairing: in `+[>[][+]]` the skip from index 3 stops at index 4
  and resumes at index 6, so the `[` at index 5 is never pushed, and the `]`
  at index 7 jumps back to index 2, just after the `[` at index 1, rather
  than to its match at index 5 (Samples.LoopBackAfterSkip).
- **The depth limit.** The push asserts `lp < LOOP_DEPTH - 1`, so at most 99
  loops can be open at once, not 100 (Samples.TooDeep).

bf.c has no bracket map and no upfront balance check. A `[` on a zero cell
rescans the string every time (bf.c:95-98). An unmatched bracket is
caught only in two cases, when it is reached. A `]` met with no loop open
fails the assert at bf.c:105. A `[` on a zero cell with no `]` after it
fails the assert at bf.c:99. A `[` with no `]` that is entered on a
nonzero cell is never caught. It stays on the stack, and the run halts
normally at the terminator (Samples.UnclosedHalts). The model does the
same. On exhausted input the code stores
`(unsigned char)EOF`, that is 255, and does not fault; the model does the
same.

The project has three layers:

- **`Semantics`** (semantics.dfy) is the interpreter as a pure state machine.
  A `State` holds `pp`, the tape as a sequence of bytes, `mp`, the open loop
  starts and the input and output streams. `Step` is one turn of the dispatch
  loop and `Run` iterates it under a fuel bound.
- **`Interpreter`** (interpreter.dfy) is the same code in its own form: a
  class `Machine` whose tape and loop stack are arrays updated in place. Its
  `Step` method is one turn of the dispatch loop, with the inner scanning
  `while` loop of the skip, and `Execute` is the dispatch loop itself. Every
  method is proved to produce exactly the state that the pure machine
  produces.
- **The properties.** `Properties` (properties.dfy) holds the effect of each
  instruction, the invariants every step keeps, and laws about runs of
  several steps. `Samples` (samples.dfy) holds small programs showing faults,
  the skip and the depth limit. `Programs` (programs.dfy) is a toolkit for
  following a concrete program; with it, `Countdown` (countdown.dfy), `Hello`
  (hello.dfy) and `Echo` (echo.dfy) prove what the three test programs of
  bf.c:26-34 write.

## Model

| member | source | states |
|---|---|---|
| Semantics.ToByte | bf.c:84 | a `getchar` result stored in a cell: EOF becomes 255, a value in 0..255 is kept |
| Semantics.Read | bf.c:84 | the byte `,` stores: 255 at end of input, the next value itself when it is a byte |
| Semantics.Rest | bf.c:84 | one `,` consumes exactly the first input value, and nothing once the input is empty |
| Semantics.ScanEnd | bf.c:95-98 | the skip scan stops at the first index at or after `pp` holding `]` or the terminator, and passes no such index before it |
| Semantics.Init | bf.c:39-52 | the start state: `pp`, `mp` and `lp` zero, all 30000 cells zero, the whole input still to read, nothing written, and the state well formed |
| Semantics.Step | bf.c:55-121 | one turn keeps the state well formed (full tape, cursor on it, at most 99 open loops); a halt or fault changes nothing; it halts exactly on the terminator |
| Semantics.Run | bf.c:55-122 | any number of turns keeps the state well formed |
| Interpreter.Machine.constructor | bf.c:39-52 | the fresh tape and loop arrays; the machine's state is `Init` |
| Interpreter.Machine.Step | bf.c:55-121 | the in-place update of `mem`, `loop`, `pp`, `mp` and `lp`, including the scan loop of the skip, yields exactly the status and state of `Semantics.Step` |
| Interpreter.Machine.Execute | bf.c:55-122 | the dispatch loop, under a fuel bound, yields exactly `Semantics.Run` |
| Interpreter.RunProgram | bf.c:36-125 | running a fresh machine gives the status and output of `Run` from `Init` |
| Properties.MoveRight | bf.c:60-64 | `>` faults if and only if the cursor is on the last cell; otherwise only `mp` and `pp` advance |
| Properties.MoveLeft | bf.c:65-69 | `<` faults if and only if the cursor is on cell 0; otherwise `mp` goes back and `pp` advances |
| Properties.Increment | bf.c:70-73 | `+` adds one to the current cell, 255 wrapping to 0; no other cell, nor `mp`, the stack, the input or the output changes |
| Properties.Decrement | bf.c:74-77 | `-` subtracts one, 0 wrapping to 255; nothing else changes |
| Properties.Output | bf.c:78-81 | `.` appends exactly the current cell to the output and changes nothing else |
| Properties.Input | bf.c:82-85 | `,` overwrites only the current cell, with the next input modulo 256 or 255 at end of input, and consumes one input value |
| Properties.OpenEnter | bf.c:86-92 | `[` on a nonzero cell faults if and only if 99 loops are open; otherwise it pushes its own index |
| Properties.OpenSkip | bf.c:93-101 | `[` on a zero cell resumes two past the first `]` after it, with tape and stack unchanged |
| Properties.OpenSkipUnclosed | bf.c:95-99 | `[` on a zero cell with no `]` after it faults |
| Properties.Close | bf.c:103-114 | `]` faults if and only if no loop is open; on a nonzero cell it resumes after the innermost `[` without popping; on a zero cell it pops it and advances |
| Properties.Ignored | bf.c:115-117 | any other character only advances `pp` |
| Properties.HaltsAtEnd | bf.c:55 | a step halts if and only if `pp` is at or past the end of the string |
| Properties.StepKeepsValid | bf.c:55-121 | one step keeps the cursor on the tape, at most 99 loops open, every open loop start on a `[`, and `pp` at most one past the end |
| Properties.RunKeepsValid | bf.c:55-122 | the same invariant after any number of steps |
| Properties.ReachableValid | bf.c:36-122 | every state reachable from the start has the cursor in 0..29999, at most 99 open loops and every saved start on a `[` |
| Properties.RunSplit | bf.c:55-122 | a + b steps are a steps followed by b more, unless the first a already stopped |
| Properties.RunStopped | bf.c:55-122 | once the loop has halted or faulted, more fuel changes nothing |
| Properties.Increments | bf.c:70-73 | k consecutive `+` add k to the current cell modulo 256 in k steps |
| Properties.Decrements | bf.c:74-77 | k consecutive `-` subtract k modulo 256 |
| Properties.FullTurn | bf.c:70-73 | 256 consecutive `+` leave the tape as it was: the wrap-around law |
| Properties.MovesRight | bf.c:60-64 | k consecutive `>` move the cursor k cells right while that stays on the tape |
| Properties.MovesLeft | bf.c:65-69 | k consecutive `<` move it k cells left while that stays on the tape |
| Properties.Opens | bf.c:86-92 | k consecutive `[` on a nonzero cell push their k indices while fewer than 100 loops result |
| Properties.Closes | bf.c:103-114 | k consecutive `]` on a zero cell pop k loops |
| Samples.SkipsNoOps | bf.c:115-117 | a program without commands runs to its end, changing only `pp` |
| Samples.OnlyNoOps | bf.c:115-124 | such a program halts with an unchanged tape and no output |
| Samples.LeftFirst | bf.c:65-69 | a program starting with `<` faults at once, before anything changes |
| Samples.CloseFirst | bf.c:103-105 | a program starting with `]` faults at once |
| Samples.ThreeDot | bf.c:70-81 | `+++.` halts having written exactly the byte 3 |
| Samples.ClearLoop | bf.c:103-114 | the loop `[-]` counts a nonzero cell down to zero in two steps per unit and pops its loop |
| Samples.ClearDot | bf.c:86-114 | `+++++[-].` halts having written exactly the byte 0 |
| Samples.SkipPastNext | bf.c:93-101 | `[]+.` writes 0: the `+` right after a skipped loop never runs |
| Samples.SkipIgnoresNesting | bf.c:95-105 | `[[]+].` faults with no loop open: the skip stops at the inner `]` |
| Samples.LoopBackAfterSkip | bf.c:95-110 | in `+[>[][+]]` the skip leaves the `[` at index 5 unpushed, so the `]` at index 7 resumes at index 2, after the `[` at index 1, with only index 1 open |
| Samples.UnclosedHalts | bf.c:55-92 | `+[` halts normally with index 1 still open and nothing written: an unclosed `[` entered on a nonzero cell trips no assert |
| Samples.OpenNest | bf.c:86-92 | `+` and n <= 99 brackets leave n loops open, in order |
| Samples.DeepestNesting | bf.c:86-114 | 99 nested loops open, close and run to the end |
| Samples.TooDeep | bf.c:90 | the 100th nested `[` faults |
| Countdown.CopyLoop | bf.c:31 | the loop `[>+>+<<-]` of test_2 entered with n in cell 0 adds n to cells 1 and 2 and clears cell 0 |
| Countdown.PrintLoop | bf.c:32 | the loop `[>>.-<.<-]` of test_2 writes the digits n-1 down to 0, each followed by a space |
| Countdown.Test2Output | bf.c:30-32 | test_2 halts having written exactly "9 8 7 6 5 4 3 2 1 0 \n", whatever its input |
| Hello.InnerLoop | bf.c:27 | the inner loop of test_1 entered with m adds 2m, 3m, 3m and m to cells 2 to 5 and clears cell 1 |
| Hello.ScanLoop | bf.c:27 | the loop `[<]` of test_1 moves left over nonzero cells to the zero cell 1 |
| Hello.OuterLoop | bf.c:27 | the eight turns of the outer loop of test_1 leave 72, 104, 88, 32 and 8 in cells 2 to 6 |
| Hello.HelloText | bf.c:27-28 | the output phase of test_1 writes the bytes of "Hello World!\n" |
| Hello.Test1Output | bf.c:26-28 | test_1 halts having written exactly "Hello World!\n", whatever its input |
| Echo.Falling | bf.c:34 | what `[.-]` writes from n: n bytes, counting down from n to 1 |
| Echo.CountLoop | bf.c:34 | the loop `[.-]` of test_3 entered with n writes n, n-1, ..., 1 and clears its cell |
| Echo.Test3Output | bf.c:34 | test_3 consumes exactly three inputs x, y and z, writes x+1, y-1, z+2 (modulo 256) twice, then 3, 2, 1 and a newline, and halts |
| Echo.Test3NoInput | bf.c:34 | with no input test_3 writes 0, 254, 1, 0, 254, 1, 3, 2, 1, 10: every `,` stored 255 |
| Echo.Test3Abc | bf.c:34 | on "abc" test_3 writes "baebae", then 3, 2, 1 and a newline |

## Left out

- `main` (bf.c:127-134) only runs the three test programs in turn. It is not modelled; each test program has its own lemma instead.
- `putchar` and `getchar` (bf.c:80, bf.c:84) are not modelled as streams. The output is a sequence that `.` appends to. The input is a sequence of the values successive `getchar` calls return; once it is empty, every call returns EOF (-1). Blocking, buffering and platform stream behaviour are not modelled.
- The commented-out debug `printf` (bf.c:56-57) does nothing in the code, so it is not modelled.
- Semantics.Run: steps at most `fuel` times and reports Running when the fuel runs out, so a program that loops forever is modelled only up to any finite number of steps.
- A failed `assert` aborts the C process. Here it is a `Faulted` status naming the assert, and it leaves the state as it was. Builds with `NDEBUG`, where the asserts vanish and the code runs into undefined behaviour, are not modelled.
- A skip whose first `]` is the last character of the program leaves `pp` one past the terminator. C then reads outside the string, which is undefined; the model reads the terminator there and halts.
- `pp`, `mp` and `lp` are `unsigned int` in C (bf.c:39-52). The model uses unbounded naturals. For `mp` and `lp` this loses nothing: `mp` stays below 30000 and `lp` below 100 (Properties.ReachableValid). `pp` stays at most one past the end of the program (Properties.StepKeepsValid), so it cannot wrap on a program shorter than `UINT_MAX` characters. On a longer program, the `pp++` of the scan (bf.c:97) or of every step (bf.c:121) can wrap `pp` to 0, and `run` then reads `program[0]` again. The model does not capture this wrap; it goes on to `program[UINT_MAX + 1]`.
- The store `loop[lp] = 0` when popping (bf.c:111) is done by Interpreter.Machine.Step. It writes a slot above the new top that is never read before it is overwritten, so the pure `State` keeps only the active slots `loop[0..lp)`.
- A `'\0'` inside the program string ends the C string there. The model halts at it in the same way; the lemmas that need a program without one say so (`Properties.CString`).
- The skip does not go past the matching `]` as the comment at bf.c:19 says, and the code stops at 99 open loops rather than 100. The model follows the code, not the comment; Samples.SkipPastNext, Samples.SkipIgnoresNesting and Samples.TooDeep show each departure.
