/** The Brainfuck interpreter of bf.c as a pure state machine.
    `Step` is one turn of the dispatch loop in `run` (bf.c:55-122), `Run`
    iterates it under a fuel bound.  The program is the sequence of
    characters of the C string; reading at or past its end yields the
    terminator '\0', exactly as `program[pp]` does in C. */
module Semantics {

  /** Size of the tape `mem` (bf.c:23). */
  const MEM_LENGTH: nat := 30000
  /** Number of slots of the loop-start array `loop` (bf.c:24). */
  const LOOP_DEPTH: nat := 100
  /** What `getchar` returns at end of input. */
  const EOF: int := -1

  /** An `unsigned char`. Wrap-around is written out where bytes change. */
  type byte = b: int | 0 <= b < 256

  /** One reason per `assert` of `run`. */
  datatype Fault =
    | MoveRightAtEnd     // bf.c:62, `>` with the cursor on the last cell
    | MoveLeftAtStart    // bf.c:67, `<` with the cursor on cell 0
    | TooManyOpenLoops   // bf.c:90, `[` with 99 loops already open
    | NoClosingBracket   // bf.c:99, skipping `[` ran into the terminator
    | CloseWithoutOpen   // bf.c:105, `]` with no open loop

  datatype Status = Running | Halted | Faulted(reason: Fault)

  /** The variables of `run`.  `loop` holds the active slots `loop[0..lp)`
      of the C array, so `lp` is `|loop|`; the slots at and above `lp` are
      never read again before being overwritten and are not part of the
      state. */
  datatype State = State(
    pp: nat,             // index of the current instruction
    mem: seq<byte>,      // the tape
    mp: nat,             // the cursor
    loop: seq<nat>,      // open loop starts, innermost last
    input: seq<int>,     // what the remaining `getchar` calls return
    output: seq<byte>)   // what `putchar` has written so far

  /** Result of one step: a status and the state after it.  A step that
      halts or faults leaves the state as it was. */
  datatype Outcome = Outcome(status: Status, next: State)

  /** The shape every reachable state has: a full tape, the cursor on it,
      and at most LOOP_DEPTH - 1 open loops. */
  ghost predicate Wf(s: State) {
    |s.mem| == MEM_LENGTH && s.mp < MEM_LENGTH && |s.loop| < LOOP_DEPTH
  }

  /** Wf, and every saved loop start is the index of a `[` of the program,
      and pp is at most one past the terminator. */
  ghost predicate Valid(program: seq<char>, s: State) {
    Wf(s) && s.pp <= |program| + 1 &&
    forall i :: 0 <= i < |s.loop| ==> s.loop[i] < |program| && program[s.loop[i]] == '['
  }

  /** `program[i]` of the C string: the terminator at or past the end. */
  function At(program: seq<char>, i: nat): char {
    if i < |program| then program[i] else '\0'
  }

  /** Conversion of a `getchar` result to `unsigned char` (modulo 256, so
      EOF becomes 255). */
  function ToByte(v: int): (b: byte)
    ensures v == EOF ==> b == 255
    ensures 0 <= v < 256 ==> b == v
  {
    v % 256
  }

  /** The byte `,` stores: the next `getchar` result, 255 once the input
      is exhausted. */
  function Read(input: seq<int>): (b: byte)
    ensures input == [] ==> b == 255
    ensures input != [] && 0 <= input[0] < 256 ==> b == input[0]
  {
    if input == [] then ToByte(EOF) else ToByte(input[0])
  }

  /** What is left to read after one `,`. */
  function Rest(input: seq<int>): (r: seq<int>)
    ensures input == [] ==> r == []
    ensures input != [] ==> [input[0]] + r == input
  {
    if input == [] then [] else input[1..]
  }

  /** Where the scan over a zero-byte `[` stops (bf.c:95-98): the first
      index at or after `from` holding `]` or the terminator. */
  function ScanEnd(program: seq<char>, from: nat): (k: nat)
    ensures from <= k && (k <= |program| || k == from)
    ensures At(program, k) == ']' || At(program, k) == '\0'
    ensures forall j :: from <= j < k ==> At(program, j) != ']' && At(program, j) != '\0'
    decreases |program| - from
  {
    if At(program, from) == ']' || At(program, from) == '\0' then from
    else ScanEnd(program, from + 1)
  }

  /** The state at the start of `run`: everything zero, nothing written. */
  function Init(input: seq<int>): (s: State)
    ensures Wf(s) && s.pp == 0 && s.mp == 0 && s.loop == [] && s.input == input && s.output == []
    ensures forall i :: 0 <= i < MEM_LENGTH ==> s.mem[i] == 0
  {
    State(0, seq(MEM_LENGTH, _ => 0), 0, [], input, [])
  }

  /** One turn of the dispatch loop, including the final `pp++`
      (bf.c:121) of every case that does not stop the run. */
  function Step(program: seq<char>, s: State): (r: Outcome)
    requires Wf(s)
    ensures Wf(r.next)
    ensures r.status != Running ==> r.next == s
    ensures r.status == Halted <==> At(program, s.pp) == '\0'
  {
    match At(program, s.pp)
    case '\0' => Outcome(Halted, s)
    case '>' =>
      if s.mp < MEM_LENGTH - 1 then Outcome(Running, s.(mp := s.mp + 1, pp := s.pp + 1))
      else Outcome(Faulted(MoveRightAtEnd), s)
    case '<' =>
      if s.mp > 0 then Outcome(Running, s.(mp := s.mp - 1, pp := s.pp + 1))
      else Outcome(Faulted(MoveLeftAtStart), s)
    case '+' =>
      Outcome(Running, s.(mem := s.mem[s.mp := (s.mem[s.mp] as int + 1) % 256], pp := s.pp + 1))
    case '-' =>
      Outcome(Running, s.(mem := s.mem[s.mp := (s.mem[s.mp] as int - 1) % 256], pp := s.pp + 1))
    case '.' =>
      Outcome(Running, s.(output := s.output + [s.mem[s.mp]], pp := s.pp + 1))
    case ',' =>
      Outcome(Running, s.(mem := s.mem[s.mp := Read(s.input)], input := Rest(s.input), pp := s.pp + 1))
    case '[' =>
      if s.mem[s.mp] != 0 then
        if |s.loop| < LOOP_DEPTH - 1 then Outcome(Running, s.(loop := s.loop + [s.pp], pp := s.pp + 1))
        else Outcome(Faulted(TooManyOpenLoops), s)
      else
        var k := ScanEnd(program, s.pp);
        if At(program, k) == '\0' then Outcome(Faulted(NoClosingBracket), s)
        else Outcome(Running, s.(pp := k + 2))
    case ']' =>
      if |s.loop| == 0 then Outcome(Faulted(CloseWithoutOpen), s)
      else if s.mem[s.mp] != 0 then Outcome(Running, s.(pp := s.loop[|s.loop| - 1] + 1))
      else Outcome(Running, s.(loop := s.loop[..|s.loop| - 1], pp := s.pp + 1))
    case _ => Outcome(Running, s.(pp := s.pp + 1))
  }

  /** At most `fuel` steps from `s`; stops at the first step that halts or
      faults.  A result with status Running means the fuel ran out. */
  function Run(program: seq<char>, s: State, fuel: nat): (r: Outcome)
    requires Wf(s)
    ensures Wf(r.next)
    decreases fuel
  {
    if fuel == 0 then Outcome(Running, s)
    else
      var o := Step(program, s);
      if o.status == Running then Run(program, o.next, fuel - 1) else o
  }
}
