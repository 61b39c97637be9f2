/** The interpreter `run` of bf.c:36-125 as an object: the tape and the
    loop-start stack are arrays updated in place, and `Step` is one turn of
    the dispatch loop.  Each method is proved against the pure state
    machine of module Semantics. */
module Interpreter {
  import opened Semantics

  class Machine {
    const program: seq<char>
    /** `unsigned char mem[MEM_LENGTH]` (bf.c:42). */
    const mem: array<byte>
    /** `unsigned int loop[LOOP_DEPTH]` (bf.c:50). */
    const loop: array<nat>
    var pp: nat
    var mp: nat
    var lp: nat
    var input: seq<int>
    var output: seq<byte>

    ghost predicate Valid()
      reads this
    {
      mem.Length == MEM_LENGTH && loop.Length == LOOP_DEPTH &&
      mp < MEM_LENGTH && lp < LOOP_DEPTH
    }

    /** The abstract state: only the active slots `loop[0..lp)` count. */
    ghost function State(): (s: Semantics.State)
      reads this, mem, loop
      requires Valid()
      ensures Wf(s)
    {
      Semantics.State(pp, mem[..], mp, loop[..lp], input, output)
    }

    /** The locals of `run` as initialised at bf.c:39-52. */
    constructor (program: seq<char>, input: seq<int>)
      ensures Valid() && fresh(mem) && fresh(loop)
      ensures this.program == program && State() == Init(input)
    {
      this.program := program;
      mem := new byte[MEM_LENGTH](_ => 0);
      loop := new nat[LOOP_DEPTH](_ => 0);
      pp, mp, lp := 0, 0, 0;
      this.input, output := input, [];
    }

    /** One turn of the `while` loop of bf.c:55-122: halts on the
        terminator, otherwise dispatches on the instruction (bf.c:59-118)
        and advances `pp` (bf.c:121).  Each failed `assert` of `run`
        becomes a fault that leaves the state unchanged. */
    method Step() returns (status: Status)
      requires Valid()
      modifies this`pp, this`mp, this`lp, this`input, this`output, mem, loop
      ensures Valid()
      ensures Outcome(status, State()) == Semantics.Step(program, old(State()))
    {
      var c := At(program, pp);
      if c == '\0' {
        return Halted;
      }
      if c == '>' {
        if mp >= MEM_LENGTH - 1 {
          return Faulted(MoveRightAtEnd);
        }
        mp := mp + 1;
      } else if c == '<' {
        if mp == 0 {
          return Faulted(MoveLeftAtStart);
        }
        mp := mp - 1;
      } else if c == '+' {
        mem[mp] := (mem[mp] as int + 1) % 256;
      } else if c == '-' {
        mem[mp] := (mem[mp] as int - 1) % 256;
      } else if c == '.' {
        output := output + [mem[mp]];
      } else if c == ',' {
        if |input| == 0 {
          mem[mp] := ToByte(EOF);
        } else {
          mem[mp] := ToByte(input[0]);
          input := input[1..];
        }
      } else if c == '[' {
        if mem[mp] != 0 {
          if lp >= LOOP_DEPTH - 1 {
            return Faulted(TooManyOpenLoops);
          }
          loop[lp] := pp;
          lp := lp + 1;
        } else {
          // skip forward to the first `]` or the terminator
          var j := pp;
          while j < |program| && program[j] != ']' && program[j] != '\0'
            invariant pp <= j && (j <= |program| || j == pp)
            invariant ScanEnd(program, j) == ScanEnd(program, pp)
            decreases |program| - j
          {
            j := j + 1;
          }
          if At(program, j) == '\0' {
            return Faulted(NoClosingBracket);
          }
          pp := j + 1;
        }
      } else if c == ']' {
        if lp == 0 {
          return Faulted(CloseWithoutOpen);
        }
        if mem[mp] != 0 {
          pp := loop[lp - 1];
        } else {
          loop[lp] := 0;
          lp := lp - 1;
        }
      }
      pp := pp + 1;
      status := Running;
    }

    /** Up to `fuel` turns of the dispatch loop, stopping when a step halts
        or faults. */
    method Execute(fuel: nat) returns (status: Status)
      requires Valid()
      modifies this`pp, this`mp, this`lp, this`input, this`output, mem, loop
      ensures Valid()
      ensures Outcome(status, State()) == Semantics.Run(program, old(State()), fuel)
    {
      status := Running;
      var i := 0;
      while i < fuel && status == Running
        invariant Valid() && i <= fuel
        invariant status == Running ==>
          Semantics.Run(program, old(State()), fuel) == Semantics.Run(program, State(), fuel - i)
        invariant status != Running ==>
          Outcome(status, State()) == Semantics.Run(program, old(State()), fuel)
      {
        status := Step();
        i := i + 1;
      }
    }
  }

  /** `run(program)` of bf.c:36-125 with at most `fuel` instructions and
      `input` as the successive results of `getchar`.  A Halted status is
      the `return 0` of bf.c:124; a Faulted one is the abort of a failed
      `assert`. */
  method RunProgram(program: seq<char>, input: seq<int>, fuel: nat) returns (status: Status, output: seq<byte>)
    ensures status == Run(program, Init(input), fuel).status
    ensures output == Run(program, Init(input), fuel).next.output
  {
    var m := new Machine(program, input);
    status := m.Execute(fuel);
    output := m.output;
  }
}
