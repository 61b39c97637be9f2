/** Tools for following concrete programs through `run` (bf.c:36-125):
    a state is written `M(pp, cells, mp, loop, input, out)`, where the tape
    holds `cells` followed by zeros, and each lemma moves such a state over
    one instruction or one run of equal instructions. */
module Programs {
  import opened Semantics
  import opened Properties
  import opened Samples

  // ----- tapes that are zero beyond a short prefix -----

  function Tape(cells: seq<byte>): (m: seq<byte>)
    requires |cells| <= MEM_LENGTH
    ensures |m| == MEM_LENGTH
    ensures forall i :: 0 <= i < |cells| ==> m[i] == cells[i]
    ensures forall i :: |cells| <= i < MEM_LENGTH ==> m[i] == 0
  {
    cells + seq(MEM_LENGTH - |cells|, _ => 0)
  }

  lemma TapeSet(cells: seq<byte>, i: nat, v: byte)
    requires i < |cells| <= MEM_LENGTH
    ensures Tape(cells)[i := v] == Tape(cells[i := v])
  {
  }

  function M(pp: nat, cells: seq<byte>, mp: nat, loop: seq<nat>, input: seq<int>, out: seq<byte>): State
    requires |cells| <= MEM_LENGTH
  {
    State(pp, Tape(cells), mp, loop, input, out)
  }

  /** The initial state of `run` with the first n cells in view. */
  lemma InitCells(input: seq<int>, n: nat)
    requires n <= MEM_LENGTH
    ensures Init(input) == M(0, seq(n, _ => 0), 0, [], input, [])
  {
    assert Init(input).mem == Tape(seq(n, _ => 0));
  }

  /** The bytes of an ASCII string. */
  function Ascii(s: string): (r: seq<byte>)
    requires forall i :: 0 <= i < |s| ==> s[i] as int < 256
    ensures |r| == |s| && forall i :: 0 <= i < |s| ==> r[i] == s[i] as int
  {
    seq(|s|, i requires 0 <= i < |s| => s[i] as int)
  }

  // ----- one instruction, or a run of one instruction, on cells -----

  lemma Add(program: seq<char>, pp: nat, cells: seq<byte>, mp: nat, loop: seq<nat>, input: seq<int>, out: seq<byte>, k: nat, after: seq<byte>)
    requires mp < |cells| <= MEM_LENGTH && |loop| < LOOP_DEPTH
    requires Repeats(program, pp, k, '+') && after == cells[mp := (cells[mp] as int + k) % 256]
    ensures Leads(program, M(pp, cells, mp, loop, input, out), k, M(pp + k, after, mp, loop, input, out))
  {
    Increments(program, M(pp, cells, mp, loop, input, out), k);
    TapeSet(cells, mp, (cells[mp] as int + k) % 256);
  }

  lemma Sub(program: seq<char>, pp: nat, cells: seq<byte>, mp: nat, loop: seq<nat>, input: seq<int>, out: seq<byte>, k: nat, after: seq<byte>)
    requires mp < |cells| <= MEM_LENGTH && |loop| < LOOP_DEPTH
    requires Repeats(program, pp, k, '-') && after == cells[mp := (cells[mp] as int - k) % 256]
    ensures Leads(program, M(pp, cells, mp, loop, input, out), k, M(pp + k, after, mp, loop, input, out))
  {
    Decrements(program, M(pp, cells, mp, loop, input, out), k);
    TapeSet(cells, mp, (cells[mp] as int - k) % 256);
  }

  lemma Right(program: seq<char>, pp: nat, cells: seq<byte>, mp: nat, loop: seq<nat>, input: seq<int>, out: seq<byte>, k: nat)
    requires mp + k < |cells| <= MEM_LENGTH && |loop| < LOOP_DEPTH
    requires Repeats(program, pp, k, '>')
    ensures Leads(program, M(pp, cells, mp, loop, input, out), k, M(pp + k, cells, mp + k, loop, input, out))
  {
    MovesRight(program, M(pp, cells, mp, loop, input, out), k);
  }

  lemma Left(program: seq<char>, pp: nat, cells: seq<byte>, mp: nat, loop: seq<nat>, input: seq<int>, out: seq<byte>, k: nat)
    requires k <= mp < |cells| <= MEM_LENGTH && |loop| < LOOP_DEPTH
    requires Repeats(program, pp, k, '<')
    ensures Leads(program, M(pp, cells, mp, loop, input, out), k, M(pp + k, cells, mp - k, loop, input, out))
  {
    MovesLeft(program, M(pp, cells, mp, loop, input, out), k);
  }

  lemma Put(program: seq<char>, pp: nat, cells: seq<byte>, mp: nat, loop: seq<nat>, input: seq<int>, out: seq<byte>)
    requires mp < |cells| <= MEM_LENGTH && |loop| < LOOP_DEPTH
    requires At(program, pp) == '.'
    ensures Leads(program, M(pp, cells, mp, loop, input, out), 1, M(pp + 1, cells, mp, loop, input, out + [cells[mp]]))
  {
    var s := M(pp, cells, mp, loop, input, out);
    Output(program, s);
    LeadsStep(program, s, M(pp + 1, cells, mp, loop, input, out + [cells[mp]]));
  }

  lemma Enter(program: seq<char>, pp: nat, cells: seq<byte>, mp: nat, loop: seq<nat>, input: seq<int>, out: seq<byte>)
    requires mp < |cells| <= MEM_LENGTH && |loop| < LOOP_DEPTH - 1
    requires At(program, pp) == '[' && cells[mp] != 0
    ensures Leads(program, M(pp, cells, mp, loop, input, out), 1, M(pp + 1, cells, mp, loop + [pp], input, out))
  {
    var s := M(pp, cells, mp, loop, input, out);
    OpenEnter(program, s);
    LeadsStep(program, s, M(pp + 1, cells, mp, loop + [pp], input, out));
  }

  lemma Back(program: seq<char>, pp: nat, cells: seq<byte>, mp: nat, loop: seq<nat>, input: seq<int>, out: seq<byte>)
    requires mp < |cells| <= MEM_LENGTH && 0 < |loop| < LOOP_DEPTH
    requires At(program, pp) == ']' && cells[mp] != 0
    ensures Leads(program, M(pp, cells, mp, loop, input, out), 1, M(loop[|loop| - 1] + 1, cells, mp, loop, input, out))
  {
    var s := M(pp, cells, mp, loop, input, out);
    Close(program, s);
    LeadsStep(program, s, M(loop[|loop| - 1] + 1, cells, mp, loop, input, out));
  }

  lemma Exit(program: seq<char>, pp: nat, cells: seq<byte>, mp: nat, loop: seq<nat>, input: seq<int>, out: seq<byte>)
    requires mp < |cells| <= MEM_LENGTH && 0 < |loop| < LOOP_DEPTH
    requires At(program, pp) == ']' && cells[mp] == 0
    ensures Leads(program, M(pp, cells, mp, loop, input, out), 1, M(pp + 1, cells, mp, loop[..|loop| - 1], input, out))
  {
    var s := M(pp, cells, mp, loop, input, out);
    Close(program, s);
    LeadsStep(program, s, M(pp + 1, cells, mp, loop[..|loop| - 1], input, out));
  }

  lemma Get(program: seq<char>, pp: nat, cells: seq<byte>, mp: nat, loop: seq<nat>, input: seq<int>, out: seq<byte>, after: seq<byte>)
    requires mp < |cells| <= MEM_LENGTH && |loop| < LOOP_DEPTH
    requires At(program, pp) == ',' && after == cells[mp := Read(input)]
    ensures Leads(program, M(pp, cells, mp, loop, input, out), 1, M(pp + 1, after, mp, loop, Rest(input), out))
  {
    var s := M(pp, cells, mp, loop, input, out);
    TapeSet(cells, mp, Read(input));
    LeadsStep(program, s, M(pp + 1, after, mp, loop, Rest(input), out));
  }
}
