/** Concrete runs of `run` (bf.c:36-125): the behaviours a user of the
    interpreter can observe on small programs, each proved over the pure
    state machine. */
module Samples {
  import opened Semantics
  import opened Properties

  /** k copies of c. */
  function Repeat(c: char, k: nat): (r: seq<char>)
    ensures |r| == k && forall i :: 0 <= i < k ==> r[i] == c
  {
    seq(k, _ => c)
  }

  /** A block of k copies of c starting right after `a`. */
  lemma RepeatsAt(a: seq<char>, c: char, k: nat, b: seq<char>)
    ensures Repeats(a + Repeat(c, k) + b, |a|, k, c)
  {
    var p := a + Repeat(c, k) + b;
    forall j | |a| <= j < |a| + k ensures At(p, j) == c {
      assert p[j] == Repeat(c, k)[j - |a|];
    }
  }

  /** A finished run: a stretch of running steps, then the terminator. */
  lemma HaltsAfter(program: seq<char>, s: State, k: nat, t: State, fuel: nat)
    requires Leads(program, s, k, t) && k < fuel && At(program, t.pp) == '\0'
    ensures Run(program, s, fuel) == Outcome(Halted, t)
  {
    LeadsThenStop(program, s, k, t, fuel);
  }

  // ----- programs without instructions -----

  /** From `s.pp` on, a string of ignored characters just advances pp. */
  lemma {:induction false} SkipsNoOps(program: seq<char>, s: State)
    requires Wf(s) && s.pp <= |program|
    requires forall i :: 0 <= i < |program| ==> program[i] != '\0' && !IsCommand(program[i])
    ensures Leads(program, s, |program| - s.pp, s.(pp := |program|))
    decreases |program| - s.pp
  {
    if s.pp == |program| {
      LeadsNone(program, s);
    } else {
      assert At(program, s.pp) == program[s.pp];
      var t := s.(pp := s.pp + 1);
      Ignored(program, s);
      LeadsStep(program, s, t);
      SkipsNoOps(program, t);
      LeadsTrans(program, s, 1, t, |program| - t.pp, t.(pp := |program|), |program| - s.pp, s.(pp := |program|));
    }
  }

  /** A program made only of ignored characters halts at its end with the
      tape untouched and nothing written. */
  lemma OnlyNoOps(program: seq<char>, input: seq<int>, fuel: nat)
    requires forall i :: 0 <= i < |program| ==> program[i] != '\0' && !IsCommand(program[i])
    requires fuel > |program|
    ensures Run(program, Init(input), fuel) == Outcome(Halted, Init(input).(pp := |program|))
  {
    SkipsNoOps(program, Init(input));
    HaltsAfter(program, Init(input), |program|, Init(input).(pp := |program|), fuel);
  }

  // ----- faults -----

  /** Moving left from the initial cell faults before anything else
      happens. */
  lemma LeftFirst(program: seq<char>, input: seq<int>, fuel: nat)
    requires At(program, 0) == '<' && fuel > 0
    ensures Run(program, Init(input), fuel) == Outcome(Faulted(MoveLeftAtStart), Init(input))
  {
    MoveLeft(program, Init(input));
  }

  /** A `]` with no loop open faults whatever the cell holds. */
  lemma CloseFirst(program: seq<char>, input: seq<int>, fuel: nat)
    requires At(program, 0) == ']' && fuel > 0
    ensures Run(program, Init(input), fuel) == Outcome(Faulted(CloseWithoutOpen), Init(input))
  {
    Close(program, Init(input));
  }

  // ----- small programs -----

  /** `+++.` writes the single byte 3. */
  lemma ThreeDot(input: seq<int>, fuel: nat)
    requires fuel > 4
    ensures var r := Run("+++.", Init(input), fuel);
      r.status == Halted && r.next.output == [3]
  {
    var p := "+++.";
    var s0 := Init(input);
    assert Repeats(p, 0, 3, '+');
    Increments(p, s0, 3);
    var s1 := s0.(mem := s0.mem[0 := 3], pp := 3);
    assert s0.(mem := s0.mem[s0.mp := (s0.mem[s0.mp] + 3) % 256], pp := s0.pp + 3) == s1;
    var s2 := s1.(output := [3], pp := 4);
    Output(p, s1);
    LeadsStep(p, s1, s2);
    LeadsTrans(p, s0, 3, s1, 1, s2, 4, s2);
    HaltsAfter(p, s0, 4, s2, fuel);
  }

  /** The body `-]` of `+++++[-].` (indices 6-7): each turn lowers the
      cell by one and jumps back to index 6; the last turn pops the loop. */
  lemma {:induction false} ClearLoop(s: State)
    requires Wf(s) && s.pp == 6 && s.loop == [5] && s.mem[s.mp] > 0
    ensures Leads("+++++[-].", s, 2 * (s.mem[s.mp] as int), s.(mem := s.mem[s.mp := 0], loop := [], pp := 8))
    decreases s.mem[s.mp]
  {
    var p := "+++++[-].";
    var c: int := s.mem[s.mp];
    var final := s.(mem := s.mem[s.mp := 0], loop := [], pp := 8);
    assert Repeats(p, 6, 1, '-');
    Decrements(p, s, 1);
    var t := s.(mem := s.mem[s.mp := c - 1], pp := 7);
    assert s.(mem := s.mem[s.mp := (s.mem[s.mp] - 1) % 256], pp := s.pp + 1) == t;
    if c == 1 {
      var u := t.(loop := [], pp := 8);
      LeadsStep(p, t, u);
      assert u == final;
      LeadsTrans(p, s, 1, t, 1, u, 2 * c, final);
    } else {
      var u := t.(pp := 6);
      LeadsStep(p, t, u);
      LeadsTrans(p, s, 1, t, 1, u, 2, u);
      ClearLoop(u);
      assert u.(mem := u.mem[u.mp := 0], loop := [], pp := 8) == final;
      LeadsTrans(p, s, 2, u, 2 * (c - 1), final, 2 * c, final);
    }
  }

  /** `+++++[-].` counts the cell down to zero in a loop and writes the
      single byte 0. */
  lemma ClearDot(input: seq<int>, fuel: nat)
    requires fuel > 17
    ensures var r := Run("+++++[-].", Init(input), fuel);
      r.status == Halted && r.next.output == [0]
  {
    var p := "+++++[-].";
    var s0 := Init(input);
    assert Repeats(p, 0, 5, '+');
    Increments(p, s0, 5);
    var s1 := s0.(mem := s0.mem[0 := 5], pp := 5);
    assert s0.(mem := s0.mem[s0.mp := (s0.mem[s0.mp] + 5) % 256], pp := s0.pp + 5) == s1;
    var s2 := s1.(loop := [5], pp := 6);
    LeadsStep(p, s1, s2);
    LeadsTrans(p, s0, 5, s1, 1, s2, 6, s2);
    ClearLoop(s2);
    var s3 := s2.(mem := s2.mem[0 := 0], loop := [], pp := 8);
    LeadsTrans(p, s0, 6, s2, 10, s3, 16, s3);
    var s4 := s3.(output := [0], pp := 9);
    LeadsStep(p, s3, s4);
    LeadsTrans(p, s0, 16, s3, 1, s4, 17, s4);
    HaltsAfter(p, s0, 17, s4, fuel);
  }

  // ----- skipping a loop -----

  /** `[]+.`: a `[` on a zero cell resumes two past its `]`, so the `+`
      right after the loop never runs and the byte written is 0. */
  lemma SkipPastNext(input: seq<int>, fuel: nat)
    requires fuel > 2
    ensures var r := Run("[]+.", Init(input), fuel);
      r.status == Halted && r.next.output == [0]
  {
    var p := "[]+.";
    var s0 := Init(input);
    OpenSkip(p, s0, 1);
    var s1 := s0.(pp := 3);
    LeadsStep(p, s0, s1);
    Output(p, s1);
    var s2 := s1.(output := [0], pp := 4);
    LeadsStep(p, s1, s2);
    LeadsTrans(p, s0, 1, s1, 1, s2, 2, s2);
    HaltsAfter(p, s0, 2, s2, fuel);
  }

  /** `+[>[][+]]`: the skip from index 3 stops at the `]` at index 4 and
      resumes at index 6, so the `[` at index 5 never runs.  The `]` at
      index 7, the match of that `[`, then finds a nonzero cell and jumps
      back to just after the `[` at index 1, the innermost saved start. */
  lemma LoopBackAfterSkip(input: seq<int>)
    ensures var r := Run("+[>[][+]]", Init(input), 6);
      r.status == Running && r.next.pp == 2 && r.next.loop == [1]
  {
    var p := "+[>[][+]]";
    var s0 := Init(input);
    var s1 := s0.(mem := s0.mem[0 := 1], pp := 1);
    LeadsStep(p, s0, s1);
    var s2 := s1.(loop := [1], pp := 2);
    assert [] + [1] == [1];
    LeadsStep(p, s1, s2);
    LeadsTrans(p, s0, 1, s1, 1, s2, 2, s2);
    var s3 := s2.(mp := 1, pp := 3);
    LeadsStep(p, s2, s3);
    LeadsTrans(p, s0, 2, s2, 1, s3, 3, s3);
    OpenSkip(p, s3, 4);
    var s4 := s3.(pp := 6);
    LeadsStep(p, s3, s4);
    LeadsTrans(p, s0, 3, s3, 1, s4, 4, s4);
    var s5 := s4.(mem := s4.mem[1 := 1], pp := 7);
    LeadsStep(p, s4, s5);
    LeadsTrans(p, s0, 4, s4, 1, s5, 5, s5);
    Close(p, s5);
    var s6 := s5.(pp := 2);
    LeadsStep(p, s5, s6);
    LeadsTrans(p, s0, 5, s5, 1, s6, 6, s6);
  }

  /** `+[`: the `[` is entered on a nonzero cell and pushed, and the run
      then reaches the terminator and halts normally with that loop still
      open; no assert of `run` catches the missing `]`. */
  lemma UnclosedHalts(input: seq<int>, fuel: nat)
    requires fuel > 2
    ensures var r := Run("+[", Init(input), fuel);
      r.status == Halted && r.next.loop == [1] && r.next.output == []
  {
    var p := "+[";
    var s0 := Init(input);
    var s1 := s0.(mem := s0.mem[0 := 1], pp := 1);
    LeadsStep(p, s0, s1);
    var s2 := s1.(loop := [1], pp := 2);
    assert [] + [1] == [1];
    LeadsStep(p, s1, s2);
    LeadsTrans(p, s0, 1, s1, 1, s2, 2, s2);
    HaltsAfter(p, s0, 2, s2, fuel);
  }

  /** `[[]+].`: the skip stops at the first `]`, the inner one; the outer
      `]` is then met with no loop open and the assert of bf.c:105 fails. */
  lemma SkipIgnoresNesting(input: seq<int>, fuel: nat)
    requires fuel > 1
    ensures Run("[[]+].", Init(input), fuel).status == Faulted(CloseWithoutOpen)
  {
    var p := "[[]+].";
    var s0 := Init(input);
    OpenSkip(p, s0, 2);
    var s1 := s0.(pp := 4);
    LeadsStep(p, s0, s1);
    Close(p, s1);
    LeadsThenStop(p, s0, 1, s1, fuel);
  }

  // ----- nesting depth -----

  /** A cell of 1, then n opening brackets. */
  function Nest(n: nat): (r: seq<char>)
    ensures |r| == n + 1
  {
    "+" + Repeat('[', n)
  }

  /** After `+` and n <= 99 brackets, the n loops are open. */
  lemma OpenNest(program: seq<char>, input: seq<int>, n: nat)
    requires n <= LOOP_DEPTH - 1 && |program| > n && program[..n + 1] == Nest(n)
    ensures Leads(program, Init(input), n + 1, Init(input).(mem := Init(input).mem[0 := 1], loop := Indices(1, n), pp := n + 1))
  {
    var s0 := Init(input);
    assert At(program, 0) == Nest(n)[0];
    var s1 := s0.(mem := s0.mem[0 := 1], pp := 1);
    LeadsStep(program, s0, s1);
    forall j | 1 <= j < 1 + n ensures At(program, j) == '[' {
      assert program[j] == Nest(n)[j];
    }
    Opens(program, s1, n);
    var s2 := s1.(loop := Indices(1, n), pp := n + 1);
    LeadsTrans(program, s0, 1, s1, n, s2, n + 1, s2);
  }

  /** 99 nested loops, opened and closed again, run to the end. */
  lemma DeepestNesting(input: seq<int>, fuel: nat)
    requires fuel > 200
    ensures var r := Run(Nest(99) + "-" + Repeat(']', 99), Init(input), fuel);
      r.status == Halted && r.next.loop == [] && r.next.output == []
  {
    var p := Nest(99) + "-" + Repeat(']', 99);
    var s0 := Init(input);
    assert p[..100] == Nest(99);
    OpenNest(p, input, 99);
    var s2 := s0.(mem := s0.mem[0 := 1], loop := Indices(1, 99), pp := 100);
    assert At(p, 100) == '-';
    var s3 := s2.(mem := s2.mem[0 := 0], pp := 101);
    LeadsStep(p, s2, s3);
    LeadsTrans(p, s0, 100, s2, 1, s3, 101, s3);
    RepeatsAt(Nest(99) + "-", ']', 99, []);
    assert Nest(99) + "-" + Repeat(']', 99) + [] == p;
    Closes(p, s3, 99);
    var s4 := s3.(loop := [], pp := 200);
    assert s3.(loop := s3.loop[..|s3.loop| - 99], pp := s3.pp + 99) == s4;
    LeadsTrans(p, s0, 101, s3, 99, s4, 200, s4);
    HaltsAfter(p, s0, 200, s4, fuel);
  }

  /** One bracket more: the 100th `[` finds 99 loops open and the assert
      of bf.c:90 fails. */
  lemma TooDeep(input: seq<int>, fuel: nat)
    requires fuel > 100
    ensures Run(Nest(100), Init(input), fuel).status == Faulted(TooManyOpenLoops)
  {
    var p := Nest(100);
    var s0 := Init(input);
    assert p[..100] == Nest(99);
    OpenNest(p, input, 99);
    var s2 := s0.(mem := s0.mem[0 := 1], loop := Indices(1, 99), pp := 100);
    assert At(p, 100) == '[';
    OpenEnter(p, s2);
    LeadsThenStop(p, s0, 100, s2, fuel);
  }
}
