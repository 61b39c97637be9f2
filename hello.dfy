/** The test program test_1 of bf.c:26-28, the classic nested-loop
    "Hello World!\n", followed through `run` step by step.  Cell 0 counts
    eight turns of the outer loop; each turn adds 9, 13, 11, 4 and 1 to
    cells 2 to 6 (the inner loop adds 8, 12, 12 and 4). */
module Hello {
  import opened Semantics
  import opened Properties
  import opened Samples
  import opened Programs

  /** The C string test_1, cut between its loops. */
  const Test1: string :=
    "++++++++" + "[>++++" + "[>++>+++>+++>+<<<<-]" + ">+>+>->>+" + "[<]" + "<-]" + ">>.>---.+++++++..+++." +
    ">>.<-.<.+++.------.--------.>>+.>++."

  // ----- the loops -----

  lemma OuterStartCode()
    ensures Repeats(Test1, 9, 1, '>') && Repeats(Test1, 10, 4, '+')
  {
  }

  /** `>++++` (indices 9-13): cell 1 becomes 4. */
  lemma OuterStart(input: seq<int>, i: nat)
    requires i < 8
    ensures Leads(Test1, M(9, [8 - i, 0, 9 * i, 13 * i, 11 * i, 4 * i, i], 0, [8], input, []), 5,
                  M(14, [8 - i, 4, 9 * i, 13 * i, 11 * i, 4 * i, i], 1, [8], input, []))
  {
    var p := Test1;
    OuterStartCode();
    Right(p, 9, [8 - i, 0, 9 * i, 13 * i, 11 * i, 4 * i, i], 0, [8], input, [], 1);
    Add(p, 10, [8 - i, 0, 9 * i, 13 * i, 11 * i, 4 * i, i], 1, [8], input, [], 4, [8 - i, 4, 9 * i, 13 * i, 11 * i, 4 * i, i]);
    var s0 := M(9, [8 - i, 0, 9 * i, 13 * i, 11 * i, 4 * i, i], 0, [8], input, []);
    var s1 := M(10, [8 - i, 0, 9 * i, 13 * i, 11 * i, 4 * i, i], 1, [8], input, []);
    var s2 := M(14, [8 - i, 4, 9 * i, 13 * i, 11 * i, 4 * i, i], 1, [8], input, []);
    LeadsTrans(p, s0, 1, s1, 4, s2, 5, s2);
  }

  lemma InnerACode()
    ensures Repeats(Test1, 15, 1, '>') && Repeats(Test1, 16, 2, '+') && Repeats(Test1, 18, 1, '>') && Repeats(Test1, 19, 3, '+')
  {
  }

  /** `>++>+++` (indices 15-21). */
  lemma InnerA(input: seq<int>, a: byte, m: byte, b: byte, c: byte, d: byte, e: byte, f: byte)
    requires b < 254 && c < 253
    ensures Leads(Test1, M(15, [a, m, b, c, d, e, f], 1, [8, 14], input, []), 7,
                  M(22, [a, m, b + 2, c + 3, d, e, f], 3, [8, 14], input, []))
  {
    var p := Test1;
    InnerACode();
    Right(p, 15, [a, m, b, c, d, e, f], 1, [8, 14], input, [], 1);
    Add(p, 16, [a, m, b, c, d, e, f], 2, [8, 14], input, [], 2, [a, m, b + 2, c, d, e, f]);
    var s0 := M(15, [a, m, b, c, d, e, f], 1, [8, 14], input, []);
    var s1 := M(16, [a, m, b, c, d, e, f], 2, [8, 14], input, []);
    var s2 := M(18, [a, m, b + 2, c, d, e, f], 2, [8, 14], input, []);
    LeadsTrans(p, s0, 1, s1, 2, s2, 3, s2);
    Right(p, 18, [a, m, b + 2, c, d, e, f], 2, [8, 14], input, [], 1);
    var s3 := M(19, [a, m, b + 2, c, d, e, f], 3, [8, 14], input, []);
    LeadsTrans(p, s0, 3, s2, 1, s3, 4, s3);
    Add(p, 19, [a, m, b + 2, c, d, e, f], 3, [8, 14], input, [], 3, [a, m, b + 2, c + 3, d, e, f]);
    var s4 := M(22, [a, m, b + 2, c + 3, d, e, f], 3, [8, 14], input, []);
    LeadsTrans(p, s0, 4, s3, 3, s4, 7, s4);
  }

  lemma InnerBCode()
    ensures Repeats(Test1, 22, 1, '>') && Repeats(Test1, 23, 3, '+') && Repeats(Test1, 26, 1, '>') && Repeats(Test1, 27, 1, '+')
  {
  }

  /** `>+++>+` (indices 22-27). */
  lemma InnerB(input: seq<int>, a: byte, m: byte, b: byte, c: byte, d: byte, e: byte, f: byte)
    requires d < 253 && e < 255
    ensures Leads(Test1, M(22, [a, m, b, c, d, e, f], 3, [8, 14], input, []), 6,
                  M(28, [a, m, b, c, d + 3, e + 1, f], 5, [8, 14], input, []))
  {
    var p := Test1;
    InnerBCode();
    Right(p, 22, [a, m, b, c, d, e, f], 3, [8, 14], input, [], 1);
    Add(p, 23, [a, m, b, c, d, e, f], 4, [8, 14], input, [], 3, [a, m, b, c, d + 3, e, f]);
    var s0 := M(22, [a, m, b, c, d, e, f], 3, [8, 14], input, []);
    var s1 := M(23, [a, m, b, c, d, e, f], 4, [8, 14], input, []);
    var s2 := M(26, [a, m, b, c, d + 3, e, f], 4, [8, 14], input, []);
    LeadsTrans(p, s0, 1, s1, 3, s2, 4, s2);
    Right(p, 26, [a, m, b, c, d + 3, e, f], 4, [8, 14], input, [], 1);
    var s3 := M(27, [a, m, b, c, d + 3, e, f], 5, [8, 14], input, []);
    LeadsTrans(p, s0, 4, s2, 1, s3, 5, s3);
    Add(p, 27, [a, m, b, c, d + 3, e, f], 5, [8, 14], input, [], 1, [a, m, b, c, d + 3, e + 1, f]);
    var s4 := M(28, [a, m, b, c, d + 3, e + 1, f], 5, [8, 14], input, []);
    LeadsTrans(p, s0, 5, s3, 1, s4, 6, s4);
  }

  lemma InnerCCode()
    ensures Repeats(Test1, 28, 4, '<') && Repeats(Test1, 32, 1, '-')
  {
  }

  /** `<<<<-` (indices 28-32). */
  lemma InnerC(input: seq<int>, a: byte, m: byte, b: byte, c: byte, d: byte, e: byte, f: byte)
    requires 0 < m
    ensures Leads(Test1, M(28, [a, m, b, c, d, e, f], 5, [8, 14], input, []), 5,
                  M(33, [a, m - 1, b, c, d, e, f], 1, [8, 14], input, []))
  {
    var p := Test1;
    InnerCCode();
    Left(p, 28, [a, m, b, c, d, e, f], 5, [8, 14], input, [], 4);
    Sub(p, 32, [a, m, b, c, d, e, f], 1, [8, 14], input, [], 1, [a, m - 1, b, c, d, e, f]);
    var s0 := M(28, [a, m, b, c, d, e, f], 5, [8, 14], input, []);
    var s1 := M(32, [a, m, b, c, d, e, f], 1, [8, 14], input, []);
    var s2 := M(33, [a, m - 1, b, c, d, e, f], 1, [8, 14], input, []);
    LeadsTrans(p, s0, 4, s1, 1, s2, 5, s2);
  }

  lemma MidACode()
    ensures Repeats(Test1, 34, 1, '>') && Repeats(Test1, 35, 1, '+') && Repeats(Test1, 36, 1, '>') && Repeats(Test1, 37, 1, '+')
  {
  }

  /** `>+>+` (indices 34-37). */
  lemma MidA(input: seq<int>, i: nat)
    requires i < 8
    ensures Leads(Test1, M(34, [8 - i, 0, 9 * i + 8, 13 * i + 12, 11 * i + 12, 4 * i + 4, i], 1, [8], input, []), 4,
                  M(38, [8 - i, 0, 9 * i + 9, 13 * i + 13, 11 * i + 12, 4 * i + 4, i], 3, [8], input, []))
  {
    var p := Test1;
    MidACode();
    Right(p, 34, [8 - i, 0, 9 * i + 8, 13 * i + 12, 11 * i + 12, 4 * i + 4, i], 1, [8], input, [], 1);
    Add(p, 35, [8 - i, 0, 9 * i + 8, 13 * i + 12, 11 * i + 12, 4 * i + 4, i], 2, [8], input, [], 1, [8 - i, 0, 9 * i + 9, 13 * i + 12, 11 * i + 12, 4 * i + 4, i]);
    var s0 := M(34, [8 - i, 0, 9 * i + 8, 13 * i + 12, 11 * i + 12, 4 * i + 4, i], 1, [8], input, []);
    var s1 := M(35, [8 - i, 0, 9 * i + 8, 13 * i + 12, 11 * i + 12, 4 * i + 4, i], 2, [8], input, []);
    var s2 := M(36, [8 - i, 0, 9 * i + 9, 13 * i + 12, 11 * i + 12, 4 * i + 4, i], 2, [8], input, []);
    LeadsTrans(p, s0, 1, s1, 1, s2, 2, s2);
    Right(p, 36, [8 - i, 0, 9 * i + 9, 13 * i + 12, 11 * i + 12, 4 * i + 4, i], 2, [8], input, [], 1);
    var s3 := M(37, [8 - i, 0, 9 * i + 9, 13 * i + 12, 11 * i + 12, 4 * i + 4, i], 3, [8], input, []);
    LeadsTrans(p, s0, 2, s2, 1, s3, 3, s3);
    Add(p, 37, [8 - i, 0, 9 * i + 9, 13 * i + 12, 11 * i + 12, 4 * i + 4, i], 3, [8], input, [], 1, [8 - i, 0, 9 * i + 9, 13 * i + 13, 11 * i + 12, 4 * i + 4, i]);
    var s4 := M(38, [8 - i, 0, 9 * i + 9, 13 * i + 13, 11 * i + 12, 4 * i + 4, i], 3, [8], input, []);
    LeadsTrans(p, s0, 3, s3, 1, s4, 4, s4);
  }

  lemma MidBCode()
    ensures Repeats(Test1, 38, 1, '>') && Repeats(Test1, 39, 1, '-') && Repeats(Test1, 40, 2, '>') && Repeats(Test1, 42, 1, '+')
  {
  }

  /** `>->>+` (indices 38-42). */
  lemma MidB(input: seq<int>, i: nat)
    requires i < 8
    ensures Leads(Test1, M(38, [8 - i, 0, 9 * i + 9, 13 * i + 13, 11 * i + 12, 4 * i + 4, i], 3, [8], input, []), 5,
                  M(43, [8 - i, 0, 9 * i + 9, 13 * i + 13, 11 * i + 11, 4 * i + 4, i + 1], 6, [8], input, []))
  {
    var p := Test1;
    MidBCode();
    Right(p, 38, [8 - i, 0, 9 * i + 9, 13 * i + 13, 11 * i + 12, 4 * i + 4, i], 3, [8], input, [], 1);
    Sub(p, 39, [8 - i, 0, 9 * i + 9, 13 * i + 13, 11 * i + 12, 4 * i + 4, i], 4, [8], input, [], 1, [8 - i, 0, 9 * i + 9, 13 * i + 13, 11 * i + 11, 4 * i + 4, i]);
    var s0 := M(38, [8 - i, 0, 9 * i + 9, 13 * i + 13, 11 * i + 12, 4 * i + 4, i], 3, [8], input, []);
    var s1 := M(39, [8 - i, 0, 9 * i + 9, 13 * i + 13, 11 * i + 12, 4 * i + 4, i], 4, [8], input, []);
    var s2 := M(40, [8 - i, 0, 9 * i + 9, 13 * i + 13, 11 * i + 11, 4 * i + 4, i], 4, [8], input, []);
    LeadsTrans(p, s0, 1, s1, 1, s2, 2, s2);
    Right(p, 40, [8 - i, 0, 9 * i + 9, 13 * i + 13, 11 * i + 11, 4 * i + 4, i], 4, [8], input, [], 2);
    var s3 := M(42, [8 - i, 0, 9 * i + 9, 13 * i + 13, 11 * i + 11, 4 * i + 4, i], 6, [8], input, []);
    LeadsTrans(p, s0, 2, s2, 2, s3, 4, s3);
    Add(p, 42, [8 - i, 0, 9 * i + 9, 13 * i + 13, 11 * i + 11, 4 * i + 4, i], 6, [8], input, [], 1, [8 - i, 0, 9 * i + 9, 13 * i + 13, 11 * i + 11, 4 * i + 4, i + 1]);
    var s4 := M(43, [8 - i, 0, 9 * i + 9, 13 * i + 13, 11 * i + 11, 4 * i + 4, i + 1], 6, [8], input, []);
    LeadsTrans(p, s0, 4, s3, 1, s4, 5, s4);
  }

  lemma OuterEndCode()
    ensures Repeats(Test1, 46, 1, '<') && Repeats(Test1, 47, 1, '-')
  {
  }

  /** `<-` (indices 46-47): one turn less in cell 0. */
  lemma OuterEnd(input: seq<int>, i: nat)
    requires i < 8
    ensures Leads(Test1, M(46, [8 - i, 0, 9 * i + 9, 13 * i + 13, 11 * i + 11, 4 * i + 4, i + 1], 1, [8], input, []), 2,
                  M(48, [8 - i - 1, 0, 9 * i + 9, 13 * i + 13, 11 * i + 11, 4 * i + 4, i + 1], 0, [8], input, []))
  {
    var p := Test1;
    OuterEndCode();
    Left(p, 46, [8 - i, 0, 9 * i + 9, 13 * i + 13, 11 * i + 11, 4 * i + 4, i + 1], 1, [8], input, [], 1);
    Sub(p, 47, [8 - i, 0, 9 * i + 9, 13 * i + 13, 11 * i + 11, 4 * i + 4, i + 1], 0, [8], input, [], 1, [8 - i - 1, 0, 9 * i + 9, 13 * i + 13, 11 * i + 11, 4 * i + 4, i + 1]);
    var s0 := M(46, [8 - i, 0, 9 * i + 9, 13 * i + 13, 11 * i + 11, 4 * i + 4, i + 1], 1, [8], input, []);
    var s1 := M(47, [8 - i, 0, 9 * i + 9, 13 * i + 13, 11 * i + 11, 4 * i + 4, i + 1], 0, [8], input, []);
    var s2 := M(48, [8 - i - 1, 0, 9 * i + 9, 13 * i + 13, 11 * i + 11, 4 * i + 4, i + 1], 0, [8], input, []);
    LeadsTrans(p, s0, 1, s1, 1, s2, 2, s2);
  }

  /** `>++++[` (indices 9-14): cell 1 becomes 4 and the inner loop opens. */
  lemma OuterHead(input: seq<int>, i: nat)
    requires i < 8
    ensures Leads(Test1, M(9, [8 - i, 0, 9 * i, 13 * i, 11 * i, 4 * i, i], 0, [8], input, []), 6,
                  M(15, [8 - i, 4, 9 * i, 13 * i, 11 * i, 4 * i, i], 1, [8, 14], input, []))
  {
    OuterStart(input, i);
    assert At(Test1, 14) == '[';
    Enter(Test1, 14, [8 - i, 4, 9 * i, 13 * i, 11 * i, 4 * i, i], 1, [8], input, []);
    assert [8] + [14] == [8, 14];
    var s0 := M(9, [8 - i, 0, 9 * i, 13 * i, 11 * i, 4 * i, i], 0, [8], input, []);
    var s1 := M(14, [8 - i, 4, 9 * i, 13 * i, 11 * i, 4 * i, i], 1, [8], input, []);
    var s2 := M(15, [8 - i, 4, 9 * i, 13 * i, 11 * i, 4 * i, i], 1, [8] + [14], input, []);
    var s3 := M(15, [8 - i, 4, 9 * i, 13 * i, 11 * i, 4 * i, i], 1, [8, 14], input, []);
    LeadsTrans(Test1, s0, 5, s1, 1, s2, 6, s3);
  }

  /** One turn of the inner loop body (indices 15-32). */
  lemma InnerTurn(input: seq<int>, a: byte, m: byte, b: byte, c: byte, d: byte, e: byte, f: byte)
    requires 0 < m && b < 254 && c < 253 && d < 253 && e < 255
    ensures Leads(Test1, M(15, [a, m, b, c, d, e, f], 1, [8, 14], input, []), 18,
                  M(33, [a, m - 1, b + 2, c + 3, d + 3, e + 1, f], 1, [8, 14], input, []))
  {
    InnerA(input, a, m, b, c, d, e, f);
    InnerB(input, a, m, b + 2, c + 3, d, e, f);
    var s0 := M(15, [a, m, b, c, d, e, f], 1, [8, 14], input, []);
    var s1 := M(22, [a, m, b + 2, c + 3, d, e, f], 3, [8, 14], input, []);
    var s2 := M(28, [a, m, b + 2, c + 3, d + 3, e + 1, f], 5, [8, 14], input, []);
    LeadsTrans(Test1, s0, 7, s1, 6, s2, 13, s2);
    InnerC(input, a, m, b + 2, c + 3, d + 3, e + 1, f);
    var s3 := M(33, [a, m - 1, b + 2, c + 3, d + 3, e + 1, f], 1, [8, 14], input, []);
    LeadsTrans(Test1, s0, 13, s2, 5, s3, 18, s3);
  }

  /** The seven cells test_1 uses, as a tape prefix. */
  function Cells(c0: byte, c1: byte, c2: byte, c3: byte, c4: byte, c5: byte, c6: byte): (cs: seq<byte>)
    ensures |cs| == 7 && cs[0] == c0 && cs[1] == c1 && cs[6] == c6
  {
    [c0, c1, c2, c3, c4, c5, c6]
  }

  /** A turn of the inner loop that is not the last: `]` at index 33
      jumps back to index 15. */
  lemma InnerAgain(input: seq<int>, a: byte, m: byte, b: byte, c: byte, d: byte, e: byte, f: byte)
    requires 1 < m && b < 254 && c < 253 && d < 253 && e < 255
    ensures Leads(Test1, M(15, Cells(a, m, b, c, d, e, f), 1, [8, 14], input, []), 19,
                  M(15, Cells(a, m - 1, b + 2, c + 3, d + 3, e + 1, f), 1, [8, 14], input, []))
  {
    var cs := Cells(a, m - 1, b + 2, c + 3, d + 3, e + 1, f);
    InnerTurn(input, a, m, b, c, d, e, f);
    assert At(Test1, 33) == ']';
    Back(Test1, 33, cs, 1, [8, 14], input, []);
    var s0 := M(15, Cells(a, m, b, c, d, e, f), 1, [8, 14], input, []);
    var s1 := M(33, cs, 1, [8, 14], input, []);
    var s2 := M(15, cs, 1, [8, 14], input, []);
    LeadsTrans(Test1, s0, 18, s1, 1, s2, 19, s2);
  }

  /** The last turn of the inner loop: `]` at index 33 closes it. */
  lemma InnerLast(input: seq<int>, a: byte, m: byte, b: byte, c: byte, d: byte, e: byte, f: byte)
    requires m == 1 && b < 254 && c < 253 && d < 253 && e < 255
    ensures Leads(Test1, M(15, Cells(a, m, b, c, d, e, f), 1, [8, 14], input, []), 19 * m as int,
                  M(34, Cells(a, 0, b + 2 * m, c + 3 * m, d + 3 * m, e + m, f), 1, [8], input, []))
  {
    var cs := Cells(a, 0, b + 2, c + 3, d + 3, e + 1, f);
    assert cs == Cells(a, 0, b + 2 * m, c + 3 * m, d + 3 * m, e + m, f);
    InnerTurn(input, a, m, b, c, d, e, f);
    assert At(Test1, 33) == ']';
    Exit(Test1, 33, cs, 1, [8, 14], input, []);
    assert [8, 14][..1] == [8];
    var s0 := M(15, Cells(a, m, b, c, d, e, f), 1, [8, 14], input, []);
    var s1 := M(33, cs, 1, [8, 14], input, []);
    var s2 := M(34, cs, 1, [8, 14][..1], input, []);
    var s3 := M(34, cs, 1, [8], input, []);
    LeadsTrans(Test1, s0, 18, s1, 1, s2, 19 * m as int, s3);
  }

  /** The inner loop `[>++>+++>+++>+<<<<-]` entered with m in cell 1 adds
      2m, 3m, 3m and m to cells 2 to 5 and closes with cell 1 zero. */
  lemma {:induction false} InnerLoop(input: seq<int>, a: byte, m: byte, b: byte, c: byte, d: byte, e: byte, f: byte)
    requires 0 < m && b as int + 2 * m as int < 256 && c as int + 3 * m as int < 256
    requires d as int + 3 * m as int < 256 && e as int + m as int < 256
    ensures Leads(Test1, M(15, Cells(a, m, b, c, d, e, f), 1, [8, 14], input, []), 19 * m as int,
                  M(34, Cells(a, 0, b + 2 * m, c + 3 * m, d + 3 * m, e + m, f), 1, [8], input, []))
    decreases m, 1
  {
    if m == 1 {
      InnerLast(input, a, m, b, c, d, e, f);
    } else {
      InnerRest(input, a, m, b, c, d, e, f);
    }
  }

  /** InnerLoop for more than one turn: one turn, then the rest. */
  lemma {:induction false} InnerRest(input: seq<int>, a: byte, m: byte, b: byte, c: byte, d: byte, e: byte, f: byte)
    requires 1 < m && b as int + 2 * m as int < 256 && c as int + 3 * m as int < 256
    requires d as int + 3 * m as int < 256 && e as int + m as int < 256
    ensures Leads(Test1, M(15, Cells(a, m, b, c, d, e, f), 1, [8, 14], input, []), 19 * m as int,
                  M(34, Cells(a, 0, b + 2 * m, c + 3 * m, d + 3 * m, e + m, f), 1, [8], input, []))
    decreases m, 0
  {
    InnerAgain(input, a, m, b, c, d, e, f);
    InnerLoop(input, a, m - 1, b + 2, c + 3, d + 3, e + 1, f);
    assert 19 + 19 * (m - 1) as int == 19 * m as int;
    assert b + 2 + 2 * (m - 1) == b + 2 * m && c + 3 + 3 * (m - 1) == c + 3 * m;
    assert d + 3 + 3 * (m - 1) == d + 3 * m && e + 1 + (m - 1) == e + m;
    var s0 := M(15, Cells(a, m, b, c, d, e, f), 1, [8, 14], input, []);
    var s1 := M(15, Cells(a, m - 1, b + 2, c + 3, d + 3, e + 1, f), 1, [8, 14], input, []);
    var s2 := M(34, Cells(a, 0, b + 2 + 2 * (m - 1), c + 3 + 3 * (m - 1), d + 3 + 3 * (m - 1), e + 1 + (m - 1), f), 1, [8], input, []);
    var s3 := M(34, Cells(a, 0, b + 2 * m, c + 3 * m, d + 3 * m, e + m, f), 1, [8], input, []);
    LeadsTrans(Test1, s0, 19, s1, 19 * (m - 1) as int, s2, 19 * m as int, s3);
  }

  /** The scan loop `[<]` (indices 43-45) after its `[`: with the cursor
      on cell m it moves left over nonzero cells and stops on the zero
      cell 1. */
  lemma {:induction false} ScanLoop(input: seq<int>, cs: seq<byte>, m: nat)
    requires |cs| == 7 && 2 <= m <= 6 && cs[1] == 0
    requires forall k :: 2 <= k < m ==> cs[k] != 0
    ensures Leads(Test1, M(44, cs, m, [8, 43], input, []), 2 * (m - 1), M(46, cs, 1, [8], input, []))
    decreases m
  {
    var s := M(44, cs, m, [8, 43], input, []);
    var t := M(45, cs, m - 1, [8, 43], input, []);
    var w := M(46, cs, 1, [8], input, []);
    assert Repeats(Test1, 44, 1, '<') && At(Test1, 45) == ']';
    Left(Test1, 44, cs, m, [8, 43], input, [], 1);
    if m == 2 {
      Exit(Test1, 45, cs, 1, [8, 43], input, []);
      assert [8, 43][..1] == [8];
      LeadsTrans(Test1, s, 1, t, 1, M(46, cs, 1, [8, 43][..1], input, []), 2 * (m - 1), w);
    } else {
      Back(Test1, 45, cs, m - 1, [8, 43], input, []);
      var u := M(44, cs, m - 1, [8, 43], input, []);
      LeadsTrans(Test1, s, 1, t, 1, u, 2, u);
      ScanLoop(input, cs, m - 1);
      LeadsTrans(Test1, s, 2, u, 2 * (m - 2), w, 2 * (m - 1), w);
    }
  }

  /** `[<]` (indices 43-45) from cell 6 comes back to the zero cell 1. */
  lemma Scan(input: seq<int>, cs: seq<byte>)
    requires |cs| == 7 && cs[1] == 0
    requires forall k :: 2 <= k < 7 ==> cs[k] != 0
    ensures Leads(Test1, M(43, cs, 6, [8], input, []), 11, M(46, cs, 1, [8], input, []))
  {
    assert At(Test1, 43) == '[';
    Enter(Test1, 43, cs, 6, [8], input, []);
    ScanLoop(input, cs, 6);
    assert [8] + [43] == [8, 43];
    var s0 := M(43, cs, 6, [8], input, []);
    var s1 := M(44, cs, 6, [8] + [43], input, []);
    var s2 := M(46, cs, 1, [8], input, []);
    LeadsTrans(Test1, s0, 1, s1, 10, s2, 11, s2);
  }

  /** Indices 9-33 of one outer turn: cell 1 set to 4 and the inner loop run. */
  lemma OuterFirst(input: seq<int>, i: nat)
    requires i < 8
    ensures Leads(Test1, M(9, [8 - i, 0, 9 * i, 13 * i, 11 * i, 4 * i, i], 0, [8], input, []), 82,
                  M(34, [8 - i, 0, 9 * i + 8, 13 * i + 12, 11 * i + 12, 4 * i + 4, i], 1, [8], input, []))
  {
    OuterHead(input, i);
    InnerLoop(input, 8 - i, 4, 9 * i, 13 * i, 11 * i, 4 * i, i);
    var s0 := M(9, [8 - i, 0, 9 * i, 13 * i, 11 * i, 4 * i, i], 0, [8], input, []);
    var s1 := M(15, [8 - i, 4, 9 * i, 13 * i, 11 * i, 4 * i, i], 1, [8, 14], input, []);
    var s2 := M(34, [8 - i, 0, 9 * i + 2 * 4, 13 * i + 3 * 4, 11 * i + 3 * 4, 4 * i + 4, i], 1, [8], input, []);
    var s3 := M(34, [8 - i, 0, 9 * i + 8, 13 * i + 12, 11 * i + 12, 4 * i + 4, i], 1, [8], input, []);
    LeadsTrans(Test1, s0, 6, s1, 76, s2, 82, s3);
  }

  /** Indices 34-47 of one outer turn: cells 2 to 6 adjusted, the scan
      back to cell 1, and one turn counted off cell 0. */
  lemma OuterSecond(input: seq<int>, i: nat)
    requires i < 8
    ensures Leads(Test1, M(34, [8 - i, 0, 9 * i + 8, 13 * i + 12, 11 * i + 12, 4 * i + 4, i], 1, [8], input, []), 22,
                  M(48, [8 - i - 1, 0, 9 * i + 9, 13 * i + 13, 11 * i + 11, 4 * i + 4, i + 1], 0, [8], input, []))
  {
    var s := M(34, [8 - i, 0, 9 * i + 8, 13 * i + 12, 11 * i + 12, 4 * i + 4, i], 1, [8], input, []);
    var t := M(38, [8 - i, 0, 9 * i + 9, 13 * i + 13, 11 * i + 12, 4 * i + 4, i], 3, [8], input, []);
    var u := M(43, [8 - i, 0, 9 * i + 9, 13 * i + 13, 11 * i + 11, 4 * i + 4, i + 1], 6, [8], input, []);
    var v := M(46, [8 - i, 0, 9 * i + 9, 13 * i + 13, 11 * i + 11, 4 * i + 4, i + 1], 1, [8], input, []);
    var w := M(48, [8 - i - 1, 0, 9 * i + 9, 13 * i + 13, 11 * i + 11, 4 * i + 4, i + 1], 0, [8], input, []);
    MidA(input, i);
    MidB(input, i);
    LeadsTrans(Test1, s, 4, t, 5, u, 9, u);
    Scan(input, [8 - i, 0, 9 * i + 9, 13 * i + 13, 11 * i + 11, 4 * i + 4, i + 1]);
    LeadsTrans(Test1, s, 9, u, 11, v, 20, v);
    OuterEnd(input, i);
    LeadsTrans(Test1, s, 20, v, 2, w, 22, w);
  }

  /** One turn of the outer loop, up to its `]` at index 48. */
  lemma OuterTurn(input: seq<int>, i: nat)
    requires i < 8
    ensures Leads(Test1, M(9, [8 - i, 0, 9 * i, 13 * i, 11 * i, 4 * i, i], 0, [8], input, []), 104,
                  M(48, [8 - i - 1, 0, 9 * i + 9, 13 * i + 13, 11 * i + 11, 4 * i + 4, i + 1], 0, [8], input, []))
  {
    OuterFirst(input, i);
    OuterSecond(input, i);
    var s0 := M(9, [8 - i, 0, 9 * i, 13 * i, 11 * i, 4 * i, i], 0, [8], input, []);
    var s1 := M(34, [8 - i, 0, 9 * i + 8, 13 * i + 12, 11 * i + 12, 4 * i + 4, i], 1, [8], input, []);
    var s2 := M(48, [8 - i - 1, 0, 9 * i + 9, 13 * i + 13, 11 * i + 11, 4 * i + 4, i + 1], 0, [8], input, []);
    LeadsTrans(Test1, s0, 82, s1, 22, s2, 104, s2);
  }

  /** The cells at the head of the outer loop after i of its turns. */
  function Turn(i: nat): seq<byte>
    requires i <= 8
  {
    [8 - i, 0, 9 * i, 13 * i, 11 * i, 4 * i, i]
  }

  /** A turn of the outer loop that is not the last: `]` at index 48
      jumps back to index 9. */
  lemma OuterAgain(input: seq<int>, i: nat)
    requires i < 7
    ensures Leads(Test1, M(9, Turn(i), 0, [8], input, []), 105,
                  M(9, Turn(i + 1), 0, [8], input, []))
  {
    var cs: seq<byte> := [8 - i - 1, 0, 9 * i + 9, 13 * i + 13, 11 * i + 11, 4 * i + 4, i + 1];
    OuterTurn(input, i);
    assert At(Test1, 48) == ']';
    Back(Test1, 48, cs, 0, [8], input, []);
    var s0 := M(9, Turn(i), 0, [8], input, []);
    var s1 := M(48, cs, 0, [8], input, []);
    var s2 := M(9, cs, 0, [8], input, []);
    var s3 := M(9, Turn(i + 1), 0, [8], input, []);
    LeadsTrans(Test1, s0, 104, s1, 1, s2, 105, s3);
  }

  /** The eighth turn of the outer loop: `]` at index 48 closes it. */
  lemma OuterLast(input: seq<int>, i: nat)
    requires i == 7
    ensures Leads(Test1, M(9, Turn(i), 0, [8], input, []), 105,
                  M(49, [0, 0, 72, 104, 88, 32, 8], 0, [], input, []))
  {
    var cs: seq<byte> := [8 - i - 1, 0, 9 * i + 9, 13 * i + 13, 11 * i + 11, 4 * i + 4, i + 1];
    OuterTurn(input, i);
    assert At(Test1, 48) == ']';
    Exit(Test1, 48, cs, 0, [8], input, []);
    assert [8][..0] == [];
    var s0 := M(9, Turn(i), 0, [8], input, []);
    var s1 := M(48, cs, 0, [8], input, []);
    var s2 := M(49, cs, 0, [8][..0], input, []);
    var s3 := M(49, [0, 0, 72, 104, 88, 32, 8], 0, [], input, []);
    LeadsTrans(Test1, s0, 104, s1, 1, s2, 105, s3);
  }

  /** The outer loop from turn i on: 8 - i more turns leave 72, 104, 88,
      32 and 8 in cells 2 to 6 and close the loop. */
  lemma {:induction false} OuterLoop(input: seq<int>, i: nat)
    requires i < 8
    ensures Leads(Test1, M(9, Turn(i), 0, [8], input, []), 105 * (8 - i),
                  M(49, [0, 0, 72, 104, 88, 32, 8], 0, [], input, []))
    decreases 8 - i
  {
    if i == 7 {
      OuterLast(input, i);
    } else {
      var s := M(9, Turn(i), 0, [8], input, []);
      var t := M(9, Turn(i + 1), 0, [8], input, []);
      var w := M(49, [0, 0, 72, 104, 88, 32, 8], 0, [], input, []);
      OuterAgain(input, i);
      OuterLoop(input, i + 1);
      LeadsTrans(Test1, s, 105, t, 105 * (8 - (i + 1)), w, 105 * (8 - i), w);
    }
  }

  /** `++++++++[` (indices 0-8) from the initial state: cell 0 is 8 and
      the outer loop opens. */
  lemma HelloStart(input: seq<int>)
    ensures Leads(Test1, Init(input), 9, M(9, Turn(0), 0, [8], input, []))
  {
    InitCells(input, 7);
    assert seq(7, _ => 0) == [0, 0, 0, 0, 0, 0, 0];
    assert Repeats(Test1, 0, 8, '+') && At(Test1, 8) == '[';
    Add(Test1, 0, [0, 0, 0, 0, 0, 0, 0], 0, [], input, [], 8, [8, 0, 0, 0, 0, 0, 0]);
    Enter(Test1, 8, [8, 0, 0, 0, 0, 0, 0], 0, [], input, []);
    assert [] + [8] == [8];
    assert [8, 0, 0, 0, 0, 0, 0] == Turn(0);
    var s0 := M(8, [8, 0, 0, 0, 0, 0, 0], 0, [], input, []);
    var s1 := M(9, [8, 0, 0, 0, 0, 0, 0], 0, [] + [8], input, []);
    var s2 := M(9, Turn(0), 0, [8], input, []);
    LeadsTrans(Test1, Init(input), 8, s0, 1, s1, 9, s2);
  }

  /** From the start to the end of the outer loop (indices 0-48). */
  lemma HelloLoops(input: seq<int>)
    ensures Leads(Test1, Init(input), 849, M(49, [0, 0, 72, 104, 88, 32, 8], 0, [], input, []))
  {
    HelloStart(input);
    OuterLoop(input, 0);
    var s0 := M(9, Turn(0), 0, [8], input, []);
    var s1 := M(49, [0, 0, 72, 104, 88, 32, 8], 0, [], input, []);
    LeadsTrans(Test1, Init(input), 9, s0, 840, s1, 849, s1);
  }

  // ----- the output phase -----

  lemma HelloHCode()
    ensures Repeats(Test1, 49, 2, '>') && At(Test1, 51) == '.'
  {
  }

  /** `>>.` (indices 49-51): 'H' */
  lemma HelloH(input: seq<int>)
    ensures Leads(Test1, M(49, [0, 0, 72, 104, 88, 32, 8], 0, [], input, []), 3,
                  M(52, [0, 0, 72, 104, 88, 32, 8], 2, [], input, [72]))
  {
    var p := Test1;
    HelloHCode();
    Right(p, 49, [0, 0, 72, 104, 88, 32, 8], 0, [], input, [], 2);
    Put(p, 51, [0, 0, 72, 104, 88, 32, 8], 2, [], input, []);
    var s0 := M(49, [0, 0, 72, 104, 88, 32, 8], 0, [], input, []);
    var s1 := M(51, [0, 0, 72, 104, 88, 32, 8], 2, [], input, []);
    var s2 := M(52, [0, 0, 72, 104, 88, 32, 8], 2, [], input, [72]);
    LeadsTrans(p, s0, 2, s1, 1, s2, 3, s2);
  }

  lemma HelloECode()
    ensures Repeats(Test1, 52, 1, '>') && Repeats(Test1, 53, 3, '-') && At(Test1, 56) == '.'
  {
  }

  /** `>---.` (indices 52-56): 'e' */
  lemma HelloE(input: seq<int>)
    ensures Leads(Test1, M(52, [0, 0, 72, 104, 88, 32, 8], 2, [], input, [72]), 5,
                  M(57, [0, 0, 72, 101, 88, 32, 8], 3, [], input, [72, 101]))
  {
    var p := Test1;
    HelloECode();
    Right(p, 52, [0, 0, 72, 104, 88, 32, 8], 2, [], input, [72], 1);
    Sub(p, 53, [0, 0, 72, 104, 88, 32, 8], 3, [], input, [72], 3, [0, 0, 72, 101, 88, 32, 8]);
    var s0 := M(52, [0, 0, 72, 104, 88, 32, 8], 2, [], input, [72]);
    var s1 := M(53, [0, 0, 72, 104, 88, 32, 8], 3, [], input, [72]);
    var s2 := M(56, [0, 0, 72, 101, 88, 32, 8], 3, [], input, [72]);
    LeadsTrans(p, s0, 1, s1, 3, s2, 4, s2);
    Put(p, 56, [0, 0, 72, 101, 88, 32, 8], 3, [], input, [72]);
    var s3 := M(57, [0, 0, 72, 101, 88, 32, 8], 3, [], input, [72, 101]);
    LeadsTrans(p, s0, 4, s2, 1, s3, 5, s3);
  }

  lemma HelloLlCode()
    ensures Repeats(Test1, 57, 7, '+') && At(Test1, 64) == '.' && At(Test1, 65) == '.'
  {
  }

  /** `+++++++..` (indices 57-65): 'll' */
  lemma HelloLl(input: seq<int>)
    ensures Leads(Test1, M(57, [0, 0, 72, 101, 88, 32, 8], 3, [], input, [72, 101]), 9,
                  M(66, [0, 0, 72, 108, 88, 32, 8], 3, [], input, [72, 101, 108, 108]))
  {
    var p := Test1;
    HelloLlCode();
    Add(p, 57, [0, 0, 72, 101, 88, 32, 8], 3, [], input, [72, 101], 7, [0, 0, 72, 108, 88, 32, 8]);
    Put(p, 64, [0, 0, 72, 108, 88, 32, 8], 3, [], input, [72, 101]);
    var s0 := M(57, [0, 0, 72, 101, 88, 32, 8], 3, [], input, [72, 101]);
    var s1 := M(64, [0, 0, 72, 108, 88, 32, 8], 3, [], input, [72, 101]);
    var s2 := M(65, [0, 0, 72, 108, 88, 32, 8], 3, [], input, [72, 101, 108]);
    LeadsTrans(p, s0, 7, s1, 1, s2, 8, s2);
    Put(p, 65, [0, 0, 72, 108, 88, 32, 8], 3, [], input, [72, 101, 108]);
    var s3 := M(66, [0, 0, 72, 108, 88, 32, 8], 3, [], input, [72, 101, 108, 108]);
    LeadsTrans(p, s0, 8, s2, 1, s3, 9, s3);
  }

  lemma HelloOCode()
    ensures Repeats(Test1, 66, 3, '+') && At(Test1, 69) == '.'
  {
  }

  /** `+++.` (indices 66-69): 'o' */
  lemma HelloO(input: seq<int>)
    ensures Leads(Test1, M(66, [0, 0, 72, 108, 88, 32, 8], 3, [], input, [72, 101, 108, 108]), 4,
                  M(70, [0, 0, 72, 111, 88, 32, 8], 3, [], input, [72, 101, 108, 108, 111]))
  {
    var p := Test1;
    HelloOCode();
    Add(p, 66, [0, 0, 72, 108, 88, 32, 8], 3, [], input, [72, 101, 108, 108], 3, [0, 0, 72, 111, 88, 32, 8]);
    Put(p, 69, [0, 0, 72, 111, 88, 32, 8], 3, [], input, [72, 101, 108, 108]);
    var s0 := M(66, [0, 0, 72, 108, 88, 32, 8], 3, [], input, [72, 101, 108, 108]);
    var s1 := M(69, [0, 0, 72, 111, 88, 32, 8], 3, [], input, [72, 101, 108, 108]);
    var s2 := M(70, [0, 0, 72, 111, 88, 32, 8], 3, [], input, [72, 101, 108, 108, 111]);
    LeadsTrans(p, s0, 3, s1, 1, s2, 4, s2);
  }

  lemma HelloSpaceCode()
    ensures Repeats(Test1, 70, 2, '>') && At(Test1, 72) == '.'
  {
  }

  /** `>>.` (indices 70-72): ' ' */
  lemma HelloSpace(input: seq<int>)
    ensures Leads(Test1, M(70, [0, 0, 72, 111, 88, 32, 8], 3, [], input, [72, 101, 108, 108, 111]), 3,
                  M(73, [0, 0, 72, 111, 88, 32, 8], 5, [], input, [72, 101, 108, 108, 111, 32]))
  {
    var p := Test1;
    HelloSpaceCode();
    Right(p, 70, [0, 0, 72, 111, 88, 32, 8], 3, [], input, [72, 101, 108, 108, 111], 2);
    Put(p, 72, [0, 0, 72, 111, 88, 32, 8], 5, [], input, [72, 101, 108, 108, 111]);
    var s0 := M(70, [0, 0, 72, 111, 88, 32, 8], 3, [], input, [72, 101, 108, 108, 111]);
    var s1 := M(72, [0, 0, 72, 111, 88, 32, 8], 5, [], input, [72, 101, 108, 108, 111]);
    var s2 := M(73, [0, 0, 72, 111, 88, 32, 8], 5, [], input, [72, 101, 108, 108, 111, 32]);
    LeadsTrans(p, s0, 2, s1, 1, s2, 3, s2);
  }

  lemma HelloWCode()
    ensures Repeats(Test1, 73, 1, '<') && Repeats(Test1, 74, 1, '-') && At(Test1, 75) == '.'
  {
  }

  /** `<-.` (indices 73-75): 'W' */
  lemma HelloW(input: seq<int>)
    ensures Leads(Test1, M(73, [0, 0, 72, 111, 88, 32, 8], 5, [], input, [72, 101, 108, 108, 111, 32]), 3,
                  M(76, [0, 0, 72, 111, 87, 32, 8], 4, [], input, [72, 101, 108, 108, 111, 32, 87]))
  {
    var p := Test1;
    HelloWCode();
    Left(p, 73, [0, 0, 72, 111, 88, 32, 8], 5, [], input, [72, 101, 108, 108, 111, 32], 1);
    Sub(p, 74, [0, 0, 72, 111, 88, 32, 8], 4, [], input, [72, 101, 108, 108, 111, 32], 1, [0, 0, 72, 111, 87, 32, 8]);
    var s0 := M(73, [0, 0, 72, 111, 88, 32, 8], 5, [], input, [72, 101, 108, 108, 111, 32]);
    var s1 := M(74, [0, 0, 72, 111, 88, 32, 8], 4, [], input, [72, 101, 108, 108, 111, 32]);
    var s2 := M(75, [0, 0, 72, 111, 87, 32, 8], 4, [], input, [72, 101, 108, 108, 111, 32]);
    LeadsTrans(p, s0, 1, s1, 1, s2, 2, s2);
    Put(p, 75, [0, 0, 72, 111, 87, 32, 8], 4, [], input, [72, 101, 108, 108, 111, 32]);
    var s3 := M(76, [0, 0, 72, 111, 87, 32, 8], 4, [], input, [72, 101, 108, 108, 111, 32, 87]);
    LeadsTrans(p, s0, 2, s2, 1, s3, 3, s3);
  }

  lemma HelloO2Code()
    ensures Repeats(Test1, 76, 1, '<') && At(Test1, 77) == '.'
  {
  }

  /** `<.` (indices 76-77): 'o' */
  lemma HelloO2(input: seq<int>)
    ensures Leads(Test1, M(76, [0, 0, 72, 111, 87, 32, 8], 4, [], input, [72, 101, 108, 108, 111, 32, 87]), 2,
                  M(78, [0, 0, 72, 111, 87, 32, 8], 3, [], input, [72, 101, 108, 108, 111, 32, 87, 111]))
  {
    var p := Test1;
    HelloO2Code();
    Left(p, 76, [0, 0, 72, 111, 87, 32, 8], 4, [], input, [72, 101, 108, 108, 111, 32, 87], 1);
    Put(p, 77, [0, 0, 72, 111, 87, 32, 8], 3, [], input, [72, 101, 108, 108, 111, 32, 87]);
    var s0 := M(76, [0, 0, 72, 111, 87, 32, 8], 4, [], input, [72, 101, 108, 108, 111, 32, 87]);
    var s1 := M(77, [0, 0, 72, 111, 87, 32, 8], 3, [], input, [72, 101, 108, 108, 111, 32, 87]);
    var s2 := M(78, [0, 0, 72, 111, 87, 32, 8], 3, [], input, [72, 101, 108, 108, 111, 32, 87, 111]);
    LeadsTrans(p, s0, 1, s1, 1, s2, 2, s2);
  }

  lemma HelloRCode()
    ensures Repeats(Test1, 78, 3, '+') && At(Test1, 81) == '.'
  {
  }

  /** `+++.` (indices 78-81): 'r' */
  lemma HelloR(input: seq<int>)
    ensures Leads(Test1, M(78, [0, 0, 72, 111, 87, 32, 8], 3, [], input, [72, 101, 108, 108, 111, 32, 87, 111]), 4,
                  M(82, [0, 0, 72, 114, 87, 32, 8], 3, [], input, [72, 101, 108, 108, 111, 32, 87, 111, 114]))
  {
    var p := Test1;
    HelloRCode();
    Add(p, 78, [0, 0, 72, 111, 87, 32, 8], 3, [], input, [72, 101, 108, 108, 111, 32, 87, 111], 3, [0, 0, 72, 114, 87, 32, 8]);
    Put(p, 81, [0, 0, 72, 114, 87, 32, 8], 3, [], input, [72, 101, 108, 108, 111, 32, 87, 111]);
    var s0 := M(78, [0, 0, 72, 111, 87, 32, 8], 3, [], input, [72, 101, 108, 108, 111, 32, 87, 111]);
    var s1 := M(81, [0, 0, 72, 114, 87, 32, 8], 3, [], input, [72, 101, 108, 108, 111, 32, 87, 111]);
    var s2 := M(82, [0, 0, 72, 114, 87, 32, 8], 3, [], input, [72, 101, 108, 108, 111, 32, 87, 111, 114]);
    LeadsTrans(p, s0, 3, s1, 1, s2, 4, s2);
  }

  lemma HelloLCode()
    ensures Repeats(Test1, 82, 6, '-') && At(Test1, 88) == '.'
  {
  }

  /** `------.` (indices 82-88): 'l' */
  lemma HelloL(input: seq<int>)
    ensures Leads(Test1, M(82, [0, 0, 72, 114, 87, 32, 8], 3, [], input, [72, 101, 108, 108, 111, 32, 87, 111, 114]), 7,
                  M(89, [0, 0, 72, 108, 87, 32, 8], 3, [], input, [72, 101, 108, 108, 111, 32, 87, 111, 114, 108]))
  {
    var p := Test1;
    HelloLCode();
    Sub(p, 82, [0, 0, 72, 114, 87, 32, 8], 3, [], input, [72, 101, 108, 108, 111, 32, 87, 111, 114], 6, [0, 0, 72, 108, 87, 32, 8]);
    Put(p, 88, [0, 0, 72, 108, 87, 32, 8], 3, [], input, [72, 101, 108, 108, 111, 32, 87, 111, 114]);
    var s0 := M(82, [0, 0, 72, 114, 87, 32, 8], 3, [], input, [72, 101, 108, 108, 111, 32, 87, 111, 114]);
    var s1 := M(88, [0, 0, 72, 108, 87, 32, 8], 3, [], input, [72, 101, 108, 108, 111, 32, 87, 111, 114]);
    var s2 := M(89, [0, 0, 72, 108, 87, 32, 8], 3, [], input, [72, 101, 108, 108, 111, 32, 87, 111, 114, 108]);
    LeadsTrans(p, s0, 6, s1, 1, s2, 7, s2);
  }

  lemma HelloDCode()
    ensures Repeats(Test1, 89, 8, '-') && At(Test1, 97) == '.'
  {
  }

  /** `--------.` (indices 89-97): 'd' */
  lemma HelloD(input: seq<int>)
    ensures Leads(Test1, M(89, [0, 0, 72, 108, 87, 32, 8], 3, [], input, [72, 101, 108, 108, 111, 32, 87, 111, 114, 108]), 9,
                  M(98, [0, 0, 72, 100, 87, 32, 8], 3, [], input, [72, 101, 108, 108, 111, 32, 87, 111, 114, 108, 100]))
  {
    var p := Test1;
    HelloDCode();
    Sub(p, 89, [0, 0, 72, 108, 87, 32, 8], 3, [], input, [72, 101, 108, 108, 111, 32, 87, 111, 114, 108], 8, [0, 0, 72, 100, 87, 32, 8]);
    Put(p, 97, [0, 0, 72, 100, 87, 32, 8], 3, [], input, [72, 101, 108, 108, 111, 32, 87, 111, 114, 108]);
    var s0 := M(89, [0, 0, 72, 108, 87, 32, 8], 3, [], input, [72, 101, 108, 108, 111, 32, 87, 111, 114, 108]);
    var s1 := M(97, [0, 0, 72, 100, 87, 32, 8], 3, [], input, [72, 101, 108, 108, 111, 32, 87, 111, 114, 108]);
    var s2 := M(98, [0, 0, 72, 100, 87, 32, 8], 3, [], input, [72, 101, 108, 108, 111, 32, 87, 111, 114, 108, 100]);
    LeadsTrans(p, s0, 8, s1, 1, s2, 9, s2);
  }

  lemma HelloBangCode()
    ensures Repeats(Test1, 98, 2, '>') && Repeats(Test1, 100, 1, '+') && At(Test1, 101) == '.'
  {
  }

  /** `>>+.` (indices 98-101): '!' */
  lemma HelloBang(input: seq<int>)
    ensures Leads(Test1, M(98, [0, 0, 72, 100, 87, 32, 8], 3, [], input, [72, 101, 108, 108, 111, 32, 87, 111, 114, 108, 100]), 4,
                  M(102, [0, 0, 72, 100, 87, 33, 8], 5, [], input, [72, 101, 108, 108, 111, 32, 87, 111, 114, 108, 100, 33]))
  {
    var p := Test1;
    HelloBangCode();
    Right(p, 98, [0, 0, 72, 100, 87, 32, 8], 3, [], input, [72, 101, 108, 108, 111, 32, 87, 111, 114, 108, 100], 2);
    Add(p, 100, [0, 0, 72, 100, 87, 32, 8], 5, [], input, [72, 101, 108, 108, 111, 32, 87, 111, 114, 108, 100], 1, [0, 0, 72, 100, 87, 33, 8]);
    var s0 := M(98, [0, 0, 72, 100, 87, 32, 8], 3, [], input, [72, 101, 108, 108, 111, 32, 87, 111, 114, 108, 100]);
    var s1 := M(100, [0, 0, 72, 100, 87, 32, 8], 5, [], input, [72, 101, 108, 108, 111, 32, 87, 111, 114, 108, 100]);
    var s2 := M(101, [0, 0, 72, 100, 87, 33, 8], 5, [], input, [72, 101, 108, 108, 111, 32, 87, 111, 114, 108, 100]);
    LeadsTrans(p, s0, 2, s1, 1, s2, 3, s2);
    Put(p, 101, [0, 0, 72, 100, 87, 33, 8], 5, [], input, [72, 101, 108, 108, 111, 32, 87, 111, 114, 108, 100]);
    var s3 := M(102, [0, 0, 72, 100, 87, 33, 8], 5, [], input, [72, 101, 108, 108, 111, 32, 87, 111, 114, 108, 100, 33]);
    LeadsTrans(p, s0, 3, s2, 1, s3, 4, s3);
  }

  lemma HelloNewlineCode()
    ensures Repeats(Test1, 102, 1, '>') && Repeats(Test1, 103, 2, '+') && At(Test1, 105) == '.'
  {
  }

  /** `>++.` (indices 102-105): newline */
  lemma HelloNewline(input: seq<int>)
    ensures Leads(Test1, M(102, [0, 0, 72, 100, 87, 33, 8], 5, [], input, [72, 101, 108, 108, 111, 32, 87, 111, 114, 108, 100, 33]), 4,
                  M(106, [0, 0, 72, 100, 87, 33, 10], 6, [], input, [72, 101, 108, 108, 111, 32, 87, 111, 114, 108, 100, 33, 10]))
  {
    var p := Test1;
    HelloNewlineCode();
    Right(p, 102, [0, 0, 72, 100, 87, 33, 8], 5, [], input, [72, 101, 108, 108, 111, 32, 87, 111, 114, 108, 100, 33], 1);
    Add(p, 103, [0, 0, 72, 100, 87, 33, 8], 6, [], input, [72, 101, 108, 108, 111, 32, 87, 111, 114, 108, 100, 33], 2, [0, 0, 72, 100, 87, 33, 10]);
    var s0 := M(102, [0, 0, 72, 100, 87, 33, 8], 5, [], input, [72, 101, 108, 108, 111, 32, 87, 111, 114, 108, 100, 33]);
    var s1 := M(103, [0, 0, 72, 100, 87, 33, 8], 6, [], input, [72, 101, 108, 108, 111, 32, 87, 111, 114, 108, 100, 33]);
    var s2 := M(105, [0, 0, 72, 100, 87, 33, 10], 6, [], input, [72, 101, 108, 108, 111, 32, 87, 111, 114, 108, 100, 33]);
    LeadsTrans(p, s0, 1, s1, 2, s2, 3, s2);
    Put(p, 105, [0, 0, 72, 100, 87, 33, 10], 6, [], input, [72, 101, 108, 108, 111, 32, 87, 111, 114, 108, 100, 33]);
    var s3 := M(106, [0, 0, 72, 100, 87, 33, 10], 6, [], input, [72, 101, 108, 108, 111, 32, 87, 111, 114, 108, 100, 33, 10]);
    LeadsTrans(p, s0, 3, s2, 1, s3, 4, s3);
  }

  /** "Hello" (indices 49-69). */
  lemma HelloPart1(input: seq<int>)
    ensures Leads(Test1, M(49, [0, 0, 72, 104, 88, 32, 8], 0, [], input, []), 21,
                  M(70, [0, 0, 72, 111, 88, 32, 8], 3, [], input, [72, 101, 108, 108, 111]))
  {
    HelloH(input);
    HelloE(input);
    var s0 := M(49, [0, 0, 72, 104, 88, 32, 8], 0, [], input, []);
    var s1 := M(52, [0, 0, 72, 104, 88, 32, 8], 2, [], input, [72]);
    var s2 := M(57, [0, 0, 72, 101, 88, 32, 8], 3, [], input, [72, 101]);
    LeadsTrans(Test1, s0, 3, s1, 5, s2, 8, s2);
    HelloLl(input);
    var s3 := M(66, [0, 0, 72, 108, 88, 32, 8], 3, [], input, [72, 101, 108, 108]);
    LeadsTrans(Test1, s0, 8, s2, 9, s3, 17, s3);
    HelloO(input);
    var s4 := M(70, [0, 0, 72, 111, 88, 32, 8], 3, [], input, [72, 101, 108, 108, 111]);
    LeadsTrans(Test1, s0, 17, s3, 4, s4, 21, s4);
  }

  /** " Wor" (indices 70-81). */
  lemma HelloPart2(input: seq<int>)
    ensures Leads(Test1, M(70, [0, 0, 72, 111, 88, 32, 8], 3, [], input, [72, 101, 108, 108, 111]), 12,
                  M(82, [0, 0, 72, 114, 87, 32, 8], 3, [], input, [72, 101, 108, 108, 111, 32, 87, 111, 114]))
  {
    HelloSpace(input);
    HelloW(input);
    var s0 := M(70, [0, 0, 72, 111, 88, 32, 8], 3, [], input, [72, 101, 108, 108, 111]);
    var s1 := M(73, [0, 0, 72, 111, 88, 32, 8], 5, [], input, [72, 101, 108, 108, 111, 32]);
    var s2 := M(76, [0, 0, 72, 111, 87, 32, 8], 4, [], input, [72, 101, 108, 108, 111, 32, 87]);
    LeadsTrans(Test1, s0, 3, s1, 3, s2, 6, s2);
    HelloO2(input);
    var s3 := M(78, [0, 0, 72, 111, 87, 32, 8], 3, [], input, [72, 101, 108, 108, 111, 32, 87, 111]);
    LeadsTrans(Test1, s0, 6, s2, 2, s3, 8, s3);
    HelloR(input);
    var s4 := M(82, [0, 0, 72, 114, 87, 32, 8], 3, [], input, [72, 101, 108, 108, 111, 32, 87, 111, 114]);
    LeadsTrans(Test1, s0, 8, s3, 4, s4, 12, s4);
  }

  /** "ld!\n" (indices 82-105). */
  lemma HelloPart3(input: seq<int>)
    ensures Leads(Test1, M(82, [0, 0, 72, 114, 87, 32, 8], 3, [], input, [72, 101, 108, 108, 111, 32, 87, 111, 114]), 24,
                  M(106, [0, 0, 72, 100, 87, 33, 10], 6, [], input, [72, 101, 108, 108, 111, 32, 87, 111, 114, 108, 100, 33, 10]))
  {
    HelloL(input);
    HelloD(input);
    var s0 := M(82, [0, 0, 72, 114, 87, 32, 8], 3, [], input, [72, 101, 108, 108, 111, 32, 87, 111, 114]);
    var s1 := M(89, [0, 0, 72, 108, 87, 32, 8], 3, [], input, [72, 101, 108, 108, 111, 32, 87, 111, 114, 108]);
    var s2 := M(98, [0, 0, 72, 100, 87, 32, 8], 3, [], input, [72, 101, 108, 108, 111, 32, 87, 111, 114, 108, 100]);
    LeadsTrans(Test1, s0, 7, s1, 9, s2, 16, s2);
    HelloBang(input);
    var s3 := M(102, [0, 0, 72, 100, 87, 33, 8], 5, [], input, [72, 101, 108, 108, 111, 32, 87, 111, 114, 108, 100, 33]);
    LeadsTrans(Test1, s0, 16, s2, 4, s3, 20, s3);
    HelloNewline(input);
    var s4 := M(106, [0, 0, 72, 100, 87, 33, 10], 6, [], input, [72, 101, 108, 108, 111, 32, 87, 111, 114, 108, 100, 33, 10]);
    LeadsTrans(Test1, s0, 20, s3, 4, s4, 24, s4);
  }

  /** The output phase (indices 49-105) writes "Hello World!\n". */
  lemma HelloText(input: seq<int>)
    ensures Leads(Test1, M(49, [0, 0, 72, 104, 88, 32, 8], 0, [], input, []), 57,
                  M(106, [0, 0, 72, 100, 87, 33, 10], 6, [], input, [72, 101, 108, 108, 111, 32, 87, 111, 114, 108, 100, 33, 10]))
  {
    HelloPart1(input);
    HelloPart2(input);
    var s0 := M(49, [0, 0, 72, 104, 88, 32, 8], 0, [], input, []);
    var s1 := M(70, [0, 0, 72, 111, 88, 32, 8], 3, [], input, [72, 101, 108, 108, 111]);
    var s2 := M(82, [0, 0, 72, 114, 87, 32, 8], 3, [], input, [72, 101, 108, 108, 111, 32, 87, 111, 114]);
    LeadsTrans(Test1, s0, 21, s1, 12, s2, 33, s2);
    HelloPart3(input);
    var s3 := M(106, [0, 0, 72, 100, 87, 33, 10], 6, [], input, [72, 101, 108, 108, 111, 32, 87, 111, 114, 108, 100, 33, 10]);
    LeadsTrans(Test1, s0, 33, s2, 24, s3, 57, s3);
  }

  lemma HelloBytes()
    ensures Ascii("Hello World!\n") == [72, 101, 108, 108, 111, 32, 87, 111, 114, 108, 100, 33, 10]
  {
  }

  /** test_1 writes "Hello World!\n" and halts after 906 steps, whatever
      its input. */
  lemma Test1Output(input: seq<int>, fuel: nat)
    requires fuel > 906
    ensures var r := Run(Test1, Init(input), fuel);
      r.status == Halted && r.next.output == Ascii("Hello World!\n")
  {
    HelloLoops(input);
    HelloText(input);
    var final := M(106, [0, 0, 72, 100, 87, 33, 10], 6, [], input, [72, 101, 108, 108, 111, 32, 87, 111, 114, 108, 100, 33, 10]);
    var s0 := M(49, [0, 0, 72, 104, 88, 32, 8], 0, [], input, []);
    LeadsTrans(Test1, Init(input), 849, s0, 57, final, 906, final);
    HaltsAfter(Test1, Init(input), 906, final, fuel);
    HelloBytes();
  }
}
