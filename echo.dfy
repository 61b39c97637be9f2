/** The test program test_3 of bf.c:34, followed through `run` step by
    step: it reads three characters into cells 0 to 2, changes them by +1,
    -1 and +2, writes the three results twice, counts 3, 2, 1 down on
    cell 3 and ends with a newline from cell 4.  It is the one test program
    whose output depends on its input, so it shows the end-of-input policy:
    a `,` with nothing left to read stores 255. */
module Echo {
  import opened Semantics
  import opened Properties
  import opened Samples
  import opened Programs

  /** The C string test_3. */
  const Test3: string := ",+.>,-.>,++.<<.>.>.>+++[.-]>++++++++++."

  /** A byte changed by k modulo 256. */
  function Plus(b: byte, k: int): byte {
    (b as int + k) % 256
  }

  /** What the countdown loop writes when it starts from n: n, n - 1, ..., 1. */
  function Falling(n: nat): (r: seq<byte>)
    requires n < 256
    ensures |r| == n
    ensures forall i :: 0 <= i < n ==> r[i] == n - i
  {
    if n == 0 then [] else [n as byte] + Falling(n - 1)
  }

  // ----- reading the three characters -----

  lemma ReadFirstCode()
    ensures At(Test3, 0) == ',' && Repeats(Test3, 1, 1, '+') && At(Test3, 2) == '.'
  {
  }

  /** `,+.` (indices 0-2): the first character, plus one, is written. */
  lemma ReadFirst(input: seq<int>)
    ensures var x1 := Plus(Read(input), 1);
      Leads(Test3, Init(input), 3, M(3, [x1, 0, 0, 0, 0], 0, [], Rest(input), [x1]))
  {
    var x := Read(input);
    var x1 := Plus(x, 1);
    var i1 := Rest(input);
    ReadFirstCode();
    InitCells(input, 5);
    assert seq(5, _ => 0) == [0, 0, 0, 0, 0];
    Get(Test3, 0, [0, 0, 0, 0, 0], 0, [], input, [], [x, 0, 0, 0, 0]);
    Add(Test3, 1, [x, 0, 0, 0, 0], 0, [], i1, [], 1, [x1, 0, 0, 0, 0]);
    var s0 := M(1, [x, 0, 0, 0, 0], 0, [], i1, []);
    var s1 := M(2, [x1, 0, 0, 0, 0], 0, [], i1, []);
    LeadsTrans(Test3, Init(input), 1, s0, 1, s1, 2, s1);
    Put(Test3, 2, [x1, 0, 0, 0, 0], 0, [], i1, []);
    assert [] + [x1] == [x1];
    var s2 := M(3, [x1, 0, 0, 0, 0], 0, [], i1, [] + [x1]);
    var s3 := M(3, [x1, 0, 0, 0, 0], 0, [], i1, [x1]);
    LeadsTrans(Test3, Init(input), 2, s1, 1, s2, 3, s3);
  }

  lemma ReadSecondCode()
    ensures Repeats(Test3, 3, 1, '>') && At(Test3, 4) == ',' && Repeats(Test3, 5, 1, '-') && At(Test3, 6) == '.'
  {
  }

  /** `>,-.` (indices 3-6): the second character, minus one, is written. */
  lemma ReadSecond(input: seq<int>, x1: byte)
    ensures var y1 := Plus(Read(input), -1);
      Leads(Test3, M(3, [x1, 0, 0, 0, 0], 0, [], input, [x1]), 4,
            M(7, [x1, y1, 0, 0, 0], 1, [], Rest(input), [x1, y1]))
  {
    var y := Read(input);
    var y1 := Plus(y, -1);
    var i1 := Rest(input);
    var s := M(3, [x1, 0, 0, 0, 0], 0, [], input, [x1]);
    ReadSecondCode();
    Right(Test3, 3, [x1, 0, 0, 0, 0], 0, [], input, [x1], 1);
    Get(Test3, 4, [x1, 0, 0, 0, 0], 1, [], input, [x1], [x1, y, 0, 0, 0]);
    var s0 := M(4, [x1, 0, 0, 0, 0], 1, [], input, [x1]);
    var s1 := M(5, [x1, y, 0, 0, 0], 1, [], i1, [x1]);
    LeadsTrans(Test3, s, 1, s0, 1, s1, 2, s1);
    Sub(Test3, 5, [x1, y, 0, 0, 0], 1, [], i1, [x1], 1, [x1, y1, 0, 0, 0]);
    var s2 := M(6, [x1, y1, 0, 0, 0], 1, [], i1, [x1]);
    LeadsTrans(Test3, s, 2, s1, 1, s2, 3, s2);
    Put(Test3, 6, [x1, y1, 0, 0, 0], 1, [], i1, [x1]);
    assert [x1] + [y1] == [x1, y1];
    var s3 := M(7, [x1, y1, 0, 0, 0], 1, [], i1, [x1] + [y1]);
    var s4 := M(7, [x1, y1, 0, 0, 0], 1, [], i1, [x1, y1]);
    LeadsTrans(Test3, s, 3, s2, 1, s3, 4, s4);
  }

  lemma ReadThirdCode()
    ensures Repeats(Test3, 7, 1, '>') && At(Test3, 8) == ',' && Repeats(Test3, 9, 2, '+') && At(Test3, 11) == '.'
  {
  }

  /** `>,++.` (indices 7-11): the third character, plus two, is written. */
  lemma ReadThird(input: seq<int>, x1: byte, y1: byte)
    ensures var z2 := Plus(Read(input), 2);
      Leads(Test3, M(7, [x1, y1, 0, 0, 0], 1, [], input, [x1, y1]), 5,
            M(12, [x1, y1, z2, 0, 0], 2, [], Rest(input), [x1, y1, z2]))
  {
    var z := Read(input);
    var z2 := Plus(z, 2);
    var i1 := Rest(input);
    var s := M(7, [x1, y1, 0, 0, 0], 1, [], input, [x1, y1]);
    ReadThirdCode();
    Right(Test3, 7, [x1, y1, 0, 0, 0], 1, [], input, [x1, y1], 1);
    Get(Test3, 8, [x1, y1, 0, 0, 0], 2, [], input, [x1, y1], [x1, y1, z, 0, 0]);
    var s0 := M(8, [x1, y1, 0, 0, 0], 2, [], input, [x1, y1]);
    var s1 := M(9, [x1, y1, z, 0, 0], 2, [], i1, [x1, y1]);
    LeadsTrans(Test3, s, 1, s0, 1, s1, 2, s1);
    Add(Test3, 9, [x1, y1, z, 0, 0], 2, [], i1, [x1, y1], 2, [x1, y1, z2, 0, 0]);
    var s2 := M(11, [x1, y1, z2, 0, 0], 2, [], i1, [x1, y1]);
    LeadsTrans(Test3, s, 2, s1, 2, s2, 4, s2);
    Put(Test3, 11, [x1, y1, z2, 0, 0], 2, [], i1, [x1, y1]);
    assert [x1, y1] + [z2] == [x1, y1, z2];
    var s3 := M(12, [x1, y1, z2, 0, 0], 2, [], i1, [x1, y1] + [z2]);
    var s4 := M(12, [x1, y1, z2, 0, 0], 2, [], i1, [x1, y1, z2]);
    LeadsTrans(Test3, s, 4, s2, 1, s3, 5, s4);
  }

  // ----- writing them again -----

  lemma BackToFirstCode()
    ensures Repeats(Test3, 12, 2, '<') && At(Test3, 14) == '.'
  {
  }

  /** `<<.` (indices 12-14): cell 0 is written again. */
  lemma BackToFirst(input: seq<int>, x1: byte, y1: byte, z2: byte)
    ensures Leads(Test3, M(12, [x1, y1, z2, 0, 0], 2, [], input, [x1, y1, z2]), 3,
                  M(15, [x1, y1, z2, 0, 0], 0, [], input, [x1, y1, z2, x1]))
  {
    var cs := [x1, y1, z2, 0, 0];
    BackToFirstCode();
    Left(Test3, 12, cs, 2, [], input, [x1, y1, z2], 2);
    Put(Test3, 14, cs, 0, [], input, [x1, y1, z2]);
    assert [x1, y1, z2] + [x1] == [x1, y1, z2, x1];
    var s0 := M(12, cs, 2, [], input, [x1, y1, z2]);
    var s1 := M(14, cs, 0, [], input, [x1, y1, z2]);
    var s2 := M(15, cs, 0, [], input, [x1, y1, z2] + [x1]);
    var s3 := M(15, cs, 0, [], input, [x1, y1, z2, x1]);
    LeadsTrans(Test3, s0, 2, s1, 1, s2, 3, s3);
  }

  lemma OnToThirdCode()
    ensures Repeats(Test3, 15, 1, '>') && At(Test3, 16) == '.' && Repeats(Test3, 17, 1, '>') && At(Test3, 18) == '.'
  {
  }

  /** `>.>.` (indices 15-18): cells 1 and 2 are written again. */
  lemma OnToThird(input: seq<int>, x1: byte, y1: byte, z2: byte)
    ensures Leads(Test3, M(15, [x1, y1, z2, 0, 0], 0, [], input, [x1, y1, z2, x1]), 4,
                  M(19, [x1, y1, z2, 0, 0], 2, [], input, [x1, y1, z2, x1, y1, z2]))
  {
    var cs := [x1, y1, z2, 0, 0];
    var s := M(15, cs, 0, [], input, [x1, y1, z2, x1]);
    OnToThirdCode();
    Right(Test3, 15, cs, 0, [], input, [x1, y1, z2, x1], 1);
    Put(Test3, 16, cs, 1, [], input, [x1, y1, z2, x1]);
    assert [x1, y1, z2, x1] + [y1] == [x1, y1, z2, x1, y1];
    var s0 := M(16, cs, 1, [], input, [x1, y1, z2, x1]);
    var s1 := M(17, cs, 1, [], input, [x1, y1, z2, x1] + [y1]);
    var s2 := M(17, cs, 1, [], input, [x1, y1, z2, x1, y1]);
    LeadsTrans(Test3, s, 1, s0, 1, s1, 2, s2);
    Right(Test3, 17, cs, 1, [], input, [x1, y1, z2, x1, y1], 1);
    var s3 := M(18, cs, 2, [], input, [x1, y1, z2, x1, y1]);
    LeadsTrans(Test3, s, 2, s2, 1, s3, 3, s3);
    Put(Test3, 18, cs, 2, [], input, [x1, y1, z2, x1, y1]);
    assert [x1, y1, z2, x1, y1] + [z2] == [x1, y1, z2, x1, y1, z2];
    var s4 := M(19, cs, 2, [], input, [x1, y1, z2, x1, y1] + [z2]);
    var s5 := M(19, cs, 2, [], input, [x1, y1, z2, x1, y1, z2]);
    LeadsTrans(Test3, s, 3, s3, 1, s4, 4, s5);
  }

  // ----- the countdown loop `[.-]` -----

  lemma CountStartCode()
    ensures Repeats(Test3, 19, 1, '>') && Repeats(Test3, 20, 3, '+') && At(Test3, 23) == '['
  {
  }

  /** `>+++[` (indices 19-23): cell 3 becomes 3 and the loop opens. */
  lemma CountStart(input: seq<int>, out: seq<byte>, x1: byte, y1: byte, z2: byte)
    ensures Leads(Test3, M(19, [x1, y1, z2, 0, 0], 2, [], input, out), 5,
                  M(24, [x1, y1, z2, 3, 0], 3, [23], input, out))
  {
    var s := M(19, [x1, y1, z2, 0, 0], 2, [], input, out);
    CountStartCode();
    Right(Test3, 19, [x1, y1, z2, 0, 0], 2, [], input, out, 1);
    Add(Test3, 20, [x1, y1, z2, 0, 0], 3, [], input, out, 3, [x1, y1, z2, 3, 0]);
    var s0 := M(20, [x1, y1, z2, 0, 0], 3, [], input, out);
    var s1 := M(23, [x1, y1, z2, 3, 0], 3, [], input, out);
    LeadsTrans(Test3, s, 1, s0, 3, s1, 4, s1);
    Enter(Test3, 23, [x1, y1, z2, 3, 0], 3, [], input, out);
    assert [] + [23] == [23];
    var s2 := M(24, [x1, y1, z2, 3, 0], 3, [] + [23], input, out);
    var s3 := M(24, [x1, y1, z2, 3, 0], 3, [23], input, out);
    LeadsTrans(Test3, s, 4, s1, 1, s2, 5, s3);
  }

  lemma CountCode()
    ensures At(Test3, 24) == '.' && Repeats(Test3, 25, 1, '-') && At(Test3, 26) == ']'
  {
  }

  /** The loop body `.-` and its `]` (indices 24-26) on cell 3 = n: n is
      written and counted down, and the body repeats while n - 1 is not
      zero. */
  lemma CountAgain(input: seq<int>, cs: seq<byte>, out: seq<byte>, n: nat)
    requires |cs| == 5 && 1 < n < 256 && cs[3] == n
    ensures Leads(Test3, M(24, cs, 3, [23], input, out), 3, M(24, cs[3 := n - 1], 3, [23], input, out + [n as byte]))
  {
    var s := M(24, cs, 3, [23], input, out);
    var t := cs[3 := n - 1];
    CountCode();
    Put(Test3, 24, cs, 3, [23], input, out);
    Sub(Test3, 25, cs, 3, [23], input, out + [cs[3]], 1, t);
    var s0 := M(25, cs, 3, [23], input, out + [cs[3]]);
    var s1 := M(26, t, 3, [23], input, out + [cs[3]]);
    var s2 := M(26, t, 3, [23], input, out + [n as byte]);
    LeadsTrans(Test3, s, 1, s0, 1, s1, 2, s2);
    Back(Test3, 26, t, 3, [23], input, out + [n as byte]);
    var s3 := M(24, t, 3, [23], input, out + [n as byte]);
    LeadsTrans(Test3, s, 2, s2, 1, s3, 3, s3);
  }

  /** The last turn of the countdown loop: `]` at index 26 closes it. */
  lemma CountLast(input: seq<int>, cs: seq<byte>, out: seq<byte>, n: nat)
    requires |cs| == 5 && n == 1 && cs[3] == n
    ensures Leads(Test3, M(24, cs, 3, [23], input, out), 3 * n, M(27, cs[3 := 0], 3, [], input, out + Falling(n)))
  {
    var s := M(24, cs, 3, [23], input, out);
    var t := cs[3 := 0];
    CountCode();
    Put(Test3, 24, cs, 3, [23], input, out);
    Sub(Test3, 25, cs, 3, [23], input, out + [cs[3]], 1, t);
    var s0 := M(25, cs, 3, [23], input, out + [cs[3]]);
    var s1 := M(26, t, 3, [23], input, out + [cs[3]]);
    var s2 := M(26, t, 3, [23], input, out + [1]);
    LeadsTrans(Test3, s, 1, s0, 1, s1, 2, s2);
    Exit(Test3, 26, t, 3, [23], input, out + [1]);
    assert [23][..0] == [];
    assert Falling(n) == [1];
    var s3 := M(27, t, 3, [23][..0], input, out + [1]);
    var s4 := M(27, t, 3, [], input, out + Falling(n));
    LeadsTrans(Test3, s, 2, s2, 1, s3, 3 * n, s4);
  }

  /** The countdown loop `[.-]` entered with n in cell 3 writes n, n - 1,
      ..., 1 and closes with cell 3 zero. */
  lemma {:induction false} CountLoop(input: seq<int>, cs: seq<byte>, out: seq<byte>, n: nat)
    requires |cs| == 5 && 0 < n < 256 && cs[3] == n
    ensures Leads(Test3, M(24, cs, 3, [23], input, out), 3 * n, M(27, cs[3 := 0], 3, [], input, out + Falling(n)))
    decreases n, 1
  {
    if n == 1 {
      CountLast(input, cs, out, n);
    } else {
      CountRest(input, cs, out, n);
    }
  }

  /** CountLoop for more than one turn: one turn, then the rest. */
  lemma {:induction false} CountRest(input: seq<int>, cs: seq<byte>, out: seq<byte>, n: nat)
    requires |cs| == 5 && 1 < n < 256 && cs[3] == n
    ensures Leads(Test3, M(24, cs, 3, [23], input, out), 3 * n, M(27, cs[3 := 0], 3, [], input, out + Falling(n)))
    decreases n, 0
  {
    var t := cs[3 := n - 1];
    CountAgain(input, cs, out, n);
    CountLoop(input, t, out + [n as byte], n - 1);
    assert t[3 := 0] == cs[3 := 0];
    assert out + [n as byte] + Falling(n - 1) == out + Falling(n);
    assert 3 + 3 * (n - 1) == 3 * n;
    var s0 := M(24, cs, 3, [23], input, out);
    var s1 := M(24, t, 3, [23], input, out + [n as byte]);
    var s2 := M(27, t[3 := 0], 3, [], input, out + [n as byte] + Falling(n - 1));
    var s3 := M(27, cs[3 := 0], 3, [], input, out + Falling(n));
    LeadsTrans(Test3, s0, 3, s1, 3 * (n - 1), s2, 3 * n, s3);
  }

  // ----- the newline -----

  lemma NewlineCode()
    ensures Repeats(Test3, 27, 1, '>') && Repeats(Test3, 28, 10, '+') && At(Test3, 38) == '.' && At(Test3, 39) == '\0'
  {
  }

  /** `>++++++++++.` (indices 27-38): cell 4 becomes 10 and is written. */
  lemma Newline(input: seq<int>, out: seq<byte>, x1: byte, y1: byte, z2: byte)
    ensures Leads(Test3, M(27, [x1, y1, z2, 0, 0], 3, [], input, out), 12,
                  M(39, [x1, y1, z2, 0, 10], 4, [], input, out + [10]))
  {
    var s := M(27, [x1, y1, z2, 0, 0], 3, [], input, out);
    NewlineCode();
    Right(Test3, 27, [x1, y1, z2, 0, 0], 3, [], input, out, 1);
    Add(Test3, 28, [x1, y1, z2, 0, 0], 4, [], input, out, 10, [x1, y1, z2, 0, 10]);
    var s0 := M(28, [x1, y1, z2, 0, 0], 4, [], input, out);
    var s1 := M(38, [x1, y1, z2, 0, 10], 4, [], input, out);
    LeadsTrans(Test3, s, 1, s0, 10, s1, 11, s1);
    Put(Test3, 38, [x1, y1, z2, 0, 10], 4, [], input, out);
    var s2 := M(39, [x1, y1, z2, 0, 10], 4, [], input, out + [10]);
    LeadsTrans(Test3, s, 11, s1, 1, s2, 12, s2);
  }

  // ----- the whole run -----

  /** Indices 0-11: the three characters are read, changed and written. */
  lemma Test3Read(input: seq<int>)
    ensures var i1 := Rest(input);
      var i2 := Rest(i1);
      var x1, y1, z2 := Plus(Read(input), 1), Plus(Read(i1), -1), Plus(Read(i2), 2);
      Leads(Test3, Init(input), 12, M(12, [x1, y1, z2, 0, 0], 2, [], Rest(i2), [x1, y1, z2]))
  {
    var i1 := Rest(input);
    var i2 := Rest(i1);
    var x1, y1, z2 := Plus(Read(input), 1), Plus(Read(i1), -1), Plus(Read(i2), 2);
    ReadFirst(input);
    ReadSecond(i1, x1);
    var s0 := M(3, [x1, 0, 0, 0, 0], 0, [], i1, [x1]);
    var s1 := M(7, [x1, y1, 0, 0, 0], 1, [], i2, [x1, y1]);
    LeadsTrans(Test3, Init(input), 3, s0, 4, s1, 7, s1);
    ReadThird(i2, x1, y1);
    var s2 := M(12, [x1, y1, z2, 0, 0], 2, [], Rest(i2), [x1, y1, z2]);
    LeadsTrans(Test3, Init(input), 7, s1, 5, s2, 12, s2);
  }

  /** Indices 12-26: the three results again, then 3, 2 and 1. */
  lemma Test3Repeat(input: seq<int>, x1: byte, y1: byte, z2: byte)
    ensures Leads(Test3, M(12, [x1, y1, z2, 0, 0], 2, [], input, [x1, y1, z2]), 21,
                  M(27, [x1, y1, z2, 0, 0], 3, [], input, [x1, y1, z2, x1, y1, z2] + Falling(3)))
  {
    var out := [x1, y1, z2, x1, y1, z2];
    var s := M(12, [x1, y1, z2, 0, 0], 2, [], input, [x1, y1, z2]);
    BackToFirst(input, x1, y1, z2);
    OnToThird(input, x1, y1, z2);
    var s0 := M(15, [x1, y1, z2, 0, 0], 0, [], input, [x1, y1, z2, x1]);
    var s1 := M(19, [x1, y1, z2, 0, 0], 2, [], input, out);
    LeadsTrans(Test3, s, 3, s0, 4, s1, 7, s1);
    CountStart(input, out, x1, y1, z2);
    var s2 := M(24, [x1, y1, z2, 3, 0], 3, [23], input, out);
    LeadsTrans(Test3, s, 7, s1, 5, s2, 12, s2);
    CountLoop(input, [x1, y1, z2, 3, 0], out, 3);
    assert [x1, y1, z2, 3, 0][3 := 0] == [x1, y1, z2, 0, 0];
    var s3 := M(27, [x1, y1, z2, 3, 0][3 := 0], 3, [], input, out + Falling(3));
    var s4 := M(27, [x1, y1, z2, 0, 0], 3, [], input, out + Falling(3));
    LeadsTrans(Test3, s, 12, s2, 9, s3, 21, s4);
  }

  /** The whole run of test_3, up to its terminator at index 39. */
  lemma Test3Run(input: seq<int>)
    ensures var i1 := Rest(input);
      var i2 := Rest(i1);
      var x1, y1, z2 := Plus(Read(input), 1), Plus(Read(i1), -1), Plus(Read(i2), 2);
      Leads(Test3, Init(input), 45,
            M(39, [x1, y1, z2, 0, 10], 4, [], Rest(i2), [x1, y1, z2, x1, y1, z2] + Falling(3) + [10]))
  {
    var i1 := Rest(input);
    var i2 := Rest(i1);
    var i3 := Rest(i2);
    var x1, y1, z2 := Plus(Read(input), 1), Plus(Read(i1), -1), Plus(Read(i2), 2);
    var out := [x1, y1, z2, x1, y1, z2] + Falling(3);
    Test3Read(input);
    Test3Repeat(i3, x1, y1, z2);
    var s0 := M(12, [x1, y1, z2, 0, 0], 2, [], i3, [x1, y1, z2]);
    var s1 := M(27, [x1, y1, z2, 0, 0], 3, [], i3, out);
    LeadsTrans(Test3, Init(input), 12, s0, 21, s1, 33, s1);
    Newline(i3, out, x1, y1, z2);
    var s2 := M(39, [x1, y1, z2, 0, 10], 4, [], i3, out + [10]);
    LeadsTrans(Test3, Init(input), 33, s1, 12, s2, 45, s2);
  }

  /** test_3 halts after 45 steps having consumed exactly three input
      values x, y and z, and writes x + 1, y - 1, z + 2 (modulo 256) twice,
      then 3, 2, 1 and a newline. */
  lemma Test3Output(input: seq<int>, fuel: nat)
    requires fuel > 45
    ensures var r := Run(Test3, Init(input), fuel);
      var x1, y1, z2 := Plus(Read(input), 1), Plus(Read(Rest(input)), -1), Plus(Read(Rest(Rest(input))), 2);
      r.status == Halted && r.next.input == Rest(Rest(Rest(input))) &&
      r.next.output == [x1, y1, z2, x1, y1, z2, 3, 2, 1, 10]
  {
    var i3 := Rest(Rest(Rest(input)));
    var x1, y1, z2 := Plus(Read(input), 1), Plus(Read(Rest(input)), -1), Plus(Read(Rest(Rest(input))), 2);
    var out := [x1, y1, z2, x1, y1, z2] + Falling(3) + [10];
    Test3Run(input);
    NewlineCode();
    var s0 := M(39, [x1, y1, z2, 0, 10], 4, [], i3, out);
    HaltsAfter(Test3, Init(input), 45, s0, fuel);
    assert Falling(3) == [3, 2, 1];
    assert out == [x1, y1, z2, x1, y1, z2, 3, 2, 1, 10];
  }

  /** With no input at all every `,` stores 255, the value of EOF as an
      unsigned char, so test_3 writes 0, 254 and 1 twice. */
  lemma Test3NoInput(fuel: nat)
    requires fuel > 45
    ensures var r := Run(Test3, Init([]), fuel);
      r.status == Halted && r.next.output == [0, 254, 1, 0, 254, 1, 3, 2, 1, 10]
  {
    Test3Output([], fuel);
  }

  /** On "abc" test_3 writes "bae" twice, then 3, 2, 1 and a newline. */
  lemma Test3Abc(fuel: nat)
    requires fuel > 45
    ensures var r := Run(Test3, Init(Ascii("abc")), fuel);
      r.status == Halted && r.next.input == [] && r.next.output == Ascii("baebae") + [3, 2, 1, 10]
  {
    var input := Ascii("abc");
    assert input == [97, 98, 99];
    assert Rest(input) == [98, 99] && Rest(Rest(input)) == [99] && Rest(Rest(Rest(input))) == [];
    assert Read(input) == 97 && Read(Rest(input)) == 98 && Read(Rest(Rest(input))) == 99;
    Test3Output(input, fuel);
    assert Ascii("baebae") + [3, 2, 1, 10] == [98, 97, 101, 98, 97, 101, 3, 2, 1, 10];
  }
}
