/** The test program test_2 of bf.c:30-32, which prints
    "9 8 7 6 5 4 3 2 1 0 \n", followed through `run` step by step. */
module Countdown {
  import opened Semantics
  import opened Properties
  import opened Samples
  import opened Programs

  /** The C string test_2, cut at the ends of its runs. */
  const Test2: string :=
    "++++++++++++++++++++++++++++++++" + "[>+>+<<-]>>" + "+++++++++++++++++++++++++" + "<<" +
    "++++++++++" + "[>>.-<.<-]" + "++++++++++" + "."

  /** test_2 with its runs of `+` written as `Repeat`, the form the lemmas
      below step through. */
  function Test2Runs(): seq<char> {
    Repeat('+', 32) + "[>+>+<<-]>>" + Repeat('+', 25) + "<<" + Repeat('+', 10) + "[>>.-<.<-]" + Repeat('+', 10) + "."
  }

  lemma Test2RunsIsTest2()
    ensures Test2Runs() == Test2
  {
    assert Repeat('+', 32) == "++++++++++++++++++++++++++++++++";
    assert Repeat('+', 25) == "+++++++++++++++++++++++++";
    assert Repeat('+', 10) == "++++++++++";
  }

  lemma CodeCopy()
    ensures Repeats(Test2Runs(), 33, 1, '>') && Repeats(Test2Runs(), 34, 1, '+') && Repeats(Test2Runs(), 35, 1, '>') && Repeats(Test2Runs(), 36, 1, '+')
  {
  }

  /** `>+>+` (indices 33-36): one unit more in cells 1 and 2. */
  lemma CopyTurnAdd(input: seq<int>, n: byte, a: byte, b: byte)
    requires a < 255 && b < 255
    ensures Leads(Test2Runs(), M(33, [n, a, b], 0, [32], input, []), 4, M(37, [n, a + 1, b + 1], 2, [32], input, []))
  {
    var p := Test2Runs();
    CodeCopy();
    Right(p, 33, [n, a, b], 0, [32], input, [], 1);
    Add(p, 34, [n, a, b], 1, [32], input, [], 1, [n, a + 1, b]);
    var s0 := M(33, [n, a, b], 0, [32], input, []);
    var s1 := M(34, [n, a, b], 1, [32], input, []);
    var s2 := M(35, [n, a + 1, b], 1, [32], input, []);
    LeadsTrans(p, s0, 1, s1, 1, s2, 2, s2);
    Right(p, 35, [n, a + 1, b], 1, [32], input, [], 1);
    Add(p, 36, [n, a + 1, b], 2, [32], input, [], 1, [n, a + 1, b + 1]);
    var s3 := M(36, [n, a + 1, b], 2, [32], input, []);
    var s4 := M(37, [n, a + 1, b + 1], 2, [32], input, []);
    LeadsTrans(p, s2, 1, s3, 1, s4, 2, s4);
    LeadsTrans(p, s0, 2, s2, 2, s4, 4, s4);
  }

  /** One turn of `[>+>+<<-]` (indices 33-39) moves one unit of cell 0
      into both cells 1 and 2. */
  lemma CopyTurn(input: seq<int>, n: byte, a: byte, b: byte)
    requires 0 < n && a < 255 && b < 255
    ensures Leads(Test2Runs(), M(33, [n, a, b], 0, [32], input, []), 7, M(40, [n - 1, a + 1, b + 1], 0, [32], input, []))
  {
    var p := Test2Runs();
    CopyTurnAdd(input, n, a, b);
    Left(p, 37, [n, a + 1, b + 1], 2, [32], input, [], 2);
    Sub(p, 39, [n, a + 1, b + 1], 0, [32], input, [], 1, [n - 1, a + 1, b + 1]);
    var s := M(33, [n, a, b], 0, [32], input, []);
    var s0 := M(37, [n, a + 1, b + 1], 2, [32], input, []);
    var s1 := M(39, [n, a + 1, b + 1], 0, [32], input, []);
    var s2 := M(40, [n - 1, a + 1, b + 1], 0, [32], input, []);
    LeadsTrans(p, s0, 2, s1, 1, s2, 3, s2);
    LeadsTrans(p, s, 4, s0, 3, s2, 7, s2);
  }

  /** The loop `[>+>+<<-]` entered with n in cell 0: after n turns cell 0
      is zero, cells 1 and 2 have grown by n and the loop is closed. */
  lemma {:induction false} CopyLoop(input: seq<int>, n: byte, a: byte, b: byte)
    requires 0 < n && a as int + n < 256 && b as int + n < 256
    ensures Leads(Test2Runs(), M(33, [n, a, b], 0, [32], input, []), 8 * n as int,
                  M(41, [0, a + n, b + n], 0, [], input, []))
    decreases n
  {
    var p := Test2Runs();
    var s := M(33, [n, a, b], 0, [32], input, []);
    var t := M(40, [n - 1, a + 1, b + 1], 0, [32], input, []);
    var w := M(41, [0, a + n, b + n], 0, [], input, []);
    CopyTurn(input, n, a, b);
    if n == 1 {
      Exit(p, 40, [n - 1, a + 1, b + 1], 0, [32], input, []);
      assert [32][..0] == [];
      LeadsTrans(p, s, 7, t, 1, w, 8 * n as int, w);
    } else {
      Back(p, 40, [n - 1, a + 1, b + 1], 0, [32], input, []);
      var u := M(33, [n - 1, a + 1, b + 1], 0, [32], input, []);
      LeadsTrans(p, s, 7, t, 1, u, 8, u);
      CopyLoop(input, n - 1, a + 1, b + 1);
      LeadsTrans(p, s, 8, u, 8 * (n - 1) as int, w, 8 * n as int, w);
    }
  }

  /** From the start: 32 in cell 0, then the copy loop leaves 32 in cells
      1 and 2. */
  lemma Test2Copy(input: seq<int>)
    ensures Leads(Test2Runs(), Init(input), 289, M(41, [0, 32, 32], 0, [], input, []))
  {
    var p := Test2Runs();
    InitCells(input, 3);
    assert seq(3, _ => 0) == [0, 0, 0];
    assert Repeats(p, 0, 32, '+');
    Add(p, 0, [0, 0, 0], 0, [], input, [], 32, [32, 0, 0]);
    Enter(p, 32, [32, 0, 0], 0, [], input, []);
    var s0 := M(32, [32, 0, 0], 0, [], input, []);
    var s1 := M(33, [32, 0, 0], 0, [32], input, []);
    LeadsTrans(p, Init(input), 32, s0, 1, s1, 33, s1);
    CopyLoop(input, 32, 0, 0);
    var s2 := M(41, [0, 32, 32], 0, [], input, []);
    LeadsTrans(p, Init(input), 33, s1, 256, s2, 289, s2);
  }

  /** `>>` and 25 `+` (indices 41-67): cell 2 becomes '9'. */
  lemma Test2Nine(input: seq<int>)
    ensures Leads(Test2Runs(), M(41, [0, 32, 32], 0, [], input, []), 27, M(68, [0, 32, 57], 2, [], input, []))
  {
    var p := Test2Runs();
    assert Repeats(p, 41, 2, '>') && Repeats(p, 43, 25, '+');
    Right(p, 41, [0, 32, 32], 0, [], input, [], 2);
    Add(p, 43, [0, 32, 32], 2, [], input, [], 25, [0, 32, 57]);
    var s0 := M(41, [0, 32, 32], 0, [], input, []);
    var s1 := M(43, [0, 32, 32], 2, [], input, []);
    var s2 := M(68, [0, 32, 57], 2, [], input, []);
    LeadsTrans(p, s0, 2, s1, 25, s2, 27, s2);
  }

  /** `<<`, 10 `+` and `[` (indices 68-80): cell 0 counts the ten digits
      and the print loop is entered. */
  lemma Test2Ten(input: seq<int>)
    ensures Leads(Test2Runs(), M(68, [0, 32, 57], 2, [], input, []), 13, M(81, [10, 32, 57], 0, [80], input, []))
  {
    var p := Test2Runs();
    assert Repeats(p, 68, 2, '<') && Repeats(p, 70, 10, '+') && At(p, 80) == '[';
    Left(p, 68, [0, 32, 57], 2, [], input, [], 2);
    Add(p, 70, [0, 32, 57], 0, [], input, [], 10, [10, 32, 57]);
    var s0 := M(68, [0, 32, 57], 2, [], input, []);
    var s1 := M(70, [0, 32, 57], 0, [], input, []);
    var s2 := M(80, [10, 32, 57], 0, [], input, []);
    LeadsTrans(p, s0, 2, s1, 10, s2, 12, s2);
    Enter(p, 80, [10, 32, 57], 0, [], input, []);
    var s3 := M(81, [10, 32, 57], 0, [80], input, []);
    LeadsTrans(p, s0, 12, s2, 1, s3, 13, s3);
  }

  /** `>>.-` (indices 81-84): writes the digit in cell 2, then lowers it. */
  lemma PrintDigit(input: seq<int>, n: byte, out: seq<byte>)
    requires 0 < n <= 10
    ensures Leads(Test2Runs(), M(81, [n, 32, 47 + n], 0, [80], input, out), 4,
                  M(85, [n, 32, 46 + n], 2, [80], input, out + [47 + n]))
  {
    var p := Test2Runs();
    assert Repeats(p, 81, 2, '>') && At(p, 83) == '.' && Repeats(p, 84, 1, '-');
    Right(p, 81, [n, 32, 47 + n], 0, [80], input, out, 2);
    Put(p, 83, [n, 32, 47 + n], 2, [80], input, out);
    var s0 := M(81, [n, 32, 47 + n], 0, [80], input, out);
    var s1 := M(83, [n, 32, 47 + n], 2, [80], input, out);
    var s2 := M(84, [n, 32, 47 + n], 2, [80], input, out + [47 + n]);
    LeadsTrans(p, s0, 2, s1, 1, s2, 3, s2);
    Sub(p, 84, [n, 32, 47 + n], 2, [80], input, out + [47 + n], 1, [n, 32, 46 + n]);
    var s3 := M(85, [n, 32, 46 + n], 2, [80], input, out + [47 + n]);
    LeadsTrans(p, s0, 3, s2, 1, s3, 4, s3);
  }

  /** `<.<-` (indices 85-88): writes the space in cell 1 and counts one
      digit off cell 0. */
  lemma PrintSpace(input: seq<int>, n: byte, c: byte, out: seq<byte>)
    requires 0 < n
    ensures Leads(Test2Runs(), M(85, [n, 32, c], 2, [80], input, out), 4, M(89, [n - 1, 32, c], 0, [80], input, out + [32]))
  {
    var p := Test2Runs();
    assert Repeats(p, 85, 1, '<') && At(p, 86) == '.' && Repeats(p, 87, 1, '<') && Repeats(p, 88, 1, '-');
    Left(p, 85, [n, 32, c], 2, [80], input, out, 1);
    Put(p, 86, [n, 32, c], 1, [80], input, out);
    var s0 := M(85, [n, 32, c], 2, [80], input, out);
    var s1 := M(86, [n, 32, c], 1, [80], input, out);
    var s2 := M(87, [n, 32, c], 1, [80], input, out + [32]);
    LeadsTrans(p, s0, 1, s1, 1, s2, 2, s2);
    Left(p, 87, [n, 32, c], 1, [80], input, out + [32], 1);
    Sub(p, 88, [n, 32, c], 0, [80], input, out + [32], 1, [n - 1, 32, c]);
    var s3 := M(88, [n, 32, c], 0, [80], input, out + [32]);
    var s4 := M(89, [n - 1, 32, c], 0, [80], input, out + [32]);
    LeadsTrans(p, s2, 1, s3, 1, s4, 2, s4);
    LeadsTrans(p, s0, 2, s2, 2, s4, 4, s4);
  }

  /** What the print loop writes when cell 0 holds n: the digits n-1 down
      to 0, each followed by a space. */
  function Digits(n: nat): (r: seq<byte>)
    requires n <= 10
    ensures |r| == 2 * n
  {
    if n == 0 then [] else [47 + n, 32] + Digits(n - 1)
  }

  /** One turn of `[>>.-<.<-]` (indices 81-88). */
  lemma PrintTurn(input: seq<int>, n: byte, out: seq<byte>)
    requires 0 < n <= 10
    ensures Leads(Test2Runs(), M(81, [n, 32, 47 + n], 0, [80], input, out), 8,
                  M(89, [n - 1, 32, 46 + n], 0, [80], input, out + [47 + n, 32]))
  {
    var p := Test2Runs();
    PrintDigit(input, n, out);
    PrintSpace(input, n, 46 + n, out + [47 + n]);
    assert out + [47 + n] + [32] == out + [47 + n, 32];
    var s0 := M(81, [n, 32, 47 + n], 0, [80], input, out);
    var s1 := M(85, [n, 32, 46 + n], 2, [80], input, out + [47 + n]);
    var s2 := M(89, [n - 1, 32, 46 + n], 0, [80], input, out + [47 + n] + [32]);
    var s3 := M(89, [n - 1, 32, 46 + n], 0, [80], input, out + [47 + n, 32]);
    LeadsTrans(p, s0, 4, s1, 4, s2, 8, s3);
  }

  lemma DigitsStep(out: seq<byte>, n: nat)
    requires 0 < n <= 10
    ensures out + [47 + n, 32] + Digits(n - 1) == out + Digits(n)
  {
  }

  /** The loop `[>>.-<.<-]` entered with n in cell 0 and the digit n-1 in
      cell 2 writes Digits(n) and leaves the loop with cell 0 zero. */
  lemma {:induction false} PrintLoop(input: seq<int>, n: byte, out: seq<byte>)
    requires 0 < n <= 10
    ensures Leads(Test2Runs(), M(81, [n, 32, 47 + n], 0, [80], input, out), 9 * n as int,
                  M(90, [0, 32, 47], 0, [], input, out + Digits(n)))
    decreases n
  {
    var p := Test2Runs();
    var s := M(81, [n, 32, 47 + n], 0, [80], input, out);
    PrintTurn(input, n, out);
    var t := M(89, [n - 1, 32, 46 + n], 0, [80], input, out + [47 + n, 32]);
    assert At(p, 89) == ']';
    var final := M(90, [0, 32, 47], 0, [], input, out + Digits(n));
    if n == 1 {
      Exit(p, 89, [n - 1, 32, 46 + n], 0, [80], input, out + [47 + n, 32]);
      assert [80][..0] == [];
      LeadsTrans(p, s, 8, t, 1, final, 9 * n as int, final);
    } else {
      Back(p, 89, [n - 1, 32, 46 + n], 0, [80], input, out + [47 + n, 32]);
      var u := M(81, [n - 1, 32, 47 + (n - 1)], 0, [80], input, out + [47 + n, 32]);
      LeadsTrans(p, s, 8, t, 1, u, 9, u);
      PrintLoop(input, n - 1, out + [47 + n, 32]);
      DigitsStep(out, n as int);
      LeadsTrans(p, s, 9, u, 9 * (n - 1) as int, final, 9 * n as int, final);
    }
  }

  /** 10 `+` and `.` (indices 90-100): the newline. */
  lemma Test2Newline(input: seq<int>, out: seq<byte>)
    ensures Leads(Test2Runs(), M(90, [0, 32, 47], 0, [], input, out), 11, M(101, [10, 32, 47], 0, [], input, out + [10]))
  {
    var p := Test2Runs();
    assert Repeats(p, 90, 10, '+') && At(p, 100) == '.';
    Add(p, 90, [0, 32, 47], 0, [], input, out, 10, [10, 32, 47]);
    Put(p, 100, [10, 32, 47], 0, [], input, out);
    var s0 := M(90, [0, 32, 47], 0, [], input, out);
    var s1 := M(100, [10, 32, 47], 0, [], input, out);
    var s2 := M(101, [10, 32, 47], 0, [], input, out + [10]);
    LeadsTrans(p, s0, 10, s1, 1, s2, 11, s2);
  }

  lemma DigitsBytes()
    ensures Digits(10) + [10] == [57, 32, 56, 32, 55, 32, 54, 32, 53, 32, 52, 32, 51, 32, 50, 32, 49, 32, 48, 32, 10]
  {
  }

  lemma TextBytes()
    ensures Ascii("9 8 7 6 5 4 3 2 1 0 \n") == [57, 32, 56, 32, 55, 32, 54, 32, 53, 32, 52, 32, 51, 32, 50, 32, 49, 32, 48, 32, 10]
  {
  }

  lemma DigitsText()
    ensures Digits(10) + [10] == Ascii("9 8 7 6 5 4 3 2 1 0 \n")
  {
    DigitsBytes();
    TextBytes();
  }

  /** The whole run of test_2, up to its terminator at index 101. */
  lemma Test2Run(input: seq<int>)
    ensures Leads(Test2Runs(), Init(input), 430, M(101, [10, 32, 47], 0, [], input, [] + Digits(10) + [10]))
  {
    var p := Test2Runs();
    Test2Copy(input);
    Test2Nine(input);
    var s0 := M(41, [0, 32, 32], 0, [], input, []);
    var s1 := M(68, [0, 32, 57], 2, [], input, []);
    LeadsTrans(p, Init(input), 289, s0, 27, s1, 316, s1);
    Test2Ten(input);
    var s2 := M(81, [10, 32, 57], 0, [80], input, []);
    LeadsTrans(p, Init(input), 316, s1, 13, s2, 329, s2);
    PrintLoop(input, 10, []);
    var s3 := M(90, [0, 32, 47], 0, [], input, [] + Digits(10));
    LeadsTrans(p, Init(input), 329, s2, 90, s3, 419, s3);
    Test2Newline(input, [] + Digits(10));
    var final := M(101, [10, 32, 47], 0, [], input, [] + Digits(10) + [10]);
    LeadsTrans(p, Init(input), 419, s3, 11, final, 430, final);
  }

  /** test_2 writes the countdown "9 8 7 6 5 4 3 2 1 0 " and a newline and
      halts after 430 steps, whatever its input. */
  lemma Test2Output(input: seq<int>, fuel: nat)
    requires fuel > 430
    ensures var r := Run(Test2, Init(input), fuel);
      r.status == Halted && r.next.output == Ascii("9 8 7 6 5 4 3 2 1 0 \n")
  {
    var final := M(101, [10, 32, 47], 0, [], input, [] + Digits(10) + [10]);
    Test2Run(input);
    Test2RunsIsTest2();
    HaltsAfter(Test2Runs(), Init(input), 430, final, fuel);
    DigitsText();
    assert [] + Digits(10) + [10] == Digits(10) + [10];
  }
}
