/** What `run` (bf.c:36-125) guarantees, stated over the pure state
    machine: the effect of each instruction, the invariants every step
    keeps, and laws about runs of several steps. */
module Properties {
  import opened Semantics

  /** The characters of a C string: no terminator inside. */
  ghost predicate CString(program: seq<char>) {
    forall i :: 0 <= i < |program| ==> program[i] != '\0'
  }

  /** The eight instructions; every other character is ignored. */
  predicate IsCommand(c: char) {
    c == '>' || c == '<' || c == '+' || c == '-' || c == '.' || c == ',' || c == '[' || c == ']'
  }

  // ----- the instructions, one by one -----

  /** `>` (bf.c:60-64): faults on the last cell, otherwise moves right. */
  lemma MoveRight(program: seq<char>, s: State)
    requires Wf(s) && At(program, s.pp) == '>'
    ensures var r := Step(program, s);
      (s.mp == MEM_LENGTH - 1 <==> r.status == Faulted(MoveRightAtEnd)) &&
      (s.mp < MEM_LENGTH - 1 ==> r.status == Running && r.next == s.(mp := s.mp + 1, pp := s.pp + 1))
  {
  }

  /** `<` (bf.c:65-69): faults on cell 0, otherwise moves left. */
  lemma MoveLeft(program: seq<char>, s: State)
    requires Wf(s) && At(program, s.pp) == '<'
    ensures var r := Step(program, s);
      (s.mp == 0 <==> r.status == Faulted(MoveLeftAtStart)) &&
      (s.mp > 0 ==> r.status == Running && r.next == s.(mp := s.mp - 1, pp := s.pp + 1))
  {
  }

  /** `+` (bf.c:70-73): adds one to the current cell modulo 256 and
      changes nothing else but pp. */
  lemma Increment(program: seq<char>, s: State)
    requires Wf(s) && At(program, s.pp) == '+'
    ensures var r := Step(program, s);
      r.status == Running && r.next.pp == s.pp + 1 &&
      r.next.mp == s.mp && r.next.loop == s.loop && r.next.input == s.input && r.next.output == s.output &&
      |r.next.mem| == MEM_LENGTH &&
      (s.mem[s.mp] < 255 ==> r.next.mem[s.mp] == s.mem[s.mp] + 1) &&
      (s.mem[s.mp] == 255 ==> r.next.mem[s.mp] == 0) &&
      (forall i :: 0 <= i < MEM_LENGTH && i != s.mp ==> r.next.mem[i] == s.mem[i])
  {
  }

  /** `-` (bf.c:74-77): subtracts one from the current cell modulo 256 and
      changes nothing else but pp. */
  lemma Decrement(program: seq<char>, s: State)
    requires Wf(s) && At(program, s.pp) == '-'
    ensures var r := Step(program, s);
      r.status == Running && r.next.pp == s.pp + 1 &&
      r.next.mp == s.mp && r.next.loop == s.loop && r.next.input == s.input && r.next.output == s.output &&
      |r.next.mem| == MEM_LENGTH &&
      (s.mem[s.mp] > 0 ==> r.next.mem[s.mp] == s.mem[s.mp] - 1) &&
      (s.mem[s.mp] == 0 ==> r.next.mem[s.mp] == 255) &&
      (forall i :: 0 <= i < MEM_LENGTH && i != s.mp ==> r.next.mem[i] == s.mem[i])
  {
  }

  /** `.` (bf.c:78-81): appends exactly the current cell to the output. */
  lemma Output(program: seq<char>, s: State)
    requires Wf(s) && At(program, s.pp) == '.'
    ensures var r := Step(program, s);
      r.status == Running && r.next.output == s.output + [s.mem[s.mp]] &&
      r.next == s.(output := r.next.output, pp := s.pp + 1)
  {
  }

  /** `,` (bf.c:82-85): overwrites only the current cell with the next
      `getchar` result as a byte; at end of input that is EOF, i.e. 255. */
  lemma Input(program: seq<char>, s: State)
    requires Wf(s) && At(program, s.pp) == ','
    ensures var r := Step(program, s);
      r.status == Running && r.next.pp == s.pp + 1 &&
      r.next.mp == s.mp && r.next.loop == s.loop && r.next.output == s.output &&
      |r.next.mem| == MEM_LENGTH &&
      (forall i :: 0 <= i < MEM_LENGTH && i != s.mp ==> r.next.mem[i] == s.mem[i]) &&
      (s.input == [] ==> r.next.mem[s.mp] == 255 && r.next.input == []) &&
      (s.input != [] ==> r.next.mem[s.mp] == s.input[0] % 256 && r.next.input == s.input[1..])
  {
  }

  /** `[` on a nonzero cell (bf.c:88-92): pushes its own index, unless 99
      loops are already open, in which case it faults. */
  lemma OpenEnter(program: seq<char>, s: State)
    requires Wf(s) && At(program, s.pp) == '[' && s.mem[s.mp] != 0
    ensures var r := Step(program, s);
      (|s.loop| == LOOP_DEPTH - 1 <==> r.status == Faulted(TooManyOpenLoops)) &&
      (|s.loop| < LOOP_DEPTH - 1 ==> r.status == Running && r.next == s.(loop := s.loop + [s.pp], pp := s.pp + 1))
  {
  }

  /** `[` on a zero cell (bf.c:93-101 and bf.c:121): lands two past the
      FIRST `]` after it, whatever the nesting, leaving tape and stack. */
  lemma OpenSkip(program: seq<char>, s: State, close: nat)
    requires Wf(s) && CString(program) && At(program, s.pp) == '[' && s.mem[s.mp] == 0
    requires s.pp < close < |program| && program[close] == ']'
    requires forall j :: s.pp <= j < close ==> program[j] != ']'
    ensures Step(program, s) == Outcome(Running, s.(pp := close + 2))
  {
    var k := ScanEnd(program, s.pp);
    assert At(program, close) == ']';
    assert k <= close;
    assert k == close;
  }

  /** `[` on a zero cell with no `]` after it: the assert of bf.c:99 fails. */
  lemma OpenSkipUnclosed(program: seq<char>, s: State)
    requires Wf(s) && CString(program) && At(program, s.pp) == '[' && s.mem[s.mp] == 0
    requires forall j :: s.pp <= j < |program| ==> program[j] != ']'
    ensures Step(program, s) == Outcome(Faulted(NoClosingBracket), s)
  {
  }

  /** `]` (bf.c:103-114 and bf.c:121): faults with no open loop whatever
      the cell; on a nonzero cell resumes just after the innermost `[`
      without popping it; on a zero cell pops it and moves on. */
  lemma Close(program: seq<char>, s: State)
    requires Wf(s) && At(program, s.pp) == ']'
    ensures var r := Step(program, s);
      (|s.loop| == 0 <==> r.status == Faulted(CloseWithoutOpen)) &&
      (|s.loop| > 0 && s.mem[s.mp] != 0 ==>
         r.status == Running && r.next == s.(pp := s.loop[|s.loop| - 1] + 1)) &&
      (|s.loop| > 0 && s.mem[s.mp] == 0 ==>
         r.status == Running && r.next.loop + [s.loop[|s.loop| - 1]] == s.loop &&
         r.next == s.(loop := r.next.loop, pp := s.pp + 1))
  {
  }

  /** Any other character (bf.c:115-117) only advances pp. */
  lemma Ignored(program: seq<char>, s: State)
    requires Wf(s) && At(program, s.pp) != '\0' && !IsCommand(At(program, s.pp))
    ensures Step(program, s) == Outcome(Running, s.(pp := s.pp + 1))
  {
  }

  /** The dispatch loop stops exactly at the end of the string (bf.c:55). */
  lemma HaltsAtEnd(program: seq<char>, s: State)
    requires Wf(s) && CString(program)
    ensures Step(program, s).status == Halted <==> s.pp >= |program|
  {
    if s.pp < |program| {
      assert At(program, s.pp) == program[s.pp];
    }
  }

  // ----- invariants -----

  /** Every step keeps the cursor on the tape, at most 99 loops open, and
      every open loop start on a `[` of the program. */
  lemma StepKeepsValid(program: seq<char>, s: State)
    requires Valid(program, s)
    ensures Valid(program, Step(program, s).next)
  {
    var c := At(program, s.pp);
    if c == '[' && s.mem[s.mp] == 0 {
      var k := ScanEnd(program, s.pp);
      assert At(program, s.pp) == program[s.pp];
      if At(program, k) != '\0' {
        assert k < |program|;
      }
    } else if c == ']' && |s.loop| > 0 {
      var t := s.loop[|s.loop| - 1];
      assert t < |program| && program[t] == '[';
    }
  }

  /** The invariant holds after any number of steps. */
  lemma {:induction false} RunKeepsValid(program: seq<char>, s: State, fuel: nat)
    requires Valid(program, s)
    ensures Valid(program, Run(program, s, fuel).next)
    decreases fuel
  {
    if fuel > 0 {
      StepKeepsValid(program, s);
      var o := Step(program, s);
      if o.status == Running {
        RunKeepsValid(program, o.next, fuel - 1);
      }
    }
  }

  /** From the initial state, the cursor never leaves the tape and the
      loop stack never holds more than 99 entries, each a `[`. */
  lemma ReachableValid(program: seq<char>, input: seq<int>, fuel: nat)
    ensures var s := Run(program, Init(input), fuel).next;
      s.mp < MEM_LENGTH && |s.loop| <= LOOP_DEPTH - 1 &&
      forall i :: 0 <= i < |s.loop| ==> s.loop[i] < |program| && program[s.loop[i]] == '['
  {
    RunKeepsValid(program, Init(input), fuel);
  }

  // ----- runs of several steps -----

  /** The k characters from index `from` on are all c. */
  ghost predicate Repeats(program: seq<char>, from: nat, k: nat, c: char) {
    forall j :: from <= j < from + k ==> At(program, j) == c
  }

  /** Exactly k steps from s, all of them running, end in t.  The run is
      named under a quantifier so that a proof holding many such facts
      does not expand every one of them. */
  ghost predicate Leads(program: seq<char>, s: State, k: nat, t: State) {
    Wf(s) && Wf(t) && forall n: nat | n == k :: Run(program, s, n) == Outcome(Running, t)
  }

  /** What Leads says, without the quantifier. */
  lemma LeadsRun(program: seq<char>, s: State, k: nat, t: State)
    requires Leads(program, s, k, t)
    ensures Run(program, s, k) == Outcome(Running, t)
  {
  }

  /** Running a + b steps is running a steps, then b more unless the first
      a already stopped. */
  lemma {:induction false} RunSplit(program: seq<char>, s: State, a: nat, b: nat)
    requires Wf(s)
    ensures var o := Run(program, s, a);
      Run(program, s, a + b) == if o.status == Running then Run(program, o.next, b) else o
    decreases a
  {
    if a > 0 {
      var o := Step(program, s);
      if o.status == Running {
        RunSplit(program, o.next, a - 1, b);
      }
    }
  }

  /** Once a run has halted or faulted, more fuel changes nothing. */
  lemma {:induction false} RunStopped(program: seq<char>, s: State, n: nat, m: nat)
    requires Wf(s) && n <= m && Run(program, s, n).status != Running
    ensures Run(program, s, m) == Run(program, s, n)
    decreases n
  {
    var o := Step(program, s);
    if o.status == Running {
      RunStopped(program, o.next, n - 1, m - 1);
    }
  }

  lemma LeadsNone(program: seq<char>, s: State)
    requires Wf(s)
    ensures Leads(program, s, 0, s)
  {
  }

  lemma LeadsStep(program: seq<char>, s: State, t: State)
    requires Wf(s) && Step(program, s) == Outcome(Running, t)
    ensures Leads(program, s, 1, t)
  {
  }

  /** Two stretches of running steps make one; `k` and `v` are the length
      and end state as the caller writes them. */
  lemma LeadsTrans(program: seq<char>, s: State, a: nat, t: State, b: nat, u: State, k: nat, v: State)
    requires Leads(program, s, a, t) && Leads(program, t, b, u) && k == a + b && u == v
    ensures Leads(program, s, k, v)
  {
    RunSplit(program, s, a, b);
  }

  /** A stretch of running steps followed by a step that stops: the whole
      run stops there, whatever fuel is left. */
  lemma LeadsThenStop(program: seq<char>, s: State, k: nat, t: State, fuel: nat)
    requires Leads(program, s, k, t) && k < fuel && Step(program, t).status != Running
    ensures Run(program, s, fuel) == Step(program, t)
  {
    RunSplit(program, s, k, fuel - k);
  }

  /** Adding modulo 256 in two parts is adding the sum. */
  lemma AddMod(x: int, a: int, b: int)
    ensures ((x + a) % 256 + b) % 256 == (x + a + b) % 256
  {
  }

  /** k consecutive `+` add k to the current cell modulo 256. */
  lemma {:induction false} Increments(program: seq<char>, s: State, k: nat)
    requires Wf(s) && Repeats(program, s.pp, k, '+')
    ensures Leads(program, s, k, s.(mem := s.mem[s.mp := (s.mem[s.mp] + k) % 256], pp := s.pp + k))
    decreases k
  {
    if k == 0 {
      assert s.mem[s.mp := s.mem[s.mp] % 256] == s.mem;
      LeadsNone(program, s);
    } else {
      assert At(program, s.pp) == '+';
      var t := s.(mem := s.mem[s.mp := (s.mem[s.mp] as int + 1) % 256], pp := s.pp + 1);
      LeadsStep(program, s, t);
      Increments(program, t, k - 1);
      AddMod(s.mem[s.mp], 1, k - 1);
      LeadsTrans(program, s, 1, t, k - 1, t.(mem := t.mem[t.mp := (t.mem[t.mp] + (k - 1)) % 256], pp := t.pp + (k - 1)),
                 k, s.(mem := s.mem[s.mp := (s.mem[s.mp] + k) % 256], pp := s.pp + k));
    }
  }

  /** k consecutive `-` subtract k from the current cell modulo 256. */
  lemma {:induction false} Decrements(program: seq<char>, s: State, k: nat)
    requires Wf(s) && Repeats(program, s.pp, k, '-')
    ensures Leads(program, s, k, s.(mem := s.mem[s.mp := (s.mem[s.mp] - k) % 256], pp := s.pp + k))
    decreases k
  {
    if k == 0 {
      assert s.mem[s.mp := s.mem[s.mp] % 256] == s.mem;
      LeadsNone(program, s);
    } else {
      assert At(program, s.pp) == '-';
      var t := s.(mem := s.mem[s.mp := (s.mem[s.mp] as int - 1) % 256], pp := s.pp + 1);
      LeadsStep(program, s, t);
      Decrements(program, t, k - 1);
      AddMod(s.mem[s.mp], -1, -(k - 1));
      LeadsTrans(program, s, 1, t, k - 1, t.(mem := t.mem[t.mp := (t.mem[t.mp] - (k - 1)) % 256], pp := t.pp + (k - 1)),
                 k, s.(mem := s.mem[s.mp := (s.mem[s.mp] - k) % 256], pp := s.pp + k));
    }
  }

  /** 256 consecutive `+` leave the tape as it was: the wrap-around law. */
  lemma FullTurn(program: seq<char>, s: State)
    requires Wf(s) && Repeats(program, s.pp, 256, '+')
    ensures Run(program, s, 256) == Outcome(Running, s.(pp := s.pp + 256))
  {
    Increments(program, s, 256);
    SameCell(s);
    LeadsRun(program, s, 256, s.(pp := s.pp + 256));
  }

  lemma SameCell(s: State)
    requires Wf(s)
    ensures s.(mem := s.mem[s.mp := (s.mem[s.mp] as int + 256) % 256], pp := s.pp + 256) == s.(pp := s.pp + 256)
  {
    assert s.mem[s.mp := (s.mem[s.mp] as int + 256) % 256] == s.mem;
  }

  /** k consecutive `>` move the cursor k cells right, if that stays on
      the tape. */
  lemma {:induction false} MovesRight(program: seq<char>, s: State, k: nat)
    requires Wf(s) && s.mp + k < MEM_LENGTH && Repeats(program, s.pp, k, '>')
    ensures Leads(program, s, k, s.(mp := s.mp + k, pp := s.pp + k))
    decreases k
  {
    if k == 0 {
      LeadsNone(program, s);
    } else {
      assert At(program, s.pp) == '>';
      var t := s.(mp := s.mp + 1, pp := s.pp + 1);
      LeadsStep(program, s, t);
      MovesRight(program, t, k - 1);
      LeadsTrans(program, s, 1, t, k - 1, t.(mp := t.mp + (k - 1), pp := t.pp + (k - 1)), k, s.(mp := s.mp + k, pp := s.pp + k));
    }
  }

  /** k consecutive `<` move the cursor k cells left, if that stays on the
      tape. */
  lemma {:induction false} MovesLeft(program: seq<char>, s: State, k: nat)
    requires Wf(s) && k <= s.mp && Repeats(program, s.pp, k, '<')
    ensures Leads(program, s, k, s.(mp := s.mp - k, pp := s.pp + k))
    decreases k
  {
    if k == 0 {
      LeadsNone(program, s);
    } else {
      assert At(program, s.pp) == '<';
      var t := s.(mp := s.mp - 1, pp := s.pp + 1);
      LeadsStep(program, s, t);
      MovesLeft(program, t, k - 1);
      LeadsTrans(program, s, 1, t, k - 1, t.(mp := t.mp - (k - 1), pp := t.pp + (k - 1)), k, s.(mp := s.mp - k, pp := s.pp + k));
    }
  }

  /** The indices from `start` to `start + k - 1`. */
  function Indices(start: nat, k: nat): (r: seq<nat>)
    ensures |r| == k && forall i :: 0 <= i < k ==> r[i] == start + i
  {
    seq(k, i => start + i)
  }

  /** k consecutive `[` on a nonzero cell push their k indices, as long as
      no more than 99 loops end up open. */
  lemma {:induction false} Opens(program: seq<char>, s: State, k: nat)
    requires Wf(s) && s.mem[s.mp] != 0 && |s.loop| + k <= LOOP_DEPTH - 1
    requires Repeats(program, s.pp, k, '[')
    ensures Leads(program, s, k, s.(loop := s.loop + Indices(s.pp, k), pp := s.pp + k))
    decreases k
  {
    if k == 0 {
      assert s.loop + Indices(s.pp, 0) == s.loop;
      LeadsNone(program, s);
    } else {
      assert At(program, s.pp) == '[';
      var t := s.(loop := s.loop + [s.pp], pp := s.pp + 1);
      LeadsStep(program, s, t);
      Opens(program, t, k - 1);
      assert t.loop + Indices(t.pp, k - 1) == s.loop + Indices(s.pp, k);
      LeadsTrans(program, s, 1, t, k - 1, t.(loop := t.loop + Indices(t.pp, k - 1), pp := t.pp + (k - 1)),
                 k, s.(loop := s.loop + Indices(s.pp, k), pp := s.pp + k));
    }
  }

  /** k consecutive `]` on a zero cell close the k innermost loops. */
  lemma {:induction false} Closes(program: seq<char>, s: State, k: nat)
    requires Wf(s) && s.mem[s.mp] == 0 && k <= |s.loop| && Repeats(program, s.pp, k, ']')
    ensures Leads(program, s, k, s.(loop := s.loop[..|s.loop| - k], pp := s.pp + k))
    decreases k
  {
    if k == 0 {
      assert s.loop[..|s.loop|] == s.loop;
      LeadsNone(program, s);
    } else {
      assert At(program, s.pp) == ']';
      var t := s.(loop := s.loop[..|s.loop| - 1], pp := s.pp + 1);
      LeadsStep(program, s, t);
      Closes(program, t, k - 1);
      assert t.loop[..|t.loop| - (k - 1)] == s.loop[..|s.loop| - k];
      LeadsTrans(program, s, 1, t, k - 1, t.(loop := t.loop[..|t.loop| - (k - 1)], pp := t.pp + (k - 1)),
                 k, s.(loop := s.loop[..|s.loop| - k], pp := s.pp + k));
    }
  }
}
