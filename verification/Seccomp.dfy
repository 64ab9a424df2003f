/**
 The system-call filter of the tool executor: a loop that compiles a list of allowed
 numbers to classic BPF, and a BPF machine to run what it emits.
 */
module Seccomp {
  import opened Common

  type Word = bv32

  const LD_ABS_W := 0x20
  const JMP_JEQ := 0x15
  const JMP_JSET := 0x45
  const RET := 0x06

  const ARCH_X86_64: Word := 0xC000003E
  const X32_BIT: Word := 0x40000000
  const KILL_PROCESS: Word := 0x80000000
  const ERRNO_EPERM: Word := 0x00050001
  const ALLOW: Word := 0x7FFF0000

  /** One sock_filter: the two jump offsets are eight bits wide. */
  datatype Instr = Instr(code: int, jt: nat, jf: nat, k: Word)

  /** A foreign structure stores the low eight bits of a jump offset. */
  function Offset(n: int): nat { n % 256 }

  function SockFilter(code: int, jt: int, jf: int, k: Word): Instr {
    Instr(code, Offset(jt), Offset(jf), k)
  }

  // ----- The machine.

  /** What the kernel shows the filter. */
  datatype Call = Call(nr: Word, arch: Word, rest: seq<Word>)

  function Load(call: Call, at: Word): Option<Word> {
    if at == 0 then Some(call.nr)
    else if at == 4 then Some(call.arch)
    else if at % 4 == 0 && 8 <= at as int < 8 + 4 * |call.rest| then Some(call.rest[(at as int - 8) / 4])
    else None
  }

  /** Run from instruction `pc`; None when the program falls off its end or does something else. */
  function RunFrom(program: seq<Instr>, call: Call, pc: nat, acc: Word): Option<Word>
    decreases |program| - pc
  {
    if pc >= |program| then None
    else
      var i := program[pc];
      if i.code == LD_ABS_W then
        var w := Load(call, i.k);
        if w.None? then None else RunFrom(program, call, pc + 1, w.value)
      else if i.code == JMP_JEQ then RunFrom(program, call, pc + 1 + (if acc == i.k then i.jt else i.jf), acc)
      else if i.code == JMP_JSET then RunFrom(program, call, pc + 1 + (if acc & i.k != 0 then i.jt else i.jf), acc)
      else if i.code == RET then Some(i.k)
      else None
  }

  function RunFilter(program: seq<Instr>, call: Call): Option<Word> {
    RunFrom(program, call, 0, 0)
  }

  // ----- The compiler.

  function Header(count: nat): seq<Instr> {
    [ SockFilter(LD_ABS_W, 0, 0, 4),
      SockFilter(JMP_JEQ, 1, 0, ARCH_X86_64),
      SockFilter(RET, 0, 0, KILL_PROCESS),
      SockFilter(LD_ABS_W, 0, 0, 0),
      SockFilter(JMP_JSET, count, 0, X32_BIT) ]
  }

  /** What the filter ought to answer. */
  function Wanted(allowed: seq<Word>, call: Call): Word {
    if call.arch != ARCH_X86_64 then KILL_PROCESS
    else if call.nr & X32_BIT != 0 || call.nr !in allowed then ERRNO_EPERM
    else ALLOW
  }

  predicate Shape(program: seq<Instr>, allowed: seq<Word>) {
    var n := |allowed|;
    && |program| == n + 7
    && program[..5] == Header(n)
    && (forall i | 0 <= i < n :: program[5 + i] == SockFilter(JMP_JEQ, n - i, 0, allowed[i]))
    && program[5 + n] == SockFilter(RET, 0, 0, ERRNO_EPERM)
    && program[6 + n] == SockFilter(RET, 0, 0, ALLOW)
  }

  /**
   Every jump the compiler emits is forward and lands in the program, and up to 255 numbers the program
   answers every system call of every architecture as wanted.
   */
  method AllowFilter(allowed: seq<Word>) returns (program: seq<Instr>)
    ensures Shape(program, allowed)
    ensures forall pc | 0 <= pc < |program| && program[pc].code in {JMP_JEQ, JMP_JSET} ::
              pc + 1 + program[pc].jt < |program| && pc + 1 + program[pc].jf < |program|
    ensures forall pc | 0 <= pc < |program| && program[pc].code !in {JMP_JEQ, JMP_JSET} :: program[pc].jt == 0 && program[pc].jf == 0
    ensures |allowed| <= 255 ==> forall call :: RunFilter(program, call) == Some(Wanted(allowed, call))
  {
    var count := |allowed|;
    program := Header(count);
    for index := 0 to count
      invariant |program| == 5 + index && program[..5] == Header(count)
      invariant forall i | 0 <= i < index :: program[5 + i] == SockFilter(JMP_JEQ, count - i, 0, allowed[i])
    {
      program := program + [SockFilter(JMP_JEQ, count - index, 0, allowed[index])];
    }
    program := program + [SockFilter(RET, 0, 0, ERRNO_EPERM)];
    program := program + [SockFilter(RET, 0, 0, ALLOW)];
    JumpsStayInside(program, allowed);
    if count <= 255 {
      forall call ensures RunFilter(program, call) == Some(Wanted(allowed, call)) {
        ShortListWorks(program, allowed, call);
      }
    }
  }

  lemma JumpsStayInside(program: seq<Instr>, allowed: seq<Word>)
    requires Shape(program, allowed)
    ensures forall pc | 0 <= pc < |program| && program[pc].code in {JMP_JEQ, JMP_JSET} ::
              pc + 1 + program[pc].jt < |program| && pc + 1 + program[pc].jf < |program|
    ensures forall pc | 0 <= pc < |program| && program[pc].code !in {JMP_JEQ, JMP_JSET} :: program[pc].jt == 0 && program[pc].jf == 0
  {
    forall pc | 0 <= pc < |program|
      ensures if program[pc].code in {JMP_JEQ, JMP_JSET}
              then pc + 1 + program[pc].jt < |program| && pc + 1 + program[pc].jf < |program|
              else program[pc].jt == 0 && program[pc].jf == 0
    {
      if pc < 5 {
        assert program[pc] == program[..5][pc];
      } else if pc < 5 + |allowed| {
        assert program[5 + (pc - 5)] == SockFilter(JMP_JEQ, |allowed| - (pc - 5), 0, allowed[pc - 5]);
      }
    }
  }

  // ----- Running what it emits.

  /** Where the machine stands after the five instructions of the header. */
  lemma {:induction false} AfterHeader(program: seq<Instr>, allowed: seq<Word>, call: Call)
    requires Shape(program, allowed)
    ensures RunFilter(program, call)
         == if call.arch != ARCH_X86_64 then Some(KILL_PROCESS)
            else RunFrom(program, call, 5 + (if call.nr & X32_BIT != 0 then Offset(|allowed|) else 0), call.nr)
  {
    hide Offset;
    var h := Header(|allowed|);
    assert program[0] == program[..5][0] == h[0] && program[1] == program[..5][1] == h[1];
    assert program[2] == program[..5][2] == h[2] && program[3] == program[..5][3] == h[3] && program[4] == program[..5][4] == h[4];
    OffsetSmall(0);
    OffsetSmall(1);
    var afterJump := 5 + (if call.nr & X32_BIT != 0 then Offset(|allowed|) else 0);
    assert RunFrom(program, call, 4, call.nr) == RunFrom(program, call, afterJump, call.nr);
    assert RunFrom(program, call, 3, call.arch) == RunFrom(program, call, 4, call.nr);
    assert RunFrom(program, call, 1, call.arch)
        == RunFrom(program, call, if call.arch == ARCH_X86_64 then 3 else 2, call.arch);
  }

  lemma OffsetSmall(n: nat)
    requires n <= 255
    ensures Offset(n) == n
  {}

  /** From the comparison of number `i` on. */
  function AnswerFrom(allowed: seq<Word>, i: nat, nr: Word): Word
    requires i <= |allowed|
  {
    if nr in allowed[i..] then ALLOW else ERRNO_EPERM
  }

  /** One comparison of a list that fits: a match allows, anything else goes on. */
  lemma {:induction false} OneComparison(program: seq<Instr>, allowed: seq<Word>, call: Call, i: nat)
    requires Shape(program, allowed) && i < |allowed| <= 255
    ensures RunFrom(program, call, 5 + i, call.nr)
         == if call.nr == allowed[i] then Some(ALLOW) else RunFrom(program, call, 5 + (i + 1), call.nr)
  {
    var n := |allowed|;
    OffsetSmall(n - i);
    OffsetSmall(0);
    assert program[5 + i] == Instr(JMP_JEQ, n - i, 0, allowed[i]);
    hide Offset, Load;
    assert RunFrom(program, call, 6 + n, call.nr) == Some(ALLOW);
    hide Shape, SockFilter;
  }

  lemma {:induction false} ListIsScanned(program: seq<Instr>, allowed: seq<Word>, call: Call, i: nat)
    requires Shape(program, allowed) && i <= |allowed| <= 255
    ensures RunFrom(program, call, 5 + i, call.nr) == Some(AnswerFrom(allowed, i, call.nr))
    decreases |allowed| - i
  {
    if i < |allowed| {
      ListIsScanned(program, allowed, call, i + 1);
      OneComparison(program, allowed, call, i);
      assert allowed[i..] == [allowed[i]] + allowed[i + 1..];
      hide Shape, RunFrom;
    }
  }

  lemma ShortListWorks(program: seq<Instr>, allowed: seq<Word>, call: Call)
    requires Shape(program, allowed) && |allowed| <= 255
    ensures RunFilter(program, call) == Some(Wanted(allowed, call))
  {
    AfterHeader(program, allowed, call);
    if call.arch == ARCH_X86_64 {
      OffsetSmall(|allowed|);
      if call.nr & X32_BIT != 0 {
        ListIsScanned(program, allowed, call, |allowed|);
      } else {
        ListIsScanned(program, allowed, call, 0);
        assert allowed[0..] == allowed;
      }
    }
  }

  // ----- Longer lists.

  predicate PlainList(allowed: seq<Word>) {
    && (forall i | 0 <= i < |allowed| :: allowed[i] & X32_BIT == 0)
    && (forall i, j | 0 <= i < j < |allowed| :: allowed[i] != allowed[j])
  }

  lemma {:induction false} UnlistedFallsThrough(program: seq<Instr>, allowed: seq<Word>, call: Call, i: nat)
    requires Shape(program, allowed) && i <= |allowed| && call.nr !in allowed[i..]
    ensures RunFrom(program, call, 5 + i, call.nr) == Some(ERRNO_EPERM)
    decreases |allowed| - i
  {
    if i < |allowed| {
      assert allowed[i] == allowed[i..][0] && allowed[i + 1..] == allowed[i..][1..];
      UnlistedFallsThrough(program, allowed, call, i + 1);
      assert program[5 + i] == SockFilter(JMP_JEQ, |allowed| - i, 0, allowed[i]);
      OffsetSmall(0);
    }
  }

  /** The number at position 0 of a list that is too long jumps back into the list and is refused. */
  lemma FirstNumberIsLost(program: seq<Instr>, allowed: seq<Word>, rest: seq<Word>)
    requires Shape(program, allowed) && PlainList(allowed) && |allowed| > 255
    ensures RunFilter(program, Call(allowed[0], ARCH_X86_64, rest)) == Some(ERRNO_EPERM)
    ensures Wanted(allowed, Call(allowed[0], ARCH_X86_64, rest)) == ALLOW
  {
    var call := Call(allowed[0], ARCH_X86_64, rest);
    AfterHeader(program, allowed, call);
    var n := |allowed|;
    assert program[5 + 0] == SockFilter(JMP_JEQ, n - 0, 0, allowed[0]);
    var j := 1 + Offset(n);
    assert j <= n;
    UnlistedFallsThrough(program, allowed, call, j);
  }

  /** For lists of distinct native numbers the emitted program is right exactly when the list fits eight-bit offsets. */
  lemma WorksIffShort(program: seq<Instr>, allowed: seq<Word>)
    requires Shape(program, allowed) && PlainList(allowed)
    ensures (forall call :: RunFilter(program, call) == Some(Wanted(allowed, call))) <==> |allowed| <= 255
  {
    if |allowed| <= 255 {
      forall call ensures RunFilter(program, call) == Some(Wanted(allowed, call)) {
        ShortListWorks(program, allowed, call);
      }
    } else {
      FirstNumberIsLost(program, allowed, []);
      assert RunFilter(program, Call(allowed[0], ARCH_X86_64, [])) != Some(Wanted(allowed, Call(allowed[0], ARCH_X86_64, [])));
    }
  }
}
