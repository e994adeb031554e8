/** The cgroup-device filter compiler (crates/node/src/device_filter.rs) against an
    evaluator of the BPF instructions it emits (instruction set: RFC 9669; offsets of
    jumps count from the instruction after the jump, section 4.3). */
module DeviceFilter {

  type Word = bv32

  const LDX_MEM_W := 0x61
  const MOV_REG := 0xbf
  const ALU32_MOV_IMM := 0xb4
  const ALU32_AND_IMM := 0x54
  const ALU32_RSH_IMM := 0x74
  const JMP32_JNE_IMM := 0x56
  const JA := 0x05
  const EXIT := 0x95

  const ACC_MKNOD: Word := 1
  const ACC_READ: Word := 2
  const ACC_WRITE: Word := 4

  datatype Rule = Rule(devType: Word, major: Word, minor: Word, access: Word)

  /** `off` is a signed 16-bit field. */
  datatype Insn = Insn(code: nat, dst: nat, src: nat, off: int, imm: Word)

  datatype Context = Context(accessType: Word, major: Word, minor: Word)

  function And(x: Word, y: Word): Word { x & y }

  function Shr(x: Word, k: Word): Word { if k < 32 then x >> k else 0 }

  function ToI16(x: int): int {
    (x + 32768) % 65536 - 32768
  }

  /* ---------- what a rule means ---------- */

  function Requested(c: Context): Word {
    Shr(c.accessType, 16)
  }

  function Granted(r: Rule): Word {
    r.access & (ACC_READ | ACC_WRITE | ACC_MKNOD)
  }

  /** The rule names this device, and every requested access bit is among those it grants. */
  predicate Matches(r: Rule, c: Context) {
    SameDevice(r, c) && And(Requested(c), Granted(r)) == Requested(c)
  }

  predicate Allowed(rules: seq<Rule>, c: Context) {
    exists i :: 0 <= i < |rules| && Matches(rules[i], c)
  }

  /* ---------- the compiler ---------- */

  function LoadWord(dst: nat, off: int): Insn { Insn(LDX_MEM_W, dst, 1, off, 0) }
  function MovImm(dst: nat, imm: Word): Insn { Insn(ALU32_MOV_IMM, dst, 0, 0, imm) }
  function MovReg(dst: nat, src: nat): Insn { Insn(MOV_REG, dst, src, 0, 0) }
  function AndImm(dst: nat, imm: Word): Insn { Insn(ALU32_AND_IMM, dst, 0, 0, imm) }
  function RshImm(dst: nat, imm: Word): Insn { Insn(ALU32_RSH_IMM, dst, 0, 0, imm) }
  function JumpIfNot(dst: nat, imm: Word, off: int): Insn { Insn(JMP32_JNE_IMM, dst, 0, off, imm) }
  function Jump(off: int): Insn { Insn(JA, 0, 0, off, 0) }
  function Exit(): Insn { Insn(EXIT, 0, 0, 0, 0) }

  function JumpTo(from: int, target: int): int {
    ToI16(target - from - 1)
  }

  function Start(i: int): int { 3 + 10 * i }
  function AllowAt(n: int): int { 3 + 10 * n }
  function DenyAt(n: int): int { AllowAt(n) + 2 }
  function NextRule(n: int, i: int): int { if i + 1 < n then Start(i) + 10 else DenyAt(n) }

  function Disallowed(r: Rule): Word {
    !Granted(r)
  }

  /** Instruction `j` of the block of rule `i` out of `n`. */
  function BlockInsn(r: Rule, n: int, i: int, j: int): Insn {
    var s, next := Start(i), NextRule(n, i);
    match j
    case 0 => MovReg(6, 2)
    case 1 => RshImm(6, 16)
    case 2 => AndImm(6, Disallowed(r))
    case 3 => JumpIfNot(6, 0, JumpTo(s + 3, next))
    case 4 => MovReg(6, 2)
    case 5 => AndImm(6, 0xffff)
    case 6 => JumpIfNot(6, r.devType, JumpTo(s + 6, next))
    case 7 => JumpIfNot(3, r.major, JumpTo(s + 7, next))
    case 8 => JumpIfNot(4, r.minor, JumpTo(s + 8, next))
    case _ => Jump(JumpTo(s + 9, AllowAt(n)))
  }

  /** The instruction at `pc` of the program for `rules`. */
  function InsnAt(rules: seq<Rule>, pc: nat): Insn {
    var n := |rules|;
    if pc == 0 then LoadWord(2, 0)
    else if pc == 1 then LoadWord(3, 4)
    else if pc == 2 then LoadWord(4, 8)
    else if pc < AllowAt(n) then BlockInsn(rules[(pc - 3) / 10], n, (pc - 3) / 10, (pc - 3) % 10)
    else if pc == AllowAt(n) then MovImm(0, 1)
    else if pc == DenyAt(n) then MovImm(0, 0)
    else Exit()
  }

  function Program(rules: seq<Rule>): seq<Insn> {
    if rules == [] then [MovImm(0, 0), Exit()]
    else seq(DenyAt(|rules|) + 2, pc requires 0 <= pc => InsnAt(rules, pc))
  }

  /** The instructions of one rule, at `s`, leaving for `next` or for `allow`. */
  method CompileRule(rule: Rule, ghost n: int, ghost i: int, s: int, next: int, allow: int) returns (block: seq<Insn>)
    requires s == Start(i) && next == NextRule(n, i) && allow == AllowAt(n)
    ensures block == Block(rule, n, i)
  {
    var granted := rule.access & (ACC_READ | ACC_WRITE | ACC_MKNOD);
    block := [MovReg(6, 2), RshImm(6, 16), AndImm(6, !granted), JumpIfNot(6, 0, JumpTo(s + 3, next))];
    block := block + [MovReg(6, 2), AndImm(6, 0xffff), JumpIfNot(6, rule.devType, JumpTo(s + 6, next))];
    block := block + [JumpIfNot(3, rule.major, JumpTo(s + 7, next)), JumpIfNot(4, rule.minor, JumpTo(s + 8, next))];
    block := block + [Jump(JumpTo(s + 9, allow))];
  }

  method Compile(rules: seq<Rule>) returns (prog: seq<Insn>)
    ensures prog == Program(rules)
  {
    if rules == [] {
      return [MovImm(0, 0), Exit()];
    }
    prog := [LoadWord(2, 0), LoadWord(3, 4), LoadWord(4, 8)];
    var allow := |prog| + |rules| * 10;
    var deny := allow + 2;
    for i := 0 to |rules|
      invariant |prog| == Start(i)
      invariant Emitted(rules, prog)
    {
      var s := |prog|;
      var next := if i + 1 < |rules| then s + 10 else deny;
      var block := CompileRule(rules[i], |rules|, i, s, next, allow);
      BlockAppended(rules, i, prog);
      prog := prog + block;
    }
    prog := prog + [MovImm(0, 1), Exit(), MovImm(0, 0), Exit()];
  }

  function Block(r: Rule, n: int, i: int): seq<Insn> {
    [BlockInsn(r, n, i, 0), BlockInsn(r, n, i, 1), BlockInsn(r, n, i, 2), BlockInsn(r, n, i, 3), BlockInsn(r, n, i, 4),
     BlockInsn(r, n, i, 5), BlockInsn(r, n, i, 6), BlockInsn(r, n, i, 7), BlockInsn(r, n, i, 8), BlockInsn(r, n, i, 9)]
  }

  ghost predicate Emitted(rules: seq<Rule>, prog: seq<Insn>) {
    forall pc :: 0 <= pc < |prog| ==> prog[pc] == InsnAt(rules, pc)
  }

  lemma BlockAppended(rules: seq<Rule>, i: nat, before: seq<Insn>)
    requires i < |rules| && |before| == Start(i) && Emitted(rules, before)
    ensures Emitted(rules, before + Block(rules[i], |rules|, i))
  {
    var prog := before + Block(rules[i], |rules|, i);
    forall pc | 0 <= pc < |prog|
      ensures prog[pc] == InsnAt(rules, pc)
    {
      if pc < Start(i) {
        assert prog[pc] == before[pc];
      } else {
        var j := pc - Start(i);
        BlockIndex(i, j);
        hide BlockInsn;
        assert Block(rules[i], |rules|, i)[j] == BlockInsn(rules[i], |rules|, i, j);
      }
    }
  }

  lemma BlockIndex(i: nat, j: nat)
    requires j < 10
    ensures (Start(i) + j - 3) / 10 == i && (Start(i) + j - 3) % 10 == j
  {
  }

  lemma InsnInBlock(rules: seq<Rule>, i: nat, j: nat)
    requires i < |rules| && j < 10
    ensures Start(i) + j < |Program(rules)|
    ensures Program(rules)[Start(i) + j] == BlockInsn(rules[i], |rules|, i, j)
  {
    hide BlockInsn, Program;
    BlockIndex(i, j);
    ProgramAt(rules, Start(i) + j);
  }

  lemma ProgramAt(rules: seq<Rule>, pc: nat)
    requires rules != [] && pc < DenyAt(|rules|) + 2
    ensures |Program(rules)| == DenyAt(|rules|) + 2 && Program(rules)[pc] == InsnAt(rules, pc)
  {
    hide InsnAt;
  }

  /* ---------- the evaluator ---------- */

  type Registers = s: seq<Word> | |s| == 11 witness seq(11, _ => 0)

  datatype Cpu = Cpu(pc: int, regs: Registers)

  datatype Result = Go(cpu: Cpu) | Halt(value: Word) | Crash

  predicate Register(r: nat) { r < 11 }

  function Fetched(insn: Insn, cpu: Cpu, c: Context): Word
    requires Register(insn.dst) && Register(insn.src)
  {
    if insn.code == LDX_MEM_W then
      if insn.off / 4 == 0 then c.accessType else if insn.off / 4 == 1 then c.major else c.minor
    else if insn.code == MOV_REG then cpu.regs[insn.src]
    else if insn.code == ALU32_MOV_IMM then insn.imm
    else if insn.code == ALU32_AND_IMM then And(cpu.regs[insn.dst], insn.imm)
    else Shr(cpu.regs[insn.dst], insn.imm)
  }

  predicate Writes(insn: Insn) {
    || (insn.code == LDX_MEM_W && insn.off in {0, 4, 8}) || insn.code == MOV_REG || insn.code == ALU32_MOV_IMM
    || insn.code == ALU32_AND_IMM || (insn.code == ALU32_RSH_IMM && insn.imm < 32)
  }

  /** One instruction. Leaving the program, an unknown instruction or register stops the
      evaluator with an error. */
  function Execute(prog: seq<Insn>, c: Context, cpu: Cpu): Result
  {
    if !(0 <= cpu.pc < |prog|) then Crash
    else
      var insn := prog[cpu.pc];
      if !Register(insn.dst) || !Register(insn.src) then Crash
      else if Writes(insn) then Go(Cpu(cpu.pc + 1, cpu.regs[insn.dst := Fetched(insn, cpu, c)]))
      else if insn.code == JMP32_JNE_IMM then
        Go(cpu.(pc := cpu.pc + 1 + if cpu.regs[insn.dst] != insn.imm then insn.off else 0))
      else if insn.code == JA then Go(cpu.(pc := cpu.pc + 1 + insn.off))
      else if insn.code == EXIT then Halt(cpu.regs[0])
      else Crash
  }

  /** At most `steps` instructions. */
  function Run(prog: seq<Insn>, c: Context, cpu: Cpu, steps: nat): Result
    decreases steps
  {
    if steps == 0 then Go(cpu)
    else
      match Execute(prog, c, cpu)
      case Go(next) => Run(prog, c, next, steps - 1)
      case stop => stop
  }

  function Boot(): Cpu {
    Cpu(0, seq(11, _ => 0))
  }

  lemma {:induction false} RunOn(prog: seq<Insn>, c: Context, cpu: Cpu, m: nat, n: nat)
    ensures Run(prog, c, cpu, m + n) ==
            match Run(prog, c, cpu, m) case Go(next) => Run(prog, c, next, n) case stop => stop
    decreases m
  {
    if m > 0 {
      var r := Execute(prog, c, cpu);
      if r.Go? {
        RunOn(prog, c, r.cpu, m - 1, n);
      }
    }
  }

  /* ---------- one block ---------- */

  /** `b` is reached from `a` after `k` instructions. */
  predicate Reaches(prog: seq<Insn>, c: Context, a: Cpu, k: nat, b: Cpu) {
    Run(prog, c, a, k) == Go(b)
  }

  lemma Then(prog: seq<Insn>, c: Context, a: Cpu, j: nat, b: Cpu, k: nat, d: Cpu)
    requires Reaches(prog, c, a, j, b) && Reaches(prog, c, b, k, d)
    ensures Reaches(prog, c, a, j + k, d)
  {
    RunOn(prog, c, a, j, k);
  }

  /** The registers once the header has run: the context words, and a scratch word in 6. */
  function Words(c: Context, scratch: Word): Registers {
    [0, 0, c.accessType, c.major, c.minor, 0, scratch, 0, 0, 0, 0]
  }

  predicate Loaded(cpu: Cpu, c: Context) {
    cpu.regs == Words(c, cpu.regs[6])
  }

  lemma Scratched(c: Context, x: Word, y: Word)
    ensures Words(c, x)[6 := y] == Words(c, y)
  {
  }

  function DeviceType(c: Context): Word {
    And(c.accessType, 0xffff)
  }

  /** Type and numbers are right; the access bits are not looked at. */
  predicate SameDevice(r: Rule, c: Context) {
    DeviceType(c) == r.devType && c.major == r.major && c.minor == r.minor
  }

  lemma ShortJump(from: int, target: int)
    requires 0 <= target - from - 1 <= 32767
    ensures JumpTo(from, target) == target - from - 1
  {
  }

  predicate AccessGranted(r: Rule, c: Context) {
    And(Requested(c), Disallowed(r)) == 0
  }

  lemma InsideMeansNoneOutside(request: Word, granted: Word)
    requires And(request, granted) == request
    ensures And(request, !granted) == 0
  {
  }

  lemma NoneOutsideMeansInside(request: Word, granted: Word)
    requires And(request, !granted) == 0
    ensures And(request, granted) == request
  {
  }

  lemma AccessMeansSubset(r: Rule, c: Context)
    ensures AccessGranted(r, c) <==> And(Requested(c), Granted(r)) == Requested(c)
  {
    hide And, Shr, Granted;
    if AccessGranted(r, c) {
      NoneOutsideMeansInside(Requested(c), Granted(r));
    }
    if And(Requested(c), Granted(r)) == Requested(c) {
      InsideMeansNoneOutside(Requested(c), Granted(r));
    }
  }

  lemma StepMove(prog: seq<Insn>, c: Context, cpu: Cpu, dst: nat, src: nat)
    requires 0 <= cpu.pc < |prog| && prog[cpu.pc] == MovReg(dst, src) && Register(dst) && Register(src)
    ensures Reaches(prog, c, cpu, 1, Cpu(cpu.pc + 1, cpu.regs[dst := cpu.regs[src]]))
  {
  }

  lemma StepAnd(prog: seq<Insn>, c: Context, cpu: Cpu, dst: nat, mask: Word)
    requires 0 <= cpu.pc < |prog| && prog[cpu.pc] == AndImm(dst, mask) && Register(dst)
    ensures Reaches(prog, c, cpu, 1, Cpu(cpu.pc + 1, cpu.regs[dst := And(cpu.regs[dst], mask)]))
  {
  }

  lemma StepShift(prog: seq<Insn>, c: Context, cpu: Cpu, dst: nat)
    requires 0 <= cpu.pc < |prog| && prog[cpu.pc] == RshImm(dst, 16) && Register(dst)
    ensures Reaches(prog, c, cpu, 1, Cpu(cpu.pc + 1, cpu.regs[dst := Shr(cpu.regs[dst], 16)]))
  {
  }

  lemma StepBranch(prog: seq<Insn>, c: Context, cpu: Cpu, dst: nat, imm: Word, off: int)
    requires 0 <= cpu.pc < |prog| && prog[cpu.pc] == JumpIfNot(dst, imm, off) && Register(dst)
    ensures Reaches(prog, c, cpu, 1, cpu.(pc := if cpu.regs[dst] == imm then cpu.pc + 1 else cpu.pc + 1 + off))
  {
  }

  lemma StepJump(prog: seq<Insn>, c: Context, cpu: Cpu, off: int)
    requires 0 <= cpu.pc < |prog| && prog[cpu.pc] == Jump(off)
    ensures Reaches(prog, c, cpu, 1, cpu.(pc := cpu.pc + 1 + off))
  {
  }

  /** Instructions 2 and 3: the scratch word and the bits the rule does not grant. */
  lemma MaskPart(rules: seq<Rule>, i: nat, c: Context, cpu: Cpu) returns (next: Cpu)
    requires i < |rules| && cpu.pc == Start(i) + 2 && Loaded(cpu, c)
    ensures Reaches(Program(rules), c, cpu, 2, next) && Loaded(next, c)
    ensures next.pc == if And(cpu.regs[6], Disallowed(rules[i])) == 0 then Start(i) + 4 else NextRule(|rules|, i)
  {
    hide Program, InsnAt, JumpTo, And, Shr, Disallowed, Reaches, Words;
    var prog, s, n := Program(rules), Start(i), |rules|;
    var masked := And(cpu.regs[6], Disallowed(rules[i]));
    InsnInBlock(rules, i, 2);
    InsnInBlock(rules, i, 3);
    ShortJump(s + 3, NextRule(n, i));
    Scratched(c, cpu.regs[6], masked);
    var c1 := Cpu(s + 3, Words(c, masked));
    next := c1.(pc := if masked == 0 then s + 4 else NextRule(n, i));
    StepAnd(prog, c, cpu, 6, Disallowed(rules[i]));
    ScratchIs(c, masked);
    StepBranch(prog, c, c1, 6, 0, JumpTo(s + 3, NextRule(n, i)));
    Then(prog, c, cpu, 1, c1, 1, next);
  }

  lemma ScratchIs(c: Context, x: Word)
    ensures var w := Words(c, x); w[2] == c.accessType && w[3] == c.major && w[4] == c.minor && w[6] == x
  {
  }

  /** Instructions 0 and 1 put the requested bits into the scratch word. */
  lemma RequestPart(rules: seq<Rule>, i: nat, c: Context, cpu: Cpu) returns (next: Cpu)
    requires i < |rules| && cpu.pc == Start(i) && Loaded(cpu, c)
    ensures Reaches(Program(rules), c, cpu, 2, next) && Loaded(next, c)
    ensures next.pc == Start(i) + 2 && next.regs[6] == Requested(c)
  {
    hide Program, InsnAt, JumpTo, And, Shr, Disallowed, Reaches, Words;
    var prog, s := Program(rules), Start(i);
    InsnInBlock(rules, i, 0);
    InsnInBlock(rules, i, 1);
    ScratchIs(c, cpu.regs[6]);
    ScratchIs(c, c.accessType);
    ScratchIs(c, Requested(c));
    Scratched(c, cpu.regs[6], c.accessType);
    Scratched(c, c.accessType, Requested(c));
    var c1 := Cpu(s + 1, Words(c, c.accessType));
    next := Cpu(s + 2, Words(c, Requested(c)));
    StepMove(prog, c, cpu, 6, 2);
    StepShift(prog, c, c1, 6);
    Then(prog, c, cpu, 1, c1, 1, next);
  }

  /** Instructions 4 and 5 put the device type into the scratch word. */
  lemma TypePart(rules: seq<Rule>, i: nat, c: Context, cpu: Cpu) returns (next: Cpu)
    requires i < |rules| && cpu.pc == Start(i) + 4 && Loaded(cpu, c)
    ensures Reaches(Program(rules), c, cpu, 2, next) && next == Cpu(Start(i) + 6, Words(c, DeviceType(c)))
  {
    hide Program, InsnAt, JumpTo, And, Shr, Disallowed, Reaches, Words;
    var prog, s := Program(rules), Start(i);
    InsnInBlock(rules, i, 4);
    InsnInBlock(rules, i, 5);
    ScratchIs(c, cpu.regs[6]);
    ScratchIs(c, c.accessType);
    Scratched(c, cpu.regs[6], c.accessType);
    Scratched(c, c.accessType, DeviceType(c));
    var c1 := Cpu(s + 5, Words(c, c.accessType));
    next := Cpu(s + 6, Words(c, DeviceType(c)));
    StepMove(prog, c, cpu, 6, 2);
    StepAnd(prog, c, c1, 6, 0xffff);
    Then(prog, c, cpu, 1, c1, 1, next);
  }

  /** The word instruction `j` compares, and what it expects. */
  function Compared(r: Rule, c: Context, j: nat): (Word, Word) {
    if j == 6 then (DeviceType(c), r.devType) else if j == 7 then (c.major, r.major) else (c.minor, r.minor)
  }

  /** Instructions 6 to 8 compare one word each; `j` says which. */
  lemma ComparePart(rules: seq<Rule>, i: nat, c: Context, cpu: Cpu, j: nat) returns (next: Cpu)
    requires i < |rules| && 6 <= j <= 8 && cpu == Cpu(Start(i) + j, Words(c, DeviceType(c)))
    ensures Reaches(Program(rules), c, cpu, 1, next) && next.regs == cpu.regs
    ensures var (found, expected) := Compared(rules[i], c, j);
            next.pc == if found == expected then Start(i) + j + 1 else NextRule(|rules|, i)
  {
    hide Program, InsnAt, BlockInsn, JumpTo, And, Shr, Disallowed, Reaches, Words;
    var prog, s, n := Program(rules), Start(i), |rules|;
    InsnInBlock(rules, i, j);
    CompareInsn(rules[i], n, i, c, j);
    ShortJump(s + j, NextRule(n, i));
    ScratchIs(c, DeviceType(c));
    hide DeviceType;
    var (found, expected) := Compared(rules[i], c, j);
    next := cpu.(pc := if found == expected then s + j + 1 else NextRule(n, i));
    StepBranch(prog, c, cpu, if j == 6 then 6 else j - 4, expected, JumpTo(s + j, NextRule(n, i)));
  }

  lemma CompareInsn(r: Rule, n: int, i: int, c: Context, j: nat)
    requires 6 <= j <= 8
    ensures BlockInsn(r, n, i, j) ==
            JumpIfNot(if j == 6 then 6 else j - 4, Compared(r, c, j).1, JumpTo(Start(i) + j, NextRule(n, i)))
  {
    hide JumpTo, And;
  }

  /** Where the block's last jump really goes: its distance is cut to 16 bits. */
  function Landing(n: int, i: int): int {
    Start(i) + 10 + JumpTo(Start(i) + 9, AllowAt(n))
  }

  /** From instruction `j` on, the type and numbers still to be compared. */
  predicate Agrees(r: Rule, c: Context, j: nat) {
    (j > 6 || DeviceType(c) == r.devType) && (j > 7 || c.major == r.major) && (j > 8 || c.minor == r.minor)
  }

  /** Entered at instruction 6 to 9, a block takes the final jump if what is left agrees. */
  lemma {:induction false} TailRuns(rules: seq<Rule>, i: nat, c: Context, cpu: Cpu, j: nat) returns (k: nat, next: Cpu)
    requires i < |rules| && 6 <= j <= 9 && cpu == Cpu(Start(i) + j, Words(c, DeviceType(c)))
    ensures 1 <= k <= 10 - j && Reaches(Program(rules), c, cpu, k, next) && next.regs == cpu.regs
    ensures next.pc == if Agrees(rules[i], c, j) then Landing(|rules|, i) else NextRule(|rules|, i)
    decreases 9 - j
  {
    hide Program, InsnAt, JumpTo, And, Reaches, Words;
    if j == 9 {
      InsnInBlock(rules, i, 9);
      StepJump(Program(rules), c, cpu, JumpTo(Start(i) + 9, AllowAt(|rules|)));
      k, next := 1, cpu.(pc := Landing(|rules|, i));
    } else {
      var c1 := ComparePart(rules, i, c, cpu, j);
      k, next := 1, c1;
      var (found, expected) := Compared(rules[i], c, j);
      if found == expected {
        k, next := TailRuns(rules, i, c, c1, j + 1);
        Then(Program(rules), c, cpu, 1, c1, k, next);
        k := k + 1;
      }
    }
  }

  /** Which instructions a jump may enter a block at, and what the block then asks of its
      rule. Only from the start are the requested bits compared with the grant. */
  predicate Passes(r: Rule, c: Context, j: nat) {
    if j == 0 then Matches(r, c)
    else if j == 2 then And(DeviceType(c), Disallowed(r)) == 0 && SameDevice(r, c)
    else if j == 8 then c.minor == r.minor
    else SameDevice(r, c)
  }

  /** After a block: at the next rule, or landed behind a final jump with the device type in
      the scratch word. */
  ghost predicate Leaves(rules: seq<Rule>, i: nat, c: Context, jumps: bool, next: Cpu) {
    && Loaded(next, c)
    && if jumps then next == Cpu(Landing(|rules|, i), Words(c, DeviceType(c))) else next.pc == NextRule(|rules|, i)
  }

  lemma FromType(rules: seq<Rule>, i: nat, c: Context, cpu: Cpu) returns (k: nat, next: Cpu)
    requires i < |rules| && cpu.pc == Start(i) + 4 && Loaded(cpu, c)
    ensures 1 <= k <= 6 && Reaches(Program(rules), c, cpu, k, next)
    ensures Leaves(rules, i, c, SameDevice(rules[i], c), next)
  {
    hide Program, InsnAt, JumpTo, And, Reaches, Words, Landing;
    var c1 := TypePart(rules, i, c, cpu);
    k, next := TailRuns(rules, i, c, c1, 6);
    Then(Program(rules), c, cpu, 2, c1, k, next);
    k := k + 2;
    ScratchIs(c, DeviceType(c));
  }

  lemma FromMask(rules: seq<Rule>, i: nat, c: Context, cpu: Cpu) returns (k: nat, next: Cpu)
    requires i < |rules| && cpu.pc == Start(i) + 2 && Loaded(cpu, c)
    ensures 1 <= k <= 8 && Reaches(Program(rules), c, cpu, k, next)
    ensures Leaves(rules, i, c, And(cpu.regs[6], Disallowed(rules[i])) == 0 && SameDevice(rules[i], c), next)
  {
    hide Program, InsnAt, JumpTo, And, Reaches, Words, Landing, Disallowed, SameDevice;
    var c1 := MaskPart(rules, i, c, cpu);
    k, next := 2, c1;
    if And(cpu.regs[6], Disallowed(rules[i])) == 0 {
      k, next := FromType(rules, i, c, c1);
      Then(Program(rules), c, cpu, 2, c1, k, next);
      k := k + 2;
    }
  }

  /** A block leaves for the next rule, unless the whole rule matches; then it takes the
      final jump. At most ten instructions. */
  lemma BlockRuns(rules: seq<Rule>, i: nat, c: Context, cpu: Cpu) returns (k: nat, next: Cpu)
    requires i < |rules| && cpu.pc == Start(i) && Loaded(cpu, c)
    ensures 1 <= k <= 10 && Reaches(Program(rules), c, cpu, k, next)
    ensures Leaves(rules, i, c, Matches(rules[i], c), next)
  {
    hide Program, InsnAt, JumpTo, And, Requested, Reaches, Words, Loaded, Landing, Granted, Disallowed, SameDevice;
    hide Leaves;
    AccessMeansSubset(rules[i], c);
    var c1 := RequestPart(rules, i, c, cpu);
    k, next := FromMask(rules, i, c, c1);
    Then(Program(rules), c, cpu, 2, c1, k, next);
    k := k + 2;
  }

  /** A block entered in its middle, with the device type in the scratch word. */
  lemma EntryRuns(rules: seq<Rule>, i: nat, c: Context, j: nat) returns (k: nat, next: Cpu)
    requires i < |rules| && j in {0, 2, 4, 6, 8}
    ensures k >= 1 && Reaches(Program(rules), c, Cpu(Start(i) + j, Words(c, DeviceType(c))), k, next)
    ensures Leaves(rules, i, c, Passes(rules[i], c, j), next)
  {
    ScratchIs(c, DeviceType(c));
    hide Program, InsnAt, JumpTo, And, Shr, Reaches, Words, Landing, Disallowed, Matches;
    var cpu := Cpu(Start(i) + j, Words(c, DeviceType(c)));
    if j == 0 {
      k, next := BlockRuns(rules, i, c, cpu);
    } else if j == 2 {
      k, next := FromMask(rules, i, c, cpu);
    } else if j == 4 {
      k, next := FromType(rules, i, c, cpu);
    } else {
      k, next := TailRuns(rules, i, c, cpu, j);
    }
  }

  /* ---------- the whole program ---------- */

  /** The first rule from `i` on that matches, or the number of rules. */
  function FirstMatch(rules: seq<Rule>, i: nat, c: Context): (m: nat)
    requires i <= |rules|
    ensures i <= m <= |rules|
    ensures m < |rules| ==> Matches(rules[m], c)
    ensures forall j :: i <= j < m ==> !Matches(rules[j], c)
    decreases |rules| - i
  {
    if i == |rules| || Matches(rules[i], c) then i else FirstMatch(rules, i + 1, c)
  }

  /** Behind the final jump of rule `m`, or at the refusal if there is no such rule. */
  ghost predicate Arrives(rules: seq<Rule>, c: Context, m: nat, next: Cpu) {
    if m < |rules| then next == Cpu(Landing(|rules|, m), Words(c, DeviceType(c)))
    else next.pc == DenyAt(|rules|)
  }

  lemma {:induction false} RulesRun(rules: seq<Rule>, i: nat, c: Context, cpu: Cpu) returns (k: nat, next: Cpu)
    requires i < |rules| && cpu.pc == Start(i) && Loaded(cpu, c)
    ensures 1 <= k <= 10 * (|rules| - i) && Reaches(Program(rules), c, cpu, k, next)
    ensures Arrives(rules, c, FirstMatch(rules, i, c), next)
    decreases |rules| - i
  {
    hide Program, Matches, Reaches, JumpTo, Words, Landing;
    k, next := BlockRuns(rules, i, c, cpu);
    if !Matches(rules[i], c) && i + 1 < |rules| {
      var k2, last := RulesRun(rules, i + 1, c, next);
      Then(Program(rules), c, cpu, k, next, k2, last);
      k, next := k + k2, last;
    }
  }

  lemma StepLoad(prog: seq<Insn>, c: Context, cpu: Cpu, dst: nat, off: int)
    requires 0 <= cpu.pc < |prog| && prog[cpu.pc] == LoadWord(dst, off) && Register(dst) && off in {0, 4, 8}
    ensures var word := if off == 0 then c.accessType else if off == 4 then c.major else c.minor;
            Reaches(prog, c, cpu, 1, Cpu(cpu.pc + 1, cpu.regs[dst := word]))
  {
  }

  lemma HeaderRuns(rules: seq<Rule>, c: Context) returns (next: Cpu)
    requires rules != []
    ensures Reaches(Program(rules), c, Boot(), 3, next) && next.pc == Start(0) && Loaded(next, c)
  {
    var prog, cpu := Program(rules), Boot();
    assert prog[0] == LoadWord(2, 0) && prog[1] == LoadWord(3, 4) && prog[2] == LoadWord(4, 8);
    hide Program, Reaches;
    var c1 := Cpu(1, cpu.regs[2 := c.accessType]);
    var c2 := Cpu(2, c1.regs[3 := c.major]);
    next := Cpu(3, c2.regs[4 := c.minor]);
    StepLoad(prog, c, cpu, 2, 0);
    StepLoad(prog, c, c1, 3, 4);
    StepLoad(prog, c, c2, 4, 8);
    Then(prog, c, cpu, 1, c1, 1, c2);
    Then(prog, c, cpu, 2, c2, 1, next);
  }

  /** Two instructions set the result and stop. */
  lemma Epilogue(prog: seq<Insn>, c: Context, cpu: Cpu, value: Word)
    requires 0 <= cpu.pc < |prog| - 1 && prog[cpu.pc] == MovImm(0, value) && prog[cpu.pc + 1] == Exit()
    ensures Run(prog, c, cpu, 2) == Halt(value)
  {
  }

  /** Once stopped, more steps change nothing. */
  lemma StoppedStays(prog: seq<Insn>, c: Context, cpu: Cpu, j: nat, next: Cpu, k: nat, steps: nat)
    requires Reaches(prog, c, cpu, j, next) && !Run(prog, c, next, k).Go? && j + k <= steps
    ensures Run(prog, c, cpu, steps) == Run(prog, c, next, k)
  {
    RunOn(prog, c, cpu, j, steps - j);
    RunOn(prog, c, next, k, steps - j - k);
  }

  function Verdict(rules: seq<Rule>, c: Context): Word {
    if Allowed(rules, c) then 1 else 0
  }

  /** The program stops with the verdict, within one step per instruction. */
  ghost predicate Decides(rules: seq<Rule>, c: Context) {
    forall steps: nat :: steps >= |Program(rules)| ==> Run(Program(rules), c, Boot(), steps) == Halt(Verdict(rules, c))
  }

  /** The distance of a final jump survives 16 bits exactly when at most 3277 rules remain. */
  lemma JumpFits(n: nat, i: nat)
    requires i < n
    ensures Landing(n, i) == AllowAt(n) <==> n - i <= 3277
  {
  }

  lemma WholeRun(rules: seq<Rule>, c: Context) returns (k: nat, next: Cpu)
    requires rules != []
    ensures k <= 3 + 10 * |rules| && Reaches(Program(rules), c, Boot(), k, next)
    ensures Arrives(rules, c, FirstMatch(rules, 0, c), next)
  {
    hide Program, Matches, Reaches, JumpTo, Boot, Arrives;
    var ready := HeaderRuns(rules, c);
    k, next := RulesRun(rules, 0, c, ready);
    Then(Program(rules), c, Boot(), 3, ready, k, next);
    k := k + 3;
  }

  /** The filter is right on every context whose first matching rule, if there is one, is
      among the last 3277, however many rules there are. */
  lemma RightWhenJumpFits(rules: seq<Rule>, c: Context)
    requires var m := FirstMatch(rules, 0, c); m == |rules| || |rules| - m <= 3277
    ensures Decides(rules, c)
  {
    var prog, n, m := Program(rules), |rules|, FirstMatch(rules, 0, c);
    if rules == [] {
      forall steps: nat | steps >= |prog|
        ensures Run(prog, c, Boot(), steps) == Halt(Verdict(rules, c))
      {
        Epilogue(prog, c, Boot(), 0);
        RunOn(prog, c, Boot(), 2, steps - 2);
      }
    } else {
      if m < n { JumpFits(n, m); }
      assert prog[AllowAt(n)] == MovImm(0, 1) && prog[AllowAt(n) + 1] == Exit();
      assert prog[DenyAt(n)] == MovImm(0, 0) && prog[DenyAt(n) + 1] == Exit();
      hide Program, Matches, JumpTo, Boot, Run;
      var k, last := WholeRun(rules, c);
      Epilogue(prog, c, last, Verdict(rules, c));
      forall steps: nat | steps >= |prog|
        ensures Run(prog, c, Boot(), steps) == Halt(Verdict(rules, c))
      {
        StoppedStays(prog, c, Boot(), k, last, 2, steps);
      }
    }
  }

  /** So it is right on every context for up to 3277 rules. */
  lemma FilterIsCorrect(rules: seq<Rule>, c: Context)
    requires |rules| <= 3277
    ensures Decides(rules, c)
  {
    RightWhenJumpFits(rules, c);
  }

  /** Past that size a match in front of the last 3277 rules jumps out of the program. */
  lemma WrongWhenJumpWraps(rules: seq<Rule>, c: Context)
    requires |rules| <= 6553
    requires var m := FirstMatch(rules, 0, c); m < |rules| && |rules| - m > 3277
    ensures Run(Program(rules), c, Boot(), |Program(rules)|) == Crash
    ensures !Decides(rules, c)
  {
    var prog, n, m := Program(rules), |rules|, FirstMatch(rules, 0, c);
    assert Landing(n, m) == AllowAt(n) - 65536 < 0;
    assert |prog| == DenyAt(n) + 2;
    hide Program, Matches, JumpTo, Boot;
    var k, last := WholeRun(rules, c);
    assert Run(prog, c, last, 1) == Crash;
    hide Run;
    StoppedStays(prog, c, Boot(), k, last, 1, |prog|);
  }

  /** A concrete case: 3278 rules for /dev/null and a read of /dev/null. */
  lemma OneRuleTooMany()
    ensures !Decides(seq(3278, _ => Rule(2, 1, 3, 6)), Context(0x2_0002, 1, 3))
  {
    var r, c := Rule(2, 1, 3, 6), Context(0x2_0002, 1, 3);
    assert Matches(r, c);
    hide Decides, Matches;
    var rules := seq(3278, _ => r);
    assert rules[0] == r;
    WrongWhenJumpWraps(rules, c);
  }

  /** Exactly when the filter is right, up to 6553 rules. */
  lemma RightIffJumpFits(rules: seq<Rule>, c: Context)
    requires |rules| <= 6553
    ensures var m := FirstMatch(rules, 0, c);
            Decides(rules, c) <==> m == |rules| || |rules| - m <= 3277
  {
    hide Decides, Matches;
    var m := FirstMatch(rules, 0, c);
    if m == |rules| || |rules| - m <= 3277 { RightWhenJumpFits(rules, c); } else { WrongWhenJumpWraps(rules, c); }
  }

  /* ---------- any number of rules ---------- */

  /** How often the distance of the final jump of rule `i` wraps around 16 bits. */
  function Wraps(n: nat, i: nat): nat
    requires i < n
  {
    (10 * (n - i - 1) + 32768) / 65536
  }

  lemma LandingIs(n: nat, i: nat)
    requires i < n
    ensures Landing(n, i) == AllowAt(n) - 65536 * Wraps(n, i)
  {
  }

  lemma WrapsFall(n: nat, i: nat, j: nat)
    requires i <= j < n
    ensures Wraps(n, j) <= Wraps(n, i)
  {
  }

  /** The state behind a jump that wrapped `w` times. */
  function Landed(rules: seq<Rule>, c: Context, w: nat): Cpu {
    Cpu(AllowAt(|rules|) - 65536 * w, Words(c, DeviceType(c)))
  }

  /** The rule whose final jump is taken next from instruction `pc`, or the number of rules. */
  function Resumes(rules: seq<Rule>, c: Context, pc: nat): (m: nat)
    requires pc < AllowAt(|rules|)
    ensures m <= |rules|
  {
    if pc < 3 then FirstMatch(rules, 0, c)
    else
      var b := (pc - 3) / 10;
      if Passes(rules[b], c, (pc - 3) % 10) then b else FirstMatch(rules, b + 1, c)
  }

  /** From behind a jump that wrapped `w` times the program gets to the exit that allows: each
      further jump it takes has to wrap less often than the last. */
  predicate GetsOut(rules: seq<Rule>, c: Context, w: nat)
    decreases w
  {
    w == 0
    || (var pc := AllowAt(|rules|) - 65536 * w;
        pc >= 0
        && var m := Resumes(rules, c, pc);
           m < |rules| && Wraps(|rules|, m) < w && GetsOut(rules, c, Wraps(|rules|, m)))
  }

  /** A wrapped jump enters a block at an even instruction, or the header at its second. */
  lemma LandsEven(n: nat, w: nat)
    requires w > 0 && AllowAt(n) - 65536 * w >= 0
    ensures var pc := AllowAt(n) - 65536 * w;
            pc == 1 || (pc >= 3 && (pc - 3) / 10 < n && (pc - 3) % 10 in {0, 2, 4, 6, 8})
  {
    var half := 5 * n - 32768 * w;
    assert AllowAt(n) - 65536 * w - 3 == 2 * half;
    if half >= 0 {
      EvenDigit(half);
    }
  }

  lemma EvenDigit(half: nat)
    ensures 2 * half % 10 in {0, 2, 4, 6, 8}
  {
  }

  /** The block entered by a jump that wrapped `w` times jumps back to the same place. */
  lemma EnteredBlockWraps(n: nat, w: nat)
    requires w > 0 && AllowAt(n) - 65536 * w >= 0
    ensures var pc := AllowAt(n) - 65536 * w;
            n > 0 && Wraps(n, if pc < 3 then 0 else (pc - 3) / 10) == w
  {
    LandsEven(n, w);
  }

  lemma ResumesWraps(rules: seq<Rule>, c: Context, w: nat)
    requires w > 0 && AllowAt(|rules|) - 65536 * w >= 0
    ensures var m := Resumes(rules, c, AllowAt(|rules|) - 65536 * w); m < |rules| ==> Wraps(|rules|, m) <= w
  {
    var n, pc := |rules|, AllowAt(|rules|) - 65536 * w;
    EnteredBlockWraps(n, w);
    hide Wraps, Passes, Matches;
    var m := Resumes(rules, c, pc);
    if m < n {
      WrapsFall(n, if pc < 3 then 0 else (pc - 3) / 10, m);
    }
  }

  /** Entered at its second instruction, the header loads the numbers again. */
  lemma HeaderAgain(rules: seq<Rule>, c: Context)
    requires rules != []
    ensures Reaches(Program(rules), c, Cpu(1, Words(c, DeviceType(c))), 2, Cpu(Start(0), Words(c, DeviceType(c))))
  {
    var prog, w := Program(rules), Words(c, DeviceType(c));
    assert prog[1] == LoadWord(3, 4) && prog[2] == LoadWord(4, 8);
    assert w[3 := c.major] == w && w[4 := c.minor] == w;
    hide Program, Reaches, Words, And;
    StepLoad(prog, c, Cpu(1, w), 3, 4);
    StepLoad(prog, c, Cpu(2, w), 4, 8);
    Then(prog, c, Cpu(1, w), 1, Cpu(2, w), 1, Cpu(3, w));
  }

  /** Behind a wrapped jump the program runs to the next final jump, or to the refusal. */
  lemma LandedRuns(rules: seq<Rule>, c: Context, w: nat) returns (k: nat, next: Cpu)
    requires w > 0 && AllowAt(|rules|) - 65536 * w >= 0
    ensures k >= 1 && Reaches(Program(rules), c, Landed(rules, c, w), k, next)
    ensures Arrives(rules, c, Resumes(rules, c, AllowAt(|rules|) - 65536 * w), next)
  {
    hide Program, Reaches, Words, DeviceType, Resumes, Arrives;
    LandsEven(|rules|, w);
    k, next := RunsFrom(rules, c, AllowAt(|rules|) - 65536 * w);
  }

  lemma RunsFrom(rules: seq<Rule>, c: Context, pc: nat) returns (k: nat, next: Cpu)
    requires pc == 1 || (pc >= 3 && (pc - 3) % 10 in {0, 2, 4, 6, 8})
    requires rules != [] && pc < AllowAt(|rules|)
    ensures k >= 1 && Reaches(Program(rules), c, Cpu(pc, Words(c, DeviceType(c))), k, next)
    ensures Arrives(rules, c, Resumes(rules, c, pc), next)
  {
    hide Program, Reaches, Words, DeviceType, Landing, Passes, FirstMatch, Arrives;
    if pc < 3 {
      LoadedIs(c, Start(0));
      HeaderAgain(rules, c);
      var ready := Cpu(Start(0), Words(c, DeviceType(c)));
      k, next := RulesRun(rules, 0, c, ready);
      Then(Program(rules), c, Cpu(pc, Words(c, DeviceType(c))), 2, ready, k, next);
      k := k + 2;
    } else {
      k, next := FromEntry(rules, c, (pc - 3) / 10, (pc - 3) % 10);
    }
  }

  lemma LoadedIs(c: Context, pc: int)
    ensures Loaded(Cpu(pc, Words(c, DeviceType(c))), c)
  {
    ScratchIs(c, DeviceType(c));
  }

  lemma FromEntry(rules: seq<Rule>, c: Context, b: nat, j: nat) returns (k: nat, next: Cpu)
    requires b < |rules| && j in {0, 2, 4, 6, 8}
    ensures k >= 1 && Reaches(Program(rules), c, Cpu(Start(b) + j, Words(c, DeviceType(c))), k, next)
    ensures Arrives(rules, c, if Passes(rules[b], c, j) then b else FirstMatch(rules, b + 1, c), next)
  {
    hide Program, Reaches, Words, And, Landing, Matches, Passes;
    var cpu := Cpu(Start(b) + j, Words(c, DeviceType(c)));
    k, next := EntryRuns(rules, b, c, j);
    if !Passes(rules[b], c, j) && b + 1 < |rules| {
      var k2, last := RulesRun(rules, b + 1, c, next);
      Then(Program(rules), c, cpu, k, next, k2, last);
      k, next := k + k2, last;
    }
  }

  /** The program stops with the verdict. */
  ghost predicate Settles(rules: seq<Rule>, c: Context) {
    exists steps: nat :: StopsWith(rules, c, Boot(), steps, Verdict(rules, c))
  }

  predicate StopsWith(rules: seq<Rule>, c: Context, cpu: Cpu, steps: nat, value: Word) {
    Run(Program(rules), c, cpu, steps) == Halt(value)
  }

  /** As long as a state is still to come, the program has not stopped. */
  lemma NotYet(prog: seq<Insn>, c: Context, a: Cpu, k: nat, b: Cpu, steps: nat)
    requires Reaches(prog, c, a, k, b) && steps <= k
    ensures Run(prog, c, a, steps).Go?
  {
    RunOn(prog, c, a, steps, k - steps);
  }

  /** A state that comes back never stops. */
  lemma {:induction false} Circles(prog: seq<Insn>, c: Context, a: Cpu, k: nat, steps: nat)
    requires k >= 1 && Reaches(prog, c, a, k, a)
    ensures Run(prog, c, a, steps).Go?
    decreases steps
  {
    if steps <= k {
      NotYet(prog, c, a, k, a, steps);
    } else {
      RunOn(prog, c, a, k, steps - k);
      Circles(prog, c, a, k, steps - k);
    }
  }

  /** What never happens later never happens. */
  lemma NeverLater(rules: seq<Rule>, c: Context, a: Cpu, k: nat, b: Cpu, value: Word, steps: nat)
    requires Reaches(Program(rules), c, a, k, b)
    requires steps >= k ==> !StopsWith(rules, c, b, steps - k, value)
    ensures !StopsWith(rules, c, a, steps, value)
  {
    hide Program;
    if steps <= k {
      NotYet(Program(rules), c, a, k, b, steps);
    } else {
      RunOn(Program(rules), c, a, k, steps - k);
    }
  }

  lemma ThenStops(rules: seq<Rule>, c: Context, a: Cpu, k: nat, b: Cpu, steps: nat, value: Word)
    requires Reaches(Program(rules), c, a, k, b) && StopsWith(rules, c, b, steps, value)
    ensures StopsWith(rules, c, a, k + steps, value)
  {
    hide Program;
    RunOn(Program(rules), c, a, k, steps);
  }

  lemma ArrivesLanded(rules: seq<Rule>, c: Context, m: nat, next: Cpu)
    requires m < |rules| && Arrives(rules, c, m, next)
    ensures next == Landed(rules, c, Wraps(|rules|, m))
  {
    LandingIs(|rules|, m);
  }

  /** At either exit the program stops after two more instructions. */
  lemma Exits(rules: seq<Rule>, c: Context, cpu: Cpu, steps: nat)
    requires rules != [] && (cpu.pc == AllowAt(|rules|) || cpu.pc == DenyAt(|rules|)) && steps >= 2
    ensures StopsWith(rules, c, cpu, steps, if cpu.pc == AllowAt(|rules|) then 1 else 0)
  {
    var prog, n := Program(rules), |rules|;
    assert prog[AllowAt(n)] == MovImm(0, 1) && prog[AllowAt(n) + 1] == Exit();
    assert prog[DenyAt(n)] == MovImm(0, 0) && prog[DenyAt(n) + 1] == Exit();
    hide Program;
    Epilogue(prog, c, cpu, if cpu.pc == AllowAt(n) then 1 else 0);
    RunOn(prog, c, cpu, 2, steps - 2);
  }

  lemma OutStep(rules: seq<Rule>, c: Context, w: nat) returns (m: nat)
    requires w > 0 && GetsOut(rules, c, w)
    ensures AllowAt(|rules|) - 65536 * w >= 0 && m == Resumes(rules, c, AllowAt(|rules|) - 65536 * w)
    ensures m < |rules| && Wraps(|rules|, m) < w && GetsOut(rules, c, Wraps(|rules|, m))
  {
    hide Resumes, Wraps;
    m := Resumes(rules, c, AllowAt(|rules|) - 65536 * w);
  }

  lemma {:induction false} OutStops(rules: seq<Rule>, c: Context, w: nat) returns (steps: nat)
    requires rules != [] && GetsOut(rules, c, w)
    ensures StopsWith(rules, c, Landed(rules, c, w), steps, 1)
    decreases w
  {
    hide GetsOut, Program, Words, DeviceType, Landing, Resumes, Wraps, Reaches, StopsWith, Arrives, Run, Execute;
    if w == 0 {
      steps := 2;
      Exits(rules, c, Landed(rules, c, 0), 2);
    } else {
      hide Landed;
      var m := OutStep(rules, c, w);
      var k, next := LandedRuns(rules, c, w);
      ArrivesLanded(rules, c, m, next);
      var rest := OutStops(rules, c, Wraps(|rules|, m));
      ThenStops(rules, c, Landed(rules, c, w), k, next, rest, 1);
      steps := k + rest;
    }
  }

  lemma {:induction false} InNeverAllows(rules: seq<Rule>, c: Context, w: nat, steps: nat)
    requires rules != [] && !GetsOut(rules, c, w)
    ensures !StopsWith(rules, c, Landed(rules, c, w), steps, 1)
    decreases w
  {
    var pc := AllowAt(|rules|) - 65536 * w;
    if pc < 0 {
      RunOut(rules, c, Landed(rules, c, w), steps);
    } else {
      var m := Resumes(rules, c, pc);
      ResumesWraps(rules, c, w);
      hide Words, And, Matches, Passes, Landing, Resumes, Wraps;
      var k, next := LandedRuns(rules, c, w);
      if m == |rules| {
        if steps >= k {
          Refuses(rules, c, next, steps - k);
        }
        NeverLater(rules, c, Landed(rules, c, w), k, next, 1, steps);
      } else {
        ArrivesLanded(rules, c, m, next);
        if Wraps(|rules|, m) == w {
          Circles(Program(rules), c, next, k, steps);
        } else {
          if steps >= k {
            InNeverAllows(rules, c, Wraps(|rules|, m), steps - k);
          }
          NeverLater(rules, c, Landed(rules, c, w), k, next, 1, steps);
        }
      }
    }
  }

  lemma RunOut(rules: seq<Rule>, c: Context, cpu: Cpu, steps: nat)
    requires cpu.pc < 0
    ensures !StopsWith(rules, c, cpu, steps, 1)
  {
    hide Program;
  }

  lemma Refuses(rules: seq<Rule>, c: Context, cpu: Cpu, steps: nat)
    requires rules != [] && cpu.pc == DenyAt(|rules|)
    ensures !StopsWith(rules, c, cpu, steps, 1)
  {
    if steps >= 2 {
      Exits(rules, c, cpu, steps);
    } else {
      Exits(rules, c, cpu, 2);
      hide Program;
      if steps == 1 {
        RunOn(Program(rules), c, cpu, 1, 1);
      }
    }
  }

  /** For every number of rules: the program stops with the right verdict exactly when no rule
      matches, or the final jump of the first match gets out, wrapped jumps included. */
  lemma SettlesIff(rules: seq<Rule>, c: Context)
    ensures var m := FirstMatch(rules, 0, c);
            Settles(rules, c) <==> m == |rules| || GetsOut(rules, c, Wraps(|rules|, m))
  {
    var m := FirstMatch(rules, 0, c);
    if rules == [] {
      RightWhenJumpFits(rules, c);
      assert StopsWith(rules, c, Boot(), |Program(rules)|, Verdict(rules, c));
    } else {
      hide Matches, And, Words, Landing, Boot, Program, GetsOut;
      var k, next := WholeRun(rules, c);
      if m == |rules| {
        Exits(rules, c, next, 2);
        ThenStops(rules, c, Boot(), k, next, 2, 0);
        assert StopsWith(rules, c, Boot(), k + 2, Verdict(rules, c));
      } else {
        ArrivesLanded(rules, c, m, next);
        MatchSettles(rules, c, k, Wraps(|rules|, m));
      }
    }
  }

  lemma NeverSettles(rules: seq<Rule>, c: Context, k: nat, w: nat, steps: nat)
    requires rules != [] && Reaches(Program(rules), c, Boot(), k, Landed(rules, c, w)) && !GetsOut(rules, c, w)
    ensures !StopsWith(rules, c, Boot(), steps, 1)
  {
    hide Landed, Boot, Program, GetsOut, Reaches, StopsWith, Run;
    if steps >= k {
      InNeverAllows(rules, c, w, steps - k);
    }
    NeverLater(rules, c, Boot(), k, Landed(rules, c, w), 1, steps);
  }

  lemma MatchSettles(rules: seq<Rule>, c: Context, k: nat, w: nat)
    requires rules != [] && Allowed(rules, c) && Reaches(Program(rules), c, Boot(), k, Landed(rules, c, w))
    ensures Settles(rules, c) <==> GetsOut(rules, c, w)
  {
    hide Allowed, Landed, Boot, Program, GetsOut, Reaches, StopsWith, Run;
    if GetsOut(rules, c, w) {
      var rest := OutStops(rules, c, w);
      ThenStops(rules, c, Boot(), k, Landed(rules, c, w), rest, 1);
      assert StopsWith(rules, c, Boot(), k + rest, Verdict(rules, c));
    } else {
      forall steps: nat
        ensures !StopsWith(rules, c, Boot(), steps, 1)
      {
        NeverSettles(rules, c, k, w, steps);
      }
    }
  }

  /** If the jump taken next wraps as often as the last, the program never stops. */
  lemma WrapsAgain(rules: seq<Rule>, c: Context, m: nat, steps: nat)
    requires m < |rules| && m == FirstMatch(rules, 0, c)
    requires var w := Wraps(|rules|, m);
             w > 0 && AllowAt(|rules|) - 65536 * w >= 0
             && var next := Resumes(rules, c, AllowAt(|rules|) - 65536 * w);
                next < |rules| && Wraps(|rules|, next) == w
    ensures Run(Program(rules), c, Boot(), steps).Go?
  {
    hide Program, Words, DeviceType, Landing, Resumes, Wraps, FirstMatch, Arrives, Boot, Reaches, Run, Landed;
    var w := Wraps(|rules|, m);
    var k, first := WholeRun(rules, c);
    ArrivesLanded(rules, c, m, first);
    var again, next := LandedRuns(rules, c, w);
    ArrivesLanded(rules, c, Resumes(rules, c, AllowAt(|rules|) - 65536 * w), next);
    if steps <= k {
      NotYet(Program(rules), c, Boot(), k, first, steps);
    } else {
      Circles(Program(rules), c, first, again, steps - k);
      GoesOn(Program(rules), c, Boot(), k, first, steps);
    }
  }

  /** Beyond 6553 rules a wrapped jump lands inside the program. 6554 rules for /dev/null: a
      read of /dev/null enters the first block again behind its access test, for ever. */
  lemma LoopsForever(steps: nat)
    ensures Run(Program(seq(6554, _ => Rule(2, 1, 3, 6))), Context(0x2_0002, 1, 3), Boot(), steps).Go?
  {
    var r, c := Rule(2, 1, 3, 6), Context(0x2_0002, 1, 3);
    assert Matches(r, c);
    hide Matches, Program, Boot, Passes, Run;
    var rules := seq(6554, _ => r);
    assert rules[0] == r;
    MatchPasses(r, c);
    assert FirstMatch(rules, 0, c) == 0;
    assert Resumes(rules, c, 4 + Start(0)) == 0;
    WrapsAgain(rules, c, 0, steps);
  }

  lemma MatchPasses(r: Rule, c: Context)
    requires Matches(r, c)
    ensures Passes(r, c, 4)
  {
    hide And;
  }

  lemma GoesOn(prog: seq<Insn>, c: Context, a: Cpu, k: nat, b: Cpu, steps: nat)
    requires Reaches(prog, c, a, k, b) && steps >= k && Run(prog, c, b, steps - k).Go?
    ensures Run(prog, c, a, steps).Go?
  {
    RunOn(prog, c, a, k, steps - k);
  }

  /** Nor is a wrapped jump always wrong: with 6556 rules of which only the first and the last
      match, it lands behind the first and finds the last. */
  lemma LandsRight(other: Rule)
    requires !SameDevice(other, Context(0x2_0002, 1, 3))
    ensures Settles(FirstAndLast(other), Context(0x2_0002, 1, 3))
  {
    var r, c, rules := Rule(2, 1, 3, 6), Context(0x2_0002, 1, 3), FirstAndLast(other);
    assert Matches(r, c) && !Matches(other, c);
    assert Passes(other, c, 4) == SameDevice(other, c);
    hide Matches, Passes, SameDevice, Settles;
    assert rules[0] == r && rules[6555] == r && rules[2] == other;
    assert FirstMatch(rules, 0, c) == 0;
    assert Wraps(6556, 0) == 1 && Wraps(6556, 6555) == 0;
    var m := FirstMatch(rules, 3, c);
    assert m == 6555;
    assert Resumes(rules, c, 4 + Start(2)) == m;
    assert GetsOut(rules, c, 0);
    assert GetsOut(rules, c, 1);
    SettlesIff(rules, c);
  }

  function FirstAndLast(other: Rule): seq<Rule> {
    seq(6556, i => if i == 0 || i == 6555 then Rule(2, 1, 3, 6) else other)
  }

  /** The evaluator as a loop over its registers and program counter. */
  method Evaluate(prog: seq<Insn>, c: Context, limit: nat) returns (r: Result)
    ensures r == Run(prog, c, Boot(), limit)
  {
    var cpu := Boot();
    for done := 0 to limit
      invariant Run(prog, c, Boot(), limit) == Run(prog, c, cpu, limit - done)
    {
      r := Execute(prog, c, cpu);
      if !r.Go? {
        return;
      }
      cpu := r.cpu;
    }
    return Go(cpu);
  }
}
