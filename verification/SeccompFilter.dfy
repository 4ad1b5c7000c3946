/**
 The classic-BPF program that install_process_group_containment hands to the kernel, its evaluation,
 and the policy it stands for.
 */
module SeccompFilter {
  import opened Options

  /** The four instruction forms the program uses.  A jump skips that many instructions. */
  datatype Insn =
    | LdAbs(offset: nat)
    | Jeq(k: bv32, jt: nat, jf: nat)
    | Jset(k: bv32, jt: nat, jf: nat)
    | Ret(k: bv32)

  /** struct seccomp_data. */
  datatype Data = Data(nr: bv32, arch: bv32, ip: bv64, a0: bv64, a1: bv64, a2: bv64, a3: bv64, a4: bv64, a5: bv64)

  function Low(x: bv64): bv32 {
    (x & 0xFFFF_FFFF) as bv32
  }

  function High(x: bv64): bv32 {
    (x >> 32) as bv32
  }

  /** A 32-bit load at a fixed offset of a little-endian seccomp_data. */
  function Load(d: Data, offset: nat): Option<bv32> {
    match offset
    case 0 => Some(d.nr)
    case 4 => Some(d.arch)
    case 8 => Some(Low(d.ip))
    case 12 => Some(High(d.ip))
    case 16 => Some(Low(d.a0))
    case 20 => Some(High(d.a0))
    case 24 => Some(Low(d.a1))
    case 28 => Some(High(d.a1))
    case 32 => Some(Low(d.a2))
    case 36 => Some(High(d.a2))
    case 40 => Some(Low(d.a3))
    case 44 => Some(High(d.a3))
    case 48 => Some(Low(d.a4))
    case 52 => Some(High(d.a4))
    case 56 => Some(Low(d.a5))
    case 60 => Some(High(d.a5))
    case _ => None
  }

  /** Runs the program; None means it ran off its end or loaded out of range. */
  function Eval(prog: seq<Insn>, pc: nat, acc: bv32, d: Data): Option<bv32>
    decreases |prog| - pc
  {
    if pc >= |prog| then None
    else match prog[pc]
      case LdAbs(offset) =>
        var x := Load(d, offset);
        if x.None? then None else Eval(prog, pc + 1, x.value, d)
      case Jeq(k, jt, jf) => Eval(prog, pc + 1 + (if acc == k then jt else jf), acc, d)
      case Jset(k, jt, jf) => Eval(prog, pc + 1 + (if acc & k != 0 then jt else jf), acc, d)
      case Ret(k) => Some(k)
  }

  const AUDIT_ARCH_X86_64: bv32 := 0xC000_003E
  const RET_KILL_PROCESS: bv32 := 0x8000_0000
  const RET_ALLOW: bv32 := 0x7FFF_0000
  const RET_EPERM: bv32 := 0x0005_0001
  const RET_ENOSYS: bv32 := 0x0005_0026

  const NR_CLONE: bv32 := 56
  const NR_SETPGID: bv32 := 109
  const NR_SETSID: bv32 := 112
  const NR_PIVOT_ROOT: bv32 := 155
  const NR_SETRLIMIT: bv32 := 160
  const NR_CHROOT: bv32 := 161
  const NR_MOUNT: bv32 := 165
  const NR_UMOUNT2: bv32 := 166
  const NR_UNSHARE: bv32 := 272
  const NR_PRLIMIT64: bv32 := 302
  const NR_SETNS: bv32 := 308
  const NR_OPEN_TREE: bv32 := 428
  const NR_MOVE_MOUNT: bv32 := 429
  const NR_CLONE3: bv32 := 435
  const NR_MOUNT_SETATTR: bv32 := 442

  const NAMESPACE_MASK: bv32 :=
    0x0200_0000 | 0x0800_0000 | 0x4000_0000 | 0x0002_0000 | 0x2000_0000 | 0x0000_0080 | 0x1000_0000 | 0x0400_0000

  function Sealed(seal: bool): bv32 {
    if seal then RET_EPERM else RET_ALLOW
  }

  /** Instructions 0 to 8: the architecture check and the clone block. */
  const HEAD: seq<Insn> := [
    LdAbs(4),
    Jeq(AUDIT_ARCH_X86_64, 1, 0),
    Ret(RET_KILL_PROCESS),
    LdAbs(0),
    Jeq(NR_CLONE, 0, 3),
    LdAbs(16),
    Jset(NAMESPACE_MASK, 0, 1),
    Ret(RET_EPERM),
    LdAbs(0)
  ]

  /** Instructions 9 to 34 are compare-and-return pairs, for these calls in this order ... */
  const KEYS: seq<bv32> := [
    NR_SETSID, NR_SETPGID, NR_UNSHARE, NR_SETNS, NR_CLONE3, NR_MOUNT, NR_UMOUNT2, NR_PIVOT_ROOT, NR_CHROOT,
    NR_OPEN_TREE, NR_MOVE_MOUNT, NR_MOUNT_SETATTR, NR_SETRLIMIT
  ]

  /** ... with these answers. */
  function Answers(seal: bool): seq<bv32> {
    [ RET_EPERM, RET_EPERM, RET_EPERM, RET_EPERM, RET_ENOSYS, RET_EPERM, RET_EPERM, RET_EPERM, RET_EPERM,
      RET_EPERM, RET_EPERM, RET_EPERM, Sealed(seal) ]
  }

  function Pairs(keys: seq<bv32>, answers: seq<bv32>): (s: seq<Insn>)
    requires |answers| == |keys|
    ensures |s| == 2 * |keys|
  {
    if keys == [] then [] else [Jeq(keys[0], 0, 1), Ret(answers[0])] + Pairs(keys[1..], answers[1..])
  }

  /** Instructions 35 to 41: the prlimit64 block and the final answer. */
  function Tail(seal: bool): seq<Insn> {
    [ Jeq(NR_PRLIMIT64, 0, 5),
      LdAbs(32),
      Jeq(0, 0, 2),
      LdAbs(36),
      Jeq(0, 1, 0),
      Ret(Sealed(seal)),
      Ret(RET_ALLOW) ]
  }

  function Filter(seal: bool): seq<Insn> {
    HEAD + Pairs(KEYS, Answers(seal)) + Tail(seal)
  }

  // ----- the policy ----------------------------------------------------------------------------

  datatype Verdict = KillProcess | Errno(n: nat) | Allow

  const EPERM := 1
  const ENOSYS := 38

  function Code(v: Verdict): bv32 {
    match v
    case KillProcess => RET_KILL_PROCESS
    case Errno(n) => if n == ENOSYS then RET_ENOSYS else RET_EPERM
    case Allow => RET_ALLOW
  }

  /** Some flag that would put the child into a new namespace is set. */
  predicate AsksForNamespace(flags: bv64) {
    || flags & 0x0200_0000 != 0   // CLONE_NEWCGROUP
    || flags & 0x0800_0000 != 0   // CLONE_NEWIPC
    || flags & 0x4000_0000 != 0   // CLONE_NEWNET
    || flags & 0x0002_0000 != 0   // CLONE_NEWNS
    || flags & 0x2000_0000 != 0   // CLONE_NEWPID
    || flags & 0x0000_0080 != 0   // CLONE_NEWTIME
    || flags & 0x1000_0000 != 0   // CLONE_NEWUSER
    || flags & 0x0400_0000 != 0   // CLONE_NEWUTS
  }

  /** Calls that are refused outright. */
  predicate Refused(nr: bv32) {
    || nr == NR_SETSID || nr == NR_SETPGID || nr == NR_UNSHARE || nr == NR_SETNS
    || nr == NR_MOUNT || nr == NR_UMOUNT2 || nr == NR_PIVOT_ROOT || nr == NR_CHROOT
    || nr == NR_OPEN_TREE || nr == NR_MOVE_MOUNT || nr == NR_MOUNT_SETATTR
  }

  /** A call that would change a resource limit: prlimit64 only reads when its new-limit pointer is null. */
  predicate ChangesLimit(d: Data) {
    d.nr == NR_SETRLIMIT || (d.nr == NR_PRLIMIT64 && d.a2 != 0)
  }

  function Policy(seal: bool, d: Data): Verdict {
    if d.arch != AUDIT_ARCH_X86_64 then KillProcess
    else if Refused(d.nr) || (d.nr == NR_CLONE && AsksForNamespace(d.a0)) then Errno(EPERM)
    else if d.nr == NR_CLONE3 then Errno(ENOSYS)
    else if seal && ChangesLimit(d) then Errno(EPERM)
    else Allow
  }

  // ----- the program refines the policy --------------------------------------------------------

  lemma NamespaceBits(flags: bv64)
    ensures Low(flags) & NAMESPACE_MASK != 0 <==> AsksForNamespace(flags)
  {}

  lemma PointerHalves(x: bv64)
    ensures x != 0 <==> Low(x) != 0 || High(x) != 0
  {}

  /** From `base` on, the program is a ladder of compare-and-return pairs. */
  predicate HasRungs(prog: seq<Insn>, base: nat, keys: seq<bv32>, answers: seq<bv32>) {
    && |answers| == |keys|
    && base + 2 * |keys| <= |prog|
    && forall j :: 0 <= j < |keys| ==> Rung(prog, base + 2 * j, keys[j], answers[j])
  }

  predicate Rung(prog: seq<Insn>, pc: nat, key: bv32, answer: bv32) {
    pc + 1 < |prog| && prog[pc] == Jeq(key, 0, 1) && prog[pc + 1] == Ret(answer)
  }

  /** The answer of the first rung from `j` on whose key is `nr`. */
  function Lookup(keys: seq<bv32>, answers: seq<bv32>, j: nat, nr: bv32): Option<bv32>
    requires |answers| == |keys|
    decreases |keys| - j
  {
    if j >= |keys| then None
    else if nr == keys[j] then Some(answers[j])
    else Lookup(keys, answers, j + 1, nr)
  }

  lemma {:induction false} LadderEval(
    prog: seq<Insn>, base: nat, keys: seq<bv32>, answers: seq<bv32>, j: nat, nr: bv32, d: Data)
    requires HasRungs(prog, base, keys, answers) && j <= |keys|
    ensures var a := Lookup(keys, answers, j, nr);
            Eval(prog, base + 2 * j, nr, d) == if a.Some? then a else Eval(prog, base + 2 * |keys|, nr, d)
    decreases |keys| - j
  {
    if j < |keys| {
      assert Rung(prog, base + 2 * j, keys[j], answers[j]);
      LadderEval(prog, base, keys, answers, j + 1, nr, d);
    }
  }

  lemma {:induction false} PairAt(keys: seq<bv32>, answers: seq<bv32>, j: nat)
    requires |answers| == |keys| && j < |keys|
    ensures var s := Pairs(keys, answers); s[2 * j] == Jeq(keys[j], 0, 1) && s[2 * j + 1] == Ret(answers[j])
  {
    if j > 0 { PairAt(keys[1..], answers[1..], j - 1); }
  }

  lemma RungsInside(head: seq<Insn>, keys: seq<bv32>, answers: seq<bv32>, tail: seq<Insn>)
    requires |answers| == |keys|
    ensures HasRungs(head + Pairs(keys, answers) + tail, |head|, keys, answers)
  {
    var f := head + Pairs(keys, answers) + tail;
    forall j | 0 <= j < |keys| ensures Rung(f, |head| + 2 * j, keys[j], answers[j]) {
      PairAt(keys, answers, j);
      assert f[|head| + 2 * j] == Pairs(keys, answers)[2 * j];
      assert f[|head| + 2 * j + 1] == Pairs(keys, answers)[2 * j + 1];
    }
  }

  lemma FilterHasRungs(seal: bool)
    ensures HasRungs(Filter(seal), 9, KEYS, Answers(seal))
  {
    RungsInside(HEAD, KEYS, Answers(seal), Tail(seal));
  }

  /** The instructions around the ladder. */
  predicate HasBlocks(f: seq<Insn>, answer: bv32) {
    && |f| == 42
    && f[0] == LdAbs(4) && f[1] == Jeq(AUDIT_ARCH_X86_64, 1, 0) && f[2] == Ret(RET_KILL_PROCESS)
    && f[3] == LdAbs(0) && f[4] == Jeq(NR_CLONE, 0, 3) && f[5] == LdAbs(16)
    && f[6] == Jset(NAMESPACE_MASK, 0, 1) && f[7] == Ret(RET_EPERM) && f[8] == LdAbs(0)
    && f[35] == Jeq(NR_PRLIMIT64, 0, 5) && f[36] == LdAbs(32) && f[37] == Jeq(0, 0, 2)
    && f[38] == LdAbs(36) && f[39] == Jeq(0, 1, 0) && f[40] == Ret(answer) && f[41] == Ret(RET_ALLOW)
  }

  lemma FilterHasBlocks(seal: bool)
    ensures HasBlocks(Filter(seal), Sealed(seal))
  {
    Around(HEAD, Pairs(KEYS, Answers(seal)), Tail(seal));
  }

  lemma Around<T>(a: seq<T>, b: seq<T>, c: seq<T>)
    ensures forall i :: 0 <= i < |a| ==> (a + b + c)[i] == a[i]
    ensures forall i :: 0 <= i < |c| ==> (a + b + c)[|a| + |b| + i] == c[i]
  {}

  lemma LookupMeaning(seal: bool, nr: bv32)
    ensures Lookup(KEYS, Answers(seal), 0, nr)
            == if Refused(nr) then Some(RET_EPERM)
               else if nr == NR_CLONE3 then Some(RET_ENOSYS)
               else if nr == NR_SETRLIMIT then Some(Sealed(seal))
               else None
  {
    var a := Answers(seal);
    assert Lookup(KEYS, a, 13, nr) == None;
    assert Lookup(KEYS, a, 12, nr) == if nr == NR_SETRLIMIT then Some(Sealed(seal)) else None;
    assert Lookup(KEYS, a, 11, nr) == if nr == NR_MOUNT_SETATTR then Some(RET_EPERM) else Lookup(KEYS, a, 12, nr);
    assert Lookup(KEYS, a, 10, nr) == if nr == NR_MOVE_MOUNT then Some(RET_EPERM) else Lookup(KEYS, a, 11, nr);
    assert Lookup(KEYS, a, 9, nr) == if nr == NR_OPEN_TREE then Some(RET_EPERM) else Lookup(KEYS, a, 10, nr);
    assert Lookup(KEYS, a, 8, nr) == if nr == NR_CHROOT then Some(RET_EPERM) else Lookup(KEYS, a, 9, nr);
    assert Lookup(KEYS, a, 7, nr) == if nr == NR_PIVOT_ROOT then Some(RET_EPERM) else Lookup(KEYS, a, 8, nr);
    assert Lookup(KEYS, a, 6, nr) == if nr == NR_UMOUNT2 then Some(RET_EPERM) else Lookup(KEYS, a, 7, nr);
    assert Lookup(KEYS, a, 5, nr) == if nr == NR_MOUNT then Some(RET_EPERM) else Lookup(KEYS, a, 6, nr);
    assert Lookup(KEYS, a, 4, nr) == if nr == NR_CLONE3 then Some(RET_ENOSYS) else Lookup(KEYS, a, 5, nr);
    assert Lookup(KEYS, a, 3, nr) == if nr == NR_SETNS then Some(RET_EPERM) else Lookup(KEYS, a, 4, nr);
    assert Lookup(KEYS, a, 2, nr) == if nr == NR_UNSHARE then Some(RET_EPERM) else Lookup(KEYS, a, 3, nr);
    assert Lookup(KEYS, a, 1, nr) == if nr == NR_SETPGID then Some(RET_EPERM) else Lookup(KEYS, a, 2, nr);
  }

  /** Both halves of the pointer are loaded and compared with zero, the high one only if the low one is. */
  lemma HalvesBlock(f: seq<Insn>, answer: bv32, acc: bv32, d: Data)
    requires HasBlocks(f, answer)
    ensures Eval(f, 36, acc, d) == Some(if Low(d.a2) == 0 && High(d.a2) == 0 then RET_ALLOW else answer)
  {
    var low, high := Low(d.a2), High(d.a2);
    assert Eval(f, 39, high, d) == Some(if high == 0 then RET_ALLOW else answer);
    assert Eval(f, 37, low, d) == if low == 0 then Eval(f, 38, low, d) else Some(answer);
  }

  /** The prlimit64 block, with its hand-counted jumps over the two pointer halves. */
  lemma PrlimitBlock(f: seq<Insn>, answer: bv32, nr: bv32, d: Data)
    requires HasBlocks(f, answer)
    ensures Eval(f, 35, nr, d) == Some(if nr == NR_PRLIMIT64 && d.a2 != 0 then answer else RET_ALLOW)
  {
    PointerHalves(d.a2);
    HalvesBlock(f, answer, nr, d);
    assert Eval(f, 35, nr, d) == if nr == NR_PRLIMIT64 then Eval(f, 36, nr, d) else Some(RET_ALLOW);
  }

  /** The clone block: either it answers, or the syscall number is loaded again. */
  lemma CloneBlock(f: seq<Insn>, answer: bv32, acc: bv32, d: Data)
    requires HasBlocks(f, answer)
    ensures Eval(f, 3, acc, d)
            == if d.nr == NR_CLONE && AsksForNamespace(d.a0) then Some(RET_EPERM) else Eval(f, 9, d.nr, d)
  {
    NamespaceBits(d.a0);
    var x := Low(d.a0);
    assert Eval(f, 8, d.nr, d) == Eval(f, 9, d.nr, d) == Eval(f, 8, x, d);
    assert Eval(f, 6, x, d) == if x & NAMESPACE_MASK != 0 then Some(RET_EPERM) else Eval(f, 8, x, d);
    assert Eval(f, 4, d.nr, d) == if d.nr == NR_CLONE then Eval(f, 6, x, d) else Eval(f, 8, d.nr, d);
  }

  lemma ArchBlock(f: seq<Insn>, answer: bv32, d: Data)
    requires HasBlocks(f, answer)
    ensures Eval(f, 0, 0, d)
            == if d.arch == AUDIT_ARCH_X86_64 then Eval(f, 3, d.arch, d) else Some(RET_KILL_PROCESS)
  {
    assert Eval(f, 1, d.arch, d)
        == if d.arch == AUDIT_ARCH_X86_64 then Eval(f, 3, d.arch, d) else Some(RET_KILL_PROCESS);
  }

  /** For every architecture, syscall number and argument vector, and in both modes, the program ends in
      range at a RET with exactly the verdict of the policy. */
  lemma FilterRefinesPolicy(seal: bool, d: Data)
    ensures Eval(Filter(seal), 0, 0, d) == Some(Code(Policy(seal, d)))
  {
    FilterHasRungs(seal);
    LookupMeaning(seal, d.nr);
    FilterHasBlocks(seal);
    FilterBlocks(Filter(seal), seal, d);
  }

  lemma FilterBlocks(f: seq<Insn>, seal: bool, d: Data)
    requires HasBlocks(f, Sealed(seal)) && HasRungs(f, 9, KEYS, Answers(seal))
    requires Lookup(KEYS, Answers(seal), 0, d.nr)
             == if Refused(d.nr) then Some(RET_EPERM)
                else if d.nr == NR_CLONE3 then Some(RET_ENOSYS)
                else if d.nr == NR_SETRLIMIT then Some(Sealed(seal))
                else None
    ensures Eval(f, 0, 0, d) == Some(Code(Policy(seal, d)))
  {
    ArchBlock(f, Sealed(seal), d);
    CloneBlock(f, Sealed(seal), d.arch, d);
    LadderEval(f, 9, KEYS, Answers(seal), 0, d.nr, d);
    PrlimitBlock(f, Sealed(seal), d.nr, d);
  }

  /** What the kernel checks before it accepts a filter: loads are aligned and in range, every jump
      lands inside the program, and the last instruction returns. */
  predicate Accepted(prog: seq<Insn>) {
    && 0 < |prog| <= 4096
    && prog[|prog| - 1].Ret?
    && forall i :: 0 <= i < |prog| ==> InsnAccepted(prog[i], |prog| - i - 1)
  }

  predicate InsnAccepted(insn: Insn, behind: nat) {
    match insn
    case LdAbs(offset) => offset % 4 == 0 && offset < 64
    case Jeq(_, jt, jf) => jt < behind && jf < behind
    case Jset(_, jt, jf) => jt < behind && jf < behind
    case Ret(_) => true
  }

  lemma FilterIsAccepted(seal: bool)
    ensures Accepted(Filter(seal))
  {
    FilterHasRungs(seal);
    FilterHasBlocks(seal);
    BlocksAndRungsAccepted(Filter(seal), Sealed(seal), KEYS, Answers(seal));
  }

  lemma BlocksAndRungsAccepted(f: seq<Insn>, answer: bv32, keys: seq<bv32>, answers: seq<bv32>)
    requires HasBlocks(f, answer) && HasRungs(f, 9, keys, answers) && |keys| == 13
    ensures Accepted(f)
  {
    forall i | 0 <= i < |f| ensures InsnAccepted(f[i], |f| - i - 1) {
      if 9 <= i < 35 {
        var j := (i - 9) / 2;
        assert Rung(f, 9 + 2 * j, keys[j], answers[j]);
        assert i == 9 + 2 * j || i == 10 + 2 * j;
      }
    }
  }
}
