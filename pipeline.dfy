/** The per-tick semantics of the four-slot pipelined processor, as pure
    functions on a snapshot of its state. The class in cpu.dfy performs the
    same tick in place and is proved equal to `Step`. */
module Pipeline {

  import opened Wrappers
  import Alu

  const CoreId := 0
  const RegCount := 8
  const PortCount := 256
  const ScreenSize := 32

  /** The hard-wired ports: a store to port 0 reads back the core identity,
      ports 10 and 11 hold the pixel column and row, a store to port 12 draws
      that pixel and a store to port 13 clears the screen. */
  const ReadbackPort := 0
  const ColumnPort := 10
  const RowPort := 11
  const DrawPort := 12
  const ClearPort := 13

  type RegIndex = i: int | 0 <= i < 8

  /** An operand names a register or is an integer literal. An absent operand
      of the source reads as 0 and is never a register, exactly like `Lit(0)`. */
  datatype Operand = Reg(index: RegIndex) | Lit(value: int)

  datatype Instr = Instr(op: Alu.Opcode, dest: Operand, arg1: Operand, arg2: Operand)

  /** A result waiting in the W slot for the next writeback. */
  datatype Payload = Payload(value: int, target: Operand)

  /** The program: an empty entry stops fetching. */
  type Program = seq<Option<Instr>>

  /** Registers, program counter, port bank, framebuffer (`screen[row][col]`)
      and the four pipeline slots F, D, E and W. */
  datatype State = State(
    regs: seq<int>,
    pc: int,
    ports: seq<int>,
    screen: seq<seq<int>>,
    f: Option<Instr>,
    d: Option<Instr>,
    e: Option<Instr>,
    w: Option<Payload>)

  predicate Shaped(s: State)
  {
    |s.regs| == RegCount && |s.ports| == PortCount && |s.screen| == ScreenSize &&
    forall y :: 0 <= y < ScreenSize ==> |s.screen[y]| == ScreenSize
  }

  function Blank(): (g: seq<seq<int>>)
    ensures |g| == ScreenSize
    ensures forall y :: 0 <= y < ScreenSize ==> |g[y]| == ScreenSize && forall x :: 0 <= x < ScreenSize ==> g[y][x] == 0
  {
    seq(ScreenSize, _ => seq(ScreenSize, _ => 0))
  }

  /** The machine as constructed: everything zero, every slot empty. */
  function Init(): (s: State)
    ensures Shaped(s) && s.pc == 0
  {
    State(seq(RegCount, _ => 0), 0, seq(PortCount, _ => 0), Blank(), None, None, None, None)
  }

  /** Operand resolution with single-entry forwarding: a register that the
      pending payload targets reads the pending value. */
  function Resolve(regs: seq<int>, w: Option<Payload>, x: Operand): (r: int)
    requires |regs| == RegCount
    ensures x.Lit? ==> r == x.value
    ensures x.Reg? ==> r == Commit(regs, w)[x.index]
  {
    match x
    case Lit(n) => n
    case Reg(i) => if w.Some? && w.value.target == x then w.value.value else regs[i]
  }

  /** The register file after committing a pending payload; a literal target
      drops the value. */
  function Commit(regs: seq<int>, w: Option<Payload>): (r: seq<int>)
    requires |regs| == RegCount
    ensures |r| == RegCount
    ensures forall i: RegIndex :: r[i] == if w.Some? && w.value.target == Reg(i) then w.value.value else regs[i]
  {
    if w.Some? && w.value.target.Reg? then regs[w.value.target.index := w.value.value] else regs
  }

  /** Forwarding returns exactly what the register would hold once the
      pending payload is committed. */
  lemma ForwardingMatchesCommit(regs: seq<int>, w: Option<Payload>, x: Operand)
    requires |regs| == RegCount
    ensures Resolve(regs, w, x) == Resolve(Commit(regs, w), None, x)
  {
  }

  /** The register file the Execute stage of this tick reads. */
  function ExecRegs(s: State): (r: seq<int>)
    requires Shaped(s)
    ensures |r| == RegCount
  {
    Commit(s.regs, s.w)
  }

  /** Whether an instruction in E redirects the program counter. */
  predicate Taken(regs: seq<int>, ins: Instr)
    requires |regs| == RegCount
  {
    ins.op == Alu.Jmp ||
    (ins.op == Alu.Beq && Resolve(regs, None, ins.dest) == Resolve(regs, None, ins.arg1))
  }

  /** The source raises on a negative shift count, and a negative jump target
      would index the program from its end; both are excluded. */
  predicate Defined(regs: seq<int>, ins: Instr)
    requires |regs| == RegCount
  {
    (ins.op == Alu.Bsl || Taken(regs, ins)) ==> Resolve(regs, None, ins.arg2) >= 0
  }

  predicate CanStep(s: State)
  {
    Shaped(s) && s.pc >= 0 && (s.e.Some? ==> Defined(ExecRegs(s), s.e.value))
  }

  /** Stage 1: commit the pending payload. */
  function Writeback(s: State): (r: State)
    requires Shaped(s)
    ensures Shaped(r)
  {
    s.(regs := Commit(s.regs, s.w))
  }

  function SetPixel(g: seq<seq<int>>, y: int, x: int): (r: seq<seq<int>>)
    requires |g| == ScreenSize && forall i :: 0 <= i < ScreenSize ==> |g[i]| == ScreenSize
    requires 0 <= y < ScreenSize && 0 <= x < ScreenSize
    ensures |r| == ScreenSize && forall i :: 0 <= i < ScreenSize ==> |r[i]| == ScreenSize
    ensures forall i, j :: 0 <= i < ScreenSize && 0 <= j < ScreenSize ==>
      r[i][j] == if i == y && j == x then 1 else g[i][j]
  {
    g[y := g[y][x := 1]]
  }

  /** Stage 2: clear W, then carry out the instruction in E. */
  function Execute(s: State): (r: State)
    requires Shaped(s) && (s.e.Some? ==> Defined(s.regs, s.e.value))
    ensures Shaped(r)
    ensures s.pc >= 0 ==> r.pc >= 0
  {
    var s := s.(w := None);
    if s.e.None? then s
    else
      var ins := s.e.value;
      var v1 := Resolve(s.regs, s.w, ins.arg1);
      var v2 := Resolve(s.regs, s.w, ins.arg2);
      match ins.op
      case Out =>
        var port := Resolve(s.regs, s.w, ins.dest);
        var ports := s.ports[port % PortCount := v1];
        s.(ports := ports,
           w := if port == ReadbackPort then Some(Payload(CoreId, ins.dest)) else s.w,
           screen := if port == DrawPort then SetPixel(s.screen, ports[RowPort] % ScreenSize, ports[ColumnPort] % ScreenSize)
                     else if port == ClearPort then Blank()
                     else s.screen)
      case Jmp => s.(pc := v2, f := None, d := None)
      case Beq =>
        if Resolve(s.regs, s.w, ins.dest) == v1 then s.(pc := v2, f := None, d := None) else s
      case _ => s.(w := Some(Payload(Alu.Execute(ins.op, v1, v2), ins.dest)))
  }

  /** Stage 3: E := D, D := F. */
  function Advance(s: State): (r: State)
    ensures r.e == s.d && r.d == s.f && r.f == s.f
    ensures r.(e := s.e, d := s.d) == s
    ensures Shaped(s) ==> Shaped(r)
  {
    s.(e := s.d, d := s.f)
  }

  /** Stage 4: fetch the instruction at PC, if there is one. */
  function Fetch(rom: Program, s: State): (r: State)
    requires s.pc >= 0
    ensures r.f.Some? <==> r.pc == s.pc + 1
    ensures r.pc == s.pc || r.pc == s.pc + 1
    ensures r.f.Some? ==> s.pc < |rom| && r.f == rom[s.pc]
    ensures r.f.None? ==> s.pc >= |rom| || rom[s.pc].None?
    ensures r.(f := s.f, pc := s.pc) == s
    ensures Shaped(s) ==> Shaped(r)
  {
    if s.pc < |rom| && rom[s.pc].Some? then s.(f := rom[s.pc], pc := s.pc + 1) else s.(f := None)
  }

  /** One tick. */
  function Step(rom: Program, s: State): (r: State)
    requires CanStep(s)
    ensures Shaped(r) && r.pc >= 0
  {
    Fetch(rom, Advance(Execute(Writeback(s))))
  }

  /** Opcodes that go to the ALU and queue their result in W. */
  predicate WritesBack(op: Alu.Opcode)
  {
    op != Alu.Out && op != Alu.Jmp && op != Alu.Beq
  }

  // ---------------------------------------------------------------------
  // What one tick does

  /** Registers change only through the writeback of the pending payload;
      Execute never writes a register directly. */
  lemma StepRegisters(rom: Program, s: State)
    requires CanStep(s)
    ensures Step(rom, s).regs == Commit(s.regs, s.w)
  {
  }

  /** Without a taken branch the slots move one place (E := D, D := F) and
      the fetch reads the program at PC: an empty or out-of-range entry
      leaves F empty and PC where it is. */
  lemma StepShiftAndFetch(rom: Program, s: State)
    requires CanStep(s)
    requires s.e.None? || !Taken(ExecRegs(s), s.e.value)
    ensures var r := Step(rom, s);
      r.e == s.d && r.d == s.f &&
      if s.pc < |rom| && rom[s.pc].Some? then r.f == rom[s.pc] && r.pc == s.pc + 1
      else r.f == None && r.pc == s.pc
  {
  }

  /** A taken JMP or BEQ sets PC to the resolved second operand and flushes
      F and D: after the tick E and D are empty and F holds the target
      instruction, or nothing. */
  lemma StepBranch(rom: Program, s: State)
    requires CanStep(s) && s.e.Some? && Taken(ExecRegs(s), s.e.value)
    ensures var t := Resolve(ExecRegs(s), None, s.e.value.arg2);
      var r := Step(rom, s);
      t >= 0 && r.e == None && r.d == None &&
      r.regs == ExecRegs(s) && r.w == None && r.ports == s.ports && r.screen == s.screen &&
      if t < |rom| && rom[t].Some? then r.f == rom[t] && r.pc == t + 1
      else r.f == None && r.pc == t
  {
  }

  /** A BEQ that is not taken does nothing beyond what an empty E slot does. */
  lemma BeqNotTaken(rom: Program, s: State)
    requires CanStep(s) && s.e.Some? && s.e.value.op == Alu.Beq && !Taken(ExecRegs(s), s.e.value)
    ensures CanStep(s.(e := None))
    ensures Step(rom, s) == Step(rom, s.(e := None))
  {
  }

  /** An ALU instruction queues its result for its destination and touches
      neither the ports nor the screen. */
  lemma StepAluOp(rom: Program, s: State)
    requires CanStep(s) && s.e.Some? && WritesBack(s.e.value.op)
    ensures var ins := s.e.value;
      var regs := ExecRegs(s);
      var r := Step(rom, s);
      r.w == Some(Payload(Alu.Execute(ins.op, Resolve(regs, None, ins.arg1), Resolve(regs, None, ins.arg2)), ins.dest)) &&
      r.ports == s.ports && r.screen == s.screen
  {
  }

  /** An unknown opcode writes 0 into a register destination one tick after
      it executes. */
  lemma UnknownOpWritesZero(rom: Program, s: State, i: RegIndex)
    requires CanStep(s) && s.e.Some? && s.e.value.op == Alu.Other && s.e.value.dest == Reg(i)
    requires CanStep(Step(rom, s))
    ensures Step(rom, Step(rom, s)).regs[i] == 0
  {
    StepAluOp(rom, s);
    StepRegisters(rom, Step(rom, s));
  }

  /** OUT stores its first operand in the port its destination names, wrapped
      to the bank; the hard-wired effects look at the unwrapped port number.
      Port 12 turns on exactly the pixel at row `ports[11] % 32`, column
      `ports[10] % 32`; port 13 turns every pixel off; port 0 queues the core
      identity for the destination. */
  lemma StepOut(rom: Program, s: State)
    requires CanStep(s) && s.e.Some? && s.e.value.op == Alu.Out
    ensures var ins := s.e.value;
      var regs := ExecRegs(s);
      var port := Resolve(regs, None, ins.dest);
      var r := Step(rom, s);
      r.ports == s.ports[port % PortCount := Resolve(regs, None, ins.arg1)] &&
      r.regs == regs &&
      r.w == (if port == ReadbackPort then Some(Payload(CoreId, ins.dest)) else None) &&
      r.e == s.d && r.d == s.f &&
      (port == DrawPort ==> forall y, x :: 0 <= y < ScreenSize && 0 <= x < ScreenSize ==>
         r.screen[y][x] == if y == s.ports[RowPort] % ScreenSize && x == s.ports[ColumnPort] % ScreenSize then 1 else s.screen[y][x]) &&
      (port == ClearPort ==> forall y, x :: 0 <= y < ScreenSize && 0 <= x < ScreenSize ==> r.screen[y][x] == 0) &&
      (port != DrawPort && port != ClearPort ==> r.screen == s.screen)
  {
  }

  /** Port 268 wraps to port 12 for the store, but draws nothing. */
  lemma OutWrapsWithoutEffect(rom: Program, s: State)
    requires CanStep(s) && s.e.Some? && s.e.value.op == Alu.Out
    requires Resolve(ExecRegs(s), None, s.e.value.dest) == 268
    ensures Step(rom, s).ports[DrawPort] == Resolve(ExecRegs(s), None, s.e.value.arg1)
    ensures Step(rom, s).screen == s.screen
  {
    StepOut(rom, s);
  }

  /** The port-0 readback never changes a register: the destination register
      held 0 to select port 0, and the core identity it receives is 0. */
  lemma ReadbackChangesNothing(rom: Program, s: State)
    requires CanStep(s) && s.e.Some? && s.e.value.op == Alu.Out
    requires Resolve(ExecRegs(s), None, s.e.value.dest) == ReadbackPort
    ensures var r := Step(rom, s); Commit(r.regs, r.w) == r.regs
  {
    var r := Step(rom, s);
    StepOut(rom, s);
    if s.e.value.dest.Reg? {
      assert r.regs[s.e.value.dest.index] == 0;
    }
  }

  /** The forwarding branch of `Resolve` is dead inside a tick: W is cleared
      before the operands are read, so an instruction that executes right
      after its producer sees the producer's result because writeback
      committed it first. */
  lemma DependentSeesProducer(rom: Program, s: State)
    requires CanStep(s) && s.e.Some? && WritesBack(s.e.value.op) && s.e.value.dest.Reg?
    ensures var p := s.e.value;
      var regs := ExecRegs(s);
      var v := Alu.Execute(p.op, Resolve(regs, None, p.arg1), Resolve(regs, None, p.arg2));
      Step(rom, s).e == s.d &&
      ExecRegs(Step(rom, s)) == regs[p.dest.index := v]
  {
    StepAluOp(rom, s);
    StepRegisters(rom, s);
  }

  /** An instruction fetched in one tick sits in E two ticks later, and so
      executes in the third tick after its fetch, unless a branch intervenes. */
  lemma ThreeTickLatency(rom: Program, s: State, ins: Instr)
    requires CanStep(s) && Step(rom, s).f == Some(ins)
    requires var s1 := Step(rom, s); CanStep(s1) && (s1.e.None? || !Taken(ExecRegs(s1), s1.e.value))
    requires var s2 := Step(rom, Step(rom, s)); CanStep(s2) && (s2.e.None? || !Taken(ExecRegs(s2), s2.e.value))
    ensures Step(rom, Step(rom, Step(rom, s))).e == Some(ins)
  {
    var s1 := Step(rom, s);
    var s2 := Step(rom, s1);
    StepShiftAndFetch(rom, s1);
    StepShiftAndFetch(rom, s2);
  }

  // ---------------------------------------------------------------------
  // Byte-sized programs keep the machine byte-sized

  predicate IsByte(v: int) { 0 <= v < 256 }

  predicate ByteOperand(x: Operand) { x.Lit? ==> IsByte(x.value) }

  predicate ByteSlot(o: Option<Instr>)
  {
    o.Some? ==> ByteOperand(o.value.dest) && ByteOperand(o.value.arg1) && ByteOperand(o.value.arg2)
  }

  /** Every literal of the program is a byte. */
  predicate ByteProgram(rom: Program)
  {
    forall i :: 0 <= i < |rom| ==> ByteSlot(rom[i])
  }

  /** Registers, ports and the pending value are bytes, pixels are 0 or 1,
      and every in-flight literal is a byte. */
  predicate Bounded(s: State)
  {
    Shaped(s) && s.pc >= 0 &&
    (forall i :: 0 <= i < RegCount ==> IsByte(s.regs[i])) &&
    (forall p :: 0 <= p < PortCount ==> IsByte(s.ports[p])) &&
    (forall y, x :: 0 <= y < ScreenSize && 0 <= x < ScreenSize ==> s.screen[y][x] == 0 || s.screen[y][x] == 1) &&
    ByteSlot(s.f) && ByteSlot(s.d) && ByteSlot(s.e) &&
    (s.w.Some? ==> IsByte(s.w.value.value) && ByteOperand(s.w.value.target))
  }

  lemma ResolveByte(regs: seq<int>, x: Operand)
    requires |regs| == RegCount && forall i :: 0 <= i < RegCount ==> IsByte(regs[i])
    requires ByteOperand(x)
    ensures IsByte(Resolve(regs, None, x))
  {
  }

  /** Committing a byte payload to byte registers leaves them bytes. */
  lemma ExecRegsBytes(s: State)
    requires Bounded(s)
    ensures forall i :: 0 <= i < RegCount ==> IsByte(ExecRegs(s)[i])
  {
    forall i | 0 <= i < RegCount ensures IsByte(ExecRegs(s)[i]) {
      assert ExecRegs(s)[i] == if s.w.Some? && s.w.value.target == Reg(i) then s.w.value.value else s.regs[i];
    }
  }

  /** The ports and the screen stay in range across an OUT. */
  lemma OutKeepsBounded(rom: Program, s: State)
    requires ByteProgram(rom) && Bounded(s) && CanStep(s)
    requires s.e.Some? && s.e.value.op == Alu.Out
    requires IsByte(Resolve(ExecRegs(s), None, s.e.value.arg1))
    ensures Bounded(Step(rom, s))
  {
    StepOut(rom, s);
  }

  /** The queued ALU result is a byte. */
  lemma AluKeepsBounded(rom: Program, s: State)
    requires ByteProgram(rom) && Bounded(s) && CanStep(s)
    requires s.e.Some? && WritesBack(s.e.value.op)
    requires IsByte(Resolve(ExecRegs(s), None, s.e.value.arg1)) && IsByte(Resolve(ExecRegs(s), None, s.e.value.arg2))
    ensures Bounded(Step(rom, s))
  {
    var ins := s.e.value;
    StepAluOp(rom, s);
    Alu.ExecuteByteRange(ins.op, Resolve(ExecRegs(s), None, ins.arg1), Resolve(ExecRegs(s), None, ins.arg2));
  }

  /** With byte literals every register stays a byte, so no tick can shift by
      a negative amount or jump to a negative address: the machine can always
      take another tick. */
  lemma StepKeepsBounded(rom: Program, s: State)
    requires ByteProgram(rom) && Bounded(s)
    ensures CanStep(s) && Bounded(Step(rom, s))
  {
    ExecRegsBytes(s);
    if s.e.Some? {
      var ins := s.e.value;
      var regs := ExecRegs(s);
      ResolveByte(regs, ins.dest);
      ResolveByte(regs, ins.arg1);
      ResolveByte(regs, ins.arg2);
      assert CanStep(s);
      if WritesBack(ins.op) {
        AluKeepsBounded(rom, s);
      } else if ins.op == Alu.Out {
        OutKeepsBounded(rom, s);
      } else if Taken(regs, ins) {
        StepBranch(rom, s);
      } else {
        StepShiftAndFetch(rom, s);
      }
    } else {
      StepShiftAndFetch(rom, s);
    }
  }

  /** `n` ticks, or `None` if one of them is not defined (the source would
      raise or index its program from the end). */
  function Run(rom: Program, s: State, n: nat): Option<State>
    decreases n
  {
    if n == 0 then Some(s)
    else if CanStep(s) then Run(rom, Step(rom, s), n - 1)
    else None
  }

  /** A byte-sized program never gets stuck and keeps the machine
      byte-sized, however long it runs. */
  lemma {:induction false} RunBounded(rom: Program, s: State, n: nat)
    requires ByteProgram(rom) && Bounded(s)
    ensures Run(rom, s, n).Some? && Bounded(Run(rom, s, n).value)
    decreases n
  {
    if n > 0 {
      StepKeepsBounded(rom, s);
      RunBounded(rom, Step(rom, s), n - 1);
    }
  }

  /** Running `m` ticks and then `n` more is running `m + n` ticks. */
  lemma {:induction false} RunSplit(rom: Program, s: State, m: nat, n: nat)
    ensures Run(rom, s, m + n) == if Run(rom, s, m).Some? then Run(rom, Run(rom, s, m).value, n) else None
    decreases m
  {
    if m > 0 && CanStep(s) {
      RunSplit(rom, Step(rom, s), m - 1, n);
    }
  }
}
