/** Whole-run behaviour of the processor: draining a program that has run
    off its end, and two small programs traced tick by tick. */
module Scenarios {

  import opened Wrappers
  import Alu
  import opened Pipeline

  lemma InitBounded()
    ensures Bounded(Init())
  {
  }

  /** Nothing in flight and nothing pending. */
  predicate Idle(s: State)
  {
    s.f.None? && s.d.None? && s.e.None? && s.w.None?
  }

  /** The fetch finds nothing at PC. */
  predicate Stalled(rom: Program, s: State)
  {
    s.pc >= |rom| || (s.pc >= 0 && rom[s.pc].None?)
  }

  predicate NoBranch(o: Option<Instr>)
  {
    o.None? || (o.value.op != Alu.Jmp && o.value.op != Alu.Beq)
  }

  /** A stalled, idle machine is at a fixed point of `Step`: the program has
      halted. */
  lemma IdleIsFixpoint(rom: Program, s: State)
    requires CanStep(s) && Idle(s) && Stalled(rom, s)
    ensures Step(rom, s) == s
  {
  }

  /** A stalled program with no branch in flight drains: after four ticks
      nothing is in flight or pending, PC has not moved, and the machine no
      longer changes. */
  lemma {:induction false} Drains(rom: Program, s: State)
    requires ByteProgram(rom) && Bounded(s) && Stalled(rom, s)
    requires NoBranch(s.f) && NoBranch(s.d) && NoBranch(s.e)
    ensures Run(rom, s, 4).Some?
    ensures var r := Run(rom, s, 4).value; Idle(r) && r.pc == s.pc && CanStep(r) && Step(rom, r) == r
  {
    var s1 := DrainStep(rom, s);
    var s2 := DrainStep(rom, s1);
    var s3 := DrainStep(rom, s2);
    var s4 := DrainStep(rom, s3);
    assert Run(rom, s, 4) == Some(s4) by {
      assert Run(rom, s3, 1) == Some(s4);
      assert Run(rom, s2, 2) == Some(s4);
      assert Run(rom, s1, 3) == Some(s4);
    }
    IdleIsFixpoint(rom, s4);
  }

  /** One tick of a stalled, branch-free machine: the slots move up, F stays
      empty and PC stays put. */
  lemma DrainStep(rom: Program, s: State) returns (r: State)
    requires ByteProgram(rom) && Bounded(s) && Stalled(rom, s)
    requires NoBranch(s.f) && NoBranch(s.d) && NoBranch(s.e)
    ensures r == Step(rom, s) && CanStep(s) && Bounded(r) && Stalled(rom, r)
    ensures r.pc == s.pc && r.f == None && r.d == s.f && r.e == s.d
    ensures s.e.None? ==> r.w.None?
  {
    StepKeepsBounded(rom, s);
    StepShiftAndFetch(rom, s);
    r := Step(rom, s);
  }

  /** `ADD R0, 5, 0` followed by the dependent `ADD R1, R0, 1`. */
  function DependentAdds(): Program
  {
    [Some(Instr(Alu.Add, Reg(0), Lit(5), Lit(0))),
     Some(Instr(Alu.Add, Reg(1), Reg(0), Lit(1)))]
  }

  /** After three ticks the first ADD is in E, the second in D, and F is
      empty because the program has ended. */
  lemma DependentAddsFilled() returns (s3: State)
    ensures Run(DependentAdds(), Init(), 3) == Some(s3)
    ensures CanStep(s3) && s3.pc == 2 && s3.w == None && s3.regs == Init().regs
    ensures s3.e == DependentAdds()[0] && s3.d == DependentAdds()[1] && s3.f == None
  {
    var rom := DependentAdds();
    var s0 := Init();
    var s1 := Step(rom, s0);
    var s2 := Step(rom, s1);
    s3 := Step(rom, s2);
    assert Run(rom, s0, 3) == Some(s3) by {
      assert Run(rom, s2, 1) == Some(s3);
      assert Run(rom, s1, 2) == Some(s3);
    }
  }

  /** The first ADD executes in tick 4 and commits R0 = 5 in tick 5, the same
      tick in which the second ADD executes and reads that committed value;
      R1 = 6 lands in tick 6. */
  lemma DependentAddsTrace()
    ensures Run(DependentAdds(), Init(), 5).Some? && Run(DependentAdds(), Init(), 6).Some?
    ensures Run(DependentAdds(), Init(), 5).value.regs[0] == 5
    ensures Run(DependentAdds(), Init(), 5).value.regs[1] == 0
    ensures Run(DependentAdds(), Init(), 6).value.regs[1] == 6
  {
    var rom := DependentAdds();
    var s3 := DependentAddsFilled();
    StepAluOp(rom, s3);
    var s4 := Step(rom, s3);
    assert s4.w == Some(Payload(5, Reg(0))) && s4.e == rom[1] && s4.regs == s3.regs;
    StepAluOp(rom, s4);
    var s5 := Step(rom, s4);
    assert s5.regs[0] == 5 && s5.regs[1] == 0 && s5.w == Some(Payload(6, Reg(1)));
    var s6 := Step(rom, s5);
    assert s6.regs[1] == 6;
    RunSplit(rom, Init(), 3, 2);
    RunSplit(rom, Init(), 3, 3);
    assert Run(rom, s3, 2) == Some(s5) by {
      assert Run(rom, s4, 1) == Some(s5);
    }
    assert Run(rom, s3, 3) == Some(s6) by {
      assert Run(rom, s5, 1) == Some(s6);
      assert Run(rom, s4, 2) == Some(s6);
    }
  }

  /** Column 5 to port 10, row 7 to port 11, then a store to port 12. */
  function DrawOnePixel(): Program
  {
    [Some(Instr(Alu.Out, Lit(ColumnPort), Lit(5), Lit(0))),
     Some(Instr(Alu.Out, Lit(RowPort), Lit(7), Lit(0))),
     Some(Instr(Alu.Out, Lit(DrawPort), Lit(1), Lit(0)))]
  }

  /** After three ticks the three OUTs fill E, D and F and nothing has
      executed yet. */
  lemma DrawOnePixelFilled() returns (s3: State)
    ensures Run(DrawOnePixel(), Init(), 3) == Some(s3)
    ensures CanStep(s3) && s3.screen == Blank() && s3.pc == 3
    ensures s3.e == DrawOnePixel()[0] && s3.d == DrawOnePixel()[1] && s3.f == DrawOnePixel()[2]
  {
    var rom := DrawOnePixel();
    var s0 := Init();
    var s1 := Step(rom, s0);
    var s2 := Step(rom, s1);
    s3 := Step(rom, s2);
    assert Run(rom, s0, 3) == Some(s3) by {
      assert Run(rom, s2, 1) == Some(s3);
      assert Run(rom, s1, 2) == Some(s3);
    }
  }

  /** Two ticks later the column and row ports are set, the screen is still
      blank and the drawing OUT is in E. */
  lemma DrawOnePixelReady(s3: State) returns (s5: State)
    requires CanStep(s3) && s3.screen == Blank()
    requires s3.e == DrawOnePixel()[0] && s3.d == DrawOnePixel()[1] && s3.f == DrawOnePixel()[2]
    ensures Run(DrawOnePixel(), s3, 2) == Some(s5)
    ensures CanStep(s5) && s5.screen == Blank() && s5.e == DrawOnePixel()[2]
    ensures s5.ports[ColumnPort] == 5 && s5.ports[RowPort] == 7
  {
    var rom := DrawOnePixel();
    StepOut(rom, s3);
    var s4 := Step(rom, s3);
    assert s4.ports[ColumnPort] == 5 && s4.screen == Blank() && s4.e == rom[1];
    StepOut(rom, s4);
    s5 := Step(rom, s4);
    assert Run(rom, s4, 1) == Some(s5);
  }

  /** After six ticks the third OUT has executed and exactly the pixel at
      row 7, column 5 is on. */
  lemma DrawOnePixelTrace()
    ensures Run(DrawOnePixel(), Init(), 6).Some?
    ensures var r := Run(DrawOnePixel(), Init(), 6).value;
      forall y, x :: 0 <= y < ScreenSize && 0 <= x < ScreenSize ==>
        r.screen[y][x] == if y == 7 && x == 5 then 1 else 0
  {
    var rom := DrawOnePixel();
    var s3 := DrawOnePixelFilled();
    var s5 := DrawOnePixelReady(s3);
    StepOut(rom, s5);
    RunSplit(rom, Init(), 3, 3);
    RunSplit(rom, s3, 2, 1);
    assert Run(rom, s5, 1) == Some(Step(rom, s5));
  }
}
