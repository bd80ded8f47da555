/** The processor object: registers, program counter, port bank,
    framebuffer and pipeline slots as fields that `Tick` updates in place. */
module Cpu {

  import opened Wrappers
  import Alu
  import MemoryUnit
  import opened Pipeline

  class ModularCpu {
    const coreId: int
    const rom: Program
    /** Allocated with the processor; no instruction reaches it. */
    const ram: MemoryUnit.Memory
    var regs: seq<int>
    var pc: int
    var ports: seq<int>
    var screen: seq<seq<int>>
    // The pipeline slots F, D, E and the writeback payload W.
    var f: Option<Instr>
    var d: Option<Instr>
    var e: Option<Instr>
    var w: Option<Payload>

    /** The fields as a value of the pure model. */
    function Snapshot(): State
      reads this
    {
      State(regs, pc, ports, screen, f, d, e, w)
    }

    predicate Valid()
      reads this
    {
      Shaped(Snapshot()) && pc >= 0 && coreId == CoreId
    }

    constructor (romData: Program)
      ensures Valid() && rom == romData && fresh(ram)
      ensures ram.Valid() && ram.data.Length == 256
      ensures Snapshot() == Init()
    {
      coreId := 0;
      regs := seq(RegCount, _ => 0);
      pc := 0;
      rom := romData;
      ram := new MemoryUnit.Memory(256);
      ports := seq(PortCount, _ => 0);
      screen := Blank();
      f, d, e, w := None, None, None, None;
    }

    /** One tick: writeback, execute, slot move, fetch, in that order. */
    method Tick()
      requires Valid() && CanStep(Snapshot())
      modifies this
      ensures Valid()
      ensures Snapshot() == Step(rom, old(Snapshot()))
    {
      WritebackStage();
      ExecuteStage();
      MoveStage();
      FetchStage();
    }

    /** Commits W to its register; a literal target drops the value. */
    method WritebackStage()
      requires Valid()
      modifies this
      ensures Valid()
      ensures Snapshot() == Writeback(old(Snapshot()))
    {
      if w.Some? {
        var Payload(val, target) := w.value;
        if target.Reg? {
          regs := regs[target.index := val];
        }
      }
    }

    /** Clears W, then carries out the instruction in E. */
    method ExecuteStage()
      requires Valid() && (e.Some? ==> Defined(regs, e.value))
      modifies this
      ensures Valid()
      ensures Snapshot() == Execute(old(Snapshot()))
    {
      w := None;
      if e.Some? {
        var Instr(op, dest, arg1, arg2) := e.value;
        var v1, v2 := Resolve(regs, w, arg1), Resolve(regs, w, arg2);
        if op == Alu.Out {
          var port := Resolve(regs, w, dest);
          ports := ports[port % PortCount := v1];
          if port == ReadbackPort { w := Some(Payload(coreId, dest)); }
          if port == DrawPort {
            var y, x := ports[RowPort] % ScreenSize, ports[ColumnPort] % ScreenSize;
            screen := screen[y := screen[y][x := 1]];
          }
          if port == ClearPort { screen := Blank(); }
        } else if op == Alu.Jmp {
          pc := v2;
          f, d := None, None;
        } else if op == Alu.Beq {
          if Resolve(regs, w, dest) == v1 {
            pc := v2;
            f, d := None, None;
          }
        } else {
          w := Some(Payload(Alu.Execute(op, v1, v2), dest));
        }
      }
    }

    /** E := D, then D := F. */
    method MoveStage()
      modifies this
      ensures Snapshot() == Advance(old(Snapshot()))
    {
      e := d;
      d := f;
    }

    /** Loads the instruction at PC into F and advances PC, or empties F. */
    method FetchStage()
      requires pc >= 0
      modifies this
      ensures Snapshot() == Fetch(rom, old(Snapshot()))
    {
      if pc < |rom| && rom[pc].Some? {
        f := rom[pc];
        pc := pc + 1;
      } else {
        f := None;
      }
    }
  }
}
