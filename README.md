# Nexus OS virtual processor, in Dafny

This project models the small virtual machine inside the Aethel/Nexus OS desktop
(`aethel_os_nexus.py`). It also models the line buffer of the CodePad editor.

- **Memory** (`memory.dfy`, module `MemoryUnit`): a fixed-size array of byte
  cells. Addresses wrap modulo the size, and stored values are masked to 8 bits.
- **ALU** (`alu.dfy`, module `Alu`): a pure, total map from an opcode and two
  integers to a result. ADD, SUB, MUL and BSL are masked to 8 bits. AND, OR and
  XOR are Python's unbounded two's-complement bitwise operators, defined bit by
  bit. Every other opcode gives 0.
- **Pipeline** (`pipeline.dfy`, module `Pipeline`): the per-tick semantics as
  pure functions on a snapshot `State`. The snapshot holds 8 registers, the PC,
  a 256-entry port bank, a 32×32 framebuffer and the slots F, D, E and W. One
  `Step` is writeback, then execute (clear W, then OUT / JMP / BEQ / ALU), then
  the slot move E := D, D := F, then fetch.
- **ModularCpu** (`cpu.dfy`, module `Cpu`): the processor object. Its fields are
  updated in place by `Tick`, which is proved to equal `Pipeline.Step`.
- **Scenarios** (`scenarios.dfy`): whole-run facts. A program that stops
  fetching, has only byte literals and has no JMP or BEQ in flight drains
  within four ticks and then halts. Two short programs are traced tick by
  tick.
- **Editor** (`editor.dfy`): the CodePad buffer, a list of lines plus a cursor
  `(cx, cy)`. `Edit` is the pure key-press function. The class `CodeEditor`
  performs the same edit in place.

Operands are a tagged variant `Reg(i)` (with `0 <= i < 8`) or `Lit(n)`. The
source's `"R3"` strings become `Reg(3)`. An absent (`None`) operand reads as 0
and is never a register target, so it behaves exactly like `Lit(0)`. Opcode
strings become the enumeration `Alu.Opcode`, and `Other` stands for every
unknown tag.

Notes on the source's behaviour:

- The forwarding branch of `resolve` never fires inside a tick. W is cleared
  before the Execute operands are resolved. A dependent instruction that
  executes right after its producer still sees the new value, because
  writeback committed it earlier in the same tick (`DependentSeesProducer`).
  `ForwardingMatchesCommit` shows that forwarding would return the same value
  anyway.
- For `ADD R0,5,0` followed by `ADD R1,R0,1`, R1 becomes 6 after six ticks
  (`DependentAddsTrace`).
- The port bank is a plain 256-entry list, not a `Memory`. OUT writes the
  unmasked value into it.
- AND, OR and XOR are guaranteed to stay in 0..255 when both inputs do
  (`BitwiseBounded`). Registers can leave that range when a program uses
  literals outside it.

## Model

| member | source | states |
|---|---|---|
| `Alu.Execute` | aethel_os_nexus.py:40-49 | ADD/SUB/MUL/BSL results lie in 0..255; any opcode outside the seven ALU ones gives 0 |
| `Alu.BitwiseBits` | aethel_os_nexus.py:45-47 | bit k of AND/OR/XOR is the truth table applied to bit k of both operands, for all integers including negatives |
| `Alu.BitwiseBounded` | aethel_os_nexus.py:45-47 | AND/OR/XOR of two values in [0, 2^n) stays in [0, 2^n) |
| `Alu.ExecuteByteRange` | aethel_os_nexus.py:41-49 | every ALU result is a byte when both operands are bytes |
| `Alu.SubUndoesAdd` | aethel_os_nexus.py:42-43 | SUB undoes ADD and ADD undoes SUB, modulo 256 |
| `Alu.ShiftOutOfByte` | aethel_os_nexus.py:48 | BSL by 8 or more bits gives 0 |
| `Alu.Examples` | aethel_os_nexus.py:42-49 | SUB(0,1)=255, MUL(200,200)=64, BSL(3,7)=128, unknown opcode gives 0 |
| `MemoryUnit.Memory.constructor` | aethel_os_nexus.py:35-36 | a new memory of the given size reads 0 at every address |
| `MemoryUnit.Memory.Read` | aethel_os_nexus.py:37 | a read at any integer address returns a byte |
| `MemoryUnit.Memory.Write` | aethel_os_nexus.py:38 | after write(a, v), read(a) is v mod 256 and every other cell reads as before |
| `MemoryUnit.Memory.ReadWraps` | aethel_os_nexus.py:37 | read(a + k*size) == read(a) for every integer a and k |
| `Pipeline.Init` | aethel_os_nexus.py:52-60 | the constructed machine has the expected shapes and PC 0 |
| `Pipeline.Commit` | aethel_os_nexus.py:72-75 | writeback changes exactly the register the payload targets; a literal target changes nothing |
| `Pipeline.Resolve` | aethel_os_nexus.py:63-68 | a literal resolves to itself; a register resolves to its value after the pending payload is committed |
| `Pipeline.ForwardingMatchesCommit` | aethel_os_nexus.py:63-68 | resolving with a pending payload equals resolving after committing it |
| `Pipeline.Writeback` | aethel_os_nexus.py:71-75 | the writeback stage keeps the machine's shape |
| `Pipeline.Execute` | aethel_os_nexus.py:77-97 | the execute stage keeps the shape, and a defined jump keeps PC non-negative |
| `Pipeline.Advance` | aethel_os_nexus.py:99-101 | the slot move puts old D in E and old F in D, and changes nothing else |
| `Pipeline.Fetch` | aethel_os_nexus.py:103-108 | F is filled exactly when PC advances by one, and then holds rom[old PC]; otherwise F is empty because PC is past the program or at an empty entry |
| `Pipeline.Step` | aethel_os_nexus.py:70-108 | a defined tick keeps the shape and a non-negative PC |
| `Pipeline.StepRegisters` | aethel_os_nexus.py:72-97 | a tick changes registers only by committing the pending payload |
| `Pipeline.StepShiftAndFetch` | aethel_os_nexus.py:99-108 | without a taken branch E := old D and D := old F; F takes rom[pc] and PC advances, or F empties and PC stays |
| `Pipeline.StepBranch` | aethel_os_nexus.py:89-108 | a taken JMP/BEQ sets PC to v2 and flushes: E and D empty, F holds rom[v2] (PC = v2+1) or is empty (PC = v2) |
| `Pipeline.BeqNotTaken` | aethel_os_nexus.py:92-95 | a BEQ that is not taken acts exactly like an empty E slot |
| `Pipeline.StepAluOp` | aethel_os_nexus.py:96-97 | an ALU instruction queues (ALU result, dest) in W and leaves ports and screen alone |
| `Pipeline.UnknownOpWritesZero` | aethel_os_nexus.py:72-97 | an unknown opcode writes 0 into its register destination at the next tick |
| `Pipeline.StepOut` | aethel_os_nexus.py:83-88 | OUT stores v1 at port mod 256; port 12 turns on only the pixel at (ports[11] mod 32, ports[10] mod 32); port 13 blanks the screen; port 0 queues (core id, dest); registers only take the writeback |
| `Pipeline.OutWrapsWithoutEffect` | aethel_os_nexus.py:84-88 | OUT to port 268 writes ports[12] but draws nothing |
| `Pipeline.ReadbackChangesNothing` | aethel_os_nexus.py:84-86 | the port-0 readback never changes a register |
| `Pipeline.DependentSeesProducer` | aethel_os_nexus.py:72-81 | the instruction right after an ALU producer reads the register file with the producer's result committed |
| `Pipeline.ThreeTickLatency` | aethel_os_nexus.py:99-108 | an instruction fetched in tick t is in E after tick t+2, so it executes in tick t+3 unless a branch is taken |
| `Pipeline.StepKeepsBounded` | aethel_os_nexus.py:70-108 | with byte literals, registers, ports and W stay bytes and pixels stay 0/1, and the next tick is always defined |
| `Pipeline.RunBounded` | aethel_os_nexus.py:70-108 | a byte-literal program never gets stuck and stays byte-sized for any number of ticks |
| `Pipeline.RunSplit` | aethel_os_nexus.py:70-108 | m ticks followed by n ticks is m+n ticks |
| `Scenarios.IdleIsFixpoint` | aethel_os_nexus.py:99-108 | an empty pipeline that fetches nothing is a fixed point of a tick |
| `Scenarios.Drains` | aethel_os_nexus.py:99-108 | a stalled byte-literal program with no JMP or BEQ in F, D or E drains in four ticks with PC unmoved, then stays unchanged |
| `Scenarios.DependentAddsTrace` | aethel_os_nexus.py:70-108 | ADD R0,5,0; ADD R1,R0,1 gives R0=5 and R1=0 after 5 ticks, and R1=6 after 6 ticks |
| `Scenarios.DrawOnePixelTrace` | aethel_os_nexus.py:83-88 | OUT 10,5; OUT 11,7; OUT 12,1 leaves exactly pixel [7][5] on after 6 ticks |
| `Cpu.ModularCpu.constructor` | aethel_os_nexus.py:52-61 | a new processor is the initial state over the given program, with a fresh, valid 256-cell RAM |
| `Cpu.ModularCpu.Tick` | aethel_os_nexus.py:70-108 | the in-place tick leaves the fields equal to Step of the old fields |
| `Cpu.ModularCpu.WritebackStage` | aethel_os_nexus.py:71-75 | the in-place writeback equals Writeback |
| `Cpu.ModularCpu.ExecuteStage` | aethel_os_nexus.py:77-97 | the in-place execute equals Execute |
| `Cpu.ModularCpu.MoveStage` | aethel_os_nexus.py:99-101 | the in-place slot move equals Advance |
| `Cpu.ModularCpu.FetchStage` | aethel_os_nexus.py:103-108 | the in-place fetch equals Fetch |
| `Editor.Initial` | aethel_os_nexus.py:262-263 | the starting buffer has the cursor inside it |
| `Editor.Edit` | aethel_os_nexus.py:274-313 | every key press keeps the lines non-empty, 0 <= cy < len(lines) and 0 <= cx <= len(lines[cy]) |
| `Editor.EditAsWritten` | aethel_os_nexus.py:306-313 | as written, only a key that types nothing can break the buffer invariant, and such a key moves the cursor one place right without changing the lines |
| `Editor.EmptyTextOverrunsLine` | aethel_os_nexus.py:306-309 | as written, a key that types nothing at the end of a line pushes cx past the line |
| `Editor.EmptyTextIgnored` | aethel_os_nexus.py:306-313 | the corrected edit agrees with the source on every named key and on every key that types text, and ignores an unnamed key that types nothing |
| `Editor.EnterThenBackspace` | aethel_os_nexus.py:290-305 | Enter then Backspace restores lines, cx and cy exactly |
| `Editor.TypeThenBackspace` | aethel_os_nexus.py:296-309 | typing a printable character then Backspace restores the buffer |
| `Editor.RightLeftInverse` | aethel_os_nexus.py:280-289 | Right then Left returns the cursor except at the buffer's end; Left then Right except at its start |
| `Editor.CodeEditor.constructor` | aethel_os_nexus.py:262-263 | a new editor holds the four starting lines with the cursor at (0, 0) |
| `Editor.CodeEditor.HandleKey` | aethel_os_nexus.py:273-313 | the in-place key handling equals Edit and keeps the cursor inside the buffer |
| `Editor.CodeEditor.NewLine` | aethel_os_nexus.py:290-295 | the in-place Enter equals SplitLine |
| `Editor.CodeEditor.DeleteBack` | aethel_os_nexus.py:296-305 | the in-place Backspace deletes left of the cursor, joins with the line above, or does nothing |
| `Editor.CodeEditor.Type` | aethel_os_nexus.py:306-313 | the in-place typing splices text in at the cursor |

## Findings

| source | as written | input that shows it | evidently intended | confidence | as-written member | corrected member |
|---|---|---|---|---|---|---|
| aethel_os_nexus.py:306-309 | the typing branch is guarded by `event.unicode.isprintable()`, and the empty string counts as printable | a key press that types nothing, such as Shift (`KeyDown(Other, "")`), with the cursor at the end of a line: cx becomes len(line)+1 | a key that types nothing leaves the buffer unchanged | medium, not executed | `Editor.EditAsWritten`, `Editor.EmptyTextOverrunsLine` | `Editor.Edit` |

Once cx is past the end of the line, the next Backspace deletes nothing and only
moves the cursor back. Repeated presses push cx further out. `Editor.Edit` and
`CodeEditor.HandleKey` use the corrected guard, which requires non-empty text.

## Left out

- Rendering, fonts, window management, the desktop loop and event dispatch are
  I/O. The TaskManager, Terminal, Browser and Snake applications are UI glue.
  Snake also depends on `random`.
- Frame timing and load smoothing use the wall clock and floating point.
- `CodeEditorApp.execute_code` and the RUN-button click that triggers it run
  `exec` with redirected output, which is a foreign call. The editor's `output`
  and `blink` fields belong to that path and to drawing.
- The bouncing-pixel demonstration: no program for it exists in the source.
- Pipeline.CanStep: the source raises on a negative BSL shift and indexes the
  program from its end for a negative PC. Both are excluded by precondition.
  `StepKeepsBounded` shows that byte-literal programs never reach them.
- Pipeline.Operand: `Reg` admits only R0..R7. In the source, a register name
  whose number is 8 or more, or not a number, raises. R-1 to R-8 alias R7 to R0
  through Python's negative indexing, and spellings such as "R03" or "R+3" read
  register 3. The model has no register names: it takes the index directly.
- MemoryUnit.Memory.constructor: a size of 0 would divide by zero on every
  access, so the size must be positive.
- Editor.IsPrintable: only ASCII 0x20–0x7E counts as printable. Python's
  Unicode printability for other characters is not modelled.
- Cpu.ModularCpu: `ram` is allocated as in the source, but no instruction
  reads or writes it.
