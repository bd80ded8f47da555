/** The arithmetic/logic unit of the virtual processor: a pure, total map
    from an opcode and two integer operands to a result. */
module Alu {

  /** The instruction set. `Other` stands for every opcode tag outside the
      ten the processor knows. */
  datatype Opcode = Add | Sub | Mul | And | Or | Xor | Bsl | Out | Jmp | Beq | Other

  /** Opcodes whose result is masked to 8 bits. */
  predicate IsMasked(op: Opcode) { op == Add || op == Sub || op == Mul || op == Bsl }

  /** Opcodes computed bit by bit and left unmasked. */
  predicate IsLogic(op: Opcode) { op == And || op == Or || op == Xor }

  predicate IsAluOp(op: Opcode) { IsMasked(op) || IsLogic(op) }

  function Pow2(n: nat): (r: nat)
    ensures r >= 1
  {
    if n == 0 then 1 else 2 * Pow2(n - 1)
  }

  /** `x & 0xFF` on an unbounded two's-complement integer. */
  function LowByte(x: int): (r: int)
    ensures 0 <= r < 256
    ensures 0 <= x < 256 ==> r == x
  {
    x % 256
  }

  function Abs(x: int): nat { if x < 0 then -x else x }

  /** The truth table of a logic opcode on one bit position. */
  function Combine(op: Opcode, x: bool, y: bool): bool
    requires IsLogic(op)
  {
    if op == And then x && y
    else if op == Or then x || y
    else x != y
  }

  /** Bit `k` of `a` in infinite two's complement (negative numbers have
      infinitely many leading ones). */
  function TestBit(a: int, k: nat): bool
    decreases k
  {
    if k == 0 then a % 2 == 1 else TestBit(a / 2, k - 1)
  }

  /** Python's `&`, `|` and `^` on unbounded integers: the lowest bit is
      combined directly, the rest recursively on `a / 2` and `b / 2` (a floor
      division, since the divisor is positive); 0 and -1 are the fixed points
      made of all zeros and all ones. */
  function Bitwise(op: Opcode, a: int, b: int): int
    requires IsLogic(op)
    decreases Abs(a) + Abs(b)
  {
    if (a == 0 || a == -1) && (b == 0 || b == -1) then
      (if Combine(op, a == -1, b == -1) then -1 else 0)
    else
      2 * Bitwise(op, a / 2, b / 2) + (if Combine(op, a % 2 == 1, b % 2 == 1) then 1 else 0)
  }

  /** The ALU. A negative shift count raises in the source, hence the
      precondition on `Bsl`. */
  function Execute(op: Opcode, v1: int, v2: int): (r: int)
    requires op == Bsl ==> v2 >= 0
    ensures IsMasked(op) ==> 0 <= r < 256
    ensures !IsAluOp(op) ==> r == 0
  {
    match op
    case Add => LowByte(v1 + v2)
    case Sub => LowByte(v1 - v2)
    case Mul => LowByte(v1 * v2)
    case And => Bitwise(And, v1, v2)
    case Or => Bitwise(Or, v1, v2)
    case Xor => Bitwise(Xor, v1, v2)
    case Bsl => LowByte(v1 * Pow2(v2))
    case _ => 0
  }

  /** 0 and -1 have every bit clear, respectively set. */
  lemma {:induction false} SignBits(a: int, k: nat)
    requires a == 0 || a == -1
    ensures TestBit(a, k) == (a == -1)
  {
    if k > 0 {
      SignBits(a / 2, k - 1);
    }
  }

  /** The defining property of the logic opcodes: every bit of the result is
      the truth table applied to the same bit of both operands. */
  lemma {:induction false} BitwiseBits(op: Opcode, a: int, b: int, k: nat)
    requires IsLogic(op)
    ensures TestBit(Bitwise(op, a, b), k) == Combine(op, TestBit(a, k), TestBit(b, k))
    decreases Abs(a) + Abs(b)
  {
    var r := Bitwise(op, a, b);
    if (a == 0 || a == -1) && (b == 0 || b == -1) {
      SignBits(a, k);
      SignBits(b, k);
      SignBits(r, k);
    } else if k > 0 {
      assert r / 2 == Bitwise(op, a / 2, b / 2);
      BitwiseBits(op, a / 2, b / 2, k - 1);
    }
  }

  /** Logic opcodes never leave the range `[0, 2^n)` of their operands. */
  lemma {:induction false} BitwiseBounded(op: Opcode, a: int, b: int, n: nat)
    requires IsLogic(op)
    requires 0 <= a < Pow2(n) && 0 <= b < Pow2(n)
    ensures 0 <= Bitwise(op, a, b) < Pow2(n)
    decreases Abs(a) + Abs(b)
  {
    if a == 0 && b == 0 {
    } else {
      assert n > 0;
      BitwiseBounded(op, a / 2, b / 2, n - 1);
    }
  }

  /** Every ALU result is a byte when both operands are bytes. */
  lemma ExecuteByteRange(op: Opcode, v1: int, v2: int)
    requires 0 <= v1 < 256 && 0 <= v2 < 256
    ensures 0 <= Execute(op, v1, v2) < 256
  {
    if IsLogic(op) {
      assert Pow2(8) == 256;
      BitwiseBounded(op, v1, v2, 8);
    }
  }

  /** SUB undoes ADD and ADD undoes SUB, modulo 256. */
  lemma SubUndoesAdd(a: int, b: int)
    ensures Execute(Sub, Execute(Add, a, b), b) == LowByte(a)
    ensures Execute(Add, Execute(Sub, a, b), b) == LowByte(a)
  {
    var q1 := (a + b) / 256;
    assert (a + b) % 256 == a + b - 256 * q1;
    var q2 := (a - b) / 256;
    assert (a - b) % 256 == a - b - 256 * q2;
    ModShift(a, -q1);
    ModShift(a, -q2);
  }

  /** Adding a multiple of 256 does not change the low byte. */
  lemma {:induction false} ModShift(x: int, k: int)
    ensures LowByte(x + 256 * k) == LowByte(x)
    decreases Abs(k)
  {
    if k > 0 {
      ModShift(x, k - 1);
      assert x + 256 * k == (x + 256 * (k - 1)) + 256;
    } else if k < 0 {
      ModShift(x, k + 1);
      assert x + 256 * k == (x + 256 * (k + 1)) - 256;
    }
  }

  /** Shifting by eight or more bits pushes every bit out of the byte. */
  lemma ShiftOutOfByte(v1: int, v2: nat)
    requires v2 >= 8
    ensures Execute(Bsl, v1, v2) == 0
  {
    Pow2Split(v2 - 8, 8);
    assert Pow2(8) == 256;
    var k := v1 * Pow2(v2 - 8);
    assert v1 * Pow2(v2) == 256 * k;
    ModShift(0, k);
  }

  lemma {:induction false} Pow2Split(m: nat, n: nat)
    ensures Pow2(m + n) == Pow2(m) * Pow2(n)
  {
    if n > 0 {
      Pow2Split(m, n - 1);
      assert Pow2(m + n) == 2 * Pow2(m + n - 1);
    }
  }

  /** Worked values: SUB wraps around and MUL overflows modulo 256. */
  lemma Examples()
    ensures Execute(Sub, 0, 1) == 255
    ensures Execute(Mul, 200, 200) == 64
    ensures Execute(Bsl, 3, 7) == 128
    ensures Execute(Other, 17, 4) == 0
  {
    assert Pow2(7) == 128;
  }
}
