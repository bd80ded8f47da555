/** A fixed-size store of byte cells with wrap-around addressing. */
module MemoryUnit {

  import Alu

  class Memory {
    var data: array<int>

    /** The cells exist and each holds a byte. */
    ghost predicate Valid()
      reads this, data
    {
      data.Length > 0 && forall i :: 0 <= i < data.Length ==> 0 <= data[i] < 256
    }

    /** A memory of `size` cells, all zero. A size of zero would make every
        access divide by zero in the source, hence the precondition. */
    constructor (size: nat)
      requires size > 0
      ensures Valid() && fresh(data)
      ensures data.Length == size
      ensures forall a: int :: Read(a) == 0
    {
      data := new int[size](_ => 0);
    }

    /** The cell at `addr`, wrapped modulo the size; any integer is an
        address. */
    function Read(addr: int): (v: int)
      reads this, data
      requires Valid()
      ensures 0 <= v < 256
    {
      data[addr % data.Length]
    }

    /** Stores the low byte of `val` at `addr`, wrapped modulo the size. */
    method Write(addr: int, val: int)
      requires Valid()
      modifies data
      ensures Valid()
      ensures Read(addr) == Alu.LowByte(val)
      ensures forall b: int :: b % data.Length != addr % data.Length ==> Read(b) == old(Read(b))
    {
      data[addr % data.Length] := Alu.LowByte(val);
    }

    /** Addresses that differ by a multiple of the size name the same cell;
        in particular `Read(a) == Read(a + size)`. */
    lemma ReadWraps(addr: int, k: int)
      requires Valid()
      ensures Read(addr + k * data.Length) == Read(addr)
    {
      ModPeriodic(addr, k, data.Length);
    }
  }

  lemma {:induction false} ModPeriodic(x: int, k: int, n: int)
    requires n > 0
    ensures (x + k * n) % n == x % n
  {
    var q, r := x / n, x % n;
    assert x + k * n == (q + k) * n + r;
    ModUnique(x + k * n, n, q + k, r);
  }

  /** Euclidean division is unique: a remainder in `[0, n)` determines it. */
  lemma ModUnique(y: int, n: int, q: int, r: int)
    requires n > 0 && 0 <= r < n && y == q * n + r
    ensures y % n == r
  {
    var q', r' := y / n, y % n;
    assert y == q' * n + r';
    assert (q - q') * n == r' - r by {
      assert (q - q') * n == q * n - q' * n;
    }
    if q > q' {
      MulGrows(q - q', n);
    } else if q < q' {
      MulGrows(q' - q, n);
    }
  }

  lemma {:induction false} MulGrows(d: int, n: int)
    requires d >= 1 && n > 0
    ensures d * n >= n
    decreases d
  {
    if d > 1 {
      MulGrows(d - 1, n);
      assert d * n == (d - 1) * n + n;
    }
  }
}
