/**
 * Fixed-width integers of the emulator, and an optional value.
 *
 * The emulator works on C# `byte` and `ushort` values. They are modelled as
 * subsets of `int`; every C# narrowing cast is written out as a remainder
 * (Dafny's `%` is Euclidean, which is exactly the two's-complement truncation
 * the casts perform, negative operands included).
 */
module Bits {

  /** A value that may be missing: a failed dictionary lookup, a `null` reference. */
  datatype Option<T> = None | Some(value: T)

  /** An unsigned 8-bit value (C# `byte`). */
  type byte = x: int | 0 <= x < 0x100

  /** An unsigned 16-bit value (C# `ushort`). */
  type word = x: int | 0 <= x < 0x1_0000

  /** The C# cast `(byte)x`: keeps the low eight bits. */
  function ToByte(x: int): (r: byte)
    ensures 0 <= x < 0x100 ==> r == x
    ensures (r - x) % 0x100 == 0
  {
    x % 0x100
  }

  /** The C# cast `(ushort)x`: keeps the low sixteen bits. */
  function ToWord(x: int): (r: word)
    ensures 0 <= x < 0x1_0000 ==> r == x
    ensures (r - x) % 0x1_0000 == 0
  {
    x % 0x1_0000
  }

  /** `(hi << 8) | lo`: a little-endian pair of bytes as one word. */
  function MakeWord(hi: byte, lo: byte): (r: word)
    ensures r % 0x100 == lo && r / 0x100 == hi
  {
    hi * 0x100 + lo
  }

  /** The C# cast `(sbyte)b`: the byte read as a two's-complement number. */
  function Signed(b: byte): (r: int)
    ensures -0x80 <= r < 0x80
    ensures ToByte(r) == b
  {
    if b < 0x80 then b else b - 0x100
  }

  /** The value of bit `k` (`1 << k`). */
  function Weight(k: nat): (r: nat)
    requires k < 8
    ensures 1 <= r <= 0x80
  {
    match k
    case 0 => 1
    case 1 => 2
    case 2 => 4
    case 3 => 8
    case 4 => 0x10
    case 5 => 0x20
    case 6 => 0x40
    case _ => 0x80
  }

  /** `(x & (1 << k)) != 0` for a byte `x`. */
  predicate Bit(x: byte, k: nat)
    requires k < 8
  {
    (x / Weight(k)) % 2 == 1
  }

  /** Bitwise `a & b`. */
  function And(a: byte, b: byte): byte
  {
    ((a as bv8) & (b as bv8)) as int
  }

  /** Bitwise `a | b`. */
  function Or(a: byte, b: byte): byte
  {
    ((a as bv8) | (b as bv8)) as int
  }

  /** Bitwise `a ^ b`. */
  function Xor(a: byte, b: byte): byte
  {
    ((a as bv8) ^ (b as bv8)) as int
  }
}
