/**
 * The CLR primitive types the validator knows about, as integer ranges.
 * Dafny integers are unbounded, so each fixed width is a subset type.
 */
module Primitives {

  type int8 = n: int | -0x80 <= n < 0x80                                  // System.SByte
  type uint8 = n: int | 0 <= n < 0x100                                    // System.Byte
  type int16 = n: int | -0x8000 <= n < 0x8000                             // System.Int16
  type uint16 = n: int | 0 <= n < 0x1_0000                                // System.UInt16
  type int32 = n: int | -0x8000_0000 <= n < 0x8000_0000                   // System.Int32
  type uint32 = n: int | 0 <= n < 0x1_0000_0000                           // System.UInt32
  type int64 = n: int | -0x8000_0000_0000_0000 <= n < 0x8000_0000_0000_0000  // System.Int64
  type uint64 = n: int | 0 <= n < 0x1_0000_0000_0000_0000                 // System.UInt64

  /** A System.Double, kept as its IEEE 754 binary64 bit pattern; no arithmetic is done on it. */
  type Double = bv64
}
