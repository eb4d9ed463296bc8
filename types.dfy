/** The emulator's fixed-width unsigned integers. Bytes are 8-bit
    bit-vectors: their arithmetic wraps like C's uint8_t and the status flags
    are picked out of them with bitwise masks. Addresses and the cycle counter
    are integers bounded to their width; every operation that moves an address
    wraps it explicitly modulo 2^16. */
module Types {
  /** One byte: a register, the status byte or a memory cell. */
  type u8 = bv8

  /** Two bytes: an address or the program counter. */
  type u16 = x: int | 0 <= x < 0x10000

  /** The cycle counter. */
  type u64 = x: int | 0 <= x < 0x1_0000_0000_0000_0000
}
