/** The flat 64 KiB memory the processor reads and writes. */
module Mem {
  import opened Types

  /** Number of cells: one per 16-bit address. */
  const MAX_MEMORY: nat := 0x10000

  /** A snapshot of the memory contents, used by the specifications. */
  type Bytes = m: seq<u8> | |m| == MAX_MEMORY witness seq(MAX_MEMORY, _ => 0)

  /** The contents after one byte is written: the written cell holds the new
      value and every other cell keeps its old one. */
  function Store(m: Bytes, address: u16, value: u8): (m': Bytes)
    ensures m'[address] == value
    ensures forall a: u16 :: a != address ==> m'[a] == m[a]
  {
    m[address := value]
  }

  /** Writing the same value to the same address twice is writing it once. */
  lemma StoreIdempotent(m: Bytes, address: u16, value: u8)
    ensures Store(Store(m, address, value), address, value) == Store(m, address, value)
  {
  }

  /** Writing back the byte a cell already holds changes nothing. */
  lemma StoreUnchanged(m: Bytes, address: u16)
    ensures Store(m, address, m[address]) == m
  {
  }

  class Memory {
    var data: array<u8>

    ghost predicate Valid()
      reads this
    {
      data.Length == MAX_MEMORY
    }

    ghost function Contents(): Bytes
      reads this, data
      requires Valid()
    {
      data[..]
    }

    /** A memory whose cells are not yet initialised. */
    constructor ()
      ensures Valid() && fresh(data)
    {
      data := new u8[MAX_MEMORY];
    }

    /** Clears the whole store (the effect of the memset in mem_init). */
    method Init()
      requires Valid()
      modifies data
      ensures Valid()
      ensures Contents() == seq(MAX_MEMORY, _ => 0)
      ensures forall a: u16 :: Read(a) == 0
    {
      forall i | 0 <= i < data.Length {
        data[i] := 0;
      }
    }

    /** The byte at an address. Total: every 16-bit address is a cell. */
    function Read(address: u16): (value: u8)
      reads this, data
      requires Valid()
      ensures value == Contents()[address]
    {
      data[address]
    }

    /** Stores one byte. */
    method Write(address: u16, value: u8)
      requires Valid()
      modifies data
      ensures Valid()
      ensures Contents() == Store(old(Contents()), address, value)
      ensures Read(address) == value
      ensures forall a: u16 :: a != address ==> Read(a) == old(Read(a))
    {
      data[address] := value;
    }
  }
}
