/** The cycle trace (`report_cycle`'s `cycles` list): one packed word per
    recorded bus transaction, `(type << 24) | (addr << 8) | data`. */
module Trace {

  /** Transaction tags, as `UsBus` numbers them. */
  const LOCKED_WRITE: bv8 := 2
  const LOCKED_READ: bv8 := 3
  const VECTOR_READ: bv8 := 5
  const NORMAL_WRITE: bv8 := 6
  const NORMAL_READ: bv8 := 7
  const OPCODE_READ: bv8 := 15

  /** The trace quota `show_cycles` turns on. */
  const SHOW_CYCLES_QUOTA := 1000

  function Event(kind: bv8, addr: bv16, data: bv8): bv32
  {
    ((kind as bv32) << 24) | ((addr as bv32) << 8) | (data as bv32)
  }

  /** For every tag the bus uses, an event fits in 28 bits (seven hex digits,
      as the report prints it) and each field can be read back. */
  lemma EventFields(kind: bv8, addr: bv16, data: bv8)
    requires kind < 0x10
    ensures Event(kind, addr, data) < 0x1000_0000
    ensures (Event(kind, addr, data) >> 24) as bv8 == kind
    ensures ((Event(kind, addr, data) >> 8) & 0xFFFF) as bv16 == addr
    ensures (Event(kind, addr, data) & 0xFF) as bv8 == data
  {
  }

  /** Events are equal only when all three fields are: the trace loses nothing. */
  lemma EventInjective(k1: bv8, a1: bv16, d1: bv8, k2: bv8, a2: bv16, d2: bv8)
    requires k1 < 0x10 && k2 < 0x10
    requires Event(k1, a1, d1) == Event(k2, a2, d2)
    ensures k1 == k2 && a1 == a2 && d1 == d2
  {
    EventFields(k1, a1, d1);
    EventFields(k2, a2, d2);
  }
}
