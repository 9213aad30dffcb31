/**
 * Shared definitions of the EtherCAT master: fixed-width integers, the
 * process-data direction and the frame-size limit. The constants live in
 * master/globals.h, which is not part of this model; their values follow
 * the EtherCAT frame layout (Ethernet payload 1500 bytes, frame header 2,
 * datagram header 10, datagram footer 2).
 */
module Globals {

  /** unsigned 16-bit value (working counters) */
  type U16 = x: nat | x < 0x1_0000

  /** unsigned 32-bit value (logical addresses, unsigned int counters) */
  type U32 = x: nat | x < 0x1_0000_0000

  /** unsigned 64-bit value (unsigned long: jiffies on a 64-bit kernel) */
  type U64 = x: nat | x < 0x1_0000_0000_0000_0000

  /** A value or nothing (a pointer that may be NULL). */
  datatype Option<T> = None | Some(value: T)

  /** byte of process data */
  type Byte = bv8

  /** Largest payload of one datagram (EC_MAX_DATA_SIZE). */
  const MaxDataSize: nat := 1486

  /** Kernel error number returned (negated) when an allocation fails. */
  const ENOMEM: nat := 12

  /** Truncation of an unbounded integer to 16 bits, as C's uint16_t arithmetic does. */
  function WrapU16(x: int): (r: U16)
    ensures 0 <= x < 0x1_0000 ==> r == x
  {
    x % 0x1_0000
  }

  /** Truncation of an unbounded integer to 32 bits, as C's uint32_t arithmetic does. */
  function WrapU32(x: int): (r: U32)
    ensures 0 <= x < 0x1_0000_0000 ==> r == x
  {
    x % 0x1_0000_0000
  }

  /** Truncation of an unbounded integer to 64 bits, as unsigned long arithmetic does. */
  function WrapU64(x: int): (r: U64)
    ensures 0 <= x < 0x1_0000_0000_0000_0000 ==> r == x
  {
    x % 0x1_0000_0000_0000_0000
  }

  /** Direction of process data, seen from the master (ec_direction_t). */
  datatype Direction = Output | Input

  /** Application-layer state bits of a slave (ec_slave_state_t). */
  const SlaveStateInit: bv8 := 0x01
  const SlaveStateAckErr: bv8 := 0x10
}
