/** Machine integers, wire-level records and the constants shared by every component. */
module Types {

  type u8 = x: int | 0 <= x < 0x100
  type u16 = x: int | 0 <= x < 0x1_0000
  type u32 = x: int | 0 <= x < 0x1_0000_0000
  type u64 = x: int | 0 <= x < TWO_64

  const TWO_64: nat := 0x1_0000_0000_0000_0000

  datatype Option<+T> = None | Some(value: T)

  /** The value an unsigned 32-bit register holds after an operation whose exact result is `x`. */
  function Wrap32(x: int): u32 {
    x % 0x1_0000_0000
  }

  lemma WrapAdd(x: int, y: int)
    ensures Wrap32(Wrap32(x) + y) == Wrap32(x + y)
  {
  }

  /** Capacity of the send and of the receive buffer. */
  const CAPACITY: nat := 1024

  /** A packet is given up when its expiry count reaches this number. */
  const MAX_RETRANSMIT_COUNT: nat := 5

  /** Retransmission timeout in milliseconds; the program never changes it. */
  const INITIAL_RTO: nat := 1000

  datatype TcpState =
    | CLOSED
    | LISTEN
    | SYN_SENT
    | SYN_RECEIVED
    | ESTABLISHED
    | FIN_WAIT_1
    | FIN_WAIT_2
    | CLOSE_WAIT
    | LAST_ACK
    | TIME_WAIT

  /** The flag byte, one Boolean per bit. */
  datatype Flags = Flags(fin: bool, syn: bool, rst: bool, psh: bool, ack: bool, urg: bool, ece: bool, cwr: bool)

  const NO_FLAGS: Flags := Flags(false, false, false, false, false, false, false, false)
  const FLAG_FIN: Flags := NO_FLAGS.(fin := true)
  const FLAG_SYN: Flags := NO_FLAGS.(syn := true)
  const FLAG_RST: Flags := NO_FLAGS.(rst := true)
  const FLAG_ACK: Flags := NO_FLAGS.(ack := true)
  const FLAG_SYN_ACK: Flags := FLAG_SYN.(ack := true)
  const FLAG_FIN_ACK: Flags := FLAG_FIN.(ack := true)

  /** The header fields a session reads, in host order, and the payload. */
  datatype Packet = Packet(seqNum: u32, ackNum: u32, flags: Flags, window: u16, payload: seq<u8>)

  /** `2^k`, the shift `1 << k`. */
  function Pow2(k: nat): (r: nat)
    ensures r >= 1
  {
    if k == 0 then 1 else 2 * Pow2(k - 1)
  }

  /** Host-to-network conversion on a little-endian host: the four bytes in reverse order. */
  function Htonl(x: u32): u32 {
    x % 0x100 * 0x100_0000 + x / 0x100 % 0x100 * 0x1_0000 + x / 0x1_0000 % 0x100 * 0x100 + x / 0x100_0000
  }
}
