/** The header on the wire: where each field lies, what the checksum sums of it, and which changes of it are noticed. */
module Wire {
  import opened Types
  import opened Checksum

  // Layout

  /** Every byte of the header, at the offset the packed structure gives it. */
  lemma HeaderLayout(h: Header)
    ensures var r := HeaderBytes(h);
      && r[0] == h.sPort / 0x100 && r[1] == h.sPort % 0x100
      && r[2] == h.dPort / 0x100 && r[3] == h.dPort % 0x100
      && r[4] == h.seqNum / 0x100_0000 && r[5] == h.seqNum / 0x1_0000 % 0x100
      && r[6] == h.seqNum / 0x100 % 0x100 && r[7] == h.seqNum % 0x100
      && r[8] == h.ackNum / 0x100_0000 && r[9] == h.ackNum / 0x1_0000 % 0x100
      && r[10] == h.ackNum / 0x100 % 0x100 && r[11] == h.ackNum % 0x100
      && r[12] == h.dataOffset && r[13] == h.flags
      && r[14] == h.window / 0x100 && r[15] == h.window % 0x100
      && r[16] == h.checksum % 0x100 && r[17] == h.checksum / 0x100
      && r[18] == h.urgentPtr % 0x100 && r[19] == h.urgentPtr / 0x100
  {
    FourBytesOf(h.seqNum);
    FourBytesOf(h.ackNum);
    hide BigEndian32;
  }

  lemma FourBytesOf(x: u32)
    ensures var r := BigEndian32(x);
      && r[0] == x / 0x100_0000 && r[1] == x / 0x1_0000 % 0x100
      && r[2] == x / 0x100 % 0x100 && r[3] == x % 0x100
  {
    var high, low := x / 0x1_0000, x % 0x1_0000;
    assert high / 0x100 == x / 0x100_0000;
    assert x / 0x100 == high * 0x100 + low / 0x100;
  }

  /** The bytes determine the header. */
  lemma HeaderInjective(g: Header, h: Header)
    requires HeaderBytes(g) == HeaderBytes(h)
    ensures g == h
  {
    HeaderLayout(g);
    HeaderLayout(h);
    SameNumber(g.seqNum, h.seqNum);
    SameNumber(g.ackNum, h.ackNum);
    hide HeaderBytes;
  }

  lemma SameNumber(x: u32, y: u32)
    ensures
      && x / 0x100_0000 == y / 0x100_0000 && x / 0x1_0000 % 0x100 == y / 0x1_0000 % 0x100
      && x / 0x100 % 0x100 == y / 0x100 % 0x100 && x % 0x100 == y % 0x100
      ==> x == y
  {
    FromBytes(x);
    FromBytes(y);
  }

  lemma FromBytes(x: u32)
    ensures x == ((x / 0x100_0000 * 0x100 + x / 0x1_0000 % 0x100) * 0x100 + x / 0x100 % 0x100) * 0x100 + x % 0x100
  {
    var y := x / 0x100;
    assert y / 0x100 == x / 0x1_0000 && y / 0x1_0000 == x / 0x100_0000;
  }

  // What is summed

  /** The fields of a header, weighted: a byte that a little-endian host reads as the high one counts 256 times. */
  function Weight(h: Header): nat {
    0x100 * (h.sPort + h.dPort + h.seqNum + h.ackNum + h.window) + h.dataOffset + 0x100 * h.flags as int
    + h.checksum + h.urgentPtr
  }

  lemma Sum16(x: u16) returns (q: nat)
    ensures 0x100 * x == SumWords(BigEndian16(x)) + q * 0xFFFF
  {
    q := x / 0x100;
    assert SumWords(BigEndian16(x)) == Word(x / 0x100, x % 0x100);
  }

  lemma Sum32(x: u32) returns (q: nat)
    ensures 0x100 * x == SumWords(BigEndian32(x)) + q * 0xFFFF
  {
    var high, low := x / 0x1_0000, x % 0x1_0000;
    var a := Sum16(high);
    var b := Sum16(low);
    SumConcat(BigEndian16(high), BigEndian16(low));
    q := a + b + 0x100 * high;
  }

  /** Modulo 65535 the sum of the header is its weight: every field counts, each with its own bytes. */
  lemma HeaderSum(h: Header) returns (q: nat)
    ensures Weight(h) == SumWords(HeaderBytes(h)) + q * 0xFFFF
  {
    var a := Sum16(h.sPort);
    var b := Sum16(h.dPort);
    var c := Sum32(h.seqNum);
    var d := Sum32(h.ackNum);
    var e := Sum16(h.window);
    q := a + b + c + d + e;
    HeaderParts(h);
    assert SumWords(LittleEndian16(h.checksum)) == h.checksum;
    assert SumWords(LittleEndian16(h.urgentPtr)) == h.urgentPtr;
    assert SumWords([h.dataOffset, h.flags]) == h.dataOffset + 0x100 * h.flags as int;
    hide SumWords, BigEndian16, BigEndian32;
  }

  lemma HeaderParts(h: Header)
    ensures SumWords(HeaderBytes(h)) ==
      SumWords(BigEndian16(h.sPort)) + SumWords(BigEndian16(h.dPort)) + SumWords(BigEndian32(h.seqNum))
      + SumWords(BigEndian32(h.ackNum)) + SumWords([h.dataOffset, h.flags]) + SumWords(BigEndian16(h.window))
      + SumWords(LittleEndian16(h.checksum)) + SumWords(LittleEndian16(h.urgentPtr))
  {
    hide SumWords, BigEndian16, BigEndian32, LittleEndian16;
    var a, b := BigEndian16(h.sPort), BigEndian16(h.dPort);
    var c, d := BigEndian32(h.seqNum), BigEndian32(h.ackNum);
    var e, f := [h.dataOffset, h.flags], BigEndian16(h.window);
    SumConcat(a, b);
    SumConcat(a + b, c);
    SumConcat(a + b + c, d);
    SumConcat(a + b + c + d, e);
    SumConcat(a + b + c + d + e, f);
    SumConcat(FrontBytes(h), LittleEndian16(h.checksum));
    SumConcat(FrontBytes(h) + LittleEndian16(h.checksum), LittleEndian16(h.urgentPtr));
  }

  // What is noticed

  /** Sums that differ from weights by multiples of 65535. */
  lemma SameResidue(s: int, t: int, w: int, v: int, q: int, r: int)
    requires w == s + q * 0xFFFF && v == t + r * 0xFFFF
    ensures w % 0xFFFF == s % 0xFFFF && v % 0xFFFF == t % 0xFFFF
  {
    ShiftMod(s, q);
    ShiftMod(t, r);
  }

  lemma AddSame(s: int, t: int, p: int)
    requires (s + p) % 0xFFFF == 0
    ensures (t + p) % 0xFFFF == 0 <==> s % 0xFFFF == t % 0xFFFF
  {
    var a, b := s / 0xFFFF, t / 0xFFFF;
    ShiftMod(t % 0xFFFF - s % 0xFFFF, 0);
    assert t + p == (s + p) + (t % 0xFFFF - s % 0xFFFF) + (b - a) * 0xFFFF;
    ShiftMod((s + p) + (t % 0xFFFF - s % 0xFFFF), b - a);
    ShiftMod(t % 0xFFFF - s % 0xFFFF, (s + p) / 0xFFFF);
  }

  lemma AcceptedSum(h: Header, payload: seq<u8>)
    requires 20 + |payload| <= MAX_SUMMED
    ensures var sum := SumWords(HeaderBytes(h)) + SumWords(payload);
      Accepts(h, payload) <==> sum > 0 && sum % 0xFFFF == 0
  {
    hide SumWords, HeaderBytes, Residue;
    NoOverflow(HeaderBytes(h), payload);
    SumConcat(HeaderBytes(h), payload);
    FullResidue(SumWords(HeaderBytes(h)) + SumWords(payload));
  }

  lemma FullResidue(sum: nat)
    ensures Residue(sum) == 0xFFFF <==> sum > 0 && sum % 0xFFFF == 0
  {
  }

  /**
   * An accepted packet whose header is exchanged for any other is still accepted exactly when the two headers weigh the
   * same modulo 65535 (and not everything is zero).
   */
  lemma HeaderDetection(h: Header, g: Header, payload: seq<u8>)
    requires 20 + |payload| <= MAX_SUMMED && Accepts(h, payload)
    ensures Accepts(g, payload) <==>
      Weight(g) % 0xFFFF == Weight(h) % 0xFFFF && SumWords(HeaderBytes(g)) + SumWords(payload) > 0
  {
    hide Accepts, HeaderBytes, SumWords, Weight;
    AcceptedSum(h, payload);
    AcceptedSum(g, payload);
    var q := HeaderSum(h);
    var r := HeaderSum(g);
    SameResidue(SumWords(HeaderBytes(h)), SumWords(HeaderBytes(g)), Weight(h), Weight(g), q, r);
    AddSame(SumWords(HeaderBytes(h)), SumWords(HeaderBytes(g)), SumWords(payload));
  }

  /** 256 and 65535 have no factor in common. */
  lemma ScaledMultiple(d: int)
    ensures 0x100 * d % 0xFFFF == 0 <==> d % 0xFFFF == 0
  {
    if 0x100 * d % 0xFFFF == 0 {
      var k := 0x100 * d / 0xFFFF;
      assert d == 0xFFFF * (0x100 * k - d);
      ShiftMod(0, 0x100 * k - d);
    }
    if d % 0xFFFF == 0 {
      ShiftMod(0, 0x100 * (d / 0xFFFF));
    }
  }

  lemma Congruent(x: int, y: int)
    ensures x % 0xFFFF == y % 0xFFFF <==> (x - y) % 0xFFFF == 0
  {
    ShiftMod(x % 0xFFFF - y % 0xFFFF, x / 0xFFFF - y / 0xFFFF);
  }

  /**
   * One field changed in flight: a sequence or acknowledgment number goes unnoticed exactly when it is congruent modulo
   * 65535, a window exactly when it is congruent, that is, the same or 0 for 65535; flags and data offset never do.
   */
  lemma FieldDetection(h: Header, payload: seq<u8>, x: u32, w: u16, b: u8)
    requires 20 + |payload| <= MAX_SUMMED && Accepts(h, payload) && h.dataOffset > 0
    ensures Accepts(h.(seqNum := x), payload) <==> x % 0xFFFF == h.seqNum % 0xFFFF
    ensures Accepts(h.(ackNum := x), payload) <==> x % 0xFFFF == h.ackNum % 0xFFFF
    ensures Accepts(h.(window := w), payload) <==> w % 0xFFFF == h.window % 0xFFFF
    ensures Accepts(h.(sPort := w), payload) <==> w % 0xFFFF == h.sPort % 0xFFFF
    ensures Accepts(h.(dPort := w), payload) <==> w % 0xFFFF == h.dPort % 0xFFFF
    ensures Accepts(h.(checksum := w), payload) <==> w % 0xFFFF == h.checksum % 0xFFFF
    ensures Accepts(h.(flags := b), payload) <==> b == h.flags
  {
    hide Accepts, SumWords, HeaderBytes;
    NumberChanged(h, h.(seqNum := x), payload, h.seqNum, x, true);
    NumberChanged(h, h.(ackNum := x), payload, h.ackNum, x, true);
    NumberChanged(h, h.(window := w), payload, h.window, w, true);
    NumberChanged(h, h.(sPort := w), payload, h.sPort, w, true);
    NumberChanged(h, h.(dPort := w), payload, h.dPort, w, true);
    NumberChanged(h, h.(checksum := w), payload, h.checksum, w, false);
    FlagsChanged(h, payload, b);
  }

  lemma FlagsChanged(h: Header, payload: seq<u8>, b: u8)
    requires 20 + |payload| <= MAX_SUMMED && Accepts(h, payload) && h.dataOffset > 0
    ensures Accepts(h.(flags := b), payload) <==> b == h.flags
  {
    hide Accepts, SumWords, HeaderBytes;
    NumberChanged(h, h.(flags := b), payload, h.flags, b, true);
  }

  /** A field goes from `x` to `y`; `high` tells whether it counts 256 times. */
  lemma NumberChanged(h: Header, g: Header, payload: seq<u8>, x: int, y: int, high: bool)
    requires 20 + |payload| <= MAX_SUMMED && Accepts(h, payload) && g.dataOffset > 0
    requires Weight(g) - Weight(h) == if high then 0x100 * (y - x) else y - x
    ensures Accepts(g, payload) <==> y % 0xFFFF == x % 0xFFFF
  {
    hide Accepts, SumWords, HeaderBytes, Weight;
    Changed(h, g, payload, y - x, high);
    Congruent(y, x);
  }

  /** A change of the weight by `d`, or by 256 times `d`. */
  lemma Changed(h: Header, g: Header, payload: seq<u8>, d: int, high: bool)
    requires 20 + |payload| <= MAX_SUMMED && Accepts(h, payload) && g.dataOffset > 0
    requires Weight(g) - Weight(h) == if high then 0x100 * d else d
    ensures Accepts(g, payload) <==> d % 0xFFFF == 0
  {
    hide Accepts, SumWords, Weight, HeaderBytes;
    HeaderDetection(h, g, payload);
    NotAllZero(g);
    Congruent(Weight(g), Weight(h));
    ScaledMultiple(d);
  }

  lemma NotAllZero(h: Header)
    requires h.dataOffset > 0
    ensures SumWords(HeaderBytes(h)) > 0
  {
    HeaderParts(h);
    assert SumWords([h.dataOffset, h.flags]) == h.dataOffset + 0x100 * h.flags as int;
    hide SumWords, HeaderBytes;
  }

  // The flag byte

  function Bit(b: bool, weight: nat): nat {
    if b then weight else 0
  }

  /** The flags of a packet as the byte in its header. */
  function FlagByte(f: Flags): u8 {
    Bit(f.fin, 1) + Bit(f.syn, 2) + Bit(f.rst, 4) + Bit(f.psh, 8) + Bit(f.ack, 16) + Bit(f.urg, 32) + Bit(f.ece, 64)
    + Bit(f.cwr, 128)
  }

  /** The header that a session writes for a packet. */
  function WireHeader(p: Packet, sPort: u16, dPort: u16, urgentPtr: u16): Header {
    Header(sPort, dPort, p.seqNum, p.ackNum, 80, FlagByte(p.flags), p.window, 0, urgentPtr)
  }

  lemma FlagBits(f: Flags)
    ensures var b := FlagByte(f);
      && (f.fin <==> BitAt(b, 1)) && (f.syn <==> BitAt(b, 2)) && (f.rst <==> BitAt(b, 4)) && (f.psh <==> BitAt(b, 8))
      && (f.ack <==> BitAt(b, 16)) && (f.urg <==> BitAt(b, 32)) && (f.ece <==> BitAt(b, 64))
      && (f.cwr <==> BitAt(b, 128))
  {
    hide FlagByte, Nibble, BitAt;
    BitScales(f);
    NibbleBits(f.fin, f.syn, f.rst, f.psh);
    NibbleBits(f.ack, f.urg, f.ece, f.cwr);
    SplitNibbles(FlagByte(f), Nibble(f.ack, f.urg, f.ece, f.cwr), Nibble(f.fin, f.syn, f.rst, f.psh));
  }

  /** The bit of weight `w` in `n`. */
  predicate BitAt(n: nat, w: nat)
    requires w > 0
  {
    n / w % 2 == 1
  }

  function Nibble(a: bool, b: bool, c: bool, d: bool): (n: nat)
    ensures n < 16
  {
    Bit(a, 1) + Bit(b, 2) + Bit(c, 4) + Bit(d, 8)
  }

  lemma NibbleBits(a: bool, b: bool, c: bool, d: bool)
    ensures var n := Nibble(a, b, c, d);
      (a <==> BitAt(n, 1)) && (b <==> BitAt(n, 2)) && (c <==> BitAt(n, 4)) && (d <==> BitAt(n, 8))
  {
  }

  lemma BitScales(f: Flags)
    ensures FlagByte(f) == 16 * Nibble(f.ack, f.urg, f.ece, f.cwr) + Nibble(f.fin, f.syn, f.rst, f.psh)
  {
  }

  lemma SplitNibbles(b: nat, high: nat, low: nat)
    requires b == 16 * high + low && low < 16
    ensures BitAt(b, 1) == BitAt(low, 1) && BitAt(b, 2) == BitAt(low, 2)
    ensures BitAt(b, 4) == BitAt(low, 4) && BitAt(b, 8) == BitAt(low, 8)
    ensures BitAt(b, 16) == BitAt(high, 1) && BitAt(b, 32) == BitAt(high, 2)
    ensures BitAt(b, 64) == BitAt(high, 4) && BitAt(b, 128) == BitAt(high, 8)
  {
    LowBit1(b, 8 * high, low);
    LowBit2(b, 4 * high, low);
    LowBit4(b, 2 * high, low);
    LowBit8(b, high, low);
    HighBits(b, high, low);
    hide BitAt;
  }

  lemma LowBit1(b: nat, m: nat, low: nat)
    requires b == 2 * m + low
    ensures BitAt(b, 1) == BitAt(low, 1)
  {
    assert b / 1 == 2 * m + low / 1;
  }

  lemma LowBit2(b: nat, m: nat, low: nat)
    requires b == 4 * m + low
    ensures BitAt(b, 2) == BitAt(low, 2)
  {
    assert b / 2 == 2 * m + low / 2;
  }

  lemma LowBit4(b: nat, m: nat, low: nat)
    requires b == 8 * m + low
    ensures BitAt(b, 4) == BitAt(low, 4)
  {
    assert b / 4 == 2 * m + low / 4;
  }

  lemma LowBit8(b: nat, m: nat, low: nat)
    requires b == 16 * m + low
    ensures BitAt(b, 8) == BitAt(low, 8)
  {
    assert b / 8 == 2 * m + low / 8;
  }

  lemma HighBits(b: nat, high: nat, low: nat)
    requires b == 16 * high + low && low < 16
    ensures BitAt(b, 16) == BitAt(high, 1) && BitAt(b, 32) == BitAt(high, 2)
    ensures BitAt(b, 64) == BitAt(high, 4) && BitAt(b, 128) == BitAt(high, 8)
  {
    assert b / 32 == high / 2 && b / 64 == high / 4 && b / 128 == high / 8;
  }

  /** A packet as it goes out: sealed, accepted as it is, and determined by its bytes. */
  lemma WireRoundTrip(p: Packet, q: Packet, sPort: u16, dPort: u16, urgentPtr: u16)
    requires 20 + |p.payload| <= MAX_SUMMED
    ensures var h := Sealed(WireHeader(p, sPort, dPort, urgentPtr), p.payload);
      && Accepts(h, p.payload)
      && var other := HeaderBytes(Sealed(WireHeader(q, sPort, dPort, urgentPtr), q.payload)) + q.payload;
         HeaderBytes(h) + p.payload == other ==> p == q
  {
    var g, h := WireHeader(p, sPort, dPort, urgentPtr), WireHeader(q, sPort, dPort, urgentPtr);
    var a, b := Sealed(g, p.payload), Sealed(h, q.payload);
    RoundTrip(g, p.payload);
    if HeaderBytes(a) + p.payload == HeaderBytes(b) + q.payload {
      assert HeaderBytes(a) == (HeaderBytes(a) + p.payload)[..20] == HeaderBytes(b);
      assert p.payload == (HeaderBytes(a) + p.payload)[20..] == q.payload;
      HeaderInjective(a, b);
      FlagBits(p.flags);
      FlagBits(q.flags);
      hide FlagByte, BitAt;
    }
  }
}
