/** The Internet checksum of sections 1 and 2 of RFC 1071, summed in 32 bits over little-endian words. */
module Checksum {
  import opened Types

  /** The 20-byte header. `checksum` and `urgentPtr` are kept as the host stores them; the rest is in network order. */
  datatype Header = Header(
    sPort: u16, dPort: u16, seqNum: u32, ackNum: u32, dataOffset: u8, flags: u8,
    window: u16, checksum: u16, urgentPtr: u16)

  function BigEndian16(x: u16): (r: seq<u8>)
    ensures |r| == 2
  {
    [x / 0x100, x % 0x100]
  }

  function BigEndian32(x: u32): (r: seq<u8>)
    ensures |r| == 4
  {
    BigEndian16(x / 0x1_0000) + BigEndian16(x % 0x1_0000)
  }

  function LittleEndian16(x: u16): (r: seq<u8>)
    ensures |r| == 2
  {
    [x % 0x100, x / 0x100]
  }

  function FrontBytes(h: Header): (r: seq<u8>)
    ensures |r| == 16
  {
    BigEndian16(h.sPort) + BigEndian16(h.dPort) + BigEndian32(h.seqNum) + BigEndian32(h.ackNum)
    + [h.dataOffset, h.flags] + BigEndian16(h.window)
  }

  /** The header as it lies in memory. */
  function HeaderBytes(h: Header): (r: seq<u8>)
    ensures |r| == 20
  {
    FrontBytes(h) + LittleEndian16(h.checksum) + LittleEndian16(h.urgentPtr)
  }

  /** The word a little-endian host reads from two bytes. */
  function Word(low: u8, high: u8): u16 {
    low as int + 0x100 * high as int
  }

  /** The exact sum of the little-endian words of `data`; an odd last byte counts as a word of its own. */
  function SumWords(data: seq<u8>): nat {
    if |data| == 0 then 0
    else if |data| == 1 then data[0]
    else Word(data[0], data[1]) + SumWords(data[2..])
  }

  /** One round of the fold loop. */
  function FoldOnce(sum: nat): nat {
    sum % 0x1_0000 + sum / 0x1_0000
  }

  /** The representative in 1..65535 of `sum` modulo 65535; only 0 maps to 0. */
  function Residue(sum: nat): (r: u16) {
    if sum == 0 then 0 else (sum - 1) % 0xFFFF + 1
  }

  /** What `_verify_checksum` accumulates for a header and a payload. */
  function Accumulated(h: Header, payload: seq<u8>): u32 {
    Wrap32(SumWords(HeaderBytes(h)) + SumWords(payload))
  }

  predicate Accepts(h: Header, payload: seq<u8>) {
    Residue(Accumulated(h, payload)) == 0xFFFF
  }

  function Sealed(h: Header, payload: seq<u8>): Header {
    h.(checksum := 0xFFFF - Residue(Accumulated(h.(checksum := 0), payload)))
  }

  /** 65537 words of 65535 still fit 32 bits. */
  const MAX_SUMMED: nat := 131074

  method AddToSum(start: u32, data: seq<u8>) returns (sum: u32)
    ensures sum == Wrap32(start + SumWords(data))
  {
    sum := start;
    var i := 0;
    ghost var done := 0;
    while |data| - i > 1
      invariant 0 <= i <= |data|
      invariant sum == Wrap32(start + done)
      invariant done + SumWords(data[i..]) == SumWords(data)
    {
      assert data[i..][2..] == data[i + 2..];
      var word := Word(data[i], data[i + 1]);
      WrapAdd(start + done, word);
      sum := Wrap32(sum + word);
      i, done := i + 2, done + word;
    }
    if |data| - i > 0 {
      WrapAdd(start + done, data[i]);
      sum := Wrap32(sum + data[i]);
    }
  }

  /** The fold loop runs at most twice and yields the residue. */
  method Fold(start: u32) returns (sum: u32)
    ensures sum == Residue(start) == FoldOnce(FoldOnce(start))
  {
    sum := start;
    while sum / 0x1_0000 != 0
      invariant sum == start || sum == FoldOnce(start) || (sum == FoldOnce(FoldOnce(start)) && sum < 0x1_0000)
      invariant Residue(sum) == Residue(start)
      decreases sum
    {
      FoldKeepsResidue(sum);
      sum := sum % 0x1_0000 + sum / 0x1_0000;
    }
  }

  lemma FoldKeepsResidue(sum: nat)
    requires sum >= 0x1_0000
    ensures Residue(FoldOnce(sum)) == Residue(sum)
    ensures FoldOnce(sum) < sum
  {
    var q := sum / 0x1_0000;
    assert sum - 1 == FoldOnce(sum) - 1 + q * 0xFFFF;
    ShiftMod(FoldOnce(sum) - 1, q);
  }

  lemma ShiftMod(x: int, q: int)
    ensures (x + q * 0xFFFF) % 0xFFFF == x % 0xFFFF
  {
  }

  /** Both `_calculate_checksum` and `_verify_checksum` sum the header, then a payload unless it is empty. */
  method SumBoth(header: seq<u8>, payload: seq<u8>) returns (sum: u32)
    ensures sum == Wrap32(SumWords(header) + SumWords(payload))
  {
    sum := AddToSum(0, header);
    if payload != [] {
      WrapAdd(SumWords(header), SumWords(payload));
      sum := AddToSum(sum, payload);
    }
  }

  method FoldedSum(header: seq<u8>, payload: seq<u8>) returns (sum: u32)
    ensures sum == Residue(Wrap32(SumWords(header) + SumWords(payload)))
  {
    sum := SumBoth(header, payload);
    sum := Fold(sum);
  }

  method CalculateChecksum(h: Header, payload: seq<u8>) returns (sealed: Header)
    ensures sealed == Sealed(h, payload)
  {
    sealed := h.(checksum := 0);
    var sum := FoldedSum(HeaderBytes(sealed), payload);
    sealed := sealed.(checksum := 0xFFFF - sum);
  }

  method VerifyChecksum(h: Header, payload: seq<u8>) returns (ok: bool)
    ensures ok == Accepts(h, payload)
  {
    var sum := FoldedSum(HeaderBytes(h), payload);
    ok := 0xFFFF - sum == 0;
  }

  lemma {:induction false} SumConcat(a: seq<u8>, b: seq<u8>)
    requires |a| % 2 == 0
    ensures SumWords(a + b) == SumWords(a) + SumWords(b)
  {
    if |a| == 0 {
      assert a + b == b;
    } else {
      assert (a + b)[2..] == a[2..] + b;
      SumConcat(a[2..], b);
    }
  }

  lemma {:induction false} SumBounded(data: seq<u8>, words: nat)
    requires |data| <= 2 * words
    ensures SumWords(data) <= 0xFFFF * words
  {
    if |data| <= 1 {
    } else {
      SumBounded(data[2..], words - 1);
    }
  }

  /** The 32-bit accumulator never overflows, and header-then-payload sums the concatenation. */
  lemma NoOverflow(header: seq<u8>, payload: seq<u8>)
    requires |header| % 2 == 0
    requires |header| + |payload| <= MAX_SUMMED
    ensures Wrap32(SumWords(header) + SumWords(payload)) == SumWords(header + payload)
  {
    SumConcat(header, payload);
    SumBounded(header + payload, 65537);
  }

  lemma SumSplit(data: seq<u8>, i: nat)
    requires i % 2 == 0 && i + 1 < |data|
    ensures SumWords(data) == SumWords(data[..i]) + Word(data[i], data[i + 1]) + SumWords(data[i + 2..])
  {
    SumConcat(data[..i], data[i..]);
    assert data[..i] + data[i..] == data;
    assert data[i..][2..] == data[i + 2..];
  }

  /** Only the checksum word tells two headers apart that differ in that field alone. */
  lemma ChecksumWord(h: Header)
    ensures SumWords(HeaderBytes(h)) == SumWords(HeaderBytes(h.(checksum := 0))) + h.checksum
  {
    ChecksumAt16(FrontBytes(h), h.checksum, LittleEndian16(h.urgentPtr));
    ChecksumAt16(FrontBytes(h), 0, LittleEndian16(h.urgentPtr));
    assert FrontBytes(h.(checksum := 0)) == FrontBytes(h);
  }

  lemma ChecksumAt16(front: seq<u8>, checksum: u16, urgent: seq<u8>)
    requires |front| == 16
    ensures SumWords(front + LittleEndian16(checksum) + urgent) == SumWords(front) + checksum + SumWords(urgent)
  {
    var whole := front + LittleEndian16(checksum) + urgent;
    SumSplit(whole, 16);
    assert whole[..16] == front && whole[18..] == urgent;
  }

  lemma ComplementAccepted(sum: nat)
    ensures Residue(sum + (0xFFFF - Residue(sum))) == 0xFFFF
  {
  }

  /** Whatever is sealed is accepted. */
  lemma RoundTrip(h: Header, payload: seq<u8>)
    requires 20 + |payload| <= MAX_SUMMED
    ensures Accepts(Sealed(h, payload), payload)
  {
    var blank, sealed := h.(checksum := 0), Sealed(h, payload);
    var a, b := HeaderBytes(blank), HeaderBytes(sealed);
    NoOverflow(a, payload);
    NoOverflow(b, payload);
    SumConcat(a, payload);
    SumConcat(b, payload);
    ChecksumWord(sealed);
    assert sealed.(checksum := 0) == blank;
    ComplementAccepted(SumWords(a + payload));
  }

  /** `data` with the aligned word at byte `2 * k` replaced. */
  function WithWord(data: seq<u8>, k: nat, w: u16): (r: seq<u8>)
    requires 2 * k + 1 < |data|
    ensures |r| == |data|
  {
    data[2 * k := w % 0x100][2 * k + 1 := w / 0x100]
  }

  function WordAt(data: seq<u8>, k: nat): u16
    requires 2 * k + 1 < |data|
  {
    Word(data[2 * k], data[2 * k + 1])
  }

  lemma WithWordAround(data: seq<u8>, k: nat, w: u16)
    requires 2 * k + 1 < |data|
    ensures WithWord(data, k, w)[..2 * k] == data[..2 * k]
    ensures WithWord(data, k, w)[2 * k + 2..] == data[2 * k + 2..]
    ensures WordAt(WithWord(data, k, w), k) == w
  {
  }

  lemma SumChanged(data: seq<u8>, changed: seq<u8>, i: nat)
    requires i % 2 == 0 && i + 1 < |data| == |changed|
    requires changed[..i] == data[..i] && changed[i + 2..] == data[i + 2..]
    ensures SumWords(changed) == SumWords(data) - Word(data[i], data[i + 1]) + Word(changed[i], changed[i + 1])
  {
    SumSplit(data, i);
    SumSplit(changed, i);
  }

  predicate AcceptsBytes(data: seq<u8>) {
    Residue(SumWords(data)) == 0xFFFF
  }

  /**
   * Changing one aligned word of an accepted packet is noticed exactly when the two words differ modulo
   * 65535 (or nothing but zeros is left).
   */
  lemma Detection(data: seq<u8>, k: nat, w: u16)
    requires 2 * k + 1 < |data|
    requires AcceptsBytes(data)
    ensures AcceptsBytes(WithWord(data, k, w))
      <==> WordAt(data, k) % 0xFFFF == w % 0xFFFF && SumWords(WithWord(data, k, w)) > 0
  {
    WithWordAround(data, k, w);
    SumChanged(data, WithWord(data, k, w), 2 * k);
    Congruence(SumWords(data), WordAt(data, k), w);
  }

  lemma Congruence(sum: nat, a: u16, b: u16)
    requires Residue(sum) == 0xFFFF
    requires sum - a + b >= 0
    ensures Residue(sum - a + b) == 0xFFFF <==> a % 0xFFFF == b % 0xFFFF && sum - a + b > 0
  {
    var q := sum / 0xFFFF;
    assert sum == q * 0xFFFF;
    ShiftMod(b - a, q);
  }

  function Words(data: seq<u8>): seq<u16> {
    if |data| == 0 then []
    else if |data| == 1 then [data[0]]
    else [Word(data[0], data[1])] + Words(data[2..])
  }

  function Total(words: seq<u16>): nat {
    if words == [] then 0 else words[0] + Total(words[1..])
  }

  lemma {:induction false} SumIsTotal(data: seq<u8>)
    ensures SumWords(data) == Total(Words(data))
  {
    if |data| <= 1 {
    } else {
      SumIsTotal(data[2..]);
    }
  }

  lemma {:induction false} TotalWithout(words: seq<u16>, i: nat)
    requires i < |words|
    ensures Total(words) == words[i] + Total(words[..i] + words[i + 1..])
  {
    var rest := words[..i] + words[i + 1..];
    if i == 0 {
      assert rest == words[1..];
    } else {
      TotalWithout(words[1..], i - 1);
      assert rest[1..] == words[1..][..i - 1] + words[1..][i..];
    }
  }

  lemma WithoutSameElement(a: seq<u16>, b: seq<u16>, i: nat)
    requires a != [] && i < |b| && b[i] == a[0]
    requires multiset(a) == multiset(b)
    ensures multiset(a[1..]) == multiset(b[..i] + b[i + 1..])
  {
    assert a == [a[0]] + a[1..];
    assert b == b[..i] + [b[i]] + b[i + 1..];
    assert multiset(a[1..]) == multiset(a) - multiset{a[0]};
  }

  lemma {:induction false} TotalOfPermutation(a: seq<u16>, b: seq<u16>)
    requires multiset(a) == multiset(b)
    ensures Total(a) == Total(b)
    decreases |a|
  {
    if a == [] {
      assert |multiset(b)| == 0;
    } else {
      assert a[0] in multiset(b);
      var i :| 0 <= i < |b| && b[i] == a[0];
      WithoutSameElement(a, b, i);
      TotalOfPermutation(a[1..], b[..i] + b[i + 1..]);
      TotalWithout(b, i);
    }
  }

  /** Rearranging aligned words never changes the verdict. */
  lemma OrderDoesNotMatter(data: seq<u8>, other: seq<u8>)
    requires multiset(Words(data)) == multiset(Words(other))
    ensures AcceptsBytes(data) <==> AcceptsBytes(other)
  {
    SumIsTotal(data);
    SumIsTotal(other);
    TotalOfPermutation(Words(data), Words(other));
  }

  /** The two theorems above speak about `_verify_checksum` itself. */
  lemma VerdictOnBytes(h: Header, payload: seq<u8>)
    requires 20 + |payload| <= MAX_SUMMED
    ensures Accepts(h, payload) <==> AcceptsBytes(HeaderBytes(h) + payload)
  {
    NoOverflow(HeaderBytes(h), payload);
  }
}
