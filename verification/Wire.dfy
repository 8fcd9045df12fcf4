/** The packet format of hairgap: a 24-byte big-endian header, the reserved
    chunk numbers that mark control packets, parsing and classification. */
module Wire {
  import opened Arithmetic

  type byte = b: int | 0 <= b < 256
  type bytes = seq<byte>
  type u32 = n: nat | n < 0x1_0000_0000
  type u64 = n: nat | n < 0x1_0000_0000_0000_0000

  const HEADER_LEN: nat := 24
  const NO_MORE_CHUNK: u64 := 0xffff_ffff_ffff_ffff
  const BEGIN_BEACON: u64 := 0xffff_ffff_ffff_fffe
  const KEEP_ALIVE: u64 := 0xffff_ffff_ffff_fffd
  const FIRST_RESERVED: u64 := 0xffff_ffff_ffff_fff0
  const SALVE_LEN: nat := 32

  datatype Header = Header(chunkNum: u64, chunkSize: u64, dataId: u32, dataSize: u32)

  datatype PktType = Unknown | Begin | End | KeepAlive | Data

  /** What hgap_pkt_parse leaves behind: nothing for a packet shorter than a
      header; otherwise the header, whatever follows it, and whether the
      announced payload is really there. */
  datatype Parsed = TooShort | Parsed(hdr: Header, data: bytes, ok: bool)

  // ---- Big-endian integers (htobe64, htobe32 and their inverses) ----

  function BigEndian(n: nat, k: nat): (s: bytes)
    ensures |s| == k
  {
    if k == 0 then [] else BigEndian(n / 256, k - 1) + [n % 256]
  }

  function FromBigEndian(s: bytes): nat {
    if s == [] then 0 else FromBigEndian(s[..|s| - 1]) * 256 + s[|s| - 1]
  }

  function Pow256(k: nat): (p: nat)
    ensures p > 0
  {
    if k == 0 then 1 else 256 * Pow256(k - 1)
  }

  lemma PowersOf256()
    ensures Pow256(4) == 0x1_0000_0000
    ensures Pow256(8) == 0x1_0000_0000_0000_0000
  {
    assert Pow256(2) == 0x1_0000;
    assert Pow256(4) == 256 * (256 * Pow256(2));
    assert Pow256(6) == 256 * (256 * Pow256(4));
    assert Pow256(8) == 256 * (256 * Pow256(6));
  }

  lemma {:induction false} FromBigEndianBound(s: bytes)
    ensures FromBigEndian(s) < Pow256(|s|)
  {
    if s != [] {
      FromBigEndianBound(s[..|s| - 1]);
    }
  }

  lemma {:induction false} BigEndianRoundTrip(n: nat, k: nat)
    requires n < Pow256(k)
    ensures FromBigEndian(BigEndian(n, k)) == n
  {
    if k > 0 {
      BigEndianRoundTrip(n / 256, k - 1);
      assert BigEndian(n, k)[..k - 1] == BigEndian(n / 256, k - 1);
    }
  }

  function Read64(s: bytes): u64
    requires |s| == 8
  {
    FromBigEndianBound(s);
    PowersOf256();
    FromBigEndian(s)
  }

  function Read32(s: bytes): u32
    requires |s| == 4
  {
    FromBigEndianBound(s);
    PowersOf256();
    FromBigEndian(s)
  }

  lemma WordRoundTrip(n: u64, m: u32)
    ensures Read64(BigEndian(n, 8)) == n
    ensures Read32(BigEndian(m, 4)) == m
  {
    PowersOf256();
    BigEndianRoundTrip(n, 8);
    BigEndianRoundTrip(m, 4);
  }

  /** The bytes of a word in network order: the most significant first. */
  predicate InNetworkOrder(n: nat, word: bytes) {
    forall i :: 0 <= i < |word| ==> word[i] == n / Pow256(|word| - 1 - i) % 256
  }

  lemma {:induction false} BigEndianInOrder(n: nat, k: nat)
    ensures InNetworkOrder(n, BigEndian(n, k))
  {
    if k > 0 {
      var front := BigEndian(n / 256, k - 1);
      BigEndianInOrder(n / 256, k - 1);
      forall i | 0 <= i < k
        ensures BigEndian(n, k)[i] == n / Pow256(k - 1 - i) % 256
      {
        if i < k - 1 {
          DivideTwice(n, Pow256(k - 2 - i));
          assert BigEndian(n, k)[i] == front[i];
        }
      }
    }
  }

  // ---- Header ----

  function HeaderBytes(h: Header): (s: bytes)
    ensures |s| == HEADER_LEN
  {
    BigEndian(h.chunkNum, 8) + BigEndian(h.chunkSize, 8)
    + BigEndian(h.dataId, 4) + BigEndian(h.dataSize, 4)
  }

  /** hgap_write_header stores the four fields in network order in the first
      24 bytes of a caller's buffer and touches nothing after them. */
  method WriteHeader(h: Header, buf: array<byte>)
    requires buf.Length >= HEADER_LEN
    modifies buf
    ensures buf[..HEADER_LEN] == HeaderBytes(h)
    ensures buf[24..] == old(buf[24..])
    ensures forall i :: 0 <= i < 8 ==> buf[i] == h.chunkNum / Pow256(7 - i) % 256
    ensures forall i :: 8 <= i < 16 ==> buf[i] == h.chunkSize / Pow256(15 - i) % 256
    ensures forall i :: 16 <= i < 20 ==> buf[i] == h.dataId / Pow256(19 - i) % 256
    ensures forall i :: 20 <= i < 24 ==> buf[i] == h.dataSize / Pow256(23 - i) % 256
  {
    StoreWord(buf, 0, h.chunkNum, 8);
    StoreWord(buf, 8, h.chunkSize, 8);
    StoreWord(buf, 16, h.dataId, 4);
    StoreWord(buf, 20, h.dataSize, 4);
    assert buf[..8] == BigEndian(h.chunkNum, 8);
    assert buf[8..16] == BigEndian(h.chunkSize, 8);
    assert buf[16..20] == BigEndian(h.dataId, 4);
    assert buf[20..24] == BigEndian(h.dataSize, 4);
    assert buf[..24] == buf[..8] + buf[8..16] + buf[16..20] + buf[20..24];
    HeaderInOrder(h, buf[..24]);
  }

  /** A header byte by byte: four fields in network order, one after the other. */
  lemma HeaderInOrder(h: Header, raw: bytes)
    requires raw == HeaderBytes(h)
    ensures |raw| == 24
    ensures forall i :: 0 <= i < 8 ==> raw[i] == h.chunkNum / Pow256(7 - i) % 256
    ensures forall i :: 8 <= i < 16 ==> raw[i] == h.chunkSize / Pow256(15 - i) % 256
    ensures forall i :: 16 <= i < 20 ==> raw[i] == h.dataId / Pow256(19 - i) % 256
    ensures forall i :: 20 <= i < 24 ==> raw[i] == h.dataSize / Pow256(23 - i) % 256
  {
    BigEndianInOrder(h.chunkNum, 8);
    BigEndianInOrder(h.chunkSize, 8);
    BigEndianInOrder(h.dataId, 4);
    BigEndianInOrder(h.dataSize, 4);
    var num, size, id := BigEndian(h.chunkNum, 8), BigEndian(h.chunkSize, 8), BigEndian(h.dataId, 4);
    var data := BigEndian(h.dataSize, 4);
    forall i | 8 <= i < 16
      ensures raw[i] == h.chunkSize / Pow256(15 - i) % 256
    {
      assert raw[i] == size[i - 8];
    }
    forall i | 16 <= i < 20
      ensures raw[i] == h.dataId / Pow256(19 - i) % 256
    {
      assert raw[i] == id[i - 16];
    }
    forall i | 20 <= i < 24
      ensures raw[i] == h.dataSize / Pow256(23 - i) % 256
    {
      assert raw[i] == data[i - 20];
    }
  }

  method StoreWord(buf: array<byte>, at: nat, n: nat, k: nat)
    requires at + k <= buf.Length
    modifies buf
    ensures forall i :: 0 <= i < buf.Length ==>
      buf[i] == if at <= i < at + k then BigEndian(n, k)[i - at] else old(buf[i])
  {
    var word := BigEndian(n, k);
    forall i | at <= i < at + k {
      buf[i] := word[i - at];
    }
  }

  function ParseHeader(raw: bytes): Header
    requires |raw| >= HEADER_LEN
  {
    Header(Read64(raw[..8]), Read64(raw[8..16]), Read32(raw[16..20]), Read32(raw[20..24]))
  }

  /** hgap_pkt_parse. */
  function Parse(raw: bytes): Parsed {
    if |raw| < HEADER_LEN then TooShort
    else
      var hdr := ParseHeader(raw);
      Parsed(hdr, raw[HEADER_LEN..], |raw| >= hdr.dataSize + HEADER_LEN)
  }

  /** hgap_pkt_type: the switch on the chunk number. */
  function TypeOfNumber(num: u64): PktType {
    if num == BEGIN_BEACON then Begin
    else if num == NO_MORE_CHUNK then End
    else if num == KEEP_ALIVE then KeepAlive
    else if num >= FIRST_RESERVED then Unknown
    else Data
  }

  function TypeOf(raw: bytes): PktType {
    if |raw| < HEADER_LEN then Unknown else TypeOfNumber(Read64(raw[..8]))
  }

  function ControlHeader(num: u64): Header { Header(num, 0, 0, 0) }

  const BEGIN_PKT: bytes := HeaderBytes(ControlHeader(BEGIN_BEACON))
  const END_PKT: bytes := HeaderBytes(ControlHeader(NO_MORE_CHUNK))
  const KEEPALIVE_PKT: bytes := HeaderBytes(ControlHeader(KEEP_ALIVE))

  /** Parsing undoes writing, for every header and every payload that follows. */
  lemma ParseRoundTrip(h: Header, payload: bytes)
    ensures Parse(HeaderBytes(h) + payload) == Parsed(h, payload, |payload| >= h.dataSize)
    ensures TypeOf(HeaderBytes(h) + payload) == TypeOfNumber(h.chunkNum)
  {
    var raw := HeaderBytes(h) + payload;
    assert raw[..8] == BigEndian(h.chunkNum, 8);
    assert raw[8..16] == BigEndian(h.chunkSize, 8);
    assert raw[16..20] == BigEndian(h.dataId, 4);
    assert raw[20..24] == BigEndian(h.dataSize, 4);
    WordRoundTrip(h.chunkNum, h.dataId);
    WordRoundTrip(h.chunkSize, h.dataSize);
    assert raw[HEADER_LEN..] == payload;
  }

  lemma HeaderInjective(h: Header, h': Header, payload: bytes, payload': bytes)
    requires HeaderBytes(h) + payload == HeaderBytes(h') + payload'
    ensures h == h' && payload == payload'
  {
    ParseRoundTrip(h, payload);
    ParseRoundTrip(h', payload');
  }

  /** How packets are told apart, in the numbers of the format: DATA is everything
      below the reserved range, three reserved numbers are control packets, the rest of
      the range and anything shorter than a header is unknown. No DATA packet has the
      number that a fresh decoder starts with. */
  lemma Classification(h: Header, payload: bytes)
    ensures var t, n := TypeOf(HeaderBytes(h) + payload), h.chunkNum;
      && (t == Data <==> n < 0xffff_ffff_ffff_fff0)
      && (t == Begin <==> n == 0xffff_ffff_ffff_fffe)
      && (t == End <==> n == 0xffff_ffff_ffff_ffff)
      && (t == KeepAlive <==> n == 0xffff_ffff_ffff_fffd)
      && (t == Data ==> n != NO_MORE_CHUNK)
    ensures TypeOf(BEGIN_PKT) == Begin && TypeOf(END_PKT) == End && TypeOf(KEEPALIVE_PKT) == KeepAlive
    ensures |payload| < 24 ==> TypeOf(payload) == Unknown && Parse(payload) == TooShort
  {
    ParseRoundTrip(h, payload);
    ControlRoundTrip(BEGIN_BEACON);
    ControlRoundTrip(NO_MORE_CHUNK);
    ControlRoundTrip(KEEP_ALIVE);
  }

  function ZeroBytes(n: nat): (z: bytes)
    ensures |z| == n && forall i :: 0 <= i < n ==> z[i] == 0
  {
    seq(n, _ => 0)
  }

  /** The control packets, byte by byte. */
  lemma ControlBytes()
    ensures BEGIN_PKT == [255, 255, 255, 255, 255, 255, 255, 254] + ZeroBytes(16)
    ensures END_PKT == [255, 255, 255, 255, 255, 255, 255, 255] + ZeroBytes(16)
    ensures KEEPALIVE_PKT == [255, 255, 255, 255, 255, 255, 255, 253] + ZeroBytes(16)
  {
    Reserved(BEGIN_BEACON, 254);
    Reserved(NO_MORE_CHUNK, 255);
    Reserved(KEEP_ALIVE, 253);
  }

  lemma Zero(k: nat)
    ensures BigEndian(0, k) == ZeroBytes(k)
  {
  }

  lemma Reserved(n: u64, b: byte)
    requires n == 0xffff_ffff_ffff_ff00 + b
    ensures HeaderBytes(ControlHeader(n))
         == [255, 255, 255, 255, 255, 255, 255, b] + ZeroBytes(16)
  {
    assert BigEndian(n / 0x1_0000_0000, 4) == [255, 255, 255, 255] by {
      assert n / 0x1_0000_0000 == 0xffff_ffff;
      assert BigEndian(0xff, 1) == [255];
      assert BigEndian(0xffff, 2) == [255, 255];
      assert BigEndian(0xff_ffff, 3) == [255, 255, 255];
    }
    assert BigEndian(n / 0x100_0000, 5) == [255, 255, 255, 255, 255];
    assert BigEndian(n / 0x1_0000, 6) == [255, 255, 255, 255, 255, 255];
    assert BigEndian(n / 0x100, 7) == [255, 255, 255, 255, 255, 255, 255];
    Zero(8);
    Zero(4);
  }

  lemma ControlRoundTrip(num: u64)
    ensures Parse(HeaderBytes(ControlHeader(num))) == Parsed(ControlHeader(num), [], true)
    ensures TypeOf(HeaderBytes(ControlHeader(num))) == TypeOfNumber(num)
  {
    ParseRoundTrip(ControlHeader(num), []);
    assert HeaderBytes(ControlHeader(num)) + [] == HeaderBytes(ControlHeader(num));
  }
}
