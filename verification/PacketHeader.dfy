/** The fixed 18-byte packet header: how it is written, and the two ways it is read back. */
module PacketHeader {
  import opened Bytes

  // PacketActionType
  const EMPTY: ushort := 0
  const PING: ushort := 1
  const PONG: ushort := 2
  const SYN: ushort := 3
  const SYNACK: ushort := 4
  const ACK: ushort := 5
  const READY: ushort := 6

  // PacketEncryptionType
  const NONE: ushort := 0
  const RSA: ushort := 2
  const CHACHA: ushort := 3

  // PacketEncodingType: every constructor the senders use leaves the initializer's value
  const BINARY: ushort := 3

  const HEADER_SIZE := 18

  /** Any 16-bit value can arrive in the enum fields: the casts in the reader are unchecked. */
  datatype Header = Header(byteLength: int32, action: ushort, encoding: ushort, encryption: ushort, sentAt: int64)

  function Encode(h: Header): (s: seq<byte>)
    ensures |s| == HEADER_SIZE
  {
    Widths();
    WriteInt(h.byteLength, 4) + Le(h.action, 2) + Le(h.encoding, 2) + Le(h.encryption, 2) + WriteInt(h.sentAt, 8)
  }

  /** The in-place writer: fills the first 18 bytes of the caller's buffer and no others. */
  method WriteTo(h: Header, buffer: array<byte>)
    requires HEADER_SIZE <= buffer.Length
    modifies buffer
    ensures buffer[..HEADER_SIZE] == Encode(h)
    ensures buffer[HEADER_SIZE..] == old(buffer[HEADER_SIZE..])
  {
    Widths();
    Put(buffer, 0, WriteInt(h.byteLength, 4));
    Put(buffer, 4, Le(h.action, 2));
    Put(buffer, 6, Le(h.encoding, 2));
    Put(buffer, 8, Le(h.encryption, 2));
    Put(buffer, 10, WriteInt(h.sentAt, 8));
  }

  /** One `BinaryPrimitives.Write…LittleEndian` into a slice of the buffer. */
  method Put(buffer: array<byte>, at: nat, digits: seq<byte>)
    requires at + |digits| <= buffer.Length
    modifies buffer
    ensures forall k :: 0 <= k < buffer.Length ==>
              buffer[k] == if at <= k < at + |digits| then digits[k - at] else old(buffer[k])
  {
    forall k | 0 <= k < |digits| {
      buffer[at + k] := digits[k];
    }
  }

  function Decode(b: seq<byte>): Header
    requires |b| == HEADER_SIZE
  {
    Widths();
    WriteIntOfReadInt(b[0..4]);
    WriteIntOfReadInt(b[10..18]);
    Header(ReadInt(b[0..4]), UnLe(b[4..6]), UnLe(b[6..8]), UnLe(b[8..10]), ReadInt(b[10..18]))
  }

  function ValidateHeader(b: seq<byte>): Option<Header> {
    if |b| == HEADER_SIZE then Some(Decode(b)) else None
  }

  /** Where each field lies and how: little-endian, in two's complement, the fields in this order. */
  lemma {:induction false} HeaderLayout(h: Header, k: nat)
    requires k < HEADER_SIZE
    ensures Encode(h)[k]
            == if k < 4 then h.byteLength % 0x1_0000_0000 / Pow256(k) % 0x100
               else if k < 6 then h.action / Pow256(k - 4) % 0x100
               else if k < 8 then h.encoding / Pow256(k - 6) % 0x100
               else if k < 10 then h.encryption / Pow256(k - 8) % 0x100
               else h.sentAt % 0x1_0000_0000_0000_0000 / Pow256(k - 10) % 0x100
  {
    Widths();
    UnsignedIsMod(h.byteLength, 4);
    UnsignedIsMod(h.sentAt, 8);
    if k < 4 {
      LeAt(Unsigned(h.byteLength, 4), 4, k);
    } else if k < 6 {
      LeAt(h.action, 2, k - 4);
    } else if k < 8 {
      LeAt(h.encoding, 2, k - 6);
    } else if k < 10 {
      LeAt(h.encryption, 2, k - 8);
    } else {
      LeAt(Unsigned(h.sentAt, 8), 8, k - 10);
    }
    hide Le, Pow256, Unsigned;
  }

  lemma {:induction false} ValidateInvertsWrite(h: Header)
    ensures ValidateHeader(Encode(h)) == Some(h)
  {
    Widths();
    var s := Encode(h);
    assert s[0..4] == WriteInt(h.byteLength, 4);
    assert s[4..6] == Le(h.action, 2);
    assert s[6..8] == Le(h.encoding, 2);
    assert s[8..10] == Le(h.encryption, 2);
    assert s[10..18] == WriteInt(h.sentAt, 8);
    ReadIntOfWriteInt(h.byteLength, 4);
    ReadIntOfWriteInt(h.sentAt, 8);
    UnLeOfLe(h.action, 2);
    UnLeOfLe(h.encoding, 2);
    UnLeOfLe(h.encryption, 2);
  }

  /** Every 18 bytes are the writing of exactly the header read from them, so the codec is a bijection. */
  lemma {:induction false} WriteInvertsValidate(b: seq<byte>)
    ensures ValidateHeader(b).Some? <==> |b| == HEADER_SIZE
    ensures ValidateHeader(b).Some? ==> Encode(ValidateHeader(b).value) == b
  {
    if |b| == HEADER_SIZE {
      Widths();
      WriteIntOfReadInt(b[0..4]);
      WriteIntOfReadInt(b[10..18]);
      LeOfUnLe(b[4..6]);
      LeOfUnLe(b[6..8]);
      LeOfUnLe(b[8..10]);
      assert b == b[0..4] + b[4..6] + b[6..8] + b[8..10] + b[10..18];
    }
  }

  /** C# `int` addition outside a `checked` context. */
  function WrapInt32(x: int): (w: int32) {
    var m := x % 0x1_0000_0000;
    if m < 0x8000_0000 then m else m - 0x1_0000_0000
  }

  datatype Parsed = Parsed(header: Header, data: Option<seq<byte>>)

  /** Reads the whole-buffer form; the timestamp is read with a 32-bit read. */
  function ReadFrom(buffer: seq<byte>): Option<Parsed> {
    if |buffer| > HEADER_SIZE then
      var dataLength := Decode(buffer[..HEADER_SIZE]).byteLength;
      if WrapInt32(HEADER_SIZE + dataLength) == |buffer| then
        Some(Parsed(NarrowDecode(buffer), Some(buffer[HEADER_SIZE..])))
      else None
    else if |buffer| == HEADER_SIZE then
      Some(Parsed(NarrowDecode(buffer), None))
    else None
  }

  function NarrowDecode(buffer: seq<byte>): Header
    requires |buffer| >= HEADER_SIZE
  {
    Widths();
    WriteIntOfReadInt(buffer[10..14]);
    Decode(buffer[..HEADER_SIZE]).(sentAt := ReadInt(buffer[10..14]))
  }

  /** The wrapping length test accepts exactly when the integer equation holds, for every array length C# allows. */
  lemma {:induction false} ReadFromAccepts(buffer: seq<byte>)
    requires |buffer| < 0x8000_0000
    ensures ReadFrom(buffer).Some? <==>
              |buffer| == HEADER_SIZE
              || (|buffer| > HEADER_SIZE && HEADER_SIZE + ValidateHeader(buffer[..HEADER_SIZE]).value.byteLength == |buffer|)
  {
  }

  /** The sign-extended low 32 bits of a timestamp. */
  function LowWord(t: int64): int32 { WrapInt32(t) }

  lemma {:induction false} LowHalf(t: int64)
    ensures Unsigned(t, 8) % 0x1_0000_0000 == t % 0x1_0000_0000
  {
    Widths();
    var u: int := Unsigned(t, 8);
    if t < 0 {
      ModUnique(t, 0x1_0000_0000, u / 0x1_0000_0000 - 0x1_0000_0000, u % 0x1_0000_0000);
    }
  }

  lemma {:induction false} NarrowTimestamp(t: int64)
    ensures ReadInt(WriteInt(t, 8)[..4]) == LowWord(t)
  {
    Widths();
    UnLePrefix(Unsigned(t, 8), 8, 4);
    LowHalf(t);
    hide Unsigned, UnLe, Le;
  }

  lemma {:induction false} HeadOfWrite(h: Header, data: seq<byte>)
    ensures var b := Encode(h) + data;
            b[..HEADER_SIZE] == Encode(h) && b[HEADER_SIZE..] == data && Decode(b[..HEADER_SIZE]) == h
    ensures (Encode(h) + data)[10..14] == WriteInt(h.sentAt, 8)[..4]
  {
    Widths();
    ValidateInvertsWrite(h);
    assert (Encode(h) + data)[..HEADER_SIZE] == Encode(h);
  }

  /** `ReadFrom` undoes `WriteTo` except for the high half of the timestamp. */
  lemma {:induction false} ReadFromOfWrite(h: Header, data: seq<byte>)
    requires h.byteLength == |data|
    requires HEADER_SIZE + |data| < 0x8000_0000
    ensures ReadFrom(Encode(h) + data) ==
              Some(Parsed(h.(sentAt := LowWord(h.sentAt)), if data == [] then None else Some(data)))
    ensures ReadFrom(Encode(h) + data).value.header == h <==> -0x8000_0000 <= h.sentAt < 0x8000_0000
  {
    HeadOfWrite(h, data);
    NarrowTimestamp(h.sentAt);
    hide Encode, Decode, WriteInt;
    assert NarrowDecode(Encode(h) + data) == h.(sentAt := LowWord(h.sentAt));
  }
}
