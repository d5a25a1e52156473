/**
 The 4-byte big-endian payloads that the example federates put on the wire:
 `int.to_bytes(4, "big")` on the sending side and `int.from_bytes(raw, "big")` on the
 receiving side.
 */
module Wire {

  type Byte = b: int | 0 <= b < 256

  /** The first sequence number that no longer fits into four bytes. */
  const LIMIT: nat := 0x1_0000_0000

  /** `n.to_bytes(4, "big", signed=False)`; it overflows from LIMIT on. */
  function ToBytes4(n: nat): (raw: seq<Byte>)
    requires n < LIMIT
    ensures |raw| == 4
  {
    [n / 0x100_0000, n / 0x1_0000 % 0x100, n / 0x100 % 0x100, n % 0x100]
  }

  /** `int.from_bytes(raw, "big", signed=False)`, for any length. */
  function FromBytes(raw: seq<Byte>): nat {
    if raw == [] then 0 else FromBytes(raw[..|raw| - 1]) * 0x100 + raw[|raw| - 1]
  }

  /** Every number that fits is read back unchanged. */
  lemma DecodeEncode(n: nat)
    requires n < LIMIT
    ensures FromBytes(ToBytes4(n)) == n
  {
    var b0, b1, b2 := n / 0x100_0000, n / 0x1_0000 % 0x100, n / 0x100 % 0x100;
    FromFour(b0, b1, b2, n % 0x100);
    assert n / 0x1_0000 == b0 * 0x100 + b1;
    assert n / 0x100 == (n / 0x1_0000) * 0x100 + b2;
  }

  lemma FromFour(b0: Byte, b1: Byte, b2: Byte, b3: Byte)
    ensures FromBytes([b0, b1, b2, b3]) == ((b0 * 0x100 + b1) * 0x100 + b2) * 0x100 + b3
  {
    FromSnoc([], b0);
    FromSnoc([b0], b1);
    FromSnoc([b0, b1], b2);
    FromSnoc([b0, b1, b2], b3);
    assert [] + [b0] == [b0] && [b0] + [b1] == [b0, b1];
    assert [b0, b1] + [b2] == [b0, b1, b2] && [b0, b1, b2] + [b3] == [b0, b1, b2, b3];
  }

  lemma FromSnoc(raw: seq<Byte>, b: Byte)
    ensures FromBytes(raw + [b]) == FromBytes(raw) * 0x100 + b
  {
    assert (raw + [b])[..|raw|] == raw;
  }

  lemma SplitByte(high: nat, low: Byte)
    ensures (high * 0x100 + low) / 0x100 == high
    ensures (high * 0x100 + low) % 0x100 == low
  {}

  /** Every 4-byte payload is the encoding of exactly the number it decodes to. */
  lemma EncodeDecode(raw: seq<Byte>)
    requires |raw| == 4
    ensures FromBytes(raw) < LIMIT
    ensures ToBytes4(FromBytes(raw)) == raw
  {
    var b0, b1, b2, b3 := raw[0], raw[1], raw[2], raw[3];
    assert raw == [b0, b1, b2, b3];
    FromFour(b0, b1, b2, b3);
    var b: int, c: int := b0, b1;
    var high: int := b * 0x100 + c;
    var n := FromBytes(raw);
    SplitByte(b0, b1);
    SplitByte(high, b2);
    var third: int := b2;
    SplitByte(high * 0x100 + third, b3);
    assert n / 0x1_0000 == n / 0x100 / 0x100;
    assert n / 0x100_0000 == n / 0x1_0000 / 0x100;
  }
}
