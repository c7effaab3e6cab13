/** Byte buffers as the proxy handles them: Node.js `Buffer` slicing, whose
    bounds are clamped to the buffer, and 16-bit big-endian reads and writes. */
module Bytes {

  /** One octet of a `Buffer`. */
  type Byte = b: int | 0 <= b < 0x100

  /** A TCP port: the value range of an unsigned 16-bit integer. */
  type Port = p: int | 0 <= p < 0x1_0000

  /** The four octets of an IPv4 address, in network order. */
  type Octets = s: seq<Byte> | |s| == 4 witness [0, 0, 0, 0]

  datatype Option<+T> = None | Some(value: T)

  function Min(a: int, b: int): int { if a <= b then a else b }

  function Max(a: int, b: int): int { if a <= b then b else a }

  /** `buf.slice(start, end)`: both bounds are clamped to the length of the
      buffer, so a slice reaching past the end yields only the bytes that
      exist, and an empty range yields the empty buffer. */
  function Slice(buf: seq<Byte>, start: nat, end: nat): (r: seq<Byte>)
    ensures |r| == Max(0, Min(end, |buf|) - start)
    ensures forall i :: 0 <= i < |r| ==> start + i < |buf| && r[i] == buf[start + i]
    ensures start <= end <= |buf| ==> r == buf[start..end]
  {
    var lo, hi := Min(start, |buf|), Min(end, |buf|);
    if lo < hi then buf[lo..hi] else []
  }

  /** The unsigned 16-bit value whose high byte is `hi` and low byte `lo`. */
  function U16(hi: Byte, lo: Byte): Port
  {
    hi * 0x100 + lo
  }

  /** The two bytes `writeUInt16BE` stores for `value`, high byte first. */
  function PortBytes(value: Port): (r: seq<Byte>)
    ensures |r| == 2
  {
    [value / 0x100, value % 0x100]
  }

  /** Splitting a 16-bit value into bytes undoes joining them. */
  lemma PortBytesOfU16(hi: Byte, lo: Byte)
    ensures PortBytes(U16(hi, lo)) == [hi, lo]
  {
  }

  /** `buf.readUInt16BE(offset)`: Node.js throws a RangeError when fewer than
      two bytes remain at `offset`; here that is `None`. */
  function ReadUInt16BE(buf: seq<Byte>, offset: nat): (r: Option<Port>)
    ensures r.Some? <==> offset + 2 <= |buf|
    ensures r.Some? ==> PortBytes(r.value) == buf[offset..offset + 2]
  {
    if offset + 2 <= |buf| then
      PortBytesOfU16(buf[offset], buf[offset + 1]);
      Some(U16(buf[offset], buf[offset + 1]))
    else
      None
  }

  /** `buf.writeUInt16BE(value, offset)` on a buffer that has room. */
  method WriteUInt16BE(buf: array<Byte>, value: Port, offset: nat)
    requires offset + 2 <= buf.Length
    modifies buf
    ensures buf[..] == old(buf[..offset]) + PortBytes(value) + old(buf[offset + 2..])
  {
    buf[offset] := value / 0x100;
    buf[offset + 1] := value % 0x100;
  }

  /** A port written big-endian anywhere in a buffer reads back unchanged. */
  lemma PortRoundTrip(prefix: seq<Byte>, value: Port, suffix: seq<Byte>)
    ensures ReadUInt16BE(prefix + PortBytes(value) + suffix, |prefix|) == Some(value)
  {
  }
}
