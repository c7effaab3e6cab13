/** The SOCKS5 reply frame of section 6 of RFC 1928 as the proxy writes it:
    `VER REP RSV ATYP BND.ADDR BND.PORT`, always with an IPv4 address field. */
module Reply {
  import opened Bytes

  const Version: Byte := 0x05
  const Reserved: Byte := 0x00
  const AtypIpv4: Byte := 0x01

  // Reply codes (REP) the proxy sends.
  const Succeeded: Byte := 0x00
  const GeneralFailure: Byte := 0x01
  const HostUnreachable: Byte := 0x04
  const ConnectionRefused: Byte := 0x05
  const CommandNotSupported: Byte := 0x07
  const AddressTypeNotSupported: Byte := 0x08

  /** The default bound address `0.0.0.0` of an error reply. */
  const Unspecified: Octets := [0, 0, 0, 0]

  /** The reply for `code` with bound address `bound` and bound port `port`:
      ten bytes, version 5, the code, a zero reserved byte, address type IPv4,
      the four address octets and the port big-endian. */
  function ReplyFrame(code: Byte, bound: Octets, port: Port): (r: seq<Byte>)
    ensures |r| == 10
    ensures r[0] == Version && r[1] == code && r[2] == Reserved && r[3] == AtypIpv4
    ensures r[4..8] == bound
  {
    [Version, code, Reserved, AtypIpv4] + bound + PortBytes(port)
  }

  /** An error reply: `sendSocksReply` called with its default address and
      port, which zero-fills the address and port fields. */
  function ErrorReply(code: Byte): (r: seq<Byte>)
    ensures r == [Version, code, 0, 1, 0, 0, 0, 0, 0, 0]
  {
    ReplyFrame(code, Unspecified, 0)
  }

  /** `sendSocksReply`: the header, then a zero-filled four-byte address buffer
      set octet by octet, then a two-byte port buffer written big-endian. */
  method BuildReply(code: Byte, bound: Octets, port: Port) returns (frame: seq<Byte>)
    ensures frame == ReplyFrame(code, bound, port)
  {
    var header := [Version, code, Reserved];
    var addrBuf := new Byte[4](_ => 0);
    addrBuf[0] := bound[0];
    addrBuf[1] := bound[1];
    addrBuf[2] := bound[2];
    addrBuf[3] := bound[3];
    var portBuf := new Byte[2](_ => 0);
    WriteUInt16BE(portBuf, port, 0);
    assert addrBuf[..] == bound;
    frame := header + [AtypIpv4] + addrBuf[..] + portBuf[..];
  }

  datatype ReplyFields = ReplyFields(code: Byte, bound: Octets, port: Port)

  /** How a SOCKS5 client reads a reply whose bound address is IPv4. */
  function ParseReply(frame: seq<Byte>): (r: Option<ReplyFields>)
    ensures r.Some? ==> |frame| == 10 && frame[0] == Version && frame[1] == r.value.code
  {
    if |frame| == 10 && frame[0] == Version && frame[2] == Reserved && frame[3] == AtypIpv4 then
      Some(ReplyFields(frame[1], frame[4..8], U16(frame[8], frame[9])))
    else
      None
  }

  /** A client reads back exactly the fields the proxy wrote. */
  lemma ParseBuiltReply(code: Byte, bound: Octets, port: Port)
    ensures ParseReply(ReplyFrame(code, bound, port)) == Some(ReplyFields(code, bound, port))
  {
  }

  /** Every frame a client accepts as an IPv4 reply is the proxy's frame for
      the fields read from it. */
  lemma BuildParsedReply(frame: seq<Byte>)
    requires ParseReply(frame).Some?
    ensures var f := ParseReply(frame).value; ReplyFrame(f.code, f.bound, f.port) == frame
  {
  }
}
