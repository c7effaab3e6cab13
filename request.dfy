/** The SOCKS5 request frame of sections 4 and 5 of RFC 1928,
    `VER CMD RSV ATYP DST.ADDR DST.PORT`, as `handleSocksRequest` reads it up
    to the point where it connects. */
module Request {
  import opened Bytes
  import opened Reply

  const CmdConnect: Byte := 0x01
  const AtypDomain: Byte := 0x03
  const AtypIpv6: Byte := 0x04

  /** The shortest request the proxy looks at. */
  const MinRequestLength := 7

  /** Where the client asked to connect: an IPv4 address (rendered by the
      proxy as a dotted quad) or a domain name still to be resolved. */
  datatype Host = Ipv4Host(octets: Octets) | DomainHost(name: seq<Byte>)

  datatype Destination = Destination(host: Host, port: Port)

  /** What the proxy does with a request frame: close without a reply,
      send an error reply and close, or go on to connect. */
  datatype RequestOutcome = SilentClose | Reject(code: Byte) | Connect(dest: Destination)

  /** The outcome of a request frame, read at fixed positions. A domain
      request whose port bytes are missing makes `readUInt16BE` throw, and
      the handler's catch turns that into a general-failure reply. */
  function RequestOutcomeOf(b: seq<Byte>): (r: RequestOutcome)
    ensures r.Reject? ==> r.code in {CommandNotSupported, GeneralFailure, AddressTypeNotSupported}
    ensures r.Connect? && r.dest.host.DomainHost? ==> |r.dest.host.name| < 0x100
    ensures r.Connect? ==> |b| >= MinRequestLength && b[0] == Version && b[1] == CmdConnect
  {
    if |b| < MinRequestLength || b[0] != Version then SilentClose
    else if b[1] != CmdConnect then Reject(CommandNotSupported)
    else if b[3] == AtypIpv4 then
      if |b| < 10 then SilentClose
      else Connect(Destination(Ipv4Host(b[4..8]), U16(b[8], b[9])))
    else if b[3] == AtypDomain then
      var n: nat := b[4];
      if |b| < 7 + n then Reject(GeneralFailure)
      else Connect(Destination(DomainHost(b[5..5 + n]), U16(b[5 + n], b[6 + n])))
    else Reject(AddressTypeNotSupported)
  }

  /** `handleSocksRequest` up to the connection attempt: the checks on the
      header, then an offset advanced through the address and port. */
  method ParseRequest(reqBuf: seq<Byte>) returns (outcome: RequestOutcome)
    ensures outcome == RequestOutcomeOf(reqBuf)
  {
    if |reqBuf| < MinRequestLength || reqBuf[0] != Version {
      return SilentClose;
    }
    var cmd, atyp := reqBuf[1], reqBuf[3];
    if cmd != CmdConnect {
      return Reject(CommandNotSupported);
    }
    var offset := 4;
    if atyp == AtypIpv4 {
      if |reqBuf| < offset + 6 {
        return SilentClose;
      }
      var addrBytes := Slice(reqBuf, offset, offset + 4);
      offset := offset + 4;
      var port := ReadUInt16BE(reqBuf, offset);
      return Connect(Destination(Ipv4Host(addrBytes), port.value));
    } else if atyp == AtypDomain {
      var len: nat := reqBuf[offset];
      offset := offset + 1;
      var host := Slice(reqBuf, offset, offset + len);
      offset := offset + len;
      var port := ReadUInt16BE(reqBuf, offset);
      if port.None? {
        return Reject(GeneralFailure);
      }
      assert host == reqBuf[5..5 + len];
      return Connect(Destination(DomainHost(host), port.value));
    } else if atyp == AtypIpv6 {
      return Reject(AddressTypeNotSupported);
    } else {
      return Reject(AddressTypeNotSupported);
    }
  }

  /** A destination a client can put in a request: a domain name is at most
      255 bytes, since its length travels in one byte. */
  predicate Encodable(dest: Destination)
  {
    dest.host.DomainHost? ==> |dest.host.name| < 0x100
  }

  /** How a SOCKS5 client writes a request with command `cmd`. */
  function EncodeRequest(cmd: Byte, dest: Destination): seq<Byte>
    requires Encodable(dest)
  {
    var address := match dest.host
      case Ipv4Host(octets) => [AtypIpv4] + octets
      case DomainHost(name) => [AtypDomain, |name|] + name;
    [Version, cmd, Reserved] + address + PortBytes(dest.port)
  }

  /** A CONNECT request a client writes is parsed back to its destination. */
  lemma ConnectRoundTrip(dest: Destination)
    requires Encodable(dest)
    ensures RequestOutcomeOf(EncodeRequest(CmdConnect, dest)) == Connect(dest)
  {
    var b := EncodeRequest(CmdConnect, dest);
    match dest.host
    case Ipv4Host(octets) =>
      PortRoundTrip([Version, CmdConnect, Reserved, AtypIpv4] + octets, dest.port, []);
      assert b == [Version, CmdConnect, Reserved, AtypIpv4] + octets + PortBytes(dest.port) + [];
      assert b[4..8] == octets;
    case DomainHost(name) =>
      var n := |name|;
      PortRoundTrip([Version, CmdConnect, Reserved, AtypDomain, n] + name, dest.port, []);
      assert b == [Version, CmdConnect, Reserved, AtypDomain, n] + name + PortBytes(dest.port) + [];
      assert b[4] == n;
      assert b[5..5 + n] == name;
  }

  /** Any command other than CONNECT is answered with "command not
      supported", whatever the address type, before any address is read. */
  lemma OtherCommandsRejected(b: seq<Byte>)
    requires |b| >= MinRequestLength && b[0] == Version && b[1] != CmdConnect
    ensures RequestOutcomeOf(b) == Reject(CommandNotSupported)
  {
  }

  /** The reserved byte is never checked. */
  lemma ReservedByteIgnored(b: seq<Byte>, x: Byte)
    requires |b| > 2
    ensures RequestOutcomeOf(b[2 := x]) == RequestOutcomeOf(b)
  {
  }

  /** Address-type dispatch of a well-formed CONNECT request. */
  lemma AddressDispatch(b: seq<Byte>)
    requires |b| >= MinRequestLength && b[0] == Version && b[1] == CmdConnect
    ensures b[3] == AtypIpv4 && |b| < 10 ==> RequestOutcomeOf(b) == SilentClose
    ensures b[3] == AtypIpv4 && |b| >= 10 ==>
      RequestOutcomeOf(b) == Connect(Destination(Ipv4Host(b[4..8]), ReadUInt16BE(b, 8).value))
    ensures b[3] == AtypDomain ==>
      var n: nat := b[4];
      match ReadUInt16BE(b, 5 + n)
      case None => RequestOutcomeOf(b) == Reject(GeneralFailure)
      case Some(port) => RequestOutcomeOf(b) == Connect(Destination(DomainHost(b[5..5 + n]), port))
    ensures b[3] != AtypIpv4 && b[3] != AtypDomain ==> RequestOutcomeOf(b) == Reject(AddressTypeNotSupported)
  {
  }
}
