/** One client connection of the proxy: the handler chain registered on the
    client socket, one `data` handler per stage, as an object whose stage and
    whose record of bytes written to the client change in place. */
module Server {
  import opened Bytes
  import opened Reply
  import opened Request
  import opened Protocol

  class Session {
    /** The configured credentials, fixed when the proxy starts. */
    const config: Config
    /** The stage whose handler the next event goes to. */
    var stage: Stage
    /** Every byte written to the client socket so far, in order. */
    var written: seq<Byte>

    /** A newly accepted connection waits for the greeting and has been sent nothing. */
    constructor (config: Config)
      ensures this.config == config && stage == AwaitGreeting && written == []
    {
      this.config := config;
      stage := AwaitGreeting;
      written := [];
    }

    /** A `data` event: the frame goes to the handler of the current stage. */
    method OnData(frame: seq<Byte>)
      requires stage.AwaitingFrame()
      modifies this
      ensures stage == Step(config, old(stage), frame).next
      ensures written == old(written) + Step(config, old(stage), frame).output
    {
      if stage.AwaitGreeting? {
        Greet(frame);
      } else if stage.AwaitAuth? {
        Authenticate(frame);
      } else {
        HandleRequest(frame);
      }
    }

    /** The greeting handler. */
    method Greet(data: seq<Byte>)
      requires stage.AwaitGreeting?
      modifies this
      ensures stage == GreetingStep(data).next
      ensures written == old(written) + GreetingStep(data).output
    {
      if |data| < 2 || data[0] != Version {
        stage := Closed;
        return;
      }
      var nMethods := data[1];
      var methods := Slice(data, 2, 2 + nMethods as int);
      var selected := SelectMethod(methods);
      if selected == NoAcceptableMethods {
        written := written + [Version, NoAcceptableMethods];
        stage := Closed;
        return;
      }
      written := written + [Version, selected];
      // The handler's fallback for a method other than username/password is
      // dead code: the scan selects nothing else.
      assert selected == MethodUserPass;
      stage := AwaitAuth;
    }

    /** The username/password handler. */
    method Authenticate(authData: seq<Byte>)
      requires stage.AwaitAuth?
      modifies this
      ensures stage == AuthStep(config, authData).next
      ensures written == old(written) + AuthStep(config, authData).output
    {
      if |authData| < 2 || authData[0] != AuthVersion {
        stage := Closed;
        return;
      }
      var ulen: nat := authData[1];
      if |authData| < 2 + ulen + 1 {
        stage := Closed;
        return;
      }
      var uname := Slice(authData, 2, 2 + ulen);
      var plen: nat := authData[2 + ulen];
      var passwd := Slice(authData, 2 + ulen + 1, 2 + ulen + 1 + plen);
      if uname == config.user && passwd == config.pass {
        written := written + [AuthVersion, AuthSucceeded];
      } else {
        written := written + [AuthVersion, AuthFailed];
        stage := Closed;
        return;
      }
      stage := AwaitRequest;
    }

    /** `handleSocksRequest` up to the connection attempt. */
    method HandleRequest(reqBuf: seq<Byte>)
      requires stage.AwaitRequest?
      modifies this
      ensures stage == RequestStep(reqBuf).next
      ensures written == old(written) + RequestStep(reqBuf).output
    {
      var outcome := ParseRequest(reqBuf);
      match outcome {
        case SilentClose =>
          stage := Closed;
        case Reject(code) =>
          SendReply(code, Unspecified, 0);
          stage := Closed;
        case Connect(dest) =>
          stage := Connecting(dest);
      }
    }

    /** The result of name resolution (for a domain) and of the outbound
        connection arrives. */
    method OnConnectOutcome(lookup: Option<Octets>, upstream: Upstream)
      requires stage.Connecting?
      modifies this
      ensures stage == ConnectStep(old(stage).dest, lookup, upstream).next
      ensures written == old(written) + ConnectStep(old(stage).dest, lookup, upstream).output
    {
      var dest := stage.dest;
      if dest.host.DomainHost? && lookup.None? {
        SendReply(HostUnreachable, Unspecified, 0);
        stage := Closed;
        return;
      }
      match upstream {
        case Refused =>
          SendReply(ConnectionRefused, Unspecified, 0);
          stage := Closed;
        case Established(local, localPort) =>
          SendReply(Succeeded, local, localPort);
          stage := Relaying;
      }
    }

    /** `sendSocksReply`: the reply frame is appended to what the client has
        been sent. */
    method SendReply(code: Byte, bound: Octets, port: Port)
      modifies this
      ensures stage == old(stage)
      ensures written == old(written) + ReplyFrame(code, bound, port)
    {
      var frame := BuildReply(code, bound, port);
      written := written + frame;
    }
  }
}
