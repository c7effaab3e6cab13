/** The per-connection SOCKS5 state machine: method negotiation (section 3 of
    RFC 1928), username/password subnegotiation (section 2 of RFC 1929), the
    request, and the outcome of the connection attempt. Each stage consumes
    one whole frame and yields the next stage and the bytes written back. */
module Protocol {
  import opened Bytes
  import opened Reply
  import opened Request

  const MethodNoAuth: Byte := 0x00
  const MethodUserPass: Byte := 0x02
  const NoAcceptableMethods: Byte := 0xFF

  const AuthVersion: Byte := 0x01
  const AuthSucceeded: Byte := 0x00
  const AuthFailed: Byte := 0x01

  /** The configured credentials, as the bytes a client sends for them. */
  datatype Config = Config(user: seq<Byte>, pass: seq<Byte>)

  /** Where a session is. The first three stages wait for a frame; `Connecting`
      waits for name resolution and the outbound connection; `Relaying` is the
      established tunnel; `Closed` means the client socket was ended. */
  datatype Stage =
    | AwaitGreeting
    | AwaitAuth
    | AwaitRequest
    | Connecting(dest: Destination)
    | Relaying
    | Closed
  {
    predicate AwaitingFrame()
    {
      AwaitGreeting? || AwaitAuth? || AwaitRequest?
    }

    /** Stages in the order a session passes through them. */
    function Rank(): nat
    {
      match this
      case AwaitGreeting => 0
      case AwaitAuth => 1
      case AwaitRequest => 2
      case Connecting(_) => 3
      case Relaying => 4
      case Closed => 5
    }
  }

  /** The stage a session moves to and the bytes it writes to the client. */
  datatype StepResult = StepResult(next: Stage, output: seq<Byte>)

  // ----- Greeting: VER NMETHODS METHODS -----

  /** The offered methods: `nMethods` bytes after the header, or as many of
      them as the frame holds. */
  function OfferedMethods(data: seq<Byte>): seq<Byte>
    requires |data| >= 2
  {
    Slice(data, 2, 2 + data[1] as int)
  }

  /** The greeting handler: it either moves on to authentication, having
      selected username/password, or closes; "no authentication" is never
      selected, whatever the client offers. */
  function GreetingStep(data: seq<Byte>): (r: StepResult)
    ensures r.next == AwaitAuth || r.next == Closed
    ensures r.next == AwaitAuth <==> r.output == [Version, MethodUserPass]
    ensures r.output in {[], [Version, MethodUserPass], [Version, NoAcceptableMethods]}
    ensures r.output != [Version, MethodNoAuth]
  {
    if |data| < 2 || data[0] != Version then StepResult(Closed, [])
    else if MethodUserPass in OfferedMethods(data) then StepResult(AwaitAuth, [Version, MethodUserPass])
    else StepResult(Closed, [Version, NoAcceptableMethods])
  }

  /** The scan of the offered methods: stop at the first username/password
      method; anything else, including "no authentication", is passed over. */
  method SelectMethod(methods: seq<Byte>) returns (selected: Byte)
    ensures selected == MethodUserPass <==> MethodUserPass in methods
    ensures selected == MethodUserPass || selected == NoAcceptableMethods
  {
    selected := NoAcceptableMethods;
    var i := 0;
    while i < |methods|
      invariant 0 <= i <= |methods|
      invariant selected == NoAcceptableMethods
      invariant MethodUserPass !in methods[..i]
    {
      if methods[i] == MethodUserPass {
        selected := MethodUserPass;
        break;
      }
      i := i + 1;
    }
  }

  /** A greeting shorter than two bytes or of another version closes the
      session and writes nothing. */
  lemma MalformedGreetingIsSilent(data: seq<Byte>)
    requires |data| < 2 || data[0] != Version
    ensures GreetingStep(data) == StepResult(Closed, [])
  {
  }

  /** Method selection: `[5, 2]` and on to authentication exactly when 0x02 is
      among the bytes `[2, min(2 + nMethods, length))`; otherwise `[5, 0xFF]`
      and close. */
  lemma GreetingSelection(data: seq<Byte>)
    requires |data| >= 2 && data[0] == Version
    ensures GreetingStep(data).next == AwaitAuth <==>
      exists i :: 2 <= i < Min(2 + data[1] as int, |data|) && data[i] == MethodUserPass
    ensures GreetingStep(data).next == AwaitAuth ==> GreetingStep(data).output == [Version, MethodUserPass]
    ensures GreetingStep(data).next != AwaitAuth ==>
      GreetingStep(data) == StepResult(Closed, [Version, NoAcceptableMethods])
  {
  }

  // ----- Username/password: VER ULEN UNAME PLEN PASSWD -----

  /** The frame is long enough to hold its version, the username and the
      password length byte; the password itself is not checked for length. */
  predicate AuthFrameComplete(d: seq<Byte>)
  {
    |d| >= 2 && d[0] == AuthVersion && var ulen: nat := d[1]; |d| >= 3 + ulen
  }

  function UserField(d: seq<Byte>): seq<Byte>
    requires AuthFrameComplete(d)
  {
    var ulen: nat := d[1];
    d[2..2 + ulen]
  }

  /** The declared password bytes, cut short by the end of the frame. */
  function PasswordField(d: seq<Byte>): seq<Byte>
    requires AuthFrameComplete(d)
  {
    var ulen: nat := d[1];
    var plen: nat := d[2 + ulen];
    Slice(d, 3 + ulen, 3 + ulen + plen)
  }

  /** The authentication handler: it either moves on to the request, having
      answered success, or closes after answering failure or nothing. */
  function AuthStep(cfg: Config, d: seq<Byte>): (r: StepResult)
    ensures r.next == AwaitRequest || r.next == Closed
    ensures r.next == AwaitRequest <==> r.output == [AuthVersion, AuthSucceeded]
    ensures r.output in {[], [AuthVersion, AuthSucceeded], [AuthVersion, AuthFailed]}
  {
    if !AuthFrameComplete(d) then StepResult(Closed, [])
    else if UserField(d) == cfg.user && PasswordField(d) == cfg.pass then
      StepResult(AwaitRequest, [AuthVersion, AuthSucceeded])
    else StepResult(Closed, [AuthVersion, AuthFailed])
  }

  /** How a client writes its credentials. */
  function AuthFrame(user: seq<Byte>, pass: seq<Byte>): seq<Byte>
    requires |user| < 0x100 && |pass| < 0x100
  {
    [AuthVersion, |user|] + user + [|pass|] + pass
  }

  /** The authentication decision in terms of the frame's bytes: success
      exactly when bytes `[2, 2 + ulen)` are the user and bytes
      `[3 + ulen, min(3 + ulen + plen, length))` the password; a frame too
      short for its username or of another version closes silently; any other
      mismatch writes `[1, 1]` and closes. */
  lemma AuthDecision(cfg: Config, d: seq<Byte>)
    ensures AuthStep(cfg, d).next == AwaitRequest <==>
      && |d| >= 2 && d[0] == AuthVersion
      && var ulen: nat := d[1];
         && |d| >= 3 + ulen
         && d[2..2 + ulen] == cfg.user
         && var plen: nat := d[2 + ulen]; d[3 + ulen..Min(3 + ulen + plen, |d|)] == cfg.pass
    ensures AuthStep(cfg, d).next == AwaitRequest ==> AuthStep(cfg, d).output == [AuthVersion, AuthSucceeded]
    ensures AuthStep(cfg, d).next != AwaitRequest ==> AuthStep(cfg, d).next == Closed
    ensures AuthStep(cfg, d).output == [] <==> !(|d| >= 2 && d[0] == AuthVersion && |d| >= 3 + d[1] as int)
    ensures AuthStep(cfg, d).output in {[], [AuthVersion, AuthSucceeded], [AuthVersion, AuthFailed]}
  {
  }

  /** A frame a client writes is accepted exactly when its credentials are
      the configured ones. */
  lemma AuthOfEncodedCredentials(cfg: Config, user: seq<Byte>, pass: seq<Byte>)
    requires |user| < 0x100 && |pass| < 0x100
    ensures AuthStep(cfg, AuthFrame(user, pass)).next == AwaitRequest <==> user == cfg.user && pass == cfg.pass
    ensures AuthStep(cfg, AuthFrame(user, pass)).output ==
      if user == cfg.user && pass == cfg.pass then [AuthVersion, AuthSucceeded] else [AuthVersion, AuthFailed]
  {
  }

  /** The password length byte may promise more bytes than the frame holds:
      the comparison uses whatever is there, so a frame that declares one
      byte too many but carries the right password is accepted. */
  lemma AuthAcceptsTruncatedPassword(cfg: Config)
    requires |cfg.user| < 0x100 && |cfg.pass| < 0xFF
    ensures AuthStep(cfg, [AuthVersion, |cfg.user|] + cfg.user + [|cfg.pass| + 1] + cfg.pass).next == AwaitRequest
  {
  }

  // ----- Request and connection -----

  /** The request handler: it either moves on to connecting, writing
      nothing, or closes, writing nothing or one error reply a client can
      read. */
  function RequestStep(b: seq<Byte>): (r: StepResult)
    ensures r.next.Connecting? || r.next == Closed
    ensures r.next.Connecting? <==> RequestOutcomeOf(b).Connect?
    ensures r.output == [] || (r.next == Closed && ParseReply(r.output).Some? && ParseReply(r.output).value.code != Succeeded)
  {
    match RequestOutcomeOf(b)
    case SilentClose => StepResult(Closed, [])
    case Reject(code) => StepResult(Closed, ErrorReply(code))
    case Connect(dest) => StepResult(Connecting(dest), [])
  }

  /** A request shorter than seven bytes or of another version closes the
      session and writes nothing. */
  lemma MalformedRequestIsSilent(b: seq<Byte>)
    requires |b| < MinRequestLength || b[0] != Version
    ensures RequestStep(b) == StepResult(Closed, [])
  {
  }

  /** Every request either moves on to connecting with nothing written, or
      closes: a malformed request with nothing written, and every rejected
      request with the zero-filled error reply for its code. */
  lemma RequestReplies(b: seq<Byte>)
    ensures RequestOutcomeOf(b).SilentClose? ==> RequestStep(b) == StepResult(Closed, [])
    ensures RequestOutcomeOf(b).Reject? ==>
      RequestStep(b) == StepResult(Closed, ErrorReply(RequestOutcomeOf(b).code))
    ensures RequestStep(b).next.Connecting? || RequestStep(b).next == Closed
    ensures RequestStep(b).next.Connecting? ==>
      RequestStep(b).output == [] && RequestOutcomeOf(b) == Connect(RequestStep(b).next.dest)
    ensures RequestStep(b).output != [] ==>
      exists code :: RequestOutcomeOf(b) == Reject(code) &&
        RequestStep(b).output == [Version, code, 0, 1, 0, 0, 0, 0, 0, 0]
  {
  }

  /** What name resolution and the outbound connection produced. */
  datatype Upstream = Refused | Established(local: Octets, localPort: Port)

  /** The end of the request stage: a domain that does not resolve is "host
      unreachable", a failed connection "connection refused", and a connection
      a success reply carrying its local address and port. `lookup` is only
      consulted for a domain. */
  function ConnectStep(dest: Destination, lookup: Option<Octets>, upstream: Upstream): (r: StepResult)
    ensures ParseReply(r.output).Some?
    ensures r.next == Relaying || r.next == Closed
    ensures r.next == Relaying <==> ParseReply(r.output).value.code == Succeeded
  {
    if dest.host.DomainHost? && lookup.None? then StepResult(Closed, ErrorReply(HostUnreachable))
    else match upstream
      case Refused => StepResult(Closed, ErrorReply(ConnectionRefused))
      case Established(local, localPort) => StepResult(Relaying, ReplyFrame(Succeeded, local, localPort))
  }

  /** The reply to the connection attempt: the tunnel opens exactly when the
      connection was established (after a successful lookup for a domain),
      and the success reply carries the outbound socket's local address and
      port. */
  lemma ConnectOutcome(dest: Destination, lookup: Option<Octets>, upstream: Upstream)
    ensures ParseReply(ConnectStep(dest, lookup, upstream).output).Some?
    ensures ConnectStep(dest, lookup, upstream).next == Relaying <==>
      upstream.Established? && !(dest.host.DomainHost? && lookup.None?)
    ensures ConnectStep(dest, lookup, upstream).next == Relaying ==>
      ParseReply(ConnectStep(dest, lookup, upstream).output).value
        == ReplyFields(Succeeded, upstream.local, upstream.localPort)
  {
    if upstream.Established? && !(dest.host.DomainHost? && lookup.None?) {
      ParseBuiltReply(Succeeded, upstream.local, upstream.localPort);
    }
  }

  /** A failed connection attempt: a domain that does not resolve gets "host
      unreachable", any other failure "connection refused", both with a
      zero-filled address and port. */
  lemma ConnectFailureReplies(dest: Destination, lookup: Option<Octets>, upstream: Upstream)
    ensures ParseReply(ConnectStep(dest, lookup, upstream).output).value.code == HostUnreachable <==>
      dest.host.DomainHost? && lookup.None?
    ensures ParseReply(ConnectStep(dest, lookup, upstream).output).value.code == ConnectionRefused <==>
      !(dest.host.DomainHost? && lookup.None?) && upstream.Refused?
    ensures ConnectStep(dest, lookup, upstream).next == Closed ==>
      && ParseReply(ConnectStep(dest, lookup, upstream).output).value.bound == Unspecified
      && ParseReply(ConnectStep(dest, lookup, upstream).output).value.port == 0
  {
    if dest.host.DomainHost? && lookup.None? {
      ParseBuiltReply(HostUnreachable, Unspecified, 0);
    } else if upstream.Refused? {
      ParseBuiltReply(ConnectionRefused, Unspecified, 0);
    } else {
      ParseBuiltReply(Succeeded, upstream.local, upstream.localPort);
    }
  }

  // ----- The session -----

  /** One frame handled by the handler registered for the current stage; a
      session never goes back to an earlier stage. */
  function Step(cfg: Config, s: Stage, frame: seq<Byte>): (r: StepResult)
    requires s.AwaitingFrame()
    ensures r.next.Rank() > s.Rank()
  {
    match s
    case AwaitGreeting => GreetingStep(frame)
    case AwaitAuth => AuthStep(cfg, frame)
    case AwaitRequest => RequestStep(frame)
  }

  /** Frames fed one by one, from stage `s`, until a stage that no longer
      waits for a frame. */
  function Run(cfg: Config, s: Stage, frames: seq<seq<Byte>>): (r: StepResult)
    ensures r.next.Rank() >= s.Rank()
    ensures r.next == s <==> frames == [] || !s.AwaitingFrame()
    decreases |frames|
  {
    if frames == [] || !s.AwaitingFrame() then StepResult(s, [])
    else
      var first := Step(cfg, s, frames[0]);
      var rest := Run(cfg, first.next, frames[1..]);
      StepResult(rest.next, first.output + rest.output)
  }

  /** Each handler is registered once, so a session handles at most one
      frame per remaining waiting stage: frames after those are never read
      by the handshake. */
  lemma {:induction false} RunReadsAtMostThreeFrames(cfg: Config, s: Stage, frames: seq<seq<Byte>>)
    requires s.Rank() <= 3
    ensures Run(cfg, s, frames) == Run(cfg, s, frames[..Min(3 - s.Rank(), |frames|)])
    decreases |frames|
  {
    var n := Min(3 - s.Rank(), |frames|);
    if frames != [] && s.AwaitingFrame() {
      var first := Step(cfg, s, frames[0]);
      var prefix := frames[..n];
      assert prefix != [] && prefix[0] == frames[0];
      if first.next.AwaitingFrame() {
        RunReadsAtMostThreeFrames(cfg, first.next, frames[1..]);
        assert prefix[1..] == frames[1..][..Min(3 - first.next.Rank(), |frames| - 1)];
      }
    }
  }

  /** A session started from a greeting reaches the connection attempt only
      through the whole handshake: the greeting offered username/password,
      the second frame carried the configured credentials, the third was a
      CONNECT request for the destination, and the client has been sent
      exactly `[5, 2]` and `[1, 0]`. */
  lemma {:induction false} ConnectingOnlyAfterAuthentication(cfg: Config, frames: seq<seq<Byte>>)
    requires Run(cfg, AwaitGreeting, frames).next.Connecting?
    ensures |frames| >= 3
    ensures |frames[0]| >= 2 && frames[0][0] == Version && MethodUserPass in OfferedMethods(frames[0])
    ensures AuthFrameComplete(frames[1]) && UserField(frames[1]) == cfg.user && PasswordField(frames[1]) == cfg.pass
    ensures RequestOutcomeOf(frames[2]) == Connect(Run(cfg, AwaitGreeting, frames).next.dest)
    ensures Run(cfg, AwaitGreeting, frames).output == [Version, MethodUserPass, AuthVersion, AuthSucceeded]
  {
    var r := Run(cfg, AwaitGreeting, frames);
    assert frames != [];
    var g := GreetingStep(frames[0]);
    var r1 := Run(cfg, g.next, frames[1..]);
    assert r == StepResult(r1.next, g.output + r1.output);
    assert g.next == AwaitAuth;
    var a := AuthStep(cfg, frames[1]);
    var r2 := Run(cfg, a.next, frames[2..]);
    assert frames[1..][1..] == frames[2..];
    assert r1 == StepResult(r2.next, a.output + r2.output);
    assert a.next == AwaitRequest;
    var q := RequestStep(frames[2]);
    var r3 := Run(cfg, q.next, frames[3..]);
    assert frames[2..][1..] == frames[3..];
    assert r2 == StepResult(r3.next, q.output + r3.output);
    assert q.next.Connecting?;
    assert r3 == StepResult(q.next, []);
  }

  /** Three frames that each pass their stage take a session from the
      greeting to the connection attempt. */
  lemma {:induction false} ThreeAcceptedFrames(cfg: Config, greeting: seq<Byte>, auth: seq<Byte>, request: seq<Byte>)
    requires GreetingStep(greeting).next == AwaitAuth
    requires AuthStep(cfg, auth).next == AwaitRequest
    requires RequestStep(request).next.Connecting?
    ensures Run(cfg, AwaitGreeting, [greeting, auth, request])
      == StepResult(RequestStep(request).next, GreetingStep(greeting).output + AuthStep(cfg, auth).output)
  {
    var frames := [greeting, auth, request];
    assert frames[1..] == [auth, request] && frames[1..][1..] == [request] && [request][1..] == [];
    var q := RequestStep(request);
    assert Run(cfg, AwaitRequest, [request]) == StepResult(q.next, q.output + Run(cfg, q.next, []).output);
  }

  /** The handshake a well-behaved client performs, with the configured
      credentials and a CONNECT request, reaches the connection attempt for
      its destination. */
  lemma {:induction false} HandshakeReachesConnect(cfg: Config, methods: seq<Byte>, dest: Destination)
    requires |methods| < 0x100 && MethodUserPass in methods
    requires |cfg.user| < 0x100 && |cfg.pass| < 0x100
    requires Encodable(dest)
    ensures Run(cfg, AwaitGreeting,
                [[Version, |methods|] + methods, AuthFrame(cfg.user, cfg.pass), EncodeRequest(CmdConnect, dest)])
      == StepResult(Connecting(dest), [Version, MethodUserPass, AuthVersion, AuthSucceeded])
  {
    var greeting := [Version, |methods|] + methods;
    assert OfferedMethods(greeting) == methods;
    AuthOfEncodedCredentials(cfg, cfg.user, cfg.pass);
    ConnectRoundTrip(dest);
    ThreeAcceptedFrames(cfg, greeting, AuthFrame(cfg.user, cfg.pass), EncodeRequest(CmdConnect, dest));
  }
}
