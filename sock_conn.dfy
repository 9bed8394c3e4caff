/**
 * One SOCKS5 client connection as pkg/proxy/socks5/sock_conn.go drives it:
 * the method-selection handshake, the optional username/password
 * sub-negotiation, the connect request, the reply carrying the local
 * address of the outgoing connection, and Close.
 *
 * The socket traffic and the operating system's answers are the fields of
 * a `Peer`; the connection records the replies it managed to write in
 * `sent`. The copy goroutines are left out: `copying` says they were
 * started.
 */
module SockConns {
  import opened Wrappers
  import opened Text
  import opened Net
  import opened SockFrames
  import opened SockAuths

  /** `CMD_MAP`: the network name of a command, "" for an absent key. */
  function CmdName(cmd: Byte): string
  {
    if cmd == CmdTcp then "tcp" else if cmd == CmdBind then "ftp" else if cmd == CmdUdp then "udp" else ""
  }

  /**
   * What the client sends and what the system answers during Start: the
   * frame each read delivers (`None` when the 5-second context expires
   * first), the error of each reply write, the text of an IPv6 address,
   * the result of resolving the destination, and the local address of the
   * dialled TCP or listening UDP connection (or the error that replaced it).
   */
  datatype Peer = Peer(
    greeting: Option<seq<Byte>>, greetingReplyErr: Error,
    authReq: Option<seq<Byte>>, authReplyErr: Error,
    instruction: Option<seq<Byte>>, ipv6Text: string, resolveErr: Error,
    tcpDial: Result<string>, udpListen: Result<string>, instructionReplyErr: Error)

  /**
   * The sockConn fields the model tracks. `dstConn` holds the local address
   * of the outgoing connection when there is one; `sent` lists the replies
   * written to the client.
   */
  datatype ConnState = ConnState(authType: Byte, dstNetwork: string, dstAddr: Option<string>,
                                 dstConn: Option<string>, dstClosed: bool, closed: bool,
                                 closeChClosed: bool, srcClosed: bool, copying: bool,
                                 sent: seq<seq<Byte>>)

  function NewConnState(): ConnState
  {
    ConnState(0, "", None, None, false, false, false, false, false, [])
  }

  function ZeroFields(): Fields
  {
    Fields(0, 0, 0, [], 0, 0, 0, None)
  }

  // ---------------------------------------------------------------------
  // Method selection and the handshake (sock_conn.go:92-125)
  // ---------------------------------------------------------------------

  /**
   * The method the server picks: USERPASS when an authenticator is set and
   * the client offers it; otherwise NONE, including when nothing acceptable
   * was offered.
   */
  function MethodChoice(methods: seq<Byte>, hasAuth: bool): (m: Byte)
  {
    if hasAuth && MethodUserPass in methods then MethodUserPass else MethodNone
  }

  /** The choice is never 0xFF "no acceptable methods", whatever the client offers. */
  lemma MethodChoiceNeverRefuses(methods: seq<Byte>, hasAuth: bool)
    ensures MethodChoice(methods, hasAuth) in {MethodNone, MethodUserPass}
    ensures MethodChoice(methods, hasAuth) != MethodNotSupported
    ensures MethodChoice(methods, hasAuth) == MethodNone <==> !(hasAuth && MethodUserPass in methods)
  {
  }

  /** The `for ... break` loop of handShake: the first offered method the server accepts. */
  method SelectMethod(methods: seq<Byte>, hasAuth: bool) returns (m: Byte)
    ensures m == MethodChoice(methods, hasAuth)
  {
    m := MethodNone;
    var i := 0;
    while i < |methods|
      invariant 0 <= i <= |methods|
      invariant m == MethodNone
      invariant !(hasAuth && MethodUserPass in methods[..i])
    {
      if methods[i] == MethodNone && !hasAuth {
        m := MethodNone;
        break;
      }
      if methods[i] == MethodUserPass && hasAuth {
        m := MethodUserPass;
        break;
      }
      i := i + 1;
    }
  }

  function HandShakeErr(greeting: Option<seq<Byte>>, replyErr: Error): Error
  {
    if HandShakeError(greeting).Some? then HandShakeError(greeting) else replyErr
  }

  /** authType takes the chosen method only once the reply was written. */
  function AfterHandShakePhase(s: ConnState, hasAuth: bool, greeting: Option<seq<Byte>>, replyErr: Error): ConnState
  {
    if HandShakeError(greeting).Some? || replyErr.Some? then s
    else
      var m := MethodChoice(greeting.value[2..], hasAuth);
      s.(authType := m, sent := s.sent + [[DefaultVersion, m]])
  }

  /**
   * A failed read or reply write leaves the state alone; otherwise the
   * reply is [5, chosen method] and authType is that method.
   */
  lemma HandShakePhaseEffect(s: ConnState, hasAuth: bool, greeting: Option<seq<Byte>>, replyErr: Error)
    ensures HandShakeErr(greeting, replyErr).Some? <==> AfterHandShakePhase(s, hasAuth, greeting, replyErr) == s
    ensures HandShakeErr(greeting, replyErr).None? ==>
      var t := AfterHandShakePhase(s, hasAuth, greeting, replyErr);
      t.authType == MethodChoice(greeting.value[2..], hasAuth) &&
      t.sent == s.sent + [[5, t.authType]] && t.(authType := s.authType, sent := s.sent) == s
  {
    var t := AfterHandShakePhase(s, hasAuth, greeting, replyErr);
    if HandShakeErr(greeting, replyErr).None? {
      assert |t.sent| == |s.sent| + 1;
    }
  }

  // ---------------------------------------------------------------------
  // The username/password sub-negotiation (sock_conn.go:128-145)
  // ---------------------------------------------------------------------

  /**
   * How handleAuth ends: the read error, or else the reply write's error,
   * never the verdict; or the panic of reading the request.
   */
  function AuthPhaseErr(authReq: Option<seq<Byte>>, replyErr: Error): (r: Completion<Error>)
    ensures r.Panic? <==> authReq.Some? && AuthReqPanics(authReq.value)
  {
    match ParseAuthReq(authReq)
    case Panic(why) => Panic(why)
    case Normal(req) => Normal(if req.1.Some? then req.1 else replyErr)
  }

  /** The status reply is recorded only when the request was read and the reply written. */
  function AfterAuthPhase(s: ConnState, a: SockAuth, authReq: Option<seq<Byte>>, replyErr: Error): ConnState
  {
    match ParseAuthReq(authReq)
    case Panic(_) => s
    case Normal(r) =>
      if r.1.Some? || replyErr.Some? then s
      else s.(sent := s.sent + [[DefaultVersion, AuthStatus(Auth(a, r.0.value.user, r.0.value.password))]])
  }

  // ---------------------------------------------------------------------
  // The connect request (sock_conn.go:148-230)
  // ---------------------------------------------------------------------

  /** How parseProxyInstruction ends: its error, or the panic of reading the request. */
  function ParseInstructionErr(instr: Option<seq<Byte>>, ipv6Text: string, resolveErr: Error): (r: Completion<Error>)
    ensures r.Panic? <==> instr.Some? && InstructionPanics(instr.value)
  {
    match InstructionError(instr)
    case Panic(why) => Panic(why)
    case Normal(e) =>
      if e.Some? then Normal(e)
      else
        var cmd := instr.value[1];
        if cmd == CmdTcp || cmd == CmdUdp then Normal(resolveErr)
        else Normal(Some("unsupported cmd. dstNetwork:" + CmdName(cmd)))
  }

  /** dstNetwork and the resolved destination "ADDR:PORT" after parseProxyInstruction. */
  function AfterParseInstruction(s: ConnState, instr: Option<seq<Byte>>, ipv6Text: string, resolveErr: Error): ConnState
  {
    if InstructionError(instr) != Normal(None) then s
    else
      InstructionAccepts(ZeroFields(), instr.value, ipv6Text);
      var f := AfterInstruction(ZeroFields(), instr, ipv6Text);
      if f.cmd == CmdTcp || f.cmd == CmdUdp then
        s.(dstNetwork := CmdName(f.cmd), dstAddr := if resolveErr.None? then Some(DstString(f.dst.value)) else None)
      else s
  }

  /**
   * CMD 1 selects "tcp" and CMD 3 "udp", and then only resolution can fail;
   * BIND is refused with the network name "ftp" in the message.
   */
  lemma CmdMapping(s: ConnState, instr: seq<Byte>, ipv6Text: string, resolveErr: Error)
    requires InstructionError(Some(instr)) == Normal(None)
    ensures instr[1] == CmdTcp ==>
      ParseInstructionErr(Some(instr), ipv6Text, resolveErr) == Normal(resolveErr) &&
      AfterParseInstruction(s, Some(instr), ipv6Text, resolveErr).dstNetwork == "tcp"
    ensures instr[1] == CmdUdp ==>
      ParseInstructionErr(Some(instr), ipv6Text, resolveErr) == Normal(resolveErr) &&
      AfterParseInstruction(s, Some(instr), ipv6Text, resolveErr).dstNetwork == "udp"
    ensures instr[1] == CmdBind ==>
      ParseInstructionErr(Some(instr), ipv6Text, resolveErr) == Normal(Some("unsupported cmd. dstNetwork:ftp")) &&
      AfterParseInstruction(s, Some(instr), ipv6Text, resolveErr) == s
  {
    InstructionAccepts(ZeroFields(), instr, ipv6Text);
    var f := AfterInstruction(ZeroFields(), Some(instr), ipv6Text);
    assert f.cmd == instr[1];
    assert "unsupported cmd. dstNetwork:" + CmdName(CmdBind) == "unsupported cmd. dstNetwork:ftp";
  }

  /** What connFunc returns: the local IP as text bytes and the local port, or an error. */
  datatype ConnReply = ConnReply(ipv4: seq<Byte>, port: seq<Byte>, err: Error)

  /** dstConn after connFunc's dial and listen steps; a failed step leaves no usable connection. */
  function DialedConn(network: string, dstConn: Option<string>, tcpDial: Result<string>, udpListen: Result<string>): Option<string>
  {
    var tcp := Contains(network, "tcp");
    var udp := Contains(network, "udp");
    if tcp && tcpDial.Err? then None
    else
      var c := if tcp then Some(tcpDial.value) else dstConn;
      if udp && udpListen.Err? then None
      else if udp then Some(udpListen.value) else c
  }

  /** The local address split into the reply's address bytes and big-endian port. */
  function LocalAddrReply(localAddr: string): ConnReply
  {
    match SplitHostPort(localAddr)
    case Err(e) => ConnReply([], [], Some("get local host and port failed. err:" + e))
    case Ok(hp) => ConnReply(AsciiBytes(hp.host), PutUint16(ParseUint16(hp.port)), None)
  }

  /** What connFunc returns. */
  function DialReply(network: string, dstConn: Option<string>, tcpDial: Result<string>, udpListen: Result<string>): ConnReply
  {
    var tcp := Contains(network, "tcp");
    var udp := Contains(network, "udp");
    if tcp && tcpDial.Err? then ConnReply([], [], Some(tcpDial.error))
    else if udp && udpListen.Err? then ConnReply([], [], Some(udpListen.error))
    else if DialedConn(network, dstConn, tcpDial, udpListen).None? then ConnReply([], [], Some("unsupported dstNetwork"))
    else LocalAddrReply(if udp then udpListen.value else if tcp then tcpDial.value else "")
  }

  /** connFunc changes only dstConn. */
  function DialOutcome(s: ConnState, tcpDial: Result<string>, udpListen: Result<string>): (ConnState, ConnReply)
  {
    (s.(dstConn := DialedConn(s.dstNetwork, s.dstConn, tcpDial, udpListen)),
     DialReply(s.dstNetwork, s.dstConn, tcpDial, udpListen))
  }

  /**
   * For a TCP destination whose local address is "host:port", connFunc
   * returns the host's text bytes and the port as two big-endian bytes.
   */
  lemma ConnFuncEncodesLocal(s: ConnState, host: string, port: nat, udpListen: Result<string>)
    requires s.dstNetwork == "tcp" && NoBrackets(host) && IsAscii(host) && port < 65536
    ensures var local := JoinHostPort(host, NatString(port));
      DialOutcome(s, Ok(local), udpListen) ==
        (s.(dstConn := Some(local)), ConnReply(AsciiBytes(host), PutUint16(port), None))
  {
    assert HasPrefix("tcp", "tcp");
    assert !Contains("tcp", "udp") by {
      forall i | 0 <= i <= 0 ensures !HasPrefix("tcp"[i..], "udp") {
        assert "tcp"[0..][..3] == "tcp";
      }
    }
    var p := NatString(port);
    assert '[' !in p && ']' !in p && ':' !in p by {
      forall i | 0 <= i < |p| ensures IsDigit(p[i]) {}
    }
    SplitJoin(host, p);
    ParseUint16OfNat(port);
  }

  /** What connFunc's error turns into: REP 1 in the reply, with no address bytes. */
  lemma DialFailureReply(s: ConnState, msg: string, udpListen: Result<string>)
    requires s.dstNetwork == "tcp"
    ensures var r := DialOutcome(s, Err(msg), udpListen).1;
      r.err == Some(msg) && [DefaultVersion, Rep(r.err.Some?), RsvDefault, AtypIPv4] + r.ipv4 + r.port == [5, 1, 0, 1]
  {
    assert HasPrefix("tcp"[0..], "tcp");
  }

  /**
   * The instruction phase: parse, connect, reply. The reply write's error
   * is the phase's error; connFunc's error only sets REP. A panic while
   * parsing ends the phase with the state as it was.
   */
  function InstructionPhase(s: ConnState, p: Peer): (ConnState, Completion<Error>)
  {
    var e1 := ParseInstructionErr(p.instruction, p.ipv6Text, p.resolveErr);
    var s1 := AfterParseInstruction(s, p.instruction, p.ipv6Text, p.resolveErr);
    if e1 != Normal(None) then (s1, e1)
    else
      var d := DialOutcome(s1, p.tcpDial, p.udpListen);
      var reply := [DefaultVersion, Rep(d.1.err.Some?), RsvDefault, AtypIPv4] + d.1.ipv4 + d.1.port;
      (if p.instructionReplyErr.None? then d.0.(sent := d.0.sent + [reply]) else d.0, Normal(p.instructionReplyErr))
  }

  /**
   * The instruction phase fails only on the request itself, its resolution,
   * or the reply write, and panics only on a request whose port read panics.
   */
  function InstructionPhaseErr(p: Peer): (r: Completion<Error>)
    ensures r.Panic? <==> p.instruction.Some? && InstructionPanics(p.instruction.value)
  {
    var e := ParseInstructionErr(p.instruction, p.ipv6Text, p.resolveErr);
    if e != Normal(None) then e else Normal(p.instructionReplyErr)
  }

  // ---------------------------------------------------------------------
  // Close (sock_conn.go:303-321)
  // ---------------------------------------------------------------------

  /** The first Close closes closeCh, sets closed, closes dst if any and then src; later ones do nothing. */
  function CloseSpec(s: ConnState): ConnState
  {
    if s.closed then s
    else s.(closeChClosed := true, closed := true, dstClosed := s.dstClosed || s.dstConn.Some?, srcClosed := true)
  }

  lemma CloseIdempotent(s: ConnState)
    ensures CloseSpec(CloseSpec(s)) == CloseSpec(s)
    ensures CloseSpec(s).closed && CloseSpec(s).srcClosed == (s.srcClosed || !s.closed)
    ensures CloseSpec(s).sent == s.sent
  {
  }

  // ---------------------------------------------------------------------
  // Start (sock_conn.go:59-89)
  // ---------------------------------------------------------------------

  /**
   * The state after Start and how it ends: every failing phase closes the
   * connection; a panic in a phase ends Start there, with nothing closed,
   * since Start has no deferred call and no recover.
   */
  function StartSpec(s: ConnState, auth: Option<SockAuth>, p: Peer): (ConnState, Completion<Error>)
  {
    var e1 := HandShakeErr(p.greeting, p.greetingReplyErr);
    var s1 := AfterHandShakePhase(s, auth.Some?, p.greeting, p.greetingReplyErr);
    if e1.Some? then (CloseSpec(s1), Normal(e1))
    else
      var runAuth := s1.authType == MethodUserPass && auth.Some?;
      var e2 := if runAuth then AuthPhaseErr(p.authReq, p.authReplyErr) else Normal(None);
      var s2 := if runAuth then AfterAuthPhase(s1, auth.value, p.authReq, p.authReplyErr) else s1;
      if e2.Panic? then (s2, e2)
      else if e2.value.Some? then (CloseSpec(s2), e2)
      else
        var r := InstructionPhase(s2, p);
        if r.1.Panic? then r
        else if r.1.value.Some? then (CloseSpec(r.0), r.1) else (r.0.(copying := true), Normal(None))
  }

  /**
   * Start either fails and leaves the connection closed with no copy loop
   * started, or succeeds with the copy loops running and the connection
   * open, or panics and leaves it open with no copy loop.
   */
  lemma StartClosesOnFailure(s: ConnState, auth: Option<SockAuth>, p: Peer)
    requires !s.closed && !s.copying
    ensures var r := StartSpec(s, auth, p);
      (r.1.Normal? && r.1.value.Some? ==> r.0.closed && r.0.srcClosed && !r.0.copying) &&
      (r.1 == Normal(None) ==> r.0.copying && !r.0.closed) &&
      (r.1.Panic? ==> !r.0.closed && !r.0.copying)
  {
    var s1 := AfterHandShakePhase(s, auth.Some?, p.greeting, p.greetingReplyErr);
    assert Flags(s1) == Flags(s) by { HandShakeKeepsFlags(s, auth.Some?, p.greeting, p.greetingReplyErr); }
    if HandShakeErr(p.greeting, p.greetingReplyErr).None? {
      var runAuth := s1.authType == MethodUserPass && auth.Some?;
      var e2 := if runAuth then AuthPhaseErr(p.authReq, p.authReplyErr) else Normal(None);
      var s2 := if runAuth then AfterAuthPhase(s1, auth.value, p.authReq, p.authReplyErr) else s1;
      assert Flags(s2) == Flags(s) by {
        if runAuth {
          AuthKeepsFlags(s1, auth.value, p.authReq, p.authReplyErr);
        }
      }
      if e2 == Normal(None) {
        var r := InstructionPhase(s2, p);
        InstructionKeepsFlags(s2, p);
        assert StartSpec(s, auth, p) ==
          if r.1.Panic? then r else if r.1.value.Some? then (CloseSpec(r.0), r.1) else (r.0.(copying := true), Normal(None));
      } else {
        assert StartSpec(s, auth, p) == if e2.Panic? then (s2, e2) else (CloseSpec(s2), e2);
      }
    }
  }

  /** The flags Start and Close change. */
  function Flags(s: ConnState): (bool, bool, bool)
  {
    (s.closed, s.copying, s.srcClosed)
  }

  lemma HandShakeKeepsFlags(s: ConnState, hasAuth: bool, greeting: Option<seq<Byte>>, replyErr: Error)
    ensures Flags(AfterHandShakePhase(s, hasAuth, greeting, replyErr)) == Flags(s)
  {
  }

  lemma AuthKeepsFlags(s: ConnState, a: SockAuth, authReq: Option<seq<Byte>>, replyErr: Error)
    ensures Flags(AfterAuthPhase(s, a, authReq, replyErr)) == Flags(s)
  {
  }

  lemma InstructionKeepsFlags(s: ConnState, p: Peer)
    ensures Flags(InstructionPhase(s, p).0) == Flags(s)
  {
    var s1 := AfterParseInstruction(s, p.instruction, p.ipv6Text, p.resolveErr);
    ParseKeepsFlags(s, p);
  }

  lemma ParseKeepsFlags(s: ConnState, p: Peer)
    ensures Flags(AfterParseInstruction(s, p.instruction, p.ipv6Text, p.resolveErr)) == Flags(s)
  {
  }

  lemma InstructionPhaseFacts(s: ConnState, p: Peer)
    ensures InstructionPhase(s, p).1 == InstructionPhaseErr(p)
    ensures |InstructionPhase(s, p).0.sent| >= |s.sent| && InstructionPhase(s, p).0.sent[..|s.sent|] == s.sent
  {
    var s1 := AfterParseInstruction(s, p.instruction, p.ipv6Text, p.resolveErr);
    assert s1.sent == s.sent;
    if ParseInstructionErr(p.instruction, p.ipv6Text, p.resolveErr) == Normal(None) {
      var d := DialOutcome(s1, p.tcpDial, p.udpListen);
      assert d.0.sent == s.sent;
    }
  }

  /**
   * The sub-negotiation runs exactly when an authenticator is set and the
   * client offered USERPASS: otherwise the auth request is never read, and
   * a client that offers only NONE to a server with credentials proceeds
   * unauthenticated.
   */
  lemma AuthRunsOnlyWhenOffered(s: ConnState, auth: Option<SockAuth>, p: Peer, authReq: Option<seq<Byte>>, authReplyErr: Error)
    requires HandShakeErr(p.greeting, p.greetingReplyErr).None?
    requires !(auth.Some? && MethodUserPass in p.greeting.value[2..])
    ensures StartSpec(s, auth, p) == StartSpec(s, auth, p.(authReq := authReq, authReplyErr := authReplyErr))
    ensures StartSpec(s, auth, p).1 == InstructionPhaseErr(p)
  {
  }

  /**
   * A rejected password does not stop Start: once the auth request is read
   * and the reply written, the outcome is the instruction phase's, and the
   * client is told the verdict in the second reply.
   */
  lemma AuthVerdictIgnored(s: ConnState, a: SockAuth, p: Peer)
    requires HandShakeErr(p.greeting, p.greetingReplyErr).None? && MethodUserPass in p.greeting.value[2..]
    requires AuthPhaseErr(p.authReq, p.authReplyErr) == Normal(None)
    ensures StartSpec(s, Some(a), p).1 == InstructionPhaseErr(p)
    ensures var req := ParseAuthReq(p.authReq).value.0.value;
      |StartSpec(s, Some(a), p).0.sent| >= |s.sent| + 2 &&
      StartSpec(s, Some(a), p).0.sent[|s.sent| + 1] == [DefaultVersion, AuthStatus(Auth(a, req.user, req.password))]
  {
    var s1 := AfterHandShakePhase(s, true, p.greeting, p.greetingReplyErr);
    assert s1.authType == MethodUserPass && s1.sent == s.sent + [[DefaultVersion, MethodUserPass]];
    var s2 := AfterAuthPhase(s1, a, p.authReq, p.authReplyErr);
    var req := ParseAuthReq(p.authReq).value.0.value;
    var status := [DefaultVersion, AuthStatus(Auth(a, req.user, req.password))];
    assert s2.sent == s1.sent + [status];
    InstructionPhaseFacts(s2, p);
    var r := InstructionPhase(s2, p);
    assert StartSpec(s, Some(a), p) ==
      if r.1.Panic? then r else if r.1.value.Some? then (CloseSpec(r.0), r.1) else (r.0.(copying := true), Normal(None));
    assert StartSpec(s, Some(a), p).0.sent == r.0.sent;
    PrefixAt(r.0.sent, s2.sent, |s.sent| + 1);
  }

  /** An entry of a prefix is the entry of the whole sequence. */
  lemma PrefixAt<T>(whole: seq<T>, prefix: seq<T>, k: nat)
    requires |prefix| <= |whole| && whole[..|prefix|] == prefix && k < |prefix|
    ensures whole[k] == prefix[k]
  {
    assert whole[..|prefix|][k] == whole[k];
  }

  /**
   * A destination that cannot be dialled still gives a successful Start:
   * the client receives REP 1 and the copy loops are started.
   */
  lemma DialFailureStillStarts(s: ConnState, auth: Option<SockAuth>, p: Peer)
    requires !s.closed
    requires HandShakeErr(p.greeting, p.greetingReplyErr).None?
    requires !(auth.Some? && MethodUserPass in p.greeting.value[2..])
    requires p.instruction.Some? && InstructionError(p.instruction) == Normal(None) && p.instruction.value[1] == CmdTcp
    requires p.resolveErr.None? && p.tcpDial.Err? && p.instructionReplyErr.None?
    ensures StartSpec(s, auth, p).1 == Normal(None) && StartSpec(s, auth, p).0.copying
    ensures var sent := StartSpec(s, auth, p).0.sent; sent != [] && sent[|sent| - 1] == [5, 1, 0, 1]
  {
    var s1 := AfterHandShakePhase(s, auth.Some?, p.greeting, p.greetingReplyErr);
    CmdMapping(s1, p.instruction.value, p.ipv6Text, p.resolveErr);
    var s2 := AfterParseInstruction(s1, p.instruction, p.ipv6Text, p.resolveErr);
    DialFailureReply(s2, p.tcpDial.error, p.udpListen);
  }

  /**
   * Start panics only on an auth request or a connect request whose
   * parsing panics, and then leaves the connection open with no copy loop.
   */
  lemma StartPanicsOnlyOnFrames(s: ConnState, auth: Option<SockAuth>, p: Peer)
    ensures StartSpec(s, auth, p).1.Panic? ==>
      (p.authReq.Some? && AuthReqPanics(p.authReq.value)) ||
      (p.instruction.Some? && InstructionPanics(p.instruction.value))
  {
  }

  /**
   * A client offering USERPASS to a server with credentials, then sending
   * a non-empty username with an empty password, makes Start panic.
   */
  lemma EmptyPasswordCrashesStart(s: ConnState, a: SockAuth, p: Peer, user: seq<Byte>)
    requires HandShakeErr(p.greeting, p.greetingReplyErr).None? && MethodUserPass in p.greeting.value[2..]
    requires 1 <= |user| < 256 && p.authReq == Some(AuthFrame(user, []))
    ensures StartSpec(s, Some(a), p).1 == Panic(SliceBoundsPanic(|user| + 3, |user| + 2))
    ensures StartSpec(s, Some(a), p).0 == AfterHandShakePhase(s, true, p.greeting, p.greetingReplyErr)
  {
    EmptyPasswordPanics(user);
  }

  /**
   * An IPv4 connect request of nine bytes, its port cut to one byte, makes
   * Start panic once the handshake (and any sub-negotiation) went through.
   */
  lemma ShortPortCrashesStart(s: ConnState, auth: Option<SockAuth>, p: Peer)
    requires HandShakeErr(p.greeting, p.greetingReplyErr).None?
    requires !(auth.Some? && MethodUserPass in p.greeting.value[2..])
    requires p.instruction.Some? && InstructionHeaderOk(p.instruction.value)
    requires p.instruction.value[3] == AtypIPv4 && |p.instruction.value| == 9
    ensures StartSpec(s, auth, p).1 == Panic(ShortPortPanic(1))
    ensures !StartSpec(s, auth, p).0.closed <==> !s.closed
  {
    InstructionIPv4(ZeroFields(), p.instruction.value, p.ipv6Text);
  }

  /**
   * A sockConn. `connID` and `auth` are fixed when it is created; the
   * other fields follow the phases of Start and Close.
   */
  class SockConn {
    const connID: nat
    const auth: Option<SockAuth>
    var authType: Byte
    var dstNetwork: string
    var dstAddr: Option<string>
    var dstConn: Option<string>
    var dstClosed: bool
    var closed: bool
    var closeChClosed: bool
    var srcClosed: bool
    var copying: bool
    var sent: seq<seq<Byte>>

    function State(): ConnState
      reads this
    {
      ConnState(authType, dstNetwork, dstAddr, dstConn, dstClosed, closed, closeChClosed, srcClosed, copying, sent)
    }

    /** `newSockConn`: open, nothing negotiated yet. */
    constructor (connID: nat, auth: Option<SockAuth>)
      ensures this.connID == connID && this.auth == auth && State() == NewConnState()
    {
      this.connID := connID;
      this.auth := auth;
      authType, dstNetwork, dstAddr, dstConn, dstClosed := 0, "", None, None, false;
      closed, closeChClosed, srcClosed, copying, sent := false, false, false, false, [];
    }

    method HandShake(greeting: Option<seq<Byte>>, replyErr: Error) returns (err: Error)
      modifies this
      ensures err == HandShakeErr(greeting, replyErr)
      ensures State() == AfterHandShakePhase(old(State()), auth.Some?, greeting, replyErr)
    {
      var req := new SockFrame();
      err := req.ReadHandShake(greeting);
      if err.Some? {
        return;
      }
      var resp := new SockFrame();
      resp.ver := DefaultVersion;
      var m := SelectMethod(req.methods, auth.Some?);
      resp.replyMethod := m;
      var data := resp.WriteHandShake();
      if replyErr.Some? {
        return replyErr;
      }
      sent := sent + [data];
      authType := resp.replyMethod;
    }

    /** `panic` is set when reading the request panics; the state is then unchanged. */
    method HandleAuth(authReq: Option<seq<Byte>>, replyErr: Error) returns (err: Error, panic: Option<string>)
      requires auth.Some?
      modifies this
      ensures Ended(err, panic) == AuthPhaseErr(authReq, replyErr)
      ensures State() == AfterAuthPhase(old(State()), auth.value, authReq, replyErr)
    {
      var frame := new SockFrame();
      var req;
      req, err, panic := frame.ReadAuthReq(authReq);
      if panic.Some? || err.Some? {
        return;
      }
      var isAuthSuccess := Auth(auth.value, req.value.user, req.value.password);
      var data := frame.WriteAuthResp(isAuthSuccess);
      if replyErr.None? {
        sent := sent + [data];
      }
      return replyErr, None;
    }

    /** `panic` is set when reading the request panics; the state is then unchanged. */
    method ParseProxyInstruction(instr: Option<seq<Byte>>, ipv6Text: string, resolveErr: Error) returns (err: Error, panic: Option<string>)
      modifies this
      ensures Ended(err, panic) == ParseInstructionErr(instr, ipv6Text, resolveErr)
      ensures State() == AfterParseInstruction(old(State()), instr, ipv6Text, resolveErr)
    {
      var frame := new SockFrame();
      err, panic := frame.ReadInstruction(instr, ipv6Text);
      if panic.Some? || err.Some? {
        return;
      }
      InstructionAccepts(ZeroFields(), instr.value, ipv6Text);
      if frame.cmd == CmdTcp {
        dstNetwork := CmdName(CmdTcp);
        dstAddr := if resolveErr.None? then Some(DstString(frame.dst.value)) else None;
      } else if frame.cmd == CmdUdp {
        dstNetwork := CmdName(CmdUdp);
        dstAddr := if resolveErr.None? then Some(DstString(frame.dst.value)) else None;
      } else {
        return Some("unsupported cmd. dstNetwork:" + CmdName(frame.cmd)), None;
      }
      return resolveErr, None;
    }

    /** connFunc: dial or listen, then the local address as reply bytes. */
    method ConnFunc(tcpDial: Result<string>, udpListen: Result<string>) returns (ipv4: seq<Byte>, port: seq<Byte>, err: Error)
      modifies this
      ensures (State(), ConnReply(ipv4, port, err)) == DialOutcome(old(State()), tcpDial, udpListen)
    {
      var localAddr := "";
      if Contains(dstNetwork, "tcp") {
        if tcpDial.Err? {
          dstConn := None;
          return [], [], Some(tcpDial.error);
        }
        dstConn := Some(tcpDial.value);
        localAddr := tcpDial.value;
      }
      if Contains(dstNetwork, "udp") {
        if udpListen.Err? {
          dstConn := None;
          return [], [], Some(udpListen.error);
        }
        dstConn := Some(udpListen.value);
        localAddr := udpListen.value;
      }
      if dstConn.None? {
        return [], [], Some("unsupported dstNetwork");
      }
      var split := SplitHostPort(localAddr);
      if split.Err? {
        return [], [], Some("get local host and port failed. err:" + split.error);
      }
      var portValue := ParseUint16(split.value.port);
      return AsciiBytes(split.value.host), PutUint16(portValue), None;
    }

    method HandleProxyInstruction(p: Peer) returns (err: Error, panic: Option<string>)
      modifies this
      ensures (State(), Ended(err, panic)) == InstructionPhase(old(State()), p)
    {
      err, panic := ParseProxyInstruction(p.instruction, p.ipv6Text, p.resolveErr);
      if panic.Some? || err.Some? {
        return;
      }
      var ipv4, port, connErr := ConnFunc(p.tcpDial, p.udpListen);
      var frame := new SockFrame();
      var data := frame.WriteInstruction(ipv4, port, connErr.Some?);
      if p.instructionReplyErr.None? {
        sent := sent + [data];
      }
      return p.instructionReplyErr, None;
    }

    /** `srcCloseErr` is what closing the client socket reports. */
    method Close(srcCloseErr: Error) returns (err: Error)
      modifies this
      ensures State() == CloseSpec(old(State()))
      ensures err == if old(closed) then None else srcCloseErr
    {
      if closed {
        return None;
      }
      closeChClosed := true;
      closed := true;
      if dstConn.Some? {
        dstClosed := true;
      }
      srcClosed := true;
      return srcCloseErr;
    }

    /** `panic` is set when a phase panics; Start then stops where it is. */
    method Start(p: Peer) returns (err: Error, panic: Option<string>)
      modifies this
      ensures (State(), Ended(err, panic)) == StartSpec(old(State()), auth, p)
    {
      panic := None;
      err := HandShake(p.greeting, p.greetingReplyErr);
      if err.Some? {
        var _ := Close(None);
        return;
      }
      if authType == MethodUserPass && auth.Some? {
        err, panic := HandleAuth(p.authReq, p.authReplyErr);
        if panic.Some? {
          return;
        }
        if err.Some? {
          var _ := Close(None);
          return;
        }
      }
      err, panic := HandleProxyInstruction(p);
      if panic.Some? {
        return;
      }
      if err.Some? {
        var _ := Close(None);
        return;
      }
      copying := true;
    }
  }
}
