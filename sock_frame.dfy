/**
 * SOCKS5 frames as pkg/proxy/socks5/sock_frame.go reads and writes them:
 * the method-selection greeting and reply, the username/password request
 * and reply, and the connect request and reply of RFC 1928 and RFC 1929,
 * with the code's own departures from those documents.
 *
 * Each `Read*` receives the bytes one `Read` call delivered before the
 * 5-second context expired (`None` when the read failed or the deadline
 * passed first) and assigns the receiver's fields in the order the code
 * does; each `Write*` returns the bytes it hands to the writer.
 */
module SockFrames {
  import opened Wrappers
  import opened Text
  import opened Net

  const DefaultVersion: Byte := 0x05

  const MethodNone: Byte := 0x00
  const MethodGssapi: Byte := 0x01
  const MethodUserPass: Byte := 0x02
  const MethodIana: Byte := 0x03
  const MethodNotSupported: Byte := 0xff

  const CmdTcp: Byte := 0x01
  const CmdBind: Byte := 0x02
  const CmdUdp: Byte := 0x03

  const AtypIPv4: Byte := 0x01
  const AtypDomain: Byte := 0x03
  const AtypIPv6: Byte := 0x04

  const AuthStatusSuccess: Byte := 0x00
  const AuthStatusFailed: Byte := 0x01

  const RepSucceeded: Byte := 0x00
  const RepGeneralFailure: Byte := 0x01
  const RsvDefault: Byte := 0x00

  const IPv4Len := 4
  const IPv6Len := 16

  /** The error of a read whose context expired before any frame arrived. */
  const DeadlineExceeded := "context deadline exceeded"

  /** A Go string made of raw bytes. */
  function BytesToString(b: seq<Byte>): (s: string)
    ensures |s| == |b|
  {
    seq(|b|, i requires 0 <= i < |b| => b[i] as char)
  }

  /** `[]byte(s)`; one byte per character, which is its UTF-8 encoding for ASCII text. */
  function AsciiBytes(s: string): (b: seq<Byte>)
    ensures |b| == |s|
  {
    seq(|s|, i requires 0 <= i < |s| => (s[i] as int) % 256)
  }

  predicate IsAscii(s: string)
  {
    forall i :: 0 <= i < |s| ==> s[i] as int < 128
  }

  /** Converting bytes to a string and back is the identity; so is the converse on ASCII text. */
  lemma BytesStringRoundTrip(b: seq<Byte>, s: string)
    ensures AsciiBytes(BytesToString(b)) == b
    ensures IsAscii(s) ==> BytesToString(AsciiBytes(s)) == s
  {
  }

  /** `fmt.Sprintf("%v", b)` of a byte slice: "[5 1 0]". */
  function FormatBytes(b: seq<Byte>): string
  {
    "[" + Join(seq(|b|, i requires 0 <= i < |b| => NatString(b[i])), " ") + "]"
  }

  /** The DST struct: an address and a 16-bit port. */
  datatype Dst = Dst(addr: string, port: nat)

  /** `DST.String`: "ADDR:PORT" with the port in decimal. */
  function DstString(d: Dst): (s: string)
    ensures HasPrefix(s, d.addr + ":")
  {
    d.addr + ":" + NatString(d.port)
  }

  /**
   * How a Go call ends: it returns a value, or it panics. Nothing in the
   * SOCKS5 package recovers, so a panic ends the whole process.
   */
  datatype Completion<T> = Normal(value: T) | Panic(reason: string)

  /** The completion of a method that returns `value` unless it panicked with `panic`. */
  function Ended<T>(value: T, panic: Option<string>): (r: Completion<T>)
    ensures r.Panic? <==> panic.Some?
  {
    if panic.Some? then Panic(panic.value) else Normal(value)
  }

  /** Go's run-time message for `s[low:high]` with low above high. */
  function SliceBoundsPanic(low: nat, high: nat): string
  {
    "runtime error: slice bounds out of range [" + NatString(low) + ":" + NatString(high) + "]"
  }

  /** Go's run-time message for `binary.BigEndian.Uint16(b)` on fewer than two bytes. */
  function ShortPortPanic(length: nat): string
  {
    "runtime error: index out of range [1] with length " + NatString(length)
  }

  /** The credentials of a username/password request. */
  datatype AuthRequest = AuthRequest(user: string, password: string)

  /** A snapshot of the SockFrame fields the model tracks. */
  datatype Fields = Fields(ver: Byte, cmd: Byte, nmethods: Byte, methods: seq<Byte>, replyMethod: Byte,
                           rsv: Byte, aytp: Byte, dst: Option<Dst>)

  // ---------------------------------------------------------------------
  // Greeting: VER NMETHODS METHODS (pkg/proxy/socks5/sock_frame.go:115-158)
  // ---------------------------------------------------------------------

  /** The second byte is checked against the known method codes, not read as a count. */
  predicate KnownMethod(b: Byte)
  {
    b == MethodUserPass || b == MethodNone || b == MethodIana || b == MethodGssapi
  }

  function HandShakeError(received: Option<seq<Byte>>): Error
  {
    match received
    case None => Some(DeadlineExceeded)
    case Some(frame) =>
      if |frame| < 3 then Some("invalid frame")
      else if frame[0] != DefaultVersion then Some("invalid version " + NatString(frame[0]))
      else if !KnownMethod(frame[1]) then Some("invalid Nmethods " + FormatBytes(frame) + ".")
      else None
  }

  /** The fields after ReadHandShake: VER is stored before NMETHODS is checked. */
  function AfterHandShake(f: Fields, received: Option<seq<Byte>>): Fields
  {
    match received
    case None => f
    case Some(frame) =>
      if |frame| < 3 || frame[0] != DefaultVersion then f
      else if !KnownMethod(frame[1]) then f.(ver := DefaultVersion)
      else f.(ver := DefaultVersion, nmethods := frame[1], methods := frame[2..])
  }

  /**
   * A greeting is accepted exactly when it has at least three bytes,
   * version 5 and a second byte in {0, 1, 2, 3}; then VER is 5, NMETHODS
   * is that byte, METHODS is the rest and nothing else changes.
   */
  lemma HandShakeAccepts(f: Fields, frame: seq<Byte>)
    ensures HandShakeError(Some(frame)) == None <==>
      |frame| >= 3 && frame[0] == 5 && frame[1] <= 3
    ensures HandShakeError(Some(frame)) == None ==>
      AfterHandShake(f, Some(frame)) == f.(ver := 5, nmethods := frame[1], methods := frame[2..])
    ensures HandShakeError(Some(frame)) != None ==>
      AfterHandShake(f, Some(frame)) == f || AfterHandShake(f, Some(frame)) == f.(ver := 5)
  {
  }

  /** The greeting RFC 1928 section 3 describes: VER, NMETHODS, then the method codes. */
  function Greeting(methods: seq<Byte>): seq<Byte>
    requires |methods| < 256
  {
    [DefaultVersion, |methods| as Byte] + methods
  }

  /**
   * Since NMETHODS is checked as a method code, a well-formed greeting is
   * accepted only when it offers one to three methods, and then METHODS is
   * exactly the client's list.
   */
  lemma GreetingAccepted(f: Fields, methods: seq<Byte>)
    requires |methods| < 256
    ensures HandShakeError(Some(Greeting(methods))) == None <==> 1 <= |methods| <= 3
    ensures 1 <= |methods| <= 3 ==> AfterHandShake(f, Some(Greeting(methods))).methods == methods
  {
    assert Greeting(methods)[2..] == methods;
  }

  // ---------------------------------------------------------------------
  // Username/password request: VER ULEN UNAME PLEN PASSWD
  // (pkg/proxy/socks5/sock_frame.go:185-239)
  // ---------------------------------------------------------------------

  /**
   * The one frame shape whose password slice panics: every length check
   * passes but PLEN is 0, so the slice's low bound exceeds its high bound.
   */
  predicate AuthReqPanics(frame: seq<Byte>)
  {
    |frame| >= 2 && frame[0] == DefaultVersion && frame[1] > 0 &&
    |frame| >= frame[1] as int + 3 && frame[frame[1] as int + 2] == 0
  }

  /**
   * What ReadAuthReq does with a frame: it returns the request (nil on
   * error) and the error, or it panics on the password slice.
   */
  function ParseAuthReq(received: Option<seq<Byte>>): (r: Completion<(Option<AuthRequest>, Error)>)
    ensures r.Panic? <==> received.Some? && AuthReqPanics(received.value)
    ensures r.Normal? ==> (r.value.0.None? <==> r.value.1.Some?)
  {
    match received
    case None => Normal((None, Some(DeadlineExceeded)))
    case Some(frame) =>
      if |frame| < 2 then Normal((None, Some("invalid frame")))
      else if frame[0] != DefaultVersion then Normal((None, Some("unsupported version " + NatString(frame[0]))))
      else
        var userLen := frame[1] as int;
        if userLen <= 0 || |frame| < userLen + 1 then Normal((Some(AuthRequest("", "")), None))
        else
          var user := BytesToString(frame[2..userLen + 1]);
          var passLenIndex := userLen + 2;
          if |frame| - 1 < passLenIndex then Normal((Some(AuthRequest(user, "")), None))
          else
            var passLen := frame[passLenIndex] as int;
            if |frame| < passLen + passLenIndex then Normal((Some(AuthRequest(user, "")), None))
            else if passLenIndex + 1 > passLen + passLenIndex then
              Panic(SliceBoundsPanic(passLenIndex + 1, passLen + passLenIndex))
            else Normal((Some(AuthRequest(user, BytesToString(frame[passLenIndex + 1..passLen + passLenIndex]))), None))
  }

  /**
   * ReadAuthReq returns an error only on a short frame or a version other
   * than 5 (it checks the SOCKS version, not RFC 1929's sub-negotiation
   * version 1); every other frame yields credentials and no error, or
   * panics.
   */
  lemma AuthReqErrors(frame: seq<Byte>)
    ensures var r := ParseAuthReq(Some(frame));
      r.Normal? && r.value.1.Some? <==> |frame| < 2 || frame[0] != 5
  {
  }

  /** ULEN 0 or a frame too short for ULEN gives empty credentials and no error. */
  lemma AuthReqEmptyUser(frame: seq<Byte>)
    requires |frame| >= 2 && frame[0] == 5 && (frame[1] == 0 || |frame| < frame[1] as int + 1)
    ensures ParseAuthReq(Some(frame)) == Normal((Some(AuthRequest("", "")), None))
  {
  }

  /** A frame too short for PLEN or for the password keeps the user and an empty password. */
  lemma AuthReqEmptyPassword(frame: seq<Byte>)
    requires |frame| >= 2 && frame[0] == 5 && frame[1] > 0 && |frame| >= frame[1] as int + 1
    requires |frame| < frame[1] as int + 3 || |frame| < frame[frame[1] as int + 2] as int + frame[1] as int + 2
    ensures ParseAuthReq(Some(frame)) == Normal((Some(AuthRequest(BytesToString(frame[2..frame[1] as int + 1]), "")), None))
  {
  }

  /**
   * A request with an empty password, as RFC 1929 allows any client to
   * send (PLEN 0, e.g. [5, 1, 'a', 0]), passes every length check and then
   * panics: the password slice starts one byte after it ends.
   */
  lemma EmptyPasswordPanics(user: seq<Byte>)
    requires 1 <= |user| < 256
    ensures AuthReqPanics(AuthFrame(user, []))
    ensures ParseAuthReq(Some(AuthFrame(user, []))) == Panic(SliceBoundsPanic(|user| + 3, |user| + 2))
  {
    var frame := AuthFrame(user, []);
    assert frame[1] as int == |user| && frame[|user| + 2] == 0;
  }

  /**
   * When PLEN is at least 1 and the frame holds ULEN + 2 + PLEN bytes, the
   * user is bytes 2 up to ULEN + 1 and the password bytes ULEN + 3 up to
   * ULEN + 2 + PLEN.
   */
  lemma AuthReqFull(frame: seq<Byte>)
    requires |frame| >= 2 && frame[0] == 5 && frame[1] > 0 && |frame| >= frame[1] as int + 3
    requires frame[frame[1] as int + 2] >= 1 && |frame| >= frame[1] as int + 2 + frame[frame[1] as int + 2] as int
    ensures !AuthReqPanics(frame)
    ensures var u := frame[1] as int; var p := frame[u + 2] as int;
      ParseAuthReq(Some(frame)) ==
        Normal((Some(AuthRequest(BytesToString(frame[2..u + 1]), BytesToString(frame[u + 3..u + 2 + p]))), None))
  {
  }

  /** The request RFC 1929 section 2 describes, with the version byte the code expects. */
  function AuthFrame(user: seq<Byte>, password: seq<Byte>): seq<Byte>
    requires |user| < 256 && |password| < 256
  {
    [DefaultVersion, |user| as Byte] + user + [|password| as Byte] + password
  }

  /**
   * On a well-formed request ReadAuthReq returns the user and password each
   * without its last byte: UNAME ends one byte early and PASSWD ends where
   * PLEN plus its own index points.
   */
  lemma AuthFrameReadsShort(user: seq<Byte>, password: seq<Byte>)
    requires 1 <= |user| < 256 && 1 <= |password| < 256
    ensures !AuthReqPanics(AuthFrame(user, password))
    ensures ParseAuthReq(Some(AuthFrame(user, password))) ==
      Normal((Some(AuthRequest(BytesToString(user[..|user| - 1]), BytesToString(password[..|password| - 1]))), None))
  {
    var frame := AuthFrame(user, password);
    var u := |user|;
    assert frame[1] as int == u && frame[u + 2] as int == |password|;
    assert frame[2..u + 1] == user[..u - 1];
    assert frame[u + 3..|password| + u + 2] == password[..|password| - 1];
  }

  // ---------------------------------------------------------------------
  // Connect request: VER CMD RSV ATYP DST.ADDR DST.PORT
  // (pkg/proxy/socks5/sock_frame.go:272-364)
  // ---------------------------------------------------------------------

  predicate KnownCmd(b: Byte)
  {
    b == CmdTcp || b == CmdUdp || b == CmdBind
  }

  /** The header checks that precede the address switch. */
  predicate InstructionHeaderOk(frame: seq<Byte>)
  {
    |frame| >= 6 && frame[0] == DefaultVersion && KnownCmd(frame[1])
  }

  /**
   * The frames whose port read panics: `binary.BigEndian.Uint16` of a
   * slice with fewer than two bytes after the address.
   */
  predicate InstructionPanics(frame: seq<Byte>)
  {
    InstructionHeaderOk(frame) &&
    ((frame[3] == AtypIPv4 && |frame| == 4 + IPv4Len + 1) ||
     (frame[3] == AtypIPv6 && |frame| == 4 + IPv6Len + 1) ||
     (frame[3] == AtypDomain && 4 + frame[4] as int <= |frame| < 4 + frame[4] as int + 2))
  }

  /** The port read that ends ReadInstruction: `binary.BigEndian.Uint16` panics on fewer than two bytes. */
  function PortRead(b: seq<Byte>): (r: Completion<Error>)
    ensures r.Panic? <==> |b| < 2
  {
    if |b| < 2 then Panic(ShortPortPanic(|b|)) else Normal(None)
  }

  /** DST.ADDR, then DST.PORT read from `b`; when that read panics the port is still 0. */
  function WithPort(addr: string, b: seq<Byte>): Dst
  {
    if |b| < 2 then Dst(addr, 0) else Dst(addr, BigEndianUint16(b))
  }

  /** How ReadInstruction ends: the error it returns, or the panic of its port read. */
  function InstructionError(received: Option<seq<Byte>>): (r: Completion<Error>)
    ensures r.Panic? <==> received.Some? && InstructionPanics(received.value)
  {
    match received
    case None => Normal(Some(DeadlineExceeded))
    case Some(frame) =>
      if |frame| < 6 then Normal(Some("invalid frame"))
      else if frame[0] != DefaultVersion then Normal(Some("unsupported sock version " + NatString(frame[0])))
      else if !KnownCmd(frame[1]) then Normal(Some("unsupported proxy protocol " + NatString(frame[1])))
      else AddressError(frame)
  }

  /** How the address part of ReadInstruction ends, once the header passed. */
  function AddressError(frame: seq<Byte>): Completion<Error>
    requires InstructionHeaderOk(frame)
  {
    if frame[3] == AtypIPv4 then
      (if |frame| <= 4 + IPv4Len then Normal(Some("ipv4 parse failed")) else PortRead(frame[4 + IPv4Len..]))
    else if frame[3] == AtypIPv6 then
      (if |frame| <= 4 + IPv6Len then Normal(Some("ipv6 parse failed")) else PortRead(frame[4 + IPv6Len..]))
    else if frame[3] == AtypDomain then
      (if |frame| < 4 + frame[4] as int then Normal(Some("domain parse failed"))
       else PortRead(frame[4 + frame[4] as int..]))
    else Normal(Some("unsupported AYTP type"))
  }

  /**
   * The fields after ReadInstruction. VER, CMD, RSV and an empty DST are
   * stored before the checks that follow them; `ipv6Text` stands for
   * `net.ParseIP(...).To16().String()` of the sixteen address bytes. When
   * the port read panics, the fields are those set before it.
   */
  function AfterInstruction(f: Fields, received: Option<seq<Byte>>, ipv6Text: string): Fields
  {
    match received
    case None => f
    case Some(frame) =>
      if |frame| < 6 || frame[0] != DefaultVersion then f
      else if !KnownCmd(frame[1]) then f.(ver := frame[0])
      else
        AddressFields(f.(ver := frame[0], cmd := frame[1], rsv := frame[2], dst := Some(Dst("", 0))), frame, ipv6Text)
  }

  /** ATYP and DST after the address part of ReadInstruction, from the fields the header left. */
  function AddressFields(g: Fields, frame: seq<Byte>, ipv6Text: string): Fields
    requires InstructionHeaderOk(frame)
  {
    if frame[3] == AtypIPv4 then
      if |frame| <= 4 + IPv4Len then g
      else g.(aytp := AtypIPv4, dst := Some(WithPort(IPv4String(frame[4], frame[5], frame[6], frame[7]),
                                                     frame[4 + IPv4Len..])))
    else if frame[3] == AtypIPv6 then
      if |frame| <= 4 + IPv6Len then g
      else g.(aytp := AtypIPv6, dst := Some(WithPort(ipv6Text, frame[4 + IPv6Len..])))
    else if frame[3] == AtypDomain then
      var n := frame[4] as int;
      if |frame| < 4 + n then g
      else g.(aytp := AtypDomain, dst := Some(WithPort(BytesToString(frame[4..4 + n]), frame[4 + n..])))
    else g
  }

  /**
   * ReadInstruction fails on a short frame, a version other than 5, a
   * command outside {1, 2, 3} or an unknown address type; when it succeeds
   * VER, CMD and RSV are the first three bytes and DST is set.
   */
  lemma InstructionAccepts(f: Fields, frame: seq<Byte>, ipv6Text: string)
    ensures InstructionError(Some(frame)) == Normal(None) ==>
      InstructionHeaderOk(frame) && frame[3] in {AtypIPv4, AtypDomain, AtypIPv6}
    ensures InstructionError(Some(frame)) == Normal(None) ==>
      var g := AfterInstruction(f, Some(frame), ipv6Text);
      g.ver == frame[0] && g.cmd == frame[1] && g.rsv == frame[2] && g.aytp == frame[3] && g.dst.Some?
    ensures InstructionHeaderOk(frame) && frame[3] !in {AtypIPv4, AtypDomain, AtypIPv6} ==>
      InstructionError(Some(frame)) == Normal(Some("unsupported AYTP type"))
  {
  }

  /**
   * An IPv4 request needs ten bytes: eight or fewer is an error, and nine
   * (the port cut to one byte) panics. With ten the address prints dotted
   * and the port is big-endian.
   */
  lemma InstructionIPv4(f: Fields, frame: seq<Byte>, ipv6Text: string)
    requires InstructionHeaderOk(frame) && frame[3] == AtypIPv4
    ensures InstructionError(Some(frame)) == Normal(None) <==> |frame| >= 10
    ensures |frame| <= 8 ==> InstructionError(Some(frame)) == Normal(Some("ipv4 parse failed"))
    ensures |frame| == 9 ==> InstructionError(Some(frame)) == Panic(ShortPortPanic(1))
    ensures |frame| >= 10 ==>
      AfterInstruction(f, Some(frame), ipv6Text).dst ==
        Some(Dst(IPv4String(frame[4], frame[5], frame[6], frame[7]), 256 * frame[8] as int + frame[9] as int))
  {
  }

  /**
   * A domain request that stops after the name, without its two port
   * bytes, panics: the port read gets only the name's last byte.
   */
  lemma DomainWithoutPortPanics(cmd: Byte, name: seq<Byte>)
    requires KnownCmd(cmd) && 1 <= |name| < 256
    ensures InstructionPanics([DefaultVersion, cmd, RsvDefault, AtypDomain, |name| as Byte] + name)
    ensures InstructionError(Some([DefaultVersion, cmd, RsvDefault, AtypDomain, |name| as Byte] + name)) ==
      Panic(ShortPortPanic(1))
  {
    var frame := [DefaultVersion, cmd, RsvDefault, AtypDomain, |name| as Byte] + name;
    assert frame[4] as int == |name| && |frame[4 + |name|..]| == 1;
  }

  /** The request RFC 1928 section 4 describes for a domain name: its length octet, then the name. */
  function DomainRequest(cmd: Byte, name: seq<Byte>, port: nat): seq<Byte>
    requires |name| < 256 && port < 65536
  {
    [DefaultVersion, cmd, RsvDefault, AtypDomain, |name| as Byte] + name + PutUint16(port)
  }

  /**
   * For a well-formed domain request the address read starts with the
   * length octet and drops the name's last byte, and the port is read one
   * byte early: the name's last byte, then the port's high byte.
   */
  lemma DomainRequestReadsShifted(f: Fields, cmd: Byte, name: seq<Byte>, port: nat, ipv6Text: string)
    requires KnownCmd(cmd) && 1 <= |name| < 256 && port < 65536
    ensures !InstructionPanics(DomainRequest(cmd, name, port))
    ensures InstructionError(Some(DomainRequest(cmd, name, port))) == Normal(None)
    ensures AfterInstruction(f, Some(DomainRequest(cmd, name, port)), ipv6Text).dst ==
      Some(Dst(BytesToString([|name| as Byte] + name[..|name| - 1]), 256 * name[|name| - 1] as int + port / 256))
  {
    var frame := DomainRequest(cmd, name, port);
    var n := |name|;
    assert frame[4] as int == n;
    assert frame[4..4 + n] == [|name| as Byte] + name[..n - 1];
    assert frame[4 + n] == name[n - 1] && frame[5 + n] as int == port / 256;
  }

  /** The IPv4 request of the package's test: 127.0.0.1 port 1235. */
  lemma IPv4TestVector(f: Fields, ipv6Text: string)
    ensures var frame: seq<Byte> := [5, 1, 0, 1, 127, 0, 0, 1, 4, 211];
      InstructionError(Some(frame)) == Normal(None) &&
      AfterInstruction(f, Some(frame), ipv6Text).dst == Some(Dst("127.0.0.1", 1235)) &&
      DstString(Dst("127.0.0.1", 1235)) == "127.0.0.1:1235"
  {
    LoopbackText();
  }

  /** The decimal texts the IPv4 test vector expects. */
  lemma LoopbackText()
    ensures IPv4String(127, 0, 0, 1) == "127.0.0.1" && NatString(1235) == "1235"
  {
    assert NatString(0) == "0" && NatString(1) == "1";
    assert NatString(12) == "12";
    assert NatString(127) == "127";
    assert NatString(123) == "123";
  }

  /** The domain request of the package's test reads the address "\x0ewww.google.co" and port 27905. */
  lemma DomainTestVector(f: Fields, ipv6Text: string)
    ensures var name: seq<Byte> := [119, 119, 119, 46, 103, 111, 111, 103, 108, 101, 46, 99, 111, 109];
      var frame := [5, 1, 0, 3, 14] + name + [1, 187];
      AfterInstruction(f, Some(frame), ipv6Text).dst == Some(Dst(BytesToString([14] + name[..13]), 27905))
  {
    var name: seq<Byte> := [119, 119, 119, 46, 103, 111, 111, 103, 108, 101, 46, 99, 111, 109];
    DomainRequestReadsShifted(f, 1, name, 443, ipv6Text);
    assert DomainRequest(1, name, 443) == [5, 1, 0, 3, 14] + name + [1, 187];
  }

  // ---------------------------------------------------------------------
  // Replies (pkg/proxy/socks5/sock_frame.go:169-174, 249-260, 376-393)
  // ---------------------------------------------------------------------

  /** The status byte of the username/password reply. */
  function AuthStatus(isSuccess: bool): Byte
  {
    if isSuccess then AuthStatusSuccess else AuthStatusFailed
  }

  /** The reply byte of the connect reply: 0 when the destination was set up, 1 otherwise. */
  function Rep(connFailed: bool): Byte
  {
    if connFailed then RepGeneralFailure else RepSucceeded
  }

  /**
   * A SockFrame: the fields the read and write methods assign, as in
   * `type SockFrame struct`. FRAG and the UDP payload belong to
   * ReadUdpData, which is not part of this model.
   */
  class SockFrame {
    var ver: Byte
    var cmd: Byte
    var nmethods: Byte
    var methods: seq<Byte>
    var replyMethod: Byte
    var rsv: Byte
    var aytp: Byte
    var dst: Option<Dst>

    function State(): Fields
      reads this
    {
      Fields(ver, cmd, nmethods, methods, replyMethod, rsv, aytp, dst)
    }

    /** `NewSockFrame`: every field at its zero value. */
    constructor ()
      ensures State() == Fields(0, 0, 0, [], 0, 0, 0, None)
    {
      ver, cmd, nmethods, methods, replyMethod, rsv, aytp, dst := 0, 0, 0, [], 0, 0, 0, None;
    }

    method ReadHandShake(received: Option<seq<Byte>>) returns (err: Error)
      modifies this
      ensures err == HandShakeError(received)
      ensures State() == AfterHandShake(old(State()), received)
    {
      if received.None? {
        return Some(DeadlineExceeded);
      }
      var frameData := received.value;
      if |frameData| < 3 {
        return Some("invalid frame");
      }
      if frameData[0] != DefaultVersion {
        return Some("invalid version " + NatString(frameData[0]));
      }
      ver := DefaultVersion;
      if !KnownMethod(frameData[1]) {
        return Some("invalid Nmethods " + FormatBytes(frameData) + ".");
      }
      nmethods := frameData[1];
      methods := frameData[2..];
      return None;
    }

    /** The method-selection reply: VER then METHOD. */
    method WriteHandShake() returns (data: seq<Byte>)
      ensures data == [ver, replyMethod]
    {
      data := [];
      data := data + [ver];
      data := data + [replyMethod];
    }

    /** `panic` is set when the password slice panics; `req` and `err` are then meaningless. */
    method ReadAuthReq(received: Option<seq<Byte>>) returns (req: Option<AuthRequest>, err: Error, panic: Option<string>)
      ensures Ended((req, err), panic) == ParseAuthReq(received)
    {
      if received.None? {
        return None, Some(DeadlineExceeded), None;
      }
      var frameData := received.value;
      if |frameData| < 2 {
        return None, Some("invalid frame"), None;
      }
      if frameData[0] != DefaultVersion {
        return None, Some("unsupported version " + NatString(frameData[0])), None;
      }
      var request := AuthRequest("", "");
      var userLen := frameData[1] as int;
      if userLen <= 0 || |frameData| < userLen + 1 {
        return Some(request), None, None;
      }
      request := request.(user := BytesToString(frameData[2..userLen + 1]));
      var passLenIndex := userLen + 2;
      if |frameData| - 1 < passLenIndex {
        return Some(request), None, None;
      }
      var passLen := frameData[passLenIndex] as int;
      if |frameData| < passLen + passLenIndex {
        return Some(request), None, None;
      }
      if passLenIndex + 1 > passLen + passLenIndex {
        return None, None, Some(SliceBoundsPanic(passLenIndex + 1, passLen + passLenIndex));
      }
      request := request.(password := BytesToString(frameData[passLenIndex + 1..passLen + passLenIndex]));
      return Some(request), None, None;
    }

    /** The username/password reply: version 5 then the status. */
    method WriteAuthResp(isSuccess: bool) returns (data: seq<Byte>)
      ensures data == [DefaultVersion, AuthStatus(isSuccess)]
      ensures data[1] == 0 <==> isSuccess
    {
      var status := AuthStatusSuccess;
      if !isSuccess {
        status := AuthStatusFailed;
      }
      data := [];
      data := data + [DefaultVersion];
      data := data + [status];
    }

    /** `panic` is set when the port read panics; `err` is then meaningless. */
    method ReadInstruction(received: Option<seq<Byte>>, ipv6Text: string) returns (err: Error, panic: Option<string>)
      modifies this
      ensures Ended(err, panic) == InstructionError(received)
      ensures State() == AfterInstruction(old(State()), received, ipv6Text)
    {
      if received.None? {
        return Some(DeadlineExceeded), None;
      }
      var frameData := received.value;
      if |frameData| < 6 {
        return Some("invalid frame"), None;
      }
      if frameData[0] != DefaultVersion {
        return Some("unsupported sock version " + NatString(frameData[0])), None;
      }
      ver := frameData[0];
      if !KnownCmd(frameData[1]) {
        return Some("unsupported proxy protocol " + NatString(frameData[1])), None;
      }
      cmd := frameData[1];
      rsv := frameData[2];
      dst := Some(Dst("", 0));
      err, panic := ReadAddress(frameData, ipv6Text);
    }

    /** The address part of ReadInstruction: the switch on ATYP, then the port read. */
    method ReadAddress(frameData: seq<Byte>, ipv6Text: string) returns (err: Error, panic: Option<string>)
      requires InstructionHeaderOk(frameData)
      modifies this
      ensures Ended(err, panic) == AddressError(frameData)
      ensures State() == AddressFields(old(State()), frameData, ipv6Text)
    {
      var port: seq<Byte>;
      if frameData[3] == AtypIPv4 {
        if |frameData| <= 4 + IPv4Len {
          return Some("ipv4 parse failed"), None;
        }
        var a, b, c, d := 0, 0, 0, 0;
        for i := 0 to IPv4Len
          invariant i > 0 ==> a == frameData[4]
          invariant i > 1 ==> b == frameData[5]
          invariant i > 2 ==> c == frameData[6]
          invariant i > 3 ==> d == frameData[7]
        {
          var x := frameData[4 + i];
          if i == 0 { a := x; }
          if i == 1 { b := x; }
          if i == 2 { c := x; }
          if i == 3 { d := x; }
        }
        aytp := AtypIPv4;
        port := frameData[4 + IPv4Len..];
        dst := Some(WithPort(IPv4String(a, b, c, d), port));
      } else if frameData[3] == AtypIPv6 {
        if |frameData| <= 4 + IPv6Len {
          return Some("ipv6 parse failed"), None;
        }
        aytp := AtypIPv6;
        port := frameData[4 + IPv6Len..];
        dst := Some(WithPort(ipv6Text, port));
      } else if frameData[3] == AtypDomain {
        var dstAddrLen := frameData[4] as int;
        if |frameData| < 4 + dstAddrLen {
          return Some("domain parse failed"), None;
        }
        aytp := AtypDomain;
        port := frameData[4 + dstAddrLen..];
        dst := Some(WithPort(BytesToString(frameData[4..4 + dstAddrLen]), port));
      } else {
        return Some("unsupported AYTP type"), None;
      }
      if |port| < 2 {
        return None, Some(ShortPortPanic(|port|));
      }
      return None, None;
    }

    /**
     * The connect reply: VER, REP, RSV, ATYP IPv4, then whatever address
     * and port bytes the connect step returned (none when it failed).
     */
    method WriteInstruction(ipv4: seq<Byte>, port: seq<Byte>, connFailed: bool) returns (data: seq<Byte>)
      ensures data == [DefaultVersion, Rep(connFailed), RsvDefault, AtypIPv4] + ipv4 + port
      ensures data[1] == 0 <==> !connFailed
    {
      var rep := RepSucceeded;
      if connFailed {
        rep := RepGeneralFailure;
      }
      data := [];
      data := data + [DefaultVersion];
      data := data + [rep];
      data := data + [RsvDefault];
      data := data + [AtypIPv4];
      data := data + ipv4;
      data := data + port;
    }
  }
}
