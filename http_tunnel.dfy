/**
 * createDstConn, which pkg/proxy/http-svr/http_conn.go and
 * pkg/proxy/http_conn.go share line for line except for the error a plain
 * request ends with. A plain request is forwarded once with an
 * X-Forward-For header and answered; a CONNECT request (section 9.3.6 of
 * RFC 9110) dials the destination and is answered "200 Connection
 * Established".
 */
module HttpTunnels {
  import opened Wrappers
  import opened Text
  import opened Net
  import opened HttpHeaders

  const MethodConnect := "CONNECT"
  const ForwardForKey := "X-Forward-For"
  const DefaultTunnelPort := "80"
  const EstablishedStatus := "200 Connection Established"
  const TunnelContentType := "text/plain; charset=utf-8"

  /** A header as Go's HTTP client parses it: every key canonical. */
  type ParsedHeader = h: Header | CanonicalKeys(h) witness map[]

  /** The fields of the client's request the proxy reads. */
  datatype Request = Request(verb: string, url: string, host: string, proto: string,
                             protoMajor: nat, protoMinor: nat, header: Header)

  /** The upstream server's answer to a forwarded request. */
  datatype Upstream = Upstream(statusCode: int, header: ParsedHeader)

  /** The fields of the response written back to the client. */
  datatype Response = Response(status: string, statusCode: int, proto: string,
                               protoMajor: nat, protoMinor: nat, header: Header)

  /**
   * What the client, the upstream server and the operating system do:
   * the parsed request or the read error, the errors of building the
   * forwarded request, the client's remote address, the upstream answer,
   * the errors of resolving and dialling the tunnel destination, of the
   * four keep-alive setters and of writing the response.
   */
  datatype Exchange = Exchange(
    request: Result<Request>, newRequestErr: Error, remoteAddr: string,
    upstream: Result<Upstream>, resolveErr: Error, dialErr: Error,
    keepAliveErrs: (Error, Error, Error, Error), writeErr: Error)

  /**
   * What createDstConn did: the header of the request forwarded upstream,
   * the tunnel address it dialled, whether keep-alive was switched on,
   * the response it wrote, and its error.
   */
  datatype Outcome = Outcome(forwarded: Option<Header>, dialed: Option<string>, keepAlive: bool,
                             response: Option<Response>, err: Error)

  /** The X-Forward-For value: split on ',', append the client IP, join on ','. */
  function ForwardFor(existing: string, srcIP: string): string
  {
    if existing != "" then Join(Split(existing, ',') + [srcIP], ",") else srcIP
  }

  /** Splitting and re-joining keep the old value, so the IP is appended after a comma. */
  lemma ForwardForAppends(existing: string, srcIP: string)
    ensures ForwardFor(existing, srcIP) == if existing != "" then existing + "," + srcIP else srcIP
  {
    if existing != "" {
      JoinAppend(Split(existing, ','), srcIP, ",");
      JoinSplit(existing, ',');
    }
  }

  /**
   * The tunnel destination: Host split into IP and port, the port "80"
   * when empty, joined again. A Host that does not split (no port at all)
   * gives an empty IP as well.
   */
  function TunnelAddr(host: string): string
  {
    var hp := match SplitHostPort(host) case Ok(v) => v case Err(_) => HostPort("", "");
    JoinHostPort(hp.host, if hp.port == "" then DefaultTunnelPort else hp.port)
  }

  lemma TunnelAddrPort(host: string, ip: string, port: string)
    requires SplitHostPort(host) == Ok(HostPort(ip, port))
    ensures port == "" ==> TunnelAddr(host) == JoinHostPort(ip, "80")
    ensures port != "" ==> TunnelAddr(host) == JoinHostPort(ip, port)
  {
  }

  /**
   * A host name followed by an empty port gets port 80, but a host name
   * with no port at all dials ":80": the name is lost with the split error.
   */
  lemma TunnelAddrDefaults(name: string)
    requires NoBrackets(name) && ':' !in name
    ensures TunnelAddr(name + ":") == name + ":80"
    ensures TunnelAddr(name) == ":80"
  {
    SplitJoin(name, "");
    assert JoinHostPort(name, "") == name + ":";
    assert SplitHostPort(name).Err?;
    assert JoinHostPort("", DefaultTunnelPort) == ":80";
  }

  /** The answer to a CONNECT: "200 Connection Established", the request's protocol, a text/plain type. */
  function TunnelResponse(req: Request): Response
  {
    Response(EstablishedStatus, 200, req.proto, req.protoMajor, req.protoMinor,
             Set(map[], "Content-Type", TunnelContentType))
  }

  /** The result of createDstConn; `notTunnel` is the error a plain request ends with. */
  function CreateDstConnSpec(ex: Exchange, notTunnel: string): Outcome
  {
    match ex.request
    case Err(e) => Outcome(None, None, false, None, Some(e))
    case Ok(req) =>
      if req.verb != MethodConnect then
        if ex.newRequestErr.Some? then Outcome(None, None, false, None, ex.newRequestErr)
        else
          match SplitHostPort(ex.remoteAddr)
          case Err(e) => Outcome(None, None, false, None, Some(e))
          case Ok(src) =>
            var fwd := Set(req.header, ForwardForKey, ForwardFor(Get(req.header, ForwardForKey), src.host));
            match ex.upstream
            case Err(e) => Outcome(Some(fwd), None, false, None, Some(e))
            case Ok(up) =>
              var resp := Response("", up.statusCode, "", 0, 0, AddedAll(map[], up.header));
              Outcome(Some(fwd), None, false, Some(resp), if ex.writeErr.Some? then ex.writeErr else Some(notTunnel))
      else
        var addr := TunnelAddr(req.host);
        if ex.resolveErr.Some? then Outcome(None, None, false, None, ex.resolveErr)
        else if ex.dialErr.Some? then Outcome(None, None, false, None, ex.dialErr)
        else
          var keepAlive := Get(req.header, "Proxy-Connection") == "keep-alive";
          if keepAlive && ex.keepAliveErrs.3.Some? then Outcome(None, Some(addr), true, None, ex.keepAliveErrs.3)
          else Outcome(None, Some(addr), keepAlive, Some(TunnelResponse(req)), ex.writeErr)
  }

  /**
   * A plain request never opens a tunnel and always ends in an error:
   * after a written response, the not-a-tunnel error.
   */
  lemma PlainRequestEndsInError(ex: Exchange, notTunnel: string)
    requires ex.request.Ok? && ex.request.value.verb != MethodConnect
    ensures var o := CreateDstConnSpec(ex, notTunnel);
      o.err.Some? && o.dialed.None? && !o.keepAlive &&
      (o.response.Some? && ex.writeErr.None? ==> o.err == Some(notTunnel))
  {
  }

  /**
   * The forwarded request carries the client's header with X-Forward-For
   * set to the old value, a comma and the client IP, or to the IP alone.
   */
  lemma ForwardedHeader(ex: Exchange, notTunnel: string, ip: string, port: string)
    requires ex.request.Ok? && ex.request.value.verb != MethodConnect && ex.newRequestErr.None?
    requires SplitHostPort(ex.remoteAddr) == Ok(HostPort(ip, port))
    ensures var h := ex.request.value.header; var old_ := Get(h, ForwardForKey);
      CreateDstConnSpec(ex, notTunnel).forwarded ==
        Some(Set(h, ForwardForKey, if old_ != "" then old_ + "," + ip else ip))
  {
    ForwardForAppends(Get(ex.request.value.header, ForwardForKey), ip);
  }

  /** The answer to a plain request has the upstream status and every upstream header value. */
  lemma PlainResponseCopiesUpstream(ex: Exchange, notTunnel: string)
    requires ex.request.Ok? && ex.request.value.verb != MethodConnect && ex.newRequestErr.None?
    requires SplitHostPort(ex.remoteAddr).Ok? && ex.upstream.Ok?
    ensures var r := CreateDstConnSpec(ex, notTunnel).response;
      r.Some? && r.value.statusCode == ex.upstream.value.statusCode &&
      (forall k :: k in ex.upstream.value.header && ex.upstream.value.header[k] != [] ==>
        k in r.value.header && r.value.header[k] == ex.upstream.value.header[k]) &&
      (forall k :: k in r.value.header ==> k in ex.upstream.value.header)
  {
  }

  /**
   * A CONNECT whose destination resolves and dials is answered with the
   * tunnel response unless the keep-alive step failed; keep-alive is
   * switched on exactly when Proxy-Connection is "keep-alive", and only
   * the last setter's error counts.
   */
  lemma ConnectAnswer(ex: Exchange, notTunnel: string)
    requires ex.request.Ok? && ex.request.value.verb == MethodConnect
    requires ex.resolveErr.None? && ex.dialErr.None?
    ensures var o := CreateDstConnSpec(ex, notTunnel); var req := ex.request.value;
      o.dialed == Some(TunnelAddr(req.host)) && o.forwarded.None? &&
      (o.keepAlive <==> Get(req.header, "Proxy-Connection") == "keep-alive") &&
      (o.err.Some? && o.response.None? <==> o.keepAlive && ex.keepAliveErrs.3.Some?) &&
      (o.response.Some? ==> o.response == Some(TunnelResponse(req)) && o.err == ex.writeErr)
  {
  }

  /** The tunnel response's fields. */
  lemma TunnelResponseFields(req: Request)
    ensures var r := TunnelResponse(req);
      r.status == "200 Connection Established" && r.statusCode == 200 &&
      r.proto == req.proto && r.protoMajor == req.protoMajor && r.protoMinor == req.protoMinor &&
      Get(r.header, "Content-Type") == "text/plain; charset=utf-8"
  {
  }

  /** A CONNECT that fails to resolve or dial leaves nothing dialled and returns that error. */
  lemma ConnectFails(ex: Exchange, notTunnel: string)
    requires ex.request.Ok? && ex.request.value.verb == MethodConnect
    requires ex.resolveErr.Some? || ex.dialErr.Some?
    ensures var o := CreateDstConnSpec(ex, notTunnel);
      o.dialed.None? && o.response.None? && o.err == (if ex.resolveErr.Some? then ex.resolveErr else ex.dialErr)
  {
  }

  /**
   * The state of one httpConn that the rules touch: the dialled tunnel
   * destination, keep-alive, the forwarded request's header, the response
   * written to the client, the closed flags of the connection, its close
   * channel and its two sockets, and whether the two copy loops run.
   */
  datatype TunnelConn = TunnelConn(dstConn: Option<string>, keepAlive: bool, forwarded: Option<Header>,
                                   written: Option<Response>, closed: bool, closeChClosed: bool,
                                   srcClosed: bool, dstClosed: bool, copying: bool)

  /** `newConn`: nothing dialled, nothing closed. */
  function NewTunnelConn(): TunnelConn
  {
    TunnelConn(None, false, None, None, false, false, false, false, false)
  }

  /** What createDstConn leaves behind: dstConn is assigned only when the dial succeeds. */
  function AfterCreate(s: TunnelConn, o: Outcome): TunnelConn
  {
    s.(dstConn := if o.dialed.Some? then o.dialed else s.dstConn, keepAlive := s.keepAlive || o.keepAlive,
       forwarded := o.forwarded, written := o.response)
  }

  /** `Close`: once only; closes the channel, the destination socket when there is one, and the client socket. */
  function CloseTunnel(s: TunnelConn): TunnelConn
  {
    if s.closed then s
    else s.(closed := true, closeChClosed := true, dstClosed := s.dstClosed || s.dstConn.Some?, srcClosed := true)
  }

  /** `start`: createDstConn, then Close on an error or the two copy loops on success. */
  function StartTunnel(s: TunnelConn, ex: Exchange, notTunnel: string): (TunnelConn, Error)
  {
    var o := CreateDstConnSpec(ex, notTunnel);
    var s1 := AfterCreate(s, o);
    if o.err.Some? then (CloseTunnel(s1), o.err) else (s1.(copying := true), None)
  }

  /** A second Close changes nothing; the first closes the destination exactly when one was dialled. */
  lemma CloseTunnelIdempotent(s: TunnelConn)
    ensures CloseTunnel(CloseTunnel(s)) == CloseTunnel(s)
    ensures CloseTunnel(s).closed && CloseTunnel(s).closeChClosed == (s.closeChClosed || !s.closed)
    ensures !s.closed ==> CloseTunnel(s).srcClosed && (CloseTunnel(s).dstClosed <==> s.dstClosed || s.dstConn.Some?)
    ensures CloseTunnel(s).copying == s.copying && CloseTunnel(s).written == s.written
  {
  }

  /**
   * start fails exactly when createDstConn does, and then the connection
   * is closed and never copies; it succeeds only for a CONNECT that was
   * dialled and answered with the tunnel response.
   */
  lemma StartClosesOnError(s: TunnelConn, ex: Exchange, notTunnel: string)
    requires !s.closed && !s.copying
    ensures var (t, err) := StartTunnel(s, ex, notTunnel);
      (err.Some? <==> t.closed) && (err.Some? <==> !t.copying) &&
      (err.Some? ==> t.srcClosed && t.closeChClosed) &&
      (err.None? ==>
        ex.request.Ok? && ex.request.value.verb == MethodConnect &&
        t.dstConn == Some(TunnelAddr(ex.request.value.host)) &&
        t.written == Some(TunnelResponse(ex.request.value)))
  {
    var o := CreateDstConnSpec(ex, notTunnel);
    if ex.request.Ok? && ex.request.value.verb == MethodConnect && o.err.None? {
      ConnectAnswer(ex, notTunnel);
    }
  }

  /** A plain request is answered and the connection closed, with the not-a-tunnel error when the answer was written. */
  lemma PlainRequestCloses(s: TunnelConn, ex: Exchange, notTunnel: string)
    requires ex.request.Ok? && ex.request.value.verb != MethodConnect
    requires ex.newRequestErr.None? && SplitHostPort(ex.remoteAddr).Ok? && ex.upstream.Ok? && ex.writeErr.None?
    ensures var (t, err) := StartTunnel(s, ex, notTunnel);
      err == Some(notTunnel) && t.closed && t.written.Some? && t.forwarded.Some? && t.dstConn == s.dstConn
  {
  }

  /** createDstConn's steps; the caller stores `dialed` as its dstConn. */
  method CreateDstConn(ex: Exchange, notTunnel: string) returns (o: Outcome)
    ensures o == CreateDstConnSpec(ex, notTunnel)
  {
    if ex.request.Err? {
      return Outcome(None, None, false, None, Some(ex.request.error));
    }
    var srcReq := ex.request.value;
    if srcReq.verb != MethodConnect {
      if ex.newRequestErr.Some? {
        return Outcome(None, None, false, None, ex.newRequestErr);
      }
      var split := SplitHostPort(ex.remoteAddr);
      if split.Err? {
        return Outcome(None, None, false, None, Some(split.error));
      }
      var srcIP := split.value.host;
      var dstHeader := srcReq.header;
      var forwardForHeader := Get(dstHeader, ForwardForKey);
      if forwardForHeader != "" {
        var forwardForHeaders := Split(forwardForHeader, ',');
        forwardForHeaders := forwardForHeaders + [srcIP];
        forwardForHeader := Join(forwardForHeaders, ",");
      } else {
        forwardForHeader := srcIP;
      }
      dstHeader := Set(dstHeader, ForwardForKey, forwardForHeader);
      if ex.upstream.Err? {
        return Outcome(Some(dstHeader), None, false, None, Some(ex.upstream.error));
      }
      var dstResp := ex.upstream.value;
      var respHeader := AddAll(map[], dstResp.header);
      var resp := Response("", dstResp.statusCode, "", 0, 0, respHeader);
      if ex.writeErr.Some? {
        return Outcome(Some(dstHeader), None, false, Some(resp), ex.writeErr);
      }
      return Outcome(Some(dstHeader), None, false, Some(resp), Some(notTunnel));
    }
    var dstIP, dstPort := "", "";
    var split := SplitHostPort(srcReq.host);
    if split.Ok? {
      dstIP, dstPort := split.value.host, split.value.port;
    }
    if dstPort == "" {
      dstPort := DefaultTunnelPort;
    }
    var dstAddr := JoinHostPort(dstIP, dstPort);
    if ex.resolveErr.Some? {
      return Outcome(None, None, false, None, ex.resolveErr);
    }
    if ex.dialErr.Some? {
      return Outcome(None, None, false, None, ex.dialErr);
    }
    var keepAlive := Get(srcReq.header, "Proxy-Connection") == "keep-alive";
    if keepAlive {
      var keepAliveErr: Error := None;
      keepAliveErr := ex.keepAliveErrs.0;
      keepAliveErr := ex.keepAliveErrs.1;
      keepAliveErr := ex.keepAliveErrs.2;
      keepAliveErr := ex.keepAliveErrs.3;
      if keepAliveErr.Some? {
        return Outcome(None, Some(dstAddr), true, None, keepAliveErr);
      }
    }
    var resp := Response(EstablishedStatus, 200, srcReq.proto, srcReq.protoMajor, srcReq.protoMinor, map[]);
    resp := resp.(header := Set(resp.header, "Content-Type", TunnelContentType));
    return Outcome(None, Some(dstAddr), keepAlive, Some(resp), ex.writeErr);
  }
}
