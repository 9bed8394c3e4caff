/**
 * pkg/proxy/http1.go: a forwarding HTTP proxy that appends the client IP
 * to X-Forwarded-For, round-trips the request and copies the upstream
 * status, headers and body back. Its Start installs an empty ServeMux.
 */
module HttpPxy1 {
  import opened Wrappers
  import opened Text
  import opened Net
  import opened HttpHeaders
  import opened ServeMuxes

  const XffKey := "X-Forwarded-For"
  const StatusBadGateway := 502

  /** The incoming request: the header (shared with the outgoing copy) and the client address. */
  datatype InRequest = InRequest(verb: string, host: string, remoteAddr: string, header: Header)

  /** The upstream answer, with its header as Go's client parses it. */
  datatype Upstream = Upstream(statusCode: int, header: ParsedHeader, body: seq<Byte>)

  type ParsedHeader = h: Header | CanonicalKeys(h) witness map[]

  /** What goes back to the client. */
  datatype Reply = Reply(status: int, header: Header, body: seq<Byte>)

  /**
   * The header after step 1: when RemoteAddr splits, X-Forwarded-For is
   * set to the client IP, after the prior values joined with ", " and a
   * ", " when the key is present at all; otherwise the header is kept.
   */
  function ForwardedHeader(h: Header, remoteAddr: string): Header
  {
    match SplitHostPort(remoteAddr)
    case Err(_) => h
    case Ok(hp) =>
      var clientIP := if XffKey in h then Join(h[XffKey], ", ") + ", " + hp.host else hp.host;
      Set(h, XffKey, clientIP)
  }

  /** The key is already canonical, so Set writes it under the very key the lookup reads. */
  lemma XffKeyCanonical()
    ensures CanonicalKey(XffKey) == XffKey
  {
    var s := XffKey;
    assert AllTokenChars(s);
    forall i | 0 < i < |s|
      ensures (if s[i - 1] == '-' then ToUpper(s[i]) else ToLower(s[i])) == s[i]
    {
      if i == 2 || i == 12 {
        assert s[i - 1] == '-';
      } else {
        assert s[i - 1] != '-';
      }
    }
    CanonicalCaseFixed(s, true);
  }

  /** A string whose letters are already upper-cased at the start and after each '-', and lower-cased elsewhere, is canonical. */
  lemma {:induction false} CanonicalCaseFixed(s: string, upper: bool)
    requires s != [] ==> (if upper then ToUpper(s[0]) else ToLower(s[0])) == s[0]
    requires forall i :: 0 < i < |s| ==> (if s[i - 1] == '-' then ToUpper(s[i]) else ToLower(s[i])) == s[i]
    ensures CanonicalCase(s, upper) == s
  {
    if s != [] {
      var t := s[1..];
      forall i | 0 < i < |t|
        ensures (if t[i - 1] == '-' then ToUpper(t[i]) else ToLower(t[i])) == t[i]
      {
        assert t[i - 1] == s[i] && t[i] == s[i + 1];
      }
      CanonicalCaseFixed(t, s[0] == '-');
      assert s == [s[0]] + t;
    }
  }

  /**
   * The new X-Forwarded-For: the client IP alone without prior values, the
   * one prior value, ", " and the IP with one, and ", " and the IP when
   * the key is present with no values.
   */
  lemma ForwardedFor(h: Header, remoteAddr: string, ip: string, port: string)
    requires SplitHostPort(remoteAddr) == Ok(HostPort(ip, port))
    ensures XffKey !in h ==> Values(ForwardedHeader(h, remoteAddr), XffKey) == [ip]
    ensures XffKey in h && |h[XffKey]| == 1 ==> Values(ForwardedHeader(h, remoteAddr), XffKey) == [h[XffKey][0] + ", " + ip]
    ensures XffKey in h && h[XffKey] == [] ==> Values(ForwardedHeader(h, remoteAddr), XffKey) == [", " + ip]
    ensures forall k :: k != XffKey ==> Values(ForwardedHeader(h, remoteAddr), k) == Values(h, k)
  {
    XffKeyCanonical();
    var v := if XffKey in h then Join(h[XffKey], ", ") + ", " + ip else ip;
    assert ForwardedHeader(h, remoteAddr) == h[XffKey := [v]];
    if XffKey in h && |h[XffKey]| == 1 {
      assert Join(h[XffKey], ", ") == h[XffKey][0];
    } else if XffKey in h && h[XffKey] == [] {
      assert v == ", " + ip;
    }
  }

  /** Two proxies in a row leave one value listing both client IPs in order. */
  lemma ForwardedTwice(h: Header, addr1: string, ip1: string, addr2: string, ip2: string, p1: string, p2: string)
    requires XffKey !in h
    requires SplitHostPort(addr1) == Ok(HostPort(ip1, p1)) && SplitHostPort(addr2) == Ok(HostPort(ip2, p2))
    ensures Values(ForwardedHeader(ForwardedHeader(h, addr1), addr2), XffKey) == [ip1 + ", " + ip2]
  {
    ForwardedFor(h, addr1, ip1, p1);
    ForwardedFor(ForwardedHeader(h, addr1), addr2, ip2, p2);
  }

  /** An address that does not split leaves the header as it was. */
  lemma UnsplitAddressKeepsHeader(h: Header, remoteAddr: string)
    requires SplitHostPort(remoteAddr).Err?
    ensures ForwardedHeader(h, remoteAddr) == h
  {
  }

  /** Steps 2 and 3: 502 and nothing else on a round-trip error, otherwise the upstream's status, headers and body. */
  function ReplyFor(roundTrip: Result<Upstream>): Reply
  {
    match roundTrip
    case Err(_) => Reply(StatusBadGateway, map[], [])
    case Ok(up) => Reply(up.statusCode, AddedAll(map[], up.header), up.body)
  }

  lemma ReplyCopiesUpstream(roundTrip: Result<Upstream>)
    ensures roundTrip.Err? ==> ReplyFor(roundTrip) == Reply(502, map[], [])
    ensures roundTrip.Ok? ==>
      var up := roundTrip.value; var r := ReplyFor(roundTrip);
      r.status == up.statusCode && r.body == up.body &&
      (forall k :: k in up.header && up.header[k] != [] ==> k in r.header && r.header[k] == up.header[k]) &&
      (forall k :: k in r.header ==> k in up.header)
  {
  }

  /**
   * `ServeHTTP`: sends the request with the forwarded header (the outgoing
   * request shares the incoming one's header map, so both change) and
   * answers from the round trip.
   */
  method ServeHTTP(req: InRequest, roundTrip: Result<Upstream>) returns (sent: InRequest, reply: Reply)
    ensures sent == req.(header := ForwardedHeader(req.header, req.remoteAddr))
    ensures reply == ReplyFor(roundTrip)
  {
    var outReq := req;
    var split := SplitHostPort(req.remoteAddr);
    if split.Ok? {
      var clientIP := split.value.host;
      if XffKey in outReq.header {
        var prior := outReq.header[XffKey];
        clientIP := Join(prior, ", ") + ", " + clientIP;
      }
      outReq := outReq.(header := Set(outReq.header, XffKey, clientIP));
    }
    sent := outReq;
    if roundTrip.Err? {
      return sent, Reply(StatusBadGateway, map[], []);
    }
    var res := roundTrip.value;
    var h := AddAll(map[], res.header);
    reply := Reply(res.statusCode, h, res.body);
  }

  /** The proxy with its server's handler and state. */
  class Proxy {
    const debug: bool
    const addr: string
    var handler: Handler
    var serving: bool
    var shutDown: bool

    /** `NewHttpPxy`: no handler set, so the server would use the default mux. */
    constructor (debug: bool, addr: string)
      ensures this.debug == debug && this.addr == addr && handler == DefaultMux && !serving && !shutDown
    {
      this.debug := debug;
      this.addr := addr;
      handler := DefaultMux;
      serving := false;
      shutDown := false;
    }

    /**
     * `Start`: builds a mux routing "/" to the proxy but installs a second,
     * empty mux, so no request ever reaches ServeHTTP.
     */
    method Start() returns (err: Error)
      modifies this
      ensures err == None && serving && handler == Mux({}) && shutDown == old(shutDown)
      ensures forall path :: !Reaches(handler, path)
    {
      var mux := Mux({});
      mux := mux.(proxyPatterns := mux.proxyPatterns + {"/"});
      handler := Mux({});
      serving := true;
      return None;
    }

    /** `Close`: shuts the server down, returning Shutdown's error. */
    method Close(shutdownErr: Error) returns (err: Error)
      modifies this
      ensures err == shutdownErr && shutDown && handler == old(handler) && serving == old(serving)
    {
      shutDown := true;
      return shutdownErr;
    }
  }
}
