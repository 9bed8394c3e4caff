/**
 * pkg/proxy/http.go: an HTTP proxy that takes the target from a
 * "CONNECT: <url> <version>" request header, sends the request body behind
 * 1500 zero bytes, and copies back only the upstream body.
 */
module HttpPxy {
  import opened Wrappers
  import opened Text
  import opened HttpHeaders
  import opened ServeMuxes

  const ScanEOF := "unexpected EOF"
  const UnknownVersion := "unknown http version"
  const BodyPadding := 1500
  const StatusOK := 200
  const StatusInternalServerError := 500

  /** `http.ParseHTTPVersion`: "HTTP/1.1", "HTTP/1.0", or "HTTP/" digit "." digit. */
  function ParseHTTPVersion(v: string): Option<(nat, nat)>
  {
    if v == "HTTP/1.1" then Some((1, 1))
    else if v == "HTTP/1.0" then Some((1, 0))
    else if !HasPrefix(v, "HTTP/") || |v| != 8 || v[6] != '.' || !IsDigit(v[5]) || !IsDigit(v[7]) then None
    else Some((v[5] as int - '0' as int, v[7] as int - '0' as int))
  }

  /** The version string of a one-digit major and minor version. */
  function HttpVersion(major: nat, minor: nat): string
    requires major < 10 && minor < 10
  {
    "HTTP/" + [DigitChar(major)] + "." + [DigitChar(minor)]
  }

  /** ParseHTTPVersion reads back every one-digit version. */
  lemma ParseHttpVersionRoundTrip(major: nat, minor: nat)
    requires major < 10 && minor < 10
    ensures ParseHTTPVersion(HttpVersion(major, minor)) == Some((major, minor))
  {
    var v := HttpVersion(major, minor);
    assert v[..5] == "HTTP/" && v[5] == DigitChar(major) && v[6] == '.' && v[7] == DigitChar(minor);
  }

  /**
   * `GetUrl`: scan the CONNECT header for a URL and a version; reject a
   * bad version; a URL containing "443" loses every ":443" and gets
   * "https://", any other gets "http://".
   */
  function GetUrl(header: Header): (r: Result<string>)
    ensures r.Ok? ==>
      ScanTwo(Get(header, "CONNECT")).Some2? && ParseHTTPVersion(ScanTwo(Get(header, "CONNECT")).second).Some?
  {
    match ScanTwo(Get(header, "CONNECT"))
    case None2 => Err(ScanEOF)
    case Some2(url, httpVer) =>
      if ParseHTTPVersion(httpVer).None? then Err(UnknownVersion) else Ok(WithScheme(url))
  }

  /** A URL containing "443" loses every ":443" and gets "https://"; any other gets "http://". */
  function WithScheme(url: string): string
  {
    if Contains(url, "443") then "https://" + ReplaceAll(url, ":443", "") else "http://" + url
  }

  /** The scheme is "https://" exactly when the URL contains "443"; otherwise the URL is kept as it is. */
  lemma SchemeChoice(url: string)
    ensures HasPrefix(WithScheme(url), "https://") <==> Contains(url, "443")
    ensures HasPrefix(WithScheme(url), "http://") <==> !Contains(url, "443")
    ensures !Contains(url, "443") ==> WithScheme(url) == "http://" + url
  {
    var r := WithScheme(url);
    if Contains(url, "443") {
      assert r[..8] == "https://" && r[4] == 's';
    } else {
      assert r[..7] == "http://" && r[4] == ':';
    }
  }

  /** A successful GetUrl is the scanned URL with its scheme. */
  lemma GetUrlResult(header: Header)
    requires GetUrl(header).Ok?
    ensures GetUrl(header).value == WithScheme(ScanTwo(Get(header, "CONNECT")).first)
  {
  }

  /** Removing ":443" from a host without colons followed by ":443" leaves the host. */
  lemma {:induction false} ReplacePortSuffix(host: string)
    requires ':' !in host
    ensures ReplaceAll(host + ":443", ":443", "") == host
  {
    var s := host + ":443";
    if host == [] {
      assert s == ":443" && HasPrefix(s, ":443");
      assert s[4..] == "";
    } else {
      assert s[0] == host[0] != ':';
      assert !HasPrefix(s, ":443");
      assert s[1..] == host[1..] + ":443";
      ReplacePortSuffix(host[1..]);
    }
  }

  /** "CONNECT: host:443 HTTP/1.1" gives "https://host". */
  lemma GetUrlTlsExample(h: Header, host: string)
    requires host != "" && NoSpace(host) && ':' !in host
    ensures GetUrl(Set(h, "CONNECT", host + ":443 HTTP/1.1")) == Ok("https://" + host)
  {
    var v := "HTTP/1.1";
    var tls := host + ":443";
    assert NoSpace(tls) by {
      forall i | 0 <= i < |tls|
        ensures !IsSpace(tls[i])
      {
        if i >= |host| {
          assert tls[i] == ":443"[i - |host|];
        }
      }
    }
    assert NoSpace(v);
    assert host + ":443 HTTP/1.1" == tls + " " + v;
    GetSet(h, "CONNECT", tls + " " + v, "CONNECT");
    ScanTwoJoined(tls, v);
    TlsScheme(host);
  }

  lemma TlsScheme(host: string)
    requires ':' !in host
    ensures WithScheme(host + ":443") == "https://" + host
  {
    var tls := host + ":443";
    assert HasPrefix(tls[|host| + 1..], "443");
    assert Contains(tls, "443");
    ReplacePortSuffix(host);
  }

  /** "CONNECT: host HTTP/1.1" for a host without "443" gives "http://host". */
  lemma GetUrlPlainExample(h: Header, host: string)
    requires host != "" && NoSpace(host) && !Contains(host, "443")
    ensures GetUrl(Set(h, "CONNECT", host + " HTTP/1.1")) == Ok("http://" + host)
  {
    var v := "HTTP/1.1";
    assert NoSpace(v);
    assert host + " HTTP/1.1" == host + " " + v;
    GetSet(h, "CONNECT", host + " " + v, "CONNECT");
    ScanTwoJoined(host, v);
  }

  /** `make([]byte, n)`. */
  function Zeros(n: nat): (z: seq<Byte>)
    ensures |z| == n && forall i :: 0 <= i < n ==> z[i] == 0
  {
    seq(n, _ => 0)
  }

  /** `GetBody`: the request body read in full, behind 1500 zero bytes. */
  function GetBody(readAll: Result<seq<Byte>>): (r: Result<seq<Byte>>)
    ensures r.Ok? <==> readAll.Ok?
    ensures r.Ok? ==>
      |r.value| == BodyPadding + |readAll.value| && r.value[BodyPadding..] == readAll.value &&
      forall i :: 0 <= i < BodyPadding ==> r.value[i] == 0
  {
    match readAll
    case Err(e) => Err(e)
    case Ok(body) => Ok(Zeros(BodyPadding) + body)
  }

  /** The incoming request: method, header, and what reading its body gives. */
  datatype InRequest = InRequest(verb: string, header: Header, body: Result<seq<Byte>>)

  /** What the upstream server answers: a status the proxy ignores and a body. */
  datatype Upstream = Upstream(statusCode: int, body: seq<Byte>)

  /** The request handed to the HTTP client. */
  datatype Forwarded = Forwarded(verb: string, url: string, body: seq<Byte>, header: Header)

  /** What ServeHTTP did: the status written, the request forwarded, the body copied back. */
  datatype Served = Served(status: int, forwarded: Option<Forwarded>, copied: seq<Byte>)

  /**
   * `ServeHTTP`: 500 when the URL, the body or the request cannot be made
   * or the client fails; otherwise the upstream body, under the implicit
   * 200.
   */
  function ServeHTTP(req: InRequest, newRequestErr: Error, upstream: Result<Upstream>): Served
  {
    match GetUrl(req.header)
    case Err(_) => Served(StatusInternalServerError, None, [])
    case Ok(url) =>
      match GetBody(req.body)
      case Err(_) => Served(StatusInternalServerError, None, [])
      case Ok(body) =>
        if newRequestErr.Some? then Served(StatusInternalServerError, None, [])
        else
          var fwd := Forwarded(req.verb, url, body, req.header);
          match upstream
          case Err(_) => Served(StatusInternalServerError, Some(fwd), [])
          case Ok(up) => Served(StatusOK, Some(fwd), up.body)
  }

  /**
   * Any failure answers 500 and copies nothing; success answers 200 with
   * the upstream body, whatever status the upstream returned, after
   * forwarding the padded body to the rewritten URL.
   */
  lemma ServeOutcome(req: InRequest, newRequestErr: Error, upstream: Result<Upstream>)
    ensures var s := ServeHTTP(req, newRequestErr, upstream);
      var ok := GetUrl(req.header).Ok? && req.body.Ok? && newRequestErr.None? && upstream.Ok?;
      (s.status == 500 <==> !ok) && (s.status == 200 <==> ok) &&
      (!ok ==> s.copied == []) &&
      (ok ==>
        s.copied == upstream.value.body &&
        s.forwarded == Some(Forwarded(req.verb, GetUrl(req.header).value, Zeros(1500) + req.body.value, req.header)))
      && (GetUrl(req.header).Err? ==> s.forwarded.None?)
  {
  }

  /** The proxy with its server's handler and state. */
  class Proxy {
    const debug: bool
    const addr: string
    var handler: Handler
    var serving: bool
    var shutDown: bool

    /** `NewHttpPxy`: the server's handler is the proxy itself. */
    constructor (debug: bool, addr: string)
      ensures this.debug == debug && this.addr == addr && handler == Handler.Proxy && !serving && !shutDown
    {
      this.debug := debug;
      this.addr := addr;
      handler := Handler.Proxy;
      serving := false;
      shutDown := false;
    }

    /** `Start`: sets the proxy as handler again and serves in the background; never fails. */
    method Start() returns (err: Error)
      modifies this
      ensures err == None && serving && handler == Handler.Proxy && shutDown == old(shutDown)
      ensures forall path :: Reaches(handler, path)
    {
      handler := Handler.Proxy;
      serving := true;
      return None;
    }

    /** `Close`: shuts the server down, returning Shutdown's error. */
    method Close(shutdownErr: Error) returns (err: Error)
      modifies this
      ensures err == shutdownErr && shutDown && handler == old(handler) && serving == old(serving)
    {
      shutDown := true;
      return shutdownErr;
    }
  }
}
