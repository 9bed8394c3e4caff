/**
 * The parts of Go's `net`, `strconv` and `encoding/binary` packages the
 * proxies use on addresses: `net.SplitHostPort`, `net.JoinHostPort`, the
 * dotted form of an IPv4 address, `strconv.ParseUint(s, 10, 16)` and
 * big-endian 16-bit ports.
 */
module Net {
  import opened Wrappers
  import opened Text

  datatype HostPort = HostPort(host: string, port: string)

  /** Go's `*net.AddrError` text: "address <addr>: <why>", or just <why> when the address is empty. */
  function AddrError(addr: string, why: string): Result<HostPort>
  {
    if addr == "" then Err(why) else Err("address " + addr + ": " + why)
  }

  const MissingPort := "missing port in address"
  const TooManyColons := "too many colons in address"

  /** `net.SplitHostPort`: "host:port", "[host]:port" or "[host%zone]:port". */
  function SplitHostPort(hostport: string): (r: Result<HostPort>)
    ensures r.Ok? ==> ':' in hostport && ']' !in r.value.port && '[' !in r.value.port && ':' !in r.value.port
    ensures r.Ok? ==> |r.value.port| < |hostport| && hostport[|hostport| - |r.value.port| - 1..] == ":" + r.value.port
    ensures ':' !in hostport ==> r == AddrError(hostport, MissingPort)
  {
    var i := LastIndexOf(hostport, ':');
    if i < 0 then AddrError(hostport, MissingPort)
    else if hostport[0] == '[' then
      var end := IndexOf(hostport, ']');
      if end < 0 then AddrError(hostport, "missing ']' in address")
      else if end + 1 == |hostport| then AddrError(hostport, MissingPort)
      else if end + 1 != i then
        (if hostport[end + 1] == ':' then AddrError(hostport, TooManyColons) else AddrError(hostport, MissingPort))
      else CheckBrackets(hostport, hostport[1..end], 1, end + 1, i)
    else
      var host := hostport[..i];
      if IndexOf(host, ':') >= 0 then AddrError(hostport, TooManyColons)
      else CheckBrackets(hostport, host, 0, 0, i)
  }

  /** The suffix from position i is its first element followed by the rest. */
  lemma SplitAfter<T>(s: seq<T>, i: nat)
    requires i < |s|
    ensures s[i..] == [s[i]] + s[i + 1..]
  {
  }

  /** The last checks of SplitHostPort: no '[' after position j and no ']' after position k. */
  function CheckBrackets(hostport: string, host: string, j: nat, k: nat, i: nat): (r: Result<HostPort>)
    requires j <= i + 1 && k <= i < |hostport| && hostport[i] == ':' && ':' !in hostport[i + 1..]
    ensures r.Ok? ==> r.value.host == host && ']' !in r.value.port && '[' !in r.value.port && ':' !in r.value.port
    ensures r.Ok? ==> r.value.port == hostport[i + 1..] && hostport[i..] == ":" + r.value.port
  {
    if IndexOf(hostport[j..], '[') >= 0 then AddrError(hostport, "unexpected '[' in address")
    else if IndexOf(hostport[k..], ']') >= 0 then AddrError(hostport, "unexpected ']' in address")
    else
      assert hostport[i + 1..] == hostport[k..][i + 1 - k..];
      assert hostport[i + 1..] == hostport[j..][i + 1 - j..];
      SplitAfter(hostport, i);
      Ok(HostPort(host, hostport[i + 1..]))
  }

  /** `net.JoinHostPort`: brackets a host that contains a colon. */
  function JoinHostPort(host: string, port: string): (r: string)
    ensures HasPrefix(r, if ':' in host then "[" + host + "]:" else host + ":")
  {
    if ':' in host then "[" + host + "]:" + port else host + ":" + port
  }

  predicate NoBrackets(s: string)
  {
    '[' !in s && ']' !in s
  }

  lemma IndexIs(s: string, c: char, k: nat)
    requires k < |s| && s[k] == c && c !in s[..k]
    ensures IndexOf(s, c) == k
  {
  }

  lemma LastIndexIs(s: string, c: char, k: nat)
    requires k < |s| && s[k] == c && c !in s[k + 1..]
    ensures LastIndexOf(s, c) == k
  {
  }

  /** SplitHostPort undoes JoinHostPort for every host and port without brackets whose port has no colon. */
  lemma SplitJoin(host: string, port: string)
    requires NoBrackets(host) && NoBrackets(port) && ':' !in port
    ensures SplitHostPort(JoinHostPort(host, port)) == Ok(HostPort(host, port))
  {
    if ':' in host {
      SplitJoinBracketed(host, port);
    } else {
      SplitJoinPlain(host, port);
    }
  }

  lemma SplitJoinBracketed(host: string, port: string)
    requires NoBrackets(host) && NoBrackets(port) && ':' !in port && ':' in host
    ensures SplitHostPort(JoinHostPort(host, port)) == Ok(HostPort(host, port))
  {
    var s := "[" + host + "]:" + port;
    assert JoinHostPort(host, port) == s;
    var n := |host|;
    assert s[1..n + 1] == host && s[n + 3..] == port;
    assert s[..n + 1] == "[" + host;
    assert s[1..] == host + "]:" + port;
    assert s[n + 2..] == ":" + port;
    SplitBracketedForm(s, n);
  }

  /**
   * A string "[h]:p" whose h has no brackets and whose p has no colon or
   * brackets splits into h and p.
   */
  lemma SplitBracketedForm(s: string, n: nat)
    requires n + 3 <= |s| && s[0] == '[' && s[n + 1] == ']' && s[n + 2] == ':'
    requires ':' !in s[n + 3..] && ']' !in s[..n + 1] && '[' !in s[1..] && ']' !in s[n + 2..]
    ensures SplitHostPort(s) == Ok(HostPort(s[1..n + 1], s[n + 3..]))
  {
    LastIndexIs(s, ':', n + 2);
    IndexIs(s, ']', n + 1);
    assert IndexOf(s[1..], '[') < 0;
    assert IndexOf(s[n + 2..], ']') < 0;
  }

  lemma SplitJoinPlain(host: string, port: string)
    requires NoBrackets(host) && NoBrackets(port) && ':' !in port && ':' !in host
    ensures SplitHostPort(JoinHostPort(host, port)) == Ok(HostPort(host, port))
  {
    var s := host + ":" + port;
    assert JoinHostPort(host, port) == s;
    var n := |host|;
    assert s[n + 1..] == port && s[..n] == host;
    SplitPlainForm(s, n);
  }

  /** A string "h:p" without brackets, whose h and p have no colon, splits into h and p. */
  lemma SplitPlainForm(s: string, n: nat)
    requires n < |s| && s[n] == ':' && ':' !in s[..n] && ':' !in s[n + 1..] && NoBrackets(s)
    ensures SplitHostPort(s) == Ok(HostPort(s[..n], s[n + 1..]))
  {
    LastIndexIs(s, ':', n);
    assert s[0..] == s;
    assert IndexOf(s[..n], ':') < 0;
  }

  /** Brackets around an IPv6 host are removed. */
  lemma SplitBracketedExample()
    ensures SplitHostPort("[::1]:80") == Ok(HostPort("::1", "80"))
  {
    var s := "[::1]:80";
    assert s[1..4] == "::1" && s[6..] == "80" && s[..4] == "[::1";
    SplitBracketedForm(s, 3);
  }

  /** An empty address has no port; Go's message then leaves out the "address" prefix. */
  lemma SplitEmptyExample()
    ensures SplitHostPort("") == Err(MissingPort)
  {
  }

  /** A host with unbracketed colons is an error. */
  lemma SplitColonsExample()
    ensures SplitHostPort("::1:80") == AddrError("::1:80", TooManyColons)
  {
    var s := "::1:80";
    LastIndexIs(s, ':', 3);
    assert s[..3] == "::1";
    IndexIs("::1", ':', 0);
  }

  /** `net.IPv4(a, b, c, d).To4().String()`: dotted decimal. */
  function IPv4String(a: Byte, b: Byte, c: Byte, d: Byte): string
  {
    NatString(a) + "." + NatString(b) + "." + NatString(c) + "." + NatString(d)
  }

  /** `binary.BigEndian.Uint16(b)`: the first two bytes, most significant first. */
  function BigEndianUint16(b: seq<Byte>): (v: nat)
    requires |b| >= 2
    ensures v < 65536
  {
    (b[0] as int) * 256 + (b[1] as int)
  }

  /** `binary.BigEndian.PutUint16`: a 16-bit value as two bytes. */
  function PutUint16(v: nat): (b: seq<Byte>)
    requires v < 65536
    ensures |b| == 2
  {
    var hi := v / 256;
    assert 0 <= hi < 256;
    [hi, v % 256]
  }

  /** Uint16 reads back what PutUint16 wrote, and every two bytes are written by some value. */
  lemma Uint16RoundTrip(v: nat, b: seq<Byte>)
    requires v < 65536 && |b| == 2
    ensures BigEndianUint16(PutUint16(v)) == v
    ensures PutUint16(BigEndianUint16(b)) == b
  {
  }

  /**
   * `strconv.ParseUint(s, 10, 16)` with its error ignored: a decimal numeral
   * gives its value, capped at 65535 when out of range; anything else gives 0.
   */
  function ParseUint16(s: string): (v: nat)
    ensures v < 65536
  {
    if s == "" || !AllDigits(s) then 0
    else if DigitsValue(s) > 65535 then 65535
    else DigitsValue(s)
  }

  lemma ParseUint16OfNat(n: nat)
    requires n < 65536
    ensures ParseUint16(NatString(n)) == n
  {
    NatStringValue(n);
  }
}
