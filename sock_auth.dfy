/**
 * The username/password authenticator of pkg/proxy/socks5/sock_auth.go:
 * a configured pair and a check of a presented pair against it.
 */
module SockAuths {

  /** The options `NewSockAuth` is built from. */
  datatype SockAuthOpt = SockAuthOpt(user: string, pass: string)

  /** The configured credentials. */
  datatype SockAuth = SockAuth(user: string, pass: string)

  /** `NewSockAuth`: keeps exactly the configured user and password. */
  function NewSockAuth(opt: SockAuthOpt): (a: SockAuth)
    ensures a.user == opt.user && a.pass == opt.pass
  {
    SockAuth(opt.user, opt.pass)
  }

  /** `Auth`: a user mismatch rejects at once; otherwise the passwords decide. */
  function Auth(a: SockAuth, user: string, pass: string): bool
  {
    if a.user != user then false else a.pass == pass
  }

  /** Auth accepts exactly the configured pair. */
  lemma AuthExactly(a: SockAuth, user: string, pass: string)
    ensures Auth(a, user, pass) <==> user == a.user && pass == a.pass
  {
  }

  /** A wrong user is rejected whatever the password. */
  lemma AuthWrongUser(a: SockAuth, user: string, pass: string)
    requires user != a.user
    ensures !Auth(a, user, pass)
    ensures forall p :: !Auth(a, user, p)
  {
  }

  /** With empty configured credentials only the empty pair is accepted. */
  lemma AuthEmptyCredentials(opt: SockAuthOpt, user: string, pass: string)
    requires opt.user == "" && opt.pass == ""
    ensures Auth(NewSockAuth(opt), user, pass) <==> user == "" && pass == ""
  {
  }
}
