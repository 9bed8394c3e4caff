/**
 * The C string functions the argv dispatchers in pkg/auth/basic use:
 * `strlen` and `strncmp` over NUL-terminated strings.
 */
module CStrings {
  import opened Text

  /** A C string's characters before its terminating NUL, as argv and literals hold them. */
  type CString = s: string | '\0' !in s

  /** The character at position k, reading the terminating NUL past the end. */
  function At(s: CString, k: nat): char
  {
    if k < |s| then s[k] else '\0'
  }

  /**
   * `strncmp(s1, s2, n)`: compares at most n characters, stopping after a
   * NUL both strings share; the difference of the first characters that
   * differ, or 0.
   */
  function Strncmp(s1: CString, s2: CString, n: nat): int
  {
    if n == 0 then 0
    else if At(s1, 0) != At(s2, 0) then At(s1, 0) as int - At(s2, 0) as int
    else if At(s1, 0) == '\0' then 0
    else Strncmp(s1[1..], s2[1..], n - 1)
  }

  /**
   * `strncmp(arg, name, strlen(arg)) == 0` holds exactly when arg is a
   * prefix of name, the empty argument included.
   */
  lemma {:induction false} StrncmpPrefix(arg: CString, name: CString)
    ensures Strncmp(arg, name, |arg|) == 0 <==> HasPrefix(name, arg)
  {
    if arg != [] {
      if name != [] && arg[0] == name[0] {
        StrncmpPrefix(arg[1..], name[1..]);
        assert HasPrefix(name, arg) <==> HasPrefix(name[1..], arg[1..]) by {
          if HasPrefix(name[1..], arg[1..]) {
            assert name[..|arg|] == [name[0]] + name[1..][..|arg| - 1];
            assert arg == [arg[0]] + arg[1..];
          }
          if HasPrefix(name, arg) {
            assert name[1..][..|arg| - 1] == name[..|arg|][1..];
          }
        }
      } else if name != [] && |arg| <= |name| {
        assert name[..|arg|][0] != arg[0];
      }
    }
  }
}
