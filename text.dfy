/**
 * String helpers of the Go and C standard libraries that the model relies
 * on: decimal formatting (`%d`, `%v`), `strings.Split`/`strings.Join`,
 * `strings.Contains`, `strings.ReplaceAll`, `strings.HasPrefix` and the
 * whitespace tokenizer behind `fmt.Sscanf("%s%s")`.
 */
module Text {

  // ---------------------------------------------------------------------
  // Decimal numerals
  // ---------------------------------------------------------------------

  predicate IsDigit(c: char)
  {
    '0' <= c <= '9'
  }

  predicate AllDigits(s: string)
  {
    forall i :: 0 <= i < |s| ==> IsDigit(s[i])
  }

  function DigitChar(d: nat): (c: char)
    requires d < 10
    ensures IsDigit(c) && c as int - '0' as int == d
  {
    (d + '0' as int) as char
  }

  /** The decimal numeral of n, without leading zeros, as `%d`/`%v` print it. */
  function NatString(n: nat): (s: string)
    ensures |s| >= 1 && AllDigits(s)
  {
    if n < 10 then [DigitChar(n)] else NatString(n / 10) + [DigitChar(n % 10)]
  }

  /** The value of a string of decimal digits. */
  function DigitsValue(s: string): nat
    requires AllDigits(s)
  {
    if s == [] then 0 else 10 * DigitsValue(s[..|s| - 1]) + (s[|s| - 1] as int - '0' as int)
  }

  /** Reading a numeral back gives the number: NatString is injective. */
  lemma {:induction false} NatStringValue(n: nat)
    ensures DigitsValue(NatString(n)) == n
  {
    if n >= 10 {
      NatStringValue(n / 10);
      var s := NatString(n);
      assert s[..|s| - 1] == NatString(n / 10);
    }
  }

  lemma NatStringInjective(m: nat, n: nat)
    ensures NatString(m) == NatString(n) ==> m == n
  {
    NatStringValue(m);
    NatStringValue(n);
  }

  /** `%d` of a C or Go int. */
  function IntString(i: int): (s: string)
    ensures |s| >= 1
  {
    if i < 0 then "-" + NatString(-i) else NatString(i)
  }

  /** n written with at least `width` digits, zero-padded on the left (Go's "01" and "2006" layouts). */
  function PadDigits(n: nat, width: nat): (s: string)
    ensures AllDigits(s) && |s| >= width
    ensures |NatString(n)| <= width ==> |s| == width
    decreases width
  {
    if |NatString(n)| >= width then NatString(n) else "0" + PadDigits(n, width - 1)
  }

  lemma {:induction false} PadDigitsValue(n: nat, width: nat)
    ensures DigitsValue(PadDigits(n, width)) == n
    decreases width
  {
    if |NatString(n)| >= width {
      NatStringValue(n);
    } else {
      PadDigitsValue(n, width - 1);
      LeadingZero(PadDigits(n, width - 1));
    }
  }

  lemma {:induction false} LeadingZero(s: string)
    requires AllDigits(s)
    ensures DigitsValue("0" + s) == DigitsValue(s)
  {
    if s != [] {
      var t := "0" + s;
      assert t[..|t| - 1] == "0" + s[..|s| - 1];
      LeadingZero(s[..|s| - 1]);
    }
  }

  lemma NatStringLength(n: nat, k: nat)
    ensures n < Pow10(k) ==> |NatString(n)| <= k || (n == 0 && k == 0)
    decreases n
  {
    if n >= 10 && k > 0 && n < Pow10(k) {
      NatStringLength(n / 10, k - 1);
    }
  }

  function Pow10(k: nat): (r: nat)
    ensures r >= 1
  {
    if k == 0 then 1 else 10 * Pow10(k - 1)
  }

  // ---------------------------------------------------------------------
  // Searching
  // ---------------------------------------------------------------------

  predicate HasPrefix(s: string, prefix: string)
  {
    |prefix| <= |s| && s[..|prefix|] == prefix
  }

  /** `strings.Contains(s, sub)`: sub occurs somewhere in s. */
  predicate Contains(s: string, sub: string)
  {
    exists i :: 0 <= i <= |s| - |sub| && HasPrefix(s[i..], sub)
  }

  /** `strings.IndexByte`: the first position of c, or -1. */
  function IndexOf(s: string, c: char): (r: int)
    ensures -1 <= r < |s|
    ensures r == -1 <==> c !in s
    ensures r >= 0 ==> s[r] == c && c !in s[..r]
  {
    if s == [] then -1
    else if s[0] == c then 0
    else var r := IndexOf(s[1..], c); if r < 0 then -1 else assert s[1..][..r] == s[1..r + 1]; r + 1
  }

  /** `strings.LastIndexByte`: the last position of c, or -1. */
  function LastIndexOf(s: string, c: char): (r: int)
    ensures -1 <= r < |s|
    ensures r == -1 <==> c !in s
    ensures r >= 0 ==> s[r] == c && c !in s[r + 1..]
  {
    if s == [] then -1
    else if s[|s| - 1] == c then |s| - 1
    else
      var r := LastIndexOf(s[..|s| - 1], c);
      SnocMembers(s, c, r);
      r
  }

  lemma SnocMembers(s: string, c: char, r: int)
    requires s != [] && s[|s| - 1] != c && -1 <= r < |s| - 1
    ensures c in s <==> c in s[..|s| - 1]
    ensures r >= 0 ==> s[r + 1..] == s[..|s| - 1][r + 1..] + [s[|s| - 1]]
  {
    assert s == s[..|s| - 1] + [s[|s| - 1]];
  }

  // ---------------------------------------------------------------------
  // strings.Split and strings.Join
  // ---------------------------------------------------------------------

  /** `strings.Split(s, string(c))`: the pieces between occurrences of c. */
  function Split(s: string, c: char): (parts: seq<string>)
    ensures |parts| >= 1
    ensures forall k :: 0 <= k < |parts| ==> c !in parts[k]
  {
    if s == [] then [""]
    else
      var rest := Split(s[1..], c);
      if s[0] == c then [""] + rest else [[s[0]] + rest[0]] + rest[1..]
  }

  /** `strings.Join(parts, sep)`. */
  function Join(parts: seq<string>, sep: string): string
  {
    if parts == [] then ""
    else if |parts| == 1 then parts[0]
    else parts[0] + sep + Join(parts[1..], sep)
  }

  /** Splitting on c and joining with c gives the string back. */
  lemma {:induction false} JoinSplit(s: string, c: char)
    ensures Join(Split(s, c), [c]) == s
  {
    if s != [] {
      JoinSplit(s[1..], c);
      var rest := Split(s[1..], c);
      if s[0] != c {
        if |rest| > 1 {
          assert ([[s[0]] + rest[0]] + rest[1..])[1..] == rest[1..];
        }
      }
    }
  }

  /** Appending one more piece to a non-empty list joins it after a separator. */
  lemma {:induction false} JoinAppend(parts: seq<string>, x: string, sep: string)
    requires parts != []
    ensures Join(parts + [x], sep) == Join(parts, sep) + sep + x
  {
    if |parts| > 1 {
      assert (parts + [x])[1..] == parts[1..] + [x];
      JoinAppend(parts[1..], x, sep);
    }
  }

  // ---------------------------------------------------------------------
  // strings.ReplaceAll
  // ---------------------------------------------------------------------

  /** `strings.ReplaceAll(s, pattern, repl)`: leftmost non-overlapping occurrences of pattern, replaced. */
  function ReplaceAll(s: string, pattern: string, repl: string): string
    requires pattern != []
    decreases |s|
  {
    if HasPrefix(s, pattern) then repl + ReplaceAll(s[|pattern|..], pattern, repl)
    else if s == [] then ""
    else [s[0]] + ReplaceAll(s[1..], pattern, repl)
  }

  /** A string without the pattern is left as it is. */
  lemma {:induction false} ReplaceAllAbsent(s: string, pattern: string, repl: string)
    requires pattern != [] && !Contains(s, pattern)
    ensures ReplaceAll(s, pattern, repl) == s
    decreases |s|
  {
    assert !HasPrefix(s[0..], pattern);
    assert s[0..] == s;
    if s != [] {
      forall i | 0 <= i <= |s[1..]| - |pattern|
        ensures !HasPrefix(s[1..][i..], pattern)
      {
        assert s[1..][i..] == s[i + 1..];
      }
      ReplaceAllAbsent(s[1..], pattern, repl);
    }
  }

  // ---------------------------------------------------------------------
  // fmt.Sscanf(s, "%s%s")
  // ---------------------------------------------------------------------

  /** The blanks fmt's scanner skips between `%s` operands on one line. */
  predicate IsSpace(c: char)
  {
    c == ' ' || c == '\t' || c == '\r' || c == '\U{000B}' || c == '\U{000C}'
  }

  predicate NoSpace(s: string)
  {
    forall i :: 0 <= i < |s| ==> !IsSpace(s[i])
  }

  function SkipSpace(s: string): (r: string)
    ensures |r| <= |s| && r == s[|s| - |r|..]
    ensures r != [] ==> !IsSpace(r[0])
  {
    if s != [] && IsSpace(s[0]) then SkipSpace(s[1..]) else s
  }

  /** The longest prefix without blanks. */
  function Token(s: string): (r: string)
    ensures HasPrefix(s, r) && NoSpace(r)
    ensures |r| < |s| ==> IsSpace(s[|r|])
  {
    if s == [] || IsSpace(s[0]) then "" else [s[0]] + Token(s[1..])
  }

  /** `fmt.Sscanf(s, "%s%s", &a, &b)`: two blank-separated tokens, or an error when either is missing. */
  function ScanTwo(s: string): (r: Option2)
    ensures r.Some2? ==> r.first != "" && r.second != "" && NoSpace(r.first) && NoSpace(r.second)
  {
    var s1 := SkipSpace(s);
    var t1 := Token(s1);
    var s2 := SkipSpace(s1[|t1|..]);
    var t2 := Token(s2);
    if t1 == "" || t2 == "" then None2 else Some2(t1, t2)
  }

  datatype Option2 = None2 | Some2(first: string, second: string)

  lemma {:induction false} TokenOfNoSpace(a: string, rest: string)
    requires NoSpace(a) && (rest == [] || IsSpace(rest[0]))
    ensures Token(a + rest) == a
  {
    if a != [] {
      assert (a + rest)[1..] == a[1..] + rest;
      TokenOfNoSpace(a[1..], rest);
    } else {
      assert a + rest == rest;
    }
  }

  lemma {:induction false} SkipSpaces(blanks: string, s: string)
    requires forall i :: 0 <= i < |blanks| ==> IsSpace(blanks[i])
    requires s == [] || !IsSpace(s[0])
    ensures SkipSpace(blanks + s) == s
  {
    if blanks != [] {
      assert (blanks + s)[1..] == blanks[1..] + s;
      SkipSpaces(blanks[1..], s);
    } else {
      assert blanks + s == s;
    }
  }

  /** Scanning "a b" gives back the two tokens a and b. */
  lemma ScanTwoJoined(a: string, b: string)
    requires a != "" && b != "" && NoSpace(a) && NoSpace(b)
    ensures ScanTwo(a + " " + b) == Some2(a, b)
  {
    var s := a + " " + b;
    LeadingToken(a, " " + b);
    assert s == a + (" " + b);
    SkipSpaces(" ", b);
    LeadingToken(b, "");
    assert b + "" == b;
  }

  /** A string that starts with a token a followed by a blank or nothing is scanned as a, then the rest. */
  lemma LeadingToken(a: string, rest: string)
    requires a != "" && NoSpace(a) && (rest == [] || IsSpace(rest[0]))
    ensures SkipSpace(a + rest) == a + rest && Token(a + rest) == a && (a + rest)[|a|..] == rest
  {
    TokenOfNoSpace(a, rest);
  }
}
