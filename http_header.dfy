/**
 * The parts of Go's `net/http.Header` the proxies rely on: a map from
 * canonical keys to lists of values, with `Get`, `Set`, `Add` and `Clone`,
 * and the loop that adds every value of one header into another.
 */
module HttpHeaders {
  import opened Maps

  type Header = map<string, seq<string>>

  /** A byte allowed in a header field name: a token character of RFC 9110 section 5.6.2. */
  predicate TokenChar(c: char)
  {
    ('a' <= c <= 'z') || ('A' <= c <= 'Z') || ('0' <= c <= '9') ||
    c in {'!', '#', '$', '%', '&', '\'', '*', '+', '-', '.', '^', '_', '`', '|', '~'}
  }

  predicate AllTokenChars(s: string)
  {
    forall i :: 0 <= i < |s| ==> TokenChar(s[i])
  }

  function ToUpper(c: char): char
  {
    if 'a' <= c <= 'z' then (c as int - 32) as char else c
  }

  function ToLower(c: char): char
  {
    if 'A' <= c <= 'Z' then (c as int + 32) as char else c
  }

  /** The letters of s upper-cased at the start and after each '-', lower-cased elsewhere. */
  function CanonicalCase(s: string, upper: bool): (r: string)
    ensures |r| == |s|
  {
    if s == [] then ""
    else [if upper then ToUpper(s[0]) else ToLower(s[0])] + CanonicalCase(s[1..], s[0] == '-')
  }

  /**
   * `textproto.CanonicalMIMEHeaderKey`: a key made of token characters is
   * put in canonical case; any other key is kept as given.
   */
  function CanonicalKey(s: string): (r: string)
    ensures |r| == |s|
  {
    if AllTokenChars(s) then CanonicalCase(s, true) else s
  }

  lemma {:induction false} CanonicalCaseIdempotent(s: string, upper: bool)
    ensures CanonicalCase(CanonicalCase(s, upper), upper) == CanonicalCase(s, upper)
    ensures AllTokenChars(s) ==> AllTokenChars(CanonicalCase(s, upper))
  {
    if s != [] {
      CanonicalCaseIdempotent(s[1..], s[0] == '-');
      var r := CanonicalCase(s, upper);
      assert r[1..] == CanonicalCase(s[1..], s[0] == '-');
      assert (r[0] == '-') == (s[0] == '-');
    }
  }

  /** Canonicalizing twice is canonicalizing once. */
  lemma CanonicalKeyIdempotent(s: string)
    ensures CanonicalKey(CanonicalKey(s)) == CanonicalKey(s)
  {
    CanonicalCaseIdempotent(s, true);
  }

  /** Every key of h is in canonical form, as the keys of a header Go parsed are. */
  predicate CanonicalKeys(h: Header)
  {
    forall k :: k in h ==> CanonicalKey(k) == k
  }

  /** The values under a key, [] when the key is absent. */
  function Values(h: Header, k: string): seq<string>
  {
    if k in h then h[k] else []
  }

  /** `Header.Get`: the first value under the canonical key, or "". */
  function Get(h: Header, key: string): (v: string)
    ensures v != "" ==> v in Values(h, CanonicalKey(key))
  {
    var vs := Values(h, CanonicalKey(key));
    if vs == [] then "" else vs[0]
  }

  /** `Header.Set`: the canonical key holds exactly [value]. */
  function Set(h: Header, key: string, value: string): Header
  {
    h[CanonicalKey(key) := [value]]
  }

  /** `Header.Add`: value appended under the canonical key. */
  function Add(h: Header, key: string, value: string): Header
  {
    h[CanonicalKey(key) := Values(h, CanonicalKey(key)) + [value]]
  }

  /** Get reads back what Set stored, and Set touches no other canonical key. */
  lemma GetSet(h: Header, key: string, value: string, other: string)
    ensures Get(Set(h, key, value), key) == value
    ensures CanonicalKey(other) != CanonicalKey(key) ==> Get(Set(h, key, value), other) == Get(h, other)
  {
  }

  /** Add keeps the earlier values in front, so Get still returns the first one. */
  lemma GetAdd(h: Header, key: string, value: string)
    ensures Values(Add(h, key, value), key) == Values(h, key) + [value] || CanonicalKey(key) != key
    ensures Get(h, key) != "" ==> Get(Add(h, key, value), key) == Get(h, key)
    ensures Get(h, key) == "" && Values(h, CanonicalKey(key)) == [] ==> Get(Add(h, key, value), key) == value
  {
  }

  /** dst with every value of src appended under its key; keys with no values are not created. */
  function AddedAll(dst: Header, src: Header): Header
  {
    map k | k in dst.Keys + src.Keys && (k in dst || src[k] != []) :: Values(dst, k) + Values(src, k)
  }

  /** h is dst with the values of src's keys in done appended, key by key. */
  ghost predicate AddedUpTo(h: Header, dst: Header, src: Header, done: set<string>)
  {
    (forall k :: k in h <==> k in dst || (k in src && k in done && src[k] != [])) &&
    (forall k :: k in h ==> h[k] == Values(dst, k) + (if k in done then Values(src, k) else []))
  }

  lemma AddedUpToAll(h: Header, dst: Header, src: Header)
    requires AddedUpTo(h, dst, src, src.Keys)
    ensures h == AddedAll(dst, src)
  {
    var a := AddedAll(dst, src);
    assert h.Keys == a.Keys;
    forall k | k in h
      ensures h[k] == a[k]
    {
      if k !in src {
        assert Values(src, k) == [];
      }
    }
  }

  lemma AddedUpToStep(h: Header, dst: Header, src: Header, done: set<string>, k: string)
    requires AddedUpTo(h, dst, src, done) && k in src && k !in done
    ensures AddedUpTo(if src[k] == [] then h else h[k := Values(h, k) + src[k]], dst, src, done + {k})
  {
    var h' := if src[k] == [] then h else h[k := Values(h, k) + src[k]];
    var done' := done + {k};
    forall j
      ensures j in h' <==> j in dst || (j in src && j in done' && src[j] != [])
    {
      if j != k {
        assert j in h' <==> j in h;
      }
    }
    forall j | j in h'
      ensures h'[j] == Values(dst, j) + (if j in done' then Values(src, j) else [])
    {
      if j != k {
        assert h'[j] == h[j];
      } else if src[k] != [] {
        assert Values(h, k) == Values(dst, k);
      }
    }
  }

  /** The inner loop: every value of vs added under k, in order. */
  method AddValues(h: Header, k: string, vs: seq<string>) returns (r: Header)
    ensures CanonicalKey(k) == k ==> r == if vs == [] then h else h[k := Values(h, k) + vs]
  {
    r := h;
    var i := 0;
    while i < |vs|
      invariant 0 <= i <= |vs|
      invariant CanonicalKey(k) == k ==> r == if i == 0 then h else h[k := Values(h, k) + vs[..i]]
    {
      ghost var prev := r;
      r := Add(r, k, vs[i]);
      if CanonicalKey(k) == k {
        assert vs[..0] == [];
        assert Values(prev, k) == Values(h, k) + vs[..i];
        assert vs[..i + 1] == vs[..i] + [vs[i]];
        var v := Values(h, k) + vs[..i + 1];
        assert Values(prev, k) + [vs[i]] == v;
        assert r == prev[CanonicalKey(k) := Values(prev, CanonicalKey(k)) + [vs[i]]];
        assert r == prev[k := v];
        if i > 0 {
          assert prev == h[k := Values(h, k) + vs[..i]];
        }
        assert prev[k := v] == h[k := v];
      }
      i := i + 1;
    }
    assert vs[..|vs|] == vs;
  }

  /**
   * `for k, vs := range src { for _, v := range vs { dst.Add(k, v) } }`:
   * the keys are visited in no particular order. When src's keys are
   * canonical the result is src's values appended to dst's.
   */
  method AddAll(dst: Header, src: Header) returns (h: Header)
    ensures CanonicalKeys(src) ==> h == AddedAll(dst, src)
  {
    h := dst;
    var todo := src.Keys;
    while todo != {}
      invariant todo <= src.Keys
      invariant CanonicalKeys(src) ==> AddedUpTo(h, dst, src, src.Keys - todo)
      decreases |todo|
    {
      var k :| k in todo;
      ghost var h0 := h;
      h := AddValues(h, k, src[k]);
      TakeOne(src.Keys, todo, k);
      if CanonicalKeys(src) {
        AddedUpToStep(h0, dst, src, src.Keys - todo, k);
      }
      todo := todo - {k};
    }
    if CanonicalKeys(src) {
      AddedUpToAll(h, dst, src);
    }
  }
}
