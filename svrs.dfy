/**
 * svrs/svrs.go: the process-wide table of running servers, keyed by
 * listen address, with the closer that stops each.
 */
module Svrs {
  import opened Wrappers

  const AddrExists := "addr exists"

  /** A running server as an `io.Closer`: the number of times it has been closed. */
  class Closer {
    var closes: nat

    constructor ()
      ensures closes == 0
    {
      closes := 0;
    }

    method Close()
      modifies this
      ensures closes == old(closes) + 1
    {
      closes := closes + 1;
    }
  }

  /** `serverElement`: what GetServerElements reports. */
  datatype Element = Element(name: string, addr: string)

  /** `serverItem`: the element and its closer. */
  datatype Item = Item(name: string, addr: string, closer: Closer)

  /** The entries registered under the same closer as `c`. */
  function EntriesOf(m: map<string, Item>, c: Closer): set<string>
  {
    set a | a in m && m[a].closer == c
  }

  class Servers {
    var svrs: map<string, Item>

    /** Each item is stored under its own address. */
    predicate Valid()
      reads this
    {
      forall a :: a in svrs ==> svrs[a].addr == a
    }

    function Closers(): set<Closer>
      reads this
    {
      set a | a in svrs :: svrs[a].closer
    }

    constructor ()
      ensures svrs == map[] && Valid()
    {
      svrs := map[];
    }

    /** `Init`: a fresh, empty table. */
    method Init()
      modifies this
      ensures svrs == map[] && Valid()
    {
      svrs := map[];
    }

    /** `Add`: "addr exists" and no change for a known address; otherwise the new entry and nothing else. */
    method Add(name: string, addr: string, server: Closer) returns (err: Error)
      requires Valid()
      modifies this
      ensures Valid()
      ensures err.Some? <==> addr in old(svrs)
      ensures err.Some? ==> err == Some(AddrExists) && svrs == old(svrs)
      ensures err.None? ==> svrs == old(svrs)[addr := Item(name, addr, server)]
    {
      if addr in svrs {
        return Some(AddrExists);
      }
      svrs := svrs[addr := Item(name, addr, server)];
      return None;
    }

    /** `GetServerElements`: one element per entry, in no particular order. */
    method GetServerElements() returns (ses: seq<Element>)
      requires Valid()
      ensures |ses| == |svrs|
      ensures forall i :: 0 <= i < |ses| ==> ses[i].addr in svrs && ses[i].name == svrs[ses[i].addr].name
      ensures forall i, j :: 0 <= i < j < |ses| ==> ses[i].addr != ses[j].addr
      ensures forall a :: a in svrs ==> exists i :: 0 <= i < |ses| && ses[i].addr == a
    {
      ses := [];
      var rest := svrs.Keys;
      while rest != {}
        invariant rest <= svrs.Keys && |ses| + |rest| == |svrs|
        invariant forall i :: 0 <= i < |ses| ==> ses[i].addr in svrs && ses[i].addr !in rest && ses[i].name == svrs[ses[i].addr].name
        invariant forall i, j :: 0 <= i < j < |ses| ==> ses[i].addr != ses[j].addr
        invariant forall a :: a in svrs && a !in rest ==> exists i :: 0 <= i < |ses| && ses[i].addr == a
        decreases |rest|
      {
        var a :| a in rest;
        var si := svrs[a];
        ghost var prev := ses;
        ses := ses + [Element(si.name, si.addr)];
        assert forall i :: 0 <= i < |prev| ==> ses[i] == prev[i];
        assert ses[|prev|].addr == a;
        rest := rest - {a};
      }
    }

    /** `Del`: no-op for an unknown address; otherwise removes only that entry and closes its server once. */
    method Del(addr: string)
      requires Valid()
      modifies this, Closers()
      ensures Valid()
      ensures svrs == old(svrs) - {addr}
      ensures addr in old(svrs) ==> old(svrs)[addr].closer.closes == old(svrs[addr].closer.closes) + 1
      ensures forall c :: c in old(Closers()) && (addr !in old(svrs) || c != old(svrs)[addr].closer) ==>
        c.closes == old(c.closes)
    {
      if addr !in svrs {
        return;
      }
      var svr := svrs[addr];
      svrs := svrs - {addr};
      svr.closer.Close();
    }

    /** `CloseAll`: each entry's server is closed once per entry; the table is left as it is. */
    method CloseAll()
      requires Valid()
      modifies Closers()
      ensures svrs == old(svrs)
      ensures forall c :: c in old(Closers()) ==> c.closes == old(c.closes) + |EntriesOf(svrs, c)|
    {
      ghost var cs := Closers();
      var rest := svrs.Keys;
      while rest != {}
        invariant rest <= svrs.Keys
        invariant forall c :: c in cs ==> c.closes == old(c.closes) + |ClosedEntries(svrs, c, rest)|
        decreases |rest|
      {
        var a :| a in rest;
        var c := svrs[a].closer;
        CountStep(svrs, cs, rest, a);
        CloseOne(c, cs);
        rest := rest - {a};
      }
      NoneLeft(svrs, cs);
    }
  }

  /** The entries of `c` whose key is no longer pending. */
  function ClosedEntries(m: map<string, Item>, c: Closer, rest: set<string>): set<string>
  {
    set a | a in m && a !in rest && m[a].closer == c
  }

  /** Taking one pending key out adds it to the closed entries of its own closer only. */
  lemma CountStep(m: map<string, Item>, cs: set<Closer>, rest: set<string>, a: string)
    requires a in rest && a in m
    ensures forall d :: d in cs ==>
      |ClosedEntries(m, d, rest - {a})| == |ClosedEntries(m, d, rest)| + (if d == m[a].closer then 1 else 0)
  {
    forall d | d in cs
      ensures |ClosedEntries(m, d, rest - {a})| == |ClosedEntries(m, d, rest)| + (if d == m[a].closer then 1 else 0)
    {
      if d == m[a].closer {
        assert ClosedEntries(m, d, rest - {a}) == ClosedEntries(m, d, rest) + {a};
      } else {
        assert ClosedEntries(m, d, rest - {a}) == ClosedEntries(m, d, rest);
      }
    }
  }

  lemma NoneLeft(m: map<string, Item>, cs: set<Closer>)
    ensures forall c :: c in cs ==> ClosedEntries(m, c, {}) == EntriesOf(m, c)
  {
  }

  /** Closes c once; every other closer keeps its count. */
  method CloseOne(c: Closer, ghost cs: set<Closer>)
    modifies c
    ensures forall d :: d in cs ==> d.closes == old(d.closes) + (if d == c then 1 else 0)
  {
    c.Close();
  }
}
