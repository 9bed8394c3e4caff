/**
 * pkg/proxy/tcp/server.go: a TCP proxy server that registers every
 * accepted connection whose keep-alive setup succeeds, before the
 * connection has done anything, under increasing IDs.
 */
module TcpServers {
  import opened Wrappers
  import opened Maps

  /** The proxy types; a server left at UnknownProxy is made an HTTP proxy. */
  const UnknownProxy := 0
  const HttpProxy := 1

  /** `ServerOpt`, which NewServer updates in place. */
  class ServerOpt {
    var addr: string
    var proxyType: int

    constructor (addr: string, proxyType: int)
      ensures this.addr == addr && this.proxyType == proxyType
    {
      this.addr := addr;
      this.proxyType := proxyType;
    }
  }

  /** The proxy type a server runs with: never unknown, and any type already chosen is kept. */
  function EffectiveProxyType(t: int): (r: int)
    ensures r != UnknownProxy
    ensures t != UnknownProxy ==> r == t
    ensures t == UnknownProxy ==> r == HttpProxy
  {
    if t == UnknownProxy then HttpProxy else t
  }

  /** The connection as the registry sees it: an ID and a closed flag. */
  class Conn {
    const id: nat
    var closed: bool

    constructor (id: nat)
      ensures this.id == id && !closed
    {
      this.id := id;
      closed := false;
    }

    /** `Close`: nil on a second call; otherwise closed, returning the client socket's close error. */
    method Close(srcCloseErr: Error) returns (err: Error)
      modifies this
      ensures closed
      ensures err == if old(closed) then None else srcCloseErr
    {
      if closed {
        return None;
      }
      closed := true;
      return srcCloseErr;
    }
  }

  class Server {
    const addr: string
    const proxyType: int
    var connID: nat
    var conns: map<nat, Conn>
    var closeChClosed: bool
    var closed: bool

    /** Every registered connection sits under its own ID, below the counter. */
    predicate Valid()
      reads this
    {
      forall id :: id in conns ==> id < connID && conns[id].id == id
    }

    /** `NewServer`: fills in the default proxy type in the options, then counter 0, no connections, open. */
    constructor (opt: ServerOpt)
      modifies opt
      ensures opt.proxyType == EffectiveProxyType(old(opt.proxyType)) && opt.addr == old(opt.addr)
      ensures addr == opt.addr && proxyType == opt.proxyType
      ensures connID == 0 && conns == map[] && !closed && !closeChClosed
      ensures Valid()
    {
      if opt.proxyType == UnknownProxy {
        opt.proxyType := HttpProxy;
      }
      addr := opt.addr;
      proxyType := opt.proxyType;
      connID := 0;
      conns := map[];
      closeChClosed := false;
      closed := false;
    }

    /**
     * One pass of serveAccept's loop: stop once closeCh is closed; skip a
     * failed accept or a failed keep-alive setting; otherwise register the
     * new connection under the current ID and move the counter on, whatever
     * its own reading later does.
     */
    method ServeAcceptStep(acceptErr: Error, keepAliveErr: Error, keepAlivePeriodErr: Error)
      returns (stop: bool, err: Error)
      requires Valid()
      modifies this
      ensures Valid()
      ensures stop <==> old(closeChClosed)
      ensures closed == old(closed) && closeChClosed == old(closeChClosed)
      ensures !stop ==> err == (if acceptErr.Some? then acceptErr else if keepAliveErr.Some? then keepAliveErr
                                else keepAlivePeriodErr)
      ensures stop || err.Some? ==> conns == old(conns) && connID == old(connID)
      ensures !stop && err.None? ==>
        connID == old(connID) + 1 && old(connID) in conns && fresh(conns[old(connID)]) &&
        conns == old(conns)[old(connID) := conns[old(connID)]]
    {
      if closeChClosed {
        return true, None;
      }
      if acceptErr.Some? {
        return false, acceptErr;
      }
      if keepAliveErr.Some? {
        return false, keepAliveErr;
      }
      if keepAlivePeriodErr.Some? {
        return false, keepAlivePeriodErr;
      }
      var curConnId := connID;
      var c := new Conn(curConnId);
      conns := conns[curConnId := c];
      connID := connID + 1;
      return false, None;
    }

    /** `delConn`: removes that ID when present, and nothing else. */
    method DelConn(id: nat)
      requires Valid()
      modifies this
      ensures Valid()
      ensures conns == old(conns) - {id}
      ensures id !in old(conns) ==> conns == old(conns)
      ensures connID == old(connID) && closed == old(closed) && closeChClosed == old(closeChClosed)
    {
      if id !in conns {
        return;
      }
      conns := conns - {id};
    }

    /**
     * `Close`: a second call returns nil. The first marks the server
     * closed, closes the accept channel, closes and removes every
     * connection, and returns the listener's close error.
     */
    method Close(listenerErr: Error) returns (err: Error)
      requires Valid()
      modifies this, conns.Values
      ensures Valid() && connID == old(connID) && closed
      ensures old(closed) ==> err == None && conns == old(conns) && closeChClosed == old(closeChClosed)
      ensures !old(closed) ==>
        conns == map[] && err == listenerErr && closeChClosed && forall id :: id in old(conns) ==> old(conns)[id].closed
    {
      if closed {
        return None;
      }
      closed := true;
      closeChClosed := true;
      CloseConns();
      return listenerErr;
    }

    /** The loop of Close: every registered connection is closed and the map emptied. */
    method CloseConns()
      requires Valid()
      modifies this, conns.Values
      ensures Valid() && conns == map[]
      ensures connID == old(connID) && closed == old(closed) && closeChClosed == old(closeChClosed)
      ensures forall id :: id in old(conns) ==> old(conns)[id].closed
    {
      ghost var all := conns;
      while conns != map[]
        invariant conns.Keys <= all.Keys && forall id :: id in conns ==> conns[id] == all[id]
        invariant forall id :: id in all && id !in conns ==> all[id].closed
        invariant connID == old(connID) && closed == old(closed) && closeChClosed == old(closeChClosed)
        invariant forall id :: id in all ==> all[id].id == id
        decreases |conns|
      {
        var id :| id in conns;
        RemoveOne(conns, all, id);
        CloseOne(all, id);
      }
    }

    /** One pass of Close's loop: connection id is closed and dropped from the map, and no other is touched. */
    method CloseOne(ghost all: map<nat, Conn>, id: nat)
      requires id in conns && conns.Keys <= all.Keys && forall j :: j in conns ==> conns[j] == all[j]
      requires forall j :: j in all ==> all[j].id == j
      modifies this, conns.Values
      ensures conns == old(conns) - {id}
      ensures connID == old(connID) && closed == old(closed) && closeChClosed == old(closeChClosed)
      ensures all[id].closed
      ensures forall j :: j in all && j != id ==> unchanged(all[j])
    {
      var c := conns[id];
      var _ := c.Close(None);
      conns := conns - {id};
    }
  }
}
