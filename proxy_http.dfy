/**
 * pkg/proxy's httpConn and httpServer: the same rules as the http-svr
 * package, except that a plain request ends with its own error, a
 * connection's Close removes it from its parent server, and the server's
 * Close forgets its connections without closing them.
 */
module ProxyHttp {
  import opened Wrappers
  import opened Maps
  import opened HttpHeaders
  import opened HttpTunnels

  const ErrNotTunnel := "not tunnel proxy, conn finished"

  class HttpConn {
    const parent: HttpServer
    const id: nat
    var dstConn: Option<string>
    var keepAlive: bool
    var forwarded: Option<Header>
    var written: Option<Response>
    var closed: bool
    var closeChClosed: bool
    var srcClosed: bool
    var dstClosed: bool
    var copying: bool

    function State(): TunnelConn
      reads this
    {
      TunnelConn(dstConn, keepAlive, forwarded, written, closed, closeChClosed, srcClosed, dstClosed, copying)
    }

    /** `newConn`. */
    constructor (parent: HttpServer, id: nat)
      ensures this.parent == parent && this.id == id && State() == NewTunnelConn()
    {
      this.parent := parent;
      this.id := id;
      dstConn, keepAlive, forwarded, written := None, false, None, None;
      closed, closeChClosed, srcClosed, dstClosed, copying := false, false, false, false, false;
    }

    /** `createDstConn`, storing the dialled destination as dstConn. */
    method CreateDstConn(ex: Exchange) returns (err: Error)
      modifies this
      ensures State() == AfterCreate(old(State()), CreateDstConnSpec(ex, ErrNotTunnel))
      ensures err == CreateDstConnSpec(ex, ErrNotTunnel).err
    {
      var o := HttpTunnels.CreateDstConn(ex, ErrNotTunnel);
      if o.dialed.Some? {
        dstConn := o.dialed;
      }
      keepAlive := keepAlive || o.keepAlive;
      forwarded := o.forwarded;
      written := o.response;
      return o.err;
    }

    /**
     * `Close`: a second call returns nil and changes nothing. The first
     * closes the channel and the destination when dialled, removes this
     * ID from the parent server, and returns the client socket's close
     * error.
     */
    method Close(srcCloseErr: Error) returns (err: Error)
      requires parent.Valid()
      modifies this, parent
      ensures State() == CloseTunnel(old(State()))
      ensures err == if old(closed) then None else srcCloseErr
      ensures parent.conns == if old(closed) then old(parent.conns) else old(parent.conns) - {id}
      ensures parent.Valid() && parent.connID == old(parent.connID)
      ensures parent.closed == old(parent.closed) && parent.closeChClosed == old(parent.closeChClosed)
    {
      if closed {
        return None;
      }
      closeChClosed := true;
      closed := true;
      if dstConn.Some? {
        dstClosed := true;
      }
      parent.DelConn(id);
      srcClosed := true;
      return srcCloseErr;
    }

    /** `start`: close on a createDstConn error, otherwise run the copy loops. */
    method Start(ex: Exchange) returns (err: Error)
      requires parent.Valid()
      modifies this, parent
      ensures (State(), err) == StartTunnel(old(State()), ex, ErrNotTunnel)
      ensures parent.conns == if err.Some? && !old(closed) then old(parent.conns) - {id} else old(parent.conns)
      ensures parent.Valid() && parent.connID == old(parent.connID)
      ensures parent.closed == old(parent.closed) && parent.closeChClosed == old(parent.closeChClosed)
    {
      err := CreateDstConn(ex);
      if err.Some? {
        var _ := Close(None);
        return err;
      }
      copying := true;
      return None;
    }
  }

  class HttpServer {
    const addr: string
    var connID: nat
    var conns: map<nat, HttpConn>
    var closeChClosed: bool
    var closed: bool

    /** Every registered connection belongs to this server and sits under its own ID, below the counter. */
    predicate Valid()
      reads this
    {
      forall id :: id in conns ==> id < connID && conns[id].id == id && conns[id].parent == this
    }

    /** `NewHttpServer`: counter 0, no connections, open. */
    constructor (addr: string)
      ensures this.addr == addr && connID == 0 && conns == map[] && !closed && !closeChClosed
      ensures Valid()
    {
      this.addr := addr;
      connID := 0;
      conns := map[];
      closeChClosed := false;
      closed := false;
    }

    /**
     * One pass of serveAccept's loop: stop once closeCh is closed; skip a
     * failed accept; start a connection under the current ID and register
     * it, moving the counter on, only when start succeeds. The failed
     * start's own Close removes an ID that is not registered yet, which
     * changes nothing.
     */
    method ServeAcceptStep(acceptErr: Error, ex: Exchange) returns (stop: bool, err: Error)
      requires Valid()
      modifies this
      ensures Valid()
      ensures stop <==> old(closeChClosed)
      ensures closed == old(closed) && closeChClosed == old(closeChClosed)
      ensures !stop && acceptErr.None? ==> err == StartTunnel(NewTunnelConn(), ex, ErrNotTunnel).1
      ensures stop || acceptErr.Some? || err.Some? ==> conns == old(conns) && connID == old(connID)
      ensures !stop && acceptErr.None? && err.None? ==>
        connID == old(connID) + 1 && old(connID) in conns && fresh(conns[old(connID)]) &&
        conns == old(conns)[old(connID) := conns[old(connID)]] && conns[old(connID)].State().copying
    {
      if closeChClosed {
        return true, None;
      }
      if acceptErr.Some? {
        return false, acceptErr;
      }
      var curConnId := connID;
      StartClosesOnError(NewTunnelConn(), ex, ErrNotTunnel);
      var c := new HttpConn(this, curConnId);
      err := c.Start(ex);
      if err.Some? {
        RemoveAbsent(old(conns), curConnId);
        return false, err;
      }
      Register(c);
      return false, None;
    }

    /** The registration step of serveAccept: the started connection is stored under the current ID and the counter moves on. */
    method Register(c: HttpConn)
      requires Valid() && c.id == connID && c.parent == this
      modifies this
      ensures Valid()
      ensures conns == old(conns)[old(connID) := c] && connID == old(connID) + 1
      ensures closed == old(closed) && closeChClosed == old(closeChClosed)
    {
      conns := conns[connID := c];
      connID := connID + 1;
    }

    /** `delConn`: removes that ID when present, and nothing else. */
    method DelConn(id: nat)
      requires Valid()
      modifies this
      ensures Valid()
      ensures conns == old(conns) - {id}
      ensures id !in old(conns) ==> conns == old(conns)
      ensures connID == old(connID) && closed == old(closed) && closeChClosed == old(closeChClosed)
    {
      if id !in conns {
        return;
      }
      conns := conns - {id};
    }

    /**
     * `Close`: a second call returns nil. The first marks the server
     * closed, closes the accept channel and empties the map without
     * closing any connection, and returns the listener's close error.
     */
    method Close(listenerErr: Error) returns (err: Error)
      requires Valid()
      modifies this
      ensures Valid() && connID == old(connID) && closed
      ensures old(closed) ==> err == None && conns == old(conns) && closeChClosed == old(closeChClosed)
      ensures !old(closed) ==> conns == map[] && err == listenerErr && closeChClosed
      ensures forall c :: c in old(conns).Values ==> c.State() == old(c.State())
    {
      if closed {
        return None;
      }
      closed := true;
      closeChClosed := true;
      while conns != map[]
        invariant connID == old(connID) && closed && closeChClosed
        invariant Valid()
        decreases |conns|
      {
        var cID :| cID in conns;
        conns := conns - {cID};
      }
      return listenerErr;
    }
  }
}
