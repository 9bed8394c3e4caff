/**
 * pkg/proxy/http-svr: an httpConn per accepted client, which either
 * forwards one plain request or opens a CONNECT tunnel, and the
 * HttpServer registry that keeps the tunnels under increasing IDs.
 */
module HttpSvr {
  import opened Wrappers
  import opened Maps
  import opened HttpHeaders
  import opened HttpTunnels

  /** The error a plain request ends with; the server does not log it. */
  const ErrNotTunnelProxy := "not tunnel proxy"

  class HttpConn {
    const id: nat
    var dstConn: Option<string>
    var keepAlive: bool
    var forwarded: Option<Header>
    var written: Option<Response>
    var closed: bool
    var closeChClosed: bool
    var srcClosed: bool
    var dstClosed: bool
    var copying: bool

    function State(): TunnelConn
      reads this
    {
      TunnelConn(dstConn, keepAlive, forwarded, written, closed, closeChClosed, srcClosed, dstClosed, copying)
    }

    /** `newConn`. */
    constructor (id: nat)
      ensures this.id == id && State() == NewTunnelConn()
    {
      this.id := id;
      dstConn, keepAlive, forwarded, written := None, false, None, None;
      closed, closeChClosed, srcClosed, dstClosed, copying := false, false, false, false, false;
    }

    /** `createDstConn`, storing the dialled destination as dstConn. */
    method CreateDstConn(ex: Exchange) returns (err: Error)
      modifies this
      ensures State() == AfterCreate(old(State()), CreateDstConnSpec(ex, ErrNotTunnelProxy))
      ensures err == CreateDstConnSpec(ex, ErrNotTunnelProxy).err
    {
      var o := HttpTunnels.CreateDstConn(ex, ErrNotTunnelProxy);
      if o.dialed.Some? {
        dstConn := o.dialed;
      }
      keepAlive := keepAlive || o.keepAlive;
      forwarded := o.forwarded;
      written := o.response;
      return o.err;
    }

    /**
     * `Close`: a second call returns nil and changes nothing; the first
     * closes the channel, the destination when dialled (its error is only
     * logged) and returns the client socket's close error.
     */
    method Close(srcCloseErr: Error) returns (err: Error)
      modifies this
      ensures State() == CloseTunnel(old(State()))
      ensures err == if old(closed) then None else srcCloseErr
    {
      if closed {
        return None;
      }
      closed := true;
      closeChClosed := true;
      if dstConn.Some? {
        dstClosed := true;
      }
      srcClosed := true;
      return srcCloseErr;
    }

    /** `start`: close on a createDstConn error, otherwise run the copy loops. */
    method Start(ex: Exchange) returns (err: Error)
      modifies this
      ensures (State(), err) == StartTunnel(old(State()), ex, ErrNotTunnelProxy)
    {
      err := CreateDstConn(ex);
      if err.Some? {
        var _ := Close(None);
        return err;
      }
      copying := true;
      return None;
    }
  }

  class HttpServer {
    const addr: string
    var connID: nat
    var conns: map<nat, HttpConn>
    var closeChClosed: bool
    var closed: bool

    /** Every registered connection sits under its own ID, which is below the counter. */
    predicate Valid()
      reads this
    {
      forall id :: id in conns ==> id < connID && conns[id].id == id
    }

    /** `NewHttpServer`: counter 0, no connections, open. */
    constructor (addr: string)
      ensures this.addr == addr && connID == 0 && conns == map[] && !closed && !closeChClosed
      ensures Valid()
    {
      this.addr := addr;
      connID := 0;
      conns := map[];
      closeChClosed := false;
      closed := false;
    }

    /**
     * One pass of serveAccept's loop: stop once closeCh is closed; skip a
     * failed accept; start a connection under the current ID and register
     * it, moving the counter on, only when start succeeds, so a plain
     * request is never registered.
     */
    method ServeAcceptStep(acceptErr: Error, ex: Exchange) returns (stop: bool, err: Error)
      requires Valid()
      modifies this
      ensures Valid()
      ensures stop <==> old(closeChClosed)
      ensures closed == old(closed) && closeChClosed == old(closeChClosed)
      ensures !stop && acceptErr.None? ==> err == StartTunnel(NewTunnelConn(), ex, ErrNotTunnelProxy).1
      ensures stop || acceptErr.Some? || err.Some? ==> conns == old(conns) && connID == old(connID)
      ensures !stop && acceptErr.None? && ex.request.Ok? && ex.request.value.verb != MethodConnect ==>
        err.Some? && conns == old(conns)
      ensures !stop && acceptErr.None? && err.None? ==>
        connID == old(connID) + 1 && old(connID) in conns && fresh(conns[old(connID)]) &&
        conns == old(conns)[old(connID) := conns[old(connID)]] && conns[old(connID)].State().copying
    {
      if closeChClosed {
        return true, None;
      }
      if acceptErr.Some? {
        return false, acceptErr;
      }
      var curConnId := connID;
      var c := new HttpConn(curConnId);
      err := c.Start(ex);
      StartClosesOnError(NewTunnelConn(), ex, ErrNotTunnelProxy);
      if err.Some? {
        return false, err;
      }
      conns := conns[curConnId := c];
      connID := connID + 1;
      return false, None;
    }

    /** `delConn`: removes that ID when present, and nothing else. */
    method DelConn(id: nat)
      requires Valid()
      modifies this
      ensures Valid()
      ensures conns == old(conns) - {id}
      ensures id !in old(conns) ==> conns == old(conns)
      ensures connID == old(connID) && closed == old(closed) && closeChClosed == old(closeChClosed)
    {
      if id !in conns {
        return;
      }
      conns := conns - {id};
    }

    /**
     * `Close`: a second call returns nil. The first marks the server
     * closed, closes the accept channel, closes and removes every
     * connection, and returns the listener's close error.
     */
    method Close(listenerErr: Error) returns (err: Error)
      requires Valid()
      modifies this, conns.Values
      ensures Valid() && connID == old(connID) && closed
      ensures old(closed) ==> err == None && conns == old(conns) && closeChClosed == old(closeChClosed)
      ensures !old(closed) ==>
        conns == map[] && err == listenerErr && closeChClosed &&
        forall id :: id in old(conns) ==> old(conns)[id].State() == CloseTunnel(old(conns[id].State()))
    {
      if closed {
        return None;
      }
      closed := true;
      closeChClosed := true;
      CloseConns();
      return listenerErr;
    }

    /** The loop of Close: every connection is closed and removed from the map. */
    method CloseConns()
      requires Valid()
      modifies this, conns.Values
      ensures Valid() && conns == map[]
      ensures connID == old(connID) && closed == old(closed) && closeChClosed == old(closeChClosed)
      ensures forall id :: id in old(conns) ==> old(conns)[id].State() == CloseTunnel(old(conns[id].State()))
    {
      ghost var all := conns;
      while conns != map[]
        invariant conns.Keys <= all.Keys && forall id :: id in conns ==> conns[id] == all[id]
        invariant forall id :: id in all ==> all[id].id == id
        invariant forall id :: id in all && id !in conns ==> all[id].State() == CloseTunnel(old(all[id].State()))
        invariant forall id :: id in conns ==> unchanged(all[id])
        invariant connID == old(connID) && closed == old(closed) && closeChClosed == old(closeChClosed)
        invariant Valid()
        decreases |conns|
      {
        var id :| id in conns;
        RemoveOne(conns, all, id);
        CloseOne(all, id);
      }
    }

    /** One pass of CloseConns' loop: connection id is closed and dropped from the map. */
    method CloseOne(ghost all: map<nat, HttpConn>, id: nat)
      requires id in conns && conns.Keys <= all.Keys && forall j :: j in conns ==> conns[j] == all[j]
      requires forall j :: j in all ==> all[j].id == j
      modifies this, conns.Values
      ensures conns == old(conns) - {id} && connID == old(connID) && closed == old(closed) && closeChClosed == old(closeChClosed)
      ensures all[id].State() == CloseTunnel(old(all[id].State()))
      ensures forall j :: j in all && j != id ==> unchanged(all[j])
    {
      var c := conns[id];
      var _ := c.Close(None);
      conns := conns - {id};
    }
  }
}
