/**
 * The SOCKS5 server's connection registry, pkg/proxy/socks5/sock_server.go:
 * started connections are kept under increasing IDs, removed one at a
 * time by delConn, and all closed and removed by Close.
 */
module SockServers {
  import opened Wrappers
  import opened Maps
  import opened SockAuths
  import opened SockConns

  class SockServer {
    const addr: string
    const auth: Option<SockAuth>
    var connID: nat
    var conns: map<nat, SockConn>
    var closeChClosed: bool
    var closed: bool
    /**
     * The panic that ended the process, if any: serveAccept runs Start in
     * its own goroutine with no recover, so a panic there ends the program.
     */
    var crashed: Option<string>

    /**
     * Every registered ID was handed out before the counter moved past it,
     * and each connection is stored under its own ID.
     */
    predicate Valid()
      reads this, conns.Values
    {
      forall id :: id in conns ==> id < connID && conns[id].connID == id
    }

    /** `NewSockServer`: no connections, counter 0, open. */
    constructor (addr: string, auth: Option<SockAuth>)
      ensures this.addr == addr && this.auth == auth
      ensures conns == map[] && connID == 0 && !closed && !closeChClosed && crashed == None
      ensures Valid()
    {
      this.addr := addr;
      this.auth := auth;
      connID := 0;
      conns := map[];
      closeChClosed := false;
      closed := false;
      crashed := None;
    }

    /**
     * One pass of serveAccept's loop: stop once closeCh is closed; skip a
     * failed accept; otherwise start a new connection under the current ID
     * and register it only when Start succeeds. A panic in Start ends the
     * loop and is recorded in `crashed`.
     */
    method ServeAcceptStep(acceptErr: Error, p: Peer) returns (stop: bool, err: Error)
      requires Valid()
      modifies this
      ensures Valid()
      ensures var outcome := StartSpec(NewConnState(), auth, p).1;
        var crash := !old(closeChClosed) && acceptErr.None? && outcome.Panic?;
        (stop <==> old(closeChClosed) || crash) &&
        crashed == (if crash then Some(outcome.reason) else old(crashed))
      ensures closed == old(closed) && closeChClosed == old(closeChClosed)
      ensures !stop && acceptErr.None? ==> err == StartSpec(NewConnState(), auth, p).1.value
      ensures stop || acceptErr.Some? || err.Some? ==> conns == old(conns) && connID == old(connID)
      ensures !stop && acceptErr.None? && err.None? ==>
        connID == old(connID) + 1 && old(connID) in conns && fresh(conns[old(connID)]) &&
        conns == old(conns)[old(connID) := conns[old(connID)]] &&
        conns[old(connID)].connID == old(connID) && conns[old(connID)].State().copying
    {
      if closeChClosed {
        return true, None;
      }
      if acceptErr.Some? {
        return false, acceptErr;
      }
      var curConnId := connID;
      StartClosesOnFailure(NewConnState(), auth, p);
      var c := new SockConn(curConnId, auth);
      var panic;
      err, panic := c.Start(p);
      if panic.Some? {
        crashed := panic;
        return true, None;
      }
      if err.Some? {
        return false, err;
      }
      conns := conns[curConnId := c];
      connID := connID + 1;
      return false, None;
    }

    /** `delConn`: removes that ID, if present, and nothing else. */
    method DelConn(id: nat)
      requires Valid()
      modifies this
      ensures Valid()
      ensures conns == old(conns) - {id}
      ensures connID == old(connID) && closed == old(closed) && closeChClosed == old(closeChClosed)
      ensures crashed == old(crashed)
    {
      conns := conns - {id};
    }

    /**
     * `Close`: a second call does nothing. Otherwise every connection is
     * closed and removed; then the listener is closed, and only when that
     * succeeds does the server count as closed.
     */
    method Close(listenerErr: Error) returns (err: Error)
      requires Valid()
      modifies this, conns.Values
      ensures Valid() && connID == old(connID) && crashed == old(crashed)
      ensures old(closed) ==> err == None && conns == old(conns) && closed && closeChClosed == old(closeChClosed)
      ensures !old(closed) ==>
        conns == map[] && err == listenerErr &&
        (forall id :: id in old(conns) ==> old(conns)[id].State() == CloseSpec(old(conns[id].State()))) &&
        closed == listenerErr.None? && closeChClosed == (old(closeChClosed) || listenerErr.None?)
    {
      if closed {
        return None;
      }
      CloseConns();
      if listenerErr.Some? {
        return listenerErr;
      }
      closed := true;
      closeChClosed := true;
      return None;
    }

    /** The loop of Close: every registered connection is closed and the map emptied. */
    method CloseConns()
      requires Valid()
      modifies this, conns.Values
      ensures Valid() && conns == map[]
      ensures connID == old(connID) && closed == old(closed) && closeChClosed == old(closeChClosed)
      ensures crashed == old(crashed)
      ensures forall id :: id in old(conns) ==> old(conns)[id].State() == CloseSpec(old(conns[id].State()))
    {
      ghost var all := conns;
      while conns != map[]
        invariant conns.Keys <= all.Keys && forall id :: id in conns ==> conns[id] == all[id]
        invariant forall id :: id in all ==> id < connID && all[id].connID == id
        invariant forall id :: id in all && id !in conns ==> all[id].State() == CloseSpec(old(all[id].State()))
        invariant forall id :: id in conns ==> unchanged(all[id])
        invariant connID == old(connID) && closed == old(closed) && closeChClosed == old(closeChClosed)
        invariant crashed == old(crashed)
        decreases |conns|
      {
        var id :| id in conns;
        RemoveOne(conns, all, id);
        CloseOne(all, id);
      }
    }

    /** One pass of Close's loop: connection id is closed and dropped from the map. */
    method CloseOne(ghost all: map<nat, SockConn>, id: nat)
      requires id in conns && conns.Keys <= all.Keys && forall j :: j in conns ==> conns[j] == all[j]
      requires forall j :: j in all ==> all[j].connID == j
      modifies this, conns.Values
      ensures conns == old(conns) - {id} && connID == old(connID) && closed == old(closed) && closeChClosed == old(closeChClosed)
      ensures crashed == old(crashed)
      ensures all[id].State() == CloseSpec(old(all[id].State()))
      ensures forall j :: j in all && j != id ==> unchanged(all[j])
    {
      var c := conns[id];
      var _ := c.Close(None);
      conns := conns - {id};
    }
  }
}
