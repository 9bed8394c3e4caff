/**
 * proxy/http/server.go: the HTTP proxy registry that keeps connections
 * whose start succeeded under increasing IDs. The connection type itself
 * is not part of this model: its start result is a parameter.
 */
module HttpProxyServer {
  import opened Wrappers
  import opened Maps

  /** The connection as the registry sees it: an ID, whether it runs, and a closed flag. */
  class Conn {
    const id: nat
    var running: bool
    var closed: bool

    constructor (id: nat)
      ensures this.id == id && !running && !closed
    {
      this.id := id;
      running := false;
      closed := false;
    }

    /** `start`, whose own steps are given by its result. */
    method Start(startErr: Error) returns (err: Error)
      modifies this
      ensures err == startErr && running == (old(running) || startErr.None?) && closed == old(closed)
    {
      if startErr.None? {
        running := true;
      }
      return startErr;
    }

    /** `Close`: nil on a second call; otherwise closed, returning the socket's close error. */
    method Close(closeErr: Error) returns (err: Error)
      modifies this
      ensures closed && running == old(running)
      ensures err == if old(closed) then None else closeErr
    {
      if closed {
        return None;
      }
      closed := true;
      return closeErr;
    }
  }

  class Server {
    const addr: string
    var connID: nat
    var conns: map<nat, Conn>
    var closeChClosed: bool
    var closed: bool

    /** Every registered connection sits under its own ID, below the counter. */
    predicate Valid()
      reads this
    {
      forall id :: id in conns ==> id < connID && conns[id].id == id
    }

    /** `NewServer`: counter 0, no connections, open. */
    constructor (addr: string)
      ensures this.addr == addr && connID == 0 && conns == map[] && !closed && !closeChClosed
      ensures Valid()
    {
      this.addr := addr;
      connID := 0;
      conns := map[];
      closeChClosed := false;
      closed := false;
    }

    /**
     * One pass of serveAccept's loop: stop once closeCh is closed; skip a
     * failed accept; start a connection under the current ID and register
     * it, moving the counter on, only when start succeeds.
     */
    method ServeAcceptStep(acceptErr: Error, startErr: Error) returns (stop: bool, err: Error)
      requires Valid()
      modifies this
      ensures Valid()
      ensures stop <==> old(closeChClosed)
      ensures closed == old(closed) && closeChClosed == old(closeChClosed)
      ensures !stop ==> err == if acceptErr.Some? then acceptErr else startErr
      ensures stop || err.Some? ==> conns == old(conns) && connID == old(connID)
      ensures !stop && err.None? ==>
        connID == old(connID) + 1 && old(connID) in conns && fresh(conns[old(connID)]) &&
        conns == old(conns)[old(connID) := conns[old(connID)]] && conns[old(connID)].running
    {
      if closeChClosed {
        return true, None;
      }
      if acceptErr.Some? {
        return false, acceptErr;
      }
      var curConnId := connID;
      var c := new Conn(curConnId);
      err := c.Start(startErr);
      if err.Some? {
        return false, err;
      }
      conns := conns[curConnId := c];
      connID := connID + 1;
      return false, None;
    }

    /** `delConn`: removes that ID when present, and nothing else. */
    method DelConn(id: nat)
      requires Valid()
      modifies this
      ensures Valid()
      ensures conns == old(conns) - {id}
      ensures id !in old(conns) ==> conns == old(conns)
      ensures connID == old(connID) && closed == old(closed) && closeChClosed == old(closeChClosed)
    {
      if id !in conns {
        return;
      }
      conns := conns - {id};
    }

    /**
     * `Close`: a second call returns nil. The first marks the server
     * closed, closes the accept channel, closes and removes every
     * connection, and returns the listener's close error.
     */
    method Close(listenerErr: Error) returns (err: Error)
      requires Valid()
      modifies this, conns.Values
      ensures Valid() && connID == old(connID) && closed
      ensures old(closed) ==> err == None && conns == old(conns) && closeChClosed == old(closeChClosed)
      ensures !old(closed) ==>
        conns == map[] && err == listenerErr && closeChClosed &&
        forall id :: id in old(conns) ==> old(conns)[id].closed && old(conns)[id].running == old(conns[id].running)
    {
      if closed {
        return None;
      }
      closed := true;
      closeChClosed := true;
      CloseConns();
      return listenerErr;
    }

    /** The loop of Close: every registered connection is closed and the map emptied. */
    method CloseConns()
      requires Valid()
      modifies this, conns.Values
      ensures Valid() && conns == map[]
      ensures connID == old(connID) && closed == old(closed) && closeChClosed == old(closeChClosed)
      ensures forall id :: id in old(conns) ==> old(conns)[id].closed && old(conns)[id].running == old(conns[id].running)
    {
      ghost var all := conns;
      while conns != map[]
        invariant conns.Keys <= all.Keys && forall id :: id in conns ==> conns[id] == all[id]
        invariant forall id :: id in all && id !in conns ==> all[id].closed
        invariant forall id :: id in all ==> all[id].running == old(all[id].running)
        invariant connID == old(connID) && closed == old(closed) && closeChClosed == old(closeChClosed)
        invariant forall id :: id in all ==> all[id].id == id
        decreases |conns|
      {
        var id :| id in conns;
        RemoveOne(conns, all, id);
        CloseOne(all, id);
      }
    }

    /** One pass of Close's loop: connection id is closed and dropped from the map, and no other is touched. */
    method CloseOne(ghost all: map<nat, Conn>, id: nat)
      requires id in conns && conns.Keys <= all.Keys && forall j :: j in conns ==> conns[j] == all[j]
      requires forall j :: j in all ==> all[j].id == j
      modifies this, conns.Values
      ensures conns == old(conns) - {id}
      ensures connID == old(connID) && closed == old(closed) && closeChClosed == old(closeChClosed)
      ensures all[id].closed && all[id].running == old(all[id].running)
      ensures forall j :: j in all && j != id ==> unchanged(all[j])
      ensures forall j :: j in all ==> all[j].running == old(all[j].running)
    {
      var c := conns[id];
      var _ := c.Close(None);
      conns := conns - {id};
    }
  }
}
