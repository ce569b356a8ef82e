/**
 * The client registry of the web server's websocket hub, one event at a
 * time: registering a client, unregistering it, and broadcasting a message
 * to every client's bounded send queue. A client whose queue is full is
 * dropped and its queue closed.
 */
module WebSocketHub {

  /** The buffer size of every client's send channel. */
  const Capacity: nat := 256

  class Client {
    /** Messages waiting in the send channel, oldest first. */
    var queue: seq<seq<bv8>>
    var closed: bool

    /** A new client as the websocket handler creates it: an empty, open channel. */
    constructor ()
      ensures queue == [] && !closed
    {
      queue := [];
      closed := false;
    }

    /** Closing a closed channel panics in Go, so the channel must still be open. */
    method Close()
      requires !closed
      modifies this
      ensures closed && queue == old(queue)
    {
      closed := true;
    }

    /** A non-blocking send: it succeeds exactly when the buffer has room. */
    method TrySend(msg: seq<bv8>) returns (sent: bool)
      requires !closed
      modifies this
      ensures sent <==> |old(queue)| < Capacity
      ensures sent ==> queue == old(queue) + [msg]
      ensures !sent ==> queue == old(queue)
      ensures closed == old(closed)
    {
      if |queue| < Capacity {
        queue := queue + [msg];
        return true;
      }
      return false;
    }
  }

  class Hub {
    var clients: set<Client>

    /** Every registered client has an open channel within its capacity. */
    ghost predicate Valid()
      reads this, clients
    {
      forall c :: c in clients ==> !c.closed && |c.queue| <= Capacity
    }

    constructor ()
      ensures clients == {} && Valid()
    {
      clients := {};
    }

    method Register(c: Client)
      requires Valid()
      requires !c.closed && |c.queue| <= Capacity
      modifies this
      ensures Valid()
      ensures clients == old(clients) + {c}
    {
      clients := clients + {c};
    }

    /** Only a registered client is removed and closed; any other client is left alone. */
    method Unregister(c: Client)
      requires Valid()
      modifies this, c
      ensures Valid()
      ensures clients == old(clients) - {c}
      ensures c in old(clients) ==> c.closed && c.queue == old(c.queue)
      ensures c !in old(clients) ==> c.closed == old(c.closed) && c.queue == old(c.queue)
    {
      if c in clients {
        clients := clients - {c};
        c.Close();
      }
    }

    /**
     * Offer `msg` to every client, in the map's unspecified order: a client
     * with room gets it queued, a client with a full queue is closed and
     * removed.
     */
    method Broadcast(msg: seq<bv8>)
      requires Valid()
      modifies this, clients
      ensures Valid()
      ensures clients == set c | c in old(clients) && |old(c.queue)| < Capacity
      ensures forall c :: c in old(clients) && |old(c.queue)| < Capacity ==> c.queue == old(c.queue) + [msg]
      ensures forall c :: c in old(clients) && |old(c.queue)| >= Capacity ==> c.closed && c.queue == old(c.queue)
    {
      ghost var all := clients;
      var remaining := clients;
      while remaining != {}
        invariant remaining <= all
        invariant forall c :: c in all ==> !old(c.closed) && |old(c.queue)| <= Capacity
        invariant clients == remaining + set c | c in all - remaining && |old(c.queue)| < Capacity
        invariant forall c :: c in remaining ==> c.queue == old(c.queue) && c.closed == old(c.closed)
        invariant forall c :: c in all - remaining && |old(c.queue)| < Capacity ==> c.queue == old(c.queue) + [msg] && !c.closed
        invariant forall c :: c in all - remaining && |old(c.queue)| >= Capacity ==> c.queue == old(c.queue) && c.closed
        decreases remaining
      {
        var c :| c in remaining;
        var sent := c.TrySend(msg);
        if !sent {
          c.Close();
          clients := clients - {c};
        }
        remaining := remaining - {c};
      }
    }
  }
}
