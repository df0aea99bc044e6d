/** The hub that fans task events out to connected dashboards, as objects changed in place. */
module Hubs {
  datatype Event = Event(kind: string, taskId: nat, client: string, status: string, time: int)

  const BUFFER := 16

  class Subscriber {
    const client: string
    var buffer: seq<Event>   // sent to the channel and not yet read
    var closed: bool

    constructor (client: string)
      ensures this.client == client && buffer == [] && !closed
    {
      this.client := client;
      buffer, closed := [], false;
    }
  }

  class Hub {
    var subs: set<Subscriber>

    /** A registered channel is open and within its capacity. */
    ghost predicate Valid()
      reads this, subs
    {
      forall s | s in subs :: !s.closed && |s.buffer| <= BUFFER
    }

    constructor ()
      ensures Valid() && subs == {}
    {
      subs := {};
    }

    method Subscribe(client: string) returns (s: Subscriber)
      requires Valid()
      modifies this
      ensures Valid() && fresh(s) && s.client == client && s.buffer == [] && subs == old(subs) + {s}
    {
      s := new Subscriber(client);
      subs := subs + {s};
    }

    /** Closing a channel twice would panic, so a connection is removed once. */
    method Unsubscribe(s: Subscriber)
      requires Valid() && !s.closed
      modifies this, s`closed
      ensures Valid() && subs == old(subs) - {s} && s.closed
    {
      subs := subs - {s};
      s.closed := true;
    }

    /** Every subscriber of this client gets the event at the end of its buffer, unless the buffer
        is full; nobody else gets anything, and nobody is waited for. */
    method PublishTaskEvent(kind: string, taskId: nat, client: string, status: string, now: int)
      requires Valid()
      modifies set s | s in subs :: s`buffer
      ensures Valid() && subs == old(subs)
      ensures forall s | s in subs ::
                s.buffer == if s.client == client && |old(s.buffer)| < 16
                            then old(s.buffer) + [Event(kind, taskId, client, status, now)] else old(s.buffer)
    {
      var e := Event(kind, taskId, client, status, now);
      var rest := subs;
      while rest != {}
        invariant rest <= subs && Valid()
        invariant forall s | s in rest :: s.buffer == old(s.buffer)
        invariant forall s | s in subs - rest ::
                    s.buffer == if s.client == client && |old(s.buffer)| < 16 then old(s.buffer) + [e] else old(s.buffer)
        decreases rest
      {
        var s :| s in rest;
        rest := rest - {s};
        if s.client != client {
          continue;
        }
        if |s.buffer| < BUFFER {
          s.buffer := s.buffer + [e];
        }
      }
    }
  }
}
