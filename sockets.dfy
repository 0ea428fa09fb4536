/** The operating system's sockets, reduced to what the proxies depend on:
    each connection is an id that is either open or closed, dialing is an
    outcome the caller supplies, and every write, close and started copy is
    recorded in an event log. No byte is actually moved. */
module Sockets {
  import opened Common

  type ConnId = nat

  datatype Event =
    | Dialed(addr: string, conn: ConnId)
    | Wrote(conn: ConnId, data: string)
    | WriteFailed(conn: ConnId, data: string)
    | Closed(conn: ConnId)
    | CopyStarted(dst: ConnId, src: ConnId)

  class Network {
    /** The connections currently open. */
    var open: set<ConnId>
    /** The id the next new connection gets; ids are never reused. */
    var nextId: ConnId
    var log: seq<Event>

    ghost predicate Valid()
      reads this
    {
      forall c :: c in open ==> c < nextId
    }

    constructor ()
      ensures Valid() && open == {} && nextId == 0 && log == []
    {
      open, nextId, log := {}, 0, [];
    }

    /** `net.Dial("tcp", addr)`; `ok` is whether the peer accepted. */
    method Dial(addr: string, ok: bool) returns (r: Option<ConnId>)
      requires Valid()
      modifies this
      ensures Valid()
      ensures ok ==> r == Some(old(nextId)) && r.value !in old(open)
      ensures ok ==> open == old(open) + {old(nextId)} && nextId == old(nextId) + 1
      ensures ok ==> log == old(log) + [Dialed(addr, old(nextId))]
      ensures !ok ==> r == None && open == old(open) && nextId == old(nextId) && log == old(log)
    {
      if ok {
        r := Some(nextId);
        open := open + {nextId};
        log := log + [Dialed(addr, nextId)];
        nextId := nextId + 1;
      } else {
        r := None;
      }
    }

    /** An inbound connection handed over as a raw socket (a hijack). */
    method Adopt() returns (c: ConnId)
      requires Valid()
      modifies this
      ensures Valid()
      ensures c == old(nextId) && c !in old(open)
      ensures open == old(open) + {c} && nextId == old(nextId) + 1 && log == old(log)
    {
      c := nextId;
      open := open + {c};
      nextId := nextId + 1;
    }

    /** `conn.Write(data)`; `ok` is whether the write went through. Every
        attempt is logged, failed or not. */
    method Write(c: ConnId, data: string, ok: bool) returns (written: bool)
      modifies this`log
      ensures written == ok
      ensures log == old(log) + [WriteEvent(c, data, ok)]
    {
      written := ok;
      log := log + [WriteEvent(c, data, ok)];
    }

    /** `conn.Close()`; closing a closed connection leaves the open set as it
        was, but the attempt is still logged. */
    method Close(c: ConnId)
      requires Valid()
      modifies this`open, this`log
      ensures Valid()
      ensures open == old(open) - {c} && log == old(log) + [Closed(c)]
    {
      open := open - {c};
      log := log + [Closed(c)];
    }

    /** Starts a copy from `src` to `dst`; only the start is recorded. */
    method StartCopy(dst: ConnId, src: ConnId)
      modifies this`log
      ensures log == old(log) + [CopyStarted(dst, src)]
    {
      log := log + [CopyStarted(dst, src)];
    }

    /** Closes every connection of `cs`, in order. */
    method CloseAll(cs: seq<ConnId>)
      requires Valid()
      modifies this`open, this`log
      ensures Valid()
      ensures open == old(open) - (set c | c in cs)
      ensures log == old(log) + ClosedEvents(cs)
    {
      var i := 0;
      while i < |cs|
        invariant 0 <= i <= |cs|
        invariant Valid()
        invariant open == old(open) - (set c | c in cs[..i])
        invariant log == old(log) + ClosedEvents(cs[..i])
      {
        ClosedEventsSnoc(cs[..i], cs[i]);
        assert cs[..i + 1] == cs[..i] + [cs[i]];
        Close(cs[i]);
        i := i + 1;
      }
      assert cs[..i] == cs;
    }
  }

  /** The log entry of one write attempt. */
  function WriteEvent(c: ConnId, data: string, ok: bool): (e: Event)
    ensures ok <==> e.Wrote?
    ensures e.Wrote? || e.WriteFailed?
    ensures e.conn == c && e.data == data
  {
    if ok then Wrote(c, data) else WriteFailed(c, data)
  }

  function ClosedEvents(cs: seq<ConnId>): (es: seq<Event>)
    ensures |es| == |cs|
    ensures forall i :: 0 <= i < |cs| ==> es[i] == Closed(cs[i])
  {
    seq(|cs|, i requires 0 <= i < |cs| => Closed(cs[i]))
  }

  lemma ClosedEventsSnoc(cs: seq<ConnId>, c: ConnId)
    ensures ClosedEvents(cs + [c]) == ClosedEvents(cs) + [Closed(c)]
  {
  }
}
