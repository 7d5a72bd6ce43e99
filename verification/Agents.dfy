/** The objects of package octopus: a client, and an agent with its scheduling fields and its
    table of response waiters. */
module Agents {
  import opened Wrappers
  import opened Transmit

  class OctopusClient {
    const mxid: string
    var processFunc: nat
    var disposeFunc: nat

    constructor (mxid: string, processFunc: nat, disposeFunc: nat)
      ensures this.mxid == mxid && this.processFunc == processFunc && this.disposeFunc == disposeFunc
    {
      this.mxid := mxid;
      this.processFunc := processFunc;
      this.disposeFunc := disposeFunc;
    }
  }

  /** A channel with a buffer of one response. */
  class ResponseChan {
    var buffer: Option<Packet>
    var closed: bool

    constructor ()
      ensures buffer == None && !closed
    {
      buffer := None;
      closed := false;
    }
  }

  /** The first response that carries an ID. */
  function FirstFor(id: int, ps: seq<Packet>): (r: Option<Packet>)
    ensures r.Some? ==> r.value in ps && r.value.id == id
    ensures r.None? <==> forall k :: 0 <= k < |ps| ==> ps[k].id != id
  {
    if ps == [] then None else if ps[0].id == id then Some(ps[0]) else FirstFor(id, ps[1..])
  }

  lemma {:induction false} FirstForMore(id: int, ps: seq<Packet>, p: Packet)
    ensures FirstFor(id, ps + [p]) ==
            if FirstFor(id, ps).Some? then FirstFor(id, ps) else if p.id == id then Some(p) else None
  {
    if ps != [] {
      assert (ps + [p])[1..] == ps[1..] + [p];
      FirstForMore(id, ps[1..], p);
    }
  }

  class Agent {
    var index: int
    var clients: map<string, OctopusClient>
    var requests: map<int, ResponseChan>
    var requestID: nat   // the number of IDs drawn; the int64 in the packet is WireId of it
    var connected: bool

    constructor ()
      ensures index == 0 && clients == map[] && requests == map[] && requestID == 0 && connected
    {
      index := 0;
      clients := map[];
      requests := map[];
      requestID := 0;
      connected := true;
    }

    method AddResponseWaiter(id: int, waiter: ResponseChan)
      modifies this`requests
      ensures requests == old(requests)[id := waiter]
    {
      requests := requests[id := waiter];
    }

    /** Closing a closed channel would panic. */
    method RemoveResponseWaiter(id: int, waiter: ResponseChan)
      requires !waiter.closed
      modifies this`requests, waiter`closed
      ensures waiter.closed
      ensures requests ==
              if id in old(requests) && old(requests)[id] == waiter then old(requests) - {id} else old(requests)
    {
      if id in requests && requests[id] == waiter {
        requests := requests - {id};
      }
      waiter.closed := true;
    }

    /** A response handled while nobody removes its waiter: kept by the waiter registered for
        its ID if that has none yet, dropped otherwise. */
    method HandleResponse(p: Packet)
      requires p.id in requests ==> !requests[p.id].closed
      modifies requests.Values`buffer
      ensures forall c :: c in requests.Values ==>
        c.buffer == if p.id in requests && requests[p.id] == c && old(c.buffer).None? then Some(p) else old(c.buffer)
    {
      if p.id in requests {
        var c := requests[p.id];
        if c.buffer.None? {
          c.buffer := Some(p);
        }
      }
    }

    /** transmit by the holder of writeLock, from the check of the connection to the deferred
        removal; `written` says whether WriteJSON succeeds, `arriving` are the responses that
        are handled before the wait is over. It answers with the first one that carries the
        call's own ID, and leaves no waiter behind whichever way it ends. */
    method Transmit(written: bool, arriving: seq<Packet>) returns (o: Outcome)
      requires requests == map[]
      modifies this`requests, this`requestID
      ensures requests == map[]
      ensures requestID == if connected then old(requestID) + 1 else old(requestID)
      ensures o ==
        if !connected then NoConnection
        else if !written then WriteFailed
        else if FirstFor(WireId(requestID), arriving).Some? then Answered(FirstFor(WireId(requestID), arriving).value)
        else TimedOut
    {
      if !connected {
        return NoConnection;
      }
      requestID := requestID + 1;
      var id := WireId(requestID);
      var respChan := new ResponseChan();
      AddResponseWaiter(id, respChan);
      if !written {
        o := WriteFailed;
      } else {
        for k := 0 to |arriving|
          invariant requests == map[id := respChan] && !respChan.closed && fresh(respChan)
          invariant respChan.buffer == FirstFor(id, arriving[..k])
          invariant requestID == old(requestID) + 1
        {
          HandleResponse(arriving[k]);
          assert arriving[..k + 1] == arriving[..k] + [arriving[k]];
          FirstForMore(id, arriving[..k], arriving[k]);
        }
        assert arriving[..|arriving|] == arriving;
        o := if respChan.buffer.Some? then Answered(respChan.buffer.value) else TimedOut;
      }
      RemoveResponseWaiter(id, respChan);
    }
  }
}
