/** The Octopus service: the client table, the client-to-agent table and the agent queue.
    Every method is a critical section of service.go and is proved to do to the service's
    value, `state`, exactly what the Scheduler function of the same name does. */
module Services {
  import opened Wrappers
  import opened Agents
  import opened PriorityQueues
  import HeapSpec
  import S = Scheduler

  datatype TransmitError = NoAgentError

  class OctopusService {
    const queue: PriorityQueue
    var clients: map<string, OctopusClient>
    var clientToAgent: map<string, Agent>
    /** The fields of the service, its agents and its clients, as one value. */
    ghost var state: S.State<Agent, OctopusClient>

    ghost predicate AgentsTied()
      reads this, queue, queue.pool`clients
    {
      && (forall a :: a in queue.pool ==> a in state.served)
      && (forall a :: a in state.served ==> a in queue.pool)
      && (forall a :: a in queue.pool ==> state.served[a] == a.clients)
    }

    /** `state` is what the fields hold. */
    ghost predicate Tied()
      reads this, queue, queue.pool`clients
    {
      && state.queue == queue.items
      && AgentsTied()
      && state.clients == clients
      && state.owner == clientToAgent
      && (forall c :: c in state.mxid ==> state.mxid[c] == c.mxid)
    }

    ghost predicate Valid()
      reads this, queue, queue.pool`clients, queue.pool`index
    {
      queue.Indexed() && Tied() && S.Inv(state)
    }

    constructor ()
      ensures Valid() && state == S.Empty() && fresh(queue)
    {
      queue := new PriorityQueue();
      clients := map[];
      clientToAgent := map[];
      state := S.Empty();
    }

    method MakeClient(mxid: string, processFunc: nat, disposeFunc: nat) returns (client: OctopusClient)
      requires queue.Indexed() && Tied() && mxid !in clients
      modifies this`clients, this`state
      ensures queue.Indexed() && Tied() && fresh(client) && client !in old(state).mxid
      ensures client.mxid == mxid && client.processFunc == processFunc && client.disposeFunc == disposeFunc
      ensures state == S.NewClient(old(state), mxid, client)
    {
      client := new OctopusClient(mxid, processFunc, disposeFunc);
      assert client !in state.mxid;
      state := S.NewClient(state, mxid, client);
      clients := clients[mxid := client];
    }

    method NewClient(mxid: string, processFunc: nat, disposeFunc: nat) returns (client: OctopusClient)
      requires Valid()
      modifies this`clients, this`state, state.mxid.Keys`processFunc, state.mxid.Keys`disposeFunc
      ensures Valid() && state == S.NewClient(old(state), mxid, client)
      ensures client.mxid == mxid && mxid in clients && clients[mxid] == client
      ensures client.processFunc == processFunc && client.disposeFunc == disposeFunc
      ensures if mxid in old(clients) then client == old(clients)[mxid] else fresh(client)
      ensures forall c :: c in old(state).mxid && c != client ==>
        c.processFunc == old(c.processFunc) && c.disposeFunc == old(c.disposeFunc)
    {
      if mxid !in clients {
        ghost var s := state;
        client := MakeClient(mxid, processFunc, disposeFunc);
        S.NewClientKeepsInv(s, mxid, client);
      } else {
        client := clients[mxid];
        client.processFunc := processFunc;
        client.disposeFunc := disposeFunc;
      }
    }

    /** heap.Push of an agent that is not queued. */
    method Enqueue(agent: Agent)
      requires queue.Indexed() && Tied() && agent in queue.pool && agent !in queue.items
      requires HeapSpec.Weighed(state.queue, S.Load(state))
      modifies this`state, queue`items, queue.pool`index
      ensures queue.Indexed() && Tied() && state == S.Enqueue(old(state), agent)
    {
      queue.HeapPush(agent, S.Load(state));
      state := S.Enqueue(state, agent);
    }

    /** A new agent, which serves nobody and is not queued yet. */
    method NewAgent() returns (agent: Agent)
      requires queue.Indexed() && Tied()
      modifies this`state, queue`pool
      ensures queue.Indexed() && Tied() && state == S.Release(old(state), agent)
      ensures fresh(agent) && queue.pool == old(queue.pool) + {agent}
    {
      agent := new Agent();
      queue.pool := queue.pool + {agent};
      state := S.Release(state, agent);
    }

    /** ServeHTTP, from the accepted websocket to the start of its read loop. */
    method Connect() returns (agent: Agent)
      requires Valid()
      modifies this`state, queue, queue.pool`index
      ensures Valid() && fresh(agent) && state == S.Connect(old(state), agent)
    {
      ghost var s := state;
      agent := NewAgent();
      assert agent !in s.served;
      S.ConnectKeepsInv(s, agent);
      Enqueue(agent);
    }

    /** The part of assignAgent that runs with the queue locked and not empty. */
    method ServeFromLast(mxid: string) returns (agent: Agent)
      requires queue.Indexed() && Tied() && mxid in clients && queue.items != []
      modifies this`clientToAgent, this`state, queue`items, queue.pool`index, queue.pool`clients
      ensures queue.Indexed() && Tied() && agent == S.Last(old(state).queue)
      ensures HeapSpec.Weighed(S.TakeLast(old(state)).queue, S.Load(S.TakeLast(old(state))))
      ensures state == S.AssignTo(S.TakeLast(old(state)), mxid, agent)
    {
      agent := queue.Pop();
      state := S.TakeLast(state);
      MapClient(mxid, agent);
      Enqueue(agent);
    }

    /** The two map writes of assignAgent. */
    method MapClient(mxid: string, agent: Agent)
      requires Tied() && mxid in clients && agent in queue.pool
      modifies this`clientToAgent, this`state, agent`clients
      ensures Tied() && state == S.Own(S.Serve(old(state), mxid, agent), mxid, agent)
    {
      agent.clients := agent.clients[mxid := clients[mxid]];
      clientToAgent := clientToAgent[mxid := agent];
      state := S.Own(S.Serve(state, mxid, agent), mxid, agent);
    }

    method AssignAgent(mxid: string) returns (agent: Agent?)
      requires Valid() && mxid in clients
      modifies this`clientToAgent, this`state, queue`items, queue.pool`index, queue.pool`clients
      ensures Valid() && state == S.Assign(old(state), mxid).0
      ensures S.Assign(old(state), mxid).1 == if agent == null then None else Some(agent)
    {
      S.AssignKeepsInv(state, mxid);
      if mxid in clientToAgent {
        return clientToAgent[mxid];
      }
      agent := null;
      if |queue.items| > 0 {
        agent := ServeFromLast(mxid);
      }
    }

    /** The deletion loop of a disconnect: every client the agent serves, under its own mxid. */
    method UnmapClients(agent: Agent)
      requires Tied() && agent in queue.pool
      requires forall k :: k in agent.clients ==> agent.clients[k] in state.mxid
      modifies this`clientToAgent, this`state
      ensures Tied() && state == S.Disown(old(state), agent)
    {
      var todo := agent.clients.Keys;
      while todo != {}
        invariant state == old(state)
        invariant todo <= agent.clients.Keys
        invariant forall m :: m in clientToAgent <==>
          (m in old(clientToAgent) && !(exists k :: k in agent.clients && k !in todo && agent.clients[k].mxid == m))
        invariant forall m :: m in clientToAgent ==> clientToAgent[m] == old(clientToAgent)[m]
        decreases todo
      {
        var k :| k in todo;
        var client := agent.clients[k];
        clientToAgent := clientToAgent - {client.mxid};
        todo := todo - {k};
      }
      assert clientToAgent == S.Disown(state, agent).owner;
      state := S.Disown(state, agent);
    }

    method EmptyAgent(agent: Agent)
      requires queue.Indexed() && Tied() && agent in queue.items
      modifies this`state, agent`clients
      ensures queue.Indexed() && Tied() && agent.clients == map[] && state == S.Release(old(state), agent)
    {
      agent.clients := map[];
      state := S.Release(state, agent);
    }

    /** The rest of a disconnect: the agent is emptied where it stands, then removed. */
    method EmptyAndRemove(agent: Agent)
      requires queue.Indexed() && Tied() && agent in queue.items
      modifies this`state, queue`items, queue.pool`index, queue.pool`clients
      ensures queue.Indexed() && Tied() && agent.index == -1 && agent.clients == map[]
      ensures HeapSpec.Weighed(S.Release(old(state), agent).queue, S.Load(S.Release(old(state), agent)))
      ensures state == S.Unqueue(S.Release(old(state), agent), agent)
    {
      EmptyAgent(agent);
      assert agent.index == S.Slot(state.queue, agent);
      queue.Remove(agent, S.Load(state));
      state := S.Unqueue(state, agent);
    }

    /** The deferred part of ServeHTTP. */
    method Disconnect(agent: Agent)
      requires Valid() && agent in queue.items
      modifies this`clientToAgent, this`state, queue`items, queue.pool`index, queue.pool`clients
      ensures Valid() && state == S.Disconnect(old(state), agent)
      ensures agent.index == -1 && agent.clients == map[]
    {
      S.DisconnectKeepsInv(state, agent);
      S.ServedAreKnown(state, agent);
      UnmapClients(agent);
      EmptyAndRemove(agent);
    }

    /** The agent a packet of this client is sent through. */
    method Route(mxid: string) returns (r: Result<Agent, TransmitError>)
      requires Valid() && mxid in clients
      modifies this`clientToAgent, this`state, queue`items, queue.pool`index, queue.pool`clients
      ensures Valid() && state == S.Assign(old(state), mxid).0
      ensures r.Failure? <==> mxid !in old(clientToAgent) && old(queue.items) == []
      ensures r.Success? ==> mxid in clientToAgent && clientToAgent[mxid] == r.value && r.value in queue.items
      ensures r.Success? ==> mxid in r.value.clients && r.value.clients[mxid] == clients[mxid]
      ensures mxid in old(clientToAgent) ==> r == Success(old(clientToAgent)[mxid]) && state == old(state)
    {
      S.AssignKeepsInv(state, mxid);
      var agent := AssignAgent(mxid);
      if agent == null {
        return Failure(NoAgentError);
      }
      S.OwnedIsServed(state, mxid);
      return Success(agent);
    }

    /** The receiver of a packet that arrived from an agent, if it has one. */
    method Receiver(agent: Agent, mxid: string) returns (client: OctopusClient?)
      requires Valid() && agent in queue.items
      ensures client != null <==> mxid in clientToAgent && clientToAgent[mxid] == agent
      ensures client != null ==> mxid in clients && client == clients[mxid] && client.mxid == mxid
    {
      S.ServedAreOwned(state, agent, mxid);
      client := if mxid in agent.clients then agent.clients[mxid] else null;
    }
  }
}
