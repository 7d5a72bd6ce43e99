/** The service's bookkeeping as a value: which agents are queued, which clients each agent
    serves, and the two maps that tie clients to agents. The functions are what the critical
    sections of service.go do to it; class Service and the thread model are proved against
    them. Type A stands for agent references, type C for client references. */
module Scheduler {
  import opened Wrappers
  import opened HeapSpec

  datatype State<A(==), C(==)> = State(
    queue: seq<A>,                    // os.queue
    served: map<A, map<string, C>>,   // agent.clients of every agent created so far
    clients: map<string, C>,          // os.clients
    owner: map<string, A>,            // os.clientToAgent
    mxid: map<C, string>)             // client.mxid of every client created so far

  function Empty<A, C>(): State<A, C> {
    State([], map[], map[], map[], map[])
  }

  /** The heap's key: the number of clients an agent serves. */
  ghost function Load<A, C>(s: State<A, C>): map<A, nat> {
    Sizes(s.served)
  }

  ghost function Sizes<A, C>(served: map<A, map<string, C>>): map<A, nat> {
    map a | a in served :: |served[a]|
  }

  function Last<A>(q: seq<A>): A
    requires q != []
  {
    q[|q| - 1]
  }

  ghost function Slot<A>(q: seq<A>, a: A): (k: nat)
    requires a in q
    ensures k < |q| && q[k] == a
  {
    var k :| 0 <= k < |q| && q[k] == a;
    k
  }

  // ---------- The invariant ----------

  ghost predicate QueueOk<A, C>(s: State<A, C>) {
    Distinct(s.queue) && Weighed(s.queue, Load(s)) && Ordered(s.queue, Load(s))
  }

  ghost predicate AgentsOk<A, C>(s: State<A, C>) {
    && (forall m :: m in s.owner ==> s.owner[m] in s.queue && s.owner[m] in s.served && m in s.served[s.owner[m]])
    && (forall a, m :: a in s.served && m in s.served[a] ==> m in s.owner && s.owner[m] == a)
  }

  ghost predicate ClientsOk<A, C>(s: State<A, C>) {
    && (forall m :: m in s.clients ==> s.clients[m] in s.mxid && s.mxid[s.clients[m]] == m)
    && (forall a, m :: a in s.served && m in s.served[a] ==> m in s.clients && s.served[a][m] == s.clients[m])
  }

  ghost predicate Inv<A, C>(s: State<A, C>) {
    QueueOk(s) && AgentsOk(s) && ClientsOk(s)
  }

  // ---------- Single writes ----------

  ghost function TakeLast<A, C>(s: State<A, C>): State<A, C>
    requires s.queue != []
  {
    s.(queue := s.queue[..|s.queue| - 1])
  }

  ghost function Serve<A, C>(s: State<A, C>, m: string, a: A): State<A, C>
    requires m in s.clients && a in s.served
  {
    s.(served := s.served[a := s.served[a][m := s.clients[m]]])
  }

  ghost function Own<A, C>(s: State<A, C>, m: string, a: A): State<A, C> {
    s.(owner := s.owner[m := a])
  }

  ghost function Enqueue<A, C>(s: State<A, C>, a: A): State<A, C>
    requires Weighed(s.queue, Load(s)) && a in s.served
  {
    s.(queue := HeapSpec.Push(s.queue, Load(s), a))
  }

  /** Deletes the mapping of every client the agent serves, under the client's own mxid. */
  ghost function Disown<A, C>(s: State<A, C>, a: A): State<A, C>
    requires a in s.served
  {
    s.(owner := map m | m in s.owner && !NamedIn(s.served[a], s.mxid, m) :: s.owner[m])
  }

  /** Some client in the table has this mxid. */
  ghost predicate NamedIn<C>(table: map<string, C>, mxid: map<C, string>, m: string) {
    exists k :: k in table && table[k] in mxid && mxid[table[k]] == m
  }

  ghost function Release<A, C>(s: State<A, C>, a: A): State<A, C> {
    s.(served := s.served[a := map[]])
  }

  ghost function Unqueue<A, C>(s: State<A, C>, a: A): State<A, C>
    requires Weighed(s.queue, Load(s)) && a in s.queue
  {
    s.(queue := HeapSpec.Remove(s.queue, Load(s), Slot(s.queue, a)))
  }

  // ---------- Critical sections ----------

  ghost function NewClient<A, C>(s: State<A, C>, m: string, k: C): State<A, C> {
    if m in s.clients then s else s.(clients := s.clients[m := k], mxid := s.mxid[k := m])
  }

  ghost function Connect<A, C>(s: State<A, C>, a: A): State<A, C>
    requires Weighed(s.queue, Load(s))
  {
    Enqueue(Release(s, a), a)
  }

  /** What assignAgent does once it has found the mxid unassigned and the queue not empty. */
  ghost function AssignTo<A, C>(s: State<A, C>, m: string, a: A): State<A, C>
    requires m in s.clients && a in s.served && Weighed(s.queue, Load(s))
  {
    Enqueue(Own(Serve(s, m, a), m, a), a)
  }

  ghost function Assign<A, C>(s: State<A, C>, m: string): (State<A, C>, Option<A>)
    requires m in s.clients && Weighed(s.queue, Load(s))
  {
    if m in s.owner then (s, Some(s.owner[m]))
    else if s.queue == [] then (s, None)
    else (AssignTo(TakeLast(s), m, Last(s.queue)), Some(Last(s.queue)))
  }

  /** The same critical section if it took the agent from the heap's root instead of the last
      slot. */
  ghost function AssignLightest<A, C>(s: State<A, C>, m: string): (State<A, C>, Option<A>)
    requires m in s.clients && QueueOk(s)
  {
    if m in s.owner then (s, Some(s.owner[m]))
    else if s.queue == [] then (s, None)
    else
      PopRootIsHeap(s.queue, Load(s));
      var popped := s.(queue := PopRoot(s.queue, Load(s)));
      (AssignTo(popped, m, s.queue[0]), Some(s.queue[0]))
  }

  ghost function Disconnect<A, C>(s: State<A, C>, a: A): State<A, C>
    requires Weighed(s.queue, Load(s)) && a in s.queue && a in s.served
  {
    Unqueue(Release(Disown(s, a), a), a)
  }

  // ---------- Every critical section keeps the invariant ----------

  lemma NewClientKeepsInv<A, C>(s: State<A, C>, m: string, c: C)
    requires Inv(s) && c !in s.mxid
    ensures Inv(NewClient(s, m, c))
  {
    assert Load(NewClient(s, m, c)) == Load(s);
  }

  lemma OrderedAgree<A>(q: seq<A>, w: map<A, nat>, w': map<A, nat>)
    requires Weighed(q, w) && Ordered(q, w)
    requires forall k :: 0 <= k < |q| ==> q[k] in w' && w'[q[k]] == w[q[k]]
    ensures Weighed(q, w') && Ordered(q, w')
  {
    forall k | 0 <= k < |q|
      ensures EdgeOk(q, w', k)
    {
      assert EdgeOk(q, w, k);
    }
  }

  /** Changes of load away from the queue do not disturb it. */
  lemma QueueAgree<A, C>(s: State<A, C>, r: State<A, C>)
    requires QueueOk(s) && r.queue == s.queue
    requires forall a :: a in s.queue ==> a in r.served && |r.served[a]| == |s.served[a]|
    ensures QueueOk(r)
  {
    OrderedAgree(s.queue, Load(s), Load(r));
  }

  lemma EnqueueOk<A, C>(s: State<A, C>, a: A)
    requires QueueOk(s) && a in s.served && a !in s.queue
    ensures QueueOk(Enqueue(s, a))
    ensures forall b :: b in Enqueue(s, a).queue <==> b in s.queue || b == a
  {
    var r := Enqueue(s, a);
    PushIsHeap(s.queue, Load(s), a);
    SameItemsIn(s.queue + [a], r.queue);
    assert Load(r) == Load(s);
  }

  lemma NewcomerKeepsMaps<A, C>(s: State<A, C>, a: A, r: State<A, C>)
    requires AgentsOk(s) && ClientsOk(s) && a !in s.served
    requires r == Release(s, a).(queue := r.queue) && (forall b :: b in s.queue ==> b in r.queue)
    ensures AgentsOk(r) && ClientsOk(r)
  {
  }

  lemma ConnectKeepsInv<A, C>(s: State<A, C>, a: A)
    requires Inv(s) && a !in s.served
    ensures Inv(Connect(s, a))
    ensures forall b :: b in Connect(s, a).queue <==> b in s.queue || b == a
  {
    QueueAgree(s, Release(s, a));
    EnqueueOk(Release(s, a), a);
    NewcomerKeepsMaps(s, a, Connect(s, a));
  }

  /** Taking the last slot and putting a busier agent back in moves nobody: as written,
      assignAgent leaves the queue as it is and serves the client from its last slot. */
  lemma AssignShape<A, C>(s: State<A, C>, m: string)
    requires QueueOk(s) && m in s.clients && m !in s.owner && s.queue != []
    requires m !in s.served[Last(s.queue)]
    ensures Assign(s, m).0 == Own(Serve(s, m, Last(s.queue)), m, Last(s.queue))
    ensures Assign(s, m).1 == Some(Last(s.queue))
  {
    var a := Last(s.queue);
    var n := |s.queue| - 1;
    var t := Own(Serve(TakeLast(s), m, a), m, a);
    assert EdgeOk(s.queue, Load(s), n);
    assert |t.served[a]| == |s.served[a]| + 1;
    assert n != 0 ==> s.queue[Parent(n)] != a;
    PushHeavyStays(t.queue, Load(t), a);
    assert t.queue + [a] == s.queue;
  }

  /** One more client for the agent in the last slot breaks no edge: the slot has no children. */
  lemma LastMayGrow<A, C>(s: State<A, C>, r: State<A, C>)
    requires QueueOk(s) && s.queue != [] && r.queue == s.queue
    requires forall a :: a in s.queue ==> a in r.served
    requires forall a :: a in s.queue && a != Last(s.queue) ==> |r.served[a]| == |s.served[a]|
    requires |s.served[Last(s.queue)]| <= |r.served[Last(s.queue)]|
    ensures QueueOk(r)
  {
    forall k | 0 <= k < |r.queue|
      ensures EdgeOk(r.queue, Load(r), k)
    {
      assert EdgeOk(s.queue, Load(s), k);
      assert k != 0 ==> r.queue[Parent(k)] != Last(s.queue);
    }
  }

  lemma ServeGrows<A, C>(s: State<A, C>, m: string, a: A)
    requires AgentsOk(s) && m in s.clients && m !in s.owner && a in s.served
    ensures m !in s.served[a] && |Serve(s, m, a).served[a]| == |s.served[a]| + 1
  {
  }

  lemma ServeKeepsAgents<A, C>(s: State<A, C>, m: string, a: A, r: State<A, C>)
    requires AgentsOk(s) && m in s.clients && m !in s.owner
    requires a in s.served && a in s.queue && (forall b :: b in s.queue ==> b in r.queue)
    requires r.owner == s.owner[m := a] && r.served == Serve(s, m, a).served
    ensures AgentsOk(r)
  {
    forall k | k in r.owner
      ensures r.owner[k] in r.queue && r.owner[k] in r.served && k in r.served[r.owner[k]]
    {
      if k != m { assert s.owner[k] in s.queue; }
    }
  }

  /** Serving a new mxid from a queued agent keeps the maps inverse to each other. */
  lemma ServeKeepsMaps<A, C>(s: State<A, C>, m: string, a: A, r: State<A, C>)
    requires AgentsOk(s) && ClientsOk(s) && m in s.clients && m !in s.owner
    requires a in s.served && a in s.queue && (forall b :: b in s.queue ==> b in r.queue)
    requires r == Own(Serve(s, m, a), m, a).(queue := r.queue)
    ensures AgentsOk(r) && ClientsOk(r)
    ensures |r.served[a]| == |s.served[a]| + 1
  {
    ServeKeepsAgents(s, m, a, r);
    ServeGrows(s, m, a);
  }

  lemma AssignKeepsInv<A, C>(s: State<A, C>, m: string)
    requires Inv(s) && m in s.clients
    ensures Inv(Assign(s, m).0)
    ensures Assign(s, m).0.queue == s.queue
  {
    if m !in s.owner && s.queue != [] {
      AssignShape(s, m);
      ServeKeepsMaps(s, m, Last(s.queue), Assign(s, m).0);
      LastMayGrow(s, Assign(s, m).0);
    }
  }

  /** The mappings Disown deletes are exactly the agent's own. */
  lemma DisownExact<A, C>(s: State<A, C>, a: A)
    requires AgentsOk(s) && ClientsOk(s) && a in s.served
    ensures forall m :: m in Disown(s, a).owner <==> m in s.owner && s.owner[m] != a
  {
    forall m | m in s.owner
      ensures NamedIn(s.served[a], s.mxid, m) <==> s.owner[m] == a
    {
      if s.owner[m] == a {
        assert s.served[a][m] == s.clients[m];
      }
      if NamedIn(s.served[a], s.mxid, m) {
        var k :| k in s.served[a] && s.served[a][k] in s.mxid && s.mxid[s.served[a][k]] == m;
        assert s.served[a][k] == s.clients[k];
      }
    }
  }

  lemma ServedAreKnown<A, C>(s: State<A, C>, a: A)
    requires Inv(s) && a in s.served
    ensures forall m :: m in s.served[a] ==> s.served[a][m] in s.mxid && s.mxid[s.served[a][m]] == m
  {
    forall m | m in s.served[a]
      ensures s.served[a][m] in s.mxid && s.mxid[s.served[a][m]] == m
    {
      assert s.served[a][m] == s.clients[m];
    }
  }

  /** A packet the agent's reader dispatches to m finds a receiver exactly when m is assigned
      to this agent, and the receiver is the service's one client object for m. */
  lemma ServedAreOwned<A, C>(s: State<A, C>, a: A, m: string)
    requires Inv(s) && a in s.served
    ensures m in s.served[a] <==> m in s.owner && s.owner[m] == a
    ensures m in s.served[a] ==> m in s.clients && s.served[a][m] == s.clients[m] && s.mxid[s.served[a][m]] == m
  {
    if m in s.owner && s.owner[m] == a {
      assert m in s.served[s.owner[m]];
    }
  }

  lemma OwnedIsServed<A, C>(s: State<A, C>, m: string)
    requires Inv(s) && m in s.owner
    ensures s.owner[m] in s.queue && m in s.clients
    ensures s.owner[m] in s.served && m in s.served[s.owner[m]] && s.served[s.owner[m]][m] == s.clients[m]
  {
    ServedAreOwned(s, s.owner[m], m);
  }

  /** Emptying one agent leaves the queue ordered around its slot. */
  lemma ReleaseOrderedAround<A, C>(s: State<A, C>, a: A)
    requires QueueOk(s) && a in s.queue
    ensures Weighed(s.queue, Load(Release(s, a)))
    ensures OrderedAround(s.queue, Load(Release(s, a)), Slot(s.queue, a))
  {
    var w, w' := Load(s), Load(Release(s, a));
    var i := Slot(s.queue, a);
    forall k | 0 <= k < |s.queue| && k != i && (k == 0 || Parent(k) != i)
      ensures EdgeOk(s.queue, w', k)
    {
      assert EdgeOk(s.queue, w, k);
      assert s.queue[k] != a && s.queue[Parent(k)] != a;
    }
    forall k | 0 <= k < |s.queue| && k != 0 && Parent(k) == i
      ensures i == 0 || w'[s.queue[Parent(i)]] <= w'[s.queue[k]]
    {
      assert EdgeOk(s.queue, w, k) && EdgeOk(s.queue, w, i);
    }
  }

  lemma UnqueueOk<A, C>(s: State<A, C>, a: A)
    requires Distinct(s.queue) && Weighed(s.queue, Load(s)) && a in s.queue
    requires OrderedAround(s.queue, Load(s), Slot(s.queue, a))
    ensures QueueOk(Unqueue(s, a))
    ensures forall b :: b in Unqueue(s, a).queue <==> b in s.queue && b != a
  {
    var r := Unqueue(s, a);
    var i := Slot(s.queue, a);
    RemoveIsHeap(s.queue, Load(s), i);
    assert Load(r) == Load(s);
    DistinctCount(s.queue, a);
    forall b
      ensures b in r.queue <==> b in s.queue && b != a
    {
      assert b in r.queue <==> b in multiset(r.queue);
      assert b in s.queue <==> b in multiset(s.queue);
    }
  }

  lemma {:induction false} DistinctCount<A>(q: seq<A>, a: A)
    requires Distinct(q) && a in q
    ensures multiset(q)[a] == 1
  {
    var k := Slot(q, a);
    assert q == q[..k] + [a] + q[k + 1..];
    assert a !in q[..k] && a !in q[k + 1..];
  }

  lemma LeaverKeepsMaps<A, C>(s: State<A, C>, a: A, r: State<A, C>)
    requires AgentsOk(s) && ClientsOk(s) && a in s.served
    requires r == Release(Disown(s, a), a).(queue := r.queue)
    requires forall b :: b in s.queue && b != a ==> b in r.queue
    ensures AgentsOk(r) && ClientsOk(r)
  {
    DisownExact(s, a);
  }

  /** Disconnect empties the agent while it is still queued, which may leave the heap out of
      order; Remove then takes out exactly this agent and restores the order. Exactly the
      agent's own clients become unassigned. */
  lemma DisconnectKeepsInv<A, C>(s: State<A, C>, a: A)
    requires Inv(s) && a in s.queue
    ensures Inv(Disconnect(s, a))
    ensures forall b :: b in Disconnect(s, a).queue <==> b in s.queue && b != a
    ensures forall m :: m in Disconnect(s, a).owner <==> m in s.owner && s.owner[m] != a
  {
    DisownExact(s, a);
    var d := Disown(s, a);
    assert QueueOk(d) by {
      QueueAgree(s, d);
    }
    ReleaseOrderedAround(d, a);
    UnqueueOk(Release(d, a), a);
    LeaverKeepsMaps(s, a, Disconnect(s, a));
  }

  /** When the heap is out of order as Remove starts: exactly when the leaving agent is not
      the root and its parent still serves somebody. */
  lemma ReleaseBreaksOrderIff<A, C>(s: State<A, C>, a: A)
    requires QueueOk(s) && a in s.queue
    ensures var i, r := Slot(s.queue, a), Release(s, a);
            && Weighed(r.queue, Load(r))
            && (Ordered(r.queue, Load(r)) <==> i == 0 || |s.served[s.queue[Parent(i)]]| == 0)
  {
    var i, r := Slot(s.queue, a), Release(s, a);
    ReleaseOrderedAround(s, a);
    if i == 0 || |s.served[s.queue[Parent(i)]]| == 0 {
      forall k | 0 <= k < |r.queue|
        ensures EdgeOk(r.queue, Load(r), k)
      {
        assert k == i && i != 0 ==> s.queue[Parent(i)] != a;
      }
    } else {
      assert !EdgeOk(r.queue, Load(r), i);
    }
  }
}
