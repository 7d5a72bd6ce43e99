/** Whole runs of the service: any number of clients, agents and transmits, in any order. */
module SchedulerRuns {
  import opened Wrappers
  import opened HeapSpec
  import opened Scheduler

  datatype Event<A, C> =
    | NewClientEvent(m: string, c: C)
    | ConnectEvent(a: A)
    | AssignEvent(m: string)
    | DisconnectEvent(a: A)

  /** New objects are new; a transmit comes from a client NewClient has made; only a
      connected agent disconnects. */
  ghost predicate Enabled<A, C>(s: State<A, C>, e: Event<A, C>) {
    match e
    case NewClientEvent(m, c) => c !in s.mxid
    case ConnectEvent(a) => a !in s.served
    case AssignEvent(m) => m in s.clients
    case DisconnectEvent(a) => a in s.queue
  }

  ghost function Step<A, C>(s: State<A, C>, e: Event<A, C>): (r: State<A, C>)
    requires Inv(s) && Enabled(s, e)
    ensures Inv(r)
  {
    match e
    case NewClientEvent(m, c) => NewClientKeepsInv(s, m, c); NewClient(s, m, c)
    case ConnectEvent(a) => ConnectKeepsInv(s, a); Connect(s, a)
    case AssignEvent(m) => AssignKeepsInv(s, m); Assign(s, m).0
    case DisconnectEvent(a) => DisconnectKeepsInv(s, a); Disconnect(s, a)
  }

  ghost predicate Legal<A, C>(s: State<A, C>, es: seq<Event<A, C>>)
    requires Inv(s)
    decreases |es|
  {
    es != [] ==> Enabled(s, es[0]) && Legal(Step(s, es[0]), es[1..])
  }

  ghost function Run<A, C>(s: State<A, C>, es: seq<Event<A, C>>): (r: State<A, C>)
    requires Inv(s) && Legal(s, es)
    ensures Inv(r)
    decreases |es|
  {
    if es == [] then s else Run(Step(s, es[0]), es[1..])
  }

  lemma {:induction false} RunOneMore<A, C>(s: State<A, C>, es: seq<Event<A, C>>, e: Event<A, C>)
    requires Inv(s) && Legal(s, es) && Enabled(Run(s, es), e)
    ensures Legal(s, es + [e]) && Run(s, es + [e]) == Step(Run(s, es), e)
    decreases |es|
  {
    var all := es + [e];
    if es == [] {
      assert all[0] == e && all[1..] == [];
    } else {
      assert all[0] == es[0] && all[1..] == es[1..] + [e];
      RunOneMore(Step(s, es[0]), es[1..], e);
    }
  }

  // ---------- Who is queued ----------

  ghost function Members<A>(q: seq<A>): set<A> {
    set a | a in q
  }

  ghost function ConnectedAfter<A, C>(before: set<A>, e: Event<A, C>): set<A> {
    match e
    case ConnectEvent(a) => before + {a}
    case DisconnectEvent(a) => before - {a}
    case _ => before
  }

  /** The agents connected after some events. */
  ghost function Connected<A, C>(before: set<A>, es: seq<Event<A, C>>): set<A>
    decreases |es|
  {
    if es == [] then before else Connected(ConnectedAfter(before, es[0]), es[1..])
  }

  lemma StepQueue<A, C>(s: State<A, C>, e: Event<A, C>)
    requires Inv(s) && Enabled(s, e)
    ensures Members(Step(s, e).queue) == ConnectedAfter(Members(s.queue), e)
  {
    match e
    case NewClientEvent(m, c) =>
    case ConnectEvent(a) =>
      ConnectKeepsInv(s, a);
    case AssignEvent(m) =>
      AssignKeepsInv(s, m);
    case DisconnectEvent(a) =>
      DisconnectKeepsInv(s, a);
  }

  /** At the end of any run the heap holds exactly the connected agents, each once. */
  lemma {:induction false} QueueHoldsConnected<A, C>(s: State<A, C>, es: seq<Event<A, C>>)
    requires Inv(s) && Legal(s, es)
    ensures Distinct(Run(s, es).queue)
    ensures Members(Run(s, es).queue) == Connected(Members(s.queue), es)
    decreases |es|
  {
    if es != [] {
      StepQueue(s, es[0]);
      QueueHoldsConnected(Step(s, es[0]), es[1..]);
    }
  }

  // ---------- Sticky routing ----------

  lemma StickyStep<A, C>(s: State<A, C>, e: Event<A, C>, m: string)
    requires Inv(s) && Enabled(s, e)
    requires m in s.owner && e != DisconnectEvent(s.owner[m])
    ensures m in Step(s, e).owner && Step(s, e).owner[m] == s.owner[m]
  {
    match e
    case NewClientEvent(_, _) =>
    case ConnectEvent(a) =>
    case AssignEvent(m') =>
      if m' !in s.owner && s.queue != [] {
        AssignShape(s, m');
      }
    case DisconnectEvent(a) =>
      DisconnectKeepsInv(s, a);
  }

  /** Once assigned, a client keeps its agent until that agent disconnects, and every transmit
      in between goes to that agent. */
  lemma {:induction false} StickyRun<A, C>(s: State<A, C>, es: seq<Event<A, C>>, m: string)
    requires Inv(s) && Legal(s, es) && m in s.owner && m in s.clients
    requires DisconnectEvent(s.owner[m]) !in es
    ensures m in Run(s, es).clients && m in Run(s, es).owner && Run(s, es).owner[m] == s.owner[m]
    ensures Assign(Run(s, es), m) == (Run(s, es), Some(s.owner[m]))
    decreases |es|
  {
    if es != [] {
      StickyStep(s, es[0], m);
      ClientsStay(s, es[0], m);
      StickyRun(Step(s, es[0]), es[1..], m);
    }
  }

  lemma ClientsStay<A, C>(s: State<A, C>, e: Event<A, C>, m: string)
    requires Inv(s) && Enabled(s, e) && m in s.clients
    ensures m in Step(s, e).clients && Step(s, e).clients[m] == s.clients[m]
  {
    if e.AssignEvent? && e.m !in s.owner && s.queue != [] {
      AssignShape(s, e.m);
    }
  }

  /** A transmit fails for want of an agent exactly when m is unassigned and every agent that
      connected has disconnected again. */
  lemma {:induction false} NoAgentIff<A, C>(s: State<A, C>, es: seq<Event<A, C>>, m: string)
    requires Inv(s) && Legal(s, es) && m in Run(s, es).clients
    ensures Assign(Run(s, es), m).1 == None
            <==> m !in Run(s, es).owner && Connected(Members(s.queue), es) == {}
  {
    QueueHoldsConnected(s, es);
    var r := Run(s, es);
    if r.queue != [] {
      assert r.queue[0] in Members(r.queue);
    }
  }

  // ---------- Conservation ----------

  ghost function TotalLoad<A, C>(q: seq<A>, served: map<A, map<string, C>>): nat
    requires forall a :: a in q ==> a in served
  {
    if q == [] then 0 else TotalLoad(q[..|q| - 1], served) + |served[Last(q)]|
  }

  /** The clients assigned to the agents in some slots. */
  ghost function OwnedBy<A, C>(s: State<A, C>, q: seq<A>): set<string> {
    set m | m in s.owner && s.owner[m] in q
  }

  lemma OwnedByLast<A, C>(s: State<A, C>, q: seq<A>)
    requires AgentsOk(s) && Distinct(q) && q != [] && Last(q) in s.served
    ensures OwnedBy(s, q) == OwnedBy(s, q[..|q| - 1]) + s.served[Last(q)].Keys
    ensures OwnedBy(s, q[..|q| - 1]) !! s.served[Last(q)].Keys
  {
    var front, a := q[..|q| - 1], Last(q);
    assert q == front + [a] && a !in front;
    forall m
      ensures m in s.served[a] <==> m in s.owner && s.owner[m] == a
    {
      if m in s.owner && s.owner[m] == a {
        assert m in s.served[s.owner[m]];
      }
    }
  }

  lemma {:induction false} TotalIsOwned<A, C>(s: State<A, C>, q: seq<A>)
    requires AgentsOk(s) && Distinct(q) && (forall a :: a in q ==> a in s.served)
    ensures TotalLoad(q, s.served) == |OwnedBy(s, q)|
    decreases |q|
  {
    if q != [] {
      TotalIsOwned(s, q[..|q| - 1]);
      OwnedByLast(s, q);
      assert |s.served[Last(q)].Keys| == |s.served[Last(q)]|;
    }
  }

  /** The client counts of the queued agents add up to the number of assigned clients. */
  lemma Conservation<A, C>(s: State<A, C>)
    requires Inv(s)
    ensures TotalLoad(s.queue, s.served) == |s.owner|
  {
    TotalIsOwned(s, s.queue);
    assert OwnedBy(s, s.queue) == s.owner.Keys;
    assert |s.owner.Keys| == |s.owner|;
  }
}
