/** Who gets the next clients: the code as written, and the variant that takes the root. */
module Balance {
  import opened HeapSpec
  import opened Scheduler

  // ---------- As written ----------

  ghost function AssignAll<A, C>(s: State<A, C>, ms: seq<string>): (r: State<A, C>)
    requires Inv(s) && (forall m :: m in ms ==> m in s.clients)
    ensures Inv(r) && r.queue == s.queue && r.clients == s.clients && r.served.Keys == s.served.Keys
    decreases |ms|
  {
    if ms == [] then s
    else
      AssignKeepsInv(s, ms[0]);
      AssignFrame(s, ms[0]);
      AssignAll(Assign(s, ms[0]).0, ms[1..])
  }

  lemma AssignFrame<A, C>(s: State<A, C>, m: string)
    requires Inv(s) && m in s.clients
    ensures Assign(s, m).0.clients == s.clients && Assign(s, m).0.served.Keys == s.served.Keys
  {
    if m !in s.owner && s.queue != [] {
      AssignShape(s, m);
    }
  }

  lemma AssignOwner<A, C>(s: State<A, C>, m: string)
    requires Inv(s) && s.queue != [] && m in s.clients
    ensures Assign(s, m).0.owner == if m in s.owner then s.owner else s.owner[m := Last(s.queue)]
    ensures Assign(s, m).0.clients == s.clients
  {
    if m !in s.owner {
      ServedAreOwned(s, Last(s.queue), m);
      AssignShape(s, m);
    }
  }

  lemma AssignServed<A, C>(s: State<A, C>, m: string)
    requires Inv(s) && s.queue != [] && m in s.clients && m !in s.owner
    ensures Assign(s, m).0.served == s.served[Last(s.queue) := s.served[Last(s.queue)][m := s.clients[m]]]
    ensures m !in s.served[Last(s.queue)]
  {
    ServedAreOwned(s, Last(s.queue), m);
    AssignShape(s, m);
  }

  lemma AssignEffect<A, C>(s: State<A, C>, m: string)
    requires Inv(s) && s.queue != [] && m in s.clients
    ensures Inv(Assign(s, m).0) && Assign(s, m).0.queue == s.queue && Assign(s, m).0.clients == s.clients
    ensures Assign(s, m).0.owner == if m in s.owner then s.owner else s.owner[m := Last(s.queue)]
    ensures Assign(s, m).0.served.Keys == s.served.Keys
    ensures m !in s.owner ==> |Assign(s, m).0.served[Last(s.queue)]| == |s.served[Last(s.queue)]| + 1
    ensures forall a :: a in s.served && a != Last(s.queue) ==> Assign(s, m).0.served[a] == s.served[a]
  {
    AssignKeepsInv(s, m);
    AssignOwner(s, m);
    if m !in s.owner {
      AssignServed(s, m);
    }
  }

  lemma {:induction false} LastSlotGets<A, C>(s: State<A, C>, ms: seq<string>, m: string)
    requires Inv(s) && s.queue != [] && (forall m :: m in ms ==> m in s.clients)
    requires m in ms || m in s.owner
    ensures m in AssignAll(s, ms).owner
    ensures AssignAll(s, ms).owner[m] == if m in s.owner then s.owner[m] else Last(s.queue)
    decreases |ms|
  {
    if ms != [] {
      AssignEffect(s, ms[0]);
      LastSlotGets(Assign(s, ms[0]).0, ms[1..], m);
    }
  }

  lemma {:induction false} OthersUntouched<A, C>(s: State<A, C>, ms: seq<string>, a: A)
    requires Inv(s) && s.queue != [] && (forall m :: m in ms ==> m in s.clients)
    requires a in s.served && a != Last(s.queue)
    ensures AssignAll(s, ms).served[a] == s.served[a]
    decreases |ms|
  {
    if ms != [] {
      AssignEffect(s, ms[0]);
      OthersUntouched(Assign(s, ms[0]).0, ms[1..], a);
    }
  }

  /** As written, with no connect or disconnect every new client goes to the agent in the last
      slot, however loaded that agent is; nobody else's clients change. */
  lemma {:induction false} LastSlotGetsAll<A, C>(s: State<A, C>, ms: seq<string>)
    requires Inv(s) && s.queue != [] && (forall m :: m in ms ==> m in s.clients)
    ensures forall m :: m in ms || m in s.owner ==>
      && m in AssignAll(s, ms).owner
      && AssignAll(s, ms).owner[m] == if m in s.owner then s.owner[m] else Last(s.queue)
    ensures forall a :: a in s.served && a != Last(s.queue) ==> AssignAll(s, ms).served[a] == s.served[a]
  {
    forall m | m in ms || m in s.owner
      ensures m in AssignAll(s, ms).owner
      ensures AssignAll(s, ms).owner[m] == if m in s.owner then s.owner[m] else Last(s.queue)
    {
      LastSlotGets(s, ms, m);
    }
    forall a | a in s.served && a != Last(s.queue)
      ensures AssignAll(s, ms).served[a] == s.served[a]
    {
      OthersUntouched(s, ms, a);
    }
  }

  lemma PushedIsLastIff<A>(q: seq<A>, w: map<A, nat>, a: A)
    requires Weighed(q, w) && a in w && a !in q
    ensures |Push(q, w, a)| == |q| + 1
    ensures Push(q, w, a)[|q|] == a <==> q == [] || w[q[Parent(|q|)]] <= w[a]
  {
    var r, n := q + [a], |q|;
    if !EdgeOk(r, w, n) {
      var t := HeapSpec.Swap(r, Parent(n), n);
      UpFront(t, n, w, Parent(n));
      assert Up(t, w, Parent(n))[n..][0] == t[n..][0];
    }
  }

  /** A new agent gets the next new client exactly when it is the only agent or the parent of
      its slot serves nobody. */
  lemma NewcomerIsNextIff<A, C>(s: State<A, C>, a: A)
    requires Inv(s) && a !in s.served
    ensures Connect(s, a).queue != []
    ensures Last(Connect(s, a).queue) == a
            <==> s.queue == [] || |s.served[s.queue[Parent(|s.queue|)]]| == 0
  {
    QueueAgree(s, Release(s, a));
    PushedIsLastIff(s.queue, Load(Release(s, a)), a);
  }

  /** A new agent joining a fleet whose agents all serve somebody becomes the root, and as
      written it is given none of the clients that arrive next. */
  lemma {:induction false} NewcomerStarves<A, C>(s: State<A, C>, a: A, ms: seq<string>)
    requires Inv(s) && a !in s.served && s.queue != []
    requires forall b :: b in s.queue ==> |s.served[b]| > 0
    requires forall m :: m in ms ==> m in s.clients
    ensures Inv(Connect(s, a)) && Connect(s, a).queue != [] && Connect(s, a).queue[0] == a
    ensures AssignAll(Connect(s, a), ms).served[a] == map[]
  {
    ConnectKeepsInv(s, a);
    PushLightestIsRoot(s.queue, Load(Release(s, a)), a);
    NewcomerIsNextIff(s, a);
    LastSlotGetsAll(Connect(s, a), ms);
  }

  // ---------- Taking the root ----------

  ghost predicate Balanced<A, C>(s: State<A, C>)
    requires Weighed(s.queue, Load(s))
  {
    forall a, b :: a in s.queue && b in s.queue ==> |s.served[a]| <= |s.served[b]| + 1
  }

  /** With heap.Pop the chosen agent serves no more clients than any queued agent. */
  lemma LightestIsChosen<A, C>(s: State<A, C>, m: string, b: A)
    requires QueueOk(s) && m in s.clients && m !in s.owner && b in s.queue
    ensures AssignLightest(s, m).1.Some? && AssignLightest(s, m).1.value in s.queue
    ensures |s.served[AssignLightest(s, m).1.value]| <= |s.served[b]|
  {
    RootIsLightest(s.queue, Load(s), Slot(s.queue, b));
  }

  lemma PoppedOk<A, C>(s: State<A, C>)
    requires QueueOk(s) && s.queue != []
    ensures var p := s.(queue := PopRoot(s.queue, Load(s)));
            QueueOk(p) && forall b :: b in p.queue <==> b in s.queue && b != s.queue[0]
  {
    var p := s.(queue := PopRoot(s.queue, Load(s)));
    PopRootIsHeap(s.queue, Load(s));
    assert Load(p) == Load(s);
    DistinctCount(s.queue, s.queue[0]);
    forall b
      ensures b in p.queue <==> b in s.queue && b != s.queue[0]
    {
      assert b in p.queue <==> b in multiset(p.queue);
      assert b in s.queue <==> b in multiset(s.queue);
    }
  }

  lemma AssignLightestKeepsInv<A, C>(s: State<A, C>, m: string)
    requires Inv(s) && m in s.clients
    ensures Inv(AssignLightest(s, m).0)
    ensures forall b :: b in AssignLightest(s, m).0.queue <==> b in s.queue
    ensures m !in s.owner && s.queue != [] ==>
      AssignLightest(s, m).0.served == Serve(s, m, s.queue[0]).served && m !in s.served[s.queue[0]]
    ensures AssignLightest(s, m).0.clients == s.clients
  {
    if m !in s.owner && s.queue != [] {
      var a := s.queue[0];
      var p := s.(queue := PopRoot(s.queue, Load(s)));
      PoppedOk(s);
      var t := Own(Serve(p, m, a), m, a);
      QueueAgree(p, t);
      EnqueueOk(t, a);
      ServeKeepsMaps(s, m, a, AssignLightest(s, m).0);
    }
  }

  lemma AssignLightestBalances<A, C>(s: State<A, C>, m: string)
    requires Inv(s) && m in s.clients && Balanced(s)
    ensures QueueOk(AssignLightest(s, m).0) && Balanced(AssignLightest(s, m).0)
  {
    AssignLightestKeepsInv(s, m);
    if m !in s.owner && s.queue != [] {
      var r, a := AssignLightest(s, m).0, s.queue[0];
      assert |r.served[a]| == |s.served[a]| + 1;
      forall b | b in s.queue
        ensures |s.served[a]| <= |s.served[b]|
      {
        LightestIsChosen(s, m, b);
      }
    }
  }

  ghost function AssignAllLightest<A, C>(s: State<A, C>, ms: seq<string>): (r: State<A, C>)
    requires Inv(s) && (forall m :: m in ms ==> m in s.clients)
    ensures Inv(r)
    decreases |ms|
  {
    if ms == [] then s
    else
      AssignLightestKeepsInv(s, ms[0]);
      AssignAllLightest(AssignLightest(s, ms[0]).0, ms[1..])
  }

  /** With heap.Pop a fleet whose loads differ by at most one stays so over any assignments. */
  lemma {:induction false} BalanceKept<A, C>(s: State<A, C>, ms: seq<string>)
    requires Inv(s) && Balanced(s) && (forall m :: m in ms ==> m in s.clients)
    ensures Balanced(AssignAllLightest(s, ms))
    decreases |ms|
  {
    if ms != [] {
      AssignLightestKeepsInv(s, ms[0]);
      AssignLightestBalances(s, ms[0]);
      BalanceKept(AssignLightest(s, ms[0]).0, ms[1..]);
    }
  }

  // ---------- As written, when it does what was meant ----------

  /** As written the chosen agent serves no more clients than any queued agent, exactly if it
      serves no more than the agent at the root. */
  lemma LeastIsChosenIff<A, C>(s: State<A, C>, m: string)
    requires Inv(s) && s.queue != [] && m in s.clients && m !in s.owner
    ensures Assign(s, m).1.Some?
    ensures var a := Assign(s, m).1.value;
      && a == Last(s.queue)
      && ((forall b :: b in s.queue ==> |s.served[a]| <= |s.served[b]|) <==> |s.served[a]| <= |s.served[s.queue[0]]|)
  {
    ServedAreOwned(s, Last(s.queue), m);
    AssignShape(s, m);
    forall b | b in s.queue
      ensures |s.served[s.queue[0]]| <= |s.served[b]|
    {
      RootIsLightest(s.queue, Load(s), Slot(s.queue, b));
    }
  }

  /** The clients of ms that nobody serves yet. */
  ghost function Unserved<A, C>(s: State<A, C>, ms: seq<string>): set<string> {
    set m | m in ms && m !in s.owner
  }

  lemma UnservedOneLess<A, C>(s: State<A, C>, r: State<A, C>, ms: seq<string>, a: A)
    requires ms != [] && r.owner == if ms[0] in s.owner then s.owner else s.owner[ms[0] := a]
    ensures |Unserved(s, ms)| == |Unserved(r, ms[1..])| + if ms[0] in s.owner then 0 else 1
  {
    if ms[0] in s.owner {
      assert Unserved(s, ms) == Unserved(r, ms[1..]);
    } else {
      assert Unserved(s, ms) == Unserved(r, ms[1..]) + {ms[0]} && ms[0] !in Unserved(r, ms[1..]);
    }
  }

  lemma {:induction false} LastGetsAllUnserved<A, C>(s: State<A, C>, ms: seq<string>)
    requires Inv(s) && s.queue != [] && (forall m :: m in ms ==> m in s.clients)
    ensures |AssignAll(s, ms).served[Last(s.queue)]| == |s.served[Last(s.queue)]| + |Unserved(s, ms)|
    decreases |ms|
  {
    if ms == [] {
      assert Unserved(s, ms) == {};
    } else {
      AssignEffect(s, ms[0]);
      UnservedOneLess(s, Assign(s, ms[0]).0, ms, Last(s.queue));
      LastGetsAllUnserved(Assign(s, ms[0]).0, ms[1..]);
    }
  }

  ghost predicate Level<A>(q: seq<A>, w: map<A, nat>)
    requires Weighed(q, w)
  {
    forall a, b :: a in q && b in q ==> w[a] <= w[b] + 1
  }

  /** Weight n more on the last slot of a level heap. */
  lemma LevelIff<A>(q: seq<A>, w: map<A, nat>, w': map<A, nat>, n: nat)
    requires q != [] && Distinct(q) && Weighed(q, w) && Weighed(q, w') && Ordered(q, w) && Level(q, w)
    requires forall a :: a in q ==> w'[a] == w[a] + if a == Last(q) then n else 0
    ensures Level(q, w') <==> |q| == 1 || w[Last(q)] + n <= w[q[0]] + 1
  {
    forall a | a in q
      ensures w[q[0]] <= w[a]
    {
      RootIsLightest(q, w, Slot(q, a));
    }
    if |q| == 1 {
      assert forall a :: a in q ==> a == Last(q);
    } else {
      assert q[0] != Last(q) && q[0] in q && Last(q) in q;
    }
  }

  /** As written a fleet whose loads differ by at most one stays so over the assignments of ms,
      exactly if it is a single agent or the new clients bring the agent in the last slot to no
      more than one above the root. */
  lemma {:induction false} StaysBalancedIff<A, C>(s: State<A, C>, ms: seq<string>)
    requires Inv(s) && s.queue != [] && Balanced(s) && (forall m :: m in ms ==> m in s.clients)
    ensures Balanced(AssignAll(s, ms)) <==>
      |s.queue| == 1 || |s.served[Last(s.queue)]| + |Unserved(s, ms)| <= |s.served[s.queue[0]]| + 1
  {
    var r := AssignAll(s, ms);
    LastGetsAllUnserved(s, ms);
    forall a | a in s.queue
      ensures Load(r)[a] == Load(s)[a] + if a == Last(s.queue) then |Unserved(s, ms)| else 0
    {
      if a != Last(s.queue) { OthersUntouched(s, ms, a); }
    }
    LevelIs(s);
    LevelIs(r);
    LevelIff(s.queue, Load(s), Load(r), |Unserved(s, ms)|);
  }

  lemma LevelIs<A, C>(s: State<A, C>)
    requires Weighed(s.queue, Load(s))
    ensures Balanced(s) <==> Level(s.queue, Load(s))
  {
    assert forall a :: a in s.queue ==> a in s.served && Load(s)[a] == |s.served[a]|;
  }

  // ---------- The two side by side ----------

  /** Two idle agents, 0 and 1, and n clients nobody serves yet. */
  ghost function TwoAgents(ms: seq<string>): State<int, string> {
    var cs := map m | m in ms :: m;
    State([0, 1], map[0 := map[], 1 := map[]], cs, map[], cs)
  }

  lemma TwoIdleQueue(s: State<int, string>)
    requires s.queue == [0, 1] && s.served == map[0 := map[], 1 := map[]]
    ensures QueueOk(s) && Balanced(s)
  {
    assert s.queue[0] == 0 && s.queue[1] == 1;
    assert Load(s) == map[0 := 0, 1 := 0];
  }

  lemma TwoAgentsInv(ms: seq<string>)
    ensures Inv(TwoAgents(ms)) && Balanced(TwoAgents(ms))
  {
    var s := TwoAgents(ms);
    TwoIdleQueue(s);
    assert AgentsOk(s);
    assert ClientsOk(s);
  }

  lemma {:induction false} DistinctSize(ms: seq<string>)
    requires Distinct(ms)
    ensures |set m | m in ms| == |ms|
    decreases |ms|
  {
    if ms != [] {
      DistinctSize(ms[1..]);
      assert (set m | m in ms) == {ms[0]} + set m | m in ms[1..];
    }
  }

  lemma AllUnserved<A, C>(s: State<A, C>, ms: seq<string>)
    requires Distinct(ms) && forall m :: m in ms ==> m !in s.owner
    ensures |Unserved(s, ms)| == |ms|
  {
    DistinctSize(ms);
    assert Unserved(s, ms) == set m | m in ms;
  }

  lemma {:induction false} AllOwnedByLast<A, C>(s: State<A, C>, ms: seq<string>)
    requires Inv(s) && s.queue != [] && Distinct(ms)
    requires forall m :: m in ms ==> m in s.clients && m !in s.owner
    ensures |AssignAll(s, ms).served[Last(s.queue)]| == |s.served[Last(s.queue)]| + |ms|
  {
    LastGetsAllUnserved(s, ms);
    AllUnserved(s, ms);
  }

  /** For every number of clients: as written one of the two agents serves all of them and the
      other none, while with heap.Pop their loads differ by at most one. */
  lemma {:induction false} OneAgentTakesAll(ms: seq<string>)
    requires Distinct(ms)
    ensures var s := TwoAgents(ms);
      && Inv(s)
      && |AssignAll(s, ms).served[1]| == |ms| && |AssignAll(s, ms).served[0]| == 0
      && Balanced(AssignAllLightest(s, ms))
  {
    var s := TwoAgents(ms);
    TwoAgentsInv(ms);
    AllOwnedByLast(s, ms);
    LastSlotGetsAll(s, ms);
    BalanceKept(s, ms);
  }
}
