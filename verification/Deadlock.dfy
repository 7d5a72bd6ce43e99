/** Which threads can wait for each other forever. */
module Deadlock {
  import opened Wrappers
  import opened Threads
  import Scheduler

  /** Thread u keeps thread t waiting: it has the lock t wants, or it is a writer waiting
      for a read-write lock that t wants to read. */
  predicate Blocks(u: Ctl, t: Ctl) {
    || (Wants(t).Some? && (Holds(u, Wants(t).value) || Shares(u, Wants(t).value)))
    || (WantsShared(t).Some? && (Holds(u, WantsShared(t).value) || Wants(u) == WantsShared(t)))
  }

  ghost predicate BlockedWithin(g: Config, s: set<nat>, t: nat) {
    exists u :: u in s && u != t && t < |g.threads| && u < |g.threads| && Blocks(g.threads[u], g.threads[t])
  }

  /** A set of threads each of which waits for another one of the set. */
  ghost predicate Stuck(g: Config, s: set<nat>) {
    s != {} && forall t {:trigger BlockedWithin(g, s, t)} :: t in s ==> BlockedWithin(g, s, t)
  }

  /** Inside assignAgent, with the clients locked, before locking the queue. */
  predicate Assigner(c: Ctl) {
    c.Send? && c.dp.SendWantQ?
  }

  /** Inside the deferred disconnect, with the queue locked, before locking the clients. */
  predicate Disconnecter(c: Ctl) {
    c.Leave? && c.lp.LeaveWantC?
  }

  function Rank(l: Lock): nat {
    match l
    case QueueLock => 0
    case ClientsLock => 1
    case AgentLock(_) => 2
    case WriteLock(_) => 3
    case RequestsLock(_) => 4
  }

  function Waited(c: Ctl): Option<Lock> {
    if Wants(c).Some? then Wants(c) else WantsShared(c)
  }

  /** Only assignAgent takes a lock of lower rank than one it holds. */
  lemma OnlyAssignerDescends(c: Ctl, l: Lock)
    requires (Holds(c, l) || Shares(c, l)) && Waited(c).Some? && !Assigner(c)
    ensures Rank(l) < Rank(Waited(c).value)
  {
    match c
    case Done =>
    case New(_, _) =>
    case Serve(_) =>
    case Leave(_, _) =>
    case Send(_, _) =>
    case Xmit(_, _) =>
    case Handle(_, _) =>
    case Stop(_) =>
  }

  /** Who blocks a waiting thread waits for a lock of higher rank itself, or is a writer that
      keeps a reader of the same lock waiting. */
  lemma BlockerWaitsHigher(u: Ctl, t: Ctl)
    requires Blocks(u, t) && Waited(u).Some? && !Assigner(u)
    ensures Waited(t).Some?
    ensures || Rank(Waited(t).value) < Rank(Waited(u).value)
            || (Waited(t) == Waited(u) && Wants(t).None? && Wants(u).Some?)
  {
    var l := Waited(t).value;
    if Holds(u, l) || Shares(u, l) {
      OnlyAssignerDescends(u, l);
    }
  }

  lemma BlockerOf(g: Config, s: set<nat>, t: nat) returns (u: nat)
    requires Stuck(g, s) && t in s
    ensures t < |g.threads| && u < |g.threads|
    ensures u in s && u != t && Blocks(g.threads[u], g.threads[t])
    ensures Waited(g.threads[t]).Some?
  {
    assert BlockedWithin(g, s, t);
    u :| u in s && u != t && u < |g.threads| && Blocks(g.threads[u], g.threads[t]);
  }

  /** Follow who waits for whom: the chain climbs in rank, so it ends at an assigner. */
  lemma {:induction false} SomeAssigner(g: Config, s: set<nat>, t: nat) returns (v: nat)
    requires Stuck(g, s) && t in s && t < |g.threads| && Waited(g.threads[t]).Some?
    ensures v in s && v < |g.threads| && Assigner(g.threads[v])
    decreases 5 - Rank(Waited(g.threads[t]).value), Wants(g.threads[t]).None?
  {
    v := BlockerOf(g, s, t);
    var w := BlockerOf(g, s, v);
    if !Assigner(g.threads[v]) {
      BlockerWaitsHigher(g.threads[v], g.threads[t]);
      v := SomeAssigner(g, s, v);
    }
  }

  // ---------- Which threads there can be ----------

  predicate OrderOk(common: bool, c: Ctl) {
    c.Send? ==>
      if common then !(c.dp.SendWantC? || c.dp.SendLook? || c.dp.SendWantQ?)
      else !(c.dp.FixWantQ? || c.dp.FixWantC? || c.dp.FixLook?)
  }

  ghost predicate Sane(g: Config) {
    Exclusive(g) && forall t :: 0 <= t < |g.threads| ==> OrderOk(g.common, g.threads[t])
  }

  lemma NextKeepsSane(g: Config, g': Config)
    requires Sane(g) && Next(g, g')
    ensures Sane(g') && g'.common == g.common
  {
    if t: nat :| StepBy(g, t, g') {
      StepKeepsExclusive(g, t, g');
      assert OrderOk(g.common, g'.threads[t]);
    } else {
      var c :| StartOf(g, c, g');
      StartKeepsExclusive(g, c, g');
    }
  }

  lemma {:induction false} RunIsSane(r: seq<Config>, i: nat)
    requires IsRun(r) && i < |r|
    ensures Sane(r[i]) && r[i].common == r[0].common
  {
    if i > 0 {
      RunIsSane(r, i - 1);
      assert Next(r[i - 1], r[i - 1 + 1]);
      NextKeepsSane(r[i - 1], r[i]);
    }
  }

  // ---------- The stuck sets, exactly ----------

  /** Who keeps an assigner waiting, and waits itself, is a disconnecter or Stop. */
  lemma AssignerBlocker(u: Ctl, t: Ctl)
    requires Assigner(t) && Blocks(u, t) && Waited(u).Some? && !HasC(u)
    requires u.Send? ==> !u.dp.FixWantC?
    ensures Disconnecter(u) || (u.Stop? && u.tp.StopWantW?)
  {
  }

  /** Stop waits for a writeLock only while a transmit runs, and no transmit is ever blocked:
      the requests lock it may wait for is held by threads that wait for nothing. */
  lemma StopWaitsForRunning(x: Ctl, w: Ctl, u: Ctl)
    requires u.Stop? && u.tp.StopWantW? && Blocks(w, u) && !HasQ(w) && Blocks(x, w)
    ensures Waited(x).None?
  {
    assert w.Xmit?;
  }

  /** In the code's lock order every stuck set contains an assigner that holds the clients and
      waits for the queue, and a disconnecter that holds the queue and waits for the clients. */
  lemma StuckSetHasBoth(g: Config, s: set<nat>) returns (t: nat, u: nat)
    requires Sane(g) && Stuck(g, s) && !g.common
    ensures t in s && u in s && t < |g.threads| && u < |g.threads|
    ensures Assigner(g.threads[t]) && Disconnecter(g.threads[u])
  {
    var t0: nat :| t0 in s;
    var u0 := BlockerOf(g, s, t0);
    t := SomeAssigner(g, s, t0);
    u := BlockerOf(g, s, t);
    var w := BlockerOf(g, s, u);
    assert Holds(g.threads[t], ClientsLock) && Holds(g.threads[u], QueueLock);
    assert OrderOk(g.common, g.threads[u]);
    AssignerBlocker(g.threads[u], g.threads[t]);
    if !Disconnecter(g.threads[u]) {
      var x := BlockerOf(g, s, w);
      var y := BlockerOf(g, s, x);
      assert !Holds(g.threads[w], QueueLock);
      StopWaitsForRunning(g.threads[x], g.threads[w], g.threads[u]);
    }
  }

  /** Some threads of a reachable configuration are stuck exactly when an assigner and a
      disconnecter face each other. */
  lemma StuckIff(r: seq<Config>, i: nat)
    requires IsRun(r) && i < |r| && !r[0].common
    ensures (exists s :: Stuck(r[i], s)) <==> Facing(r[i])
  {
    RunIsSane(r, i);
    if s :| Stuck(r[i], s) {
      var t, u := StuckSetHasBoth(r[i], s);
    }
    if Facing(r[i]) {
      var t: nat, u: nat :| t < |r[i].threads| && u < |r[i].threads|
                            && Assigner(r[i].threads[t]) && Disconnecter(r[i].threads[u]);
      FacingIsStuck(r[i], t, u);
    }
  }

  ghost predicate Facing(g: Config) {
    exists t: nat, u: nat :: t < |g.threads| && u < |g.threads| && Assigner(g.threads[t]) && Disconnecter(g.threads[u])
  }

  lemma FacingIsStuck(g: Config, t: nat, u: nat)
    requires t < |g.threads| && u < |g.threads| && Assigner(g.threads[t]) && Disconnecter(g.threads[u])
    ensures Stuck(g, {t, u})
  {
    assert BlockedWithin(g, {t, u}, t) && BlockedWithin(g, {t, u}, u) by {
      assert Blocks(g.threads[u], g.threads[t]) && Blocks(g.threads[t], g.threads[u]);
    }
  }

  /** With one common order for the two locks no reachable configuration has a stuck set. */
  lemma CommonOrderNeverStuck(r: seq<Config>, i: nat, s: set<nat>)
    requires IsRun(r) && i < |r| && r[0].common
    ensures !Stuck(r[i], s)
  {
    RunIsSane(r, i);
    if Stuck(r[i], s) {
      var t0: nat :| t0 in s;
      var u0 := BlockerOf(r[i], s, t0);
      var t := SomeAssigner(r[i], s, t0);
      assert false;
    }
  }

  lemma FacingStays(g: Config, g': Config, t: nat, u: nat)
    requires Next(g, g') && t < |g.threads| && u < |g.threads|
    requires Assigner(g.threads[t]) && Disconnecter(g.threads[u])
    ensures |g.threads| <= |g'.threads| && g'.threads[t] == g.threads[t] && g'.threads[u] == g.threads[u]
  {
    if v: nat :| StepBy(g, v, g') {
      assert Holds(g.threads[t], ClientsLock) && Holds(g.threads[u], QueueLock);
      assert LetsBy(g.threads[u], g.threads[t]) || v != t;
      assert LetsBy(g.threads[t], g.threads[u]) || v != u;
    }
  }

  /** Once they face each other neither ever moves again, whatever the other threads do. */
  lemma {:induction false} StuckForever(r: seq<Config>, i: nat, k: nat, t: nat, u: nat)
    requires IsRun(r) && i <= k < |r| && t < |r[i].threads| && u < |r[i].threads|
    requires Assigner(r[i].threads[t]) && Disconnecter(r[i].threads[u])
    ensures t < |r[k].threads| && u < |r[k].threads|
    ensures r[k].threads[t] == r[i].threads[t] && r[k].threads[u] == r[i].threads[u]
    decreases k
  {
    if i < k {
      var j := k - 1;
      StuckForever(r, i, j, t, u);
      assert Next(r[j], r[j + 1]);
      FacingStays(r[j], r[k], t, u);
    }
  }

  // ---------- The code as written does get stuck ----------

  function Now(r: seq<Config>): Config
    requires r != []
  {
    r[|r| - 1]
  }

  lemma Append(r: seq<Config>, g: Config) returns (r': seq<Config>)
    requires IsRun(r) && Next(Now(r), g)
    ensures IsRun(r') && Now(r') == g
  {
    r' := r + [g];
    forall i | 0 <= i < |r'| - 1
      ensures Next(r'[i], r'[i + 1])
    {
      if i < |r| - 1 {
        assert r'[i] == r[i] && r'[i + 1] == r[i + 1];
      }
    }
  }

  lemma Launch(r: seq<Config>, c: Ctl) returns (r': seq<Config>)
    requires IsRun(r) && MayStart(Now(r), c)
    ensures IsRun(r') && Now(r') == Now(r).(threads := Now(r).threads + [c])
  {
    var g := Now(r).(threads := Now(r).threads + [c]);
    assert StartOf(Now(r), c, g);
    r' := Append(r, g);
  }

  lemma Advance(r: seq<Config>, t: nat, d: Data, c: Ctl) returns (r': seq<Config>)
    requires IsRun(r) && t < |Now(r).threads|
    requires forall u :: 0 <= u < |Now(r).threads| && u != t ==> LetsBy(Now(r).threads[u], Now(r).threads[t])
    requires Local(Now(r).data, Now(r).threads[t], d, c)
    ensures IsRun(r') && Now(r') == Now(r).(data := d, threads := Now(r).threads[t := c])
  {
    var g := Now(r).(data := d, threads := Now(r).threads[t := c]);
    assert StepBy(Now(r), t, g);
    r' := Append(r, g);
  }

  const ONE_AGENT: Data := Scheduler.State([0], map[0 := map[]], map[], map[], map[])
  const ONE_CLIENT: Data := Scheduler.State([0], map[0 := map[]], map["m" := 7], map[], map[7 := "m"])

  /** An agent connects and starts to read. */
  lemma AgentConnects() returns (r: seq<Config>)
    ensures IsRun(r) && Now(r) == Config(false, ONE_AGENT, [Serve(Read(0))])
  {
    r := [Config(false, Scheduler.Empty(), [])];
    r := Launch(r, Serve(ConnWantQ));
    r := Advance(r, 0, Scheduler.Empty(), Serve(ConnIn));
    r := Advance(r, 0, ONE_AGENT, Serve(ConnUp(0, 0)));
    assert ClimbOver(ONE_AGENT, 0, ONE_AGENT);
    r := Advance(r, 0, ONE_AGENT, Serve(ConnOutQ(0)));
    r := Advance(r, 0, ONE_AGENT, Serve(Read(0)));
  }

  /** Then a client is made and starts to transmit. */
  lemma ClientTransmits() returns (r: seq<Config>)
    ensures IsRun(r) && Now(r) == Config(false, ONE_CLIENT, [Serve(Read(0)), Done, Send("m", SendWantC)])
  {
    r := AgentConnects();
    r := Launch(r, New("m", NewWantC));
    r := Advance(r, 1, ONE_AGENT, New("m", NewIn));
    assert 7 !in ONE_AGENT.mxid && ONE_CLIENT == Scheduler.NewClient(ONE_AGENT, "m", 7);
    r := Advance(r, 1, ONE_CLIENT, New("m", NewOutC));
    r := Advance(r, 1, ONE_CLIENT, Done);
    r := Launch(r, Send("m", SendWantC));
  }

  /** It holds the clients and is about to lock the queue. */
  lemma ClientLooksUp() returns (r: seq<Config>)
    ensures IsRun(r) && Now(r) == Config(false, ONE_CLIENT, [Serve(Read(0)), Done, Send("m", SendWantQ)])
  {
    r := ClientTransmits();
    r := Advance(r, 2, ONE_CLIENT, Send("m", SendLook));
    r := Advance(r, 2, ONE_CLIENT, Send("m", SendWantQ));
  }

  /** And the agent's connection breaks just then: the code as written has a run, with one agent
      and one client, that ends in a deadlock. */
  lemma DeadlockIsReachable() returns (r: seq<Config>)
    ensures IsRun(r) && !r[0].common && Facing(Now(r)) && Stuck(Now(r), {0, 2})
  {
    r := ClientLooksUp();
    r := Advance(r, 0, ONE_CLIENT, Serve(FailWantA(0)));
    r := Advance(r, 0, ONE_CLIENT, Serve(FailIn(0)));
    r := Advance(r, 0, ONE_CLIENT, Leave(0, LeaveWantQ));
    r := Advance(r, 0, ONE_CLIENT, Leave(0, LeaveWantC));
    assert Now(r).threads == [Leave(0, LeaveWantC), Done, Send("m", SendWantQ)];
    FacingIsStuck(Now(r), 2, 0);
    assert {2, 0} == {0, 2};
    RunIsSane(r, |r| - 1);
  }
}
