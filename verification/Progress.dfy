/** Outside the deadlock somebody can always go on: the stuck sets are the only way for the
    goroutines of the service to come to a stop before they are done. */
module Progress {
  import opened Wrappers
  import opened HeapSpec
  import opened Scheduler
  import opened Threads
  import opened Deadlock
  import opened Refinement

  lemma {:induction false} SomeFresh(taken: set<int>) returns (k: int)
    ensures forall x :: x in taken ==> x < k
    decreases |taken|
  {
    k := 0;
    if x :| x in taken {
      var rest := SomeFresh(taken - {x});
      k := if x < rest then rest else x + 1;
      forall y | y in taken
        ensures y < k
      {
        if y != x { assert y in taken - {x}; }
      }
    }
  }

  lemma ClimbGoes(d: Data, j: nat) returns (d': Data, k: nat)
    requires Known(d) && j < |d.queue|
    ensures ClimbOver(d, j, d') || Climbs(d, j, d', k)
  {
    d', k := d, j;
    if !EdgeOk(d.queue, Load(d), j) {
      k := Parent(j);
      d' := d.(queue := HeapSpec.Swap(d.queue, k, j));
    }
  }

  lemma ServeGoes(d: Data, p: ServePc) returns (d': Data, c': Ctl)
    requires Fits(d, Serve(p))
    ensures ServeStep(d, p, d', c')
  {
    d' := d;
    match p
    case ConnWantQ => c' := Serve(ConnIn);
    case ConnIn =>
      var a := SomeFresh(d.served.Keys);
      d', c' := Release(d, a).(queue := d.queue + [a]), Serve(ConnUp(a, |d.queue|));
    case ConnUp(a, j) =>
      var k;
      d', k := ClimbGoes(d, j);
      c' := if ClimbOver(d, j, d') then Serve(ConnOutQ(a)) else Serve(ConnUp(a, k));
    case ConnOutQ(a) => c' := Serve(Read(a));
    case Read(a) => c' := Serve(FailWantA(a));
    case RecvWantA(a, m) => c' := Serve(RecvIn(a, m));
    case RecvIn(a, m) => c' := Serve(Read(a));
    case FailWantA(a) => c' := Serve(FailIn(a));
    case FailIn(a) => c' := Leave(a, LeaveWantQ);
  }

  lemma LeaveGoes(d: Data, a: int, p: LeavePc) returns (d': Data, c': Ctl)
    requires Fits(d, Leave(a, p)) && (p.LeaveUnmap? ==> a in d.served)
    ensures LeaveStep(d, a, p, d', c')
  {
    d' := d;
    match p
    case LeaveWantQ => c' := Leave(a, LeaveWantC);
    case LeaveWantC => c' := Leave(a, LeaveWantA);
    case LeaveWantA => c' := Leave(a, LeaveUnmap);
    case LeaveUnmap => d', c' := Disown(d, a), Leave(a, LeaveEmpty);
    case LeaveEmpty => d', c' := Release(d, a), Leave(a, LeaveRemove);
    case LeaveRemove => d', c' := Unqueue(d, a), Leave(a, LeaveOutA);
    case LeaveOutA => c' := Leave(a, LeaveOutC);
    case LeaveOutC => c' := Leave(a, LeaveOutQ);
    case LeaveOutQ => c' := Done;
  }

  lemma SendGoes(d: Data, m: string, p: SendPc) returns (d': Data, c': Ctl)
    requires Fits(d, Send(m, p))
    ensures SendStep(d, m, p, d', c')
  {
    d' := d;
    match p
    case SendWantC => c' := Send(m, SendLook);
    case SendLook => c' := Send(m, if m in d.owner then SendOutC(Some(d.owner[m])) else SendWantQ);
    case SendWantQ => c' := Send(m, SendPop);
    case FixWantQ => c' := Send(m, FixWantC);
    case FixWantC => c' := Send(m, FixLook);
    case FixLook => c' := Send(m, if m in d.owner then SendOutQ(Some(d.owner[m])) else SendPop);
    case SendPop =>
      if d.queue == [] {
        c' := Send(m, SendOutQ(None));
      } else {
        d', c' := TakeLast(d), Send(m, SendWantA(Last(d.queue)));
      }
    case SendWantA(a) => c' := Send(m, SendServe(a));
    case SendServe(a) => d', c' := Scheduler.Serve(d, m, a), Send(m, SendOwn(a));
    case SendOwn(a) => d', c' := Own(d, m, a), Send(m, SendPush(a));
    case SendPush(a) => d', c' := d.(queue := d.queue + [a]), Send(m, SendUp(a, |d.queue|));
    case SendUp(a, j) =>
      var k;
      d', k := ClimbGoes(d, j);
      c' := if ClimbOver(d, j, d') then Send(m, SendOutA(a)) else Send(m, SendUp(a, k));
    case SendOutA(a) => c' := Send(m, SendOutQ(Some(a)));
    case SendOutQ(r) => c' := Send(m, SendOutC(r));
    case SendOutC(r) => c' := if r.Some? then Xmit(r.value, XmitWantW) else Done;
  }

  lemma XmitGoes(a: int, p: XmitPc) returns (c': Ctl)
    ensures XmitStep(a, p, c')
  {
    match p
    case XmitWantW => c' := Xmit(a, XmitIn);
    case XmitIn => c' := Xmit(a, XmitAddWantR);
    case XmitAddWantR => c' := Xmit(a, XmitAdd);
    case XmitAdd => c' := Xmit(a, XmitWait);
    case XmitWait => c' := Xmit(a, XmitDelWantR);
    case XmitDelWantR => c' := Xmit(a, XmitDel);
    case XmitDel => c' := Xmit(a, XmitOutW);
    case XmitOutW => c' := Done;
  }

  lemma StopGoes(d: Data, p: StopPc) returns (c': Ctl)
    ensures StopStep(d, p, c')
  {
    match p
    case StopWantQ => c' := Stop(StopLoop(d.queue));
    case StopLoop(rest) => c' := if rest == [] then Done else Stop(StopWantW(rest[0], rest[1..]));
    case StopWantW(a, rest) => c' := Stop(StopIn(a, rest));
    case StopIn(a, rest) => c' := Stop(StopLoop(rest));
  }

  lemma NewGoes(d: Data, m: string, p: NewPc) returns (d': Data, c': Ctl)
    ensures NewStep(d, m, p, d', c')
  {
    d' := d;
    match p
    case NewWantC => c' := New(m, NewIn);
    case NewIn =>
      var k := SomeFresh(d.mxid.Keys);
      d', c' := Scheduler.NewClient(d, m, k), New(m, NewOutC);
    case NewOutC => c' := Done;
  }

  /** A thread that is not done has a next step, as far as the data goes. */
  lemma ThreadGoes(d: Data, c: Ctl) returns (d': Data, c': Ctl)
    requires c != Done && Fits(d, c) && (c.Leave? && c.lp.LeaveUnmap? ==> c.a in d.served)
    ensures Local(d, c, d', c')
  {
    d' := d;
    match c
    case New(m, p) => d', c' := NewGoes(d, m, p);
    case Serve(p) => d', c' := ServeGoes(d, p);
    case Leave(a, p) => d', c' := LeaveGoes(d, a, p);
    case Send(m, p) => d', c' := SendGoes(d, m, p);
    case Xmit(a, p) => c' := XmitGoes(a, p);
    case Handle(a, inside) => c' := if inside then Done else Handle(a, true);
    case Stop(p) => c' := StopGoes(d, p);
  }

  /** The agent whose mappings are about to be deleted is in the tables. */
  lemma UnmapsKnown(g: Config, s: Data, t: nat)
    requires Inv(s) && Faithful(g, s) && t < |g.threads| && g.threads[t].Leave? && g.threads[t].lp.LeaveUnmap?
    ensures g.threads[t].a in g.data.served
  {
    forall v | 0 <= v < |g.threads|
      ensures !Dirty(g.threads[v])
    {
      if v != t {
        Apart(g, t, v);
        if Dirty(g.threads[v]) { DirtyHoldsQueue(g.threads[v]); }
      }
    }
    assert s == g.data && Relies(s, g.threads[t]);
  }

  /** Nobody stands in the way of thread t, not even a writer waiting for a lock it reads. */
  ghost predicate Unblocked(g: Config, t: nat) {
    && t < |g.threads| && g.threads[t] != Done
    && (forall u :: 0 <= u < |g.threads| && u != t ==> !Blocks(g.threads[u], g.threads[t]))
  }

  lemma UnblockedSteps(g: Config, es: seq<Event>, t: nat) returns (g': Config)
    requires Shows(g, es) && Unblocked(g, t)
    ensures StepBy(g, t, g')
  {
    var s := R.Run(Empty(), es);
    var c := g.threads[t];
    if c.Leave? && c.lp.LeaveUnmap? { UnmapsKnown(g, s, t); }
    assert Fits(g.data, c);
    var d', c' := ThreadGoes(g.data, c);
    g' := g.(data := d', threads := g.threads[t := c']);
    forall u | 0 <= u < |g.threads| && u != t
      ensures LetsBy(g.threads[u], c)
    {
      assert !Blocks(g.threads[u], c);
    }
  }

  lemma BlockerIsNotDone(u: Ctl, t: Ctl)
    requires Blocks(u, t)
    ensures u != Done
  {
  }

  lemma AllBlocked(g: Config, s: set<nat>)
    requires forall t: nat :: t in s <==> t < |g.threads| && g.threads[t] != Done
    requires s != {} && forall t :: t in s ==> !Unblocked(g, t)
    ensures Stuck(g, s)
  {
    forall t | t in s
      ensures BlockedWithin(g, s, t)
    {
      assert !Unblocked(g, t);
      var u: nat :| u < |g.threads| && u != t && Blocks(g.threads[u], g.threads[t]);
      BlockerIsNotDone(g.threads[u], g.threads[t]);
    }
  }

  lemma SomeUnblocked(r: seq<Config>, i: nat, t0: nat) returns (t: nat)
    requires IsRun(r) && i < |r| && (r[0].common || !Facing(r[i]))
    requires t0 < |r[i].threads| && r[i].threads[t0] != Done
    ensures Unblocked(r[i], t)
  {
    var g := r[i];
    var s := set t: nat | t < |g.threads| && g.threads[t] != Done;
    if forall t :: t in s ==> !Unblocked(g, t) {
      assert t0 in s;
      AllBlocked(g, s);
      if r[0].common { CommonOrderNeverStuck(r, i, s); } else { StuckIff(r, i); }
    }
    t :| t in s && Unblocked(g, t);
  }

  /** In every reachable configuration in which no assigner and disconnecter face each other,
      and with the common lock order in every one, some thread has a step unless all are done:
      one that nobody blocks, even if waiting writers keep new readers out. */
  lemma SomebodyGoes(r: seq<Config>, i: nat, t0: nat) returns (t: nat, g': Config)
    requires IsRun(r) && i < |r| && (r[0].common || !Facing(r[i]))
    requires t0 < |r[i].threads| && r[i].threads[t0] != Done
    ensures Unblocked(r[i], t) && StepBy(r[i], t, g')
  {
    t := SomeUnblocked(r, i, t0);
    var ess := RunRefines(r);
    AlongAt(Shows, Extends, r, ess, i);
    g' := UnblockedSteps(r[i], ess[i], t);
  }
}
