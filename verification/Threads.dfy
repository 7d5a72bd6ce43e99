/** The service under any number of goroutines. A step is one lock operation or one write, and
    heap.up climbs one level at a time; only the deletion loop and the heap.Remove of a
    disconnect, and the making of an agent together with its append to the queue, are one step
    each. Taking a lock for reading
    does not wait for a writer that is still waiting, so there are more interleavings than Go
    allows; Deadlock.dfy and Progress.dfy count such a writer as blocking. Agents and clients
    are named by integers. The same threads serve three questions: do the critical sections
    behave like single steps (Refinement.dfy), which threads can wait for each other forever
    (Deadlock.dfy), and can somebody always go on otherwise (Progress.dfy). */
module Threads {
  import opened Wrappers
  import opened HeapSpec
  import opened Scheduler

  type Data = State<int, int>

  datatype Lock =
    | QueueLock              // os.queueLock
    | ClientsLock            // os.clientsLock
    | AgentLock(a: int)      // agent.clientsLock, a read-write lock
    | WriteLock(a: int)      // agent.writeLock
    | RequestsLock(a: int)   // agent.requestsLock, a read-write lock

  // Where a goroutine is. The `Want` states are about to take a lock, the `Out` states are
  // about to release one.

  /** NewClient */
  datatype NewPc = NewWantC | NewIn | NewOutC

  /** ServeHTTP up to the end of its read loop */
  datatype ServePc =
    | ConnWantQ | ConnIn | ConnUp(a: int, j: nat) | ConnOutQ(a: int)
    | Read(a: int)
    | RecvWantA(a: int, m: string) | RecvIn(a: int, m: string)
    | FailWantA(a: int) | FailIn(a: int)

  /** the deferred disconnect */
  datatype LeavePc =
    | LeaveWantQ | LeaveWantC | LeaveWantA
    | LeaveUnmap | LeaveEmpty | LeaveRemove
    | LeaveOutA | LeaveOutC | LeaveOutQ

  /** assignAgent; the Fix states take the two service locks in the disconnect's order */
  datatype SendPc =
    | SendWantC | SendLook | SendWantQ
    | FixWantQ | FixWantC | FixLook
    | SendPop | SendWantA(a: int)
    | SendServe(a: int) | SendOwn(a: int) | SendPush(a: int) | SendUp(a: int, j: nat)
    | SendOutA(a: int) | SendOutQ(r: Option<int>) | SendOutC(r: Option<int>)

  /** agent.transmit */
  datatype XmitPc =
    | XmitWantW | XmitIn | XmitAddWantR | XmitAdd | XmitWait | XmitDelWantR | XmitDel | XmitOutW

  /** Stop */
  datatype StopPc =
    | StopWantQ | StopLoop(rest: seq<int>) | StopWantW(a: int, rest: seq<int>) | StopIn(a: int, rest: seq<int>)

  datatype Ctl =
    | Done
    | New(m: string, np: NewPc)
    | Serve(sp: ServePc)
    | Leave(a: int, lp: LeavePc)
    | Send(m: string, dp: SendPc)
    | Xmit(a: int, xp: XmitPc)
    | Handle(a: int, inside: bool)   // handleResponse: before, or inside the read lock
    | Stop(tp: StopPc)

  // ---------- Locks held and wanted ----------

  predicate HasC(c: Ctl) {
    match c
    case New(_, p) => p != NewWantC
    case Leave(_, p) =>
      p.LeaveWantA? || p.LeaveUnmap? || p.LeaveEmpty? || p.LeaveRemove? || p.LeaveOutA? || p.LeaveOutC?
    case Send(_, p) => !(p.SendWantC? || p.FixWantQ? || p.FixWantC?)
    case _ => false
  }

  predicate HasQ(c: Ctl) {
    match c
    case Serve(p) => p.ConnIn? || p.ConnUp? || p.ConnOutQ?
    case Leave(_, p) => !p.LeaveWantQ?
    case Send(_, p) => !(p.SendWantC? || p.SendLook? || p.SendWantQ? || p.FixWantQ? || p.SendOutC?)
    case Stop(p) => !p.StopWantQ?
    case _ => false
  }

  predicate HasA(c: Ctl, a: int) {
    match c
    case Serve(p) => p.FailIn? && p.a == a
    case Leave(b, p) => b == a && (p.LeaveUnmap? || p.LeaveEmpty? || p.LeaveRemove? || p.LeaveOutA?)
    case Send(_, p) => (p.SendServe? || p.SendOwn? || p.SendPush? || p.SendUp? || p.SendOutA?) && p.a == a
    case _ => false
  }

  predicate HasW(c: Ctl, a: int) {
    match c
    case Xmit(b, p) => b == a && !p.XmitWantW?
    case Stop(p) => p.StopIn? && p.a == a
    case _ => false
  }

  predicate HasR(c: Ctl, a: int) {
    c.Xmit? && c.a == a && (c.xp.XmitAdd? || c.xp.XmitDel?)
  }

  /** The thread holds the lock for itself. */
  predicate Holds(c: Ctl, l: Lock) {
    match l
    case QueueLock => HasQ(c)
    case ClientsLock => HasC(c)
    case AgentLock(a) => HasA(c, a)
    case WriteLock(a) => HasW(c, a)
    case RequestsLock(a) => HasR(c, a)
  }

  /** The thread holds the lock for reading, with other readers. */
  predicate Shares(c: Ctl, l: Lock) {
    match l
    case AgentLock(a) => c.Serve? && c.sp.RecvIn? && c.sp.a == a
    case RequestsLock(a) => c.Handle? && c.a == a && c.inside
    case _ => false
  }

  /** The lock the thread is about to take for itself. */
  function Wants(c: Ctl): Option<Lock> {
    match c
    case New(_, NewWantC) => Some(ClientsLock)
    case Serve(ConnWantQ) => Some(QueueLock)
    case Serve(FailWantA(a)) => Some(AgentLock(a))
    case Leave(_, LeaveWantQ) => Some(QueueLock)
    case Leave(_, LeaveWantC) => Some(ClientsLock)
    case Leave(a, LeaveWantA) => Some(AgentLock(a))
    case Send(_, SendWantC) => Some(ClientsLock)
    case Send(_, SendWantQ) => Some(QueueLock)
    case Send(_, SendWantA(a)) => Some(AgentLock(a))
    case Send(_, FixWantQ) => Some(QueueLock)
    case Send(_, FixWantC) => Some(ClientsLock)
    case Xmit(a, XmitWantW) => Some(WriteLock(a))
    case Xmit(a, XmitAddWantR) => Some(RequestsLock(a))
    case Xmit(a, XmitDelWantR) => Some(RequestsLock(a))
    case Stop(StopWantQ) => Some(QueueLock)
    case Stop(StopWantW(a, _)) => Some(WriteLock(a))
    case _ => None
  }

  /** The lock the thread is about to take for reading. */
  function WantsShared(c: Ctl): Option<Lock> {
    match c
    case Serve(RecvWantA(a, _)) => Some(AgentLock(a))
    case Handle(a, false) => Some(RequestsLock(a))
    case _ => None
  }

  // ---------- What one thread does next ----------

  /** One turn of heap.up from slot j: either the climb is over, or it goes on from k. */
  ghost predicate Climbs(d: Data, j: nat, d': Data, k: nat) {
    && Weighed(d.queue, Load(d)) && j < |d.queue| && !EdgeOk(d.queue, Load(d), j)
    && k == Parent(j) && d' == d.(queue := HeapSpec.Swap(d.queue, Parent(j), j))
  }

  ghost predicate ClimbOver(d: Data, j: nat, d': Data) {
    Weighed(d.queue, Load(d)) && j < |d.queue| && EdgeOk(d.queue, Load(d), j) && d' == d
  }

  ghost predicate NewStep(d: Data, m: string, p: NewPc, d': Data, c': Ctl) {
    match p
    case NewWantC => d' == d && c' == New(m, NewIn)
    case NewIn => c' == New(m, NewOutC) && exists k :: k !in d.mxid && d' == Scheduler.NewClient(d, m, k)
    case NewOutC => d' == d && c' == Done
  }

  ghost predicate ServeStep(d: Data, p: ServePc, d': Data, c': Ctl) {
    match p
    case ConnWantQ => d' == d && c' == Serve(ConnIn)
    case ConnIn =>
      && c'.Serve? && c'.sp.ConnUp? && c'.sp.a !in d.served && c'.sp.j == |d.queue|
      && d' == Release(d, c'.sp.a).(queue := d.queue + [c'.sp.a])
    case ConnUp(a, j) =>
      || (ClimbOver(d, j, d') && c' == Serve(ConnOutQ(a)))
      || (c'.Serve? && c'.sp.ConnUp? && c'.sp.a == a && Climbs(d, j, d', c'.sp.j))
    case ConnOutQ(a) => d' == d && c' == Serve(Read(a))
    case Read(a) => d' == d && (c' == Serve(FailWantA(a)) || (c'.Serve? && c'.sp.RecvWantA? && c'.sp.a == a))
    case RecvWantA(a, m) => d' == d && c' == Serve(RecvIn(a, m))
    case RecvIn(a, m) => d' == d && c' == Serve(Read(a))
    case FailWantA(a) => d' == d && c' == Serve(FailIn(a))
    case FailIn(a) => d' == d && c' == Leave(a, LeaveWantQ)
  }

  ghost predicate LeaveStep(d: Data, a: int, p: LeavePc, d': Data, c': Ctl) {
    match p
    case LeaveWantQ => d' == d && c' == Leave(a, LeaveWantC)
    case LeaveWantC => d' == d && c' == Leave(a, LeaveWantA)
    case LeaveWantA => d' == d && c' == Leave(a, LeaveUnmap)
    case LeaveUnmap => a in d.served && d' == Disown(d, a) && c' == Leave(a, LeaveEmpty)
    case LeaveEmpty => d' == Release(d, a) && c' == Leave(a, LeaveRemove)
    case LeaveRemove => Weighed(d.queue, Load(d)) && a in d.queue && d' == Unqueue(d, a) && c' == Leave(a, LeaveOutA)
    case LeaveOutA => d' == d && c' == Leave(a, LeaveOutC)
    case LeaveOutC => d' == d && c' == Leave(a, LeaveOutQ)
    case LeaveOutQ => d' == d && c' == Done
  }

  ghost predicate SendStep(d: Data, m: string, p: SendPc, d': Data, c': Ctl) {
    match p
    case SendWantC => d' == d && c' == Send(m, SendLook)
    case SendLook => d' == d && c' == Send(m, if m in d.owner then SendOutC(Some(d.owner[m])) else SendWantQ)
    case SendWantQ => d' == d && c' == Send(m, SendPop)
    case FixWantQ => d' == d && c' == Send(m, FixWantC)
    case FixWantC => d' == d && c' == Send(m, FixLook)
    case FixLook => d' == d && c' == Send(m, if m in d.owner then SendOutQ(Some(d.owner[m])) else SendPop)
    case SendPop =>
      if d.queue == [] then d' == d && c' == Send(m, SendOutQ(None))
      else d' == TakeLast(d) && c' == Send(m, SendWantA(Last(d.queue)))
    case SendWantA(a) => d' == d && c' == Send(m, SendServe(a))
    case SendServe(a) => m in d.clients && a in d.served && d' == Scheduler.Serve(d, m, a) && c' == Send(m, SendOwn(a))
    case SendOwn(a) => d' == Own(d, m, a) && c' == Send(m, SendPush(a))
    case SendPush(a) => d' == d.(queue := d.queue + [a]) && c' == Send(m, SendUp(a, |d.queue|))
    case SendUp(a, j) =>
      || (ClimbOver(d, j, d') && c' == Send(m, SendOutA(a)))
      || (c'.Send? && c'.m == m && c'.dp.SendUp? && c'.dp.a == a && Climbs(d, j, d', c'.dp.j))
    case SendOutA(a) => d' == d && c' == Send(m, SendOutQ(Some(a)))
    case SendOutQ(r) => d' == d && c' == Send(m, SendOutC(r))
    case SendOutC(r) => d' == d && c' == if r.Some? then Xmit(r.value, XmitWantW) else Done
  }

  predicate XmitStep(a: int, p: XmitPc, c': Ctl) {
    match p
    case XmitWantW => c' == Xmit(a, XmitIn)
    case XmitIn => c' == Xmit(a, XmitAddWantR) || c' == Xmit(a, XmitOutW)
    case XmitAddWantR => c' == Xmit(a, XmitAdd)
    case XmitAdd => c' == Xmit(a, XmitWait)
    case XmitWait => c' == Xmit(a, XmitDelWantR)
    case XmitDelWantR => c' == Xmit(a, XmitDel)
    case XmitDel => c' == Xmit(a, XmitOutW)
    case XmitOutW => c' == Done
  }

  predicate StopStep(d: Data, p: StopPc, c': Ctl) {
    match p
    case StopWantQ => c' == Stop(StopLoop(d.queue))
    case StopLoop(rest) => c' == if rest == [] then Done else Stop(StopWantW(rest[0], rest[1..]))
    case StopWantW(a, rest) => c' == Stop(StopIn(a, rest))
    case StopIn(a, rest) => c' == Stop(StopLoop(rest))
  }

  /** One step of a thread from c to c'; the data moves from d to d'. */
  ghost predicate Local(d: Data, c: Ctl, d': Data, c': Ctl) {
    match c
    case Done => false
    case New(m, p) => NewStep(d, m, p, d', c')
    case Serve(p) => ServeStep(d, p, d', c')
    case Leave(a, p) => LeaveStep(d, a, p, d', c')
    case Send(m, p) => SendStep(d, m, p, d', c')
    case Xmit(a, p) => d' == d && XmitStep(a, p, c')
    case Handle(a, inside) => d' == d && c' == if inside then Done else Handle(a, true)
    case Stop(p) => d' == d && StopStep(d, p, c')
  }

  // ---------- All threads together ----------

  /** `common`: assignAgent takes the two service locks in the disconnect's order. */
  datatype Config = Config(common: bool, data: Data, threads: seq<Ctl>)

  predicate Initial(g: Config) {
    g.data == Empty() && g.threads == []
  }

  /** No other thread stands in the way of the lock that c wants. */
  predicate LetsBy(u: Ctl, c: Ctl) {
    && (Wants(c).Some? ==> !Holds(u, Wants(c).value) && !Shares(u, Wants(c).value))
    && (WantsShared(c).Some? ==> !Holds(u, WantsShared(c).value))
  }

  ghost predicate StepBy(g: Config, t: nat, g': Config) {
    && t < |g.threads| && |g'.threads| == |g.threads|
    && (forall u :: 0 <= u < |g.threads| && u != t ==> LetsBy(g.threads[u], g.threads[t]))
    && Local(g.data, g.threads[t], g'.data, g'.threads[t])
    && g' == g.(data := g'.data, threads := g.threads[t := g'.threads[t]])
  }

  /** A goroutine may start at any time; a client transmits only once NewClient has made it. */
  predicate MayStart(g: Config, c: Ctl) {
    match c
    case New(_, p) => p == NewWantC
    case Serve(p) => p == ConnWantQ
    case Send(m, p) => m in g.data.clients && p == if g.common then FixWantQ else SendWantC
    case Handle(_, inside) => !inside
    case Stop(p) => p == StopWantQ
    case _ => false
  }

  ghost predicate StartOf(g: Config, c: Ctl, g': Config) {
    MayStart(g, c) && g' == g.(threads := g.threads + [c])
  }

  ghost predicate Next(g: Config, g': Config) {
    (exists t: nat :: StepBy(g, t, g')) || (exists c :: StartOf(g, c, g'))
  }

  ghost predicate IsRun(r: seq<Config>) {
    r != [] && Initial(r[0]) && forall i :: 0 <= i < |r| - 1 ==> Next(r[i], r[i + 1])
  }

  // ---------- Mutual exclusion ----------

  ghost predicate Exclusive(g: Config) {
    forall t, u, l :: 0 <= t < |g.threads| && 0 <= u < |g.threads| && t != u && Holds(g.threads[t], l) ==>
      !Holds(g.threads[u], l) && !Shares(g.threads[u], l)
  }

  /** A thread holds after a step only what it held before or was about to take. */
  lemma LocksTaken(d: Data, c: Ctl, d': Data, c': Ctl, l: Lock)
    requires Local(d, c, d', c')
    ensures Holds(c', l) ==> Holds(c, l) || Wants(c) == Some(l)
    ensures Shares(c', l) ==> Shares(c, l) || WantsShared(c) == Some(l)
  {
    match c
    case New(m, p) => NewLocks(d, m, p, d', c', l);
    case Serve(p) => ServeLocks(d, p, d', c', l);
    case Leave(a, p) => LeaveLocks(d, a, p, d', c', l);
    case Send(m, p) => SendLocks(d, m, p, d', c', l);
    case Xmit(a, p) =>
    case Handle(a, inside) =>
    case Stop(p) =>
  }

  lemma NewLocks(d: Data, m: string, p: NewPc, d': Data, c': Ctl, l: Lock)
    requires NewStep(d, m, p, d', c')
    ensures Holds(c', l) ==> Holds(New(m, p), l) || Wants(New(m, p)) == Some(l)
    ensures !Shares(c', l)
  {
  }

  lemma ServeLocks(d: Data, p: ServePc, d': Data, c': Ctl, l: Lock)
    requires ServeStep(d, p, d', c')
    ensures Holds(c', l) ==> Holds(Serve(p), l) || Wants(Serve(p)) == Some(l)
    ensures Shares(c', l) ==> Shares(Serve(p), l) || WantsShared(Serve(p)) == Some(l)
  {
  }

  lemma LeaveLocks(d: Data, a: int, p: LeavePc, d': Data, c': Ctl, l: Lock)
    requires LeaveStep(d, a, p, d', c')
    ensures Holds(c', l) ==> Holds(Leave(a, p), l) || Wants(Leave(a, p)) == Some(l)
    ensures !Shares(c', l)
  {
  }

  lemma SendLocks(d: Data, m: string, p: SendPc, d': Data, c': Ctl, l: Lock)
    requires SendStep(d, m, p, d', c')
    ensures Holds(c', l) ==> Holds(Send(m, p), l) || Wants(Send(m, p)) == Some(l)
    ensures !Shares(c', l)
  {
  }

  lemma StepKeepsExclusive(g: Config, t: nat, g': Config)
    requires Exclusive(g) && StepBy(g, t, g')
    ensures Exclusive(g')
  {
    forall v, u, l | 0 <= v < |g'.threads| && 0 <= u < |g'.threads| && v != u && Holds(g'.threads[v], l)
      ensures !Holds(g'.threads[u], l) && !Shares(g'.threads[u], l)
    {
      LocksTaken(g.data, g.threads[t], g'.data, g'.threads[t], l);
    }
  }

  lemma FreshHoldsNothing(g: Config, c: Ctl, l: Lock)
    requires MayStart(g, c)
    ensures !Holds(c, l) && !Shares(c, l)
  {
  }

  lemma StartKeepsExclusive(g: Config, c: Ctl, g': Config)
    requires Exclusive(g) && StartOf(g, c, g')
    ensures Exclusive(g')
  {
    forall v, u, l | 0 <= v < |g'.threads| && 0 <= u < |g'.threads| && v != u && Holds(g'.threads[v], l)
      ensures !Holds(g'.threads[u], l) && !Shares(g'.threads[u], l)
    {
      FreshHoldsNothing(g, c, l);
    }
  }

  /** No two threads are inside the same service lock. */
  lemma Apart(g: Config, t: nat, u: nat)
    requires Exclusive(g) && t < |g.threads| && u < |g.threads| && t != u
    ensures !(HasQ(g.threads[t]) && HasQ(g.threads[u]))
    ensures !(HasC(g.threads[t]) && HasC(g.threads[u]))
  {
    var c, d := g.threads[t], g.threads[u];
    assert HasQ(c) == Holds(c, QueueLock) && HasC(c) == Holds(c, ClientsLock);
    assert HasQ(d) == Holds(d, QueueLock) && HasC(d) == Holds(d, ClientsLock);
  }
}
