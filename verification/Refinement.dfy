/** Why NewClient, connect, assign and disconnect can be treated as single steps: every run of
    the goroutines, interleaved at every lock and every write, is a run of SchedulerRuns. */
module Refinement {
  import opened Wrappers
  import opened HeapSpec
  import opened Scheduler
  import opened Threads
  import R = SchedulerRuns

  type Event = R.Event<int, int>

  // ---------- Which locks guard which writes ----------

  lemma SendWrites(d: Data, m: string, p: SendPc, d': Data, c': Ctl, a: int)
    requires SendStep(d, m, p, d', c')
    ensures d'.queue != d.queue || d'.owner != d.owner ==> HasQ(Send(m, p)) && HasC(Send(m, p))
    ensures d'.clients == d.clients && d'.mxid == d.mxid && d'.served.Keys == d.served.Keys
    ensures a in d.served && d'.served[a] != d.served[a] ==>
      HasQ(Send(m, p)) && HasC(Send(m, p)) && HasA(Send(m, p), a)
  {
  }

  lemma ServeWrites(d: Data, p: ServePc, d': Data, c': Ctl, a: int)
    requires ServeStep(d, p, d', c')
    ensures d'.queue != d.queue ==> HasQ(Serve(p))
    ensures d'.owner == d.owner && d'.clients == d.clients && d'.mxid == d.mxid && d.served.Keys <= d'.served.Keys
    ensures a in d.served ==> d'.served[a] == d.served[a]
  {
  }

  lemma LeaveWrites(d: Data, b: int, p: LeavePc, d': Data, c': Ctl, a: int)
    requires LeaveStep(d, b, p, d', c')
    ensures d'.queue != d.queue ==> HasQ(Leave(b, p))
    ensures d'.owner != d.owner ==> HasC(Leave(b, p))
    ensures d'.clients == d.clients && d'.mxid == d.mxid && d.served.Keys <= d'.served.Keys
    ensures a in d.served && d'.served[a] != d.served[a] ==>
      HasQ(Leave(b, p)) && HasC(Leave(b, p)) && HasA(Leave(b, p), a)
  {
  }

  /** The lock discipline: the queue is written under queueLock, the client tables under
      clientsLock, an agent's clients under both and under the agent's own clientsLock. */
  lemma WritesAreGuarded(d: Data, c: Ctl, d': Data, c': Ctl, a: int)
    requires Local(d, c, d', c')
    ensures d'.queue != d.queue ==> HasQ(c)
    ensures d'.owner != d.owner || d'.clients != d.clients || d'.mxid != d.mxid ==> HasC(c)
    ensures d.served.Keys <= d'.served.Keys
    ensures a in d.served && d'.served[a] != d.served[a] ==> HasQ(c) && HasC(c) && HasA(c, a)
  {
    match c
    case Done =>
    case New(m, p) =>
    case Serve(p) => ServeWrites(d, p, d', c', a);
    case Leave(b, p) => LeaveWrites(d, b, p, d', c', a);
    case Send(m, p) => SendWrites(d, m, p, d', c', a);
    case Xmit(_, p) =>
    case Handle(_, inside) =>
    case Stop(p) =>
  }

  /** While a thread has the queue locked, as it has for the whole of a heap operation, no
      step of any other thread moves the queue or changes a key the heap is ordered by. */
  lemma HeapIsStable(g: Config, t: nat, g': Config, u: nat, a: int)
    requires Exclusive(g) && StepBy(g, t, g') && u < |g.threads| && u != t
    requires HasQ(g.threads[u]) && a in g.data.served
    ensures g'.data.queue == g.data.queue
    ensures a in g'.data.served && g'.data.served[a] == g.data.served[a]
  {
    Apart(g, t, u);
    WritesAreGuarded(g.data, g.threads[t], g'.data, g'.threads[t], a);
  }

  // ---------- The value a half-done critical section stands for ----------

  /** Between the first and the last write of a critical section. */
  predicate Dirty(c: Ctl) {
    match c
    case Serve(p) => p.ConnUp?
    case Leave(_, p) => p.LeaveEmpty? || p.LeaveRemove?
    case Send(_, p) => p.SendWantA? || p.SendServe? || p.SendOwn? || p.SendPush? || p.SendUp?
    case _ => false
  }

  ghost predicate Known(d: Data) {
    forall k :: 0 <= k < |d.queue| ==> d.queue[k] in d.served
  }

  /** The mxid is neither served by the agent nor mapped yet. */
  ghost predicate Newly(d: Data, m: string, a: int) {
    a in d.served && m in d.clients && m !in d.served[a] && m !in d.owner
  }

  /** The writes still to come are defined. */
  ghost predicate Fits(d: Data, c: Ctl) {
    match c
    case Serve(ConnUp(_, j)) => Known(d) && j < |d.queue|
    case Leave(a, p) => p.LeaveEmpty? || p.LeaveRemove? ==> Known(d) && a in d.queue
    case Send(m, SendWantA(a)) => Known(d) && Newly(d, m, a)
    case Send(m, SendServe(a)) => Known(d) && Newly(d, m, a)
    case Send(m, SendOwn(a)) => Known(d) && a in d.served && m !in d.owner
    case Send(m, SendPush(a)) => Known(d) && a in d.served
    case Send(m, SendUp(_, j)) => Known(d) && j < |d.queue|
    case _ => true
  }

  ghost function Sifted(d: Data, j: nat): Data
    requires Known(d) && j < |d.queue|
  {
    d.(queue := HeapSpec.Up(d.queue, Load(d), j))
  }

  /** The data with the thread's remaining writes made. */
  ghost function Finish(d: Data, c: Ctl): Data
    requires Fits(d, c)
  {
    match c
    case Serve(ConnUp(_, j)) => Sifted(d, j)
    case Leave(a, p) =>
      if p.LeaveEmpty? then Unqueue(Release(d, a), a) else if p.LeaveRemove? then Unqueue(d, a) else d
    case Send(m, SendWantA(a)) => AssignTo(d, m, a)
    case Send(m, SendServe(a)) => AssignTo(d, m, a)
    case Send(m, SendOwn(a)) => Enqueue(Own(d, m, a), a)
    case Send(m, SendPush(a)) => Enqueue(d, a)
    case Send(m, SendUp(_, j)) => Sifted(d, j)
    case _ => d
  }

  // ---------- What a thread knows ----------

  /** The connected agent whose read loop this thread runs. */
  function ReaderOf(c: Ctl): Option<int> {
    match c
    case Serve(p) => if p.ConnWantQ? || p.ConnIn? then None else Some(p.a)
    case Leave(a, p) => if p.LeaveWantQ? || p.LeaveWantC? || p.LeaveWantA? || p.LeaveUnmap? then Some(a) else None
    case _ => None
  }

  /** The agent that assignAgent is about to return, from its choice to the release of
      clientsLock. */
  function Chosen(p: SendPc): Option<int> {
    match p
    case SendWantA(a) => Some(a)
    case SendServe(a) => Some(a)
    case SendOwn(a) => Some(a)
    case SendPush(a) => Some(a)
    case SendUp(a, _) => Some(a)
    case SendOutA(a) => Some(a)
    case SendOutQ(r) => r
    case SendOutC(r) => r
    case _ => None
  }

  ghost predicate Owns(s: Data, m: string, a: Option<int>) {
    a.Some? ==> m in s.owner && s.owner[m] == a.value
  }

  /** Facts about the abstract value s that thread c relies on. */
  ghost predicate Relies(s: Data, c: Ctl) {
    && (ReaderOf(c).Some? ==> ReaderOf(c).value in s.queue)
    && (c.Send? ==> c.m in s.clients && Owns(s, c.m, Chosen(c.dp)))
    && (c.Send? && SawUnmapped(c.dp) ==> c.m !in s.owner)
    && (Refuses(c) ==> s.queue == [])
  }

  /** assignAgent has found the mxid unmapped, and has not chosen an agent. */
  predicate SawUnmapped(p: SendPc) {
    p.SendWantQ? || p.SendPop? || ((p.SendOutQ? || p.SendOutC?) && p.r.None?)
  }

  /** assignAgent has found no agent, and still has both locks. */
  predicate Refuses(c: Ctl) {
    c.Send? && c.dp == SendOutQ(None)
  }

  ghost predicate Allowed(s: Data, e: Event) {
    Inv(s) && R.Enabled(s, e)
  }

  ghost function After(s: Data, e: Option<Event>): Data {
    if e.Some? && Allowed(s, e.value) then R.Step(s, e.value) else s
  }

  /** A step's effect on the abstract value is nothing or one whole critical section. */
  ghost predicate Commits(s: Data, e: Option<Event>, d': Data, c': Ctl) {
    Fits(d', c') && Finish(d', c') == After(s, e) && Relies(After(s, e), c')
  }

  /** Who may commit what. */
  predicate Entitled(c: Ctl, e: Option<Event>, c': Ctl) {
    && (|| ReaderOf(c') == ReaderOf(c)
        || ReaderOf(c').None?
        || (e.Some? && e.value.ConnectEvent? && ReaderOf(c') == Some(e.value.a)))
    && (e.Some? && e.value.AssignEvent? ==> HasC(c))
    && (e.Some? && !e.value.NewClientEvent? ==> HasQ(c))
    && (e.Some? && e.value.DisconnectEvent? ==> HasC(c) && ReaderOf(c) == Some(e.value.a) && ReaderOf(c').None?)
  }

  // The three commits. Each is the first write of its critical section.

  lemma NewCommits(d: Data, m: string, d': Data, c': Ctl) returns (e: Option<Event>)
    requires Inv(d) && NewStep(d, m, NewIn, d', c')
    ensures e.Some? && R.Enabled(d, e.value) && Commits(d, e, d', c') && Entitled(New(m, NewIn), e, c')
    ensures e.value.NewClientEvent? && d' == Scheduler.NewClient(d, m, e.value.c)
  {
    var k :| k !in d.mxid && d' == Scheduler.NewClient(d, m, k);
    e := Some(R.NewClientEvent(m, k));
  }

  lemma ConnectCommits(d: Data, d': Data, c': Ctl) returns (e: Option<Event>)
    requires Inv(d) && ServeStep(d, ConnIn, d', c')
    ensures e.Some? && R.Enabled(d, e.value) && Commits(d, e, d', c') && Entitled(Serve(ConnIn), e, c')
  {
    var a := c'.sp.a;
    e := Some(R.ConnectEvent(a));
    ConnectKeepsInv(d, a);
    assert d' == Release(d, a).(queue := d.queue + [a]);
    assert Sifted(d', |d.queue|) == Connect(d, a);
  }

  lemma UnmapStands(d: Data, a: int)
    requires Known(d) && a in d.queue
    ensures Fits(Disown(d, a), Leave(a, LeaveEmpty))
    ensures Finish(Disown(d, a), Leave(a, LeaveEmpty)) == Disconnect(d, a)
  {
  }

  lemma DisconnectCommits(d: Data, a: int, d': Data, c': Ctl) returns (e: Option<Event>)
    requires Inv(d) && LeaveStep(d, a, LeaveUnmap, d', c') && a in d.queue
    ensures e.Some? && R.Enabled(d, e.value) && Commits(d, e, d', c') && Entitled(Leave(a, LeaveUnmap), e, c')
  {
    e := Some(R.DisconnectEvent(a));
    UnmapStands(d, a);
    assert After(d, e) == Disconnect(d, a);
  }

  lemma PopStands(d: Data, m: string)
    requires Known(d) && d.queue != [] && m in d.clients && m !in d.owner && m !in d.served[Last(d.queue)]
    ensures Fits(TakeLast(d), Send(m, SendWantA(Last(d.queue))))
    ensures Finish(TakeLast(d), Send(m, SendWantA(Last(d.queue)))) == Assign(d, m).0
    ensures Assign(d, m).0.clients == d.clients
  {
  }

  lemma AssignCommits(d: Data, m: string, d': Data, c': Ctl) returns (e: Option<Event>)
    requires Inv(d) && SendStep(d, m, SendPop, d', c') && d.queue != [] && m in d.clients && m !in d.owner
    ensures e.Some? && R.Enabled(d, e.value) && Commits(d, e, d', c') && Entitled(Send(m, SendPop), e, c')
  {
    e := Some(R.AssignEvent(m));
    ServedAreOwned(d, Last(d.queue), m);
    PopStands(d, m);
    assert After(d, e) == Assign(d, m).0;
  }

  // Every other step leaves the abstract value alone.

  lemma ClimbKeeps(d: Data, j: nat, d': Data, k: nat)
    requires Climbs(d, j, d', k) && Known(d)
    ensures Known(d') && k < |d'.queue| && Sifted(d', k) == Sifted(d, j)
  {
  }

  lemma ServeQuiet(d: Data, p: ServePc, d': Data, c': Ctl)
    requires ServeStep(d, p, d', c') && Fits(d, Serve(p)) && !p.ConnIn?
    ensures Fits(d', c') && Finish(d', c') == Finish(d, Serve(p))
    ensures ReaderOf(c') == ReaderOf(Serve(p)) && !c'.Send?
  {
    if p.ConnUp? && c'.Serve? && c'.sp.ConnUp? {
      ClimbKeeps(d, p.j, d', c'.sp.j);
    }
  }

  lemma LeaveQuiet(d: Data, a: int, p: LeavePc, d': Data, c': Ctl)
    requires LeaveStep(d, a, p, d', c') && Fits(d, Leave(a, p)) && !p.LeaveUnmap?
    ensures Fits(d', c') && Finish(d', c') == Finish(d, Leave(a, p))
    ensures (ReaderOf(c') == ReaderOf(Leave(a, p)) || ReaderOf(c').None?) && !c'.Send?
  {
  }

  lemma SendUpQuiet(d: Data, m: string, a: int, j: nat, d': Data, c': Ctl)
    requires SendStep(d, m, SendUp(a, j), d', c') && Known(d)
    ensures Fits(d', c') && Finish(d', c') == Sifted(d, j)
    ensures c'.Send? && c'.m == m
  {
    if c'.dp.SendUp? {
      ClimbKeeps(d, j, d', c'.dp.j);
    }
  }

  lemma SendPushQuiet(d: Data, m: string, a: int, d': Data, c': Ctl)
    requires SendStep(d, m, SendPush(a), d', c') && Known(d) && a in d.served
    ensures Fits(d', c') && Finish(d', c') == Enqueue(d, a)
    ensures c'.Send? && c'.m == m
  {
    assert Sifted(d', |d.queue|) == Enqueue(d, a);
  }

  lemma SendQuiet(d: Data, m: string, p: SendPc, d': Data, c': Ctl)
    requires SendStep(d, m, p, d', c') && Fits(d, Send(m, p)) && (p.SendPop? ==> d.queue == [])
    ensures Fits(d', c') && Finish(d', c') == Finish(d, Send(m, p))
    ensures ReaderOf(c').None? && (c'.Send? ==> c'.m == m)
  {
    if p.SendUp? {
      SendUpQuiet(d, m, p.a, p.j, d', c');
    } else if p.SendPush? {
      SendPushQuiet(d, m, p.a, d', c');
    } else if !p.SendServe? && !p.SendOwn? {
      SendStays(d, m, p, d', c');
    }
  }

  lemma SendStays(d: Data, m: string, p: SendPc, d': Data, c': Ctl)
    requires SendStep(d, m, p, d', c') && Fits(d, Send(m, p)) && (p.SendPop? ==> d.queue == [])
    requires !p.SendUp? && !p.SendPush? && !p.SendServe? && !p.SendOwn?
    ensures d' == d && Fits(d, c') && Finish(d, c') == Finish(d, Send(m, p))
    ensures ReaderOf(c').None? && (c'.Send? ==> c'.m == m)
  {
    if !p.SendWantA? {
      assert !Dirty(c') && !Dirty(Send(m, p));
    }
  }

  /** Looking the mxid up is what makes a thread rely on its being unassigned. */
  lemma SendRelies(d: Data, m: string, p: SendPc, d': Data, c': Ctl, s: Data)
    requires SendStep(d, m, p, d', c') && Relies(s, Send(m, p))
    requires s.owner == d.owner || !HasC(Send(m, p)) || Dirty(Send(m, p))
    requires c'.Send? && SawUnmapped(c'.dp)
    ensures m !in s.owner
  {
  }

  /** Looking the mxid up, and nothing else but the commit, decides which agent is returned. */
  lemma ChosenIsOwner(d: Data, m: string, p: SendPc, d': Data, c': Ctl, s: Data)
    requires SendStep(d, m, p, d', c') && Relies(s, Send(m, p)) && (p.SendPop? ==> d.queue == [])
    requires s.owner == d.owner || !HasC(Send(m, p)) || Dirty(Send(m, p))
    requires c'.Send?
    ensures Owns(s, m, Chosen(c'.dp))
  {
  }

  lemma QuietRelies(d: Data, m: string, p: SendPc, d': Data, c': Ctl, s: Data)
    requires SendStep(d, m, p, d', c') && Relies(s, Send(m, p)) && (p.SendPop? ==> d.queue == [] && s == d)
    requires s.owner == d.owner || !HasC(Send(m, p)) || Dirty(Send(m, p))
    requires ReaderOf(c').None? && (c'.Send? ==> c'.m == m)
    ensures Relies(s, c')
  {
    if c'.Send? {
      ChosenIsOwner(d, m, p, d', c', s);
      if SawUnmapped(c'.dp) {
        SendRelies(d, m, p, d', c', s);
      }
    }
  }

  /** One thread's step, seen from the thread alone. */
  lemma OwnStep(d: Data, c: Ctl, d': Data, c': Ctl, s: Data) returns (e: Option<Event>)
    requires Local(d, c, d', c') && Fits(d, c) && s == Finish(d, c) && Inv(s) && Relies(s, c)
    ensures e.Some? ==> R.Enabled(s, e.value)
    ensures Commits(s, e, d', c') && Entitled(c, e, c')
  {
    match c
    case New(m, p) => e := OwnNew(d, m, p, d', c', s);
    case Serve(p) => e := OwnServe(d, p, d', c', s);
    case Leave(a, p) => e := OwnLeave(d, a, p, d', c', s);
    case Send(m, p) => e := OwnSend(d, m, p, d', c', s);
    case Xmit(_, _) => e := None;
    case Handle(_, _) => e := None;
    case Stop(_) => e := None;
  }

  lemma OwnNew(d: Data, m: string, p: NewPc, d': Data, c': Ctl, s: Data) returns (e: Option<Event>)
    requires NewStep(d, m, p, d', c') && s == d && Inv(s)
    ensures e.Some? ==> R.Enabled(s, e.value)
    ensures Commits(s, e, d', c') && Entitled(New(m, p), e, c')
  {
    e := None;
    if p.NewIn? { e := NewCommits(d, m, d', c'); }
  }

  lemma OwnServe(d: Data, p: ServePc, d': Data, c': Ctl, s: Data) returns (e: Option<Event>)
    requires ServeStep(d, p, d', c') && Fits(d, Serve(p)) && s == Finish(d, Serve(p)) && Inv(s) && Relies(s, Serve(p))
    ensures e.Some? ==> R.Enabled(s, e.value)
    ensures Commits(s, e, d', c') && Entitled(Serve(p), e, c')
  {
    e := None;
    if p.ConnIn? { e := ConnectCommits(d, d', c'); } else { ServeQuiet(d, p, d', c'); }
  }

  lemma OwnLeave(d: Data, a: int, p: LeavePc, d': Data, c': Ctl, s: Data) returns (e: Option<Event>)
    requires LeaveStep(d, a, p, d', c') && Fits(d, Leave(a, p))
    requires s == Finish(d, Leave(a, p)) && Inv(s) && Relies(s, Leave(a, p))
    ensures e.Some? ==> R.Enabled(s, e.value)
    ensures Commits(s, e, d', c') && Entitled(Leave(a, p), e, c')
  {
    e := None;
    if p.LeaveUnmap? { e := DisconnectCommits(d, a, d', c'); } else { LeaveQuiet(d, a, p, d', c'); }
  }

  lemma OwnSend(d: Data, m: string, p: SendPc, d': Data, c': Ctl, s: Data) returns (e: Option<Event>)
    requires SendStep(d, m, p, d', c') && Fits(d, Send(m, p))
    requires s == Finish(d, Send(m, p)) && Inv(s) && Relies(s, Send(m, p))
    ensures e.Some? ==> R.Enabled(s, e.value)
    ensures Commits(s, e, d', c') && Entitled(Send(m, p), e, c')
  {
    if p.SendPop? && d.queue != [] {
      e := AssignCommits(d, m, d', c');
    } else {
      e := None;
      SendQuiet(d, m, p, d', c');
      QuietRelies(d, m, p, d', c', s);
    }
  }

  // ---------- All threads ----------

  /** s is the value the configuration stands for. */
  ghost predicate StandsFor(g: Config, s: Data) {
    && (forall t :: 0 <= t < |g.threads| ==>
          Fits(g.data, g.threads[t]) && (Dirty(g.threads[t]) ==> s == Finish(g.data, g.threads[t])))
    && ((forall t :: 0 <= t < |g.threads| ==> !Dirty(g.threads[t])) ==> s == g.data)
  }

  ghost predicate AllRely(g: Config, s: Data) {
    forall t :: 0 <= t < |g.threads| ==> Relies(s, g.threads[t])
  }

  ghost predicate ReadersDiffer(g: Config) {
    forall t, u :: 0 <= t < |g.threads| && 0 <= u < |g.threads| && t != u && ReaderOf(g.threads[t]).Some? ==>
      ReaderOf(g.threads[t]) != ReaderOf(g.threads[u])
  }

  ghost predicate Faithful(g: Config, s: Data) {
    Exclusive(g) && StandsFor(g, s) && AllRely(g, s) && ReadersDiffer(g)
  }

  /** What other threads rely on survives a commit they are shut out of. */
  lemma OthersRely(s: Data, e: Option<Event>, c: Ctl, c': Ctl, u: Ctl)
    requires Inv(s) && (e.Some? ==> R.Enabled(s, e.value)) && Entitled(c, e, c')
    requires Relies(s, u) && !(HasC(u) && HasC(c)) && !(HasQ(u) && HasQ(c))
    requires ReaderOf(u).Some? ==> ReaderOf(u) != ReaderOf(c)
    ensures Relies(After(s, e), u)
  {
    if e.Some? {
      match e.value
      case NewClientEvent(m, k) =>
      case ConnectEvent(a) => ConnectKeepsInv(s, a);
      case AssignEvent(m) => OthersRelyOnOwner(s, m, u);
      case DisconnectEvent(a) => DisconnectKeepsInv(s, a);
    }
  }

  lemma OthersRelyOnOwner(s: Data, m: string, u: Ctl)
    requires Inv(s) && m in s.clients && Relies(s, u) && !HasC(u)
    ensures Relies(R.Step(s, R.AssignEvent(m)), u)
  {
    AssignKeepsInv(s, m);
    if u.Send? {
      R.ClientsStay(s, R.AssignEvent(m), u.m);
      if Chosen(u.dp).Some? {
        R.StickyStep(s, R.AssignEvent(m), u.m);
      }
    }
  }

  /** No other thread is between its writes: the step's own effect is the whole effect. */
  lemma StepAlone(g: Config, t: nat, g': Config, s: Data) returns (e: Option<Event>)
    requires Inv(s) && Faithful(g, s) && StepBy(g, t, g')
    requires forall u :: 0 <= u < |g.threads| && u != t ==> !Dirty(g.threads[u])
    ensures e.Some? ==> R.Enabled(s, e.value)
    ensures StandsFor(g', After(s, e)) && AllRely(g', After(s, e)) && Entitled(g.threads[t], e, g'.threads[t])
  {
    assert s == Finish(g.data, g.threads[t]);
    e := OwnStep(g.data, g.threads[t], g'.data, g'.threads[t], s);
    forall u | 0 <= u < |g'.threads|
      ensures Relies(After(s, e), g'.threads[u])
    {
      if u != t {
        Apart(g, t, u);
        OthersRely(s, e, g.threads[t], g'.threads[t], g.threads[u]);
      }
    }
    forall u | 0 <= u < |g'.threads|
      ensures Fits(g'.data, g'.threads[u]) && (Dirty(g'.threads[u]) ==> After(s, e) == Finish(g'.data, g'.threads[u]))
    {
    }
    if !Dirty(g'.threads[t]) {
      assert Finish(g'.data, g'.threads[t]) == g'.data;
    }
  }

  lemma DirtyHoldsQueue(c: Ctl)
    requires Dirty(c)
    ensures HasQ(c) && (HasC(c) || (c.Serve? && c.sp.ConnUp?))
  {
  }

  /** Without the queue lock a thread writes nothing, unless it is NewClient's one write. */
  lemma WithoutQueueLock(d: Data, c: Ctl, d': Data, c': Ctl, s: Data)
    requires Local(d, c, d', c') && !HasQ(c) && Relies(s, c) && (HasC(c) ==> s.owner == d.owner)
    ensures d' == d || (c.New? && c.np.NewIn?)
    ensures !Dirty(c') && Relies(s, c') && (ReaderOf(c') == ReaderOf(c) || ReaderOf(c').None?)
  {
  }

  /** NewClient's write passes by a connect that is still sifting: they touch different fields. */
  lemma NewClientBesideConnect(d: Data, m: string, d': Data, c': Ctl, u: Ctl) returns (e: Option<Event>)
    requires u.Serve? && u.sp.ConnUp? && Fits(d, u) && Inv(Finish(d, u)) && NewStep(d, m, NewIn, d', c')
    ensures e.Some? && e.value.NewClientEvent? && R.Enabled(Finish(d, u), e.value)
    ensures Fits(d', u) && Finish(d', u) == After(Finish(d, u), e)
  {
    var k :| k !in d.mxid && d' == Scheduler.NewClient(d, m, k);
    e := Some(R.NewClientEvent(m, k));
    assert d'.queue == d.queue && d'.served == d.served;
  }

  lemma BesideStep(d: Data, c: Ctl, d': Data, c': Ctl, w: Ctl, s: Data) returns (e: Option<Event>)
    requires Local(d, c, d', c') && !HasQ(c) && Relies(s, c)
    requires Dirty(w) && !(HasC(c) && HasC(w)) && Fits(d, w) && s == Finish(d, w) && Inv(s)
    ensures e.Some? ==> e.value.NewClientEvent? && R.Enabled(s, e.value)
    ensures Fits(d', w) && Finish(d', w) == After(s, e)
    ensures !Dirty(c') && Relies(After(s, e), c') && (ReaderOf(c') == ReaderOf(c) || ReaderOf(c').None?)
  {
    DirtyHoldsQueue(w);
    WithoutQueueLock(d, c, d', c', s);
    e := None;
    if c.New? && c.np.NewIn? {
      e := NewClientBesideConnect(d, c.m, d', c', w);
    }
  }

  /** Another thread is between its writes: this step does not disturb them. */
  lemma StepBeside(g: Config, t: nat, g': Config, s: Data, v: nat) returns (e: Option<Event>)
    requires Inv(s) && Faithful(g, s) && StepBy(g, t, g')
    requires v < |g.threads| && v != t && Dirty(g.threads[v])
    ensures e.Some? ==> R.Enabled(s, e.value)
    ensures StandsFor(g', After(s, e)) && AllRely(g', After(s, e)) && Entitled(g.threads[t], e, g'.threads[t])
  {
    var c, c', w := g.threads[t], g'.threads[t], g.threads[v];
    DirtyHoldsQueue(w);
    Apart(g, t, v);
    e := BesideStep(g.data, c, g'.data, c', w, s);
    OnlyOneDirty(g, v);
    OthersStillRely(g, t, s, e, g');
    OneStandsFor(g', v, After(s, e));
  }

  lemma OneStandsFor(g: Config, v: nat, s: Data)
    requires v < |g.threads| && Dirty(g.threads[v]) && Fits(g.data, g.threads[v]) && s == Finish(g.data, g.threads[v])
    requires forall u :: 0 <= u < |g.threads| && u != v ==> !Dirty(g.threads[u])
    ensures StandsFor(g, s)
  {
    forall u | 0 <= u < |g.threads|
      ensures Fits(g.data, g.threads[u])
    {
      if u != v { CleanFits(g.data, g.threads[u]); }
    }
  }

  lemma CleanFits(d: Data, c: Ctl)
    requires !Dirty(c)
    ensures Fits(d, c)
  {
  }

  lemma OthersStillRely(g: Config, t: nat, s: Data, e: Option<Event>, g': Config)
    requires Inv(s) && AllRely(g, s) && StepBy(g, t, g')
    requires e.Some? ==> e.value.NewClientEvent? && R.Enabled(s, e.value)
    requires Relies(After(s, e), g'.threads[t])
    ensures AllRely(g', After(s, e))
  {
    forall u | 0 <= u < |g'.threads|
      ensures Relies(After(s, e), g'.threads[u])
    {
      if u != t { OthersRely(s, e, Done, Done, g.threads[u]); }
    }
  }

  lemma OnlyOneDirty(g: Config, v: nat)
    requires Exclusive(g) && v < |g.threads| && Dirty(g.threads[v])
    ensures forall u :: 0 <= u < |g.threads| && u != v ==> !Dirty(g.threads[u])
  {
    forall u | 0 <= u < |g.threads| && u != v
      ensures !Dirty(g.threads[u])
    {
      Apart(g, v, u);
      DirtyHoldsQueue(g.threads[v]);
      if Dirty(g.threads[u]) { DirtyHoldsQueue(g.threads[u]); }
    }
  }

  lemma ReadersStayDifferent(g: Config, t: nat, g': Config, s: Data, e: Option<Event>)
    requires StepBy(g, t, g') && ReadersDiffer(g) && Entitled(g.threads[t], e, g'.threads[t])
    requires Inv(s) && AllRely(g, s) && (e.Some? ==> R.Enabled(s, e.value))
    ensures ReadersDiffer(g')
  {
    forall u | 0 <= u < |g.threads| && u != t && ReaderOf(g.threads[u]).Some?
      ensures ReaderOf(g.threads[u]) != ReaderOf(g'.threads[t])
    {
      assert Relies(s, g.threads[u]);
    }
  }

  /** Some thread is about to delete the mappings of agent a. */
  ghost predicate Unmapping(g: Config, a: int) {
    exists t: nat :: t < |g.threads| && g.threads[t] == Leave(a, LeaveUnmap)
  }

  lemma OnlyUnmapDisconnects(d: Data, c: Ctl, d': Data, c': Ctl, e: Option<Event>, a: int)
    requires Local(d, c, d', c') && Entitled(c, e, c') && e == Some(R.DisconnectEvent(a))
    ensures c == Leave(a, LeaveUnmap)
  {
  }

  /** Every step of every thread is no step, or one step, of the service's value. */
  lemma StepRefines(g: Config, t: nat, g': Config, s: Data) returns (e: Option<Event>)
    requires Inv(s) && Faithful(g, s) && StepBy(g, t, g')
    ensures e.Some? ==> R.Enabled(s, e.value)
    ensures e.Some? && e.value.DisconnectEvent? ==> Unmapping(g, e.value.a)
    ensures Faithful(g', After(s, e))
  {
    StepKeepsExclusive(g, t, g');
    if v: nat :| v < |g.threads| && v != t && Dirty(g.threads[v]) {
      e := StepBeside(g, t, g', s, v);
    } else {
      e := StepAlone(g, t, g', s);
    }
    ReadersStayDifferent(g, t, g', s, e);
    if e.Some? && e.value.DisconnectEvent? {
      OnlyUnmapDisconnects(g.data, g.threads[t], g'.data, g'.threads[t], e, e.value.a);
    }
  }

  lemma FinishKeepsClients(d: Data, c: Ctl)
    requires Fits(d, c)
    ensures Finish(d, c).clients == d.clients
  {
  }

  lemma StartRefines(g: Config, c: Ctl, g': Config, s: Data)
    requires Faithful(g, s) && StartOf(g, c, g')
    ensures Faithful(g', s)
  {
    StartKeepsExclusive(g, c, g');
    StartStandsFor(g, c, g', s);
    StartRelies(g, c, s);
  }

  lemma StartStandsFor(g: Config, c: Ctl, g': Config, s: Data)
    requires StandsFor(g, s) && StartOf(g, c, g')
    ensures StandsFor(g', s)
  {
    assert !Dirty(c);
    CleanFits(g.data, c);
    forall t | 0 <= t < |g.threads|
      ensures g'.threads[t] == g.threads[t]
    {
    }
  }

  lemma StartRelies(g: Config, c: Ctl, s: Data)
    requires StandsFor(g, s) && MayStart(g, c)
    ensures Relies(s, c) && ReaderOf(c).None?
  {
    if v: nat :| v < |g.threads| && Dirty(g.threads[v]) {
      FinishKeepsClients(g.data, g.threads[v]);
    }
  }

  lemma NextRefines(g: Config, g': Config, s: Data) returns (e: Option<Event>)
    requires Inv(s) && Faithful(g, s) && Next(g, g')
    ensures e.Some? ==> R.Enabled(s, e.value)
    ensures e.Some? && e.value.DisconnectEvent? ==> Unmapping(g, e.value.a)
    ensures Faithful(g', After(s, e))
  {
    if t: nat :| StepBy(g, t, g') {
      e := StepRefines(g, t, g', s);
    } else {
      var c :| StartOf(g, c, g');
      StartRefines(g, c, g', s);
      e := None;
    }
  }

  /** The configuration stands for the end of this run of whole critical sections. */
  ghost predicate Shows(g: Config, es: seq<Event>) {
    R.Legal(Empty(), es) && Faithful(g, R.Run(Empty(), es))
  }

  /** One critical section more, or none. */
  ghost predicate Extends(g: Config, es: seq<Event>, es': seq<Event>) {
    || es' == es
    || exists e :: es' == es + [e] && (e.DisconnectEvent? ==> Unmapping(g, e.a))
  }

  /** P holds of every pair, and Q of every step from one pair to the next. */
  ghost predicate Along<A(!new), B(!new)>(P: (A, B) -> bool, Q: (A, B, B) -> bool, xs: seq<A>, ys: seq<B>) {
    && |xs| == |ys|
    && (forall i {:trigger P(xs[i], ys[i])} :: 0 <= i < |xs| ==> P(xs[i], ys[i]))
    && (forall i {:trigger Q(xs[i], ys[i], ys[i + 1])} :: 0 <= i < |xs| - 1 ==> Q(xs[i], ys[i], ys[i + 1]))
  }

  lemma AlongMore<A(!new), B(!new)>(P: (A, B) -> bool, Q: (A, B, B) -> bool, xs: seq<A>, ys: seq<B>, y: B)
    requires ys != [] && |xs| == |ys| + 1 && Along(P, Q, xs[..|ys|], ys)
    requires P(xs[|ys|], y) && Q(xs[|ys| - 1], ys[|ys| - 1], y)
    ensures Along(P, Q, xs, ys + [y])
  {
    var zs, front := ys + [y], xs[..|ys|];
    forall i | 0 <= i < |xs|
      ensures P(xs[i], zs[i])
    {
      if i < |ys| { assert P(front[i], ys[i]); }
    }
    forall i | 0 <= i < |xs| - 1
      ensures Q(xs[i], zs[i], zs[i + 1])
    {
      if i < |ys| - 1 { assert Q(front[i], ys[i], ys[i + 1]); }
    }
  }

  lemma AlongAt<A(!new), B(!new)>(P: (A, B) -> bool, Q: (A, B, B) -> bool, xs: seq<A>, ys: seq<B>, i: nat)
    requires Along(P, Q, xs, ys) && i < |xs|
    ensures P(xs[i], ys[i])
    ensures i < |xs| - 1 ==> Q(xs[i], ys[i], ys[i + 1])
  {
  }

  /** One run of critical sections that grows with the moments of r: its beginnings are what
      the configurations stand for. */
  ghost predicate Tracks(r: seq<Config>, ess: seq<seq<Event>>) {
    Along(Shows, Extends, r, ess)
  }

  lemma ShowsNext(g: Config, g': Config, es: seq<Event>) returns (es': seq<Event>)
    requires Shows(g, es) && Next(g, g')
    ensures Shows(g', es') && Extends(g, es, es')
  {
    var e := NextRefines(g, g', R.Run(Empty(), es));
    es' := es;
    if e.Some? {
      R.RunOneMore(Empty(), es, e.value);
      es' := es + [e.value];
    }
  }

  /** Whatever the goroutines do, there is one legal run of whole critical sections of which
      the configuration stands for a longer and longer beginning, at every moment. */
  lemma {:induction false} RunRefines(r: seq<Config>) returns (ess: seq<seq<Event>>)
    requires IsRun(r)
    ensures Tracks(r, ess) && ess[0] == []
  {
    if |r| == 1 {
      ess := [[]];
    } else {
      var n := |r| - 1;
      assert Next(r[n - 1], r[n - 1 + 1]);
      RunPrefix(r, n);
      var front := RunRefines(r[..n]);
      var last := ShowsNext(r[n - 1], r[n], front[n - 1]);
      ess := front + [last];
      AlongMore(Shows, Extends, r, front, last);
    }
  }

  lemma RunPrefix(r: seq<Config>, n: nat)
    requires IsRun(r) && 0 < n <= |r|
    ensures IsRun(r[..n])
  {
    forall i | 0 <= i < n - 1
      ensures Next(r[..n][i], r[..n][i + 1])
    {
      assert Next(r[i], r[i + 1]);
    }
  }

  lemma GrowsOnce(r: seq<Config>, ess: seq<seq<Event>>, j: nat)
    requires Tracks(r, ess) && j < |r| - 1
    ensures ess[j] <= ess[j + 1]
  {
    AlongAt(Shows, Extends, r, ess, j);
  }

  lemma {:induction false} RunGrows(r: seq<Config>, ess: seq<seq<Event>>, i: nat, k: nat)
    requires Tracks(r, ess) && i <= k < |r|
    ensures ess[i] <= ess[k]
    decreases k
  {
    if i < k {
      RunGrows(r, ess, i, k - 1);
      GrowsOnce(r, ess, k - 1);
    }
  }

  // ---------- What a reader finds, and what a refused transmit saw ----------

  /** A reader's lookup: the agent serves m exactly if m is mapped to it, and then by the one
      client object of m. */
  ghost predicate Delivers(d: Data, a: int, m: string) {
    && a in d.served
    && (m in d.served[a] <==> m in d.owner && d.owner[m] == a)
    && (m in d.served[a] ==> m in d.clients && d.served[a][m] == d.clients[m])
  }

  lemma WholeDelivers(s: Data, a: int, m: string)
    requires Inv(s) && a in s.queue
    ensures Delivers(s, a, m)
  {
    ServedAreOwned(s, a, m);
  }

  /** A thread between its writes that does not have the agent's lock does not disturb it. */
  lemma HalfDelivers(d: Data, v: Ctl, a: int, m: string)
    requires Dirty(v) && !HasA(v, a) && Fits(d, v) && Delivers(Finish(d, v), a, m)
    ensures Delivers(d, a, m)
  {
    match v
    case Serve(_) =>
    case Leave(_, _) =>
    case Send(_, _) => HalfSendDelivers(d, v.m, v.dp, a, m);
  }

  lemma HalfSendDelivers(d: Data, m': string, p: SendPc, a: int, m: string)
    requires Dirty(Send(m', p)) && !HasA(Send(m', p), a) && Fits(d, Send(m', p))
    requires Delivers(Finish(d, Send(m', p)), a, m)
    ensures Delivers(d, a, m)
  {
  }

  /** In every reachable configuration, also while another thread is in the middle of an assign
      or a disconnect: what a reader finds for a packet's mxid under the agent's lock is the one
      client of that mxid, and it finds it exactly if the mxid is mapped to this agent. */
  lemma ReceiverIsRight(r: seq<Config>, i: nat, t: nat, a: int, m: string)
    requires IsRun(r) && i < |r| && t < |r[i].threads| && r[i].threads[t] == Serve(RecvIn(a, m))
    ensures Delivers(r[i].data, a, m)
  {
    var ess := RunRefines(r);
    AlongAt(Shows, Extends, r, ess, i);
    ShowsRely(r[i], ess[i], t);
    ReaderSees(r[i], t, a, m, R.Run(Empty(), ess[i]));
  }

  lemma ReaderSees(g: Config, t: nat, a: int, m: string, s: Data)
    requires Inv(s) && Faithful(g, s) && t < |g.threads| && g.threads[t] == Serve(RecvIn(a, m))
    ensures Delivers(g.data, a, m)
  {
    assert Relies(s, g.threads[t]) && ReaderOf(g.threads[t]) == Some(a);
    WholeDelivers(s, a, m);
    if v: nat :| v < |g.threads| && Dirty(g.threads[v]) {
      assert Shares(g.threads[t], AgentLock(a));
      assert HasA(g.threads[v], a) == Holds(g.threads[v], AgentLock(a));
      HalfDelivers(g.data, g.threads[v], a, m);
    }
  }

  /** In every reachable configuration a thread whose transmit fails for want of an agent sees
      its mxid unmapped and the queue empty, while it has both locks. */
  lemma RefusalIsRight(r: seq<Config>, i: nat, t: nat, m: string)
    requires IsRun(r) && i < |r| && t < |r[i].threads| && r[i].threads[t] == Send(m, SendOutQ(None))
    ensures m !in r[i].data.owner && r[i].data.queue == []
  {
    var ess := RunRefines(r);
    AlongAt(Shows, Extends, r, ess, i);
    ShowsRely(r[i], ess[i], t);
    RefusalSees(r[i], t, R.Run(Empty(), ess[i]));
  }

  lemma RefusalSees(g: Config, t: nat, s: Data)
    requires Faithful(g, s) && t < |g.threads| && Refuses(g.threads[t])
    ensures g.threads[t].m !in g.data.owner && g.data.queue == []
  {
    assert Relies(s, g.threads[t]);
    forall v | 0 <= v < |g.threads|
      ensures !Dirty(g.threads[v])
    {
      if v != t {
        Apart(g, t, v);
        if Dirty(g.threads[v]) { DirtyHoldsQueue(g.threads[v]); }
      }
    }
  }

  // ---------- Which agent a thread gets ----------

  /** The thread has its agent and is about to call its transmit. */
  predicate Got(c: Ctl, m: string, a: int) {
    c == Send(m, SendOutC(Some(a)))
  }

  lemma FinishKeepsOwner(d: Data, c: Ctl)
    requires Fits(d, c) && !HasC(c)
    ensures Finish(d, c).owner == d.owner
  {
  }

  /** While a thread has clientsLock and is not between its writes, the tables themselves are
      those of the value. */
  lemma OwnerIsReal(g: Config, t: nat, s: Data)
    requires Faithful(g, s) && t < |g.threads| && HasC(g.threads[t]) && !Dirty(g.threads[t])
    ensures s.owner == g.data.owner
  {
    if v: nat :| v < |g.threads| && Dirty(g.threads[v]) {
      Apart(g, t, v);
      FinishKeepsOwner(g.data, g.threads[v]);
    }
  }

  /** In every reachable configuration the agent that a thread is about to transmit through is
      the one its mxid is mapped to. */
  lemma GotIsOwner(r: seq<Config>, i: nat, t: nat, m: string, a: int)
    requires IsRun(r) && i < |r| && t < |r[i].threads| && Got(r[i].threads[t], m, a)
    ensures m in r[i].data.owner && r[i].data.owner[m] == a
  {
    var ess := RunRefines(r);
    AlongAt(Shows, Extends, r, ess, i);
    GotSees(r[i], t, m, a, R.Run(Empty(), ess[i]));
  }

  lemma GotSees(g: Config, t: nat, m: string, a: int, s: Data)
    requires Faithful(g, s) && t < |g.threads| && Got(g.threads[t], m, a)
    ensures m in g.data.owner && g.data.owner[m] == a
  {
    assert Relies(s, g.threads[t]);
    assert Chosen(g.threads[t].dp) == Some(a);
    OwnerIsReal(g, t, s);
  }

  lemma {:induction false} LastEnabled(es: seq<Event>, e: Event)
    requires R.Legal(Empty(), es) && R.Legal(Empty(), es + [e])
    ensures R.Enabled(R.Run(Empty(), es), e)
  {
    EnabledAfter(Empty(), es, e);
  }

  lemma {:induction false} EnabledAfter(s: Data, es: seq<Event>, e: Event)
    requires Inv(s) && R.Legal(s, es) && R.Legal(s, es + [e])
    ensures R.Enabled(R.Run(s, es), e)
    decreases |es|
  {
    if es != [] {
      assert (es + [e])[0] == es[0] && (es + [e])[1..] == es[1..] + [e];
      EnabledAfter(R.Step(s, es[0]), es[1..], e);
    }
  }

  /** The run of critical sections ends with m mapped to a. */
  ghost predicate Maps(es: seq<Event>, m: string, a: int) {
    R.Legal(Empty(), es) && Owns(R.Run(Empty(), es), m, Some(a))
  }

  lemma {:induction false} ShowsRely(g: Config, es: seq<Event>, t: nat)
    requires Shows(g, es) && t < |g.threads|
    ensures Relies(R.Run(Empty(), es), g.threads[t])
  {
  }

  lemma GotMaps(g: Config, es: seq<Event>, t: nat, m: string, a: int)
    requires Shows(g, es) && t < |g.threads| && Got(g.threads[t], m, a)
    ensures Maps(es, m, a)
  {
    ShowsRely(g, es, t);
    assert g.threads[t] == Send(m, SendOutC(Some(a)));
    assert Chosen(SendOutC(Some(a))) == Some(a);
  }

  lemma {:induction false} MapsStays(es: seq<Event>, e: Event, m: string, a: int)
    requires Maps(es, m, a) && R.Legal(Empty(), es + [e]) && e != R.DisconnectEvent(a)
    ensures Maps(es + [e], m, a)
  {
    LastEnabled(es, e);
    R.RunOneMore(Empty(), es, e);
    R.StickyStep(R.Run(Empty(), es), e, m);
  }

  lemma MapsNext(g: Config, es: seq<Event>, g': Config, es': seq<Event>, m: string, a: int)
    requires Maps(es, m, a) && Shows(g', es') && Extends(g, es, es') && !Unmapping(g, a)
    ensures Maps(es', m, a)
  {
    if es' != es {
      var e :| es' == es + [e] && (e.DisconnectEvent? ==> Unmapping(g, e.a));
      MapsStays(es, e, m, a);
    }
  }

  lemma MapsStep(r: seq<Config>, ess: seq<seq<Event>>, j: nat, m: string, a: int)
    requires Tracks(r, ess) && j < |r| - 1 && Maps(ess[j], m, a) && !Unmapping(r[j], a)
    ensures Maps(ess[j + 1], m, a)
  {
    AlongAt(Shows, Extends, r, ess, j);
    AlongAt(Shows, Extends, r, ess, j + 1);
    MapsNext(r[j], ess[j], r[j + 1], ess[j + 1], m, a);
  }

  /** What every step keeps, the last one has. */
  lemma {:induction false} Persists<B(!new)>(P: B -> bool, Keeps: (B, B) -> bool, ys: seq<B>, i: nat, k: nat)
    requires i <= k < |ys| && P(ys[i])
    requires forall x, y {:trigger Keeps(x, y)} :: Keeps(x, y) && P(x) ==> P(y)
    requires forall j {:trigger ys[j]} :: i <= j < k ==> Keeps(ys[j], ys[j + 1])
    ensures P(ys[k])
    decreases k
  {
    if i < k {
      Persists(P, Keeps, ys, i, k - 1);
      var x, y := ys[k - 1], ys[k];
      assert Keeps(x, y);
    }
  }

  lemma MapsOn(r: seq<Config>, ess: seq<seq<Event>>, i: nat, k: nat, m: string, a: int)
    requires Tracks(r, ess) && i <= k < |r| && Maps(ess[i], m, a)
    requires forall j :: i <= j < k ==> !Unmapping(r[j], a)
    ensures Maps(ess[k], m, a)
  {
    var P: seq<Event> -> bool := es => Maps(es, m, a);
    var Keeps: (seq<Event>, seq<Event>) -> bool := (es, es') => Maps(es, m, a) ==> Maps(es', m, a);
    forall j | i <= j < k
      ensures Keeps(ess[j], ess[j + 1])
    {
      if Maps(ess[j], m, a) { MapsStep(r, ess, j, m, a); }
    }
    Persists(P, Keeps, ess, i, k);
  }

  lemma MapsOne(es: seq<Event>, m: string, a: int, b: int)
    requires Maps(es, m, a) && Maps(es, m, b)
    ensures a == b
  {
  }

  /** In this step a thread leaves assignAgent: with c' it transmits, or fails. */
  ghost predicate Leaves(r: seq<Config>, i: nat, t: nat, m: string, c': Ctl) {
    && i < |r| - 1 && t < |r[i].threads| && t < |r[i + 1].threads|
    && r[i].threads[t].Send? && r[i].threads[t].m == m
    && r[i + 1].threads[t] == c' && !c'.Send?
  }

  lemma OwnStepOf(g: Config, g': Config, t: nat)
    requires Next(g, g') && t < |g.threads| && t < |g'.threads| && g'.threads[t] != g.threads[t]
    ensures Local(g.data, g.threads[t], g'.data, g'.threads[t])
  {
    if u: nat :| StepBy(g, u, g') {
      assert u == t;
    }
  }

  /** A thread that leaves has its agent or has found none. */
  lemma LeavesFrom(r: seq<Config>, i: nat, t: nat, m: string, c': Ctl)
    requires IsRun(r) && Leaves(r, i, t, m, c')
    ensures c' == Done || c'.Xmit?
    ensures c' == Done ==> r[i].threads[t] == Send(m, SendOutC(None))
    ensures c'.Xmit? ==> Got(r[i].threads[t], m, c'.a) && c'.xp == XmitWantW
  {
    OwnStepOf(r[i], r[i + 1], t);
  }

  /** Over every interleaving: the agent that a thread transmits through is the one its mxid is
      mapped to, in the tables and in the run they stand for, while it still has clientsLock. */
  lemma TransmitsToOwner(r: seq<Config>, i: nat, t: nat, m: string, a: int, p: XmitPc)
    requires IsRun(r) && Leaves(r, i, t, m, Xmit(a, p))
    ensures m in r[i].data.owner && r[i].data.owner[m] == a
    ensures exists es :: Shows(r[i], es) && Maps(es, m, a)
  {
    LeavesFrom(r, i, t, m, Xmit(a, p));
    GotIsOwner(r, i, t, m, a);
    var ess := RunRefines(r);
    AlongAt(Shows, Extends, r, ess, i);
    GotMaps(r[i], ess[i], t, m, a);
  }

  /** Over every interleaving: two transmits of one mxid go to the same agent, unless between
      them a disconnect of the first one's agent deletes its mappings. */
  lemma StickyThreads(
    r: seq<Config>, i: nat, k: nat, t: nat, u: nat, m: string, a: int, p: XmitPc, b: int, q: XmitPc)
    requires IsRun(r) && i <= k && Leaves(r, i, t, m, Xmit(a, p)) && Leaves(r, k, u, m, Xmit(b, q))
    ensures a == b || exists j :: i <= j < k && Unmapping(r[j], a)
  {
    if forall j :: i <= j < k ==> !Unmapping(r[j], a) {
      var ess := RunRefines(r);
      AlongAt(Shows, Extends, r, ess, i);
      AlongAt(Shows, Extends, r, ess, k);
      LeavesFrom(r, i, t, m, Xmit(a, p));
      LeavesFrom(r, k, u, m, Xmit(b, q));
      GotMaps(r[i], ess[i], t, m, a);
      GotMaps(r[k], ess[k], u, m, b);
      MapsOn(r, ess, i, k, m, a);
      MapsOne(ess[k], m, a, b);
    }
  }

  /** A thread that is about to fail saw that there was no agent before it released queueLock. */
  lemma {:induction false} RefusedEarlier(r: seq<Config>, i: nat, t: nat, m: string) returns (j: nat)
    requires IsRun(r) && i < |r| && t < |r[i].threads| && r[i].threads[t] == Send(m, SendOutC(None))
    ensures j < i && t < |r[j].threads| && r[j].threads[t] == Send(m, SendOutQ(None))
    decreases i
  {
    assert i > 0;
    j := i - 1;
    assert Next(r[j], r[j + 1]);
    RefusedBy(r[j], r[i], t, m);
    if r[j].threads[t] == r[i].threads[t] {
      j := RefusedEarlier(r, j, t, m);
    }
  }

  lemma RefusedBy(g: Config, g': Config, t: nat, m: string)
    requires Next(g, g') && t < |g'.threads| && g'.threads[t] == Send(m, SendOutC(None))
    ensures t < |g.threads| && (g.threads[t] == g'.threads[t] || g.threads[t] == Send(m, SendOutQ(None)))
  {
    if u: nat :| StepBy(g, u, g') {
      if u == t { RefusedStep(g.data, g.threads[t], g'.data, m); }
    }
  }

  lemma RefusedStep(d: Data, c: Ctl, d': Data, m: string)
    requires Local(d, c, d', Send(m, SendOutC(None)))
    ensures c == Send(m, SendOutQ(None))
  {
  }

  /** Over every interleaving: a transmit fails for want of an agent only if its mxid is still
      unmapped and there was a moment when no agent was queued either. */
  lemma FailsWithoutAgent(r: seq<Config>, i: nat, t: nat, m: string) returns (j: nat)
    requires IsRun(r) && Leaves(r, i, t, m, Done)
    ensures m !in r[i].data.owner
    ensures j < i && m !in r[j].data.owner && r[j].data.queue == []
  {
    LeavesFrom(r, i, t, m, Done);
    j := RefusedEarlier(r, i, t, m);
    RefusalIsRight(r, j, t, m);
    StillUnmapped(r, i, t, m);
  }

  lemma StillUnmapped(r: seq<Config>, i: nat, t: nat, m: string)
    requires IsRun(r) && i < |r| && t < |r[i].threads| && r[i].threads[t] == Send(m, SendOutC(None))
    ensures m !in r[i].data.owner
  {
    var ess := RunRefines(r);
    AlongAt(Shows, Extends, r, ess, i);
    var s := R.Run(Empty(), ess[i]);
    ShowsRely(r[i], ess[i], t);
    OwnerIsReal(r[i], t, s);
  }

  /** In every reachable configuration where nobody has the queue locked, the data itself is
      what some run of whole critical sections ends in, and satisfies the service's invariant. */
  lemma QuietDataIsAtomic(r: seq<Config>, i: nat) returns (es: seq<Event>)
    requires IsRun(r) && i < |r|
    requires forall t :: 0 <= t < |r[i].threads| ==> !HasQ(r[i].threads[t])
    ensures R.Legal(Empty(), es) && r[i].data == R.Run(Empty(), es)
    ensures Inv(r[i].data)
  {
    var ess := RunRefines(r);
    es := ess[i];
    AlongAt(Shows, Extends, r, ess, i);
    forall t | 0 <= t < |r[i].threads|
      ensures !Dirty(r[i].threads[t])
    {
      if Dirty(r[i].threads[t]) { DirtyHoldsQueue(r[i].threads[t]); }
    }
  }
}
