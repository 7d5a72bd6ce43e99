/** Timed runs of one client's resync loop: enqueueing and other refreshes of a ghost or portal
    may come between any two steps of the loop. */
module ResyncRuns {
  import opened Resync

  // ---------- The state ----------

  /** Every accepted enqueue has a number of its own. */
  datatype Entry = Entry(item: Item, ticket: nat)

  datatype Phase =
    | Waiting                      // for the timer
    | Rotated                      // has a batch
    | Sorting(todo: set<string>)   // the first loop of doGhostResync
    | Fetching(next: nat)          // the last loop, before its ghost number `next`
    | Crashed                      // a GetUserInfo was fatal

  /** What became of a batch. */
  datatype Report = Report(dropped: bool, ghosts: seq<string>, portals: seq<string>, recent: set<Item>)

  datatype Refresh = Refresh(id: string, at: int)

  datatype Place = InPending | InBatch(b: nat)

  datatype State = State(
    now: int,
    nextResync: int,
    lastSync: map<Item, int>,
    pending: map<string, Entry>,
    batches: seq<map<string, Entry>>,
    reports: seq<Report>,
    phase: Phase,
    refreshes: seq<Refresh>,       // the successful background refreshes of ghosts
    rotations: seq<int>,           // when the queue was rotated
    keys: seq<string>,             // the key of each ticket
    places: seq<Place>)            // where each ticket is

  datatype Label =
    | Tick(d: nat)
    | Enqueue(item: Item, isGroup: bool)
    | Sync(item: Item)             // any other refresh: the metadata's LastSync becomes now
    | Rotate
    | Begin(loggedIn: bool)
    | Check(key: string)
    | Queue                        // the portal events, after the first loop
    | Fetch(result: Contact)

  function Start(now: int, first: int, lastSync: map<Item, int>): State {
    State(now, first, lastSync, map[], [], [], Waiting, [], [], [], [])
  }

  predicate Can(s: State, l: Label) {
    !s.phase.Crashed? &&
    match l
    case Tick(_) => true
    case Enqueue(_, _) => true
    case Sync(_) => true
    case Rotate => s.phase.Waiting? && s.now >= s.nextResync
    case Begin(_) => s.phase.Rotated? && s.batches != [] && s.reports != []
    case Check(key) =>
      s.phase.Sorting? && key in s.phase.todo && s.batches != [] && s.reports != [] && key in Last(s.batches)
    case Queue => s.phase.Sorting? && s.phase.todo == {}
    case Fetch(_) => s.phase.Fetching? && s.reports != [] && s.phase.next <= |Last(s.reports).ghosts|
  }

  function Last<T>(ts: seq<T>): T
    requires ts != []
  {
    ts[|ts| - 1]
  }

  predicate Accepted(s: State, item: Item, isGroup: bool) {
    (item.Ghost? || isGroup) && !Recent(s.lastSync, item, s.now) && Key(item) !in s.pending
  }

  function DoEnqueue(s: State, item: Item, isGroup: bool): State {
    if !Accepted(s, item, isGroup) then s
    else s.(pending := s.pending[Key(item) := Entry(item, |s.keys|)],
            keys := s.keys + [Key(item)], places := s.places + [InPending])
  }

  function DoRotate(s: State): State {
    var t := s.(nextResync := s.now + LOOP_INTERVAL, rotations := s.rotations + [s.now]);
    if s.pending == map[] then t
    else t.(pending := map[], batches := s.batches + [s.pending], reports := s.reports + [Report(false, [], [], {})],
            phase := Rotated,
            places := seq(|s.places|, i requires 0 <= i < |s.places| =>
                        if s.places[i].InPending? then InBatch(|s.batches|) else s.places[i]))
  }

  function SetReport(s: State, r: Report): State
    requires s.reports != []
  {
    s.(reports := s.reports[|s.reports| - 1 := r])
  }

  function Sort(r: Report, item: Item, recent: bool): Report {
    if recent then r.(recent := r.recent + {item})
    else if item.Ghost? then r.(ghosts := r.ghosts + [item.id])
    else r.(portals := r.portals + [item.id])
  }

  function DoCheck(s: State, key: string): State
    requires Can(s, Check(key))
  {
    var item := Last(s.batches)[key].item;
    SetReport(s, Sort(Last(s.reports), item, Recent(s.lastSync, item, s.now))).(phase := Sorting(s.phase.todo - {key}))
  }

  function DoFetch(s: State, result: Contact): State
    requires Can(s, Fetch(result))
  {
    var ghosts, n := Last(s.reports).ghosts, s.phase.next;
    if n == |ghosts| then s.(phase := Waiting)
    else if result.Fatal? then s.(phase := Crashed)
    else if !result.Fetched? then s.(phase := Fetching(n + 1))
    else s.(phase := Fetching(n + 1), lastSync := s.lastSync[Ghost(ghosts[n]) := s.now],
            refreshes := s.refreshes + [Refresh(ghosts[n], s.now)])
  }

  function Do(s: State, l: Label): State
    requires Can(s, l)
  {
    match l
    case Tick(d) => s.(now := s.now + d)
    case Enqueue(item, isGroup) => DoEnqueue(s, item, isGroup)
    case Sync(item) => s.(lastSync := s.lastSync[item := s.now])
    case Rotate => DoRotate(s)
    case Begin(loggedIn) =>
      if loggedIn then s.(phase := Sorting(Last(s.batches).Keys))
      else SetReport(s, Report(true, [], [], {})).(phase := Waiting)
    case Check(key) => DoCheck(s, key)
    case Queue => s.(phase := Fetching(0))
    case Fetch(result) => DoFetch(s, result)
  }

  /** A run; what cannot happen leaves the state as it is. */
  function Run(s: State, ls: seq<Label>): State {
    if ls == [] then s
    else
      var t := Run(s, ls[..|ls| - 1]);
      if Can(t, Last(ls)) then Do(t, Last(ls)) else t
  }

  // ---------- Tickets ----------

  predicate EntryOk(s: State, k: string, e: Entry, p: Place) {
    && k == Key(e.item) && e.ticket < |s.keys| == |s.places|
    && s.keys[e.ticket] == k && s.places[e.ticket] == p
  }

  predicate Holds(m: map<string, Entry>, k: string, t: nat) {
    k in m && m[k].ticket == t
  }

  predicate TicketAt(s: State, t: nat)
    requires t < |s.keys| && t < |s.places|
  {
    match s.places[t]
    case InPending => Holds(s.pending, s.keys[t], t)
    case InBatch(b) => b < |s.batches| && Holds(s.batches[b], s.keys[t], t)
  }

  ghost predicate Tickets(s: State) {
    && |s.keys| == |s.places|
    && (forall k :: k in s.pending ==> EntryOk(s, k, s.pending[k], InPending))
    && (forall b, k :: 0 <= b < |s.batches| && k in s.batches[b] ==> EntryOk(s, k, s.batches[b][k], InBatch(b)))
    && (forall t :: 0 <= t < |s.keys| ==> TicketAt(s, t))
  }

  lemma EnqueueTickets(s: State, item: Item, isGroup: bool)
    requires Tickets(s)
    ensures Tickets(DoEnqueue(s, item, isGroup))
  {
    var u := DoEnqueue(s, item, isGroup);
    if Accepted(s, item, isGroup) {
      forall t | 0 <= t < |u.keys|
        ensures TicketAt(u, t)
      {
        if t < |s.keys| { assert TicketAt(s, t); }
      }
    }
  }

  lemma RotateTickets(s: State)
    requires Tickets(s)
    ensures Tickets(DoRotate(s))
  {
    var u := DoRotate(s);
    forall t | 0 <= t < |u.keys|
      ensures TicketAt(u, t)
    {
      assert TicketAt(s, t);
    }
  }

  lemma SameTickets(s: State, u: State)
    requires Tickets(s) && u.keys == s.keys && u.places == s.places && u.pending == s.pending && u.batches == s.batches
    ensures Tickets(u)
  {
    forall t | 0 <= t < |u.keys|
      ensures TicketAt(u, t)
    {
      assert TicketAt(s, t);
    }
  }

  lemma StepTickets(s: State, l: Label)
    requires Tickets(s) && Can(s, l)
    ensures Tickets(Do(s, l))
  {
    match l
    case Enqueue(item, isGroup) => EnqueueTickets(s, item, isGroup);
    case Rotate => RotateTickets(s);
    case _ => SameTickets(s, Do(s, l));
  }

  // ---------- Reports ----------

  predicate Sorted(r: Report, item: Item) {
    match item
    case Ghost(id) => id in r.ghosts
    case Portal(id) => id in r.portals
  }

  /** Every item of the batch that is not still to do is exactly one of ghost, portal and
      recent, nothing else is, and none is twice. */
  ghost predicate Partition(m: map<string, Entry>, todo: set<string>, r: Report) {
    && todo <= m.Keys && NoDuplicates(r.ghosts) && NoDuplicates(r.portals)
    && (forall item :: Sorted(r, item) || item in r.recent <==> Key(item) in m.Keys - todo && m[Key(item)].item == item)
    && (forall item :: !(Sorted(r, item) && item in r.recent))
  }

  ghost predicate ReportOk(m: map<string, Entry>, todo: set<string>, r: Report) {
    if r.dropped then r == Report(true, [], [], {}) else Partition(m, todo, r)
  }

  /** What the loop has still to look at. */
  function Todo(s: State): set<string>
    requires s.batches != []
  {
    match s.phase
    case Rotated => Last(s.batches).Keys
    case Sorting(todo) => todo
    case _ => {}
  }

  predicate InHand(s: State) {
    !s.phase.Waiting?
  }

  ghost predicate Reports(s: State) {
    && |s.reports| == |s.batches|
    && (InHand(s) ==> s.batches != [] && !Last(s.reports).dropped)
    && (forall b :: 0 <= b < |s.batches| ==>
          ReportOk(s.batches[b], if b == |s.batches| - 1 then Todo(s) else {}, s.reports[b]))
    && (s.phase.Rotated? ==> Last(s.reports) == Report(false, [], [], {}))
    && (s.phase.Fetching? ==> s.phase.next <= |Last(s.reports).ghosts|)
  }

  lemma SortPartition(m: map<string, Entry>, todo: set<string>, r: Report, key: string, recent: bool)
    requires Partition(m, todo, r) && key in todo && forall k :: k in m ==> k == Key(m[k].item)
    ensures Partition(m, todo - {key}, Sort(r, m[key].item, recent))
  {
    var item, u := m[key].item, Sort(r, m[key].item, recent);
    OtherKeys(item);
    assert !Sorted(r, item) && item !in r.recent;
    forall other
      ensures Sorted(u, other) || other in u.recent <==> other == item || Sorted(r, other) || other in r.recent
    {
    }
  }

  lemma RotateReports(s: State)
    requires Reports(s) && Can(s, Rotate)
    ensures Reports(DoRotate(s))
  {
    var u := DoRotate(s);
    if s.pending != map[] {
      assert Partition(s.pending, s.pending.Keys, Report(false, [], [], {}));
      forall b | 0 <= b < |u.batches|
        ensures ReportOk(u.batches[b], if b == |u.batches| - 1 then Todo(u) else {}, u.reports[b])
      {
        if b < |s.batches| {
          assert ReportOk(s.batches[b], if b == |s.batches| - 1 then Todo(s) else {}, s.reports[b]);
        }
      }
    } else {
      SameReports(s, u);
    }
  }

  lemma SameReports(s: State, u: State)
    requires Reports(s) && u.batches == s.batches && u.reports == s.reports && (InHand(u) ==> InHand(s))
    requires s.batches != [] ==> Todo(u) == Todo(s)
    requires (u.phase.Rotated? ==> s.phase.Rotated?) && (u.phase.Fetching? ==> u.phase.next <= |Last(u.reports).ghosts|)
    ensures Reports(u)
  {
    forall b | 0 <= b < |u.batches|
      ensures ReportOk(u.batches[b], if b == |u.batches| - 1 then Todo(u) else {}, u.reports[b])
    {
      assert ReportOk(s.batches[b], if b == |s.batches| - 1 then Todo(s) else {}, s.reports[b]);
    }
  }

  /** Only the report of the batch in hand changes. */
  lemma LastReport(s: State, u: State, r: Report)
    requires Reports(s) && s.batches != [] && u.batches == s.batches && u.reports == s.reports[|s.reports| - 1 := r]
    requires ReportOk(Last(s.batches), Todo(u), r) && (InHand(u) ==> !r.dropped)
    requires !u.phase.Rotated? && !u.phase.Fetching?
    ensures Reports(u)
  {
    forall b | 0 <= b < |u.batches|
      ensures ReportOk(u.batches[b], if b == |u.batches| - 1 then Todo(u) else {}, u.reports[b])
    {
      assert ReportOk(s.batches[b], if b == |s.batches| - 1 then Todo(s) else {}, s.reports[b]);
    }
  }

  lemma BatchKeyed(s: State, b: nat)
    requires Tickets(s) && b < |s.batches|
    ensures forall k :: k in s.batches[b] ==> k == Key(s.batches[b][k].item)
  {
    forall k | k in s.batches[b]
      ensures k == Key(s.batches[b][k].item)
    {
      assert EntryOk(s, k, s.batches[b][k], InBatch(b));
    }
  }

  lemma CheckPartition(s: State, key: string)
    requires Tickets(s) && Reports(s) && Can(s, Check(key))
    ensures Partition(Last(s.batches), s.phase.todo - {key}, Last(DoCheck(s, key).reports))
  {
    var b := |s.batches| - 1;
    assert ReportOk(s.batches[b], Todo(s), s.reports[b]);
    BatchKeyed(s, b);
    var item := s.batches[b][key].item;
    SortPartition(s.batches[b], s.phase.todo, s.reports[b], key, Recent(s.lastSync, item, s.now));
  }

  lemma CheckReports(s: State, key: string)
    requires Tickets(s) && Reports(s) && Can(s, Check(key))
    ensures Reports(DoCheck(s, key))
  {
    CheckPartition(s, key);
    LastReport(s, DoCheck(s, key), Last(DoCheck(s, key).reports));
  }

  lemma BeginReports(s: State, loggedIn: bool)
    requires Reports(s) && Can(s, Begin(loggedIn))
    ensures Reports(Do(s, Begin(loggedIn)))
  {
    var u := Do(s, Begin(loggedIn));
    if loggedIn { SameReports(s, u); } else { LastReport(s, u, Report(true, [], [], {})); }
  }

  lemma FetchReports(s: State, result: Contact)
    requires Reports(s) && Can(s, Fetch(result))
    ensures Reports(DoFetch(s, result))
  {
    SameReports(s, DoFetch(s, result));
  }

  lemma StepReports(s: State, l: Label)
    requires Tickets(s) && Reports(s) && Can(s, l)
    ensures Reports(Do(s, l))
  {
    match l
    case Rotate => RotateReports(s);
    case Check(key) => CheckReports(s, key);
    case Begin(loggedIn) => BeginReports(s, loggedIn);
    case Fetch(result) => FetchReports(s, result);
    case _ =>
      var u := Do(s, l);
      assert u.batches == s.batches && u.reports == s.reports;
      SameReports(s, u);
  }

  // ---------- Times ----------

  /** The last known sync of a refreshed ghost is not before its refresh. */
  predicate Logged(s: State, f: Refresh) {
    f.at <= s.now && Ghost(f.id) in s.lastSync && s.lastSync[Ghost(f.id)] >= f.at
  }

  /** The ghosts still to be fetched. */
  function Ahead(s: State): seq<string> {
    if s.reports == [] then []
    else if s.phase.Sorting? then Last(s.reports).ghosts
    else if s.phase.Fetching? && s.phase.next <= |Last(s.reports).ghosts| then Last(s.reports).ghosts[s.phase.next..]
    else []
  }

  predicate Apart(f: Refresh, g: Refresh) {
    f.id == g.id ==> g.at - f.at >= MIN_INTERVAL
  }

  ghost predicate Times(s: State) {
    && (forall i :: 0 <= i < |s.refreshes| ==> Logged(s, s.refreshes[i]))
    && (forall i, k :: 0 <= i < |s.refreshes| && 0 <= k < |Ahead(s)| ==>
          Apart(s.refreshes[i], Refresh(Ahead(s)[k], s.now)))
    && (forall i, j :: 0 <= i < j < |s.refreshes| ==> Apart(s.refreshes[i], s.refreshes[j]))
  }

  lemma CheckTimes(s: State, key: string)
    requires Times(s) && Can(s, Check(key))
    ensures Times(DoCheck(s, key))
  {
    var u, item := DoCheck(s, key), Last(s.batches)[key].item;
    assert Ahead(u) == if item.Ghost? && !Recent(s.lastSync, item, s.now) then Ahead(s) + [item.id] else Ahead(s);
    forall i | 0 <= i < |u.refreshes|
      ensures Logged(u, u.refreshes[i])
      ensures forall k :: 0 <= k < |Ahead(u)| ==> Apart(u.refreshes[i], Refresh(Ahead(u)[k], u.now))
    {
      assert Logged(s, s.refreshes[i]);
      forall k | 0 <= k < |Ahead(u)|
        ensures Apart(u.refreshes[i], Refresh(Ahead(u)[k], u.now))
      {
        if k < |Ahead(s)| { assert Apart(s.refreshes[i], Refresh(Ahead(s)[k], s.now)); }
      }
    }
  }

  /** Steps that fetch and sort nothing. */
  lemma QuietTimes(s: State, u: State)
    requires Times(s) && u.refreshes == s.refreshes && u.now >= s.now
    requires forall k :: 0 <= k < |Ahead(u)| ==> Ahead(u)[k] in Ahead(s)
    requires forall item :: item in s.lastSync ==> item in u.lastSync && u.lastSync[item] in {s.lastSync[item], s.now}
    ensures Times(u)
  {
    forall i | 0 <= i < |u.refreshes|
      ensures Logged(u, u.refreshes[i])
    {
      assert Logged(s, s.refreshes[i]);
    }
    forall i, k | 0 <= i < |u.refreshes| && 0 <= k < |Ahead(u)|
      ensures Apart(u.refreshes[i], Refresh(Ahead(u)[k], u.now))
    {
      var j :| 0 <= j < |Ahead(s)| && Ahead(s)[j] == Ahead(u)[k];
      assert Apart(s.refreshes[i], Refresh(Ahead(s)[j], s.now));
    }
  }

  lemma FetchTimes(s: State, result: Contact)
    requires Reports(s) && Times(s) && Can(s, Fetch(result))
    requires s.phase.next < |Last(s.reports).ghosts| && result.Fetched?
    ensures Times(DoFetch(s, result))
  {
    var u := DoFetch(s, result);
    var g, n := Last(s.reports).ghosts, s.phase.next;
    assert ReportOk(Last(s.batches), {}, s.reports[|s.batches| - 1]);
    assert NoDuplicates(g);
    assert Ahead(s) == [g[n]] + Ahead(u);
    forall i | 0 <= i < |u.refreshes|
      ensures Logged(u, u.refreshes[i])
    {
      if i < |s.refreshes| { assert Logged(s, s.refreshes[i]); }
    }
    forall i, k | 0 <= i < |u.refreshes| && 0 <= k < |Ahead(u)|
      ensures Apart(u.refreshes[i], Refresh(Ahead(u)[k], u.now))
    {
      if i < |s.refreshes| {
        assert Apart(s.refreshes[i], Refresh(Ahead(s)[k + 1], s.now));
      } else {
        assert g[n] != g[n + 1 + k];
      }
    }
    forall i, j | 0 <= i < j < |u.refreshes|
      ensures Apart(u.refreshes[i], u.refreshes[j])
    {
      if j < |s.refreshes| {
        assert Apart(s.refreshes[i], s.refreshes[j]);
      } else {
        assert Apart(s.refreshes[i], Refresh(Ahead(s)[0], s.now));
      }
    }
  }

  lemma StepTimes(s: State, l: Label)
    requires Reports(s) && Times(s) && Can(s, l)
    ensures Times(Do(s, l))
  {
    match l
    case Check(key) => CheckTimes(s, key);
    case Fetch(result) =>
      if result.Fetched? && s.phase.next < |Last(s.reports).ghosts| {
        FetchTimes(s, result);
      } else {
        QuietTimes(s, Do(s, l));
      }
    case Begin(loggedIn) =>
      assert Ahead(Do(s, l)) == [];
      QuietTimes(s, Do(s, l));
    case _ => QuietTimes(s, Do(s, l));
  }

  // ---------- Rotations ----------

  ghost predicate Rotations(s: State) {
    && (forall i :: 0 <= i < |s.rotations| ==> s.rotations[i] + LOOP_INTERVAL <= s.nextResync)
    && (forall i, j :: 0 <= i < j < |s.rotations| ==> s.rotations[j] - s.rotations[i] >= LOOP_INTERVAL)
  }

  lemma StepRotations(s: State, l: Label)
    requires Rotations(s) && Can(s, l)
    ensures Rotations(Do(s, l))
  {
    var u := Do(s, l);
    if l.Rotate? {
      assert forall i :: 0 <= i < |s.rotations| ==> u.rotations[i] == s.rotations[i];
    } else {
      assert u.rotations == s.rotations && u.nextResync == s.nextResync;
    }
  }

  // ---------- The steps are those of the code ----------

  function Items(m: map<string, Entry>): map<string, Item> {
    map k | k in m :: m[k].item
  }

  /** Up to ticket numbers, an enqueue does what EnqueueGhost and EnqueuePortal do to the queue. */
  lemma EnqueueIsCode(s: State, item: Item, isGroup: bool)
    requires Tickets(s)
    ensures WellKeyed(Items(s.pending))
    ensures Items(DoEnqueue(s, item, isGroup).pending) ==
            if (item.Portal? && !isGroup)
               || (item in s.lastSync && s.now < s.lastSync[item] + 604_800_000_000_000) then Items(s.pending)
            else Items(s.pending)[Key(item) := item]
  {
    PendingKeyed(s);
    if Accepted(s, item, isGroup) {
      ItemsMore(s.pending, Key(item), Entry(item, |s.keys|));
    } else if Key(item) in s.pending {
      KeyInjective(s.pending[Key(item)].item, item);
      assert Items(s.pending)[Key(item) := item] == Items(s.pending);
    }
  }

  lemma ItemsMore(m: map<string, Entry>, k: string, e: Entry)
    ensures Items(m[k := e]) == Items(m)[k := e.item]
  {
  }

  lemma PendingKeyed(s: State)
    requires Tickets(s)
    ensures forall k :: k in s.pending ==> k == Key(s.pending[k].item)
  {
    forall k | k in s.pending
      ensures k == Key(s.pending[k].item)
    {
      assert EntryOk(s, k, s.pending[k], InPending);
    }
  }

  // ---------- Over every run ----------

  lemma {:induction false} RunInv(now: int, first: int, lastSync: map<Item, int>, ls: seq<Label>)
    ensures var s := Run(Start(now, first, lastSync), ls); Tickets(s) && Reports(s) && Times(s) && Rotations(s)
  {
    if ls != [] {
      RunInv(now, first, lastSync, ls[..|ls| - 1]);
      var t := Run(Start(now, first, lastSync), ls[..|ls| - 1]);
      if Can(t, Last(ls)) {
        StepTickets(t, Last(ls));
        StepReports(t, Last(ls));
        StepTimes(t, Last(ls));
        StepRotations(t, Last(ls));
      }
    }
  }

  /** Two successful background refreshes of one ghost are at least seven days apart, whatever
      else is synced in between and however the login comes and goes. */
  lemma {:induction false} RefreshesAreSpaced(now: int, first: int, lastSync: map<Item, int>, ls: seq<Label>,
                                              i: nat, j: nat)
    requires i < j < |Run(Start(now, first, lastSync), ls).refreshes|
    ensures var fs := Run(Start(now, first, lastSync), ls).refreshes;
      fs[i].id == fs[j].id ==> fs[j].at - fs[i].at >= 604_800_000_000_000
  {
    RunInv(now, first, lastSync, ls);
    var s := Run(Start(now, first, lastSync), ls);
    assert Apart(s.refreshes[i], s.refreshes[j]);
  }

  lemma {:induction false} RotationsAreSpaced(now: int, first: int, lastSync: map<Item, int>, ls: seq<Label>,
                                              i: nat, j: nat)
    requires i < j < |Run(Start(now, first, lastSync), ls).rotations|
    ensures var rs := Run(Start(now, first, lastSync), ls).rotations; rs[j] - rs[i] >= 14_400_000_000_000
  {
    RunInv(now, first, lastSync, ls);
  }

  predicate Pending(s: State, t: nat) {
    exists k :: k in s.pending && s.pending[k].ticket == t
  }

  predicate Batched(s: State, b: nat, t: nat) {
    b < |s.batches| && exists k :: k in s.batches[b] && s.batches[b][k].ticket == t
  }

  /** Every accepted enqueue is in exactly one place: the queue or one batch. */
  lemma {:induction false} EnqueuedOnce(now: int, first: int, lastSync: map<Item, int>, ls: seq<Label>, t: nat)
    ensures var s := Run(Start(now, first, lastSync), ls);
      && (t < |s.keys| <==> Pending(s, t) || exists b :: Batched(s, b, t))
      && (Pending(s, t) ==> forall b :: !Batched(s, b, t))
      && (forall b, c :: Batched(s, b, t) && Batched(s, c, t) ==> b == c)
  {
    RunInv(now, first, lastSync, ls);
    var s := Run(Start(now, first, lastSync), ls);
    if Pending(s, t) { PendingPlace(s, t); }
    forall b | Batched(s, b, t)
      ensures t < |s.keys| && s.places[t] == InBatch(b)
    {
      BatchedPlace(s, b, t);
    }
    if t < |s.keys| {
      assert TicketAt(s, t);
      if s.places[t].InBatch? { assert Batched(s, s.places[t].b, t); }
    }
  }

  lemma PendingPlace(s: State, t: nat)
    requires Tickets(s) && Pending(s, t)
    ensures t < |s.keys| && s.places[t] == InPending
  {
    var k :| k in s.pending && s.pending[k].ticket == t;
    assert EntryOk(s, k, s.pending[k], InPending);
  }

  lemma BatchedPlace(s: State, b: nat, t: nat)
    requires Tickets(s) && Batched(s, b, t)
    ensures t < |s.keys| && s.places[t] == InBatch(b)
  {
    var k :| k in s.batches[b] && s.batches[b][k].ticket == t;
    assert EntryOk(s, k, s.batches[b][k], InBatch(b));
  }

  /** A batch the loop is done with was dropped whole, or each of its items is exactly one of
      refreshed-or-failed ghost, queued portal and too recent, and nothing else is. */
  lemma {:induction false} BatchesAreSorted(now: int, first: int, lastSync: map<Item, int>, ls: seq<Label>, b: nat)
    requires var s := Run(Start(now, first, lastSync), ls);
      b < |s.batches| && (b < |s.batches| - 1 || s.phase.Waiting? || s.phase.Fetching? || s.phase.Crashed?)
    ensures var s := Run(Start(now, first, lastSync), ls);
      b < |s.reports| && ReportOk(s.batches[b], {}, s.reports[b])
  {
    RunInv(now, first, lastSync, ls);
    var s := Run(Start(now, first, lastSync), ls);
    assert ReportOk(s.batches[b], if b == |s.batches| - 1 then Todo(s) else {}, s.reports[b]);
  }

  // ---------- A ghost is refreshed again ----------

  /** Looking at a ghost of the batch lists it exactly if it was never synced or seven days
      have gone since. */
  lemma CheckIff(s: State, key: string)
    requires Can(s, Check(key)) && Last(s.batches)[key].item.Ghost?
    ensures var item, u := Last(s.batches)[key].item, Do(s, Check(key));
      && (Last(u.reports).ghosts == Last(s.reports).ghosts + [item.id] <==>
            item in s.lastSync ==> s.now - s.lastSync[item] >= 604_800_000_000_000)
      && (Last(u.reports).ghosts == Last(s.reports).ghosts <==>
            item in s.lastSync && s.now - s.lastSync[item] < 604_800_000_000_000)
  {
    assert |Last(s.reports).ghosts + [Last(s.batches)[key].item.id]| == |Last(s.reports).ghosts| + 1;
  }

  lemma More(s: State, ls: seq<Label>, u: State, l: Label) returns (r: seq<Label>)
    requires Run(s, ls) == u && Can(u, l)
    ensures r == ls + [l] && Run(s, r) == Do(u, l)
  {
    r := ls + [l];
    assert r[..|r| - 1] == ls;
  }

  /** From every moment when the loop waits and nothing is queued: a ghost that was never synced,
      or not in the last seven days, can be refreshed at the next rotation. */
  lemma RefreshAgain(s: State, id: string) returns (ls: seq<Label>)
    requires s.phase.Waiting? && s.pending == map[]
    requires Ghost(id) in s.lastSync ==> s.now - s.lastSync[Ghost(id)] >= 604_800_000_000_000
    ensures Run(s, ls).refreshes ==
            s.refreshes + [Refresh(id, if s.now < s.nextResync then s.nextResync else s.now)]
  {
    ls := More(s, [], s, Tick(if s.now < s.nextResync then s.nextResync - s.now else 0));
    var t := Run(s, ls);
    var r := RefreshNow(t, id);
    RunOn(s, ls, r);
    ls := ls + r;
  }

  lemma {:induction false} RunOn(s: State, ls: seq<Label>, more: seq<Label>)
    ensures Run(s, ls + more) == Run(Run(s, ls), more)
    decreases |more|
  {
    if more == [] {
      assert ls + more == ls;
    } else {
      assert (ls + more)[..|ls + more| - 1] == ls + more[..|more| - 1];
      RunOn(s, ls, more[..|more| - 1]);
    }
  }

  lemma RefreshNow(s: State, id: string) returns (ls: seq<Label>)
    requires s.phase.Waiting? && s.pending == map[] && s.now >= s.nextResync
    requires Ghost(id) in s.lastSync ==> s.now - s.lastSync[Ghost(id)] >= 604_800_000_000_000
    ensures Run(s, ls).refreshes == s.refreshes + [Refresh(id, s.now)]
  {
    ls := [];
    ls := More(s, ls, s, Enqueue(Ghost(id), false));
    ls := More(s, ls, Run(s, ls), Rotate);
    ls := More(s, ls, Run(s, ls), Begin(true));
    ls := More(s, ls, Run(s, ls), Check(Key(Ghost(id))));
    ls := More(s, ls, Run(s, ls), Queue);
    ls := More(s, ls, Run(s, ls), Fetch(Fetched));
  }
}
