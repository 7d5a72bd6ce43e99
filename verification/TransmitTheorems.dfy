/** What every run of the transmit protocol guarantees. */
module TransmitTheorems {
  import opened Wrappers
  import opened Transmit

  // ---------- Correlation ----------

  /** Whatever the remote agent sends and however the goroutines interleave, a response that
      transmit returns carries the ID of that very call, and the call had been written. */
  lemma {:induction false} Correlated(ls: seq<Label>, c: nat)
    requires Legal(ls) && c < |Run(ls).calls| && Run(ls).calls[c].Returned? && Run(ls).calls[c].o.Answered?
    ensures Run(ls).calls[c].o.p.id == WireId(Run(ls).calls[c].n)
    ensures Run(ls).calls[c].n in Run(ls).wire
    ensures forall d :: 0 <= d < |Run(ls).calls| && d != c && HasNumber(Run(ls).calls[d]) ==>
                        Run(ls).calls[d].n != Run(ls).calls[c].n
  {
    RunInv(ls);
  }

  /** At most one waiter is registered, and none while nobody holds writeLock or while a call
      on its way out has passed its deferred removal, whatever its outcome is. */
  lemma {:induction false} NoWaiterLeft(ls: seq<Label>)
    requires Legal(ls)
    ensures |Run(ls).requests| <= 1
    ensures Run(ls).holder.None? ==> Run(ls).requests == map[]
    ensures forall c :: 0 <= c < |Run(ls).calls| && (Run(ls).calls[c].Closing? || Run(ls).calls[c].Unlocking?) ==>
                        Run(ls).requests == map[]
  {
    RunInv(ls);
  }

  // ---------- Request IDs on the wire ----------

  /** Two requests have the same int64 ID exactly when a multiple of 2^64 lies between them. */
  lemma SameIdIff(n: nat, m: nat)
    requires n <= m
    ensures WireId(n) == WireId(m) <==> (m - n) % TWO_64 == 0
  {
    var a, b := n + TWO_63, m + TWO_63;
    assert (b - a) % TWO_64 == (b % TWO_64 - a % TWO_64) % TWO_64;
  }

  lemma IdsIncrease(n: nat, m: nat)
    requires n < m < TWO_63
    ensures WireId(n) == n && WireId(m) == m
  {
  }

  /** Requests go out in the order of their numbers; their IDs are strictly increasing as long
      as fewer than 2^63 have been drawn. */
  lemma {:induction false} WireOrder(ls: seq<Label>, i: nat, j: nat)
    requires Legal(ls) && i < j < |Run(ls).wire|
    ensures Run(ls).wire[i] < Run(ls).wire[j]
    ensures Run(ls).issued < TWO_63 ==> WireId(Run(ls).wire[i]) < WireId(Run(ls).wire[j])
  {
    RunInv(ls);
    if Run(ls).issued < TWO_63 {
      IdsIncrease(Run(ls).wire[i], Run(ls).wire[j]);
    }
  }

  /** The one place where an ID is followed by a smaller one. */
  lemma IdDropsIff(n: nat)
    ensures WireId(n + 1) < WireId(n) <==> (n + 1) % TWO_64 == TWO_63
  {
  }

  // ---------- Late responses ----------

  lemma {:induction false} LegalPrefix(ls: seq<Label>, i: nat)
    requires Legal(ls) && i <= |ls|
    ensures Legal(ls[..i])
    decreases |ls|
  {
    if i < |ls| {
      assert ls[..|ls| - 1][..i] == ls[..i];
      LegalPrefix(ls[..|ls| - 1], i);
    } else {
      assert ls[..i] == ls;
    }
  }

  /** The call has removed its waiter. */
  predicate Over(s: State, c: nat, n: nat) {
    && c < |s.calls| && (s.calls[c].Closing? || s.calls[c].Unlocking? || s.calls[c].Returned?)
    && s.calls[c].n == n && n > 0
  }

  predicate HasChan(h: Handler) {
    h.Found? || h.Accepted? || h.Refused?
  }

  lemma OverStays(s: State, l: Label, c: nat, n: nat)
    requires Can(s, l) && Over(s, c, n)
    ensures Over(Do(s, l), c, n)
  {
  }

  /** The waiter a lookup can find belongs to the newest request, which is not over. */
  lemma LookMisses(s: State, c: nat, n: nat, p: Packet)
    requires LockOk(s) && RequestsOk(s) && NumbersOk(s) && Over(s, c, n) && Look(s, p).Found?
    ensures Look(s, p).n > n
  {
    assert HasNumber(s.calls[c]) && HasNumber(s.calls[s.holder.value]);
  }

  lemma NewHandlerMisses(s: State, l: Label, c: nat, n: nat, h: nat)
    requires LockOk(s) && RequestsOk(s) && NumbersOk(s) && Can(s, l) && Over(s, c, n)
    requires h < |Do(s, l).handlers| && HasChan(Do(s, l).handlers[h])
    requires h < |s.handlers| && HasChan(s.handlers[h]) ==> s.handlers[h].n > n
    ensures Do(s, l).handlers[h].n > n
  {
    if (l.Lookup? || l.LookupAndSend?) && Look(s, s.handlers[l.h].p).Found? {
      LookMisses(s, c, n, s.handlers[l.h].p);
    }
  }

  lemma {:induction false} RunCore(ls: seq<Label>)
    requires Legal(ls)
    ensures LockOk(Run(ls)) && RequestsOk(Run(ls)) && NumbersOk(Run(ls)) && ChansOk(Run(ls)) && HandlersOk(Run(ls))
  {
    RunInv(ls);
  }

  lemma {:induction false} LateResponseFindsYounger(ls: seq<Label>, i: nat, c: nat, n: nat, h: nat)
    requires Legal(ls) && i < |ls| && Legal(ls[..i]) && Over(Run(ls[..i]), c, n)
    requires |Run(ls[..i]).handlers| <= h < |Run(ls).handlers|
    ensures HasChan(Run(ls).handlers[h]) ==> Run(ls).handlers[h].n > n
    decreases |ls|
  {
    var front := ls[..|ls| - 1];
    assert front[..i] == ls[..i];
    StillOver(front, i, c, n);
    RunCore(front);
    var s, l := Run(front), ls[|ls| - 1];
    assert i == |front| ==> front == ls[..i];
    if i < |front| && h < |s.handlers| {
      LateResponseFindsYounger(front, i, c, n, h);
    }
    LateStep(s, l, c, n, h);
  }

  lemma LateStep(s: State, l: Label, c: nat, n: nat, h: nat)
    requires LockOk(s) && RequestsOk(s) && NumbersOk(s) && Can(s, l) && Over(s, c, n)
    requires h < |Do(s, l).handlers|
    requires h < |s.handlers| && HasChan(s.handlers[h]) ==> s.handlers[h].n > n
    ensures HasChan(Do(s, l).handlers[h]) ==> Do(s, l).handlers[h].n > n
  {
    if HasChan(Do(s, l).handlers[h]) {
      NewHandlerMisses(s, l, c, n, h);
    }
  }

  /** A response that arrives after its request is over finds no waiter, or the waiter of a
      request at least 2^64 numbers younger. */
  lemma {:induction false} LateResponseMisses(ls: seq<Label>, i: nat, c: nat, n: nat, h: nat)
    requires Legal(ls) && i < |ls| && Legal(ls[..i]) && Over(Run(ls[..i]), c, n)
    requires |Run(ls[..i]).handlers| <= h < |Run(ls).handlers|
    requires HasChan(Run(ls).handlers[h]) && Run(ls).handlers[h].p.id == WireId(n)
    ensures Run(ls).handlers[h].n >= n + TWO_64
  {
    LateResponseFindsYounger(ls, i, c, n, h);
    RunInv(ls);
    SameIdIff(n, Run(ls).handlers[h].n);
  }

  lemma {:induction false} StillOver(ls: seq<Label>, i: nat, c: nat, n: nat)
    requires Legal(ls) && i <= |ls| && Legal(ls[..i]) && Over(Run(ls[..i]), c, n)
    ensures Over(Run(ls), c, n)
    decreases |ls|
  {
    if i == |ls| {
      assert ls[..i] == ls;
    } else {
      var front := ls[..|ls| - 1];
      assert front[..i] == ls[..i];
      StillOver(front, i, c, n);
      OverStays(Run(front), ls[|ls| - 1], c, n);
    }
  }

  /** So with fewer than 2^64 requests a late response is never delivered to any call. */
  lemma {:induction false} LateResponseDropped(ls: seq<Label>, i: nat, c: nat, n: nat, h: nat)
    requires Legal(ls) && i < |ls| && Legal(ls[..i]) && Over(Run(ls[..i]), c, n)
    requires |Run(ls[..i]).handlers| <= h < |Run(ls).handlers| && Run(ls).handlers[h].p.id == WireId(n)
    requires Run(ls).issued < TWO_64
    ensures Run(ls).handlers[h].Arrived? || Run(ls).handlers[h].Unknown?
  {
    RunInv(ls);
    if HasChan(Run(ls).handlers[h]) {
      LateResponseMisses(ls, i, c, n, h);
    }
  }

  // ---------- Sends on a closed channel ----------

  /** Label number j closes the channel of request n. */
  ghost predicate ClosesAt(ls: seq<Label>, j: nat, n: nat)
    requires Legal(ls)
  {
    && j < |ls| && ls[j].Close? && Legal(ls[..j]) && ls[j].c < |Run(ls[..j]).calls|
    && Run(ls[..j]).calls[ls[j].c].Closing? && Run(ls[..j]).calls[ls[j].c].n == n
  }

  /** The waiter of request n is closed after handler h has looked it up. */
  ghost predicate ClosedSinceLookup(ls: seq<Label>, h: nat, n: nat)
    requires Legal(ls)
  {
    exists i, j :: 0 <= i < j < |ls| && ls[i] == Lookup(h) && ClosesAt(ls, j, n)
  }

  lemma {:induction false} ClosesAtPrefix(ls: seq<Label>, j: nat, n: nat)
    requires Legal(ls) && ls != [] && j < |ls| - 1 && Legal(ls[..|ls| - 1])
    ensures ClosesAt(ls, j, n) <==> ClosesAt(ls[..|ls| - 1], j, n)
  {
    assert ls[..|ls| - 1][..j] == ls[..j];
  }

  lemma {:induction false} LookedUpOnce(ls: seq<Label>, i: nat, h: nat)
    requires Legal(ls) && i < |ls| && ls[i] == Lookup(h)
    ensures h < |Run(ls).handlers| && !Run(ls).handlers[h].Arrived?
    decreases |ls|
  {
    var s, l := Run(ls[..|ls| - 1]), ls[|ls| - 1];
    if i < |ls| - 1 {
      LookedUpOnce(ls[..|ls| - 1], i, h);
      NeverArrivesAgain(s, l, h);
    } else {
      LookupLooksUp(s, h);
    }
  }

  lemma LookupLooksUp(s: State, h: nat)
    requires Can(s, Lookup(h))
    ensures h < |Do(s, Lookup(h)).handlers| && !Do(s, Lookup(h)).handlers[h].Arrived?
  {
  }

  lemma NeverArrivesAgain(s: State, l: Label, h: nat)
    requires Can(s, l) && h < |s.handlers| && !s.handlers[h].Arrived?
    ensures h < |Do(s, l).handlers| && !Do(s, l).handlers[h].Arrived?
  {
    if !Handles(l) {
      assert Do(s, l).handlers == s.handlers;
    }
  }

  /** Only its own lookup makes a handler find a channel. */
  lemma FoundBefore(s: State, l: Label, h: nat)
    requires Can(s, l) && h < |Do(s, l).handlers| && Do(s, l).handlers[h].Found? && l != Lookup(h)
    ensures h < |s.handlers| && s.handlers[h] == Do(s, l).handlers[h]
  {
  }

  lemma LookFindsOpen(s: State, h: nat)
    requires LockOk(s) && RequestsOk(s) && ChansOk(s) && Can(s, Lookup(h)) && Look(s, s.handlers[h].p).Found?
    ensures var n := Look(s, s.handlers[h].p).n; n in s.chans && !s.chans[n].closed
  {
  }

  lemma ClosedStays(s: State, l: Label, n: nat)
    requires ChansOk(s) && Can(s, l) && n in s.chans && !(l.Close? && s.calls[l.c].n == n)
    ensures n in Do(s, l).chans && Do(s, l).chans[n].closed == s.chans[n].closed
  {
    if !l.Number? && !l.Close? {
      ChansStay(s, l);
    }
  }

  /** What one step does to the channel a handler has found. */
  lemma ChanStep(s: State, l: Label, h: nat, n: nat)
    requires LockOk(s) && RequestsOk(s) && ChansOk(s) && HandlersOk(s) && Can(s, l)
    requires h < |Do(s, l).handlers| && Do(s, l).handlers[h].Found? && Do(s, l).handlers[h].n == n
    ensures n in Do(s, l).chans
    ensures l == Lookup(h) ==> !Do(s, l).chans[n].closed
    ensures l != Lookup(h) ==> h < |s.handlers| && s.handlers[h] == Do(s, l).handlers[h] && n in s.chans
    ensures l != Lookup(h) && !(l.Close? && s.calls[l.c].n == n) ==> Do(s, l).chans[n].closed == s.chans[n].closed
    ensures l.Close? && s.calls[l.c].n == n ==> Do(s, l).chans[n].closed
  {
    if l == Lookup(h) {
      LookFindsOpen(s, h);
    } else {
      FoundBefore(s, l, h);
      if !(l.Close? && s.calls[l.c].n == n) {
        ClosedStays(s, l, n);
      }
    }
  }

  /** A handler that has found its channel looked it up; the channel is closed by now exactly
      when removeResponseWaiter closed it after that lookup. */
  lemma {:induction false} ClosedIff(ls: seq<Label>, h: nat)
    requires Legal(ls) && h < |Run(ls).handlers| && Run(ls).handlers[h].Found?
    ensures Lookup(h) in ls
    ensures Run(ls).handlers[h].n in Run(ls).chans
    ensures Run(ls).chans[Run(ls).handlers[h].n].closed <==> ClosedSinceLookup(ls, h, Run(ls).handlers[h].n)
    decreases |ls|
  {
    var front, l, last := ls[..|ls| - 1], ls[|ls| - 1], |ls| - 1;
    var n := Run(ls).handlers[h].n;
    RunInv(front);
    ChanStep(Run(front), l, h, n);
    if l == Lookup(h) {
      FirstLookup(ls, h, n);
    } else {
      ClosedIff(front, h);
      ClosedSinceGrows(ls, h, n);
    }
  }

  lemma {:induction false} FirstLookup(ls: seq<Label>, h: nat, n: nat)
    requires Legal(ls) && ls != [] && ls[|ls| - 1] == Lookup(h)
    ensures !ClosedSinceLookup(ls, h, n)
  {
    var front := ls[..|ls| - 1];
    forall i | 0 <= i < |front| && ls[i] == Lookup(h)
      ensures false
    {
      LookedUpOnce(front, i, h);
    }
  }

  lemma {:induction false} ClosedSinceGrows(ls: seq<Label>, h: nat, n: nat)
    requires Legal(ls) && ls != [] && ls[|ls| - 1] != Lookup(h) && Lookup(h) in ls[..|ls| - 1]
    ensures ClosedSinceLookup(ls, h, n) <==>
            ClosedSinceLookup(ls[..|ls| - 1], h, n) || ClosesAt(ls, |ls| - 1, n)
  {
    if ClosedSinceLookup(ls, h, n) {
      ClosedSinceShrinks(ls, h, n);
    }
    if ClosedSinceLookup(ls[..|ls| - 1], h, n) {
      ClosedSinceStays(ls, h, n);
    }
    if ClosesAt(ls, |ls| - 1, n) {
      var i :| 0 <= i < |ls| - 1 && ls[..|ls| - 1][i] == Lookup(h);
      assert ls[i] == Lookup(h);
    }
  }

  lemma {:induction false} ClosedSinceShrinks(ls: seq<Label>, h: nat, n: nat)
    requires Legal(ls) && ls != [] && ClosedSinceLookup(ls, h, n)
    ensures ClosedSinceLookup(ls[..|ls| - 1], h, n) || ClosesAt(ls, |ls| - 1, n)
  {
    var i: nat, j: nat :| i < j < |ls| && ls[i] == Lookup(h) && ClosesAt(ls, j, n);
    if j < |ls| - 1 {
      ClosedInPrefix(ls, h, n, i, j);
    }
  }

  lemma {:induction false} ClosedInPrefix(ls: seq<Label>, h: nat, n: nat, i: nat, j: nat)
    requires Legal(ls) && i < j < |ls| - 1 && ls[i] == Lookup(h) && ClosesAt(ls, j, n)
    ensures ClosedSinceLookup(ls[..|ls| - 1], h, n)
  {
    LegalPrefix(ls, |ls| - 1);
    ClosesAtPrefix(ls, j, n);
    assert ls[..|ls| - 1][i] == Lookup(h);
  }

  lemma {:induction false} ClosedSinceStays(ls: seq<Label>, h: nat, n: nat)
    requires Legal(ls) && ls != [] && ClosedSinceLookup(ls[..|ls| - 1], h, n)
    ensures ClosedSinceLookup(ls, h, n)
  {
    var front := ls[..|ls| - 1];
    var i: nat, j: nat :| i < j < |front| && front[i] == Lookup(h) && ClosesAt(front, j, n);
    ClosesAtPrefix(ls, j, n);
    assert ls[i] == Lookup(h);
  }

  /** handleResponse panics in its send exactly when the waiter it had looked up was closed
      between its lookup and its send. */
  lemma {:induction false} CrashIff(ls: seq<Label>, h: nat)
    requires Legal(ls) && ls != [] && ls[|ls| - 1] == Send(h)
    ensures Run(ls).crashed <==> ClosedSinceLookup(ls[..|ls| - 1], h, Run(ls[..|ls| - 1]).handlers[h].n)
  {
    ClosedIff(ls[..|ls| - 1], h);
  }

  ghost predicate NoneFound(s: State) {
    !s.crashed && forall h :: 0 <= h < |s.handlers| ==> !s.handlers[h].Found?
  }

  lemma AtomicStep(s: State, l: Label)
    requires RequestsOk(s) && ChansOk(s) && NoneFound(s) && Can(s, l) && !l.Lookup?
    ensures NoneFound(Do(s, l))
  {
  }

  /** If lookup and send were one step no run would ever send on a closed channel. */
  lemma {:induction false} AtomicSendNeverCrashes(ls: seq<Label>)
    requires Legal(ls) && (forall i :: 0 <= i < |ls| ==> !ls[i].Lookup?)
    ensures NoneFound(Run(ls))
    decreases |ls|
  {
    if ls != [] {
      AtomicSendNeverCrashes(ls[..|ls| - 1]);
      RunCore(ls[..|ls| - 1]);
      AtomicStep(Run(ls[..|ls| - 1]), ls[|ls| - 1]);
    }
  }

  lemma Extend(ls: seq<Label>, l: Label) returns (r: seq<Label>)
    requires Legal(ls) && Can(Run(ls), l)
    ensures Legal(r) && Run(r) == Do(Run(ls), l) && r == ls + [l]
  {
    r := ls + [l];
    assert r[..|r| - 1] == ls;
  }

  /** A response looked up while its request still waits. */
  lemma LookedUpInTime(p: Packet) returns (ls: seq<Label>)
    requires p.id == 1
    ensures Legal(ls) && !Run(ls).crashed
    ensures Run(ls).calls == [Sent(1)] && Run(ls).handlers == [Found(p, 1)]
    ensures 1 in Run(ls).chans && Run(ls).chans[1] == Chan(None, false, false)
  {
    ls := [];
    ls := Extend(ls, Begin);
    ls := Extend(ls, Acquire(0));
    ls := Extend(ls, Number(0));
    ls := Extend(ls, Register(0));
    ls := Extend(ls, Write(0));
    ls := Extend(ls, Arrive(p));
    ls := Extend(ls, Lookup(0));
  }

  /** As written a run does: the response is looked up, the request times out, and its channel
      is closed before the response is sent. */
  lemma CrashIsReachable() returns (ls: seq<Label>)
    ensures Legal(ls) && Run(ls).crashed
  {
    ls := LookedUpInTime(Packet(1, Data(0)));
    ls := Extend(ls, Timeout(0));
    ls := Extend(ls, Deregister(0));
    ls := Extend(ls, Close(0));
    ls := Extend(ls, Send(0));
  }

  // ---------- How many responses one request accepts ----------

  /** The responses handlers have put into the channel of request n. */
  function AcceptedFor(hs: seq<Handler>, n: nat): nat {
    if hs == [] then 0
    else AcceptedFor(hs[..|hs| - 1], n) + if hs[|hs| - 1].Accepted? && hs[|hs| - 1].n == n then 1 else 0
  }

  lemma {:induction false} AcceptedUpdate(hs: seq<Handler>, h: nat, x: Handler, n: nat)
    requires h < |hs| && !hs[h].Accepted?
    ensures AcceptedFor(hs[h := x], n) == AcceptedFor(hs, n) + if x.Accepted? && x.n == n then 1 else 0
    decreases |hs|
  {
    var r := hs[h := x];
    if h == |hs| - 1 {
      assert r[..|r| - 1] == hs[..|hs| - 1];
    } else {
      assert r[..|r| - 1] == hs[..|hs| - 1][h := x];
      AcceptedUpdate(hs[..|hs| - 1], h, x, n);
    }
  }

  predicate AcceptOk(s: State, n: nat) {
    AcceptedFor(s.handlers, n) ==
      if n in s.chans then (if s.chans[n].taken then 1 else 0) + (if s.chans[n].buffer.Some? then 1 else 0) else 0
  }

  /** Only a call that waits takes, and it takes once: then it no longer waits. */
  predicate TakenOk(s: State) {
    s.holder.Some? && s.holder.value < |s.calls| && s.issued in s.chans && s.chans[s.issued].taken ==>
      !s.calls[s.holder.value].Numbered? && !s.calls[s.holder.value].Registered? && !s.calls[s.holder.value].Sent?
  }

  lemma TakenKept(s: State, l: Label)
    requires LockOk(s) && ChansOk(s) && TakenOk(s) && Can(s, l)
    ensures TakenOk(Do(s, l))
  {
  }

  /** A caller's step moves a buffered response to taken, or opens a channel with neither. */
  lemma CallerAccepts(s: State, l: Label, n: nat)
    requires LockOk(s) && ChansOk(s) && HandlersOk(s) && TakenOk(s) && AcceptOk(s, n) && Can(s, l) && !Handles(l)
    ensures AcceptOk(Do(s, l), n)
  {
    if l.Number? {
      NoneAccepted(s.handlers, s.issued + 1);
    } else if !l.Take? && !l.Close? {
      assert Do(s, l).chans == s.chans;
    }
  }

  lemma {:induction false} NoneAccepted(hs: seq<Handler>, n: nat)
    requires forall h :: 0 <= h < |hs| && hs[h].Accepted? ==> hs[h].n != n
    ensures AcceptedFor(hs, n) == 0
  {
    if hs != [] {
      NoneAccepted(hs[..|hs| - 1], n);
    }
  }

  /** A handler's step puts one response into an empty buffer, or none. */
  lemma HandlerAccepts(s: State, l: Label, h: nat, n: nat)
    requires ChansOk(s) && AcceptOk(s, n) && Can(s, l) && (l == Lookup(h) || l == Send(h) || l == LookupAndSend(h))
    ensures AcceptOk(Do(s, l), n)
  {
    AcceptedUpdate(s.handlers, h, Do(s, l).handlers[h], n);
    assert Do(s, l).handlers == s.handlers[h := Do(s, l).handlers[h]];
  }

  lemma ArriveAccepts(s: State, p: Packet, n: nat)
    requires AcceptOk(s, n) && Can(s, Arrive(p))
    ensures AcceptOk(Do(s, Arrive(p)), n)
  {
    assert (s.handlers + [Arrived(p)])[..|s.handlers|] == s.handlers;
  }

  lemma HandlingAccepts(s: State, l: Label, n: nat)
    requires ChansOk(s) && AcceptOk(s, n) && Can(s, l) && Handles(l)
    ensures AcceptOk(Do(s, l), n)
  {
    if l.Arrive? {
      ArriveAccepts(s, l.p, n);
    } else {
      HandlerAccepts(s, l, l.h, n);
    }
  }

  lemma AcceptKept(s: State, l: Label, n: nat)
    requires LockOk(s) && ChansOk(s) && HandlersOk(s) && NumbersOk(s) && TakenOk(s) && AcceptOk(s, n) && Can(s, l)
    ensures AcceptOk(Do(s, l), n)
  {
    if Handles(l) {
      HandlingAccepts(s, l, n);
    } else {
      CallerAccepts(s, l, n);
    }
  }

  /** A request's channel accepts at most one response beyond the one its call consumed. */
  lemma {:induction false} AcceptsOneBeyondTaken(ls: seq<Label>, n: nat)
    requires Legal(ls)
    ensures TakenOk(Run(ls)) && AcceptOk(Run(ls), n)
    ensures n in Run(ls).chans ==> AcceptedFor(Run(ls).handlers, n) <= 1 + if Run(ls).chans[n].taken then 1 else 0
    decreases |ls|
  {
    if ls != [] {
      var front := ls[..|ls| - 1];
      AcceptsOneBeyondTaken(front, n);
      RunCore(front);
      TakenKept(Run(front), ls[|ls| - 1]);
      AcceptKept(Run(front), ls[|ls| - 1], n);
    }
  }
}
