/** How a call of transmit ends, in terms of what happened: of the steps of the run. */
module TransmitOutcomes {
  import opened Wrappers
  import opened Transmit
  import TransmitTheorems

  // ---------- Which step ended a call ----------

  predicate Ended(s: State, c: nat) {
    c < |s.calls| && HasOutcome(s.calls[c])
  }

  predicate Ends(l: Label, c: nat) {
    l == Take(c) || l == Timeout(c) || l == WriteFail(c) || l == NoConn(c)
  }

  /** The outcome that goes with the step that ends a call. */
  predicate Matches(l: Label, o: Outcome) {
    match o
    case Answered(_) => l.Take?
    case TimedOut => l.Timeout?
    case WriteFailed => l.WriteFail?
    case NoConnection => l.NoConn?
  }

  lemma EndStays(s: State, l: Label, c: nat)
    requires Can(s, l) && Ended(s, c)
    ensures Ended(Do(s, l), c) && !Ends(l, c)
    ensures Do(s, l).calls[c].o == s.calls[c].o && Do(s, l).calls[c].n == s.calls[c].n
  {
  }

  lemma EndMade(s: State, l: Label, c: nat)
    requires Can(s, l) && !Ended(s, c)
    ensures Ended(Do(s, l), c) <==> Ends(l, c)
    ensures Ends(l, c) ==> Matches(l, Do(s, l).calls[c].o)
  {
  }

  /** A call is answered exactly if it took a response, has timed out exactly if its timeout
      fired, and so on; a call that is not on its way out did none of this. */
  lemma {:induction false} OutcomeIff(ls: seq<Label>, c: nat)
    requires Legal(ls)
    ensures var s := Run(ls);
      && (Take(c) in ls <==> Ended(s, c) && s.calls[c].o.Answered?)
      && (Timeout(c) in ls <==> Ended(s, c) && s.calls[c].o.TimedOut?)
      && (WriteFail(c) in ls <==> Ended(s, c) && s.calls[c].o.WriteFailed?)
      && (NoConn(c) in ls <==> Ended(s, c) && s.calls[c].o.NoConnection?)
    decreases |ls|
  {
    if ls != [] {
      var front, l := ls[..|ls| - 1], ls[|ls| - 1];
      OutcomeIff(front, c);
      assert ls == front + [l];
      if Ended(Run(front), c) {
        EndStays(Run(front), l, c);
      } else {
        EndMade(Run(front), l, c);
      }
    }
  }

  /** The connection is there until somebody closes it: only then can a call end without one. */
  lemma {:induction false} ConnectedIff(ls: seq<Label>, c: nat)
    requires Legal(ls)
    ensures Run(ls).connected <==> Hangup !in ls
    ensures NoConn(c) in ls ==> Hangup in ls
    decreases |ls|
  {
    if ls != [] {
      var front, l := ls[..|ls| - 1], ls[|ls| - 1];
      ConnectedIff(front, c);
      assert ls == front + [l];
      ConnectedStep(Run(front), l);
    }
  }

  lemma ConnectedStep(s: State, l: Label)
    requires Can(s, l)
    ensures Do(s, l).connected <==> s.connected && l != Hangup
    ensures l.NoConn? ==> !s.connected
  {
  }

  /** A call's number is on the wire exactly if it was written. */
  lemma {:induction false} WrittenIff(ls: seq<Label>, c: nat)
    requires Legal(ls)
    ensures Write(c) in ls ==> c < |Run(ls).calls| && HasNumber(Run(ls).calls[c])
    ensures c < |Run(ls).calls| && HasNumber(Run(ls).calls[c]) ==>
      (Run(ls).calls[c].n in Run(ls).wire <==> Write(c) in ls)
    decreases |ls|
  {
    if ls != [] {
      var front, l := ls[..|ls| - 1], ls[|ls| - 1];
      WrittenIff(front, c);
      RunInv(front);
      assert ls == front + [l];
      WrittenStep(Run(front), l, c, Write(c) in front);
    }
  }

  lemma WrittenStep(s: State, l: Label, c: nat, written: bool)
    requires LockOk(s) && NumbersOk(s) && WireOk(s) && Can(s, l)
    requires written ==> c < |s.calls| && HasNumber(s.calls[c])
    requires c < |s.calls| && HasNumber(s.calls[c]) ==> (s.calls[c].n in s.wire <==> written)
    ensures written || l == Write(c) ==> c < |Do(s, l).calls| && HasNumber(Do(s, l).calls[c])
    ensures c < |Do(s, l).calls| && HasNumber(Do(s, l).calls[c]) ==>
      (Do(s, l).calls[c].n in Do(s, l).wire <==> written || l == Write(c))
  {
  }

  // ---------- Which response answers it ----------

  /** The response that this step sends into the channel of request n while that is open. */
  function Sends(s: State, l: Label, n: nat): Option<Packet>
    requires Can(s, l)
  {
    match l
    case Send(h) => if s.handlers[h].n == n && !s.chans[n].closed then Some(s.handlers[h].p) else None
    case LookupAndSend(h) =>
      var p := s.handlers[h].p;
      if p.id in s.requests && s.requests[p.id] == n && !s.chans[n].closed then Some(p) else None
    case _ => None
  }

  /** The first response of the run that a handler sent into the channel of request n. */
  ghost function FirstSent(ls: seq<Label>, n: nat): Option<Packet>
    requires Legal(ls)
    decreases |ls|
  {
    if ls == [] then None
    else
      Earlier(FirstSent(ls[..|ls| - 1], n), Sends(Run(ls[..|ls| - 1]), ls[|ls| - 1], n))
  }

  function Earlier(p: Option<Packet>, q: Option<Packet>): Option<Packet> {
    if p.Some? then p else q
  }

  /** What is in the channel of request n, given the first response sent into it. */
  predicate Holding(s: State, n: nat, first: Option<Packet>) {
    if n in s.chans then
      if s.chans[n].taken then first.Some? else s.chans[n].buffer == first
    else first.None?
  }

  /** The calls that took from it were answered with that response. */
  predicate TookFirst(s: State, n: nat, first: Option<Packet>) {
    forall c :: 0 <= c < |s.calls| && HasOutcome(s.calls[c]) && s.calls[c].o.Answered? && s.calls[c].n == n ==>
      first == Some(s.calls[c].o.p)
  }

  /** A call that can take has not taken before. */
  lemma TakesOnce(s: State, c: nat)
    requires LockOk(s) && TransmitTheorems.TakenOk(s) && Can(s, Take(c))
    ensures !s.chans[s.calls[c].n].taken
  {
  }

  lemma CallerHolds(s: State, l: Label, n: nat, first: Option<Packet>)
    requires LockOk(s) && ChansOk(s) && TransmitTheorems.TakenOk(s) && Holding(s, n, first)
    requires Can(s, l) && !Handles(l)
    ensures Holding(Do(s, l), n, first)
  {
    if l.Take? {
      TakesOnce(s, l.c);
    } else if !l.Number? && !l.Close? {
      assert Do(s, l).chans == s.chans;
    }
  }

  lemma HandlerHolds(s: State, l: Label, n: nat, first: Option<Packet>)
    requires Holding(s, n, first) && Can(s, l) && Handles(l)
    ensures Holding(Do(s, l), n, Earlier(first, Sends(s, l, n)))
  {
  }

  lemma TakeTakesFirst(s: State, l: Label, n: nat, first: Option<Packet>)
    requires LockOk(s) && TransmitTheorems.TakenOk(s) && Holding(s, n, first) && TookFirst(s, n, first) && Can(s, l)
    ensures TookFirst(Do(s, l), n, Earlier(first, Sends(s, l, n)))
  {
    if l.Take? {
      TakesOnce(s, l.c);
    }
    forall c | 0 <= c < |s.calls| && Ended(s, c)
      ensures Do(s, l).calls[c].o == s.calls[c].o && Do(s, l).calls[c].n == s.calls[c].n
    {
      EndStays(s, l, c);
    }
    forall c: nat | Ended(Do(s, l), c) && Do(s, l).calls[c].o.Answered? && Do(s, l).calls[c].n == n
      ensures Earlier(first, Sends(s, l, n)) == Some(Do(s, l).calls[c].o.p)
    {
      if !Ended(s, c) { EndMade(s, l, c); }
    }
  }

  lemma {:induction false} FirstIsHeld(ls: seq<Label>, n: nat)
    requires Legal(ls)
    ensures Holding(Run(ls), n, FirstSent(ls, n)) && TookFirst(Run(ls), n, FirstSent(ls, n))
    decreases |ls|
  {
    if ls != [] {
      var front, l := ls[..|ls| - 1], ls[|ls| - 1];
      var s, first := Run(front), FirstSent(front, n);
      FirstIsHeld(front, n);
      TransmitTheorems.RunCore(front);
      TransmitTheorems.AcceptsOneBeyondTaken(front, n);
      if Handles(l) { HandlerHolds(s, l, n, first); } else { CallerHolds(s, l, n, first); }
      TakeTakesFirst(s, l, n, first);
    }
  }

  /** In every interleaving, a call that took a response is answered with the first one that a
      handler sent into its channel, whatever was sent after it. */
  lemma {:induction false} AnsweredWithFirst(ls: seq<Label>, c: nat)
    requires Legal(ls) && Take(c) in ls
    ensures Ended(Run(ls), c)
    ensures FirstSent(ls, Run(ls).calls[c].n).Some?
    ensures Run(ls).calls[c].o == Answered(FirstSent(ls, Run(ls).calls[c].n).value)
  {
    OutcomeIff(ls, c);
    RunInv(ls);
    FirstIsHeld(ls, Run(ls).calls[c].n);
  }

  /** A call that waits can take a response exactly if one was sent into its channel. */
  lemma {:induction false} TakeIff(ls: seq<Label>, c: nat)
    requires Legal(ls) && c < |Run(ls).calls| && Run(ls).calls[c].Sent? && !Run(ls).crashed
    ensures Can(Run(ls), Take(c)) <==> FirstSent(ls, Run(ls).calls[c].n).Some?
  {
    var n := Run(ls).calls[c].n;
    TransmitTheorems.RunCore(ls);
    TransmitTheorems.AcceptsOneBeyondTaken(ls, n);
    FirstIsHeld(ls, n);
    WaitsUntaken(Run(ls), c);
  }

  lemma WaitsUntaken(s: State, c: nat)
    requires LockOk(s) && ChansOk(s) && TransmitTheorems.TakenOk(s) && c < |s.calls| && s.calls[c].Sent?
    ensures s.calls[c].n in s.chans && !s.chans[s.calls[c].n].taken
  {
  }

  /** A response finds a channel exactly if a call that carries its ID has registered its waiter
      and not removed it yet, and then that call's channel. */
  lemma {:induction false} LookupIff(ls: seq<Label>, h: nat, n: nat)
    requires Legal(ls) && Can(Run(ls), Lookup(h))
    ensures var p := Run(ls).handlers[h].p;
      Do(Run(ls), Lookup(h)).handlers[h] == Found(p, n) <==>
        exists c :: 0 <= c < |Run(ls).calls| && Listed(Run(ls).calls[c]) && Run(ls).calls[c].n == n && WireId(n) == p.id
  {
    RunInv(ls);
    LookupFinds(Run(ls), h, n);
  }

  lemma LookupFinds(s: State, h: nat, n: nat)
    requires LockOk(s) && RequestsOk(s) && Can(s, Lookup(h))
    ensures Do(s, Lookup(h)).handlers[h] == Found(s.handlers[h].p, n) <==>
      exists c :: 0 <= c < |s.calls| && Listed(s.calls[c]) && s.calls[c].n == n && WireId(n) == s.handlers[h].p.id
  {
    if s.holder.Some? { assert InLock(s.calls[s.holder.value]); }
  }

  /** Answers do happen: a response sent in time is returned. */
  lemma AnswerIsReachable(p: Packet) returns (ls: seq<Label>)
    requires p.id == 1
    ensures Legal(ls) && Run(ls).calls == [Returned(1, Answered(p))] && Run(ls).holder.None? && !Run(ls).crashed
  {
    ls := TransmitTheorems.LookedUpInTime(p);
    ls := TransmitTheorems.Extend(ls, Send(0));
    ls := TransmitTheorems.Extend(ls, Take(0));
    ls := TransmitTheorems.Extend(ls, Deregister(0));
    ls := TransmitTheorems.Extend(ls, Close(0));
    ls := TransmitTheorems.Extend(ls, Unlock(0));
  }
}
