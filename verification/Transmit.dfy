/** One agent connection: any number of callers of agent.transmit, the response handlers that
    the read loop starts, and a remote agent that may answer late, twice, out of order or
    unasked. Every lock operation, map operation and channel operation is a step. */
module Transmit {
  import opened Wrappers

  // ---------- Request IDs ----------

  const TWO_63: int := 0x8000_0000_0000_0000
  const TWO_64: int := 0x1_0000_0000_0000_0000

  /** The n-th request ID: counting up from one, as an int64 that wraps around. */
  function WireId(n: nat): int {
    (n + TWO_63) % TWO_64 - TWO_63
  }

  // ---------- The state ----------

  datatype Body = Data(value: int) | Error(code: int) | NotResponse

  datatype Packet = Packet(id: int, body: Body)

  datatype Outcome =
    | Answered(p: Packet)   // returned data, an error response or "invalid response"
    | TimedOut
    | WriteFailed
    | NoConnection

  /** A call of transmit; n counts the request IDs drawn so far and names the call's channel. */
  datatype Call =
    | Blocked                          // before writeLock
    | Locked
    | Numbered(n: nat)                 // has its ID and its channel
    | Registered(n: nat)               // its waiter is in the requests map
    | Sent(n: nat)                     // selects on channel and timeout
    | Leaving(n: nat, o: Outcome)      // before the deletion in removeResponseWaiter
    | Closing(n: nat, o: Outcome)      // between the deletion and the close
    | Unlocking(n: nat, o: Outcome)
    | Returned(n: nat, o: Outcome)

  /** A goroutine in handleResponse. */
  datatype Handler =
    | Arrived(p: Packet)
    | Found(p: Packet, n: nat)         // has the channel, has released requestsLock
    | Accepted(p: Packet, n: nat)
    | Refused(p: Packet, n: nat)       // the channel's buffer was full
    | Unknown(p: Packet)

  datatype Chan = Chan(buffer: Option<Packet>, taken: bool, closed: bool)

  datatype State = State(
    calls: seq<Call>,
    handlers: seq<Handler>,
    issued: nat,
    requests: map<int, nat>,
    chans: map<nat, Chan>,
    holder: Option<nat>,     // the call that holds writeLock
    connected: bool,
    wire: seq<nat>,          // the requests written, in order
    crashed: bool)           // a send on a closed channel panicked

  const START: State := State([], [], 0, map[], map[], None, true, [], false)

  datatype Label =
    | Begin
    | Acquire(c: nat) | NoConn(c: nat) | Number(c: nat) | Register(c: nat)
    | Write(c: nat) | WriteFail(c: nat) | Take(c: nat) | Timeout(c: nat)
    | Deregister(c: nat) | Close(c: nat) | Unlock(c: nat)
    | Hangup                           // agent.close, inside writeLock
    | Arrive(p: Packet)
    | Lookup(h: nat) | Send(h: nat)
    | LookupAndSend(h: nat)            // handleResponse if it kept the lock while sending

  /** A step of a response handler, or of the reader that starts it. */
  predicate Handles(l: Label) {
    l.Arrive? || l.Lookup? || l.Send? || l.LookupAndSend?
  }

  predicate Can(s: State, l: Label) {
    !s.crashed &&
    match l
    case Begin => true
    case Acquire(c) => c < |s.calls| && s.calls[c].Blocked? && s.holder.None?
    case NoConn(c) => c < |s.calls| && s.calls[c].Locked? && !s.connected
    case Number(c) => c < |s.calls| && s.calls[c].Locked? && s.connected
    case Register(c) => c < |s.calls| && s.calls[c].Numbered?
    case Write(c) => c < |s.calls| && s.calls[c].Registered?
    case WriteFail(c) => c < |s.calls| && s.calls[c].Registered?
    case Take(c) => c < |s.calls| && s.calls[c].Sent? && s.calls[c].n in s.chans && s.chans[s.calls[c].n].buffer.Some?
    case Timeout(c) => c < |s.calls| && s.calls[c].Sent?
    case Deregister(c) => c < |s.calls| && s.calls[c].Leaving?
    case Close(c) => c < |s.calls| && s.calls[c].Closing? && s.calls[c].n in s.chans
    case Unlock(c) => c < |s.calls| && s.calls[c].Unlocking?
    case Hangup => s.holder.None?
    case Arrive(_) => true
    case Lookup(h) => h < |s.handlers| && s.handlers[h].Arrived?
    case Send(h) => h < |s.handlers| && s.handlers[h].Found? && s.handlers[h].n in s.chans
    case LookupAndSend(h) =>
      h < |s.handlers| && s.handlers[h].Arrived?
      && (s.handlers[h].p.id in s.requests ==> s.requests[s.handlers[h].p.id] in s.chans)
  }

  function Look(s: State, p: Packet): Handler {
    if p.id in s.requests then Found(p, s.requests[p.id]) else Unknown(p)
  }

  /** The response goes into the channel's one-slot buffer if that is empty, and is dropped
      otherwise; sending on a closed channel panics. */
  function Offer(s: State, h: nat, p: Packet, n: nat): State
    requires h < |s.handlers| && n in s.chans
  {
    if s.chans[n].closed then s.(crashed := true)
    else if s.chans[n].buffer.None? then
      s.(chans := s.chans[n := s.chans[n].(buffer := Some(p))], handlers := s.handlers[h := Accepted(p, n)])
    else s.(handlers := s.handlers[h := Refused(p, n)])
  }

  function Do(s: State, l: Label): State
    requires Can(s, l)
  {
    match l
    case Begin => s.(calls := s.calls + [Blocked])
    case Acquire(c) => s.(calls := s.calls[c := Locked], holder := Some(c))
    case NoConn(c) => s.(calls := s.calls[c := Unlocking(0, NoConnection)])
    case Number(c) =>
      var n := s.issued + 1;
      s.(calls := s.calls[c := Numbered(n)], issued := n, chans := s.chans[n := Chan(None, false, false)])
    case Register(c) =>
      var n := s.calls[c].n;
      s.(calls := s.calls[c := Registered(n)], requests := s.requests[WireId(n) := n])
    case Write(c) => s.(calls := s.calls[c := Sent(s.calls[c].n)], wire := s.wire + [s.calls[c].n])
    case WriteFail(c) => s.(calls := s.calls[c := Leaving(s.calls[c].n, WriteFailed)])
    case Take(c) =>
      var n := s.calls[c].n;
      s.(calls := s.calls[c := Leaving(n, Answered(s.chans[n].buffer.value))],
         chans := s.chans[n := s.chans[n].(buffer := None, taken := true)])
    case Timeout(c) => s.(calls := s.calls[c := Leaving(s.calls[c].n, TimedOut)])
    case Deregister(c) =>
      var n := s.calls[c].n;
      s.(calls := s.calls[c := Closing(n, s.calls[c].o)],
         requests :=
           if WireId(n) in s.requests && s.requests[WireId(n)] == n then s.requests - {WireId(n)} else s.requests)
    case Close(c) =>
      var n := s.calls[c].n;
      s.(calls := s.calls[c := Unlocking(n, s.calls[c].o)], chans := s.chans[n := s.chans[n].(closed := true)])
    case Unlock(c) => s.(calls := s.calls[c := Returned(s.calls[c].n, s.calls[c].o)], holder := None)
    case Hangup => s.(connected := false)
    case Arrive(p) => s.(handlers := s.handlers + [Arrived(p)])
    case Lookup(h) => s.(handlers := s.handlers[h := Look(s, s.handlers[h].p)])
    case Send(h) => Offer(s, h, s.handlers[h].p, s.handlers[h].n)
    case LookupAndSend(h) =>
      var f := Look(s, s.handlers[h].p);
      if f.Found? then Offer(s, h, f.p, f.n) else s.(handlers := s.handlers[h := f])
  }

  // ---------- Runs ----------

  ghost predicate Legal(ls: seq<Label>)
    decreases |ls|, 0
  {
    ls != [] ==> Legal(ls[..|ls| - 1]) && Can(Run(ls[..|ls| - 1]), ls[|ls| - 1])
  }

  ghost function Run(ls: seq<Label>): State
    requires Legal(ls)
    decreases |ls|, 1
  {
    if ls == [] then START else Do(Run(ls[..|ls| - 1]), ls[|ls| - 1])
  }

  // ---------- The invariant ----------

  predicate InLock(c: Call) {
    !c.Blocked? && !c.Returned?
  }

  predicate HasNumber(c: Call) {
    !c.Blocked? && !c.Locked? && c.n != 0
  }

  predicate Listed(c: Call) {
    c.Registered? || c.Sent? || c.Leaving?
  }

  predicate Open(c: Call) {
    c.Numbered? || Listed(c) || c.Closing?
  }

  /** writeLock is held from Locked to Unlocking, by one call, which has the newest number. */
  predicate LockOk(s: State) {
    && (s.holder.Some? ==> s.holder.value < |s.calls|)
    && (forall c :: 0 <= c < |s.calls| ==> (InLock(s.calls[c]) <==> s.holder == Some(c)))
    && (s.holder.Some? && Open(s.calls[s.holder.value]) ==> s.calls[s.holder.value].n == s.issued && s.issued > 0)
  }

  predicate RequestsOk(s: State) {
    s.requests ==
      if s.holder.Some? && s.holder.value < |s.calls| && Listed(s.calls[s.holder.value])
      then map[WireId(s.issued) := s.issued] else map[]
  }

  predicate OpenNow(s: State, n: nat) {
    s.holder.Some? && s.holder.value < |s.calls| && Open(s.calls[s.holder.value]) && n == s.issued
  }

  /** Exactly the live call's channel is open. */
  ghost predicate ChansOk(s: State) {
    && (forall n: nat :: n in s.chans <==> 1 <= n <= s.issued)
    && (forall n :: n in s.chans ==> (s.chans[n].closed <==> !OpenNow(s, n)))
  }

  /** What a channel holds carries the ID of the channel's call. */
  predicate BuffersOk(s: State) {
    forall n :: n in s.chans && s.chans[n].buffer.Some? ==> s.chans[n].buffer.value.id == WireId(n)
  }

  predicate HandlersOk(s: State) {
    forall h :: 0 <= h < |s.handlers| && (s.handlers[h].Found? || s.handlers[h].Accepted? || s.handlers[h].Refused?) ==>
      1 <= s.handlers[h].n <= s.issued && s.handlers[h].p.id == WireId(s.handlers[h].n)
  }

  /** Numbers are never used twice. */
  predicate NumbersOk(s: State) {
    && (forall c :: 0 <= c < |s.calls| && HasNumber(s.calls[c]) ==> s.calls[c].n <= s.issued)
    && (forall c, d :: 0 <= c < d < |s.calls| && HasNumber(s.calls[c]) && HasNumber(s.calls[d]) ==>
          s.calls[c].n != s.calls[d].n)
  }

  /** An answer carries the ID of the call that returns it, and that call was written. */
  predicate AnswersOk(s: State) {
    && (forall c :: 0 <= c < |s.calls| && HasOutcome(s.calls[c]) && s.calls[c].o.Answered? ==>
          s.calls[c].n > 0 && s.calls[c].o.p.id == WireId(s.calls[c].n) && s.calls[c].n in s.wire)
    && (forall c :: 0 <= c < |s.calls| && s.calls[c].Sent? ==> s.calls[c].n in s.wire)
  }

  predicate HasOutcome(c: Call) {
    c.Leaving? || c.Closing? || c.Unlocking? || c.Returned?
  }

  predicate WireOk(s: State) {
    && (forall i, j :: 0 <= i < j < |s.wire| ==> s.wire[i] < s.wire[j])
    && (forall i :: 0 <= i < |s.wire| ==> 1 <= s.wire[i] <= s.issued)
    && (s.holder.Some? && s.holder.value < |s.calls|
        && (s.calls[s.holder.value].Numbered? || s.calls[s.holder.value].Registered?) ==>
          forall i :: 0 <= i < |s.wire| ==> s.wire[i] < s.issued)
  }

  ghost predicate Inv(s: State) {
    LockOk(s) && RequestsOk(s) && ChansOk(s) && BuffersOk(s)
    && HandlersOk(s) && NumbersOk(s) && AnswersOk(s) && WireOk(s)
  }

  lemma CallerLock(s: State, l: Label)
    requires LockOk(s) && Can(s, l) && !Handles(l)
    ensures LockOk(Do(s, l))
  {
  }

  lemma LockKept(s: State, l: Label)
    requires LockOk(s) && Can(s, l)
    ensures LockOk(Do(s, l))
  {
    if Handles(l) {
      var u := Do(s, l);
      assert u.calls == s.calls && u.holder == s.holder && u.issued == s.issued;
    } else {
      CallerLock(s, l);
    }
  }

  lemma RequestsKept(s: State, l: Label)
    requires LockOk(s) && RequestsOk(s) && Can(s, l)
    ensures RequestsOk(Do(s, l))
  {
  }

  /** Only drawing a number opens a channel, and only Close closes one. */
  lemma OpenStays(s: State, l: Label, n: nat)
    requires LockOk(s) && Can(s, l) && !l.Number? && !l.Close?
    ensures OpenNow(Do(s, l), n) <==> OpenNow(s, n)
  {
    var u := Do(s, l);
    if Handles(l) {
      assert u.calls == s.calls && u.holder == s.holder && u.issued == s.issued;
    }
  }

  lemma HandlerKeepsChans(s: State, l: Label)
    requires Can(s, l) && Handles(l)
    ensures Do(s, l).chans.Keys == s.chans.Keys && Do(s, l).issued == s.issued
    ensures forall n :: n in s.chans ==> Do(s, l).chans[n].closed == s.chans[n].closed
  {
  }

  lemma ChansStay(s: State, l: Label)
    requires Can(s, l) && !l.Number? && !l.Close?
    ensures Do(s, l).chans.Keys == s.chans.Keys && Do(s, l).issued == s.issued
    ensures forall n :: n in s.chans ==> Do(s, l).chans[n].closed == s.chans[n].closed
  {
    if Handles(l) {
      HandlerKeepsChans(s, l);
    } else if !l.Take? {
      assert Do(s, l).chans == s.chans;
    }
  }

  lemma ChansKept(s: State, l: Label)
    requires LockOk(s) && ChansOk(s) && Can(s, l)
    ensures ChansOk(Do(s, l))
  {
    if l.Number? || l.Close? {
      ChanMade(s, l);
    } else {
      ChansStay(s, l);
      forall n | n in s.chans
        ensures OpenNow(Do(s, l), n) <==> OpenNow(s, n)
      {
        OpenStays(s, l, n);
      }
    }
  }

  lemma ChanMade(s: State, l: Label)
    requires LockOk(s) && ChansOk(s) && Can(s, l) && (l.Number? || l.Close?)
    ensures ChansOk(Do(s, l))
  {
  }

  lemma BuffersKept(s: State, l: Label)
    requires RequestsOk(s) && BuffersOk(s) && HandlersOk(s) && Can(s, l)
    ensures BuffersOk(Do(s, l))
  {
  }

  lemma HandlerHandlers(s: State, l: Label)
    requires LockOk(s) && RequestsOk(s) && HandlersOk(s) && Can(s, l) && Handles(l)
    ensures HandlersOk(Do(s, l))
  {
  }

  lemma HandlersKept(s: State, l: Label)
    requires LockOk(s) && RequestsOk(s) && HandlersOk(s) && Can(s, l)
    ensures HandlersOk(Do(s, l))
  {
    if Handles(l) {
      HandlerHandlers(s, l);
    } else {
      assert Do(s, l).handlers == s.handlers && Do(s, l).issued >= s.issued;
    }
  }

  lemma NumbersKept(s: State, l: Label)
    requires LockOk(s) && NumbersOk(s) && Can(s, l)
    ensures NumbersOk(Do(s, l))
  {
    var u := Do(s, l);
    if !l.Number? {
      assert forall c :: 0 <= c < |u.calls| && HasNumber(u.calls[c]) ==>
        c < |s.calls| && HasNumber(s.calls[c]) && u.calls[c].n == s.calls[c].n;
    }
  }

  lemma CallerAnswers(s: State, l: Label)
    requires LockOk(s) && ChansOk(s) && BuffersOk(s) && AnswersOk(s) && Can(s, l) && !Handles(l)
    ensures AnswersOk(Do(s, l))
  {
    if !l.Write? {
      assert Do(s, l).wire == s.wire;
    }
  }

  lemma AnswersKept(s: State, l: Label)
    requires LockOk(s) && ChansOk(s) && BuffersOk(s) && AnswersOk(s) && Can(s, l)
    ensures AnswersOk(Do(s, l))
  {
    if Handles(l) {
      assert Do(s, l).calls == s.calls && Do(s, l).wire == s.wire;
    } else {
      CallerAnswers(s, l);
    }
  }

  lemma WireKept(s: State, l: Label)
    requires LockOk(s) && WireOk(s) && Can(s, l)
    ensures WireOk(Do(s, l))
  {
    var u := Do(s, l);
    if !(l.Write? || l.Number? || l.Register? || l.Acquire?) {
      assert u.wire == s.wire && u.issued == s.issued;
    }
  }

  lemma {:induction false} RunInv(ls: seq<Label>)
    requires Legal(ls)
    ensures Inv(Run(ls))
    decreases |ls|
  {
    if ls != [] {
      var s, l := Run(ls[..|ls| - 1]), ls[|ls| - 1];
      RunInv(ls[..|ls| - 1]);
      LockKept(s, l);
      RequestsKept(s, l);
      ChansKept(s, l);
      HandlersKept(s, l);
      BuffersKept(s, l);
      NumbersKept(s, l);
      AnswersKept(s, l);
      WireKept(s, l);
    }
  }
}
