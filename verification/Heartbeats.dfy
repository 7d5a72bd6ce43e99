/** The login flag of an OctopusClient and its status checker, in time. Times are nanoseconds;
    a notice is handled as one step, from its store to the checker's. */
module Heartbeats {
  import opened Wrappers

  const TWO_32: int := 0x1_0000_0000
  const MILLISECOND: int := 1_000_000

  /** Three announced intervals, in milliseconds as an uint32 that wraps around. */
  function CheckInterval(interval: nat): nat {
    (3 * interval % TWO_32) * MILLISECOND
  }

  /** It is three times the announced interval exactly up to a third of the uint32 range, and
      it never overflows a time.Duration. */
  lemma IntervalIff(interval: nat)
    requires interval < TWO_32
    ensures CheckInterval(interval) == 3 * interval * 1_000_000 <==> interval <= 1431655765
    ensures CheckInterval(interval) < 0x8000_0000_0000_0000
  {
    var wraps := 3 * interval / TWO_32;
    assert 3 * interval % TWO_32 == 3 * interval - wraps * TWO_32 && 0 <= wraps <= 2;
  }

  /** Beyond that it can fall short of a single interval: exactly for these. */
  lemma TooShortIff(interval: nat)
    requires interval < TWO_32
    ensures CheckInterval(interval) < interval * 1_000_000 <==>
            1431655766 <= interval < 2147483648 || 2863311531 <= interval
  {
    var wraps := 3 * interval / TWO_32;
    assert 3 * interval % TWO_32 == 3 * interval - wraps * TWO_32 && 0 <= wraps <= 2;
  }

  // ---------- The client's status ----------

  datatype Checker = Checker(interval: nat, deadline: int)

  datatype Client = Client(isLoggedIn: bool, checker: Option<Checker>)

  /** processNotice on a heartbeat. A running checker keeps its interval, and its timer starts
      again. */
  function Beat(c: Client, loggedIn: bool, interval: nat, now: int): Client {
    var ci := if c.checker.Some? then c.checker.value.interval else CheckInterval(interval);
    Client(loggedIn, Some(Checker(ci, now + ci)))
  }

  /** GetLoginInfo stores whether there was data, and does not touch the timer. */
  function LoginInfo(c: Client, gotData: bool): Client {
    c.(isLoggedIn := gotData)
  }

  function Expire(c: Client, now: int): Client
    requires c.checker.Some?
  {
    Client(false, Some(c.checker.value.(deadline := now + c.checker.value.interval)))
  }

  /** Dispose stops the checker and leaves the flag. */
  function Dispose(c: Client): Client {
    c.(checker := None)
  }

  /** The fields of an OctopusClient that say whether it is logged in. */
  class ClientStatus {
    var isLoggedIn: bool
    var cancel: bool          // not nil
    var checkInterval: nat
    var deadline: int         // of the timer that the checker waits for

    constructor ()
      ensures View() == Client(false, None)
    {
      isLoggedIn := false;
      cancel := false;
      checkInterval := 0;
      deadline := 0;
    }

    function View(): Client
      reads this
    {
      Client(isLoggedIn, if cancel then Some(Checker(checkInterval, deadline)) else None)
    }

    method StartChecker(interval: nat, now: int)
      modifies this
      ensures View() == Client(old(isLoggedIn), Some(Checker(CheckInterval(interval), now + CheckInterval(interval))))
    {
      cancel := true;
      checkInterval := CheckInterval(interval);
      deadline := now + checkInterval;
    }

    /** The checker takes the status from the channel and waits anew. */
    method TakeStatus(status: bool, now: int)
      requires cancel
      modifies this`isLoggedIn, this`deadline
      ensures View() == Client(status, Some(Checker(checkInterval, now + checkInterval)))
    {
      isLoggedIn := status;
      deadline := now + checkInterval;
    }

    method ProcessHeartbeat(loggedIn: bool, interval: nat, now: int)
      modifies this
      ensures View() == Beat(old(View()), loggedIn, interval, now)
    {
      isLoggedIn := loggedIn;
      if !cancel {
        StartChecker(interval, now);
      }
      TakeStatus(loggedIn, now);
    }

    method GetLoginInfo(gotData: bool)
      modifies this`isLoggedIn
      ensures View() == LoginInfo(old(View()), gotData)
    {
      if gotData {
        isLoggedIn := true;
      } else {
        isLoggedIn := false;
      }
    }

    /** The case of time.After in the checker. */
    method TimeOut(now: int)
      requires cancel
      modifies this`isLoggedIn, this`deadline
      ensures View() == Expire(old(View()), now)
    {
      isLoggedIn := false;
      deadline := now + checkInterval;
    }

    method Stop()
      modifies this`cancel
      ensures View() == Dispose(old(View()))
    {
      if cancel {
        cancel := false;
      }
    }
  }

  // ---------- Timed runs ----------

  /** What set the flag, when, and to what. */
  datatype Signal =
    | Heard(at: int, value: bool)
    | Asked(at: int, value: bool)
    | Expired(at: int, interval: nat)

  /** lag bounds how late a timer fires. */
  datatype State = State(now: int, client: Client, signals: seq<Signal>, lag: nat)

  datatype Label =
    | Tick(d: nat)
    | Notice(loggedIn: bool, interval: nat)
    | Ask(gotData: bool)
    | Timer
    | Stop

  predicate Can(s: State, l: Label) {
    match l
    case Tick(d) => s.client.checker.None? || s.now + d <= s.client.checker.value.deadline + s.lag
    case Notice(_, interval) => interval < TWO_32
    case Ask(_) => true
    case Timer => s.client.checker.Some? && s.now >= s.client.checker.value.deadline
    case Stop => true
  }

  function Do(s: State, l: Label): State
    requires Can(s, l)
  {
    match l
    case Tick(d) => s.(now := s.now + d)
    case Notice(v, interval) =>
      s.(client := Beat(s.client, v, interval, s.now), signals := s.signals + [Heard(s.now, v)])
    case Ask(v) => s.(client := LoginInfo(s.client, v), signals := s.signals + [Asked(s.now, v)])
    case Timer =>
      s.(client := Expire(s.client, s.now), signals := s.signals + [Expired(s.now, s.client.checker.value.interval)])
    case Stop => s.(client := Dispose(s.client))
  }

  function Run(s: State, ls: seq<Label>): State {
    if ls == [] then s
    else
      var t := Run(s, ls[..|ls| - 1]);
      if Can(t, ls[|ls| - 1]) then Do(t, ls[|ls| - 1]) else t
  }

  function Start(now: int, lag: nat): State {
    State(now, Client(false, None), [], lag)
  }

  function Value(g: Signal): bool {
    match g
    case Heard(_, v) => v
    case Asked(_, v) => v
    case Expired(_, _) => false
  }

  /** A heartbeat and a timeout start the timer, an answer to GetLoginInfo does not. */
  predicate StartsTimer(g: Signal) {
    !g.Asked?
  }

  ghost predicate TimerOk(s: State, c: Checker) {
    && s.signals != []
    && s.now <= c.deadline + s.lag
    && c.deadline <= s.signals[|s.signals| - 1].at + c.interval
    && (forall i :: 0 <= i < |s.signals| && StartsTimer(s.signals[i]) ==> s.signals[i].at + c.interval <= c.deadline)
  }

  ghost predicate Inv(s: State) {
    && (forall i :: 0 <= i < |s.signals| ==> s.signals[i].at <= s.now)
    && s.client.isLoggedIn == (s.signals != [] && Value(s.signals[|s.signals| - 1]))
    && (s.client.checker.Some? ==> TimerOk(s, s.client.checker.value))
    && (forall i, j :: 0 <= i < j < |s.signals| && StartsTimer(s.signals[i]) && s.signals[j].Expired? ==>
          s.signals[j].at - s.signals[i].at >= s.signals[j].interval)
  }

  lemma StepInv(s: State, l: Label)
    requires Inv(s) && Can(s, l)
    ensures Inv(Do(s, l))
  {
  }

  lemma {:induction false} RunInv(now: int, lag: nat, ls: seq<Label>)
    ensures Inv(Run(Start(now, lag), ls))
  {
    if ls != [] {
      RunInv(now, lag, ls[..|ls| - 1]);
      var t := Run(Start(now, lag), ls[..|ls| - 1]);
      if Can(t, ls[|ls| - 1]) { StepInv(t, ls[|ls| - 1]); }
    }
  }

  /** While the checker runs, the client counts as logged in only if the last thing heard of it
      was a true heartbeat or an answer to GetLoginInfo, and that within the last check
      interval and the lag of the timer. */
  lemma {:induction false} LoggedInIsFresh(now: int, lag: nat, ls: seq<Label>)
    ensures var s := Run(Start(now, lag), ls);
      s.client.checker.Some? && s.client.isLoggedIn ==>
        && s.signals != []
        && !s.signals[|s.signals| - 1].Expired? && s.signals[|s.signals| - 1].value
        && s.now - s.signals[|s.signals| - 1].at <= s.client.checker.value.interval + s.lag
  {
    RunInv(now, lag, ls);
  }

  /** With a checker or without, the flag is what the last signal says. */
  lemma {:induction false} LastSignalDecides(now: int, lag: nat, ls: seq<Label>)
    ensures var s := Run(Start(now, lag), ls);
      s.client.isLoggedIn <==> s.signals != [] && Value(s.signals[|s.signals| - 1])
  {
    RunInv(now, lag, ls);
  }

  /** No client is timed out early: a timeout comes a full check interval after every heartbeat
      before it. */
  lemma {:induction false} NoEarlyTimeout(now: int, lag: nat, ls: seq<Label>, i: nat, j: nat)
    requires i < j < |Run(Start(now, lag), ls).signals|
    ensures var gs := Run(Start(now, lag), ls).signals;
      gs[i].Heard? && gs[j].Expired? ==> gs[j].at - gs[i].at >= gs[j].interval
  {
    RunInv(now, lag, ls);
  }

  /** The check interval is that of the notice that started the checker, whatever later notices
      announce, until Dispose. */
  lemma {:induction false} IntervalStays(s: State, loggedIn: bool, interval: nat, ls: seq<Label>)
    requires s.client.checker.None? && interval < TWO_32 && Stop !in ls
    ensures var c := Run(Do(s, Notice(loggedIn, interval)), ls).client.checker;
      c.Some? && c.value.interval == CheckInterval(interval)
  {
    if ls != [] {
      assert Stop !in ls[..|ls| - 1];
      IntervalStays(s, loggedIn, interval, ls[..|ls| - 1]);
    }
  }

  /** After Dispose the flag may stay true for any length of time. */
  lemma StaysTrueAfterDispose(now: int, lag: nat, interval: nat, d: nat)
    requires interval < TWO_32
    ensures var s := Run(Start(now, lag), [Notice(true, interval), Stop, Tick(d)]);
      s.client.isLoggedIn && s.signals == [Heard(now, true)] && s.now == now + d
  {
    var s0 := Start(now, lag);
    var ls := [Notice(true, interval), Stop, Tick(d)];
    assert ls[..2][..1] == [Notice(true, interval)] && ls[..2][1] == Stop;
    assert [Notice(true, interval)][..0] == [];
    assert Run(s0, [Notice(true, interval)]) == Do(s0, Notice(true, interval));
    assert Run(s0, ls[..2]) == Do(Do(s0, Notice(true, interval)), Stop);
  }
}
