/** The SSH forwarder's retry loops, for every sequence of outcomes. */
module Ssh {
  import opened Options

  /** What was attempted, and how it went. A sleep that is not `ok` was cut short because the
      context was cancelled. */
  datatype Event = Dial(ok: bool) | Alive(ok: bool) | Reconnect(ok: bool) | InnerSleep(ok: bool) | OuterSleep(ok: bool)

  datatype Result = Tunnel | TunnelLost | BastionLost

  /** Whether the n-th attempt of each kind succeeds. */
  datatype Outcomes = Outcomes(dial: nat -> bool, alive: nat -> bool, reconnect: nat -> bool, sleep: nat -> bool)

  /** How many attempts of each kind a trace holds. */
  datatype Tally = Tally(dials: nat, checks: nat, reconnects: nat, sleeps: nat)

  function Add(n: Tally, e: Event): Tally {
    match e
    case Dial(_) => n.(dials := n.dials + 1)
    case Alive(_) => n.(checks := n.checks + 1)
    case Reconnect(_) => n.(reconnects := n.reconnects + 1)
    case _ => n.(sleeps := n.sleeps + 1)
  }

  const Nothing := Tally(0, 0, 0, 0)

  /** What an attempt can directly follow: a check only a failed dial, a reconnect only a failed
      check or the sleep after a failed reconnect, a dial only the outer sleep. */
  predicate MayFollow(before: Event, e: Event) {
    match e
    case Dial(_) => before.OuterSleep?
    case Alive(_) => before == Dial(false)
    case Reconnect(_) => before == Alive(false) || before == InnerSleep(true)
    case InnerSleep(_) => before == Reconnect(false)
    case OuterSleep(_) => before == Alive(true) || before == Reconnect(true)
  }

  /** The attempt goes as the outcomes say for its turn. */
  predicate AsGiven(o: Outcomes, n: Tally, e: Event) {
    e.ok == match e
            case Dial(_) => o.dial(n.dials)
            case Alive(_) => o.alive(n.checks)
            case Reconnect(_) => o.reconnect(n.reconnects)
            case _ => o.sleep(n.sleeps)
  }

  /** The attempt can come next after the trace, which made `n` attempts. */
  predicate Fits(o: Outcomes, t: seq<Event>, n: Tally, e: Event) {
    AsGiven(o, n, e) && if t == [] then e.Dial? else MayFollow(t[|t| - 1], e)
  }

  /** The attempts in a trace, if each is at its place and has its outcome. */
  function Attempts(o: Outcomes, t: seq<Event>): Option<Tally> {
    if t == [] then Some(Nothing)
    else match Attempts(o, t[..|t| - 1])
         case None => None
         case Some(n) => if Fits(o, t[..|t| - 1], n, t[|t| - 1]) then Some(Add(n, t[|t| - 1])) else None
  }

  /** Position by position, what it means for a trace to be one of the forwarder's. */
  lemma {:induction false} TracedAt(o: Outcomes, t: seq<Event>, i: nat)
    requires Attempts(o, t).Some? && i < |t|
    ensures i == 0 ==> t[i].Dial?
    ensures i > 0 ==> MayFollow(t[i - 1], t[i])
    ensures Attempts(o, t[..i]).Some? && AsGiven(o, Attempts(o, t[..i]).value, t[i])
  {
    if i < |t| - 1 {
      assert t[..|t| - 1][..i] == t[..i];
      TracedAt(o, t[..|t| - 1], i);
    }
  }

  /** Neither a success nor a cancellation that would have ended the loop. */
  predicate Passes(e: Event) {
    e != Dial(true) && e != OuterSleep(false) && e != InnerSleep(false)
  }

  predicate Pending(t: seq<Event>) {
    forall i :: 0 <= i < |t| ==> Passes(t[i])
  }

  lemma Snoc(o: Outcomes, t: seq<Event>, n: Tally, e: Event)
    requires Attempts(o, t) == Some(n) && Fits(o, t, n, e)
    ensures Attempts(o, t + [e]) == Some(Add(n, e))
    ensures Pending(t) && Passes(e) ==> Pending(t + [e])
  {
    assert (t + [e])[..|t|] == t;
  }

  /** What a loop has done: the attempts that passed, how many, and the one that ended it. */
  datatype Ended = Ended(past: seq<Event>, n: Tally, last: Event)

  /** A trace continuing `before`, with nothing in it that would have ended the loop earlier. */
  ghost predicate Continues(o: Outcomes, before: seq<Event>, x: Ended) {
    before <= x.past && Pending(x.past) && Attempts(o, x.past) == Some(x.n) && Fits(o, x.past, x.n, x.last)
  }

  /** The inner loop: up to three reconnects, with a sleep after each failure but the last. */
  method ReconnectLoop(before: seq<Event>, n: Tally, o: Outcomes) returns (x: Ended)
    requires Pending(before) && Attempts(o, before) == Some(n) && before != [] && before[|before| - 1] == Alive(false)
    ensures Continues(o, before, x)
    ensures var m := Add(x.n, x.last);
            m.dials == n.dials && m.checks == n.checks && n.reconnects < m.reconnects <= n.reconnects + 3 && m.sleeps <= n.sleeps + 2
    ensures x.last.Reconnect? || x.last == InnerSleep(false)
    ensures x.last == Reconnect(false) ==> x.n.reconnects == n.reconnects + 2
  {
    var t, m, retries := before, n, 1;
    while true
      invariant 1 <= retries <= 3 && before <= t && Pending(t) && Attempts(o, t) == Some(m)
      invariant t[|t| - 1] == Alive(false) || t[|t| - 1] == InnerSleep(true)
      invariant m == n.(reconnects := n.reconnects + retries - 1, sleeps := n.sleeps + retries - 1)
      decreases 3 - retries
    {
      var e := Reconnect(o.reconnect(m.reconnects));
      if e.ok || retries > 2 {
        return Ended(t, m, e);
      }
      Snoc(o, t, m, e);
      t, m := t + [e], Add(m, e);
      var nap := InnerSleep(o.sleep(m.sleeps));
      if !nap.ok {
        return Ended(t, m, nap);
      }
      Snoc(o, t, m, nap);
      t, m := t + [nap], Add(m, nap);
      retries := retries + 1;
    }
  }

  /** After a failed dial: check the connection, reconnect if it is dead, and sleep. */
  method Recover(before: seq<Event>, n: Tally, o: Outcomes) returns (x: Ended)
    requires Pending(before) && Attempts(o, before) == Some(n) && before != [] && before[|before| - 1] == Dial(false)
    ensures Continues(o, before, x)
    ensures var m := Add(x.n, x.last);
            m.dials == n.dials && m.checks == n.checks + 1 && m.reconnects <= n.reconnects + 3 && m.sleeps <= n.sleeps + 3
    ensures x.last.OuterSleep? || x.last == Reconnect(false) || x.last == InnerSleep(false)
  {
    var check := Alive(o.alive(n.checks));
    Snoc(o, before, n, check);
    var t, m := before + [check], Add(n, check);
    if !check.ok {
      x := ReconnectLoop(t, m, o);
      if x.last != Reconnect(true) {
        return;
      }
      Snoc(o, x.past, x.n, x.last);
      t, m := x.past + [x.last], Add(x.n, x.last);
    }
    x := Ended(t, m, OuterSleep(o.sleep(m.sleeps)));
  }

  /** The attempt that ends the forwarder, by result. */
  predicate Decides(e: Event, r: Result) {
    match r
    case Tunnel => e == Dial(true)
    case TunnelLost => e == Dial(false)
    case BastionLost => e == Reconnect(false) || e == InnerSleep(false)
  }

  /** Nothing in the trace would have ended the loop, except that a cancelled outer sleep may be
      its last attempt. */
  predicate PendingUntil(t: seq<Event>, cancelled: bool) {
    && (forall i :: 0 <= i < |t| - (if cancelled then 1 else 0) ==> Passes(t[i]))
    && (t != [] ==> t[|t| - 1] == OuterSleep(!cancelled))
    && (cancelled ==> t != [])
  }

  /** A dial that failed and the recovery after it; `t` takes in the outer sleep, if it came to
      that. */
  method Retry(before: seq<Event>, n: Tally, o: Outcomes) returns (t: seq<Event>, m: Tally, last: Event)
    requires PendingUntil(before, false) && Attempts(o, before) == Some(n) && !o.dial(n.dials)
    ensures Attempts(o, t) == Some(m)
    ensures last.OuterSleep? ==> PendingUntil(t, !last.ok) && Grown(n, m)
    ensures !last.OuterSleep? ==> (last == Reconnect(false) || last == InnerSleep(false)) && Pending(t) && Fits(o, t, m, last) && Grown(n, Add(m, last))
  {
    var dial := Dial(false);
    Redial(o, before, n);
    var x := Recover(before + [dial], Add(n, dial), o);
    t, m, last := x.past, x.n, x.last;
    if last.OuterSleep? {
      SleepEnds(o, t, m, last);
      t, m := t + [last], Add(m, last);
    }
  }

  lemma Redial(o: Outcomes, t: seq<Event>, n: Tally)
    requires PendingUntil(t, false) && Attempts(o, t) == Some(n) && !o.dial(n.dials)
    ensures Pending(t + [Dial(false)]) && Attempts(o, t + [Dial(false)]) == Some(Add(n, Dial(false)))
  {
    Snoc(o, t, n, Dial(false));
  }

  lemma SleepEnds(o: Outcomes, t: seq<Event>, n: Tally, e: Event)
    requires Pending(t) && Attempts(o, t) == Some(n) && Fits(o, t, n, e) && e.OuterSleep?
    ensures PendingUntil(t + [e], !e.ok) && Attempts(o, t + [e]) == Some(Add(n, e))
  {
    Snoc(o, t, n, e);
  }

  /** One dial and one check more, at most three reconnects and three sleeps. */
  predicate Grown(n: Tally, m: Tally) {
    m.dials == n.dials + 1 && m.checks == n.checks + 1 && m.reconnects <= n.reconnects + 3 && m.sleeps <= n.sleeps + 3
  }

  /** `connectForward`: terminates after at most three dials, two liveness checks and six
      reconnects, sleeping at most six times. Everything before the last attempt failed or
      changed nothing, except that an outer sleep may have been cancelled: then it is the last
      but one, and the last is a dial. Without a cancellation the tunnel is given up only after
      three dials. Every check directly follows a failed dial, and the connection is
      re-established exactly after a failed check. */
  method ConnectForward(o: Outcomes) returns (r: Result, t: seq<Event>, last: Event, n: Tally, cancelled: bool)
    ensures Attempts(o, t) == Some(n) && Fits(o, t, n, last) && Decides(last, r)
    ensures if last.Dial? then PendingUntil(t, cancelled) else Pending(t) && !cancelled
    ensures var m := Add(n, last); m.dials <= 3 && m.checks <= 2 && m.reconnects <= 6 && m.sleeps <= 6
    ensures r.TunnelLost? && !cancelled ==> Add(n, last).dials == 3
  {
    t, n, cancelled := [], Nothing, false;
    var retries := 1;
    while true
      invariant 1 <= retries <= 4 && PendingUntil(t, cancelled) && Modest(n) && Attempts(o, t) == Some(n)
      invariant cancelled <==> retries == 4
      invariant !cancelled ==> n.dials == retries - 1
      decreases 4 - retries
    {
      last := Dial(o.dial(n.dials));
      if last.ok {
        r := Tunnel;
        return;
      }
      if retries > 2 {
        r := TunnelLost;
        return;
      }
      t, n, last := Retry(t, n, o);
      if !last.OuterSleep? {
        r := BastionLost;
        return;
      }
      if !last.ok {
        retries, cancelled := 3, true;
      }
      retries := retries + 1;
    }
  }

  /** At the top of the outer loop: as many checks as dials, no more than two, and no more
      than three reconnects and three sleeps for each. */
  predicate Modest(n: Tally) {
    n.dials <= 2 && n.checks == n.dials && n.reconnects <= 3 * n.dials && n.sleeps <= 3 * n.dials
  }

  // ----- The first connection

  const Second: nat := 1000

  const MaxAttempts: nat := 60

  /** Milliseconds to wait after a wait of `delay`. */
  function BackOff(delay: nat): (r: nat)
    ensures r <= Second && (0 < delay <= Second ==> delay <= r)
  {
    var next := if delay == 0 then 5 else 2 * delay;
    if next > Second then Second else next
  }

  /** The i-th wait. */
  function Delay(i: nat): nat {
    if i == 0 then 100 else BackOff(Delay(i - 1))
  }

  function Sum(s: seq<nat>): nat {
    if s == [] then 0 else Sum(s[..|s| - 1]) + s[|s| - 1]
  }

  /** The first `n` waits. */
  function Waits(n: nat): (r: seq<nat>)
    ensures |r| == n
  {
    if n == 0 then [] else Waits(n - 1) + [Delay(n - 1)]
  }

  /** Waits double from 100 ms and stay at one second from the fifth on. */
  lemma {:induction false} DelayValue(i: nat)
    ensures Delay(i) == if i == 0 then 100 else if i == 1 then 200 else if i == 2 then 400 else if i == 3 then 800 else Second
  {
    if i > 0 {
      DelayValue(i - 1);
    }
  }

  /** The waits never get shorter, and each is between 100 ms and a second. */
  lemma {:induction false} WaitsGrow(n: nat, i: nat, j: nat)
    requires i <= j < n
    ensures Waits(n)[j] == Delay(j) && 100 <= Waits(n)[i] <= Waits(n)[j] <= Second
  {
    if j < n - 1 {
      WaitsGrow(n - 1, i, j);
    } else {
      DelayValue(j);
      DelayValue(i);
      if i < j {
        WaitsGrow(n - 1, i, i);
      }
    }
  }

  lemma {:induction false} WaitsSum(n: nat)
    ensures n >= 4 ==> Sum(Waits(n)) == 1500 + (n - 4) * Second
    ensures Sum(Waits(n)) <= 1500 + n * Second
  {
    if n > 0 {
      DelayValue(n - 1);
      WaitsSum(n - 1);
      SumSnoc(Waits(n - 1), Delay(n - 1));
      if n == 4 {
        FirstWaits();
      }
    }
  }

  lemma SumSnoc(s: seq<nat>, x: nat)
    ensures Sum(s + [x]) == Sum(s) + x
  {
    assert (s + [x])[..|s|] == s;
  }

  lemma FirstWaits()
    ensures Sum(Waits(4)) == 1500
  {
    DelayValue(0);
    DelayValue(1);
    DelayValue(2);
    DelayValue(3);
    SumSnoc(Waits(0), Delay(0));
    SumSnoc(Waits(1), Delay(1));
    SumSnoc(Waits(2), Delay(2));
    SumSnoc(Waits(3), Delay(3));
  }

  /** All the waiting there can be: 57.5 seconds, reached only if all sixty attempts fail. */
  lemma WaitingBounded(n: nat)
    requires n <= MaxAttempts
    ensures Sum(Waits(n)) <= 57_500 && (Sum(Waits(n)) == 57_500 <==> n == MaxAttempts)
  {
    WaitsSum(n);
  }

  /** `initialConnection`: `done(i)` says whether the context is seen cancelled before attempt
      `i`, `connects(i)` whether that attempt succeeds. At most sixty attempts are made, one
      wait after each failure. Without a connection there is
      an error, unless the context was cancelled before the first attempt: then it returns
      neither. */
  method InitialConnection(done: nat -> bool, connects: nat -> bool)
      returns (connected: bool, failed: bool, attempts: nat, waits: seq<nat>)
    ensures attempts <= MaxAttempts && |waits| == attempts - (if connected then 1 else 0)
    ensures waits == Waits(|waits|)
    ensures connected <==> attempts > 0 && connects(attempts - 1)
    ensures forall i :: 0 <= i < attempts ==> !done(i)
    ensures forall i :: 0 <= i < attempts - 1 ==> !connects(i)
    ensures !connected ==> attempts == MaxAttempts || done(attempts)
    ensures !connected && !failed <==> done(0)
    ensures !(connected && failed)
  {
    connected, failed, attempts, waits := false, false, 0, [];
    var backoff: nat := 100;
    var i: nat := 0;
    while i < MaxAttempts
      invariant i <= MaxAttempts && attempts == i == |waits| && !connected && backoff == Delay(i)
      invariant waits == Waits(i)
      invariant forall j :: 0 <= j < i ==> !done(j) && !connects(j)
      invariant failed <==> i > 0
    {
      if done(i) {
        break;
      }
      attempts := attempts + 1;
      if connects(i) {
        connected, failed := true, false;
        break;
      }
      failed := true;
      waits := waits + [backoff];
      backoff := BackOff(backoff);
      i := i + 1;
    }
  }

  /** A context cancelled beforehand: no connection, and no error to say so. */
  method CancelledBeforehand() returns (connected: bool, failed: bool)
    ensures !connected && !failed
  {
    var attempts, waits;
    connected, failed, attempts, waits := InitialConnection(_ => true, _ => true);
  }
}
