/** What the UDP proxy guarantees in every state of every run. */
module UdpSafety {
  import opened Protocols
  import opened UdpProxy

  // ----- One step

  lemma StepBijection(s: State, a: Action)
    requires Inv(s) && Enabled(s, a)
    ensures Bijection(Do(s, a))
  {
    var s' := Do(s, a);
    forall k, c
      ensures Entry(s'.table, k, c) <==> TrackedFor(s', k, c)
    {
      assert Entry(s.table, k, c) <==> TrackedFor(s, k, c);
      if a.Untrack? {
        OnlyEntry(s, a.c, k, c);
      } else if a.Track? {
        var key := NewKey(s.run.from);
        assert key !in s.table ==> !Entry(s.table, key, c);
      }
    }
  }

  /** The key of a running reply goroutine is nobody else's. */
  lemma OnlyEntry(s: State, own: ConnId, k: Key, c: ConnId)
    requires Bijection(s) && own < |s.loops| && Tracked(s.loops[own].pc)
    ensures Entry(s.table, s.loops[own].key, own)
    ensures TrackedFor(s, k, c) && k == s.loops[own].key ==> c == own
  {
    assert Entry(s.table, s.loops[own].key, own) <==> TrackedFor(s, s.loops[own].key, own);
    assert Entry(s.table, k, c) <==> TrackedFor(s, k, c);
  }

  /** Clients and keys of existing backends never change; backends are only added. */
  lemma StepKeeps(s: State, a: Action)
    requires Enabled(s, a)
    ensures var s' := Do(s, a);
            && |s.loops| <= |s'.loops|
            && (forall c :: 0 <= c < |s.loops| ==> s'.loops[c].client == s.loops[c].client && s'.loops[c].key == s.loops[c].key)
            && s.closed <= s'.closed
  {
  }

  lemma StepLoop(s: State, a: Action, c: ConnId)
    requires Inv(s) && Enabled(s, a) && c < |Do(s, a).loops|
    ensures LoopOk(Do(s, a), c)
  {
    StepKeeps(s, a);
    if c < |s.loops| {
      assert LoopOk(s, c);
    }
    assert a.Untrack? ==> LoopOk(s, a.c);
    assert a.Sweep? ==> CloserOk(s, a.k);
  }

  lemma StepRun(s: State, a: Action)
    requires Inv(s) && Enabled(s, a)
    ensures RunOk(Do(s, a))
  {
    StepKeeps(s, a);
    assert a.Untrack? ==> LoopOk(s, a.c);
    assert a.Sweep? ==> CloserOk(s, a.k);
    if a.Track? {
      var key := NewKey(s.run.from);
      if key in s.table {
        assert Entry(s.table, key, s.table[key]) <==> TrackedFor(s, key, s.table[key]);
      }
    }
  }

  lemma StepCloser(s: State, a: Action, k: nat)
    requires Inv(s) && Enabled(s, a)
    ensures CloserOk(Do(s, a), k)
  {
    assert CloserOk(s, k);
    assert a.Untrack? ==> LoopOk(s, a.c);
    assert a.Sweep? ==> CloserOk(s, a.k);
  }

  lemma StepDials(s: State, a: Action)
    requires Inv(s) && Enabled(s, a)
    ensures DialsOk(Do(s, a))
  {
    assert a.Sweep? ==> CloserOk(s, a.k);
  }

  lemma StepEvents(s: State, a: Action, i: nat)
    requires Inv(s) && Enabled(s, a) && i < |Do(s, a).log|
    ensures EventOk(Do(s, a), Do(s, a).log[i])
  {
    StepKeeps(s, a);
    if i < |s.log| {
      assert EventOk(s, s.log[i]);
    }
  }

  lemma StepSwept(s: State, a: Action, c: ConnId)
    requires Inv(s) && Enabled(s, a) && c < |Do(s, a).loops| && c < Do(s, a).dialledAtSweep
    ensures SweptOk(Do(s, a), c)
  {
    StepKeeps(s, a);
    if c < s.dialledAtSweep {
      assert SweptOk(s, c);
      assert LoopOk(s, c);
    } else {
      assert LoopOk(s, c);
      var key := s.loops[c].key;
      assert Entry(s.table, key, c) <==> TrackedFor(s, key, c);
      assert Tracked(s.loops[c].pc) ==> c in s.table.Values;
    }
  }

  lemma StepInv(s: State, a: Action)
    requires Inv(s) && Enabled(s, a)
    ensures Inv(Do(s, a))
  {
    var s' := Do(s, a);
    StepBijection(s, a);
    StepRun(s, a);
    StepDials(s, a);
    forall c | 0 <= c < |s'.loops|
      ensures LoopOk(s', c) && (c < s'.dialledAtSweep ==> SweptOk(s', c))
    {
      StepLoop(s, a, c);
      if c < s'.dialledAtSweep {
        StepSwept(s, a, c);
      }
    }
    forall k
      ensures CloserOk(s', k)
    {
      StepCloser(s, a, k);
    }
    forall i | 0 <= i < |s'.log|
      ensures EventOk(s', s'.log[i])
    {
      StepEvents(s, a, i);
    }
  }

  /** Every state of every run satisfies the invariant. */
  lemma {:induction false} RunInv(run: seq<State>, i: nat)
    requires IsRun(run) && i < |run|
    ensures Inv(run[i])
  {
    if i > 0 {
      RunInv(run, i - 1);
      assert StepAt(run, i - 1);
      var a :| Enabled(run[i - 1], a) && run[i] == Do(run[i - 1], a);
      StepInv(run[i - 1], a);
    }
  }

  // ----- Tracking

  /** A client key has an entry exactly while the reply goroutine of that backend has not
      removed it, and no key has two such goroutines. */
  lemma TableMatchesGoroutines(run: seq<State>, i: nat, k: Key, c: ConnId, d: ConnId)
    requires IsRun(run) && i < |run|
    ensures k in run[i].table && run[i].table[k] == c <==> TrackedFor(run[i], k, c)
    ensures TrackedFor(run[i], k, c) && TrackedFor(run[i], k, d) ==> c == d
  {
    RunInv(run, i);
    assert Entry(run[i].table, k, c) <==> TrackedFor(run[i], k, c);
    assert Entry(run[i].table, k, d) <==> TrackedFor(run[i], k, d);
  }

  /** A reply goroutine's cleanup removes its own entry and no other. */
  lemma CleanupRemovesOwnEntry(run: seq<State>, i: nat, c: ConnId)
    requires IsRun(run) && i < |run| && Enabled(run[i], Untrack(c))
    ensures var s, s', own := run[i], Do(run[i], Untrack(c)), run[i].loops[c].key;
            && own in s.table && s.table[own] == c && s'.table.Keys == s.table.Keys - {own}
            && forall k :: k in s'.table ==> s'.table[k] == s.table[k]
  {
    RunInv(run, i);
    OnlyEntry(run[i], c, run[i].loops[c].key, c);
  }

  // ----- Isolation

  /** Datagrams reach only the backend dialled for their client's key, and what a backend
      answers goes only to the client it was dialled for. */
  lemma BackendsServeOneClient(run: seq<State>, i: nat, e: Event)
    requires IsRun(run) && i < |run| && e in run[i].log
    ensures e.conn < |run[i].loops|
    ensures var client := run[i].loops[e.conn].client;
            && WellFormed(client)
            && (e.ToBackend? ==> WellFormed(e.from) && NewKey(e.from) == NewKey(client))
            && (e.ToClient? ==> e.to == client)
  {
    RunInv(run, i);
    var j :| 0 <= j < |run[i].log| && run[i].log[j] == e;
    assert EventOk(run[i], run[i].log[j]);
    assert LoopOk(run[i], e.conn);
  }

  /** Nobody receives another client's replies: if a backend got data from one address and
      its answers went to another, the two have the same port and the same IP value, and
      are equal if they are of the same family. */
  lemma RepliesReturnToSender(run: seq<State>, i: nat, e: Event, r: Event)
    requires IsRun(run) && i < |run| && e in run[i].log && r in run[i].log
    requires e.ToBackend? && r.ToClient? && e.conn == r.conn
    ensures e.from.port == r.to.port && BigEndian(e.from.ip) == BigEndian(r.to.ip)
    ensures |e.from.ip| == |r.to.ip| ==> e.from == r.to
  {
    BackendsServeOneClient(run, i, e);
    BackendsServeOneClient(run, i, r);
    KeysShared(e.from, r.to);
    if |e.from.ip| == |r.to.ip| {
      KeysInjective(e.from, r.to);
    }
  }

  // ----- Closing

  function Last(run: seq<State>): State
    requires run != []
  {
    run[|run| - 1]
  }

  /** The lock's holder leaves its critical section. */
  function HolderMove(s: State): Action
    requires s.lock != Free
  {
    match s.lock
    case ByRun => Track(false)
    case ByLoop(c) => Untrack(c)
    case ByCloser(k) => Sweep(k)
  }

  lemma HolderCanMove(s: State)
    requires Inv(s) && s.lock != Free
    ensures Enabled(s, HolderMove(s))
    ensures var s' := Do(s, HolderMove(s));
            && s'.lock == Free && s'.table.Keys <= s.table.Keys && |s'.loops| == |s.loops|
            && (s.run.Received? ==> s'.run == s.run)
            && forall c :: 0 <= c < |s.loops| && s.lock != ByLoop(c) ==> s'.loops[c] == s.loops[c]
  {
    match s.lock
    case ByLoop(c) => assert LoopOk(s, c);
    case ByCloser(k) => assert CloserOk(s, k);
    case _ =>
  }

  /** The next move on the way to closing backend `c`: one of its reply goroutine, whose read
      or write may fail at any moment, or of whoever holds the lock it needs. */
  function Toward(s: State, c: ConnId): Action
    requires c < |s.loops|
  {
    match s.loops[c].pc
    case Awaiting => ReplyStop(c)
    case Relaying(rest) => RelayStop(c, rest == [])
    case Exiting => if s.lock == Free then LoopLock(c) else HolderMove(s)
    case Cleaning => Untrack(c)
    case _ => HangUp(c)
  }

  function MovesLeft(s: State, c: ConnId): nat
    requires c < |s.loops|
  {
    match s.loops[c].pc
    case Relaying(_) => 6
    case Awaiting => 5
    case Exiting => if s.lock == Free then 3 else 4
    case Cleaning => 2
    case Hanging => 1
    case Done => 0
  }

  lemma TowardCloser(s: State, c: ConnId)
    requires Inv(s) && c < |s.loops| && !s.loops[c].pc.Done?
    ensures Enabled(s, Toward(s, c))
    ensures c < |Do(s, Toward(s, c)).loops| && MovesLeft(Do(s, Toward(s, c)), c) < MovesLeft(s, c)
  {
    assert LoopOk(s, c);
    if s.loops[c].pc.Exiting? && s.lock != Free {
      HolderCanMove(s);
    } else {
      OwnMoveCloser(s, c);
    }
  }

  lemma OwnMoveCloser(s: State, c: ConnId)
    requires c < |s.loops| && !s.loops[c].pc.Done? && (s.loops[c].pc.Exiting? ==> s.lock == Free)
    ensures Enabled(s, Toward(s, c))
    ensures c < |Do(s, Toward(s, c)).loops| && MovesLeft(Do(s, Toward(s, c)), c) < MovesLeft(s, c)
  {
  }

  /** From state `from` on the run makes only the moves of backend `c`'s reply goroutine and of
      the holder of the lock. */
  ghost predicate OnlyToward(run: seq<State>, from: nat, c: ConnId) {
    forall i :: from <= i < |run| - 1 ==> TowardStep(run[i], run[i + 1], c)
  }

  predicate TowardStep(s: State, s': State, c: ConnId) {
    c < |s.loops| && Enabled(s, Toward(s, c)) && s' == Do(s, Toward(s, c))
  }

  /** No backend leaks: every run goes on, by at most six moves of the backend's own reply
      goroutine and of the lock's holder, to one in which the backend is closed. */
  lemma {:induction false} OpenBackendsGetClosed(run: seq<State>, c: ConnId) returns (run': seq<State>)
    requires IsRun(run) && c < |Last(run).loops|
    ensures IsRun(run') && run <= run' && |run'| <= |run| + MovesLeft(Last(run), c) <= |run| + 6
    ensures OnlyToward(run', |run| - 1, c) && c in Last(run').closed
    decreases MovesLeft(Last(run), c)
  {
    var s := Last(run);
    RunInv(run, |run| - 1);
    assert LoopOk(s, c);
    if s.loops[c].pc.Done? {
      run' := run;
    } else {
      TowardCloser(s, c);
      var next := Extend(run, Toward(s, c));
      run' := OpenBackendsGetClosed(next, c);
      assert run'[..|run|] == next[..|run|] == run;
      forall i | |run| - 1 <= i < |run'| - 1
        ensures TowardStep(run'[i], run'[i + 1], c)
      {
        if i == |run| - 1 {
          assert run'[i] == s && run'[i + 1] == next[i + 1];
        }
      }
    }
  }

  /** After the listener is closed at most one more backend is dialled, and once a `Close`
      call has gone through the table every backend dialled before that is closed or is being
      closed by its own goroutine. */
  lemma CloseStopsTheProxy(run: seq<State>, i: nat)
    requires IsRun(run) && i < |run| && !run[i].listening
    ensures run[i].dialledAtClose <= |run[i].loops| <= run[i].dialledAtClose + 1
    ensures run[i].dialledAtSweep >= 0 ==> |run[i].loops| <= run[i].dialledAtSweep + 1
    ensures forall c :: 0 <= c < run[i].dialledAtSweep && c < |run[i].loops| && c !in run[i].closed ==> run[i].loops[c].pc.Hanging?
  {
    RunInv(run, i);
    forall c | 0 <= c < run[i].dialledAtSweep && c < |run[i].loops| && c !in run[i].closed
      ensures run[i].loops[c].pc.Hanging?
    {
      assert SweptOk(run[i], c);
    }
  }

  lemma Extend(run: seq<State>, a: Action) returns (run': seq<State>)
    requires IsRun(run) && Enabled(run[|run| - 1], a)
    ensures IsRun(run') && run <= run' && |run'| == |run| + 1 && run'[|run'| - 1] == Do(run[|run| - 1], a)
  {
    run' := run + [Do(run[|run| - 1], a)];
    assert Next(run[|run| - 1], Do(run[|run| - 1], a));
    forall i | 0 <= i < |run'| - 1
      ensures StepAt(run', i)
    {
      if i < |run| - 1 {
        assert StepAt(run, i);
      }
    }
  }

  /** That one more backend is real: a datagram read just before `Close` is still dialled for
      after `Close` has returned, and its backend stays open. */
  lemma BackendDialledAfterClose(from: Addr, data: Bytes) returns (run: seq<State>)
    requires WellFormed(from)
    ensures IsRun(run)
    ensures var s := run[|run| - 1];
            s.closers == map[0 := Swept] && |s.loops| == 1 && 0 !in s.closed && s.loops[0].pc.Awaiting?
  {
    run := [InitState];
    run := Extend(run, Recv(from, data));
    run := Extend(run, Close(0));
    run := Extend(run, CloseLock(0));
    run := Extend(run, Sweep(0));
    run := Extend(run, RunLock);
    run := Extend(run, Track(true));
  }

  /** A datagram that still makes `Run` dial: one received and not yet looked up, or one being
      looked up whose client has no backend. */
  predicate CanDial(s: State) {
    || s.run.Received?
    || (s.run.Tracking? && WellFormed(s.run.from) && NewKey(s.run.from) !in s.table)
  }

  /** Nothing will be dialled any more. */
  predicate Settled(s: State) {
    !s.listening && !CanDial(s)
  }

  lemma StepSettled(s: State, a: Action)
    requires Enabled(s, a) && Settled(s) && RunOk(s) && (a.Untrack? && a.c < |s.loops| ==> LoopOk(s, a.c))
    ensures Settled(Do(s, a)) && |Do(s, a).loops| == |s.loops|
  {
  }

  lemma StaysSettled(run: seq<State>, i: nat)
    requires IsRun(run) && i + 1 < |run| && Settled(run[i])
    ensures Settled(run[i + 1]) && |run[i + 1].loops| == |run[i].loops|
  {
    RunInv(run, i);
    assert StepAt(run, i);
    var a :| Enabled(run[i], a) && run[i + 1] == Do(run[i], a);
    StepSettled(run[i], a);
  }

  /** With the listener closed and no such datagram in hand, nothing is dialled ever again. */
  lemma {:induction false} NoDialAgain(run: seq<State>, i: nat, j: nat)
    requires IsRun(run) && i <= j < |run| && Settled(run[i])
    ensures Settled(run[j]) && |run[j].loops| == |run[i].loops|
    decreases j
  {
    if i < j {
      NoDialAgain(run, i, j - 1);
      StaysSettled(run, j - 1);
    }
  }

  /** The next move on the way to dialling for the datagram in hand: a backend of its client
      is first let go. */
  function TowardDial(s: State): Action
    requires CanDial(s) && WellFormed(s.run.from)
    requires forall k :: k in s.table ==> s.table[k] < |s.loops|
  {
    if s.run.Tracking? then Track(true)
    else if NewKey(s.run.from) in s.table then Toward(s, s.table[NewKey(s.run.from)])
    else if s.lock == Free then RunLock
    else HolderMove(s)
  }

  function MovesToDial(s: State): nat
    requires CanDial(s) && WellFormed(s.run.from)
    requires forall k :: k in s.table ==> s.table[k] < |s.loops|
  {
    if s.run.Tracking? then 0
    else if NewKey(s.run.from) in s.table then 2 + MovesLeft(s, s.table[NewKey(s.run.from)])
    else if s.lock == Free then 1
    else 2
  }

  ghost predicate Ready(s: State) {
    CanDial(s) && WellFormed(s.run.from) && forall k :: k in s.table ==> s.table[k] < |s.loops|
  }

  lemma DialReady(s: State)
    requires Inv(s) && CanDial(s)
    ensures Ready(s)
  {
    forall k | k in s.table
      ensures s.table[k] < |s.loops|
    {
      assert Entry(s.table, k, s.table[k]) <==> TrackedFor(s, k, s.table[k]);
    }
  }

  lemma DialCloser(s: State)
    requires Inv(s) && Ready(s)
    ensures Enabled(s, TowardDial(s))
    ensures var s' := Do(s, TowardDial(s));
            if s.run.Tracking? then |s'.loops| == |s.loops| + 1
            else |s'.loops| == |s.loops| && CanDial(s') && (Ready(s') ==> MovesToDial(s') < MovesToDial(s))
  {
    var key := NewKey(s.run.from);
    if s.lock != Free {
      HolderCanMove(s);
    }
    if s.run.Received? && key in s.table {
      var c := s.table[key];
      assert Entry(s.table, key, c) <==> TrackedFor(s, key, c);
      TowardCloser(s, c);
    }
  }

  lemma {:induction false} DialAgain(run: seq<State>) returns (run': seq<State>)
    requires IsRun(run) && CanDial(Last(run)) && Ready(Last(run))
    ensures IsRun(run') && run <= run' && |Last(run').loops| == |Last(run).loops| + 1
    decreases MovesToDial(Last(run))
  {
    var s := Last(run);
    RunInv(run, |run| - 1);
    DialCloser(s);
    run' := Extend(run, TowardDial(s));
    if s.run.Received? {
      RunInv(run', |run'| - 1);
      DialReady(Last(run'));
      run' := DialAgain(run');
    }
  }

  ghost predicate DialsLater(run: seq<State>) {
    exists run' :: MoreDialled(run, run')
  }

  ghost predicate MoreDialled(run: seq<State>, run': seq<State>) {
    IsRun(run') && run != [] && run <= run' && |Last(run').loops| > |Last(run).loops|
  }

  /** After the listener is closed, another backend can still be dialled exactly when `Run` has
      such a datagram in hand. */
  lemma DialsAfterCloseExactly(run: seq<State>)
    requires IsRun(run) && !Last(run).listening
    ensures DialsLater(run) <==> CanDial(Last(run))
  {
    if CanDial(Last(run)) {
      RunInv(run, |run| - 1);
      DialReady(Last(run));
      var run' := DialAgain(run);
      assert MoreDialled(run, run');
    } else {
      forall run' | IsRun(run') && run <= run'
        ensures !MoreDialled(run, run')
      {
        NoDialAgain(run', |run| - 1, |run'| - 1);
      }
    }
  }

  // ----- The copying loops

  /** The loop that hands one datagram to a socket: each call accepts some bytes or, when
      `accepts` runs out, fails. What went out is a prefix of the datagram, and all of it
      unless a call failed. */
  method CopyOut(data: Bytes, accepts: seq<nat>) returns (written: seq<Bytes>, ok: bool)
    ensures Flatten(written) <= data
    ensures ok ==> Flatten(written) == data
    ensures |written| <= |accepts| && (!ok ==> |written| == |accepts|)
  {
    var i := 0;
    written := [];
    while i != |data|
      invariant 0 <= i <= |data| && |written| <= |accepts|
      invariant Flatten(written) == data[..i]
      decreases |accepts| - |written|
    {
      if |written| == |accepts| {
        return written, false;
      }
      var n := if accepts[|written|] <= |data| - i then accepts[|written|] else |data| - i;
      FlattenConcat(written, [data[i..i + n]]);
      assert Flatten([data[i..i + n]]) == data[i..i + n] + Flatten([data[i..i + n]][1..]);
      assert data[..i + n] == data[..i] + data[i..i + n];
      written := written + [data[i..i + n]];
      i := i + n;
    }
    ok := true;
  }

  // ----- The critical sections

  /** The proxy's own fields and the code it runs on them while holding its lock. */
  class Proxy {
    var table: map<Key, ConnId>
    var dialled: nat
    ghost var closed: set<ConnId>

    constructor ()
      ensures table == map[] && dialled == 0 && closed == {}
    {
      table, dialled, closed := map[], 0, {};
    }

    /** `Run`, between lock and unlock: a known client keeps its backend, a new one gets a fresh
        one, and a failed dial changes nothing. The step of the interleaving model does the
        same to every state with this table. */
    method Track(from: Addr, dialOk: bool) returns (ok: bool, conn: ConnId)
      requires WellFormed(from)
      modifies this
      ensures closed == old(closed)
      ensures ok <==> NewKey(from) in old(table) || dialOk
      ensures ok ==> NewKey(from) in table && conn == table[NewKey(from)]
      ensures table == if NewKey(from) in old(table) || !dialOk then old(table) else old(table)[NewKey(from) := old(dialled)]
      ensures forall s: State :: s.table == old(table) && |s.loops| == old(dialled) && s.run.Tracking? && s.run.from == from ==>
                var s' := TrackStep(s, dialOk);
                && s'.table == table && |s'.loops| == dialled
                && s'.run == if ok then Forwarding(conn, from, s.run.data) else Receiving
    {
      var k := NewKey(from);
      if k in table {
        return true, table[k];
      }
      if !dialOk {
        return false, 0;
      }
      conn, ok := dialled, true;
      dialled := dialled + 1;
      table := table[k := conn];
    }

    /** `Close`, after the listener: every backend in the table is closed, in any order. */
    method CloseAll()
      modifies this
      ensures table == old(table) && dialled == old(dialled)
      ensures closed == old(closed) + table.Values
    {
      var todo := table.Keys;
      while todo != {}
        invariant table == old(table) && dialled == old(dialled) && todo <= table.Keys
        invariant closed == old(closed) + (set k | k in table && k !in todo :: table[k])
        decreases todo
      {
        var k :| k in todo;
        todo := todo - {k};
        closed := closed + {table[k]};
      }
    }
  }
}
