/**
 The UDP proxy: one goroutine reading the listener, one reply goroutine per client, and
 any number of `Close` calls, sharing the connection-tracking table.
 */
module UdpProxy {
  import opened Protocols

  // ----- Keys

  /** A client address as the socket reports it: an IP of 4 or 16 bytes, and a port. */
  datatype Addr = Addr(ip: Bytes, port: int)

  predicate WellFormed(a: Addr) {
    |a.ip| == 4 || |a.ip| == 16
  }

  datatype Key = Key(ipHigh: nat, ipLow: nat, port: int)

  function BigEndian(b: Bytes): nat {
    if b == [] then 0 else
      var low: int := b[|b| - 1];
      256 * BigEndian(b[..|b| - 1]) + low
  }

  function NewKey(a: Addr): Key
    requires WellFormed(a)
  {
    if |a.ip| == 4 then Key(0, BigEndian(a.ip), a.port)
    else Key(BigEndian(a.ip[..8]), BigEndian(a.ip[8..]), a.port)
  }

  function Pow256(n: nat): nat {
    if n == 0 then 1 else 256 * Pow256(n - 1)
  }

  lemma {:induction false} BigEndianBound(b: Bytes)
    ensures BigEndian(b) < Pow256(|b|)
  {
    if b != [] {
      BigEndianBound(b[..|b| - 1]);
    }
  }

  lemma {:induction false} BigEndianConcat(a: Bytes, b: Bytes)
    ensures BigEndian(a + b) == BigEndian(a) * Pow256(|b|) + BigEndian(b)
  {
    if b == [] {
      assert a + b == a;
    } else {
      var n := |b| - 1;
      assert (a + b)[..|a + b| - 1] == a + b[..n];
      BigEndianConcat(a, b[..n]);
      assert BigEndian(a) * (256 * Pow256(n)) == 256 * (BigEndian(a) * Pow256(n));
    }
  }

  lemma {:induction false} BigEndianInjective(a: Bytes, b: Bytes)
    requires |a| == |b| && BigEndian(a) == BigEndian(b)
    ensures a == b
  {
    if a != [] {
      var n := |a| - 1;
      assert a == a[..n] + [a[n]] && b == b[..n] + [b[n]];
      BigEndianInjective(a[..n], b[..n]);
    }
  }

  lemma EightBytes()
    ensures Pow256(4) <= WORD && Pow256(8) == WORD
  {
    assert Pow256(2) == 0x1_0000;
    assert Pow256(4) == 256 * (256 * Pow256(2)) == 0x1_0000_0000;
    assert Pow256(6) == 256 * (256 * Pow256(4)) == 0x1_0000_0000_0000;
    assert Pow256(8) == 256 * (256 * Pow256(6));
  }

  /** The two halves of a key spell the address's value as a 128-bit number. */
  lemma KeyValue(a: Addr)
    requires WellFormed(a)
    ensures NewKey(a).ipHigh * WORD + NewKey(a).ipLow == BigEndian(a.ip) && NewKey(a).ipLow < WORD
  {
    EightBytes();
    if |a.ip| == 4 {
      BigEndianBound(a.ip);
    } else {
      assert a.ip == a.ip[..8] + a.ip[8..];
      BigEndianConcat(a.ip[..8], a.ip[8..]);
      BigEndianBound(a.ip[8..]);
    }
  }

  /** Two clients share a tracking entry exactly when their ports are equal and their IPs,
      zero-extended to 128 bits, are the same number. */
  lemma KeysShared(a: Addr, b: Addr)
    requires WellFormed(a) && WellFormed(b)
    ensures NewKey(a) == NewKey(b) <==> a.port == b.port && BigEndian(a.ip) == BigEndian(b.ip)
  {
    KeyValue(a);
    KeyValue(b);
  }

  /** Addresses of the same family never share a key unless they are the same address. */
  lemma KeysInjective(a: Addr, b: Addr)
    requires WellFormed(a) && WellFormed(b) && |a.ip| == |b.ip|
    ensures NewKey(a) == NewKey(b) <==> a == b
  {
    KeysShared(a, b);
    if BigEndian(a.ip) == BigEndian(b.ip) {
      BigEndianInjective(a.ip, b.ip);
    }
  }

  // ----- The goroutines

  /** Backend connections are numbered in the order they are dialled; connection `c` has the
      reply goroutine `c`. */
  type ConnId = nat

  datatype RunPc =
    | Receiving
    | Received(from: Addr, data: Bytes)
    | Tracking(from: Addr, data: Bytes)
    | Forwarding(conn: ConnId, from: Addr, rest: Bytes)
    | Stopped

  datatype LoopPc =
    | Awaiting
    | Relaying(rest: Bytes)
    | Exiting
    | Cleaning
    | Hanging
    | Done

  datatype Loop = Loop(client: Addr, key: Key, pc: LoopPc)

  datatype ClosePc = WantSweep | Sweeping | Swept

  datatype Holder = Free | ByRun | ByLoop(c: ConnId) | ByCloser(k: nat)

  datatype Event =
    | ToBackend(conn: ConnId, from: Addr, bytes: Bytes)
    | ToClient(conn: ConnId, to: Addr, bytes: Bytes)

  /** `dialledAtClose` and `dialledAtSweep` are how many backends had been dialled when the
      listener was first closed and when a `Close` call first finished closing the table. */
  datatype State = State(
    table: map<Key, ConnId>,
    lock: Holder,
    listening: bool,
    run: RunPc,
    loops: seq<Loop>,
    closers: map<nat, ClosePc>,
    closed: set<ConnId>,
    dialledAtClose: nat,
    dialledAtSweep: int,
    log: seq<Event>)

  const InitState := State(map[], Free, true, Receiving, [], map[], {}, 0, -1, [])

  datatype Action =
    | Recv(from: Addr, data: Bytes)
    | RecvErr
    | RunLock
    | Track(dialOk: bool)
    | Forward(n: nat)
    | ForwardStop
    | Reply(c: ConnId, data: Bytes)
    | ReplyStop(c: ConnId)
    | Relay(c: ConnId, n: nat)
    | RelayStop(c: ConnId, ok: bool)
    | LoopLock(c: ConnId)
    | Untrack(c: ConnId)
    | HangUp(c: ConnId)
    | Close(k: nat)
    | CloseLock(k: nat)
    | Sweep(k: nat)

  predicate LoopAt(s: State, c: ConnId, pc: LoopPc) {
    c < |s.loops| && s.loops[c].pc == pc
  }

  /** Reads and writes on a closed listener or backend fail; anything else may happen. */
  predicate Enabled(s: State, a: Action) {
    match a
    case Recv(from, data) => s.run.Receiving? && s.listening && WellFormed(from)
    case RecvErr => s.run.Receiving?
    case RunLock => s.run.Received? && s.lock == Free
    case Track(_) => s.run.Tracking? && WellFormed(s.run.from)
    case Forward(n) => s.run.Forwarding? && n <= |s.run.rest| && s.run.rest != [] && s.run.conn !in s.closed
    case ForwardStop => s.run.Forwarding?
    case Reply(c, data) => LoopAt(s, c, Awaiting) && c !in s.closed
    case ReplyStop(c) => LoopAt(s, c, Awaiting)
    case Relay(c, n) => c < |s.loops| && s.loops[c].pc.Relaying? && s.loops[c].pc.rest != [] && n <= |s.loops[c].pc.rest| && s.listening
    case RelayStop(c, ok) => c < |s.loops| && s.loops[c].pc.Relaying? && (ok <==> s.loops[c].pc.rest == [])
    case LoopLock(c) => LoopAt(s, c, Exiting) && s.lock == Free
    case Untrack(c) => LoopAt(s, c, Cleaning)
    case HangUp(c) => LoopAt(s, c, Hanging)
    case Close(k) => k !in s.closers
    case CloseLock(k) => k in s.closers && s.closers[k] == WantSweep && s.lock == Free
    case Sweep(k) => k in s.closers && s.closers[k] == Sweeping
  }

  function SetPc(s: State, c: ConnId, pc: LoopPc): State
    requires c < |s.loops|
  {
    s.(loops := s.loops[c := s.loops[c].(pc := pc)])
  }

  /** The critical section of `Run`: find the client's backend, or dial one and start its
      reply goroutine. */
  function TrackStep(s: State, dialOk: bool): State
    requires s.run.Tracking? && WellFormed(s.run.from)
  {
    var k := NewKey(s.run.from);
    if k in s.table then
      s.(run := Forwarding(s.table[k], s.run.from, s.run.data), lock := Free)
    else if !dialOk then
      s.(run := Receiving, lock := Free)
    else
      s.(table := s.table[k := |s.loops|],
         loops := s.loops + [Loop(s.run.from, k, Awaiting)],
         run := Forwarding(|s.loops|, s.run.from, s.run.data),
         lock := Free)
  }

  function Do(s: State, a: Action): State
    requires Enabled(s, a)
  {
    match a
    case Recv(from, data) => s.(run := Received(from, data))
    case RecvErr => s.(run := Stopped)
    case RunLock => s.(run := Tracking(s.run.from, s.run.data), lock := ByRun)
    case Track(dialOk) => TrackStep(s, dialOk)
    case Forward(n) =>
      s.(run := s.run.(rest := s.run.rest[n..]), log := s.log + [ToBackend(s.run.conn, s.run.from, s.run.rest[..n])])
    case ForwardStop => s.(run := Receiving)
    case Reply(c, data) => SetPc(s, c, Relaying(data))
    case ReplyStop(c) => SetPc(s, c, Exiting)
    case Relay(c, n) =>
      SetPc(s, c, Relaying(s.loops[c].pc.rest[n..])).(
        log := s.log + [ToClient(c, s.loops[c].client, s.loops[c].pc.rest[..n])])
    case RelayStop(c, ok) => SetPc(s, c, if ok then Awaiting else Exiting)
    case LoopLock(c) => SetPc(s, c, Cleaning).(lock := ByLoop(c))
    case Untrack(c) => SetPc(s, c, Hanging).(table := s.table - {s.loops[c].key}, lock := Free)
    case HangUp(c) => SetPc(s, c, Done).(closed := s.closed + {c})
    case Close(k) =>
      s.(listening := false, closers := s.closers[k := WantSweep],
         dialledAtClose := if s.listening then |s.loops| else s.dialledAtClose)
    case CloseLock(k) => s.(closers := s.closers[k := Sweeping], lock := ByCloser(k))
    case Sweep(k) =>
      s.(closed := s.closed + s.table.Values, closers := s.closers[k := Swept], lock := Free,
         dialledAtSweep := if s.dialledAtSweep < 0 then |s.loops| else s.dialledAtSweep)
  }

  ghost predicate IsRun(run: seq<State>) {
    && run != [] && run[0] == InitState
    && forall i :: 0 <= i < |run| - 1 ==> StepAt(run, i)
  }

  ghost predicate Next(s: State, s': State) {
    exists a :: Enabled(s, a) && s' == Do(s, a)
  }

  ghost predicate StepAt(run: seq<State>, i: nat)
    requires i + 1 < |run|
  {
    Next(run[i], run[i + 1])
  }

  // ----- The invariant

  /** The reply goroutine has not removed its entry yet. */
  predicate Tracked(pc: LoopPc) {
    pc.Awaiting? || pc.Relaying? || pc.Exiting? || pc.Cleaning?
  }

  predicate TrackedFor(s: State, k: Key, c: ConnId) {
    c < |s.loops| && s.loops[c].key == k && Tracked(s.loops[c].pc)
  }

  predicate Entry(table: map<Key, ConnId>, k: Key, c: ConnId) {
    k in table && table[k] == c
  }

  /** The table and the running reply goroutines are in bijection. */
  ghost predicate Bijection(s: State) {
    forall k, c :: Entry(s.table, k, c) <==> TrackedFor(s, k, c)
  }

  predicate LoopOk(s: State, c: ConnId)
    requires c < |s.loops|
  {
    var l := s.loops[c];
    && WellFormed(l.client) && l.key == NewKey(l.client)
    && (l.pc.Cleaning? <==> s.lock == ByLoop(c))
    && (l.pc.Done? ==> c in s.closed)
  }

  predicate EventOk(s: State, e: Event) {
    match e
    case ToBackend(c, from, _) => c < |s.loops| && WellFormed(from) && NewKey(from) == s.loops[c].key
    case ToClient(c, to, _) => c < |s.loops| && to == s.loops[c].client
  }

  predicate RunOk(s: State) {
    && (s.run.Tracking? <==> s.lock == ByRun)
    && (s.run.Received? || s.run.Tracking? ==> WellFormed(s.run.from))
    && (s.run.Forwarding? ==> EventOk(s, ToBackend(s.run.conn, s.run.from, s.run.rest)))
  }

  predicate CloserOk(s: State, k: nat) {
    k in s.closers && s.closers[k].Sweeping? <==> s.lock == ByCloser(k)
  }

  /** Only an existing reply goroutine can hold the lock. */
  predicate HolderOk(s: State) {
    s.lock.ByLoop? ==> s.lock.c < |s.loops|
  }

  /** Once the listener is closed, only a datagram already received can still be dialled for. */
  predicate DialsOk(s: State) {
    && (s.listening ==> s.closers == map[])
    && (!s.listening ==>
          s.dialledAtClose <= |s.loops| <= s.dialledAtClose + if s.run.Received? || s.run.Tracking? then 0 else 1)
    && (s.dialledAtSweep >= 0 ==> !s.listening && s.dialledAtClose <= s.dialledAtSweep <= |s.loops|)
  }

  predicate SweptOk(s: State, c: ConnId)
    requires c < |s.loops|
  {
    c in s.closed || s.loops[c].pc.Hanging?
  }

  ghost predicate Inv(s: State) {
    && Bijection(s)
    && (forall c :: 0 <= c < |s.loops| ==> LoopOk(s, c))
    && RunOk(s)
    && HolderOk(s)
    && (forall k :: CloserOk(s, k))
    && DialsOk(s)
    && (forall c :: 0 <= c < |s.loops| && c < s.dialledAtSweep ==> SweptOk(s, c))
    && (forall i :: 0 <= i < |s.log| ==> EventOk(s, s.log[i]))
  }
}
