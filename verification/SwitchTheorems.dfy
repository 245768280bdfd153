/** What the switch guarantees in every state of every run. */
module SwitchTheorems {
  import opened Protocols
  import opened SwitchState
  import opened SwitchRuns
  import opened SwitchSafety

  // ----- History only grows

  ghost predicate Grows(sh: Shared, sh': Shared) {
    && sh.log <= sh'.log
    && |sh.sockets| <= |sh'.sockets|
    && forall id :: 0 <= id < |sh.sockets| ==> sh'.sockets[id].acceptor == sh.sockets[id].acceptor
  }

  lemma StepGrows(s: State, t: Tid, a: Action)
    requires Enabled(s, t, a)
    ensures Grows(s.sh, Do(s, t, a).sh)
  {
    if !a.Spawn? && !a.Acquire? {
      MoveFrame(s.sh, t, s.threads[t], a);
    }
  }

  lemma {:induction false} RunGrows(run: seq<State>, i: nat, j: nat)
    requires IsRun(run) && i <= j < |run|
    ensures Grows(run[i].sh, run[j].sh)
    decreases j
  {
    if i < j {
      RunGrows(run, i, j - 1);
      assert StepAt(run, j - 1);
      var t, a :| Enabled(run[j - 1], t, a) && run[j] == Do(run[j - 1], t, a);
      StepGrows(run[j - 1], t, a);
    }
  }

  /** The step of the run that logged an event. */
  lemma {:induction false} EventStep(run: seq<State>, i: nat, j: nat) returns (n: nat, t: Tid, a: Action)
    requires IsRun(run) && i < |run| && j < |run[i].sh.log|
    ensures n < i && Enabled(run[n], t, a) && run[n + 1] == Do(run[n], t, a) && !a.Spawn? && !a.Acquire?
    ensures run[n].sh.log == run[i].sh.log[..j] && run[n + 1].sh.log == run[n].sh.log + [run[i].sh.log[j]]
    decreases i
  {
    assert i > 0;
    RunGrows(run, i - 1, i);
    var log, before := run[i].sh.log, run[i - 1].sh.log;
    if j < |before| {
      n, t, a := EventStep(run, i - 1, j);
      assert before[..j] == log[..j] && before[j] == log[j];
    } else {
      n := i - 1;
      assert StepAt(run, n);
      t, a :| Enabled(run[n], t, a) && run[n + 1] == Do(run[n], t, a);
      assert !a.Spawn? && !a.Acquire?;
      MoveFrame(run[n].sh, t, run[n].threads[t], a);
      assert log[..j] == before && log == before + [log[j]];
    }
  }

  /** Which position of a goroutine an event comes from. */
  lemma Emitted(sh: Shared, t: Tid, pc: Pc, a: Action, e: Event)
    requires Fits(sh, pc, a) && MoveOf(sh, t, pc, a).sh.log == sh.log + [e]
    ensures e.Connected? ==> e.id == sh.nextConnID
    ensures e.Learned? ==> pc.Learning? && pc.id == e.id
    ensures e.Processed? ==> pc == Counting(e.id, e.frame)
    ensures e.Wrote? ==> pc.Sending? && a == WriteOk(e.id) && pc.frame == e.frame
    ensures e.Panicked? ==> pc.Lookup? && LookupMove(sh, pc.frame, pc.task).sh.log == sh.log + [Panicked]
    ensures e.Dropped? || e.Closed? ==> MoveOf(sh, t, pc, a).sh == Disconnect(sh, e.id, e)
  {
    var log' := MoveOf(sh, t, pc, a).sh.log;
    assert log'[|sh.log|] == e;
  }

  // ----- Connections and addresses

  predicate InTables(sh: Shared, id: ConnId) {
    id in sh.conns || id in sh.cam.Values
  }

  /** Every id in either table was issued, and its receive loop has not finished. */
  lemma TablesHoldRunningConnections(run: seq<State>, i: nat, id: ConnId)
    requires IsRun(run) && i < |run| && InTables(run[i].sh, id)
    ensures var s := run[i];
            && id < s.sh.nextConnID == |s.sh.sockets|
            && s.sh.sockets[id].acceptor in s.threads
            && OwnerOf(s.threads[s.sh.sockets[id].acceptor]) == Loop(id)
            && !s.threads[s.sh.sockets[id].acceptor].Finished?
  {
    var s := run[i];
    RunInv(run, i);
    if id !in s.sh.conns {
      var x :| x in s.sh.cam && s.sh.cam[x] == id;
      assert CamIdOk(s.sh, id);
    }
    assert LoopOk(s, id);
  }

  /** Once a connection's deferred disconnect has run, its id is in neither table, then or
      at any later point of the run. */
  lemma ClosedForGood(run: seq<State>, i: nat, j: nat, id: ConnId)
    requires IsRun(run) && i <= j < |run| && Closed(id) in run[i].sh.log
    ensures !InTables(run[j].sh, id)
  {
    RunGrows(run, i, j);
    RunInv(run, j);
    forall x | x in run[j].sh.cam
      ensures run[j].sh.cam[x] != id
    {
      assert CamIdOk(run[j].sh, run[j].sh.cam[x]);
    }
  }

  /** The address table is determined by the history: an address maps to a connection exactly
      when the last frame with that source came from it and it was not disconnected since. */
  lemma AddressTableIsHistory(run: seq<State>, i: nat, x: Mac, id: ConnId)
    requires IsRun(run) && i < |run|
    ensures x in run[i].sh.cam && run[i].sh.cam[x] == id <==> LastLearned(run[i].sh.log, x, id)
  {
    RunInv(run, i);
    assert Maps(run[i].sh.cam, x, id) <==> LastLearned(run[i].sh.log, x, id);
  }

  /** The connection table holds the ids issued and not yet disconnected, nothing else. */
  lemma ConnectionTableIsHistory(run: seq<State>, i: nat, id: ConnId)
    requires IsRun(run) && i < |run|
    ensures id in run[i].sh.conns <==> id < run[i].sh.nextConnID && !Gone(run[i].sh.log, id)
  {
    RunInv(run, i);
  }

  /** No id is given to two connections. */
  lemma IdsIssuedOnce(run: seq<State>, i: nat, j: nat, k: nat)
    requires IsRun(run) && i < |run| && j < k < |run[i].sh.log|
    requires run[i].sh.log[j].Connected? && run[i].sh.log[k].Connected?
    ensures run[i].sh.log[j].id < run[i].sh.log[k].id
  {
    var n, t, a := EventStep(run, i, k);
    RunInv(run, n);
    Emitted(run[n].sh, t, run[n].threads[t], a, run[i].sh.log[k]);
    assert run[n].sh.log[j] == run[i].sh.log[j];
  }

  /** A disconnect, also a second one for the same id, takes away that connection and its
      addresses; no other connection and no address of another is touched. */
  lemma DisconnectTouchesOnlyItsId(run: seq<State>, i: nat, id: ConnId, e: Event, other: ConnId)
    requires IsRun(run) && i + 1 < |run| && Removes(e, id) && run[i + 1].sh.log == run[i].sh.log + [e]
    ensures !InTables(run[i + 1].sh, id)
    ensures other != id ==> SameEntries(run[i].sh, run[i + 1].sh, other)
    ensures Gone(run[i].sh.log, id) ==> run[i + 1].sh.conns == run[i].sh.conns
  {
    ConnectionTableIsHistory(run, i, id);
    DisconnectStep(run, i, id, e);
  }

  /** The connection and the addresses learned from it are in the tables as before. */
  ghost predicate SameEntries(sh: Shared, sh': Shared, id: ConnId) {
    && (id in sh'.conns <==> id in sh.conns) && (id in sh.conns ==> sh'.conns[id] == sh.conns[id])
    && forall a :: Maps(sh'.cam, a, id) <==> Maps(sh.cam, a, id)
  }

  lemma DisconnectStep(run: seq<State>, i: nat, id: ConnId, e: Event)
    requires IsRun(run) && i + 1 < |run| && Removes(e, id) && run[i + 1].sh.log == run[i].sh.log + [e]
    ensures run[i + 1].sh == Disconnect(run[i].sh, id, e)
  {
    var s := run[i];
    assert StepAt(run, i);
    var t, a :| Enabled(s, t, a) && run[i + 1] == Do(s, t, a);
    assert |run[i + 1].sh.log| == |s.sh.log| + 1;
    Emitted(s.sh, t, s.threads[t], a, e);
  }

  predicate WriteEverFailed(log: seq<Event>) {
    exists i :: 0 <= i < |log| && log[i].WriteFailed?
  }

  lemma DoomedIsFailure(log: seq<Event>, id: ConnId)
    requires Doomed(log, id)
    ensures WriteEverFailed(log)
  {
  }

  /** An address can lead out of the connection table only to a connection that a failed
      write dropped and whose own receive loop still runs; without failed writes it cannot. */
  lemma AddressesLeadToConnections(run: seq<State>, i: nat, x: Mac)
    requires IsRun(run) && i < |run| && x in run[i].sh.cam && run[i].sh.cam[x] !in run[i].sh.conns
    ensures var s, id := run[i], run[i].sh.cam[x];
            && Dropped(id) in s.sh.log && Doomed(s.sh.log, id) && WriteEverFailed(s.sh.log)
            && id < |s.sh.sockets| && s.sh.sockets[id].acceptor in s.threads
            && OwnerOf(s.threads[s.sh.sockets[id].acceptor]) == Loop(id)
            && !s.threads[s.sh.sockets[id].acceptor].Finished?
  {
    RunInv(run, i);
    var id := StrayAddress(run[i], x);
    DoomedIsFailure(run[i].sh.log, id);
  }

  // ----- The nil connection

  /** An address leads out of the connection table: its last frame came from a connection
      that a failed write had dropped before. */
  predicate StrayIn(log: seq<Event>, x: Mac, id: ConnId) {
    LastLearned(log, x, id) && Dropped(id) in log
  }

  lemma StrayIsHistory(run: seq<State>, i: nat, x: Mac)
    requires IsRun(run) && i < |run|
    ensures x in run[i].sh.cam && run[i].sh.cam[x] !in run[i].sh.conns <==> exists id :: StrayIn(run[i].sh.log, x, id)
  {
    var sh := run[i].sh;
    if x in sh.cam {
      AddressTableIsHistory(run, i, x, sh.cam[x]);
      ConnectionTableIsHistory(run, i, sh.cam[x]);
      if sh.cam[x] !in sh.conns {
        AddressesLeadToConnections(run, i, x);
        assert StrayIn(sh.log, x, sh.cam[x]);
      }
    }
    if id :| StrayIn(sh.log, x, id) {
      AddressTableIsHistory(run, i, x, id);
      ConnectionTableIsHistory(run, i, id);
    }
  }

  /** In every run the lookup of `txPkt` panics exactly on a unicast frame whose destination
      was last used by a connection dropped before that by a failed write. */
  lemma PanicsExactlyOnStrayAddress(run: seq<State>, i: nat, t: Tid)
    requires IsRun(run) && i < |run| && t in run[i].threads && run[i].threads[t].Lookup?
    ensures var s, f := run[i], run[i].threads[t].frame;
            && Enabled(s, t, Go)
            && (Do(s, t, Go).sh.log == s.sh.log + [Panicked] <==>
                Dst(f) != BROADCAST && exists id :: StrayIn(s.sh.log, Dst(f), id))
  {
    var sh := run[i].sh;
    StrayIsHistory(run, i, Dst(run[i].threads[t].frame));
    assert |sh.log + [Panicked]| == |sh.log| + 1;
  }

  /** And whatever panicked did so on such an address. */
  lemma EveryPanicHasAStrayAddress(run: seq<State>, i: nat, j: nat) returns (x: Mac, id: ConnId)
    requires IsRun(run) && i < |run| && j < |run[i].sh.log| && run[i].sh.log[j].Panicked?
    ensures StrayIn(run[i].sh.log[..j], x, id)
  {
    var n, t, a := EventStep(run, i, j);
    Emitted(run[n].sh, t, run[n].threads[t], a, Panicked);
    x := Dst(run[n].threads[t].frame);
    StrayIsHistory(run, n, x);
    assert |run[n].sh.log + [Panicked]| == |run[n].sh.log| + 1;
    id :| StrayIn(run[n].sh.log, x, id);
  }

  lemma PanicIsFailure(log: seq<Event>)
    requires Blame(log)
    ensures Panicked in log ==> WriteEverFailed(log)
  {
    if Panicked in log {
      var id :| Dropped(id) in log;
      DoomedIsFailure(log, id);
    }
  }

  /** In a run without failed writes, no goroutine ever panics. */
  lemma NoFailureNoPanic(run: seq<State>, i: nat)
    requires IsRun(run) && i < |run| && !WriteEverFailed(run[i].sh.log)
    ensures Panicked !in run[i].sh.log
    ensures forall x :: x in run[i].sh.cam ==> run[i].sh.cam[x] in run[i].sh.conns
  {
    var s := run[i];
    RunInv(run, i);
    PanicIsFailure(s.sh.log);
    forall x | x in s.sh.cam
      ensures s.sh.cam[x] in s.sh.conns
    {
      if s.sh.cam[x] !in s.sh.conns {
        AddressesLeadToConnections(run, i, x);
        assert false;
      }
    }
  }

  // ----- Counters and sockets

  /** The counters are the bytes written without error, prefixes excluded, and the bytes of
      the frames fully processed, modulo 2^64. */
  lemma CountersAreHistory(run: seq<State>, i: nat)
    requires IsRun(run) && i < |run|
    ensures run[i].sh.sent == BytesWritten(run[i].sh.log) % WORD
    ensures run[i].sh.received == BytesProcessed(run[i].sh.log) % WORD
  {
    RunInv(run, i);
  }

  /** From one state of a run to the next `Sent` grows by the length of the frame written, if
      one was, and `Received` by that of the frame done with. */
  lemma CountersMove(run: seq<State>, i: nat)
    requires IsRun(run) && i + 1 < |run|
    ensures var sh, sh' := run[i].sh, run[i + 1].sh;
            && sh.log <= sh'.log && |sh'.log| <= |sh.log| + 1
            && (if |sh'.log| > |sh.log| && sh'.log[|sh.log|].Wrote?
                then sh'.sent == (sh.sent + |sh'.log[|sh.log|].frame|) % 0x1_0000_0000_0000_0000
                else sh'.sent == sh.sent)
            && (if |sh'.log| > |sh.log| && sh'.log[|sh.log|].Processed?
                then sh'.received == (sh.received + |sh'.log[|sh.log|].frame|) % 0x1_0000_0000_0000_0000
                else sh'.received == sh.received)
  {
    assert StepAt(run, i);
    var t, a :| Enabled(run[i], t, a) && run[i + 1] == Do(run[i], t, a);
    if !a.Spawn? && !a.Acquire? {
      MoveCounters(run[i].sh, t, run[i].threads[t], a);
    }
  }

  lemma MoveCounters(sh: Shared, t: Tid, pc: Pc, a: Action)
    requires Fits(sh, pc, a)
    ensures var sh' := MoveOf(sh, t, pc, a).sh;
            && sh.log <= sh'.log && |sh'.log| <= |sh.log| + 1
            && sh'.sent == (if |sh'.log| > |sh.log| && sh'.log[|sh.log|].Wrote? then Add64(sh.sent, |sh'.log[|sh.log|].frame|) else sh.sent)
            && sh'.received == if |sh'.log| > |sh.log| && sh'.log[|sh.log|].Processed? then Add64(sh.received, |sh'.log[|sh.log|].frame|) else sh.received
  {
    MoveFrame(sh, t, pc, a);
  }

  /** For every interleaving of senders, what is on a socket is the whole packets of the
      frames written to it, in order, and after them at most one cut packet, which a failed
      write left and nothing follows. On a socket that keeps message boundaries each message is
      one frame. */
  lemma SocketsCarryWholePackets(run: seq<State>, i: nat, id: ConnId)
    requires IsRun(run) && i < |run| && id < |run[i].sh.sockets|
    ensures var sh, socket := run[i].sh, run[i].sh.sockets[id];
            var tail := CutTail(sh.log, id, socket.proto);
            && socket.written == Packets(socket.proto, FramesTo(sh.log, id)) + tail
            && |tail| == (if Doomed(sh.log, id) then 1 else 0)
            && (!Stream(socket.proto) ==> socket.written[..|FramesTo(sh.log, id)|] == FramesTo(sh.log, id))
  {
    RunInv(run, i);
    assert WireAgrees(run[i].sh.log, id, run[i].sh.sockets[id]);
  }

  /** The peer's receive loop recovers exactly the frames written, in order. */
  lemma PeersReceiveWhatWasSent(run: seq<State>, i: nat, id: ConnId)
    requires IsRun(run) && i < |run| && id < |run[i].sh.sockets|
    requires var p := run[i].sh.sockets[id].proto; Stream(p) && AllFit(p, FramesTo(run[i].sh.log, id))
    requires !Doomed(run[i].sh.log, id)
    ensures var s := run[i].sh;
            Decode(s.sockets[id].proto, Flatten(s.sockets[id].written))
              == Decoded(FramesTo(s.log, id), CannotReadSize)
  {
    var sh := run[i].sh;
    var p := sh.sockets[id].proto;
    SocketsCarryWholePackets(run, i, id);
    assert sh.sockets[id].written == Packets(p, FramesTo(sh.log, id));
    RoundTripExactly(p, FramesTo(sh.log, id));
  }

  /** The peer of a connection whose last write failed decodes the frames written, and the one
      of the failed write exactly if all of its packet had gone out. */
  lemma PeersOfFailedWrites(run: seq<State>, i: nat, id: ConnId)
    requires IsRun(run) && i < |run| && id < |run[i].sh.sockets|
    requires Stream(run[i].sh.sockets[id].proto) && AllFitTo(run[i].sh.log, id, run[i].sh.sockets[id].proto)
    ensures var sh, p := run[i].sh, run[i].sh.sockets[id].proto;
            var got := Decode(p, Flatten(sh.sockets[id].written)).frames;
            && (forall f :: WentOut(sh.log, id, p, f) ==> got == FramesTo(sh.log, id) + [f])
            && ((forall f :: !WentOut(sh.log, id, p, f)) ==> got == FramesTo(sh.log, id))
  {
    RunInv(run, i);
    PeerDecodes(run[i].sh, id);
  }

  // ----- Locks

  function Rank(l: Lock): nat {
    match l
    case WriteLock => 0
    case ConnLock => 1
    case CamLock => 2
    case CamRLock => 2
  }

  /** Locks are taken in the order `writeLock`, `connLock`, `camLock`; none is taken while it
      is already held; the gateway is called, and sockets are read, with none held. */
  lemma LockOrder(run: seq<State>, i: nat, t: Tid, l: Lock)
    requires IsRun(run) && i < |run| && (t, l) in run[i].held
    ensures t in run[i].threads
    ensures var pc := run[i].threads[t];
            && (Waits(pc) ==> Rank(l) < Rank(Wants(pc)))
            && !pc.Delivering? && !pc.Reading? && !pc.Outside? && !pc.Finished?
  {
    RunInv(run, i);
    assert LockMatches(run[i], t, l);
    HeldOrder(run[i].threads[t], l);
  }

  lemma HeldOrder(pc: Pc, l: Lock)
    requires l in Held(pc)
    ensures Waits(pc) ==> Rank(l) < Rank(Wants(pc))
    ensures !pc.Delivering? && !pc.Reading? && !pc.Outside? && !pc.Finished?
  {
  }

  /** No two goroutines are ever inside conflicting critical sections. */
  lemma LocksExclude(run: seq<State>, i: nat, t: Tid, u: Tid)
    requires IsRun(run) && i < |run| && t in run[i].threads && u in run[i].threads && t != u
    ensures forall l, m :: l in Held(run[i].threads[t]) && m in Held(run[i].threads[u]) ==> !Conflict(l, m)
  {
    RunInv(run, i);
    forall l, m | l in Held(run[i].threads[t]) && m in Held(run[i].threads[u])
      ensures !Conflict(l, m)
    {
      assert LockMatches(run[i], t, l) && LockMatches(run[i], u, m);
    }
  }

  /** Inside a critical section, or on the way into one. */
  predicate Locking(pc: Pc) {
    Held(pc) != {} || Waits(pc)
  }

  /** A goroutine that holds a lock and does not wait for another can move. */
  lemma Runnable(s: State, t: Tid) returns (a: Action)
    requires ThreadsOk(s) && ConnsAgree(s.sh) && t in s.threads && Held(s.threads[t]) != {} && !Waits(s.threads[t])
    ensures !a.Spawn? && Enabled(s, t, a)
  {
    var pc := s.threads[t];
    a := Go;
    if pc.Sending? && pc.todo != {} {
      var id :| id in pc.todo;
      assert ThreadOk(s.sh, t, pc);
      a := WriteOk(id);
    }
  }

  /** The locks never deadlock: whenever a goroutine holds or waits for a lock, some goroutine
      that holds or waits for one can take its next step. Goroutines reading a socket, in the
      gateway or outside the switch do not count, nor do new ones. */
  lemma NeverStuck(run: seq<State>, i: nat, w: Tid) returns (t: Tid, a: Action)
    requires IsRun(run) && i < |run| && w in run[i].threads && Locking(run[i].threads[w])
    ensures t in run[i].threads && Locking(run[i].threads[t]) && !a.Spawn? && Enabled(run[i], t, a)
    ensures a.Acquire? || Held(run[i].threads[t]) != {}
  {
    RunInv(run, i);
    t, a := Unblocked(run[i], w);
  }

  /** How far down the lock order a waiting goroutine is; a reader kept out by a waiting
      writer comes before it. */
  function Depth(pc: Pc): nat {
    if !Waits(pc) then 0
    else if Wants(pc).CamRLock? then 2
    else 3 * (2 - Rank(Wants(pc))) + 1
  }

  /** Follows who waits for whom; each is further down the lock order, so the chain ends. */
  lemma {:induction false} Unblocked(s: State, w: Tid) returns (t: Tid, a: Action)
    requires LocksMatch(s) && ThreadsOk(s) && ConnsAgree(s.sh)
    requires w in s.threads && Locking(s.threads[w])
    ensures t in s.threads && Locking(s.threads[t]) && !a.Spawn? && Enabled(s, t, a)
    decreases Depth(s.threads[w])
  {
    if !Waits(s.threads[w]) {
      t := w;
      a := Runnable(s, w);
    } else if Available(s, Wants(s.threads[w])) {
      t, a := w, Acquire;
    } else {
      var u := Blocker(s, w);
      t, a := Unblocked(s, u);
    }
  }

  lemma Blocker(s: State, w: Tid) returns (u: Tid)
    requires LocksMatch(s) && w in s.threads && Waits(s.threads[w]) && !Available(s, Wants(s.threads[w]))
    ensures u in s.threads && Locking(s.threads[u]) && Depth(s.threads[u]) < Depth(s.threads[w])
  {
    var l := Wants(s.threads[w]);
    if v, m :| (v, m) in s.held && Conflict(l, m) {
      u := v;
      assert LockMatches(s, u, m);
      HeldOrder(s.threads[u], m);
    } else {
      u :| PendingWriter(s, u);
    }
  }

  /** How many moves of its own a goroutine inside `connLock` needs, at most, to leave it. */
  function MovesToLeave(sh: Shared, pc: Pc): nat {
    match pc
    case Connecting(_) => 1
    case WantLookup(_, _) => |sh.conns.Keys| + 4
    case Lookup(_, _) => |sh.conns.Keys| + 3
    case Sending(_, _, todo) => |todo| + 2
    case WantDrop(_, _) => 2
    case Dropping(_, _) => 1
    case WantForget(_) => 2
    case Forgetting(_) => 1
    case _ => 0
  }

  /** Each move of the goroutine holding `connLock` brings its release nearer, and nobody
      else's move puts it off: the lock is always let go. */
  lemma ConnLockIsLetGo(run: seq<State>, i: nat, t: Tid, u: Tid, a: Action)
    requires IsRun(run) && i < |run| && t in run[i].threads && ConnLock in Held(run[i].threads[t])
    requires Enabled(run[i], u, a)
    ensures var s, s' := run[i], Do(run[i], u, a);
            && t in s'.threads
            && (u == t ==> ConnLock !in Held(s'.threads[t]) || MovesToLeave(s'.sh, s'.threads[t]) < MovesToLeave(s.sh, s.threads[t]))
            && (u != t ==> s'.threads[t] == s.threads[t] && MovesToLeave(s'.sh, s'.threads[t]) == MovesToLeave(s.sh, s.threads[t]))
  {
    RunInv(run, i);
    StepLetsGo(run[i], t, u, a);
  }

  lemma StepLetsGo(s: State, t: Tid, u: Tid, a: Action)
    requires LocksMatch(s) && Exclusive(s) && t in s.threads && ConnLock in Held(s.threads[t])
    requires Enabled(s, u, a)
    ensures var s' := Do(s, u, a);
            && t in s'.threads
            && (u == t ==> ConnLock !in Held(s'.threads[t]) || MovesToLeave(s'.sh, s'.threads[t]) < MovesToLeave(s.sh, s.threads[t]))
            && (u != t ==> s'.threads[t] == s.threads[t] && MovesToLeave(s'.sh, s'.threads[t]) == MovesToLeave(s.sh, s.threads[t]))
  {
    if a.Acquire? {
      GrantCloser(s.sh, s.threads[u]);
    } else if !a.Spawn? {
      if u == t {
        LeaveSooner(s.sh, t, s.threads[t], a);
      } else {
        ConnLockAlone(s, t, u);
        MoveFrame(s.sh, u, s.threads[u], a);
        assert Do(s, u, a).sh.conns == s.sh.conns;
      }
    }
  }

  lemma GrantCloser(sh: Shared, pc: Pc)
    requires Waits(pc)
    ensures ConnLock in Held(pc) ==> MovesToLeave(sh, Granted(pc)) < MovesToLeave(sh, pc)
  {
  }

  lemma LeaveSooner(sh: Shared, t: Tid, pc: Pc, a: Action)
    requires ConnLock in Held(pc) && Fits(sh, pc, a)
    ensures var m := MoveOf(sh, t, pc, a);
            ConnLock !in Held(m.pc) || MovesToLeave(m.sh, m.pc) < MovesToLeave(sh, pc)
  {
    if pc.Lookup? {
      LookupCloser(sh, pc.frame, pc.task);
    } else if pc.Sending? {
      SendingCloser(sh, t, pc, a);
    }
  }

  lemma SendingCloser(sh: Shared, t: Tid, pc: Pc, a: Action)
    requires pc.Sending? && Fits(sh, pc, a)
    ensures var m := MoveOf(sh, t, pc, a);
            ConnLock !in Held(m.pc) || MovesToLeave(m.sh, m.pc) < |pc.todo| + 2
  {
    if pc.todo != {} {
      assert pc.todo == pc.todo - {a.id} + {a.id};
    }
  }

  lemma FewerThanConnections(sh: Shared, targets: set<ConnId>)
    requires targets <= sh.conns.Keys
    ensures |targets| <= |sh.conns.Keys|
  {
    assert sh.conns.Keys == targets + (sh.conns.Keys - targets);
  }

  lemma LookupCloser(sh: Shared, f: Frame, k: Task)
    ensures var m := LookupMove(sh, f, k);
            ConnLock !in Held(m.pc) || MovesToLeave(m.sh, m.pc) < |sh.conns.Keys| + 3
  {
    FewerThanConnections(sh, BroadcastTargets(sh, f));
    if Dst(f) in sh.cam && sh.cam[Dst(f)] in sh.conns {
      FewerThanConnections(sh, {sh.cam[Dst(f)]});
    }
  }
}
