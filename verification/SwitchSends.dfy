/**
 One call of `txPkt` followed through every interleaving, from its table lookup to its last
 write, while other goroutines learn and count.
 */
module SwitchSends {
  import opened Protocols
  import opened SwitchState
  import opened SwitchRuns
  import opened SwitchSafety
  import opened SwitchTheorems

  /** Goroutine `t` looked up the targets of `f` in state `i` and has been sending since. */
  ghost predicate SendPhase(run: seq<State>, i: nat, j: nat, t: Tid, f: Frame, k: Task) {
    && i < j < |run| && t in run[i].threads && run[i].threads[t] == Lookup(f, k)
    && forall m :: i < m <= j ==> SendingAt(run[m], t)
  }

  predicate SendingAt(s: State, t: Tid) {
    t in s.threads && s.threads[t].Sending?
  }

  /** Since the lookup in `sh` every connection of `done` was sent the frame once and nothing
      else reached any socket; otherwise only learning and counting went on. */
  ghost predicate SentTo(sh: Shared, sh': Shared, f: Frame, done: set<ConnId>) {
    && sh'.conns == sh.conns && |sh'.sockets| == |sh.sockets|
    && (forall id :: 0 <= id < |sh.sockets| ==> Gained(sh.sockets[id], sh'.sockets[id], f, id in done))
    && sh.log <= sh'.log
    && (forall m :: |sh.log| <= m < |sh'.log| ==> SendEvent(sh'.log[m], f, done))
  }

  predicate Gained(before: Socket, after: Socket, f: Frame, sent: bool) {
    after == before.(written := before.written + if sent then [Packet(before.proto, f)] else [])
  }

  predicate SendEvent(e: Event, f: Frame, done: set<ConnId>) {
    Background(e) || (e.Wrote? && e.frame == f && e.id in done)
  }

  // ----- Step by step

  lemma SentNothing(sh: Shared, f: Frame)
    ensures SentTo(sh, sh, f, {})
  {
  }

  lemma SentMore(sh: Shared, sh': Shared, f: Frame, done: set<ConnId>, id: ConnId)
    requires SentTo(sh, sh', f, done) && id < |sh.sockets| && id !in done
    ensures SentTo(sh, Write(sh', id, f), f, done + {id})
  {
    var sh'' := Write(sh', id, f);
    assert Gained(sh.sockets[id], sh'.sockets[id], f, false);
    assert sh'.sockets[id].written == sh.sockets[id].written;
    forall other | 0 <= other < |sh.sockets|
      ensures Gained(sh.sockets[other], sh''.sockets[other], f, other in done + {id})
    {
      assert Gained(sh.sockets[other], sh'.sockets[other], f, other in done);
    }
    forall m | |sh.log| <= m < |sh''.log|
      ensures SendEvent(sh''.log[m], f, done + {id})
    {
      assert m < |sh'.log| ==> SendEvent(sh'.log[m], f, done);
    }
  }

  lemma SentMeanwhile(sh: Shared, sh': Shared, sh'': Shared, f: Frame, done: set<ConnId>)
    requires SentTo(sh, sh', f, done) && Extends(sh', sh'') && ConnsQuiet(sh', sh'')
    ensures SentTo(sh, sh'', f, done)
  {
    forall m | |sh.log| <= m < |sh''.log|
      ensures SendEvent(sh''.log[m], f, done)
    {
      assert m < |sh'.log| ==> SendEvent(sh'.log[m], f, done);
    }
  }

  /** While one goroutine is inside `connLock`, a step of another leaves the connections and
      their sockets alone. */
  lemma StepMeanwhile(s: State, t: Tid, u: Tid, a: Action)
    requires LocksMatch(s) && Exclusive(s) && t in s.threads && ConnLock in Held(s.threads[t])
    requires u != t && Enabled(s, u, a)
    ensures Extends(s.sh, Do(s, u, a).sh) && ConnsQuiet(s.sh, Do(s, u, a).sh)
    ensures t in Do(s, u, a).threads && Do(s, u, a).threads[t] == s.threads[t]
  {
    if !a.Spawn? && !a.Acquire? {
      ConnLockAlone(s, t, u);
      MoveFrame(s.sh, u, s.threads[u], a);
    }
  }

  lemma RunLocks(run: seq<State>, i: nat)
    requires IsRun(run) && i < |run|
    ensures LocksMatch(run[i]) && Exclusive(run[i])
    ensures i + 1 < |run| ==> Next(run[i], run[i + 1])
  {
    RunInv(run, i);
    assert i + 1 < |run| ==> StepAt(run, i);
  }

  /** What a send that began in `sh` has done by state `s`: each target not still to do was
      sent the frame exactly once, and no other socket gained anything. */
  ghost predicate Progress(sh: Shared, s: State, t: Tid, f: Frame, k: Task) {
    && SendingAt(s, t) && s.threads[t] == Sending(f, k, s.threads[t].todo)
    && s.threads[t].todo <= Targets(sh, f) <= sh.conns.Keys
    && SentTo(sh, s.sh, f, Targets(sh, f) - s.threads[t].todo)
  }

  /** The step from the lookup into sending. */
  lemma FirstStep(s: State, s': State, t: Tid, f: Frame, k: Task)
    requires Next(s, s') && t in s.threads && s.threads[t] == Lookup(f, k) && SendingAt(s', t)
    ensures Progress(s.sh, s', t, f, k)
  {
    var u, a :| Enabled(s, u, a) && s' == Do(s, u, a);
    assert u == t && a == Go;
    var targets := Targets(s.sh, f);
    assert s'.threads[t] == Sending(f, k, targets) && s'.sh == s.sh;
    SentNothing(s.sh, f);
    assert targets - targets == {};
  }

  lemma SendStep(sh: Shared, s: State, t: Tid, f: Frame, k: Task, s': State)
    requires LocksMatch(s) && Exclusive(s) && |s.sh.sockets| == |sh.sockets|
    requires Progress(sh, s, t, f, k) && Next(s, s') && SendingAt(s', t)
    ensures Progress(sh, s', t, f, k)
  {
    var u, a :| Enabled(s, u, a) && s' == Do(s, u, a);
    var todo, targets := s.threads[t].todo, Targets(sh, f);
    if u == t {
      assert a.WriteOk?;
      SentMore(sh, s.sh, f, targets - todo, a.id);
      assert targets - (todo - {a.id}) == targets - todo + {a.id};
    } else {
      StepMeanwhile(s, t, u, a);
      SentMeanwhile(sh, s.sh, s'.sh, f, targets - todo);
    }
  }

  lemma {:induction false} SendProgress(run: seq<State>, i: nat, j: nat, t: Tid, f: Frame, k: Task)
    requires IsRun(run) && SendPhase(run, i, j, t, f, k)
    ensures Progress(run[i].sh, run[j], t, f, k)
    decreases j
  {
    if j > i + 1 {
      SendProgress(run, i, j - 1, t, f, k);
    }
    OneMore(run, i, j, t, f, k);
  }

  lemma OneMore(run: seq<State>, i: nat, j: nat, t: Tid, f: Frame, k: Task)
    requires IsRun(run) && SendPhase(run, i, j, t, f, k) && (j > i + 1 ==> Progress(run[i].sh, run[j - 1], t, f, k))
    ensures Progress(run[i].sh, run[j], t, f, k)
  {
    RunLocks(run, j - 1);
    assert SendingAt(run[j], t);
    if j == i + 1 {
      FirstStep(run[i], run[j], t, f, k);
    } else {
      SendStep(run[i].sh, run[j - 1], t, f, k, run[j]);
    }
  }

  lemma LookupBefore(s: State, s': State, t: Tid)
    requires Next(s, s') && !SendingAt(s, t) && SendingAt(s', t)
    ensures t in s.threads && s.threads[t].Lookup?
  {
    var u, a :| Enabled(s, u, a) && s' == Do(s, u, a);
    assert u == t;
  }

  /** A goroutine that is sending got there from a lookup. */
  lemma {:induction false} SendBegan(run: seq<State>, j: nat, t: Tid) returns (i: nat, f: Frame, k: Task)
    requires IsRun(run) && j < |run| && SendingAt(run[j], t)
    ensures SendPhase(run, i, j, t, f, k)
    decreases j
  {
    assert j > 0;
    RunLocks(run, j - 1);
    if SendingAt(run[j - 1], t) {
      i, f, k := SendBegan(run, j - 1, t);
    } else {
      LookupBefore(run[j - 1], run[j], t);
      i, f, k := j - 1, run[j - 1].threads[t].frame, run[j - 1].threads[t].task;
    }
  }

  // ----- The theorems

  /** The write to `bad` failed after `n` bytes of the packet; each connection of `done` had
      been sent the frame once. */
  ghost predicate FailedAt(sh: Shared, sh': Shared, f: Frame, bad: ConnId, n: nat, done: set<ConnId>) {
    && bad < |sh.sockets| == |sh'.sockets| && n <= |Packet(sh.sockets[bad].proto, f)|
    && sh'.sockets[bad].written == sh.sockets[bad].written + [Packet(sh.sockets[bad].proto, f)[..n]]
    && (forall id :: 0 <= id < |sh.sockets| && id != bad ==>
          Gained(sh.sockets[id], sh'.sockets[id], f, id in done))
  }

  /** Who a frame is for, in terms of the history: a broadcast for every connection accepted
      and not disconnected but the last to have used its source address, a unicast frame for
      the last connection to have used its destination as a source. */
  lemma TargetsAreHistory(run: seq<State>, i: nat, f: Frame, id: ConnId)
    requires IsRun(run) && i < |run|
    ensures var sh := run[i].sh;
            id in Targets(sh, f) <==>
              if Dst(f) == BROADCAST then id < sh.nextConnID && !Gone(sh.log, id) && !LastLearned(sh.log, Src(f), id)
              else LastLearned(sh.log, Dst(f), id)
  {
    ConnectionTableIsHistory(run, i, id);
    AddressTableIsHistory(run, i, Src(f), id);
    AddressTableIsHistory(run, i, Dst(f), id);
  }

  /** What a call of `txPkt` did to the sockets of `reached`: each got the frame once; or one
      write failed, leaving a cut packet there and at most one whole packet on each other; or
      it panicked on a stray address. No other socket gained anything. */
  ghost predicate Outcome(sh: Shared, sh': Shared, f: Frame, reached: set<ConnId>) {
    || SentTo(sh, sh', f, reached)
    || (exists bad, n, done :: FailedAt(sh, sh', f, bad, n, done) && bad in reached && done <= reached - {bad})
    || (sh' == sh.(log := sh.log + [Panicked]) && Dst(f) != BROADCAST && exists id :: StrayIn(sh.log, Dst(f), id))
  }

  /** Every call of `txPkt`, from its lookup in state `i` until it leaves after state `j`: a
      broadcast reaches exactly the connections accepted and not disconnected other than the
      last to use its source address, a unicast frame exactly the last to use its destination,
      each exactly once, unless a write fails or the destination is stray. */
  lemma EachTargetOnce(run: seq<State>, i: nat, j: nat, t: Tid, f: Frame, k: Task) returns (reached: set<ConnId>)
    requires IsRun(run) && i <= j && j + 1 < |run| && t in run[i].threads && run[i].threads[t] == Lookup(f, k)
    requires forall m :: i < m <= j ==> SendingAt(run[m], t)
    requires !SendingAt(run[j + 1], t) && !(t in run[j + 1].threads && run[j + 1].threads[t].Lookup?)
    ensures Outcome(run[i].sh, run[j + 1].sh, f, reached)
    ensures forall id: ConnId :: id in reached <==>
              if Dst(f) == BROADCAST
              then id < run[i].sh.nextConnID && !Gone(run[i].sh.log, id) && !LastLearned(run[i].sh.log, Src(f), id)
              else LastLearned(run[i].sh.log, Dst(f), id)
  {
    reached := Targets(run[i].sh, f);
    forall id: ConnId
      ensures id in reached <==>
                if Dst(f) == BROADCAST
                then id < run[i].sh.nextConnID && !Gone(run[i].sh.log, id) && !LastLearned(run[i].sh.log, Src(f), id)
                else LastLearned(run[i].sh.log, Dst(f), id)
    {
      TargetsAreHistory(run, i, f, id);
    }
    RunLocks(run, j);
    if i == j {
      StrayIsHistory(run, i, Dst(f));
      LeftAtOnce(run[i], t, f, k, run[i + 1]);
    } else {
      SendProgress(run, i, j, t, f, k);
      LastStep(run[i].sh, run[j], t, f, k, run[j + 1]);
    }
  }

  /** A lookup that does not lead to sending. */
  lemma LeftAtOnce(s: State, t: Tid, f: Frame, k: Task, s': State)
    requires t in s.threads && s.threads[t] == Lookup(f, k) && Next(s, s') && !SendingAt(s', t)
    requires !(t in s'.threads && s'.threads[t].Lookup?)
    requires Dst(f) in s.sh.cam && s.sh.cam[Dst(f)] !in s.sh.conns ==> exists id :: StrayIn(s.sh.log, Dst(f), id)
    ensures Outcome(s.sh, s'.sh, f, Targets(s.sh, f))
  {
    var u, a :| Enabled(s, u, a) && s' == Do(s, u, a);
    assert u == t && a == Go;
    SentNothing(s.sh, f);
  }

  lemma LastStep(sh: Shared, s: State, t: Tid, f: Frame, k: Task, s': State)
    requires LocksMatch(s) && Exclusive(s) && Progress(sh, s, t, f, k) && Next(s, s') && !SendingAt(s', t)
    ensures Outcome(sh, s'.sh, f, Targets(sh, f))
  {
    var u, a :| Enabled(s, u, a) && s' == Do(s, u, a);
    if u != t {
      StepMeanwhile(s, t, u, a);
    }
    var todo, targets := s.threads[t].todo, Targets(sh, f);
    if todo == {} {
      assert targets - todo == targets;
    } else {
      assert a.WriteErr?;
      FailedSend(sh, s.sh, f, a.id, a.n, targets - todo);
    }
  }

  lemma FailedSend(sh: Shared, sh': Shared, f: Frame, bad: ConnId, n: nat, done: set<ConnId>)
    requires SentTo(sh, sh', f, done) && bad < |sh.sockets| && bad !in done && n <= |Packet(sh'.sockets[bad].proto, f)|
    ensures FailedAt(sh, FailWrite(sh', bad, f, n), f, bad, n, done)
  {
    assert Gained(sh.sockets[bad], sh'.sockets[bad], f, false);
    assert sh'.sockets[bad].written == sh.sockets[bad].written;
    var after := FailWrite(sh', bad, f, n);
    forall id | 0 <= id < |sh.sockets| && id != bad
      ensures Gained(sh.sockets[id], after.sockets[id], f, id in done)
    {
      assert Gained(sh.sockets[id], sh'.sockets[id], f, id in done);
    }
  }

  /** A unicast frame is only written to the connection that the address table named when the
      sending goroutine looked the destination up: the last one to have used it as a source.
      Between that lookup and the write nothing but learning and counting happened. */
  lemma UnicastGoesToItsOwner(run: seq<State>, i: nat, j: nat) returns (k: nat, n: nat, t: Tid, task: Task)
    requires IsRun(run) && i < |run| && j < |run[i].sh.log|
    requires run[i].sh.log[j].Wrote? && Dst(run[i].sh.log[j].frame) != BROADCAST
    ensures k < n < i
    ensures var log := run[i].sh.log;
            var id, f, looked := log[j].id, log[j].frame, |run[k].sh.log|;
            && run[n].sh.log == log[..j] && SendPhase(run, k, n, t, f, task)
            && looked <= j && run[k].sh.log == log[..looked]
            && LastLearned(log[..looked], Dst(f), id) && id in run[k].sh.conns
            && forall m :: looked <= m < j ==> Background(log[m])
  {
    var log := run[i].sh.log;
    var a, f;
    n, t, a := EventStep(run, i, j);
    Emitted(run[n].sh, t, run[n].threads[t], a, log[j]);
    k, f, task := SendBegan(run, n, t);
    SendProgress(run, k, n, t, f, task);
    var id, looked := log[j].id, |run[k].sh.log|;
    assert Targets(run[k].sh, f) == {run[k].sh.cam[Dst(f)]} && id == run[k].sh.cam[Dst(f)];
    AddressTableIsHistory(run, k, Dst(f), id);
    assert run[n].threads[t].todo == {id};
    forall m | looked <= m < j
      ensures Background(log[m])
    {
      assert SendEvent(run[n].sh.log[m], f, Targets(run[k].sh, f) - {id});
    }
    assert log[..looked] == log[..j][..looked];
  }
}
