/** Safety of the switch over every run, proved step by step. */
module SwitchSafety {
  import opened Protocols
  import opened SwitchState
  import opened SwitchRuns

  // ----- Locks

  lemma MoveLocks(sh: Shared, t: Tid, pc: Pc, a: Action)
    requires Fits(sh, pc, a)
    ensures var m := MoveOf(sh, t, pc, a);
            m.releases <= Held(pc) && Held(m.pc) == Held(pc) - m.releases
  {
  }

  lemma GrantLocks(pc: Pc)
    requires Waits(pc)
    ensures Wants(pc) !in Held(pc) && Held(Granted(pc)) == Held(pc) + {Wants(pc)}
  {
  }

  lemma StepLocks(s: State, t: Tid, a: Action)
    requires LocksMatch(s) && Enabled(s, t, a)
    ensures LocksMatch(Do(s, t, a))
  {
    var s' := Do(s, t, a);
    forall u, l
      ensures LockMatches(s', u, l)
    {
      assert LockMatches(s, u, l);
      if u == t {
        if a.Acquire? {
          GrantLocks(s.threads[t]);
        } else if !a.Spawn? {
          MoveLocks(s.sh, t, s.threads[t], a);
        }
      }
    }
  }

  lemma StepExclusive(s: State, t: Tid, a: Action)
    requires Exclusive(s) && Enabled(s, t, a)
    ensures Exclusive(Do(s, t, a))
  {
  }

  /** While one goroutine is inside `connLock`, no other is. */
  lemma ConnLockAlone(s: State, t: Tid, u: Tid)
    requires LocksMatch(s) && Exclusive(s)
    requires t in s.threads && u in s.threads && t != u && ConnLock in Held(s.threads[t])
    ensures ConnLock !in Held(s.threads[u])
  {
    assert LockMatches(s, t, ConnLock) && LockMatches(s, u, ConnLock);
  }

  // ----- What one move does to the shared state

  /** At most one more event, and every connection keeps its socket's goroutine. */
  ghost predicate Extends(sh: Shared, sh': Shared) {
    && (sh'.log == sh.log || (|sh'.log| == |sh.log| + 1 && sh'.log == sh.log + [sh'.log[|sh.log|]]))
    && |sh.sockets| <= |sh'.sockets|
    && (forall id :: 0 <= id < |sh.sockets| ==> sh'.sockets[id].acceptor == sh.sockets[id].acceptor)
  }

  /** What other goroutines do while one is inside `connLock`: learn and count. */
  predicate Background(e: Event) {
    e.Learned? || e.Processed?
  }

  /** The connections and their sockets are as before. */
  ghost predicate ConnsQuiet(sh: Shared, sh': Shared)
    requires Extends(sh, sh')
  {
    && sh'.conns == sh.conns && sh'.sockets == sh.sockets
    && (sh'.log == sh.log || Background(sh'.log[|sh.log|]))
  }

  /** Outside `connLock` a move leaves the connections alone. */
  lemma MoveFrame(sh: Shared, t: Tid, pc: Pc, a: Action)
    requires Fits(sh, pc, a)
    ensures var sh' := MoveOf(sh, t, pc, a).sh;
            Extends(sh, sh') && (ConnLock !in Held(pc) ==> ConnsQuiet(sh, sh'))
  {
  }

  lemma MoveShared(sh: Shared, t: Tid, pc: Pc, a: Action)
    requires SharedInv(sh) && ThreadOk(sh, t, pc) && Fits(sh, pc, a)
    ensures SharedInv(MoveOf(sh, t, pc, a).sh)
  {
    match pc
    case Connecting(p) => ConnectKeeps(sh, p, t);
    case Learning(id, f) => LearnKeeps(sh, Src(f), id);
    case Lookup(_, _) => PanicKeeps(sh);
    case Sending(f, _, _) =>
      if a.WriteOk? {
        WriteKeeps(sh, a.id, f);
      } else if a.WriteErr? {
        FailWriteKeeps(sh, a.id, f, a.n);
      }
    case Dropping(_, id) => DisconnectKeeps(sh, id, Dropped(id));
    case Counting(id, f) => CountKeeps(sh, id, f);
    case Forgetting(id) => DisconnectKeeps(sh, id, Closed(id));
    case _ =>
  }

  // ----- The goroutines' positions

  lemma QuietDoomed(sh: Shared, sh': Shared, id: ConnId)
    requires Extends(sh, sh') && ConnsQuiet(sh, sh')
    ensures Doomed(sh'.log, id) <==> Doomed(sh.log, id)
  {
    if sh'.log != sh.log {
      DoomedSnoc(sh.log, sh'.log[|sh.log|], id);
    }
  }

  /** A goroutine that does not move keeps its position justified. */
  lemma OtherThread(sh: Shared, sh': Shared, u: Tid, pc: Pc)
    requires ThreadOk(sh, u, pc) && Extends(sh, sh')
    requires ConnLock in Held(pc) ==> ConnsQuiet(sh, sh')
    ensures ThreadOk(sh', u, pc)
  {
    if ConnLock in Held(pc) {
      forall id
        ensures Doomed(sh'.log, id) <==> Doomed(sh.log, id)
      {
        QuietDoomed(sh, sh', id);
      }
    }
  }

  /** Inside `connLock`, unless the goroutine itself is dropping it, no connection in the
      table has a failed write. */
  lemma NoneDoomed(s: State, t: Tid, id: ConnId)
    requires LocksMatch(s) && Exclusive(s) && DoomedHandled(s)
    requires t in s.threads && ConnLock in Held(s.threads[t])
    requires !s.threads[t].WantDrop? && !s.threads[t].Dropping? && id in s.sh.conns
    ensures !Doomed(s.sh.log, id)
  {
    forall u
      ensures !Dropper(s, u, id)
    {
      if u in s.threads && u != t {
        ConnLockAlone(s, t, u);
      }
    }
  }

  lemma LookupThread(s: State, t: Tid, f: Frame, k: Task)
    requires LocksMatch(s) && Exclusive(s) && DoomedHandled(s)
    requires t in s.threads && s.threads[t] == Lookup(f, k) && ThreadOk(s.sh, t, Lookup(f, k))
    ensures var m := LookupMove(s.sh, f, k); ThreadOk(m.sh, t, m.pc)
  {
    forall id | id in s.sh.conns
      ensures !Doomed(s.sh.log, id)
    {
      NoneDoomed(s, t, id);
    }
    LookupTargets(s.sh, t, f, k);
  }

  lemma LookupTargets(sh: Shared, t: Tid, f: Frame, k: Task)
    requires ThreadOk(sh, t, Lookup(f, k)) && forall id :: id in sh.conns ==> !Doomed(sh.log, id)
    ensures var m := LookupMove(sh, f, k); ThreadOk(m.sh, t, m.pc)
  {
  }

  lemma SendingThread(sh: Shared, t: Tid, pc: Pc, a: Action)
    requires ThreadOk(sh, t, pc) && pc.Sending? && Fits(sh, pc, a)
    ensures var m := MoveOf(sh, t, pc, a); ThreadOk(m.sh, t, m.pc)
  {
    if a.WriteOk? {
      forall id
        ensures Doomed(Write(sh, a.id, pc.frame).log, id) <==> Doomed(sh.log, id)
      {
        DoomedSnoc(sh.log, Wrote(a.id, pc.frame), id);
      }
    } else if a.WriteErr? {
      DoomedSnoc(sh.log, WriteFailed(a.id, pc.frame, a.n), a.id);
    }
  }

  lemma OtherwiseMovingThread(sh: Shared, t: Tid, pc: Pc, a: Action)
    requires ThreadOk(sh, t, pc) && !pc.Sending? && !pc.Lookup? && Fits(sh, pc, a)
    requires |sh.sockets| == sh.nextConnID
    ensures var m := MoveOf(sh, t, pc, a); ThreadOk(m.sh, t, m.pc)
  {
  }

  lemma MovingThread(s: State, t: Tid, a: Action)
    requires Inv(s) && t in s.threads && !a.Acquire? && !a.Spawn? && Enabled(s, t, a)
    ensures var m := MoveOf(s.sh, t, s.threads[t], a); ThreadOk(m.sh, t, m.pc)
  {
    var pc := s.threads[t];
    assert ThreadOk(s.sh, t, pc);
    if pc.Lookup? {
      LookupThread(s, t, pc.frame, pc.task);
    } else if pc.Sending? {
      SendingThread(s.sh, t, pc, a);
    } else {
      OtherwiseMovingThread(s.sh, t, pc, a);
    }
  }

  lemma StepThreads(s: State, t: Tid, a: Action)
    requires Inv(s) && Enabled(s, t, a)
    ensures ThreadsOk(Do(s, t, a))
  {
    var s' := Do(s, t, a);
    if !a.Spawn? && !a.Acquire? {
      MovingThread(s, t, a);
    }
    forall u | u in s'.threads
      ensures ThreadOk(s'.sh, u, s'.threads[u])
    {
      if a.Spawn? || a.Acquire? {
        QuietStep(s, t, a, u);
      } else if u != t {
        OtherStep(s, t, a, u);
      }
    }
  }

  lemma QuietStep(s: State, t: Tid, a: Action, u: Tid)
    requires ThreadsOk(s) && Enabled(s, t, a) && (a.Spawn? || a.Acquire?) && u in Do(s, t, a).threads
    ensures ThreadOk(Do(s, t, a).sh, u, Do(s, t, a).threads[u])
  {
    if u in s.threads {
      assert ThreadOk(s.sh, u, s.threads[u]);
    }
  }

  lemma OtherStep(s: State, t: Tid, a: Action, u: Tid)
    requires ThreadsOk(s) && LocksMatch(s) && Exclusive(s) && Enabled(s, t, a) && !a.Spawn? && !a.Acquire?
    requires u in s.threads && u != t
    ensures ThreadOk(Do(s, t, a).sh, u, s.threads[u])
  {
    MoveFrame(s.sh, t, s.threads[t], a);
    if ConnLock in Held(s.threads[u]) {
      ConnLockAlone(s, u, t);
    }
    OtherThread(s.sh, Do(s, t, a).sh, u, s.threads[u]);
  }

  // ----- Receive loops and the tables

  /** A goroutine stays with its connection; `connect` gives it one. */
  lemma MoveOwner(sh: Shared, t: Tid, pc: Pc, a: Action)
    requires Fits(sh, pc, a)
    ensures var m := MoveOf(sh, t, pc, a);
            && (OwnerOf(m.pc) == OwnerOf(pc) || (pc.Connecting? && OwnerOf(m.pc) == Loop(sh.nextConnID)))
            && (m.pc.Finished? <==> pc.Forgetting?)
            && (forall id: nat :: Closed(id) in m.sh.log <==> Closed(id) in sh.log || (pc.Forgetting? && pc.id == id))
  {
  }

  lemma GrantOwner(pc: Pc)
    requires Waits(pc)
    ensures OwnerOf(Granted(pc)) == OwnerOf(pc) && !Granted(pc).Finished?
    ensures forall id :: Drops(pc, id) ==> Drops(Granted(pc), id)
  {
  }

  lemma StepLoops(s: State, t: Tid, a: Action)
    requires Inv(s) && Enabled(s, t, a)
    ensures LoopsOk(Do(s, t, a))
  {
    var s' := Do(s, t, a);
    forall id | 0 <= id < |s'.sh.sockets|
      ensures LoopOk(s', id)
    {
      if a.Spawn? || a.Acquire? {
        assert LoopOk(s, id);
        if a.Acquire? {
          GrantOwner(s.threads[t]);
        }
      } else {
        MoveLoop(s, t, a, id);
      }
    }
  }

  lemma MoveLoop(s: State, t: Tid, a: Action, id: ConnId)
    requires Inv(s) && t in s.threads && !a.Acquire? && !a.Spawn? && Enabled(s, t, a)
    requires id < |Do(s, t, a).sh.sockets|
    ensures LoopOk(Do(s, t, a), id)
  {
    var s', pc := Do(s, t, a), s.threads[t];
    MoveFrame(s.sh, t, pc, a);
    MoveOwner(s.sh, t, pc, a);
    assert ThreadOk(s.sh, t, pc);
    if id < |s.sh.sockets| {
      assert LoopOk(s, id);
    } else {
      assert pc.Connecting? && id == s.sh.nextConnID;
      assert forall i :: 0 <= i < |s.sh.log| && !s.sh.log[i].Panicked? ==> s.sh.log[i].id < id;
    }
  }

  /** A goroutine inside its receive loop has not run its deferred disconnect. */
  lemma LoopNotClosed(s: State, t: Tid)
    requires Inv(s) && t in s.threads && OwnerOf(s.threads[t]).Loop? && !s.threads[t].Finished?
    ensures Closed(OwnerOf(s.threads[t]).id) !in s.sh.log
  {
    assert ThreadOk(s.sh, t, s.threads[t]);
    assert LoopOk(s, OwnerOf(s.threads[t]).id);
  }

  /** Addresses come from the tables as they were, or from the frame just learned. */
  lemma MoveTables(sh: Shared, t: Tid, pc: Pc, a: Action)
    requires Fits(sh, pc, a)
    ensures var sh' := MoveOf(sh, t, pc, a).sh;
            && sh.nextConnID <= sh'.nextConnID
            && (forall x :: x in sh'.cam ==>
                  || (pc.Learning? && sh'.cam[x] == pc.id)
                  || (x in sh.cam && sh'.cam[x] == sh.cam[x] && (pc.Forgetting? ==> sh.cam[x] != pc.id)))
            && (forall id: nat :: id in sh'.conns ==> id in sh.conns || (pc.Connecting? && id == sh.nextConnID))
            && (pc.Dropping? ==> pc.target !in sh'.conns)
  {
  }

  lemma MoveCam(s: State, t: Tid, a: Action)
    requires Inv(s) && t in s.threads && !a.Acquire? && !a.Spawn? && Enabled(s, t, a)
    ensures CamLive(MoveOf(s.sh, t, s.threads[t], a).sh)
  {
    var pc, sh' := s.threads[t], MoveOf(s.sh, t, s.threads[t], a).sh;
    MoveOwner(s.sh, t, pc, a);
    MoveTables(s.sh, t, pc, a);
    if pc.Learning? {
      assert ThreadOk(s.sh, t, pc);
      LoopNotClosed(s, t);
    }
    KeepCamLive(s.sh, sh', pc);
  }

  lemma KeepCamLive(sh: Shared, sh': Shared, pc: Pc)
    requires CamLive(sh) && sh.nextConnID <= sh'.nextConnID
    requires pc.Learning? ==> CamIdOk(sh, pc.id)
    requires forall id: nat :: Closed(id) in sh'.log <==> Closed(id) in sh.log || (pc.Forgetting? && pc.id == id)
    requires forall x :: x in sh'.cam ==>
               || (pc.Learning? && sh'.cam[x] == pc.id)
               || (x in sh.cam && sh'.cam[x] == sh.cam[x] && (pc.Forgetting? ==> sh.cam[x] != pc.id))
    ensures CamLive(sh')
  {
    forall x | x in sh'.cam
      ensures CamIdOk(sh', sh'.cam[x])
    {
      assert x in sh.cam ==> CamIdOk(sh, sh.cam[x]);
    }
  }

  lemma StepDoomed(s: State, t: Tid, a: Action)
    requires Inv(s) && Enabled(s, t, a)
    ensures DoomedHandled(Do(s, t, a))
  {
    var s' := Do(s, t, a);
    forall id | id in s'.sh.conns && Doomed(s'.sh.log, id)
      ensures exists u :: Dropper(s', u, id)
    {
      if a.Spawn? || a.Acquire? {
        var u :| Dropper(s, u, id);
        if a.Acquire? {
          GrantOwner(s.threads[t]);
        }
        assert Dropper(s', u, id);
      } else {
        MoveDoomed(s, t, a, id);
      }
    }
  }

  lemma MoveDoomed(s: State, t: Tid, a: Action, id: ConnId)
    requires ConnsAgree(s.sh) && DoomedHandled(s) && t in s.threads && !a.Acquire? && !a.Spawn? && Enabled(s, t, a)
    requires id in Do(s, t, a).sh.conns && Doomed(Do(s, t, a).sh.log, id)
    ensures exists u :: Dropper(Do(s, t, a), u, id)
  {
    var s', pc := Do(s, t, a), s.threads[t];
    MoveFrame(s.sh, t, pc, a);
    MoveTables(s.sh, t, pc, a);
    if pc.Sending? && a.WriteErr? && a.id == id {
      assert Dropper(s', t, id);
    } else {
      DoomedBefore(s.sh, t, pc, a, id);
      if pc.Connecting? && id == s.sh.nextConnID {
        FreshId(s.sh, id);
      }
      var u :| Dropper(s, u, id);
      assert Dropper(s', u, id);
    }
  }

  lemma DoomedBefore(sh: Shared, t: Tid, pc: Pc, a: Action, id: ConnId)
    requires Fits(sh, pc, a) && Doomed(MoveOf(sh, t, pc, a).sh.log, id)
    requires !(pc.Sending? && a.WriteErr? && a.id == id)
    ensures Doomed(sh.log, id)
  {
    var log' := MoveOf(sh, t, pc, a).sh.log;
    MoveFrame(sh, t, pc, a);
    if log' != sh.log {
      DoomedSnoc(sh.log, log'[|sh.log|], id);
    }
  }

  lemma MoveBlame(s: State, t: Tid, a: Action)
    requires Inv(s) && t in s.threads && !a.Acquire? && !a.Spawn? && Enabled(s, t, a)
    ensures Blame(MoveOf(s.sh, t, s.threads[t], a).sh.log)
  {
    var sh, pc := s.sh, s.threads[t];
    var sh' := MoveOf(sh, t, pc, a).sh;
    assert ThreadOk(sh, t, pc);
    MoveFrame(sh, t, pc, a);
    if sh'.log != sh.log {
      var e := sh'.log[|sh.log|];
      forall id | Dropped(id) in sh'.log
        ensures Doomed(sh'.log, id)
      {
        DoomedSnoc(sh.log, e, id);
      }
      if e.Panicked? {
        var id := StrayAddress(s, Dst(pc.frame));
        assert Dropped(id) in sh'.log;
      } else if Panicked in sh.log {
        var id :| Dropped(id) in sh.log;
        assert Dropped(id) in sh'.log;
      }
    }
  }

  /** An address that leads out of the connection table was learned from a connection
      dropped by a failed write, whose receive loop is still running. */
  lemma StrayAddress(s: State, x: Mac) returns (id: ConnId)
    requires SharedInv(s.sh) && LoopsOk(s) && CamLive(s.sh)
    requires x in s.sh.cam && s.sh.cam[x] !in s.sh.conns
    ensures id == s.sh.cam[x] && id < |s.sh.sockets|
    ensures Dropped(id) in s.sh.log
    ensures var t := s.sh.sockets[id].acceptor;
            t in s.threads && OwnerOf(s.threads[t]) == Loop(id) && !s.threads[t].Finished?
  {
    id := s.sh.cam[x];
    assert CamIdOk(s.sh, id);
    assert LoopOk(s, id);
  }

  lemma StepInv(s: State, t: Tid, a: Action)
    requires Inv(s) && Enabled(s, t, a)
    ensures Inv(Do(s, t, a))
  {
    StepLocks(s, t, a);
    StepExclusive(s, t, a);
    StepThreads(s, t, a);
    StepLoops(s, t, a);
    StepDoomed(s, t, a);
    if !a.Spawn? && !a.Acquire? {
      assert ThreadOk(s.sh, t, s.threads[t]);
      MoveShared(s.sh, t, s.threads[t], a);
      MoveCam(s, t, a);
      MoveBlame(s, t, a);
    }
  }

  lemma InitHolds(gateway: Mac)
    ensures Inv(InitState(gateway))
  {
    InitInv(gateway);
  }

  /** Every state of every run satisfies the invariant. */
  lemma {:induction false} RunInv(run: seq<State>, i: nat)
    requires IsRun(run) && i < |run|
    ensures Inv(run[i])
  {
    if i == 0 {
      var gateway :| run[0] == InitState(gateway);
      InitHolds(gateway);
    } else {
      RunInv(run, i - 1);
      assert StepAt(run, i - 1);
      var t, a :| Enabled(run[i - 1], t, a) && run[i] == Do(run[i - 1], t, a);
      StepInv(run[i - 1], t, a);
    }
  }
}
