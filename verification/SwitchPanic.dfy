/**
 A run that ends in a panic: a broadcast to the only connection fails and drops it, its
 receive loop then learns from a frame it had already buffered, and the next unicast frame
 for that address finds no connection.
 */
module SwitchPanic {
  import opened Protocols
  import opened SwitchState
  import opened SwitchRuns

  const GATEWAY: Mac := [2, 0, 0, 0, 0, 1]
  const GUEST: Mac := [2, 0, 0, 0, 0, 2]

  function MakeFrame(dst: Mac, src: Mac): (f: Frame)
    requires |dst| == 6 && |src| == 6
    ensures Dst(f) == dst && Src(f) == src
  {
    dst + src + [8, 0]
  }

  lemma ExtendRun(run: seq<State>, t: Tid, a: Action, s': State)
    requires IsRun(run) && Enabled(run[|run| - 1], t, a) && s' == Do(run[|run| - 1], t, a)
    ensures IsRun(run + [s'])
  {
    var longer := run + [s'];
    assert Next(run[|run| - 1], s');
    forall i | 0 <= i < |longer| - 1
      ensures StepAt(longer, i)
    {
      if i < |run| - 1 {
        assert StepAt(run, i);
      }
    }
    var gateway :| run[0] == InitState(gateway);
    assert longer[0] == InitState(gateway);
  }

  ghost predicate Ends(run: seq<State>, s: State) {
    IsRun(run) && run[|run| - 1] == s
  }

  /** Takes the last state of a run one step on. */
  lemma Advance(run: seq<State>, s: State, t: Tid, a: Action, s': State) returns (run': seq<State>)
    requires Ends(run, s) && Enabled(s, t, a) && Do(s, t, a) == s'
    ensures Ends(run', s')
  {
    ExtendRun(run, t, a, s');
    run' := run + [s'];
  }

  /** Both goroutines: the receive loop (1) at `pc1`, holding nothing, and the gateway's (2)
      at `pc2`, holding `locks`. */
  function Pair(sh: Shared, pc1: Pc, pc2: Pc, locks: set<Lock>): State {
    State(sh, map[1 := pc1, 2 := pc2], set l | l in locks :: (2, l))
  }

  lemma TakeLock(run: seq<State>, sh: Shared, pc1: Pc, pc2: Pc, locks: set<Lock>) returns (run': seq<State>)
    requires Waits(pc2) && Ends(run, Pair(sh, pc1, pc2, locks))
    requires !Waits(pc1) && forall m :: m in locks ==> !Conflict(Wants(pc2), m)
    ensures Ends(run', Pair(sh, pc1, Granted(pc2), locks + {Wants(pc2)}))
  {
    var s, s' := Pair(sh, pc1, pc2, locks), Pair(sh, pc1, Granted(pc2), locks + {Wants(pc2)});
    assert s'.threads == s.threads[2 := Granted(pc2)];
    run' := Advance(run, s, 2, Acquire, s');
  }

  lemma MakeMove(run: seq<State>, sh: Shared, pc1: Pc, pc2: Pc, locks: set<Lock>, a: Action) returns (run': seq<State>)
    requires Fits(sh, pc2, a) && !a.Spawn? && !a.Acquire? && Ends(run, Pair(sh, pc1, pc2, locks))
    ensures var m := MoveOf(sh, 2, pc2, a);
            Ends(run', Pair(m.sh, pc1, m.pc, locks - m.releases))
  {
    var s, m := Pair(sh, pc1, pc2, locks), MoveOf(sh, 2, pc2, a);
    var s' := Pair(m.sh, pc1, m.pc, locks - m.releases);
    assert s'.threads == s.threads[2 := m.pc];
    assert s'.held == Release(s.held, 2, m.releases);
    run' := Advance(run, s, 2, a, s');
  }

  /** The gateway's goroutine takes the locks of `txPkt` up to the table lookup. */
  lemma ToLookup(run: seq<State>, sh: Shared, pc1: Pc, f: Frame) returns (run': seq<State>)
    requires Ends(run, Pair(sh, pc1, Outside, {})) && !Waits(pc1)
    ensures Ends(run', Pair(sh, pc1, Lookup(f, Gateway), TxLocks + {CamRLock}))
  {
    run' := MakeMove(run, sh, pc1, Outside, {}, Transmit(f));
    run' := TakeLock(run', sh, pc1, WantWrite(f, Gateway), {});
    run' := TakeLock(run', sh, pc1, WantConn(f, Gateway), {} + {WriteLock});
    run' := TakeLock(run', sh, pc1, WantLookup(f, Gateway), {} + {WriteLock} + {ConnLock});
    assert {} + {WriteLock} + {ConnLock} + {CamRLock} == TxLocks + {CamRLock};
  }

  /** A connection is accepted and its receive loop starts; the gateway's goroutine appears. */
  lemma Start() returns (run: seq<State>)
    ensures Ends(run, Pair(Connect(InitShared(GATEWAY), Qemu, 1), Reading(0), Outside, {}))
  {
    var sh := InitShared(GATEWAY);
    var s0 := InitState(GATEWAY);
    var s1 := State(sh, map[1 := Accepting(Qemu)], {});
    var s2 := State(sh, map[1 := Connecting(Qemu)], {(1, ConnLock)});
    var s3 := State(Connect(sh, Qemu, 1), map[1 := Reading(0)], {});
    var s4 := Pair(Connect(sh, Qemu, 1), Reading(0), Outside, {});
    run := [s0];
    assert Ends(run, s0);
    run := Advance(run, s0, 1, Spawn(Accepting(Qemu)), s1);
    run := Advance(run, s1, 1, Acquire, s2);
    run := Advance(run, s2, 1, Go, s3);
    run := Advance(run, s3, 2, Spawn(Outside), s4);
  }

  /** The broadcast to the connection fails, and the connection is dropped. */
  lemma FailedBroadcast(run: seq<State>, sh: Shared, f: Frame) returns (run': seq<State>)
    requires Ends(run, Pair(sh, Reading(0), Outside, {}))
    requires Dst(f) == BROADCAST && sh.cam == map[] && sh.conns == map[0 := Qemu] && |sh.sockets| == 1
    ensures Ends(run', Pair(Disconnect(FailWrite(sh, 0, f, 0), 0, Dropped(0)), Reading(0), Outside, {}))
  {
    var pc1, sh' := Reading(0), FailWrite(sh, 0, f, 0);
    run' := ToLookup(run, sh, pc1, f);
    assert BroadcastTargets(sh, f) == {0};
    run' := MakeMove(run', sh, pc1, Lookup(f, Gateway), TxLocks + {CamRLock}, Go);
    assert TxLocks + {CamRLock} - {CamRLock} == TxLocks;
    run' := MakeMove(run', sh, pc1, Sending(f, Gateway, {0}), TxLocks, WriteErr(0, 0));
    assert TxLocks - {} == TxLocks;
    run' := TakeLock(run', sh', pc1, WantDrop(Gateway, 0), TxLocks);
    run' := MakeMove(run', sh', pc1, Dropping(Gateway, 0), TxLocks + {CamLock}, Go);
    assert TxLocks + {CamLock} - (TxLocks + {CamLock}) == {};
  }

  /** The receive loop processes one more buffered frame and learns its source. */
  lemma LateFrame(run: seq<State>, sh: Shared, f: Frame) returns (run': seq<State>)
    requires Ends(run, Pair(sh, Reading(0), Outside, {})) && Dst(f) == sh.gateway
    ensures Ends(run', Pair(Learn(sh, Src(f), 0), Delivering(0, f), Outside, {}))
  {
    var s0 := Pair(sh, Reading(0), Outside, {});
    var s1 := State(sh, map[1 := WantLearn(0, f), 2 := Outside], {});
    var s2 := State(sh, map[1 := Learning(0, f), 2 := Outside], {(1, CamLock)});
    var s3 := Pair(Learn(sh, Src(f), 0), Delivering(0, f), Outside, {});
    run' := Advance(run, s0, 1, Read(f), s1);
    run' := Advance(run', s1, 1, Acquire, s2);
    run' := Advance(run', s2, 1, Go, s3);
  }

  /** The claim that `txPkt` never meets a missing connection fails on this run. */
  lemma PanicRun() returns (run: seq<State>)
    ensures IsRun(run) && Panicked in run[|run| - 1].sh.log
  {
    var broadcast, late, reply :=
      MakeFrame(BROADCAST, GATEWAY), MakeFrame(GATEWAY, GUEST), MakeFrame(GUEST, GATEWAY);
    var sh0 := Connect(InitShared(GATEWAY), Qemu, 1);
    var sh1 := Disconnect(FailWrite(sh0, 0, broadcast, 0), 0, Dropped(0));
    var sh2 := Learn(sh1, GUEST, 0);
    run := Start();
    run := FailedBroadcast(run, sh0, broadcast);
    run := LateFrame(run, sh1, late);
    run := ToLookup(run, sh2, Delivering(0, late), reply);
    run := MakeMove(run, sh2, Delivering(0, late), Lookup(reply, Gateway), TxLocks + {CamRLock}, Go);
  }
}
