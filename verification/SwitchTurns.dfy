/**
 What becomes of each frame: one turn of a receive loop, and one frame sent by the gateway,
 followed through every interleaving.
 */
module SwitchTurns {
  import opened Protocols
  import opened SwitchState
  import opened SwitchRuns
  import opened SwitchSafety
  import opened SwitchTheorems

  predicate At(s: State, t: Tid, pc: Pc) {
    t in s.threads && s.threads[t] == pc
  }

  /** How often the goroutine came to a position between states `b` and `m`. */
  function Entries(run: seq<State>, b: nat, m: nat, t: Tid, pc: Pc): nat
    requires b <= m < |run|
    decreases m
  {
    if m == b then 0
    else Entries(run, b, m - 1, t, pc) + if At(run[m], t, pc) && !At(run[m - 1], t, pc) then 1 else 0
  }

  /** What a receive loop logs: the source of a frame, and the frame once it is done with. */
  predicate LoopEvent(e: Event, id: ConnId) {
    (e.Learned? || e.Processed?) && e.id == id
  }

  function LoopEvents(log: seq<Event>, id: ConnId): seq<Event> {
    if log == [] then [] else
      var e := log[|log| - 1];
      LoopEvents(log[..|log| - 1], id) + if LoopEvent(e, id) then [e] else []
  }

  lemma LoopEventsSnoc(log: seq<Event>, e: Event, id: ConnId)
    ensures LoopEvents(log + [e], id) == LoopEvents(log, id) + if LoopEvent(e, id) then [e] else []
  {
    assert (log + [e])[..|log|] == log;
  }

  // ----- The turn of a receive loop

  /** Goroutine `t` read `f` from connection `id` in state `b` and has not come back to reading
      before state `n`. */
  ghost predicate Turn(run: seq<State>, b: nat, n: nat, t: Tid, id: ConnId, f: Frame) {
    && b < n < |run| && At(run[b], t, Reading(id))
    && Enabled(run[b], t, Read(f)) && run[b + 1] == Do(run[b], t, Read(f))
    && forall k :: b < k < n ==> !ReadingAt(run[k], t)
  }

  predicate ReadingAt(s: State, t: Tid) {
    t in s.threads && s.threads[t].Reading?
  }

  predicate ForGateway(gateway: Mac, f: Frame) {
    Dst(f) == gateway || Dst(f) == BROADCAST
  }

  /** How far a turn has got: what was logged, how often the frame was looked up for
      forwarding, and whether it was handed to the gateway. */
  datatype Trace = Trace(events: seq<Event>, lookups: nat, delivered: bool)

  /** The end of a turn that went all the way up to counting. */
  predicate Handled(gateway: Mac, f: Frame, x: Trace) {
    x.lookups == (if Dst(f) != gateway then 1 else 0) && (x.delivered <==> ForGateway(gateway, f))
  }

  /** Inside `tx`, called to forward the frame or, while it is being delivered, by the gateway. */
  predicate TxStage(gateway: Mac, id: ConnId, f: Frame, k: Task, x: Trace, lookups: nat) {
    && x.events == [Learned(Src(f), id)] && k.Receiver? && k.id == id && k.frame == f
    && if k.delivering then x.delivered && Handled(gateway, f, x)
       else Dst(f) != gateway && !x.delivered && x.lookups == lookups
  }

  predicate Stage(gateway: Mac, id: ConnId, f: Frame, pc: Pc, x: Trace) {
    match pc
    case WantLearn(i, g) => i == id && g == f && x == Trace([], 0, false)
    case Learning(i, g) => i == id && g == f && x == Trace([], 0, false)
    case WantWrite(g, k) => TxStage(gateway, id, f, k, x, 0) && (!k.delivering ==> g == f)
    case WantConn(g, k) => TxStage(gateway, id, f, k, x, 0) && (!k.delivering ==> g == f)
    case WantLookup(g, k) => TxStage(gateway, id, f, k, x, 0) && (!k.delivering ==> g == f)
    case Lookup(g, k) => TxStage(gateway, id, f, k, x, 1) && (!k.delivering ==> g == f)
    case Sending(_, k, _) => TxStage(gateway, id, f, k, x, 1)
    case WantDrop(k, _) => TxStage(gateway, id, f, k, x, 1)
    case Dropping(k, _) => TxStage(gateway, id, f, k, x, 1)
    case Delivering(i, g) => i == id && g == f && x.events == [Learned(Src(f), id)] && x.delivered && Handled(gateway, f, x)
    case Counting(i, g) => i == id && g == f && x.events == [Learned(Src(f), id)] && Handled(gateway, f, x)
    case Reading(i) => i == id && x.events == [Learned(Src(f), id), Processed(id, f)] && Handled(gateway, f, x)
    case Leaving(i) => i == id
    case WantForget(i) => i == id
    case Forgetting(i) => i == id
    case Finished(i) => i == id
    case _ => false
  }

  function ForwardLookup(id: ConnId, f: Frame): Pc {
    Lookup(f, Receiver(id, f, false))
  }

  /** The trace after the goroutine moved from `pc` to `pc'`, logging `e` if it logged. */
  function After(x: Trace, id: ConnId, f: Frame, pc: Pc, pc': Pc, logged: seq<Event>): Trace {
    Trace(x.events + logged,
          x.lookups + (if pc' == ForwardLookup(id, f) && pc != pc' then 1 else 0),
          x.delivered || pc' == Delivering(id, f))
  }

  lemma StageGranted(gateway: Mac, id: ConnId, f: Frame, pc: Pc, x: Trace)
    requires Stage(gateway, id, f, pc, x) && Waits(pc)
    ensures Stage(gateway, id, f, Granted(pc), After(x, id, f, pc, Granted(pc), []))
  {
    assert x.events + [] == x.events;
  }

  function Logged(sh: Shared, sh': Shared, id: ConnId): seq<Event> {
    if |sh'.log| == |sh.log| + 1 && LoopEvent(sh'.log[|sh.log|], id) then [sh'.log[|sh.log|]] else []
  }

  lemma StageMoved(gateway: Mac, id: ConnId, f: Frame, sh: Shared, t: Tid, pc: Pc, a: Action, x: Trace)
    requires Stage(gateway, id, f, pc, x) && !pc.Reading? && Fits(sh, pc, a) && sh.gateway == gateway
    ensures var m := MoveOf(sh, t, pc, a);
            Stage(gateway, id, f, m.pc, After(x, id, f, pc, m.pc, Logged(sh, m.sh, id)))
  {
    assert x.events + [] == x.events;
    if InTx(pc) {
      TxMoved(gateway, id, f, sh, t, pc, a, x);
    }
  }

  predicate InTx(pc: Pc) {
    pc.WantWrite? || pc.WantConn? || pc.WantLookup? || pc.Lookup? || pc.Sending? || pc.WantDrop? || pc.Dropping?
  }

  lemma TxMoved(gateway: Mac, id: ConnId, f: Frame, sh: Shared, t: Tid, pc: Pc, a: Action, x: Trace)
    requires Stage(gateway, id, f, pc, x) && InTx(pc) && Fits(sh, pc, a) && sh.gateway == gateway
    ensures var m := MoveOf(sh, t, pc, a);
            Logged(sh, m.sh, id) == [] && Stage(gateway, id, f, m.pc, After(x, id, f, pc, m.pc, []))
  {
    assert x.events + [] == x.events;
  }

  lemma StageOwner(gateway: Mac, id: ConnId, f: Frame, pc: Pc, x: Trace)
    requires Stage(gateway, id, f, pc, x)
    ensures OwnerOf(pc) == Loop(id)
  {
  }

  // ----- The turn in a run

  lemma RunThreads(run: seq<State>, i: nat)
    requires IsRun(run) && i < |run|
    ensures ThreadsOk(run[i])
    ensures i + 1 < |run| ==> Next(run[i], run[i + 1])
  {
    RunInv(run, i);
    assert i + 1 < |run| ==> StepAt(run, i);
  }

  lemma StepGateway(s: State, s': State)
    requires Next(s, s')
    ensures s'.sh.gateway == s.sh.gateway
  {
  }

  /** The traces before and after a step differ by what the step did. */
  ghost predicate Adds(s: State, s': State, t: Tid, id: ConnId, f: Frame, x: Trace, x': Trace) {
    && x'.lookups == x.lookups + (if At(s', t, ForwardLookup(id, f)) && !At(s, t, ForwardLookup(id, f)) then 1 else 0)
    && (x'.delivered <==> x.delivered || (At(s', t, Delivering(id, f)) && !At(s, t, Delivering(id, f))))
    && x.events <= x'.events && LoopEvents(s'.sh.log, id) == LoopEvents(s.sh.log, id) + x'.events[|x.events|..]
  }

  lemma TraceStep(s: State, s': State, t: Tid, id: ConnId, f: Frame, x: Trace) returns (x': Trace)
    requires ThreadsOk(s) && Next(s, s') && t in s.threads && !s.threads[t].Reading?
    requires Stage(s.sh.gateway, id, f, s.threads[t], x)
    ensures t in s'.threads && Stage(s'.sh.gateway, id, f, s'.threads[t], x') && Adds(s, s', t, id, f, x, x')
  {
    var u, a :| Enabled(s, u, a) && s' == Do(s, u, a);
    StepGateway(s, s');
    if u == t {
      x' := OwnStep(s, t, id, f, x, a);
    } else {
      OthersAdd(s, t, id, f, x, u, a);
      x' := x;
    }
  }

  lemma OthersAdd(s: State, t: Tid, id: ConnId, f: Frame, x: Trace, u: Tid, a: Action)
    requires ThreadsOk(s) && t in s.threads && Stage(s.sh.gateway, id, f, s.threads[t], x) && u != t && Enabled(s, u, a)
    ensures var s' := Do(s, u, a);
            t in s'.threads && s'.threads[t] == s.threads[t] && Adds(s, s', t, id, f, x, x)
  {
    OthersSilent(s, t, id, f, x, u, a);
  }

  lemma OwnStep(s: State, t: Tid, id: ConnId, f: Frame, x: Trace, a: Action) returns (x': Trace)
    requires t in s.threads && !s.threads[t].Reading? && Enabled(s, t, a) && Stage(s.sh.gateway, id, f, s.threads[t], x)
    ensures var s' := Do(s, t, a);
            t in s'.threads && Stage(s.sh.gateway, id, f, s'.threads[t], x') && Adds(s, s', t, id, f, x, x')
  {
    var pc, gateway, s' := s.threads[t], s.sh.gateway, Do(s, t, a);
    if a.Acquire? {
      StageGranted(gateway, id, f, pc, x);
      x' := After(x, id, f, pc, Granted(pc), []);
    } else {
      StageMoved(gateway, id, f, s.sh, t, pc, a, x);
      MoveLogs(s.sh, t, pc, a, id);
      x' := After(x, id, f, pc, s'.threads[t], Logged(s.sh, s'.sh, id));
    }
    Enters(x, id, f, pc, s'.threads[t], Logged(s.sh, s'.sh, id));
  }

  lemma Enters(x: Trace, id: ConnId, f: Frame, pc: Pc, pc': Pc, logged: seq<Event>)
    ensures After(x, id, f, pc, pc', logged).events[|x.events|..] == logged
    ensures x.events <= After(x, id, f, pc, pc', logged).events
  {
  }

  lemma MoveLogs(sh: Shared, t: Tid, pc: Pc, a: Action, id: ConnId)
    requires Fits(sh, pc, a)
    ensures var sh' := MoveOf(sh, t, pc, a).sh; LoopEvents(sh'.log, id) == LoopEvents(sh.log, id) + Logged(sh, sh', id)
  {
    var sh' := MoveOf(sh, t, pc, a).sh;
    MoveFrame(sh, t, pc, a);
    if sh'.log != sh.log {
      LoopEventsSnoc(sh.log, sh'.log[|sh.log|], id);
    }
  }

  /** Only its own goroutine logs for a receive loop. */
  lemma OthersSilent(s: State, t: Tid, id: ConnId, f: Frame, x: Trace, u: Tid, a: Action)
    requires ThreadsOk(s) && t in s.threads && Stage(s.sh.gateway, id, f, s.threads[t], x) && u != t && Enabled(s, u, a)
    ensures LoopEvents(Do(s, u, a).sh.log, id) == LoopEvents(s.sh.log, id)
  {
    if !a.Spawn? && !a.Acquire? {
      var sh, sh' := s.sh, Do(s, u, a).sh;
      MoveFrame(sh, u, s.threads[u], a);
      MoveLogs(sh, u, s.threads[u], a, id);
      if sh'.log != sh.log {
        Emitted(sh, u, s.threads[u], a, sh'.log[|sh.log|]);
        StageOwner(s.sh.gateway, id, f, s.threads[t], x);
        assert ThreadOk(sh, t, s.threads[t]) && ThreadOk(sh, u, s.threads[u]);
      }
    }
  }

  ghost predicate Tracks(run: seq<State>, b: nat, m: nat, t: Tid, id: ConnId, f: Frame, x: Trace)
    requires b <= m < |run|
  {
    && t in run[m].threads && Stage(run[m].sh.gateway, id, f, run[m].threads[t], x)
    && Counts(run, b, m, t, id, f, x) && run[m].sh.gateway == run[b].sh.gateway
  }

  ghost predicate Counts(run: seq<State>, b: nat, m: nat, t: Tid, id: ConnId, f: Frame, x: Trace)
    requires b <= m < |run|
  {
    && LoopEvents(run[m].sh.log, id) == LoopEvents(run[b].sh.log, id) + x.events
    && x.lookups == Entries(run, b, m, t, ForwardLookup(id, f))
    && (x.delivered <==> Entries(run, b, m, t, Delivering(id, f)) > 0)
  }

  lemma CountsStep(run: seq<State>, b: nat, m: nat, t: Tid, id: ConnId, f: Frame, x: Trace, x': Trace)
    requires b <= m && m + 1 < |run| && Counts(run, b, m, t, id, f, x) && Adds(run[m], run[m + 1], t, id, f, x, x')
    ensures Counts(run, b, m + 1, t, id, f, x')
  {
    var before, more := LoopEvents(run[b].sh.log, id), x'.events[|x.events|..];
    assert x'.events == x.events + more;
    Reassociate(before, x.events, more);
  }

  lemma {:induction false} TurnTracked(run: seq<State>, b: nat, m: nat, n: nat, t: Tid, id: ConnId, f: Frame) returns (x: Trace)
    requires IsRun(run) && Turn(run, b, n, t, id, f) && b < m <= n
    ensures Tracks(run, b, m, t, id, f, x)
    decreases m
  {
    if m == b + 1 {
      TurnStarts(run, b, t, id, f);
      x := Trace([], 0, false);
    } else {
      x := TurnTracked(run, b, m - 1, n, t, id, f);
      x := TrackedStep(run, b, m - 1, t, id, f, x);
    }
  }

  lemma TurnStarts(run: seq<State>, b: nat, t: Tid, id: ConnId, f: Frame)
    requires b + 1 < |run| && At(run[b], t, Reading(id)) && Enabled(run[b], t, Read(f)) && run[b + 1] == Do(run[b], t, Read(f))
    ensures Tracks(run, b, b + 1, t, id, f, Trace([], 0, false))
  {
    assert LoopEvents(run[b].sh.log, id) + [] == LoopEvents(run[b].sh.log, id);
    assert At(run[b + 1], t, WantLearn(id, f));
  }

  lemma TrackedStep(run: seq<State>, b: nat, m: nat, t: Tid, id: ConnId, f: Frame, x: Trace) returns (x': Trace)
    requires IsRun(run) && b <= m && m + 1 < |run| && Tracks(run, b, m, t, id, f, x) && !ReadingAt(run[m], t)
    ensures Tracks(run, b, m + 1, t, id, f, x')
  {
    RunThreads(run, m);
    StepGateway(run[m], run[m + 1]);
    x' := TraceStep(run[m], run[m + 1], t, id, f, x);
    CountsStep(run, b, m, t, id, f, x, x');
  }

  // ----- The theorems

  /** Every turn of a receive loop that comes back to reading learned the frame's source once,
      looked its destination up for forwarding exactly once unless it was for the gateway,
      handed it to the gateway exactly if it was for the gateway or for everyone, and counted
      it once. */
  lemma TurnHandlesFrame(run: seq<State>, b: nat, n: nat, t: Tid, id: ConnId, f: Frame)
    requires IsRun(run) && Turn(run, b, n, t, id, f) && ReadingAt(run[n], t)
    ensures var gateway := run[b].sh.gateway;
            && At(run[n], t, Reading(id))
            && LoopEvents(run[n].sh.log, id) == LoopEvents(run[b].sh.log, id) + [Learned(Src(f), id), Processed(id, f)]
            && Entries(run, b, n, t, Lookup(f, Receiver(id, f, false))) == (if Dst(f) != gateway then 1 else 0)
            && (Entries(run, b, n, t, Delivering(id, f)) > 0 <==> Dst(f) == gateway || Dst(f) == BROADCAST)
  {
    var x := TurnTracked(run, b, n, n, t, id, f);
  }

  /** In the middle of handling a frame from `id`. */
  predicate InTurn(s: State, t: Tid, id: ConnId) {
    t in s.threads && Handling(s.threads[t], id)
  }

  predicate Handling(pc: Pc, id: ConnId) {
    && OwnerOf(pc) == Loop(id) && !pc.Reading?
    && !pc.Leaving? && !pc.WantForget? && !pc.Forgetting? && !pc.Finished?
  }

  lemma MovedInto(sh: Shared, t: Tid, pc: Pc, a: Action, id: ConnId)
    requires Fits(sh, pc, a) && Handling(MoveOf(sh, t, pc, a).pc, id)
    ensures Handling(pc, id) || (pc == Reading(id) && a.Read?)
  {
  }

  lemma TurnBefore(s: State, s': State, t: Tid, id: ConnId)
    requires Next(s, s') && InTurn(s', t, id)
    ensures InTurn(s, t, id) || (At(s, t, Reading(id)) && exists f :: Enabled(s, t, Read(f)) && s' == Do(s, t, Read(f)))
  {
    var u, a :| Enabled(s, u, a) && s' == Do(s, u, a);
    if u == t && !a.Spawn? && !a.Acquire? {
      MovedInto(s.sh, t, s.threads[t], a, id);
    }
  }

  lemma {:induction false} TurnBegan(run: seq<State>, n: nat, t: Tid, id: ConnId) returns (b: nat, f: Frame)
    requires IsRun(run) && n < |run| && InTurn(run[n], t, id)
    ensures Turn(run, b, n, t, id, f)
    decreases n
  {
    assert n > 0;
    RunThreads(run, n - 1);
    TurnBefore(run[n - 1], run[n], t, id);
    if InTurn(run[n - 1], t, id) {
      b, f := TurnBegan(run, n - 1, t, id);
    } else {
      b := n - 1;
      f :| Enabled(run[b], t, Read(f)) && run[n] == Do(run[b], t, Read(f));
    }
  }

  /** And every frame counted was handled in such a turn of its connection's own goroutine. */
  lemma EveryProcessedFrameWasHandled(run: seq<State>, i: nat, j: nat) returns (b: nat, n: nat, t: Tid)
    requires IsRun(run) && i < |run| && j < |run[i].sh.log| && run[i].sh.log[j].Processed?
    ensures b < n <= i && run[n].sh.log == run[i].sh.log[..j + 1]
    ensures var id, f := run[i].sh.log[j].id, run[i].sh.log[j].frame;
            && Turn(run, b, n, t, id, f) && At(run[n], t, Reading(id))
            && id < |run[n].sh.sockets| && run[n].sh.sockets[id].acceptor == t
  {
    var log := run[i].sh.log;
    var m, a, g;
    m, t, a := EventStep(run, i, j);
    ProcessedStep(run[m], t, a, log[j]);
    b, g := TurnBegan(run, m, t, log[j].id);
    TurnEnds(run, b, m, t, log[j].id, g, log[j].frame);
    n := m + 1;
    assert log[..j + 1] == log[..j] + [log[j]];
    RunThreads(run, n);
    assert ThreadOk(run[n].sh, t, run[n].threads[t]);
  }

  lemma ProcessedStep(s: State, t: Tid, a: Action, e: Event)
    requires Enabled(s, t, a) && !a.Spawn? && !a.Acquire? && Do(s, t, a).sh.log == s.sh.log + [e] && e.Processed?
    ensures At(s, t, Counting(e.id, e.frame)) && At(Do(s, t, a), t, Reading(e.id))
  {
    Emitted(s.sh, t, s.threads[t], a, e);
  }

  lemma TurnEnds(run: seq<State>, b: nat, m: nat, t: Tid, id: ConnId, g: Frame, f: Frame)
    requires IsRun(run) && Turn(run, b, m, t, id, g) && m + 1 < |run| && At(run[m], t, Counting(id, f))
    ensures Turn(run, b, m + 1, t, id, f)
  {
    var x := TurnTracked(run, b, m, m, t, id, g);
  }

  /** A receive loop is left only when a read fails or the context is done, or in a panic; a
      failed write to some connection does not end it. */
  lemma LeavesOnlyThen(run: seq<State>, i: nat, t: Tid, id: ConnId)
    requires IsRun(run) && i + 1 < |run| && At(run[i + 1], t, Leaving(id)) && !At(run[i], t, Leaving(id))
    ensures At(run[i], t, Reading(id)) || run[i + 1].sh.log == run[i].sh.log + [Panicked]
  {
    assert StepAt(run, i);
    SteppedOut(run[i], run[i + 1], t, id);
  }

  lemma SteppedOut(s: State, s': State, t: Tid, id: ConnId)
    requires Next(s, s') && At(s', t, Leaving(id)) && !At(s, t, Leaving(id))
    ensures At(s, t, Reading(id)) || s'.sh.log == s.sh.log + [Panicked]
  {
    var u, a :| Enabled(s, u, a) && s' == Do(s, u, a);
    if !a.Spawn? && !a.Acquire? && u == t {
      MovedOut(s.sh, t, s.threads[t], a, id);
    }
  }

  lemma MovedOut(sh: Shared, t: Tid, pc: Pc, a: Action, id: ConnId)
    requires Fits(sh, pc, a) && MoveOf(sh, t, pc, a).pc == Leaving(id)
    ensures pc == Reading(id) || MoveOf(sh, t, pc, a).sh.log == sh.log + [Panicked]
  {
  }

  // ----- A frame sent by the gateway

  predicate TxAt(s: State, t: Tid) {
    t in s.threads && InTx(s.threads[t])
  }

  /** The gateway handed frame `g` to the switch in state `b`, on goroutine `t`, and the call
      has not returned before state `n`. */
  ghost predicate Transmission(run: seq<State>, b: nat, n: nat, t: Tid, g: Frame) {
    && b < n < |run| && Enabled(run[b], t, Transmit(g)) && run[b + 1] == Do(run[b], t, Transmit(g))
    && forall k :: b < k < n ==> TxAt(run[k], t)
  }

  /** On whose behalf the gateway sends from a position. */
  function Caller(pc: Pc): Task {
    if pc.Delivering? then Receiver(pc.id, pc.frame, true) else Gateway
  }

  predicate Transmitting(pc: Pc, g: Frame, k: Task, lookups: nat) {
    match pc
    case WantWrite(h, j) => h == g && j == k && lookups == 0
    case WantConn(h, j) => h == g && j == k && lookups == 0
    case WantLookup(h, j) => h == g && j == k && lookups == 0
    case Lookup(h, j) => h == g && j == k && lookups == 1
    case Sending(h, j, _) => h == g && j == k && lookups == 1
    case WantDrop(j, _) => j == k && lookups == 1
    case Dropping(j, _) => j == k && lookups == 1
    case _ => lookups == 1 && Returned(pc, k)
  }

  /** Back where the gateway was called from, or unwinding a panic. */
  predicate Returned(pc: Pc, k: Task) {
    match k
    case Gateway => pc == Outside
    case Receiver(id, f, _) => pc == Delivering(id, f) || pc == Leaving(id)
  }

  lemma TransmitMoved(sh: Shared, t: Tid, pc: Pc, a: Action, g: Frame, k: Task, lookups: nat)
    requires Fits(sh, pc, a) && InTx(pc) && Transmitting(pc, g, k, lookups) && (k.Receiver? ==> k.delivering)
    ensures Transmitting(MoveOf(sh, t, pc, a).pc, g, k, lookups) && !MoveOf(sh, t, pc, a).pc.Lookup?
  {
  }

  lemma TransmitStep(s: State, s': State, t: Tid, g: Frame, k: Task, lookups: nat)
    requires Next(s, s') && TxAt(s, t) && Transmitting(s.threads[t], g, k, lookups) && (k.Receiver? ==> k.delivering)
    ensures t in s'.threads
    ensures Transmitting(s'.threads[t], g, k, lookups + if At(s', t, Lookup(g, k)) && !At(s, t, Lookup(g, k)) then 1 else 0)
  {
    var u, a :| Enabled(s, u, a) && s' == Do(s, u, a);
    if u == t && !a.Acquire? {
      TransmitMoved(s.sh, t, s.threads[t], a, g, k, lookups);
    }
  }

  ghost predicate TransmitsAt(run: seq<State>, b: nat, m: nat, t: Tid, g: Frame, k: Task)
    requires b <= m < |run|
  {
    t in run[m].threads && Transmitting(run[m].threads[t], g, k, Entries(run, b, m, t, Lookup(g, k)))
  }

  lemma {:induction false} TransmitTracked(run: seq<State>, b: nat, m: nat, n: nat, t: Tid, g: Frame, k: Task)
    requires IsRun(run) && Transmission(run, b, n, t, g) && b < m <= n
    requires t in run[b].threads && k == Caller(run[b].threads[t])
    ensures TransmitsAt(run, b, m, t, g, k)
    decreases m
  {
    if m == b + 1 {
      TransmitFirst(run, b, t, g, k);
    } else {
      TransmitTracked(run, b, m - 1, n, t, g, k);
      TransmitNext(run, b, m - 1, t, g, k);
    }
  }

  lemma TransmitNext(run: seq<State>, b: nat, m: nat, t: Tid, g: Frame, k: Task)
    requires IsRun(run) && b <= m && m + 1 < |run| && TransmitsAt(run, b, m, t, g, k) && TxAt(run[m], t)
    requires k.Receiver? ==> k.delivering
    ensures TransmitsAt(run, b, m + 1, t, g, k)
  {
    RunThreads(run, m);
    TransmitStep(run[m], run[m + 1], t, g, k, Entries(run, b, m, t, Lookup(g, k)));
  }

  lemma TransmitFirst(run: seq<State>, b: nat, t: Tid, g: Frame, k: Task)
    requires b + 1 < |run| && Enabled(run[b], t, Transmit(g)) && run[b + 1] == Do(run[b], t, Transmit(g))
    requires t in run[b].threads && k == Caller(run[b].threads[t])
    ensures TransmitsAt(run, b, b + 1, t, g, k)
  {
    TransmitStarts(run[b], t, g);
  }

  lemma TransmitStarts(s: State, t: Tid, g: Frame)
    requires Enabled(s, t, Transmit(g))
    ensures t in s.threads && At(Do(s, t, Transmit(g)), t, WantWrite(g, Caller(s.threads[t])))
  {
  }

  /** Every frame the gateway hands to the switch is looked up exactly once before the call
      returns to where it came from. */
  lemma TransmittedFrameIsLookedUp(run: seq<State>, b: nat, n: nat, t: Tid, g: Frame)
    requires IsRun(run) && Transmission(run, b, n, t, g) && !TxAt(run[n], t)
    ensures t in run[b].threads
    ensures var from := run[b].threads[t];
            && Entries(run, b, n, t, Lookup(g, if from.Delivering? then Receiver(from.id, from.frame, true) else Gateway)) == 1
            && (At(run[n], t, from) || (from.Delivering? && At(run[n], t, Leaving(from.id))))
  {
    TransmitTracked(run, b, n, n, t, g, Caller(run[b].threads[t]));
  }
}
