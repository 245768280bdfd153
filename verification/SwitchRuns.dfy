/**
 The switch as its goroutines run it: every interleaving of receive loops, gateway sends,
 failed writes and disconnects, with the three locks taken and released as in the code.
 */
module SwitchRuns {
  import opened Protocols
  import opened SwitchState

  /** `camLock` is a read-write lock; its two modes are separate entries. */
  datatype Lock = WriteLock | ConnLock | CamLock | CamRLock

  /** Who called `tx`: the gateway's own goroutine, or the receive loop of `id` while it
      handles `frame`. With `delivering`, the gateway called back from inside that loop's
      `DeliverNetworkPacket`. */
  datatype Task = Gateway | Receiver(id: ConnId, frame: Frame, delivering: bool)

  datatype Pc =
    | Outside                                             // a goroutine not inside the switch
    | WantCam                                             // CAM()
    | ReadingCam
    | Accepting(proto: Protocol)                          // Accept, connect
    | Connecting(proto: Protocol)
    | Reading(id: ConnId)                                 // rxStream, rxNonStream
    | WantLearn(id: ConnId, frame: Frame)                 // rxBuf
    | Learning(id: ConnId, frame: Frame)
    | WantWrite(frame: Frame, task: Task)                 // txPkt
    | WantConn(frame: Frame, task: Task)
    | WantLookup(frame: Frame, task: Task)
    | Lookup(frame: Frame, task: Task)
    | Sending(frame: Frame, task: Task, todo: set<ConnId>)
    | WantDrop(task: Task, target: ConnId)                // txBuf, disconnect
    | Dropping(task: Task, target: ConnId)
    | Delivering(id: ConnId, frame: Frame)                // rxBuf, in the gateway
    | Counting(id: ConnId, frame: Frame)
    | Leaving(id: ConnId)                                 // the deferred disconnect
    | WantForget(id: ConnId)
    | Forgetting(id: ConnId)
    | Finished(id: ConnId)

  datatype State = State(sh: Shared, threads: map<Tid, Pc>, held: set<(Tid, Lock)>)

  /** The choices that are not the switch's own: what a read returns, whether a write fails
      and after how many bytes, which connection a map iteration yields next. */
  datatype Action =
    | Spawn(pc: Pc)
    | Acquire
    | Go
    | Read(frame: Frame)
    | Return
    | WriteOk(id: ConnId)
    | WriteErr(id: ConnId, n: nat)
    | Transmit(frame: Frame)
    | Snapshot

  // ----- Locks

  function Held(pc: Pc): set<Lock> {
    match pc
    case ReadingCam => {CamRLock}
    case Connecting(_) => {ConnLock}
    case Learning(_, _) => {CamLock}
    case WantConn(_, _) => {WriteLock}
    case WantLookup(_, _) => {WriteLock, ConnLock}
    case Lookup(_, _) => {WriteLock, ConnLock, CamRLock}
    case Sending(_, _, _) => {WriteLock, ConnLock}
    case WantDrop(_, _) => {WriteLock, ConnLock}
    case Dropping(_, _) => {WriteLock, ConnLock, CamLock}
    case WantForget(_) => {ConnLock}
    case Forgetting(_) => {ConnLock, CamLock}
    case _ => {}
  }

  predicate Waits(pc: Pc) {
    pc.WantCam? || pc.Accepting? || pc.WantLearn? || pc.WantWrite? || pc.WantConn? || pc.WantLookup?
    || pc.WantDrop? || pc.Leaving? || pc.WantForget?
  }

  function Wants(pc: Pc): Lock
    requires Waits(pc)
  {
    match pc
    case WantWrite(_, _) => WriteLock
    case Accepting(_) => ConnLock
    case WantConn(_, _) => ConnLock
    case Leaving(_) => ConnLock
    case WantCam => CamRLock
    case WantLookup(_, _) => CamRLock
    case _ => CamLock
  }

  function Granted(pc: Pc): Pc
    requires Waits(pc)
  {
    match pc
    case WantCam => ReadingCam
    case Accepting(p) => Connecting(p)
    case WantLearn(id, f) => Learning(id, f)
    case WantWrite(f, k) => WantConn(f, k)
    case WantConn(f, k) => WantLookup(f, k)
    case WantLookup(f, k) => Lookup(f, k)
    case WantDrop(k, id) => Dropping(k, id)
    case Leaving(id) => WantForget(id)
    case WantForget(id) => Forgetting(id)
  }

  predicate Conflict(l: Lock, m: Lock) {
    l == m != CamRLock || (l.CamLock? && m.CamRLock?) || (l.CamRLock? && m.CamLock?)
  }

  predicate PendingWriter(s: State, t: Tid) {
    t in s.threads && Waits(s.threads[t]) && Wants(s.threads[t]) == CamLock
  }

  /** A lock can be taken when nobody holds it in a conflicting mode; a waiting writer also
      keeps new readers out. */
  ghost predicate Available(s: State, l: Lock) {
    && (forall t, m :: (t, m) in s.held ==> !Conflict(l, m))
    && (l.CamRLock? ==> forall t :: !PendingWriter(s, t))
  }

  // ----- One goroutine's moves

  datatype Move = Move(pc: Pc, sh: Shared, releases: set<Lock>)

  const TxLocks: set<Lock> := {WriteLock, ConnLock}

  /** Back in the caller once `tx` returns, with or without an error. */
  function AfterTx(gateway: Mac, k: Task): Pc {
    match k
    case Gateway => Outside
    case Receiver(id, f, delivering) =>
      if delivering || Dst(f) == gateway || Dst(f) == BROADCAST then Delivering(id, f) else Counting(id, f)
  }

  /** A panic unwinds through the deferred unlocks and the deferred disconnect. */
  function Unwind(k: Task): Pc {
    match k
    case Gateway => Outside
    case Receiver(id, _, _) => Leaving(id)
  }

  function AfterLearn(gateway: Mac, id: ConnId, f: Frame): Pc {
    if Dst(f) != gateway then WantWrite(f, Receiver(id, f, false)) else Delivering(id, f)
  }

  /** The connections a broadcast goes to: all but the one its source was learned from. */
  function BroadcastTargets(sh: Shared, f: Frame): set<ConnId> {
    if Src(f) in sh.cam then sh.conns.Keys - {sh.cam[Src(f)]} else sh.conns.Keys
  }

  /** The connections `txPkt` sends a frame to. */
  function Targets(sh: Shared, f: Frame): set<ConnId> {
    if Dst(f) == BROADCAST then BroadcastTargets(sh, f)
    else if Dst(f) in sh.cam then {sh.cam[Dst(f)]}
    else {}
  }

  /** The table lookup of `txPkt`. A unicast frame for an address learned from a connection
      that is no longer in the table dereferences a nil connection. */
  function LookupMove(sh: Shared, f: Frame, k: Task): Move {
    if Dst(f) == BROADCAST then
      Move(Sending(f, k, BroadcastTargets(sh, f)), sh, {CamRLock})
    else if Dst(f) !in sh.cam then
      Move(AfterTx(sh.gateway, k), sh, TxLocks + {CamRLock})
    else if sh.cam[Dst(f)] in sh.conns then
      Move(Sending(f, k, {sh.cam[Dst(f)]}), sh, {CamRLock})
    else
      Move(Unwind(k), sh.(log := sh.log + [Panicked]), TxLocks + {CamRLock})
  }

  predicate CanWrite(sh: Shared, id: ConnId) {
    id in sh.conns && id < |sh.sockets|
  }

  /** The moves a goroutine may make by itself, apart from waiting for a lock. */
  predicate Fits(sh: Shared, pc: Pc, a: Action) {
    match pc
    case Outside => a.Transmit? || a.Snapshot?
    case Reading(_) => a.Read? || a.Return?
    case Delivering(_, _) => a.Transmit? || a.Return?
    case Sending(f, _, todo) =>
      if todo == {} then a.Go? else
        || (a.WriteOk? && a.id in todo && CanWrite(sh, a.id))
        || (a.WriteErr? && a.id in todo && CanWrite(sh, a.id) && a.n <= |Packet(sh.sockets[a.id].proto, f)|)
    case Finished(_) => false
    case _ => if Waits(pc) then false else a.Go?
  }

  function MoveOf(sh: Shared, t: Tid, pc: Pc, a: Action): Move
    requires Fits(sh, pc, a)
  {
    match pc
    case Outside => Move(if a.Transmit? then WantWrite(a.frame, Gateway) else WantCam, sh, {})
    case ReadingCam => Move(Outside, sh, {CamRLock})
    case Connecting(p) => Move(Reading(sh.nextConnID), Connect(sh, p, t), {ConnLock})
    case Reading(id) => Move(if a.Read? then WantLearn(id, a.frame) else Leaving(id), sh, {})
    case Learning(id, f) => Move(AfterLearn(sh.gateway, id, f), Learn(sh, Src(f), id), {CamLock})
    case Lookup(f, k) => LookupMove(sh, f, k)
    case Sending(f, k, todo) =>
      if a.Go? then Move(AfterTx(sh.gateway, k), sh, TxLocks)
      else if a.WriteOk? then Move(Sending(f, k, todo - {a.id}), Write(sh, a.id, f), {})
      else Move(WantDrop(k, a.id), FailWrite(sh, a.id, f, a.n), {})
    case Dropping(k, id) =>
      Move(AfterTx(sh.gateway, k), Disconnect(sh, id, Dropped(id)), TxLocks + {CamLock})
    case Delivering(id, f) =>
      Move(if a.Transmit? then WantWrite(a.frame, Receiver(id, f, true)) else Counting(id, f), sh, {})
    case Counting(id, f) => Move(Reading(id), Count(sh, id, f), {})
    case Forgetting(id) => Move(Finished(id), Disconnect(sh, id, Closed(id)), {ConnLock, CamLock})
  }

  // ----- The system

  ghost predicate Enabled(s: State, t: Tid, a: Action) {
    if a.Spawn? then
      t !in s.threads && (a.pc.Outside? || a.pc.Accepting?)
    else
      && t in s.threads
      && if a.Acquire? then Waits(s.threads[t]) && Available(s, Wants(s.threads[t]))
         else Fits(s.sh, s.threads[t], a)
  }

  function Release(held: set<(Tid, Lock)>, t: Tid, ls: set<Lock>): set<(Tid, Lock)> {
    set x | x in held && (x.0 != t || x.1 !in ls)
  }

  ghost function Do(s: State, t: Tid, a: Action): State
    requires Enabled(s, t, a)
  {
    if a.Spawn? then
      s.(threads := s.threads[t := a.pc])
    else if a.Acquire? then
      s.(threads := s.threads[t := Granted(s.threads[t])], held := s.held + {(t, Wants(s.threads[t]))})
    else
      var m := MoveOf(s.sh, t, s.threads[t], a);
      State(m.sh, s.threads[t := m.pc], Release(s.held, t, m.releases))
  }

  ghost predicate Next(s: State, s': State) {
    exists t, a :: Enabled(s, t, a) && s' == Do(s, t, a)
  }

  ghost predicate StepAt(run: seq<State>, i: nat)
    requires i + 1 < |run|
  {
    Next(run[i], run[i + 1])
  }

  function InitState(gateway: Mac): State {
    State(InitShared(gateway), map[], {})
  }

  /** A run: from the empty switch, one goroutine moving at a time. */
  ghost predicate IsRun(run: seq<State>) {
    && run != []
    && (exists gateway :: run[0] == InitState(gateway))
    && forall i :: 0 <= i < |run| - 1 ==> StepAt(run, i)
  }

  // ----- The invariant

  datatype Owner = Nobody | Loop(id: ConnId)

  /** The connection whose receive loop a goroutine is running. */
  function OwnerOf(pc: Pc): Owner {
    match pc
    case Reading(id) => Loop(id)
    case WantLearn(id, _) => Loop(id)
    case Learning(id, _) => Loop(id)
    case Delivering(id, _) => Loop(id)
    case Counting(id, _) => Loop(id)
    case Leaving(id) => Loop(id)
    case WantForget(id) => Loop(id)
    case Forgetting(id) => Loop(id)
    case Finished(id) => Loop(id)
    case WantWrite(_, k) => TaskOwner(k)
    case WantConn(_, k) => TaskOwner(k)
    case WantLookup(_, k) => TaskOwner(k)
    case Lookup(_, k) => TaskOwner(k)
    case Sending(_, k, _) => TaskOwner(k)
    case WantDrop(k, _) => TaskOwner(k)
    case Dropping(k, _) => TaskOwner(k)
    case _ => Nobody
  }

  function TaskOwner(k: Task): Owner {
    if k.Receiver? then Loop(k.id) else Nobody
  }

  predicate Drops(pc: Pc, id: ConnId) {
    (pc.WantDrop? || pc.Dropping?) && pc.target == id
  }

  /** What a goroutine's position says about the shared state. */
  ghost predicate ThreadOk(sh: Shared, t: Tid, pc: Pc) {
    && (OwnerOf(pc).Loop? ==> OwnerOf(pc).id < |sh.sockets| && sh.sockets[OwnerOf(pc).id].acceptor == t)
    && (pc.Sending? ==>
          forall id :: id in pc.todo ==> id in sh.conns && !Doomed(sh.log, id))
    && (pc.WantDrop? || pc.Dropping? ==> pc.target in sh.conns && Doomed(sh.log, pc.target))
  }

  ghost predicate ThreadsOk(s: State) {
    forall t :: t in s.threads ==> ThreadOk(s.sh, t, s.threads[t])
  }

  predicate LockMatches(s: State, t: Tid, l: Lock) {
    (t, l) in s.held <==> t in s.threads && l in Held(s.threads[t])
  }

  /** The locks held are those of the critical sections the goroutines are in. */
  ghost predicate LocksMatch(s: State) {
    forall t, l :: LockMatches(s, t, l)
  }

  ghost predicate Exclusive(s: State) {
    forall t, l, u, m :: (t, l) in s.held && (u, m) in s.held && t != u ==> !Conflict(l, m)
  }

  /** The goroutine of `Accept` for a connection, and whether it is done. */
  ghost predicate LoopOk(s: State, id: ConnId)
    requires id < |s.sh.sockets|
  {
    var t := s.sh.sockets[id].acceptor;
    && t in s.threads && OwnerOf(s.threads[t]) == Loop(id)
    && (Closed(id) in s.sh.log <==> s.threads[t].Finished?)
  }

  ghost predicate LoopsOk(s: State) {
    forall id :: 0 <= id < |s.sh.sockets| ==> LoopOk(s, id)
  }

  predicate CamIdOk(sh: Shared, id: ConnId) {
    id < sh.nextConnID && Closed(id) !in sh.log
  }

  ghost predicate CamLive(sh: Shared) {
    forall a :: a in sh.cam ==> CamIdOk(sh, sh.cam[a])
  }

  ghost predicate Dropper(s: State, t: Tid, id: ConnId) {
    t in s.threads && Drops(s.threads[t], id)
  }

  /** A connection with a failed write still in the table is about to be taken out. */
  ghost predicate DoomedHandled(s: State) {
    forall id :: id in s.sh.conns && Doomed(s.sh.log, id) ==> exists t :: Dropper(s, t, id)
  }

  /** Only failed writes drop connections, and only dropped connections lead to a panic. */
  ghost predicate Blame(log: seq<Event>) {
    && (forall id :: Dropped(id) in log ==> Doomed(log, id))
    && (Panicked in log ==> exists id :: Dropped(id) in log)
  }

  ghost predicate Inv(s: State) {
    && SharedInv(s.sh)
    && LocksMatch(s)
    && Exclusive(s)
    && ThreadsOk(s)
    && LoopsOk(s)
    && CamLive(s.sh)
    && DoomedHandled(s)
    && Blame(s.sh.log)
  }
}
