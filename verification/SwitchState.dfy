/**
 The state the virtual switch shares between its goroutines, the updates the code makes
 to it inside its critical sections, and what each update keeps true of the history.
 */
module SwitchState {
  import opened Protocols

  type ConnId = nat

  /** A goroutine. */
  type Tid = nat

  type Mac = Bytes

  /** Long enough to hold an Ethernet header. */
  type Frame = f: Bytes | |f| >= 14 witness seq(14, _ => 0)

  const BROADCAST: Mac := [255, 255, 255, 255, 255, 255]

  /** Addition on a 64-bit unsigned counter. */
  function Add64(a: nat, b: nat): nat {
    (a + b) % WORD
  }

  function Dst(f: Frame): Mac {
    f[0..6]
  }

  function Src(f: Frame): Mac {
    f[6..12]
  }

  /** A frame starts with its destination and its source. */
  lemma AddressFields(destination: Mac, source: Mac, rest: Bytes)
    requires |destination| == |source| == 6 && |rest| >= 2
    ensures Dst(destination + source + rest) == destination && Src(destination + source + rest) == source
  {
  }

  /** What happened, in order. `Dropped` is the disconnect after a failed write, `Closed`
      the deferred one when `Accept` returns. */
  datatype Event =
    | Connected(id: ConnId)
    | Learned(mac: Mac, id: ConnId)
    | Wrote(id: ConnId, frame: Frame)
    | WriteFailed(id: ConnId, frame: Frame, n: nat)
    | Dropped(id: ConnId)
    | Closed(id: ConnId)
    | Processed(id: ConnId, frame: Frame)
    | Panicked

  /** A connection as its peer sees it: every `Write` call's bytes. */
  datatype Socket = Socket(proto: Protocol, acceptor: Tid, written: seq<Bytes>)

  /** The fields of `Switch`; `sockets` (one per id ever issued) and `log` record the past. */
  datatype Shared = Shared(
    gateway: Mac,
    nextConnID: nat,
    conns: map<ConnId, Protocol>,
    cam: map<Mac, ConnId>,
    sent: nat,
    received: nat,
    sockets: seq<Socket>,
    log: seq<Event>)

  // ----- The updates

  function InitShared(gateway: Mac): Shared {
    Shared(gateway, 0, map[], map[], 0, 0, [], [])
  }

  function Connect(sh: Shared, p: Protocol, t: Tid): Shared {
    sh.(nextConnID := sh.nextConnID + 1,
        conns := sh.conns[sh.nextConnID := p],
        sockets := sh.sockets + [Socket(p, t, [])],
        log := sh.log + [Connected(sh.nextConnID)])
  }

  function Learn(sh: Shared, a: Mac, id: ConnId): Shared {
    sh.(cam := sh.cam[a := id], log := sh.log + [Learned(a, id)])
  }

  /** The bytes of one `Write` call reach the socket. */
  function Put(sockets: seq<Socket>, id: ConnId, bytes: Bytes): seq<Socket>
    requires id < |sockets|
  {
    sockets[id := sockets[id].(written := sockets[id].written + [bytes])]
  }

  function Write(sh: Shared, id: ConnId, f: Frame): Shared
    requires id < |sh.sockets|
  {
    sh.(sockets := Put(sh.sockets, id, Packet(sh.sockets[id].proto, f)),
        sent := Add64(sh.sent, |f|),
        log := sh.log + [Wrote(id, f)])
  }

  /** A failed write may have sent the first `n` bytes of the packet. */
  function FailWrite(sh: Shared, id: ConnId, f: Frame, n: nat): Shared
    requires id < |sh.sockets| && n <= |Packet(sh.sockets[id].proto, f)|
  {
    sh.(sockets := Put(sh.sockets, id, Packet(sh.sockets[id].proto, f)[..n]),
        log := sh.log + [WriteFailed(id, f, n)])
  }

  function Disconnect(sh: Shared, id: ConnId, e: Event): Shared {
    sh.(cam := map a | a in sh.cam && sh.cam[a] != id :: sh.cam[a],
        conns := sh.conns - {id},
        log := sh.log + [e])
  }

  function Count(sh: Shared, id: ConnId, f: Frame): Shared {
    sh.(received := Add64(sh.received, |f|), log := sh.log + [Processed(id, f)])
  }

  // ----- The history

  predicate Removes(e: Event, id: ConnId) {
    e == Dropped(id) || e == Closed(id)
  }

  predicate Gone(log: seq<Event>, id: ConnId) {
    Dropped(id) in log || Closed(id) in log
  }

  /** A write to the connection has failed. */
  predicate Doomed(log: seq<Event>, id: ConnId) {
    exists i :: 0 <= i < |log| && log[i].WriteFailed? && log[i].id == id
  }

  /** What cancels `Learned(a, id)`: learning the address again, or disconnecting `id`. */
  predicate Overrides(e: Event, a: Mac, id: ConnId) {
    (e.Learned? && e.mac == a) || Removes(e, id)
  }

  predicate LastLearnedAt(log: seq<Event>, i: nat, a: Mac, id: ConnId)
    requires i < |log|
  {
    log[i] == Learned(a, id) && forall j :: i < j < |log| ==> !Overrides(log[j], a, id)
  }

  /** The last frame with source `a` came from `id`, and `id` was not disconnected since. */
  predicate LastLearned(log: seq<Event>, a: Mac, id: ConnId) {
    exists i :: 0 <= i < |log| && LastLearnedAt(log, i, a, id)
  }

  /** The frames written to a connection, in order. */
  function FramesTo(log: seq<Event>, id: ConnId): seq<Frame> {
    if log == [] then [] else
      var e := log[|log| - 1];
      FramesTo(log[..|log| - 1], id) + if e.Wrote? && e.id == id then [e.frame] else []
  }

  /** The pieces left on a connection by failed writes. */
  function CutTail(log: seq<Event>, id: ConnId, p: Protocol): seq<Bytes> {
    if log == [] then [] else
      var e := log[|log| - 1];
      CutTail(log[..|log| - 1], id, p)
      + if e.WriteFailed? && e.id == id && e.n <= |Packet(p, e.frame)| then [Packet(p, e.frame)[..e.n]] else []
  }

  function BytesWritten(log: seq<Event>): nat {
    if log == [] then 0 else
      var e := log[|log| - 1];
      BytesWritten(log[..|log| - 1]) + if e.Wrote? then |e.frame| else 0
  }

  function BytesProcessed(log: seq<Event>): nat {
    if log == [] then 0 else
      var e := log[|log| - 1];
      BytesProcessed(log[..|log| - 1]) + if e.Processed? then |e.frame| else 0
  }

  // ----- The invariant of the shared state

  /** The connection table holds exactly the ids issued and not disconnected. */
  ghost predicate ConnsAgree(sh: Shared) {
    && |sh.sockets| == sh.nextConnID
    && (forall i :: 0 <= i < |sh.log| && !sh.log[i].Panicked? ==> sh.log[i].id < sh.nextConnID)
    && (forall id: nat :: id in sh.conns <==> id < sh.nextConnID && !Gone(sh.log, id))
    && (forall id :: id in sh.conns ==> sh.conns[id] == sh.sockets[id].proto)
  }

  predicate Maps(cam: map<Mac, ConnId>, a: Mac, id: ConnId) {
    a in cam && cam[a] == id
  }

  /** The address table is the one the history calls for. */
  ghost predicate CamAgrees(sh: Shared) {
    forall a, id :: Maps(sh.cam, a, id) <==> LastLearned(sh.log, a, id)
  }

  ghost predicate CountersAgree(sh: Shared) {
    && sh.sent == BytesWritten(sh.log) % WORD
    && sh.received == BytesProcessed(sh.log) % WORD
  }

  /** A socket carries whole packets, then at most one cut piece left by a failed write. */
  ghost predicate WireAgrees(log: seq<Event>, id: ConnId, socket: Socket) {
    && socket.written == Packets(socket.proto, FramesTo(log, id)) + CutTail(log, id, socket.proto)
    && |CutTail(log, id, socket.proto)| == if Doomed(log, id) then 1 else 0
  }

  ghost predicate WiresAgree(sh: Shared) {
    forall id :: 0 <= id < |sh.sockets| ==> WireAgrees(sh.log, id, sh.sockets[id])
  }

  ghost predicate SharedInv(sh: Shared) {
    ConnsAgree(sh) && CamAgrees(sh) && CountersAgree(sh) && WiresAgree(sh)
  }

  // ----- One more event

  lemma LastLearnedSnoc(log: seq<Event>, e: Event, a: Mac, id: ConnId)
    ensures LastLearned(log + [e], a, id)
       <==> e == Learned(a, id) || (LastLearned(log, a, id) && !Overrides(e, a, id))
  {
    var l := log + [e];
    if LastLearned(l, a, id) {
      var i :| 0 <= i < |l| && LastLearnedAt(l, i, a, id);
      if i < |log| {
        assert l[|log|] == e;
        assert forall j :: i < j < |log| ==> l[j] == log[j];
        assert LastLearnedAt(log, i, a, id);
      }
    }
    if e == Learned(a, id) {
      assert LastLearnedAt(l, |log|, a, id);
    } else if LastLearned(log, a, id) && !Overrides(e, a, id) {
      var i :| 0 <= i < |log| && LastLearnedAt(log, i, a, id);
      assert LastLearnedAt(l, i, a, id);
    }
  }

  lemma DoomedSnoc(log: seq<Event>, e: Event, id: ConnId)
    ensures Doomed(log + [e], id) <==> Doomed(log, id) || (e.WriteFailed? && e.id == id)
  {
    var l := log + [e];
    if Doomed(log, id) {
      var i :| 0 <= i < |log| && log[i].WriteFailed? && log[i].id == id;
      assert l[i].WriteFailed? && l[i].id == id;
    }
    if e.WriteFailed? && e.id == id {
      assert l[|log|].WriteFailed? && l[|log|].id == id;
    }
  }

  lemma SumsSnoc(log: seq<Event>, e: Event)
    ensures BytesWritten(log + [e]) == BytesWritten(log) + if e.Wrote? then |e.frame| else 0
    ensures BytesProcessed(log + [e]) == BytesProcessed(log) + if e.Processed? then |e.frame| else 0
  {
    assert (log + [e])[..|log|] == log;
  }

  lemma WireSame(log: seq<Event>, e: Event, id: ConnId, s: Socket)
    requires WireAgrees(log, id, s) && ((e.Wrote? || e.WriteFailed?) ==> e.id != id)
    ensures WireAgrees(log + [e], id, s)
  {
    assert (log + [e])[..|log|] == log;
    DoomedSnoc(log, e, id);
  }

  lemma WireWrote(log: seq<Event>, id: ConnId, s: Socket, f: Frame)
    requires WireAgrees(log, id, s) && !Doomed(log, id)
    ensures WireAgrees(log + [Wrote(id, f)], id, s.(written := s.written + [Packet(s.proto, f)]))
  {
    var e := Wrote(id, f);
    assert (log + [e])[..|log|] == log;
    DoomedSnoc(log, e, id);
    PacketsSnoc(s.proto, FramesTo(log, id), f);
  }

  lemma WireCut(log: seq<Event>, id: ConnId, s: Socket, f: Frame, n: nat)
    requires WireAgrees(log, id, s) && !Doomed(log, id) && n <= |Packet(s.proto, f)|
    ensures WireAgrees(log + [WriteFailed(id, f, n)], id, s.(written := s.written + [Packet(s.proto, f)[..n]]))
  {
    var e := WriteFailed(id, f, n);
    assert (log + [e])[..|log|] == log;
    DoomedSnoc(log, e, id);
  }

  lemma PacketsSnoc(p: Protocol, frames: seq<Bytes>, f: Bytes)
    ensures Packets(p, frames + [f]) == Packets(p, frames) + [Packet(p, f)]
  {
  }

  lemma CountersStep(sum: nat, more: nat)
    ensures Add64(sum % WORD, more) == (sum + more) % WORD
  {
  }

  lemma KeepCounters(sh: Shared, sh': Shared, e: Event)
    requires CountersAgree(sh) && sh'.log == sh.log + [e]
    requires sh'.sent == if e.Wrote? then Add64(sh.sent, |e.frame|) else sh.sent
    requires sh'.received == if e.Processed? then Add64(sh.received, |e.frame|) else sh.received
    ensures CountersAgree(sh')
  {
    SumsSnoc(sh.log, e);
    CountersStep(BytesWritten(sh.log), if e.Wrote? then |e.frame| else 0);
    CountersStep(BytesProcessed(sh.log), if e.Processed? then |e.frame| else 0);
  }

  lemma KeepCam(sh: Shared, sh': Shared, e: Event)
    requires CamAgrees(sh) && sh'.log == sh.log + [e] && sh'.cam == sh.cam
    requires !e.Learned? && !e.Dropped? && !e.Closed?
    ensures CamAgrees(sh')
  {
    forall a, id
      ensures Maps(sh'.cam, a, id) <==> LastLearned(sh'.log, a, id)
    {
      LastLearnedSnoc(sh.log, e, a, id);
    }
  }

  lemma LearnCam(sh: Shared, a: Mac, id: ConnId)
    requires CamAgrees(sh)
    ensures CamAgrees(Learn(sh, a, id))
  {
    var sh' := Learn(sh, a, id);
    forall a', id'
      ensures Maps(sh'.cam, a', id') <==> LastLearned(sh'.log, a', id')
    {
      LastLearnedSnoc(sh.log, Learned(a, id), a', id');
    }
  }

  lemma DisconnectCam(sh: Shared, id: ConnId, e: Event)
    requires CamAgrees(sh) && Removes(e, id)
    ensures CamAgrees(Disconnect(sh, id, e))
  {
    var sh' := Disconnect(sh, id, e);
    forall a', id'
      ensures Maps(sh'.cam, a', id') <==> LastLearned(sh'.log, a', id')
    {
      LastLearnedSnoc(sh.log, e, a', id');
    }
  }

  /** Events that are not writes leave every socket's account as it was. */
  lemma KeepWires(sh: Shared, sh': Shared, e: Event)
    requires WiresAgree(sh) && sh'.log == sh.log + [e] && !e.Wrote? && !e.WriteFailed?
    requires sh'.sockets == sh.sockets
    ensures WiresAgree(sh')
  {
    forall id | 0 <= id < |sh'.sockets|
      ensures WireAgrees(sh'.log, id, sh'.sockets[id])
    {
      WireSame(sh.log, e, id, sh.sockets[id]);
    }
  }

  lemma GoneSnoc(log: seq<Event>, e: Event, id: ConnId)
    ensures Gone(log + [e], id) <==> Gone(log, id) || Removes(e, id)
  {
  }

  /** Events that are not disconnects, with the same ids, leave the connection table right. */
  lemma KeepConns(sh: Shared, sh': Shared, e: Event)
    requires ConnsAgree(sh) && sh'.log == sh.log + [e]
    requires e.Panicked? || e.id < sh.nextConnID
    requires sh'.nextConnID == sh.nextConnID && |sh'.sockets| == |sh.sockets|
    requires forall i :: 0 <= i < |sh.sockets| ==> sh'.sockets[i].proto == sh.sockets[i].proto
    requires sh'.conns == if e.Dropped? || e.Closed? then sh.conns - {e.id} else sh.conns
    ensures ConnsAgree(sh')
  {
    forall id: nat
      ensures id in sh'.conns <==> id < sh'.nextConnID && !Gone(sh'.log, id)
    {
      GoneSnoc(sh.log, e, id);
    }
  }

  // ----- Each update keeps the invariant

  lemma InitInv(gateway: Mac)
    ensures SharedInv(InitShared(gateway))
  {
  }

  lemma ConnectKeeps(sh: Shared, p: Protocol, t: Tid)
    requires SharedInv(sh)
    ensures SharedInv(Connect(sh, p, t))
  {
    var sh', e := Connect(sh, p, t), Connected(sh.nextConnID);
    KeepCounters(sh, sh', e);
    KeepCam(sh, sh', e);
    ConnectConns(sh, p, t);
    ConnectWires(sh, p, t);
  }

  lemma ConnectConns(sh: Shared, p: Protocol, t: Tid)
    requires ConnsAgree(sh)
    ensures ConnsAgree(Connect(sh, p, t))
  {
    var sh', e := Connect(sh, p, t), Connected(sh.nextConnID);
    FreshId(sh, sh.nextConnID);
    forall id: nat
      ensures id in sh'.conns <==> id < sh'.nextConnID && !Gone(sh'.log, id)
    {
      GoneSnoc(sh.log, e, id);
    }
  }

  lemma ConnectWires(sh: Shared, p: Protocol, t: Tid)
    requires ConnsAgree(sh) && WiresAgree(sh)
    ensures WiresAgree(Connect(sh, p, t))
  {
    var sh', e := Connect(sh, p, t), Connected(sh.nextConnID);
    FreshWire(sh, p, t);
    forall id | 0 <= id < |sh'.sockets|
      ensures WireAgrees(sh'.log, id, sh'.sockets[id])
    {
      WireSame(sh.log, e, id, sh'.sockets[id]);
    }
  }

  lemma FreshWire(sh: Shared, p: Protocol, t: Tid)
    requires ConnsAgree(sh)
    ensures WireAgrees(sh.log, sh.nextConnID, Socket(p, t, []))
  {
    FreshId(sh, sh.nextConnID);
    assert Packets(p, []) == [];
  }

  /** Nothing has happened yet to an id that was never issued. */
  lemma FreshId(sh: Shared, id: ConnId)
    requires ConnsAgree(sh) && id >= sh.nextConnID
    ensures !Gone(sh.log, id) && !Doomed(sh.log, id) && FramesTo(sh.log, id) == []
    ensures forall p :: CutTail(sh.log, id, p) == []
  {
    NothingTo(sh.log, id);
  }

  lemma {:induction false} NothingTo(log: seq<Event>, id: ConnId)
    requires forall i :: 0 <= i < |log| && !log[i].Panicked? ==> log[i].id != id
    ensures FramesTo(log, id) == []
    ensures forall p :: CutTail(log, id, p) == []
  {
    if log != [] {
      NothingTo(log[..|log| - 1], id);
    }
  }

  lemma LearnKeeps(sh: Shared, a: Mac, id: ConnId)
    requires SharedInv(sh) && id < sh.nextConnID
    ensures SharedInv(Learn(sh, a, id))
  {
    var sh', e := Learn(sh, a, id), Learned(a, id);
    KeepConns(sh, sh', e);
    KeepCounters(sh, sh', e);
    LearnCam(sh, a, id);
    KeepWires(sh, sh', e);
  }

  lemma WriteKeeps(sh: Shared, id: ConnId, f: Frame)
    requires SharedInv(sh) && id < sh.nextConnID && !Doomed(sh.log, id)
    ensures SharedInv(Write(sh, id, f))
  {
    var sh', e := Write(sh, id, f), Wrote(id, f);
    KeepConns(sh, sh', e);
    KeepCounters(sh, sh', e);
    KeepCam(sh, sh', e);
    WriteWires(sh, id, f);
  }

  lemma WriteWires(sh: Shared, id: ConnId, f: Frame)
    requires WiresAgree(sh) && id < |sh.sockets| && !Doomed(sh.log, id)
    ensures WiresAgree(Write(sh, id, f))
  {
    var sh', e := Write(sh, id, f), Wrote(id, f);
    forall other | 0 <= other < |sh'.sockets|
      ensures WireAgrees(sh'.log, other, sh'.sockets[other])
    {
      if other == id {
        WireWrote(sh.log, id, sh.sockets[id], f);
      } else {
        WireSame(sh.log, e, other, sh.sockets[other]);
      }
    }
  }

  lemma FailWriteKeeps(sh: Shared, id: ConnId, f: Frame, n: nat)
    requires SharedInv(sh) && id < sh.nextConnID && !Doomed(sh.log, id)
    requires n <= |Packet(sh.sockets[id].proto, f)|
    ensures SharedInv(FailWrite(sh, id, f, n))
  {
    var sh', e := FailWrite(sh, id, f, n), WriteFailed(id, f, n);
    KeepConns(sh, sh', e);
    KeepCounters(sh, sh', e);
    KeepCam(sh, sh', e);
    FailWires(sh, id, f, n);
  }

  lemma FailWires(sh: Shared, id: ConnId, f: Frame, n: nat)
    requires WiresAgree(sh) && id < |sh.sockets| && !Doomed(sh.log, id)
    requires n <= |Packet(sh.sockets[id].proto, f)|
    ensures WiresAgree(FailWrite(sh, id, f, n))
  {
    var sh', e := FailWrite(sh, id, f, n), WriteFailed(id, f, n);
    forall other | 0 <= other < |sh'.sockets|
      ensures WireAgrees(sh'.log, other, sh'.sockets[other])
    {
      if other == id {
        WireCut(sh.log, id, sh.sockets[id], f, n);
      } else {
        WireSame(sh.log, e, other, sh.sockets[other]);
      }
    }
  }

  lemma DisconnectKeeps(sh: Shared, id: ConnId, e: Event)
    requires SharedInv(sh) && id < sh.nextConnID && Removes(e, id)
    ensures SharedInv(Disconnect(sh, id, e))
  {
    var sh' := Disconnect(sh, id, e);
    KeepConns(sh, sh', e);
    KeepCounters(sh, sh', e);
    DisconnectCam(sh, id, e);
    KeepWires(sh, sh', e);
  }

  lemma CountKeeps(sh: Shared, id: ConnId, f: Frame)
    requires SharedInv(sh) && id < sh.nextConnID
    ensures SharedInv(Count(sh, id, f))
  {
    var sh', e := Count(sh, id, f), Processed(id, f);
    KeepConns(sh, sh', e);
    KeepCounters(sh, sh', e);
    KeepCam(sh, sh', e);
    KeepWires(sh, sh', e);
  }

  lemma PanicKeeps(sh: Shared)
    requires SharedInv(sh)
    ensures SharedInv(sh.(log := sh.log + [Panicked]))
  {
    var sh' := sh.(log := sh.log + [Panicked]);
    KeepConns(sh, sh', Panicked);
    KeepCounters(sh, sh', Panicked);
    KeepCam(sh, sh', Panicked);
    KeepWires(sh, sh', Panicked);
  }

  // ----- What the invariant says to a peer

  /** A write of the frame failed after its whole packet had gone out. */
  predicate WentOut(log: seq<Event>, id: ConnId, p: Protocol, f: Frame) {
    WriteFailed(id, f, |Packet(p, f)|) in log
  }

  /** Every frame whose write to the connection succeeded or failed is below the size limit. */
  ghost predicate AllFitTo(log: seq<Event>, id: ConnId, p: Protocol)
    requires Stream(p)
  {
    AllFit(p, FramesTo(log, id)) && forall f, n :: WriteFailed(id, f, n) in log ==> |f| < SizeLimit(p)
  }

  /** The peer of a stream connection decodes exactly the frames the switch wrote to it, in
      order, and after them the frame of a failed write exactly if all of it went out. */
  lemma PeerDecodes(sh: Shared, id: ConnId)
    requires WiresAgree(sh) && id < |sh.sockets|
    requires Stream(sh.sockets[id].proto) && AllFitTo(sh.log, id, sh.sockets[id].proto)
    ensures var p := sh.sockets[id].proto;
            var got := Decode(p, Flatten(sh.sockets[id].written)).frames;
            && (forall f :: WentOut(sh.log, id, p, f) ==> got == FramesTo(sh.log, id) + [f])
            && ((forall f :: !WentOut(sh.log, id, p, f)) ==> got == FramesTo(sh.log, id))
  {
    var p, frames := sh.sockets[id].proto, FramesTo(sh.log, id);
    var tail := CutTail(sh.log, id, p);
    assert WireAgrees(sh.log, id, sh.sockets[id]);
    FlattenConcat(Packets(p, frames), tail);
    DecodeEncode(p, frames, Flatten(tail));
    forall f: Frame | WentOut(sh.log, id, p, f)
      ensures Decode(p, Flatten(tail)).frames == [f]
    {
      CutTailHas(sh.log, id, p, f, |Packet(p, f)|);
      assert Packet(p, f)[..|Packet(p, f)|] == Packet(p, f);
      assert tail == [Packet(p, f)];
      TailDecodes(p, tail, f, |Packet(p, f)|);
    }
    if forall f :: !WentOut(sh.log, id, p, f) {
      if tail != [] {
        var f, n := CutIsPartial(sh.log, id, p);
        assert n != |Packet(p, f)| by {
          assert !WentOut(sh.log, id, p, f);
        }
        TailDecodes(p, tail, f, n);
      }
      assert frames + [] == frames;
    }
  }

  lemma TailDecodes(p: Protocol, tail: seq<Bytes>, f: Bytes, n: nat)
    requires Stream(p) && |f| < SizeLimit(p) && n <= |Packet(p, f)| && tail == [Packet(p, f)[..n]]
    ensures Decode(p, Flatten(tail)).frames == if n == |Packet(p, f)| then [f] else []
  {
    assert Flatten(tail) == tail[0] + Flatten(tail[1..]) == tail[0];
    CutDecodes(p, f, n);
  }

  lemma {:induction false} CutTailHas(log: seq<Event>, id: ConnId, p: Protocol, f: Frame, n: nat)
    requires WriteFailed(id, f, n) in log && n <= |Packet(p, f)|
    ensures Packet(p, f)[..n] in CutTail(log, id, p)
  {
    if log[|log| - 1] != WriteFailed(id, f, n) {
      CutTailHas(log[..|log| - 1], id, p, f, n);
    }
  }

  lemma CutDecodes(p: Protocol, f: Bytes, n: nat)
    requires Stream(p) && |f| < SizeLimit(p) && n <= |Packet(p, f)|
    ensures Decode(p, Packet(p, f)[..n]).frames == if n == |Packet(p, f)| then [f] else []
  {
    if n < |Packet(p, f)| {
      PartialPacket(p, f, n);
    } else {
      assert Packet(p, f)[..n] == Packet(p, f) + [];
      DecodeOne(p, f, []);
    }
  }

  lemma {:induction false} CutIsPartial(log: seq<Event>, id: ConnId, p: Protocol) returns (f: Frame, n: nat)
    requires |CutTail(log, id, p)| == 1
    ensures n <= |Packet(p, f)| && CutTail(log, id, p) == [Packet(p, f)[..n]]
    ensures WriteFailed(id, f, n) in log
  {
    var e := log[|log| - 1];
    if CutTail(log[..|log| - 1], id, p) == [] {
      f, n := e.frame, e.n;
    } else {
      f, n := CutIsPartial(log[..|log| - 1], id, p);
    }
  }
}
