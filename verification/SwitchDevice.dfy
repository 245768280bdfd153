/**
 The switch's own code, one call at a time: the methods that update the tables, forward a
 frame and handle a received one.
 */
module SwitchDevice {
  import opened Protocols
  import opened SwitchState
  import opened SwitchRuns
  import opened Options

  /** What the gateway is handed: the protocol number and the frame without its header. */
  datatype Delivery = Delivery(etherType: nat, payload: Bytes)

  datatype TxResult = Delivered | WriteError(id: ConnId) | NilConnection

  predicate Stray(sh: Shared, f: Frame) {
    Dst(f) != BROADCAST && Dst(f) in sh.cam && sh.cam[Dst(f)] !in sh.conns
  }

  /** Connections in the table have sockets of their protocol. */
  predicate Wired(sh: Shared) {
    |sh.sockets| == sh.nextConnID
    && forall id :: id in sh.conns ==> id < |sh.sockets| && sh.sockets[id].proto == sh.conns[id]
  }

  predicate Distinct(ids: seq<ConnId>) {
    forall i, j :: 0 <= i < j < |ids| ==> ids[i] != ids[j]
  }

  /** The connections a broadcast loop does not skip; -1 skips none. */
  function AllBut(conns: map<ConnId, Protocol>, srcID: int): set<ConnId> {
    set id | id in conns && id != srcID
  }

  predicate Known(sh: Shared, ids: seq<ConnId>) {
    forall i :: 0 <= i < |ids| ==> ids[i] < |sh.sockets|
  }

  function Elements(ids: seq<ConnId>): set<ConnId> {
    set id | id in ids
  }

  /** One copy of the frame written to each connection of the list, in turn. */
  ghost function WriteAll(sh: Shared, order: seq<ConnId>, f: Frame): (r: Shared)
    requires Known(sh, order)
    ensures |r.sockets| == |sh.sockets|
  {
    if order == [] then sh
    else Write(WriteAll(sh, order[..|order| - 1], f), order[|order| - 1], f)
  }

  /** Every connection of the list gets the packet exactly once and no other gets anything;
      only the sockets, the counter and the log change. */
  lemma {:induction false} WriteAllEffect(sh: Shared, order: seq<ConnId>, f: Frame)
    requires Known(sh, order) && Distinct(order)
    ensures var r := WriteAll(sh, order, f);
            && r == sh.(sockets := r.sockets, sent := r.sent, log := r.log)
            && r.log == sh.log + seq(|order|, i requires 0 <= i < |order| => Wrote(order[i], f))
            && (forall id :: 0 <= id < |sh.sockets| ==>
                  && r.sockets[id].proto == sh.sockets[id].proto
                  && r.sockets[id].written == sh.sockets[id].written
                       + if id in order then [Packet(sh.sockets[id].proto, f)] else [])
  {
    if order != [] {
      var n := |order| - 1;
      var before, last := order[..n], order[n];
      WriteAllEffect(sh, before, f);
      assert order == before + [last];
      assert last !in before;
    }
  }

  lemma {:induction false} WriteAllCounter(sh: Shared, order: seq<ConnId>, f: Frame)
    requires Known(sh, order) && sh.sent < WORD
    ensures WriteAll(sh, order, f).sent == Add64(sh.sent, Times(|order|, |f|))
  {
    if order != [] {
      WriteAllCounter(sh, order[..|order| - 1], f);
      AddTwice(sh.sent, Times(|order| - 1, |f|), |f|);
    }
  }

  function Times(n: nat, k: nat): (r: nat)
    ensures r == n * k
  {
    if n == 0 then 0 else Times(n - 1, k) + k
  }

  lemma AddTwice(a: nat, x: nat, y: nat)
    ensures Add64(Add64(a, x), y) == Add64(a, x + y)
  {
  }

  class Switch {
    const gateway: Mac
    var sent: nat
    var received: nat
    var nextConnID: nat
    var conns: map<ConnId, Protocol>
    var cam: map<Mac, ConnId>
    ghost var sockets: seq<Socket>
    ghost var log: seq<Event>

    ghost function View(): Shared
      reads this
    {
      Shared(gateway, nextConnID, conns, cam, sent, received, sockets, log)
    }

    ghost predicate Valid()
      reads this
    {
      Wired(View())
    }

    constructor (gateway: Mac)
      ensures Valid() && View() == InitShared(gateway)
    {
      this.gateway := gateway;
      sent, received, nextConnID, conns, cam := 0, 0, 0, map[], map[];
      sockets, log := [], [];
    }

    /** `connect`: a fresh id for the connection. */
    method Accepted(p: Protocol, ghost t: Tid) returns (id: ConnId)
      requires Valid()
      modifies this
      ensures Valid() && View() == old(Connect(View(), p, t))
      ensures id == old(nextConnID) && id !in old(conns)
    {
      id := nextConnID;
      nextConnID := nextConnID + 1;
      conns := conns[id := p];
      sockets := sockets + [Socket(p, t, [])];
      log := log + [Connected(id)];
    }

    /** `disconnect`: removes the connection and every address learned from it, whatever order
        the table is walked in. */
    method Forget(id: ConnId, ghost e: Event)
      modifies this
      ensures View() == old(Disconnect(View(), id, e))
    {
      var todo := cam.Keys;
      while todo != {}
        invariant todo <= cam.Keys
        invariant forall a :: a in cam <==> a in old(cam) && (a in todo || old(cam)[a] != id)
        invariant forall a :: a in cam ==> cam[a] == old(cam)[a]
        invariant View() == old(View()).(cam := cam)
        decreases todo
      {
        var a :| a in todo;
        todo := todo - {a};
        if cam[a] == id {
          cam := cam - {a};
        }
      }
      assert cam == Disconnect(old(View()), id, e).cam;
      conns := conns - {id};
      log := log + [e];
    }

    /** `txBuf`: one `Write` call with the prefix, if the protocol has one, and the frame. A
        connection in `failing` refuses it after that many bytes and is disconnected. */
    method TxBuf(id: ConnId, buf: Frame, failing: map<ConnId, nat>) returns (ok: bool)
      requires Valid() && id in conns
      modifies this
      ensures ok == (id !in failing)
      ensures ok ==> View() == old(View()).(sockets := old(Put(sockets, id, Packet(conns[id], buf))))
      ensures !ok ==> Valid() && View() == Failed(old(View()), id, buf, failing[id])
    {
      var packet: Bytes := buf;
      if Stream(conns[id]) {
        var size := new byte[PrefixLength(conns[id])](i => 0);
        WriteSize(conns[id], size, |buf|);
        assert size[..] == size[..PrefixLength(conns[id])];
        packet := size[..] + buf;
      }
      assert packet == Packet(sockets[id].proto, buf);
      if id !in failing {
        sockets := Put(sockets, id, packet);
        return true;
      }
      ghost var n := if failing[id] <= |packet| then failing[id] else |packet|;
      sockets := Put(sockets, id, packet[..n]);
      log := log + [WriteFailed(id, buf, n)];
      Forget(id, Dropped(id));
      ok := false;
    }

    /** `txPkt`. A broadcast goes to every connection but the one its source was learned from,
        in arbitrary order; any other frame to the one its destination was learned from. */
    method TxPkt(f: Frame, failing: map<ConnId, nat>) returns (r: TxResult, ghost order: seq<ConnId>)
      requires Valid()
      modifies this
      ensures Valid()
      ensures Distinct(order) && Known(old(View()), order) && received == old(received)
      ensures r.NilConnection? <==> Stray(old(View()), f)
      ensures r.NilConnection? ==> View() == old(View())
      ensures r.Delivered? ==> Elements(order) == Targets(old(View()), f)
      ensures r.Delivered? ==> View() == WriteAll(old(View()), order, f)
      ensures r.WriteError? ==> r.id in failing && r.id !in order && r.id in old(conns)
      ensures r.WriteError? ==> Elements(order) + {r.id} <= Targets(old(View()), f)
      ensures r.WriteError? ==> View() == Failed(WriteAll(old(View()), order, f), r.id, f, failing[r.id])
      ensures !r.NilConnection? ==> (r.Delivered? <==> Targets(old(View()), f) !! failing.Keys)
      ensures r.Delivered? && Dst(f) == BROADCAST ==>
                forall id :: id in order <==> id in old(conns) && (Src(f) in old(cam) ==> id != old(cam)[Src(f)])
      ensures r.Delivered? && Dst(f) != BROADCAST ==> order == if Dst(f) in old(cam) then [old(cam)[Dst(f)]] else []
      ensures r.WriteError? && Dst(f) == BROADCAST ==>
                forall id :: id in order || id == r.id ==> id in old(conns) && (Src(f) in old(cam) ==> id != old(cam)[Src(f)])
      ensures r.WriteError? && Dst(f) != BROADCAST ==> order == [] && Dst(f) in old(cam) && r.id == old(cam)[Dst(f)]
    {
      order := [];
      if Dst(f) == BROADCAST {
        var srcID: int := if Src(f) in cam then cam[Src(f)] else -1;
        r, order := Broadcast(f, srcID, failing);
        assert forall id :: id in order <==> id in Elements(order);
      } else if Dst(f) !in cam {
        r := Delivered;
      } else if cam[Dst(f)] !in conns {
        r := NilConnection;
      } else {
        ghost var sh := View();
        var id := cam[Dst(f)];
        var ok := SendOne(id, f, failing);
        if ok {
          r, order := Delivered, [id];
          assert WriteAll(sh, [id], f) == Write(WriteAll(sh, [id][..0], f), id, f);
        } else {
          r := WriteError(id);
        }
      }
    }

    /** The connections are visited in an arbitrary order, up to the first that fails. */
    method Broadcast(f: Frame, srcID: int, failing: map<ConnId, nat>) returns (r: TxResult, ghost order: seq<ConnId>)
      requires Valid()
      modifies this
      ensures Valid() && !r.NilConnection? && received == old(received)
      ensures Distinct(order) && Known(old(View()), order)
      ensures r.Delivered? ==> Elements(order) == AllBut(old(conns), srcID) && Elements(order) !! failing.Keys
      ensures r.Delivered? ==> View() == WriteAll(old(View()), order, f)
      ensures r.WriteError? ==> r.id in failing && r.id !in order && Elements(order) + {r.id} <= AllBut(old(conns), srcID)
      ensures r.WriteError? ==> View() == Failed(WriteAll(old(View()), order, f), r.id, f, failing[r.id])
    {
      order := [];
      var todo := AllBut(conns, srcID);
      while todo != {}
        invariant Valid() && conns == old(conns) && |sockets| == |old(sockets)| && received == old(received)
        invariant AllBut(old(conns), srcID) == todo + Elements(order)
        invariant todo !! Elements(order) && Elements(order) !! failing.Keys
        invariant Distinct(order) && Known(old(View()), order)
        invariant View() == WriteAll(old(View()), order, f)
        decreases todo
      {
        var id :| id in todo;
        var ok := SendOne(id, f, failing);
        if !ok {
          return WriteError(id), order;
        }
        todo := todo - {id};
        SnocOrder(old(View()), order, id, f);
        order := order + [id];
      }
      r := Delivered;
    }

    /** `txBuf` and the counter update after it. */
    method SendOne(id: ConnId, f: Frame, failing: map<ConnId, nat>) returns (ok: bool)
      requires Valid() && id in conns
      modifies this
      ensures Valid() && ok == (id !in failing)
      ensures View() == if ok then Write(old(View()), id, f) else Failed(old(View()), id, f, failing[id])
    {
      ok := TxBuf(id, f, failing);
      if ok {
        sent := Add64(sent, |f|);
        log := log + [Wrote(id, f)];
      }
    }

    /** `rxBuf`: learn, forward unless the frame is for the gateway, deliver what is for the
        gateway or for everyone, and count. A panic in `tx` skips the rest. */
    method RxBuf(id: ConnId, buf: Frame, failing: map<ConnId, nat>)
        returns (delivered: Option<Delivery>, r: TxResult, ghost order: seq<ConnId>)
      requires Valid() && id < nextConnID
      modifies this
      ensures Valid()
      ensures var learned := Learn(old(View()), Src(buf), id);
              r.NilConnection? <==> Dst(buf) != gateway && Stray(learned, buf)
      ensures delivered == if !r.NilConnection? && (Dst(buf) == gateway || Dst(buf) == BROADCAST)
                           then Some(Delivery(256 * (buf[12] as int) + buf[13] as int, buf[14..])) else None
      ensures received == if r.NilConnection? then old(received) else (old(received) + |buf|) % 0x1_0000_0000_0000_0000
      ensures Dst(buf) == gateway ==> order == []
      ensures Dst(buf) != gateway && Dst(buf) == BROADCAST && r.Delivered? ==>
                forall other :: other in order <==> other in old(conns) && other != id
      ensures Dst(buf) != gateway && Dst(buf) != BROADCAST && r.Delivered? ==>
                order == if Dst(buf) == Src(buf) then [id] else if Dst(buf) in old(cam) then [old(cam)[Dst(buf)]] else []
      ensures Dst(buf) == gateway ==> View() == Count(Learn(old(View()), Src(buf), id), id, buf)
      ensures Dst(buf) != gateway && r.Delivered? ==>
                var learned := Learn(old(View()), Src(buf), id);
                && Elements(order) == Targets(learned, buf)
                && Known(learned, order)
                && View() == Count(WriteAll(learned, order, buf), id, buf)
      ensures r.WriteError? ==>
                var learned := Learn(old(View()), Src(buf), id);
                && r.id in failing && r.id in Targets(learned, buf) && r.id < |learned.sockets|
                && Known(learned, order) && Elements(order) <= Targets(learned, buf) - {r.id}
                && View() == Count(Failed(WriteAll(learned, order, buf), r.id, buf, failing[r.id]), id, buf)
      ensures r.NilConnection? ==> View() == Learn(old(View()), Src(buf), id)
      ensures Dst(buf) == BROADCAST ==> id !in order
    {
      cam := cam[Src(buf) := id];
      log := log + [Learned(Src(buf), id)];
      r, order := Delivered, [];
      if Dst(buf) != gateway {
        r, order := TxPkt(buf, failing);
        if r.NilConnection? {
          return None, r, order;
        }
      }
      delivered := None;
      if Dst(buf) == gateway || Dst(buf) == BROADCAST {
        delivered := Some(Delivery(256 * (buf[12] as int) + buf[13] as int, buf[14..]));
      }
      received := Add64(received, |buf|);
      log := log + [Processed(id, buf)];
    }
  }

  lemma SnocOrder(sh: Shared, order: seq<ConnId>, id: ConnId, f: Frame)
    requires Known(sh, order) && id < |sh.sockets|
    ensures Known(sh, order + [id]) && WriteAll(sh, order + [id], f) == Write(WriteAll(sh, order, f), id, f)
    ensures Elements(order + [id]) == Elements(order) + {id}
    ensures Distinct(order) && id !in order ==> Distinct(order + [id])
  {
    assert (order + [id])[..|order|] == order;
  }

  /** Between calls: the history is right and no connection in the table has a failed write. */
  ghost predicate Ready(sh: Shared) {
    SharedInv(sh) && forall id :: id in sh.conns ==> !Doomed(sh.log, id)
  }

  /** Events other than a failed write doom no connection. */
  lemma WrittenNotDoomed(log: seq<Event>, e: Event)
    requires !e.WriteFailed?
    ensures forall id :: Doomed(log + [e], id) <==> Doomed(log, id)
  {
    forall id
      ensures Doomed(log + [e], id) <==> Doomed(log, id)
    {
      DoomedSnoc(log, e, id);
    }
  }

  /** A write that failed after at most `n` bytes, and the disconnect that follows. */
  ghost function Failed(sh: Shared, id: ConnId, f: Frame, n: nat): Shared
    requires id < |sh.sockets|
  {
    var packet := Packet(sh.sockets[id].proto, f);
    Disconnect(FailWrite(sh, id, f, if n <= |packet| then n else |packet|), id, Dropped(id))
  }

  /** Forwarding keeps the history right, whether or not a write fails. */
  lemma {:induction false} ForwardingKeeps(sh: Shared, order: seq<ConnId>, f: Frame)
    requires Ready(sh) && Elements(order) <= sh.conns.Keys && Known(sh, order)
    ensures Ready(WriteAll(sh, order, f)) && WriteAll(sh, order, f).conns == sh.conns
  {
    if order != [] {
      var before, last := order[..|order| - 1], order[|order| - 1];
      assert last in Elements(order);
      ForwardingKeeps(sh, before, f);
      var mid := WriteAll(sh, before, f);
      WriteKeeps(mid, last, f);
      WrittenNotDoomed(mid.log, Wrote(last, f));
    }
  }

  lemma FailureKeeps(sh: Shared, id: ConnId, f: Frame, n: nat)
    requires Ready(sh) && id in sh.conns
    ensures Ready(Failed(sh, id, f, n))
  {
    var packet := Packet(sh.sockets[id].proto, f);
    var m := if n <= |packet| then n else |packet|;
    var mid := FailWrite(sh, id, f, m);
    FailWriteKeeps(sh, id, f, m);
    DisconnectKeeps(mid, id, Dropped(id));
    WrittenNotDoomed(mid.log, Dropped(id));
    forall other | other in mid.conns && other != id
      ensures !Doomed(mid.log, other)
    {
      DoomedSnoc(sh.log, WriteFailed(id, f, m), other);
    }
  }

  /** After a failure exactly one connection is gone; every other connection got the packet
      at most once. */
  lemma FailureRemovesOne(sh: Shared, order: seq<ConnId>, f: Frame, bad: ConnId, n: nat)
    requires Known(sh, order) && Distinct(order)
    requires bad < |sh.sockets| && bad !in order
    ensures var r := Failed(WriteAll(sh, order, f), bad, f, n);
            && r.conns == sh.conns - {bad}
            && (forall id :: 0 <= id < |sh.sockets| && id != bad ==>
                  r.sockets[id].written == sh.sockets[id].written
                    + if id in order then [Packet(sh.sockets[id].proto, f)] else [])
  {
    WriteAllEffect(sh, order, f);
  }

  // ----- The method against the interleaving model

  /** One goroutine's moves with nobody else running. */
  ghost predicate Alone(s: State, s': State, t: Tid, path: seq<Action>)
    decreases |path|
  {
    if path == [] then s' == s
    else Enabled(s, t, path[0]) && Alone(Do(s, t, path[0]), s', t, path[1..])
  }

  /** Whatever order the method visits the connections in, the goroutine in the interleaving
      model can make the same writes one move at a time, ending with the same shared state. */
  lemma {:induction false} MethodOrderIsARun(s: State, t: Tid, order: seq<ConnId>) returns (s': State)
    requires t in s.threads && s.threads[t].Sending?
    requires Distinct(order) && Elements(order) == s.threads[t].todo && Known(s.sh, order)
    requires s.threads[t].todo <= s.sh.conns.Keys
    ensures s'.sh == WriteAll(s.sh, order, s.threads[t].frame)
    ensures t in s'.threads && s'.threads[t] == s.threads[t].(todo := {})
    ensures exists path :: Alone(s, s', t, path)
    decreases |order|
  {
    var pc := s.threads[t];
    if order == [] {
      assert pc.todo == {};
      s' := s;
      assert Alone(s, s', t, []);
    } else {
      var a := WriteOk(order[0]);
      assert order[0] in Elements(order);
      assert Fits(s.sh, pc, a);
      var next := Do(s, t, a);
      s' := MethodOrderIsARun(next, t, order[1..]);
      var rest :| Alone(next, s', t, rest);
      assert Alone(s, s', t, [a] + rest);
      WriteFirst(s.sh, order, pc.frame);
    }
  }

  lemma {:induction false} WriteFirst(sh: Shared, order: seq<ConnId>, f: Frame)
    requires order != [] && Known(sh, order)
    ensures WriteAll(sh, order, f) == WriteAll(Write(sh, order[0], f), order[1..], f)
  {
    var n := |order| - 1;
    if n > 0 {
      WriteFirst(sh, order[..n], f);
      assert order[..n][1..] == order[1..][..n - 1];
    }
  }
}
