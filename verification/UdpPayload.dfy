/** What the UDP proxy does with the bytes of each datagram, in both directions. */
module UdpPayload {
  import opened Protocols
  import opened UdpProxy
  import opened UdpSafety

  /** All bytes written to backends, in order. */
  function ToBackends(log: seq<Event>): Bytes {
    if log == [] then [] else
      var e := log[|log| - 1];
      ToBackends(log[..|log| - 1]) + if e.ToBackend? then e.bytes else []
  }

  /** All bytes a backend's reply goroutine wrote to its client, in order. */
  function ToClientOf(log: seq<Event>, c: ConnId): Bytes {
    if log == [] then [] else
      var e := log[|log| - 1];
      ToClientOf(log[..|log| - 1], c) + if e.ToClient? && e.conn == c then e.bytes else []
  }

  lemma BytesSnoc(log: seq<Event>, e: Event, c: ConnId)
    ensures ToBackends(log + [e]) == ToBackends(log) + if e.ToBackend? then e.bytes else []
    ensures ToClientOf(log + [e], c) == ToClientOf(log, c) + if e.ToClient? && e.conn == c then e.bytes else []
  {
    assert (log + [e])[..|log|] == log;
  }

  /** What is left of `data` after its first bytes. */
  predicate Remains(data: Bytes, sent: Bytes, rest: Bytes) {
    sent + rest == data
  }

  lemma RemainsLess(data: Bytes, sent: Bytes, rest: Bytes, n: nat)
    requires Remains(data, sent, rest) && n <= |rest|
    ensures Remains(data, sent + rest[..n], rest[n..])
  {
    assert rest == rest[..n] + rest[n..];
  }

  // ----- From a client to its backend

  /** `Run` received a datagram in state `b` and has not come back for the next one before
      state `n`. */
  ghost predicate ForwardTurn(run: seq<State>, b: nat, n: nat, from: Addr, data: Bytes) {
    && b < n < |run| && Enabled(run[b], Recv(from, data)) && run[b + 1] == Do(run[b], Recv(from, data))
    && forall k :: b < k < n ==> !ReceivingAt(run[k])
  }

  predicate ReceivingAt(s: State) {
    s.run.Receiving?
  }

  /** The writes logged since `n` events went to backend `c`, on behalf of `from`. */
  predicate AllTo(log: seq<Event>, n: nat, c: ConnId, from: Addr) {
    forall i :: n <= i < |log| && log[i].ToBackend? ==> log[i].conn == c && log[i].from == from
  }

  ghost predicate Forwarded(s0: State, s: State, from: Addr, data: Bytes, sent: Bytes) {
    && |s0.log| <= |s.log| && ToBackends(s.log) == ToBackends(s0.log) + sent
    && match s.run
       case Received(a, d) => a == from && d == data && sent == [] && NoneSince(s.log, |s0.log|)
       case Tracking(a, d) => a == from && d == data && sent == [] && NoneSince(s.log, |s0.log|)
       case Forwarding(c, a, rest) => a == from && Remains(data, sent, rest) && AllTo(s.log, |s0.log|, c, from)
       case _ => false
  }

  predicate NoneSince(log: seq<Event>, n: nat) {
    forall i :: n <= i < |log| ==> !log[i].ToBackend?
  }

  /** What one action adds to the log. */
  lemma StepLog(s: State, a: Action, c: ConnId)
    requires Enabled(s, a)
    ensures var s' := Do(s, a);
            && s'.log == s.log + (match a
                                  case Forward(n) => [ToBackend(s.run.conn, s.run.from, s.run.rest[..n])]
                                  case Relay(d, n) => [ToClient(d, s.loops[d].client, s.loops[d].pc.rest[..n])]
                                  case _ => [])
            && ToBackends(s'.log) == ToBackends(s.log) + (if a.Forward? then s.run.rest[..a.n] else [])
            && ToClientOf(s'.log, c) == ToClientOf(s.log, c) + if a.Relay? && a.c == c then s.loops[c].pc.rest[..a.n] else []
  {
    if a.Forward? {
      BytesSnoc(s.log, ToBackend(s.run.conn, s.run.from, s.run.rest[..a.n]), c);
    } else if a.Relay? {
      BytesSnoc(s.log, ToClient(a.c, s.loops[a.c].client, s.loops[a.c].pc.rest[..a.n]), c);
    } else {
      assert s.log + [] == s.log;
    }
  }

  /** Only `Run`'s own actions change its position. */
  lemma OtherActions(s: State, a: Action)
    requires Enabled(s, a) && !a.Recv? && !a.RecvErr? && !a.RunLock? && !a.Track? && !a.Forward? && !a.ForwardStop?
    ensures Do(s, a).run == s.run
  {
  }

  lemma ForwardedStep(s0: State, s: State, from: Addr, data: Bytes, sent: Bytes, a: Action) returns (sent': Bytes)
    requires Forwarded(s0, s, from, data, sent) && Enabled(s, a) && !ReceivingAt(Do(s, a))
    ensures Forwarded(s0, Do(s, a), from, data, sent')
  {
    if a.Forward? {
      sent' := sent + s.run.rest[..a.n];
      ForwardedMore(s0, s, from, data, sent, a.n);
    } else {
      sent' := sent;
      ForwardedSame(s0, s, from, data, sent, a);
    }
  }

  lemma ForwardedMore(s0: State, s: State, from: Addr, data: Bytes, sent: Bytes, n: nat)
    requires Forwarded(s0, s, from, data, sent) && Enabled(s, Forward(n))
    ensures Forwarded(s0, Do(s, Forward(n)), from, data, sent + s.run.rest[..n])
  {
    StepLog(s, Forward(n), 0);
    Reassociate(ToBackends(s0.log), sent, s.run.rest[..n]);
    RemainsLess(data, sent, s.run.rest, n);
  }

  lemma ForwardedSame(s0: State, s: State, from: Addr, data: Bytes, sent: Bytes, a: Action)
    requires Forwarded(s0, s, from, data, sent) && Enabled(s, a) && !a.Forward? && !ReceivingAt(Do(s, a))
    ensures Forwarded(s0, Do(s, a), from, data, sent)
  {
    var s' := Do(s, a);
    StepLog(s, a, 0);
    assert ToBackends(s.log) + [] == ToBackends(s.log);
    SameSince(s.log, s'.log, |s0.log|);
    if a.Track? {
      TrackedRun(s, a.dialOk);
      NoneAllTo(s'.log, |s0.log|);
      assert [] + data == data;
    } else if !a.RunLock? {
      assert !a.Recv? && !a.RecvErr? && !a.ForwardStop?;
      OtherActions(s, a);
    }
  }

  /** An event that is not a write to a backend changes nothing about those. */
  lemma SameSince(log: seq<Event>, log': seq<Event>, n: nat)
    requires log <= log' && forall i :: |log| <= i < |log'| ==> !log'[i].ToBackend?
    ensures NoneSince(log, n) ==> NoneSince(log', n)
    ensures forall c, from :: AllTo(log, n, c, from) ==> AllTo(log', n, c, from)
  {
  }

  lemma NoneAllTo(log: seq<Event>, n: nat)
    ensures NoneSince(log, n) ==> forall c, from :: AllTo(log, n, c, from)
  {
  }

  /** The lookup hands the whole datagram on, or gives up. */
  lemma TrackedRun(s: State, dialOk: bool)
    requires s.run.Tracking? && WellFormed(s.run.from)
    ensures var r := TrackStep(s, dialOk).run;
            r.Receiving? || (r.Forwarding? && r.from == s.run.from && r.rest == s.run.data)
  {
  }

  lemma {:induction false} ForwardTracked(run: seq<State>, b: nat, m: nat, n: nat, from: Addr, data: Bytes) returns (sent: Bytes)
    requires IsRun(run) && ForwardTurn(run, b, n, from, data) && b < m < n
    ensures Forwarded(run[b], run[m], from, data, sent)
    decreases m
  {
    if m == b + 1 {
      sent := [];
      assert ToBackends(run[b].log) + [] == ToBackends(run[b].log);
    } else {
      sent := ForwardTracked(run, b, m - 1, n, from, data);
      var a := ActionAt(run, m - 1);
      assert !ReceivingAt(run[m]);
      sent := ForwardedStep(run[b], run[m - 1], from, data, sent, a);
    }
  }

  lemma ActionAt(run: seq<State>, i: nat) returns (a: Action)
    requires IsRun(run) && i + 1 < |run|
    ensures Enabled(run[i], a) && run[i + 1] == Do(run[i], a)
  {
    assert StepAt(run, i);
    a :| Enabled(run[i], a) && run[i + 1] == Do(run[i], a);
  }

  /** Every datagram received: when `Run` comes back for the next one, a prefix of it has been
      written, all to one backend. Nothing was written if the client had no backend and the
      dial failed; otherwise all but what was left when a write failed. */
  lemma DatagramIsForwarded(run: seq<State>, b: nat, n: nat, from: Addr, data: Bytes) returns (sent: Bytes)
    requires IsRun(run) && ForwardTurn(run, b, n, from, data) && ReceivingAt(run[n])
    ensures ToBackends(run[n].log) == ToBackends(run[b].log) + sent && sent <= data
    ensures WellFormed(from)
    ensures var last := run[n - 1];
            || (last.run.Tracking? && NewKey(from) !in last.table && sent == [])
            || (last.run.Forwarding? && sent + last.run.rest == data && AllTo(run[n].log, |run[b].log|, last.run.conn, from))
  {
    var s := run[n - 1];
    if n == b + 1 {
      assert false;
    }
    sent := ForwardTracked(run, b, n - 1, n, from, data);
    var a := ActionAt(run, n - 1);
    if s.run.Forwarding? {
      assert a.ForwardStop?;
      assert sent == data[..|sent|];
    } else {
      assert a.Track?;
    }
  }

  // ----- From a backend to its client

  predicate RelayingAt(s: State, c: ConnId) {
    c < |s.loops| && s.loops[c].pc.Relaying?
  }

  /** The reply goroutine of `c` read an answer in state `b` and was relaying it up to `n`. */
  ghost predicate ReplyTurn(run: seq<State>, b: nat, n: nat, c: ConnId, data: Bytes) {
    && b < n < |run| && Enabled(run[b], Reply(c, data)) && run[b + 1] == Do(run[b], Reply(c, data))
    && forall k :: b < k < n ==> RelayingAt(run[k], c)
  }

  ghost predicate Relayed(s0: State, s: State, c: ConnId, data: Bytes, sent: Bytes) {
    && ToClientOf(s.log, c) == ToClientOf(s0.log, c) + sent && c < |s.loops|
    && match s.loops[c].pc
       case Relaying(rest) => Remains(data, sent, rest)
       case Awaiting => sent == data
       case Exiting => sent < data
       case _ => false
  }

  lemma RelayedStep(s0: State, s: State, c: ConnId, data: Bytes, sent: Bytes, a: Action) returns (sent': Bytes)
    requires Relayed(s0, s, c, data, sent) && RelayingAt(s, c) && Enabled(s, a)
    ensures Relayed(s0, Do(s, a), c, data, sent')
  {
    var rest := s.loops[c].pc.rest;
    var more := if a.Relay? && a.c == c then rest[..a.n] else [];
    sent' := sent + more;
    StepLog(s, a, c);
    Reassociate(ToClientOf(s0.log, c), sent, more);
    RelayMoves(s, c, a);
    if a.Relay? && a.c == c {
      RemainsLess(data, sent, rest, a.n);
    } else {
      assert sent + [] == sent;
    }
  }

  /** Where a relaying goroutine can be after one action of anybody. */
  lemma RelayMoves(s: State, c: ConnId, a: Action)
    requires RelayingAt(s, c) && Enabled(s, a)
    ensures c < |Do(s, a).loops|
    ensures var rest := s.loops[c].pc.rest;
            Do(s, a).loops[c].pc
              == if a.Relay? && a.c == c then Relaying(rest[a.n..])
                 else if a.RelayStop? && a.c == c then (if rest == [] then Awaiting else Exiting)
                 else Relaying(rest)
  {
  }

  lemma {:induction false} ReplyTracked(run: seq<State>, b: nat, m: nat, n: nat, c: ConnId, data: Bytes) returns (sent: Bytes)
    requires IsRun(run) && ReplyTurn(run, b, n, c, data) && b < m <= n
    ensures Relayed(run[b], run[m], c, data, sent)
    decreases m
  {
    if m == b + 1 {
      sent := [];
      assert ToClientOf(run[b].log, c) + [] == ToClientOf(run[b].log, c) && [] + data == data;
    } else {
      sent := ReplyTracked(run, b, m - 1, n, c, data);
      var a := ActionAt(run, m - 1);
      assert RelayingAt(run[m - 1], c);
      sent := RelayedStep(run[b], run[m - 1], c, data, sent, a);
    }
  }

  /** Every answer read from a backend: when its goroutine goes back to reading, all of it has
      been written to the client; if it gave up instead, a write failed and less than all. */
  lemma AnswerIsRelayed(run: seq<State>, b: nat, n: nat, c: ConnId, data: Bytes) returns (sent: Bytes)
    requires IsRun(run) && ReplyTurn(run, b, n, c, data) && !RelayingAt(run[n], c)
    ensures ToClientOf(run[n].log, c) == ToClientOf(run[b].log, c) + sent && c < |run[n].loops|
    ensures (run[n].loops[c].pc.Awaiting? && sent == data) || (run[n].loops[c].pc.Exiting? && sent < data)
  {
    sent := ReplyTracked(run, b, n, n, c, data);
  }
}
