/**
 The loops that move frames between sockets: the switch's stream receive loop, and the
 two loops of the guest agent at the other end of a hyperkit connection.
 */
module ReceiveLoops {
  import opened Protocols

  /** The reading side of a socket: data arrives in pieces cut at arbitrary places. */
  class Connection {
    var chunks: seq<Bytes>

    constructor (chunks: seq<Bytes>)
      ensures this.chunks == chunks
    {
      this.chunks := chunks;
    }

    ghost function Pending(): Bytes
      reads this
    {
      Flatten(chunks)
    }

    /** Takes at most `room` bytes of the next piece. */
    method Read(buf: array<byte>, at: nat, room: nat) returns (n: nat)
      requires chunks != [] && at + room <= buf.Length
      modifies this, buf
      ensures n <= room
      ensures old(Pending()) == buf[at..at + n] + Pending()
      ensures buf[..at] == old(buf[..at]) && buf[at + n..] == old(buf[at + n..])
      ensures |chunks| < |old(chunks)| || (|chunks| == |old(chunks)| && n == room)
    {
      var piece := chunks[0];
      n := if |piece| <= room then |piece| else room;
      forall i | at <= i < at + n {
        buf[i] := piece[i - at];
      }
      assert buf[at..at + n] == piece[..n];
      if |piece| <= room {
        chunks := chunks[1..];
      } else {
        chunks := [piece[n..]] + chunks[1..];
        assert chunks[1..] == old(chunks)[1..];
      }
      assert piece == piece[..n] + piece[n..];
    }
  }

  /** Fills the first `n` bytes of the buffer, or fails at the end of the stream. */
  method ReadFull(conn: Connection, buf: array<byte>, n: nat) returns (ok: bool)
    requires n <= buf.Length
    modifies conn, buf
    ensures ok <==> n <= |old(conn.Pending())|
    ensures ok ==> old(conn.Pending()) == buf[..n] + conn.Pending()
  {
    var at: nat := 0;
    ghost var filled: Bytes := [];
    while at < n && conn.chunks != []
      invariant at <= n && filled == buf[..at]
      invariant old(conn.Pending()) == filled + conn.Pending()
      decreases |conn.chunks|, n - at
    {
      var got := conn.Read(buf, at, n - at);
      Reassociate(filled, buf[at..at + got], conn.Pending());
      filled := filled + buf[at..at + got];
      at := at + got;
      assert filled == buf[..at];
    }
    ok := at == n;
  }

  datatype RxFrame = Frame(frame: Bytes) | Failed(end: RxEnd)

  /** One turn of the receive loop: the prefix into the reused buffer, then the payload. */
  method RxOne(conn: Connection, p: Protocol, sizeBuf: array<byte>) returns (r: RxFrame)
    requires Stream(p) && sizeBuf.Length == PrefixLength(p)
    modifies conn, sizeBuf
    ensures r.Failed? ==> Decode(p, old(conn.Pending())) == Decoded([], r.end)
    ensures r.Frame? ==> |conn.Pending()| < |old(conn.Pending())|
    ensures r.Frame? ==>
              var later := Decode(p, conn.Pending());
              Decode(p, old(conn.Pending())) == Decoded([r.frame] + later.frames, later.end)
  {
    ghost var before := conn.Pending();
    var ok := ReadFull(conn, sizeBuf, sizeBuf.Length);
    if !ok {
      return Failed(CannotReadSize);
    }
    ghost var prefix, rest := sizeBuf[..], conn.Pending();
    assert prefix == sizeBuf[..sizeBuf.Length];
    var size := ReadSize(p, sizeBuf[..]);
    var buf := new byte[size](i => 0);
    ok := ReadFull(conn, buf, size);
    if !ok {
      ShortPayload(p, before, prefix, rest);
      return Failed(CannotReadPacket);
    }
    var frame := buf[..];
    assert frame == buf[..size];
    Reassociate(prefix, frame, conn.Pending());
    NextFrame(p, before, prefix, frame, conn.Pending());
    r := Frame(frame);
  }

  lemma ShortPayload(p: Protocol, s: Bytes, prefix: Bytes, rest: Bytes)
    requires Stream(p) && |prefix| == PrefixLength(p) && |rest| < ReadSize(p, prefix) && s == prefix + rest
    ensures Decode(p, s) == Decoded([], CannotReadPacket)
  {
    assert s[..PrefixLength(p)] == prefix;
  }

  /** The switch's receive loop on a stream socket. The context is seen to be done at the
      top of iteration `doneAt`. However the stream is cut into pieces, the frames handed
      on are those of `Decode`, up to that iteration. */
  method RxStream(conn: Connection, p: Protocol, doneAt: nat) returns (processed: seq<Bytes>, end: RxEnd)
    requires Stream(p)
    modifies conn
    ensures var all := Decode(p, old(conn.Pending()));
            if doneAt <= |all.frames|
            then processed == all.frames[..doneAt] && end == Cancelled
            else processed == all.frames && end == all.end
  {
    ghost var all, left := Decode(p, conn.Pending()), Decode(p, conn.Pending());
    var sizeBuf := new byte[PrefixLength(p)](i => 0);
    processed := [];
    while |processed| < doneAt
      invariant |processed| <= doneAt
      invariant left == Decode(p, conn.Pending())
      invariant all == Decoded(processed + left.frames, left.end)
      decreases |conn.Pending()|
    {
      var r := RxOne(conn, p, sizeBuf);
      if r.Failed? {
        return processed, r.end;
      }
      left := Decode(p, conn.Pending());
      Reassociate(processed, [r.frame], left.frames);
      processed := processed + [r.frame];
    }
    end := Cancelled;
  }

  // ----- The guest agent

  const ETHERNET_HEADER: nat := 14

  datatype GuestEnd = SizeUnread | PayloadUnread | ZeroSize | BufferTooSmall | TapError

  datatype Delivered = Delivered(frames: seq<Bytes>, end: GuestEnd)

  /** What the guest hands to its tap device from a whole stream, if the device never
      refuses a frame. Slicing the fixed buffer past its end stops the agent before the
      payload is read. */
  function GuestDecode(mtu: nat, s: Bytes): Delivered
    decreases |s|
  {
    if |s| < 2 then
      Delivered([], SizeUnread)
    else
      var n := ReadSize(Hyperkit, s[..2]);
      if n > mtu + ETHERNET_HEADER then
        Delivered([], BufferTooSmall)
      else if |s| < 2 + n then
        Delivered([], PayloadUnread)
      else if n == 0 then
        Delivered([], ZeroSize)
      else
        var rest := GuestDecode(mtu, s[2 + n..]);
        Delivered([s[2..2 + n]] + rest.frames, rest.end)
  }

  datatype GuestFrame = Payload(frame: Bytes) | Stopped(end: GuestEnd)

  /** One turn of the guest's loop, reusing both of its buffers. */
  method GuestOne(conn: Connection, mtu: nat, sizeBuf: array<byte>, buf: array<byte>) returns (r: GuestFrame)
    requires sizeBuf.Length == 2 && buf.Length == mtu + ETHERNET_HEADER && sizeBuf != buf
    modifies conn, sizeBuf, buf
    ensures r.Stopped? ==> GuestDecode(mtu, old(conn.Pending())) == Delivered([], r.end)
    ensures r.Payload? ==> |conn.Pending()| < |old(conn.Pending())|
    ensures r.Payload? ==>
              var later := GuestDecode(mtu, conn.Pending());
              GuestDecode(mtu, old(conn.Pending())) == Delivered([r.frame] + later.frames, later.end)
  {
    ghost var before := conn.Pending();
    var ok := ReadFull(conn, sizeBuf, 2);
    if !ok {
      return Stopped(SizeUnread);
    }
    assert before[..2] == sizeBuf[..2] == sizeBuf[..];
    var size := ReadSize(Hyperkit, sizeBuf[..]);
    if size > buf.Length {
      return Stopped(BufferTooSmall);
    }
    ok := ReadFull(conn, buf, size);
    if !ok {
      return Stopped(PayloadUnread);
    }
    if size == 0 {
      return Stopped(ZeroSize);
    }
    GuestNext(mtu, before, sizeBuf[..], buf[..size], conn.Pending());
    r := Payload(buf[..size]);
  }

  method GuestTx(conn: Connection, mtu: nat, tapAccepts: nat) returns (tap: seq<Bytes>, end: GuestEnd)
    modifies conn
    ensures var all := GuestDecode(mtu, old(conn.Pending()));
            if tapAccepts < |all.frames|
            then tap == all.frames[..tapAccepts] && end == TapError
            else tap == all.frames && end == all.end
  {
    ghost var all, left := GuestDecode(mtu, conn.Pending()), GuestDecode(mtu, conn.Pending());
    var sizeBuf := new byte[2](i => 0);
    var buf := new byte[mtu + ETHERNET_HEADER](i => 0);
    tap := [];
    while true
      invariant |tap| <= tapAccepts
      invariant left == GuestDecode(mtu, conn.Pending())
      invariant all == Delivered(tap + left.frames, left.end)
      decreases |conn.Pending()|
    {
      var r := GuestOne(conn, mtu, sizeBuf, buf);
      if r.Stopped? {
        return tap, r.end;
      }
      left := GuestDecode(mtu, conn.Pending());
      Reassociate(tap, [r.frame], left.frames);
      if |tap| == tapAccepts {
        return tap, TapError;
      }
      tap := tap + [r.frame];
    }
  }

  lemma GuestNext(mtu: nat, s: Bytes, prefix: Bytes, frame: Bytes, rest: Bytes)
    requires |prefix| == 2 && |frame| == ReadSize(Hyperkit, prefix)
    requires 0 < |frame| <= mtu + ETHERNET_HEADER
    requires s == prefix + frame + rest
    ensures GuestDecode(mtu, s)
         == Delivered([frame] + GuestDecode(mtu, rest).frames, GuestDecode(mtu, rest).end)
  {
    assert s[..2] == prefix && s[2..2 + |frame|] == frame && s[2 + |frame|..] == rest;
  }

  predicate GuestAccepts(mtu: nat, frame: Bytes) {
    0 < |frame| <= mtu + ETHERNET_HEADER && |frame| < SizeLimit(Hyperkit)
  }

  /** The first `k` frames are accepted, and the next one, if any, is not. */
  ghost predicate AcceptedUpTo(mtu: nat, frames: seq<Bytes>, k: nat) {
    && k <= |frames| && AllFit(Hyperkit, frames)
    && (forall i :: 0 <= i < k ==> GuestAccepts(mtu, frames[i]))
    && (k < |frames| ==> !GuestAccepts(mtu, frames[k]))
  }

  lemma AcceptedTail(mtu: nat, frames: seq<Bytes>, k: nat)
    requires AcceptedUpTo(mtu, frames, k) && k > 0
    ensures AcceptedUpTo(mtu, frames[1..], k - 1) && GuestAccepts(mtu, frames[0])
    ensures frames[..k] == [frames[0]] + frames[1..][..k - 1]
  {
  }

  /** The switch's frames reach the tap unchanged and in order until the first one that is
      empty or larger than the guest's buffer, which stops the agent. */
  lemma {:induction false} GuestReceives(mtu: nat, frames: seq<Bytes>, k: nat)
    requires AcceptedUpTo(mtu, frames, k)
    ensures GuestDecode(mtu, Encode(Hyperkit, frames))
         == Delivered(frames[..k], if k == |frames| then SizeUnread else if frames[k] == [] then ZeroSize else BufferTooSmall)
  {
    if frames != [] {
      EncodeCons(Hyperkit, frames);
      GuestFirst(mtu, frames[0], Encode(Hyperkit, frames[1..]));
      if k > 0 {
        AcceptedTail(mtu, frames, k);
        GuestReceives(mtu, frames[1..], k - 1);
      }
    }
  }

  /** The guest takes the first `k` frames of a decoded stream and stops at the next because it
      is empty or too large, or where the stream ends. */
  ghost predicate Agrees(mtu: nat, all: Decoded, guest: Delivered, k: nat) {
    && k <= |all.frames| && guest.frames == all.frames[..k]
    && (forall i :: 0 <= i < k ==> 0 < |all.frames[i]| <= mtu + ETHERNET_HEADER)
    && (k < |all.frames| ==>
          if all.frames[k] == [] then guest.end == ZeroSize
          else |all.frames[k]| > mtu + ETHERNET_HEADER && guest.end == BufferTooSmall)
    && (k == |all.frames| ==>
          if all.end == CannotReadSize then guest.end == SizeUnread
          else guest.end == PayloadUnread || guest.end == BufferTooSmall)
  }

  lemma AgreesCons(mtu: nat, frame: Bytes, all: Decoded, guest: Delivered, k: nat)
    requires Agrees(mtu, all, guest, k) && 0 < |frame| <= mtu + ETHERNET_HEADER
    ensures Agrees(mtu, Decoded([frame] + all.frames, all.end), Delivered([frame] + guest.frames, guest.end), k + 1)
  {
    var frames := [frame] + all.frames;
    assert frames[..k + 1] == [frame] + all.frames[..k];
    assert forall i :: 0 < i < |frames| ==> frames[i] == all.frames[i - 1];
  }

  /** On every byte stream the guest agrees with the switch's own decoding up to the first frame
      that it refuses. */
  lemma {:induction false} GuestAgrees(mtu: nat, s: Bytes) returns (k: nat)
    ensures Agrees(mtu, Decode(Hyperkit, s), GuestDecode(mtu, s), k)
    decreases |s|
  {
    k := 0;
    if |s| >= 2 {
      var n := ReadSize(Hyperkit, s[..2]);
      if |s| >= 2 + n && 0 < n <= mtu + ETHERNET_HEADER {
        var rest := s[2 + n..];
        k := GuestAgrees(mtu, rest);
        AgreesCons(mtu, s[2..2 + n], Decode(Hyperkit, rest), GuestDecode(mtu, rest), k);
        k := k + 1;
      }
    }
  }

  lemma GuestFirst(mtu: nat, frame: Bytes, rest: Bytes)
    requires |frame| < SizeLimit(Hyperkit)
    ensures var s, later := Packet(Hyperkit, frame) + rest, GuestDecode(mtu, rest);
            GuestDecode(mtu, s)
              == if GuestAccepts(mtu, frame) then Delivered([frame] + later.frames, later.end)
                 else Delivered([], if frame == [] then ZeroSize else BufferTooSmall)
  {
    var s, prefix := Packet(Hyperkit, frame) + rest, SizePrefix(Hyperkit, |frame|);
    SizeRoundTrip(Hyperkit, |frame|);
    assert s[..2] == prefix;
    if GuestAccepts(mtu, frame) {
      GuestNext(mtu, s, prefix, frame, rest);
    }
  }

  /** The first `n` frames, or all if there are fewer. */
  function Taken(frames: seq<Bytes>, n: nat): seq<Bytes> {
    if n < |frames| then frames[..n] else frames
  }

  /** The guest's sending loop: frames read from the tap are written, prefix and payload in
      one call, until the socket refuses one. The two-byte size buffer is reused. */
  method GuestRx(tap: seq<Bytes>, socketAccepts: nat) returns (written: seq<Bytes>)
    ensures written == Packets(Hyperkit, Taken(tap, socketAccepts))
  {
    var size := new byte[2](i => 0);
    written := [];
    var i := 0;
    while i < |tap| && i < socketAccepts
      invariant i <= |tap| && i <= socketAccepts
      invariant written == Packets(Hyperkit, tap[..i])
    {
      WriteSize(Hyperkit, size, |tap[i]|);
      assert size[..] == size[..2];
      written := written + [size[..] + tap[i]];
      assert Packets(Hyperkit, tap[..i + 1]) == Packets(Hyperkit, tap[..i]) + [Packet(Hyperkit, tap[i])];
      i := i + 1;
    }
    assert tap[..|tap|] == tap;
  }

  /** Guest to switch, both loops: the frames the socket took are processed in order, up to the
      cancellation, however the network cuts the bytes into pieces, if the MTU fits in a 16-bit
      size; without cancellation exactly when every frame does. A frame read from the tap is
      never longer than the MTU. */
  method GuestToSwitch(mtu: nat, tap: seq<Bytes>, socketAccepts: nat, pieces: seq<Bytes>, doneAt: nat)
      returns (processed: seq<Bytes>, end: RxEnd)
    requires forall i :: 0 <= i < |tap| ==> |tap[i]| <= mtu
    requires Flatten(pieces) == Encode(Hyperkit, Taken(tap, socketAccepts))
    ensures var sent := Taken(tap, socketAccepts);
            && (mtu < SizeLimit(Hyperkit) ==>
                  && processed == Taken(sent, doneAt)
                  && end == if doneAt <= |sent| then Cancelled else CannotReadSize)
            && (end != Cancelled ==> (processed == sent <==> AllFit(Hyperkit, sent)))
  {
    var written := GuestRx(tap, socketAccepts);
    assert Flatten(written) == Flatten(pieces);
    var conn := new Connection(pieces);
    RoundTripExactly(Hyperkit, Taken(tap, socketAccepts));
    processed, end := RxStream(conn, Hyperkit, doneAt);
    DecodeEnds(Hyperkit, Flatten(pieces));
  }

  lemma {:induction false} DecodeEnds(p: Protocol, s: Bytes)
    requires Stream(p)
    ensures Decode(p, s).end != Cancelled
    decreases |s|
  {
    if Decode(p, s).frames != [] {
      DecodeEnds(p, s[PrefixLength(p) + ReadSize(p, s[..PrefixLength(p)])..]);
    }
  }

}
