/**
 The link protocols spoken on a virtual machine's socket: the length prefixes of the
 two stream protocols, the byte stream a sequence of frames becomes, and what a
 receive loop recovers from such a stream.
 */
module Protocols {

  type byte = x: int | 0 <= x < 256

  type Bytes = seq<byte>

  /** 64-bit unsigned numbers are below this bound. */
  const WORD: nat := 0x1_0000_0000_0000_0000

  datatype Protocol = Hyperkit | Qemu | Bess | Vfkit

  /** Bess and vfkit sockets keep message boundaries; the other two are byte streams. */
  predicate Stream(p: Protocol) {
    p.Hyperkit? || p.Qemu?
  }

  /** Length in bytes of the size prefix (`Buf`). */
  function PrefixLength(p: Protocol): nat
    requires Stream(p)
  {
    if p.Hyperkit? then 2 else 4
  }

  /** Sizes are stored modulo this bound. */
  function SizeLimit(p: Protocol): nat
    requires Stream(p)
  {
    if p.Hyperkit? then 0x1_0000 else 0x1_0000_0000
  }

  /** The prefix `Write` stores: 16 bits little endian, or 32 bits big endian. */
  function SizePrefix(p: Protocol, size: nat): (r: Bytes)
    requires Stream(p)
    ensures |r| == PrefixLength(p)
  {
    if p.Hyperkit? then
      var v := size % 0x1_0000;
      [v % 256, v / 256]
    else
      var v := size % 0x1_0000_0000;
      [v / 0x100_0000, v / 0x1_0000 % 256, v / 256 % 256, v % 256]
  }

  /** The size `Read` finds in a prefix. */
  function ReadSize(p: Protocol, buf: Bytes): (r: nat)
    requires Stream(p) && |buf| >= PrefixLength(p)
    ensures r < SizeLimit(p)
  {
    var b0: int, b1: int := buf[0], buf[1];
    if p.Hyperkit? then
      b0 + 256 * b1
    else
      var b2: int, b3: int := buf[2], buf[3];
      0x100_0000 * b0 + 0x1_0000 * b1 + 256 * b2 + b3
  }

  /** Fills the caller's buffer in place, leaving what follows the prefix alone. */
  method WriteSize(p: Protocol, buf: array<byte>, size: nat)
    requires Stream(p) && buf.Length >= PrefixLength(p)
    modifies buf
    ensures buf[..PrefixLength(p)] == SizePrefix(p, size)
    ensures buf[PrefixLength(p)..] == old(buf[PrefixLength(p)..])
    ensures p.Hyperkit? ==> (buf[0] as int) + 256 * (buf[1] as int) == size % 0x1_0000
    ensures p.Qemu? ==>
              0x100_0000 * (buf[0] as int) + 0x1_0000 * (buf[1] as int) + 256 * (buf[2] as int) + buf[3] as int == size % 0x1_0000_0000
  {
    if p.Hyperkit? {
      var v := size % 0x1_0000;
      buf[0] := v % 256;
      buf[1] := v / 256;
    } else {
      var v := size % 0x1_0000_0000;
      buf[0] := v / 0x100_0000;
      buf[1] := v / 0x1_0000 % 256;
      buf[2] := v / 256 % 256;
      buf[3] := v % 256;
      BigEndianDigits(v);
    }
  }

  /** On the wire: 16 bits with the low byte first, or 32 bits with the high byte first. */
  lemma PlaceValues(size: nat)
    ensures var r := SizePrefix(Hyperkit, size); (r[0] as int) + 256 * (r[1] as int) == size % 0x1_0000
    ensures var r := SizePrefix(Qemu, size);
            0x100_0000 * (r[0] as int) + 0x1_0000 * (r[1] as int) + 256 * (r[2] as int) + r[3] as int == size % 0x1_0000_0000
  {
    BigEndianDigits(size % 0x1_0000_0000);
  }

  /** Reading back a stored size gives the size modulo the limit, so exactly the sizes
      below the limit survive. */
  lemma SizeRoundTrip(p: Protocol, size: nat)
    requires Stream(p)
    ensures ReadSize(p, SizePrefix(p, size)) == size % SizeLimit(p)
    ensures ReadSize(p, SizePrefix(p, size)) == size <==> size < SizeLimit(p)
  {
    if p.Qemu? {
      BigEndianDigits(size % 0x1_0000_0000);
    }
  }

  lemma BigEndianDigits(v: nat)
    ensures 0x100_0000 * (v / 0x100_0000) + 0x1_0000 * (v / 0x1_0000 % 256) + 256 * (v / 256 % 256) + v % 256 == v
  {
    assert v / 0x1_0000 == v / 256 / 256;
    assert v / 0x100_0000 == v / 256 / 256 / 256;
  }

  /** Every prefix is the encoding of the size it holds. */
  lemma PrefixRoundTrip(p: Protocol, buf: Bytes)
    requires Stream(p) && |buf| == PrefixLength(p)
    ensures SizePrefix(p, ReadSize(p, buf)) == buf
  {
    if p.Qemu? {
      var b0: int, b1: int, b2: int, b3: int := buf[0], buf[1], buf[2], buf[3];
      BigEndianRead(b0, b1, b2, b3);
    } else {
      LastDigit(buf[1], buf[0]);
    }
  }

  lemma LastDigit(q: nat, r: nat)
    requires r < 256
    ensures (256 * q + r) / 256 == q && (256 * q + r) % 256 == r
  {
  }

  lemma BigEndianRead(b0: nat, b1: nat, b2: nat, b3: nat)
    requires b0 < 256 && b1 < 256 && b2 < 256 && b3 < 256
    ensures var v := 0x100_0000 * b0 + 0x1_0000 * b1 + 256 * b2 + b3;
            && v % 0x1_0000_0000 == v && v / 0x100_0000 == b0 && v / 0x1_0000 % 256 == b1
            && v / 256 % 256 == b2 && v % 256 == b3
  {
    var high := 256 * b0 + b1;
    var top := 256 * high + b2;
    var v := 256 * top + b3;
    LastDigit(b0, b1);
    LastDigit(high, b2);
    LastDigit(top, b3);
    assert v / 0x1_0000 == v / 256 / 256;
    assert v / 0x100_0000 == v / 256 / 256 / 256;
  }

  // ----- Framing

  /** What one transmitted frame looks like on a socket (`txBuf`). */
  function Packet(p: Protocol, frame: Bytes): Bytes {
    if Stream(p) then SizePrefix(p, |frame|) + frame else frame
  }

  function Packets(p: Protocol, frames: seq<Bytes>): seq<Bytes> {
    seq(|frames|, i requires 0 <= i < |frames| => Packet(p, frames[i]))
  }

  function Flatten(chunks: seq<Bytes>): Bytes {
    if chunks == [] then [] else chunks[0] + Flatten(chunks[1..])
  }

  lemma {:induction false} FlattenConcat(a: seq<Bytes>, b: seq<Bytes>)
    ensures Flatten(a + b) == Flatten(a) + Flatten(b)
  {
    if a == [] {
      assert a + b == b;
    } else {
      assert (a + b)[1..] == a[1..] + b;
      FlattenConcat(a[1..], b);
    }
  }

  /** The byte stream of a sequence of frames. */
  function Encode(p: Protocol, frames: seq<Bytes>): Bytes {
    Flatten(Packets(p, frames))
  }

  lemma EncodeCons(p: Protocol, frames: seq<Bytes>)
    requires frames != []
    ensures Encode(p, frames) == Packet(p, frames[0]) + Encode(p, frames[1..])
  {
    assert Packets(p, frames)[1..] == Packets(p, frames[1..]);
  }

  lemma EncodeConcat(p: Protocol, a: seq<Bytes>, b: seq<Bytes>)
    ensures Encode(p, a + b) == Encode(p, a) + Encode(p, b)
  {
    assert Packets(p, a + b) == Packets(p, a) + Packets(p, b);
    FlattenConcat(Packets(p, a), Packets(p, b));
  }

  predicate AllFit(p: Protocol, frames: seq<Bytes>)
    requires Stream(p)
  {
    forall i :: 0 <= i < |frames| ==> |frames[i]| < SizeLimit(p)
  }

  /** Why a receive loop stopped. */
  datatype RxEnd = Cancelled | CannotReadSize | CannotReadPacket

  datatype Decoded = Decoded(frames: seq<Bytes>, end: RxEnd)

  /** What the receive loop makes of a whole stream: the frames it processes, in order,
      and the read error that ends it. */
  function Decode(p: Protocol, s: Bytes): (r: Decoded)
    requires Stream(p)
    decreases |s|
  {
    var h := PrefixLength(p);
    if |s| < h then
      Decoded([], CannotReadSize)
    else
      var n := ReadSize(p, s[..h]);
      if |s| < h + n then
        Decoded([], CannotReadPacket)
      else
        var rest := Decode(p, s[h + n..]);
        Decoded([s[h..h + n]] + rest.frames, rest.end)
  }

  lemma {:induction false} DecodeOne(p: Protocol, frame: Bytes, tail: Bytes)
    requires Stream(p) && |frame| < SizeLimit(p)
    ensures Decode(p, Packet(p, frame) + tail)
         == Decoded([frame] + Decode(p, tail).frames, Decode(p, tail).end)
  {
    var s, h := Packet(p, frame) + tail, PrefixLength(p);
    assert s[..h] == SizePrefix(p, |frame|);
    SizeRoundTrip(p, |frame|);
    assert s[h..h + |frame|] == frame && s[h + |frame|..] == tail;
  }

  lemma NextFrame(p: Protocol, s: Bytes, prefix: Bytes, frame: Bytes, rest: Bytes)
    requires Stream(p) && |prefix| == PrefixLength(p) && |frame| == ReadSize(p, prefix)
    requires s == prefix + frame + rest
    ensures s == Packet(p, frame) + rest
    ensures Decode(p, s) == Decoded([frame] + Decode(p, rest).frames, Decode(p, rest).end)
  {
    PrefixRoundTrip(p, prefix);
    DecodeOne(p, frame, rest);
  }

  lemma Prepend<T>(a: seq<T>, b: seq<T>)
    requires a != []
    ensures [a[0]] + (a[1..] + b) == a + b
  {
  }

  /** Frames that fit are recovered in order, whatever follows them on the stream. */
  lemma {:induction false} DecodeEncode(p: Protocol, frames: seq<Bytes>, tail: Bytes)
    requires Stream(p) && AllFit(p, frames)
    ensures Decode(p, Encode(p, frames) + tail)
         == Decoded(frames + Decode(p, tail).frames, Decode(p, tail).end)
  {
    if frames == [] {
      assert Encode(p, frames) + tail == tail;
      assert frames + Decode(p, tail).frames == Decode(p, tail).frames;
    } else {
      EncodeCons(p, frames);
      var rest := Encode(p, frames[1..]) + tail;
      assert Encode(p, frames) + tail == Packet(p, frames[0]) + rest;
      DecodeOne(p, frames[0], rest);
      DecodeEncode(p, frames[1..], tail);
      Prepend(frames, Decode(p, tail).frames);
    }
  }

  /** The length prefixes are enough exactly when every frame is below the size limit. */
  lemma RoundTripExactly(p: Protocol, frames: seq<Bytes>)
    requires Stream(p)
    ensures Decode(p, Encode(p, frames)).frames == frames <==> AllFit(p, frames)
    ensures AllFit(p, frames) ==> Decode(p, Encode(p, frames)).end == CannotReadSize
  {
    if AllFit(p, frames) {
      DecodeEncode(p, frames, []);
      assert Encode(p, frames) + [] == Encode(p, frames);
    } else {
      var k := FirstTooLong(p, frames, 0);
      TooLongIsLost(p, frames, k);
    }
  }

  /** The shortest frame the hyperkit framing loses: its size is stored as zero, and the peer
      reads an empty frame in its place. */
  lemma OversizedFrameIsLost(frame: Bytes)
    requires |frame| == 65536
    ensures var got := Decode(Hyperkit, Encode(Hyperkit, [frame])).frames;
            got != [frame] && got != [] && got[0] == []
  {
    RoundTripExactly(Hyperkit, [frame]);
    assert !AllFit(Hyperkit, [frame]) by {
      assert |[frame][0]| == SizeLimit(Hyperkit);
    }
    var s := Encode(Hyperkit, [frame]);
    EncodeCons(Hyperkit, [frame]);
    SizeRoundTrip(Hyperkit, 65536);
    assert s[..2] == SizePrefix(Hyperkit, 65536);
    assert s[2..2] == [];
  }

  lemma FirstTooLong(p: Protocol, frames: seq<Bytes>, from: nat) returns (k: nat)
    requires Stream(p) && !AllFit(p, frames)
    requires from <= |frames| && AllFit(p, frames[..from])
    ensures k < |frames| && |frames[k]| >= SizeLimit(p) && AllFit(p, frames[..k])
    decreases |frames| - from
  {
    assert frames[..|frames|] == frames;
    if |frames[from]| >= SizeLimit(p) {
      k := from;
    } else {
      k := FirstTooLong(p, frames, from + 1);
    }
  }

  lemma TooLongIsLost(p: Protocol, frames: seq<Bytes>, k: nat)
    requires Stream(p) && k < |frames|
    requires |frames[k]| >= SizeLimit(p) && AllFit(p, frames[..k])
    ensures Decode(p, Encode(p, frames)).frames != frames
  {
    assert frames == frames[..k] + frames[k..];
    EncodeConcat(p, frames[..k], frames[k..]);
    var tail := Encode(p, frames[k..]);
    DecodeEncode(p, frames[..k], tail);
    EncodeCons(p, frames[k..]);
    SizeRoundTrip(p, |frames[k]|);
    assert tail[..PrefixLength(p)] == SizePrefix(p, |frames[k]|);
    var got := Decode(p, tail).frames;
    assert got == [] || |got[0]| < SizeLimit(p);
    assert (frames[..k] + got)[k..] == got && frames[k..][0] == frames[k];
  }

  /** Any byte stream at all is the encoding of the frames processed, followed by bytes
      too few to make another frame. */
  lemma {:induction false} DecodeSound(p: Protocol, s: Bytes) returns (leftover: Bytes)
    requires Stream(p)
    ensures s == Encode(p, Decode(p, s).frames) + leftover
    ensures AllFit(p, Decode(p, s).frames)
    ensures Decode(p, leftover) == Decoded([], Decode(p, s).end)
    decreases |s|
  {
    if Decode(p, s).frames == [] {
      leftover := s;
      assert Encode(p, []) + s == s;
    } else {
      var prefix, frame, rest := FirstFrame(p, s);
      leftover := DecodeSound(p, rest);
      SoundStep(p, s, prefix, frame, rest, leftover);
    }
  }

  lemma FirstFrame(p: Protocol, s: Bytes) returns (prefix: Bytes, frame: Bytes, rest: Bytes)
    requires Stream(p) && Decode(p, s).frames != []
    ensures s == prefix + frame + rest && |rest| < |s|
    ensures |prefix| == PrefixLength(p) && |frame| == ReadSize(p, prefix)
  {
    var h := PrefixLength(p);
    prefix := s[..h];
    var n := ReadSize(p, prefix);
    frame, rest := s[h..h + n], s[h + n..];
  }

  lemma SoundStep(p: Protocol, s: Bytes, prefix: Bytes, frame: Bytes, rest: Bytes, leftover: Bytes)
    requires Stream(p) && |prefix| == PrefixLength(p) && |frame| == ReadSize(p, prefix)
    requires s == prefix + frame + rest
    requires rest == Encode(p, Decode(p, rest).frames) + leftover && AllFit(p, Decode(p, rest).frames)
    ensures s == Encode(p, Decode(p, s).frames) + leftover && AllFit(p, Decode(p, s).frames)
    ensures Decode(p, s).end == Decode(p, rest).end
  {
    var frames := Decode(p, rest).frames;
    NextFrame(p, s, prefix, frame, rest);
    EncodeCons(p, [frame] + frames);
    Reassociate(Packet(p, frame), Encode(p, frames), leftover);
  }

  lemma Reassociate<T>(a: seq<T>, b: seq<T>, c: seq<T>)
    ensures a + (b + c) == a + b + c
  {
  }

  /** A stream cut short never yields a partial frame: exactly the frames that arrived
      whole are processed, and the loop ends in a read error. */
  lemma TruncatedStream(p: Protocol, frames: seq<Bytes>, cut: nat) returns (k: nat)
    requires Stream(p) && AllFit(p, frames) && cut <= |Encode(p, frames)|
    ensures k <= |frames| && Decode(p, Encode(p, frames)[..cut]).frames == frames[..k]
    ensures |Encode(p, frames[..k])| <= cut
    ensures k < |frames| ==> cut < |Encode(p, frames[..k + 1])|
    ensures Decode(p, Encode(p, frames)[..cut]).end != Cancelled
  {
    k := WholeFrames(p, frames, cut, 0);
    assert frames == frames[..k] + frames[k..];
    EncodeConcat(p, frames[..k], frames[k..]);
    var done, later := Encode(p, frames[..k]), Encode(p, frames[k..]);
    var part := later[..cut - |done|];
    assert Encode(p, frames)[..cut] == done + part;
    DecodeEncode(p, frames[..k], part);
    if k < |frames| {
      EncodeCons(p, frames[k..]);
      assert part == Packet(p, frames[k])[..cut - |done|];
      PartialPacket(p, frames[k], cut - |done|);
      EncodeSnoc(p, frames, k);
    }
  }

  lemma WholeFrames(p: Protocol, frames: seq<Bytes>, cut: nat, from: nat) returns (k: nat)
    requires Stream(p) && from <= |frames| && |Encode(p, frames[..from])| <= cut
    ensures k <= |frames| && |Encode(p, frames[..k])| <= cut
    ensures k < |frames| ==> cut < |Encode(p, frames[..k])| + |Packet(p, frames[k])|
    decreases |frames| - from
  {
    if from < |frames| && |Encode(p, frames[..from])| + |Packet(p, frames[from])| <= cut {
      EncodeSnoc(p, frames, from);
      k := WholeFrames(p, frames, cut, from + 1);
    } else {
      k := from;
    }
  }

  lemma EncodeSnoc(p: Protocol, frames: seq<Bytes>, k: nat)
    requires k < |frames|
    ensures Encode(p, frames[..k + 1]) == Encode(p, frames[..k]) + Packet(p, frames[k])
  {
    assert frames[..k + 1] == frames[..k] + [frames[k]];
    EncodeConcat(p, frames[..k], [frames[k]]);
    EncodeCons(p, [frames[k]]);
  }

  /** A packet cut short yields no frame. */
  lemma PartialPacket(p: Protocol, frame: Bytes, cut: nat)
    requires Stream(p) && |frame| < SizeLimit(p) && cut < |Packet(p, frame)|
    ensures Decode(p, Packet(p, frame)[..cut]).frames == []
    ensures Decode(p, Packet(p, frame)[..cut]).end != Cancelled
  {
    var h := PrefixLength(p);
    if cut >= h {
      assert Packet(p, frame)[..cut][..h] == SizePrefix(p, |frame|);
      SizeRoundTrip(p, |frame|);
    }
  }
}
