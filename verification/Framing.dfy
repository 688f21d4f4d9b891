/**
 Length-prefixed framing on the wire.  The TCP connections use an 8-byte
 little-endian length; the QUIC streams to the storage servers use a 4-byte
 big-endian one and refuse frames above 8 MiB.
 */
module Framing {
  import opened Base

  type Bytes = seq<Byte>

  function Pow256(w: nat): nat {
    if w == 0 then 1 else 256 * Pow256(w - 1)
  }

  const TWO_32 := 0x1_0000_0000
  const TWO_63 := 0x8000_0000_0000_0000
  const TWO_64 := 0x1_0000_0000_0000_0000

  lemma Widths()
    ensures Pow256(4) == TWO_32 && Pow256(8) == TWO_64
  {
    assert Pow256(2) == 0x1_0000;
    assert Pow256(4) == TWO_32;
    assert Pow256(6) == 0x1_0000_0000_0000;
  }

  /** The low `w` bytes of `n`, least significant first. */
  function LittleEndian(n: nat, w: nat): (bs: Bytes)
    ensures |bs| == w
  {
    if w == 0 then [] else [n % 256] + LittleEndian(n / 256, w - 1)
  }

  function FromLittleEndian(bs: Bytes): nat {
    if bs == [] then 0 else bs[0] + 256 * FromLittleEndian(bs[1..])
  }

  /** The low `w` bytes of `n`, most significant first. */
  function BigEndian(n: nat, w: nat): (bs: Bytes)
    ensures |bs| == w
  {
    if w == 0 then [] else BigEndian(n / 256, w - 1) + [n % 256]
  }

  function FromBigEndian(bs: Bytes): nat {
    if bs == [] then 0 else 256 * FromBigEndian(bs[..|bs| - 1]) + bs[|bs| - 1]
  }

  lemma {:induction false} LittleEndianRoundTrip(n: nat, w: nat)
    requires n < Pow256(w)
    ensures FromLittleEndian(LittleEndian(n, w)) == n
  {
    if w == 0 {
    } else {
      LittleEndianRoundTrip(n / 256, w - 1);
      assert LittleEndian(n, w)[1..] == LittleEndian(n / 256, w - 1);
    }
  }

  lemma {:induction false} BigEndianRoundTrip(n: nat, w: nat)
    requires n < Pow256(w)
    ensures FromBigEndian(BigEndian(n, w)) == n
  {
    if w == 0 {
    } else {
      BigEndianRoundTrip(n / 256, w - 1);
      assert BigEndian(n, w)[..w - 1] == BigEndian(n / 256, w - 1);
    }
  }

  // -------------------------------------------------------------------- TCP

  /** Why a read loop ended; every stream ends one of these ways. */
  datatype End = CutOff | TooLong | Malformed

  /** The messages a read loop delivered, and why it ended. */
  datatype Transcript = Transcript(delivered: seq<Bytes>, end: End)

  /** `valid` stands for the protobuf decoder. */
  datatype Limits = Limits(max: nat, valid: Bytes -> bool)

  function Cons(p: Bytes, t: Transcript): Transcript {
    t.(delivered := [p] + t.delivered)
  }

  /** How many bytes the copy takes: the length as a signed integer, and none at
      all when that is negative. */
  function CopyLength(length: nat): nat {
    if length < TWO_63 then length else 0
  }

  /** What the read loop makes of a stream of bytes. */
  function Decode(l: Limits, s: Bytes): Transcript {
    if |s| < 8 then Transcript([], CutOff)
    else
      var length, rest := FromLittleEndian(s[..8]), s[8..];
      if length == 0 then Decode(l, rest)
      else if length > l.max then Transcript([], TooLong)
      else
        var n := CopyLength(length);
        if |rest| < n then Transcript([], CutOff)
        else if !l.valid(rest[..n]) then Transcript([], Malformed)
        else Cons(rest[..n], Decode(l, rest[n..]))
  }

  /** One turn of the loop: an empty frame is skipped, a message is delivered, or reading
      ends. */
  datatype Turn = Skip(next: nat) | Message(payload: Bytes, next: nat) | Stop(end: End)

  function TurnAt(l: Limits, s: Bytes, pos: nat): Turn
    requires pos <= |s|
  {
    if |s| - pos < 8 then Stop(CutOff)
    else
      var length := FromLittleEndian(s[pos..pos + 8]);
      var n := CopyLength(length);
      if length == 0 then Skip(pos + 8)
      else if length > l.max then Stop(TooLong)
      else if |s| - (pos + 8) < n then Stop(CutOff)
      else if !l.valid(s[pos + 8..pos + 8 + n]) then Stop(Malformed)
      else Message(s[pos + 8..pos + 8 + n], pos + 8 + n)
  }

  lemma TurnAdvances(l: Limits, s: Bytes, pos: nat)
    requires pos <= |s|
    ensures !TurnAt(l, s, pos).Stop? ==> pos < TurnAt(l, s, pos).next <= |s|
  {}

  lemma DecodeTurn(l: Limits, s: Bytes, pos: nat)
    requires pos <= |s| && (!TurnAt(l, s, pos).Stop? ==> TurnAt(l, s, pos).next <= |s|)
    ensures Decode(l, s[pos..]) ==
      var turn := TurnAt(l, s, pos);
      if turn.Stop? then Transcript([], turn.end)
      else if turn.Skip? then Decode(l, s[turn.next..])
      else Cons(turn.payload, Decode(l, s[turn.next..]))
  {
    var t := s[pos..];
    if |t| >= 8 {
      assert t[..8] == s[pos..pos + 8] && t[8..] == s[pos + 8..];
      var n := CopyLength(FromLittleEndian(s[pos..pos + 8]));
      if n <= |t[8..]| {
        assert t[8..][..n] == s[pos + 8..pos + 8 + n] && t[8..][n..] == s[pos + 8 + n..];
      }
    }
  }

  /** What was delivered so far and what the rest of the stream will bring. */
  function Whole(delivered: seq<Bytes>, rest: Transcript): Transcript {
    Transcript(delivered + rest.delivered, rest.end)
  }

  lemma WholeNext(delivered: seq<Bytes>, payload: Bytes, rest: Transcript)
    ensures Whole(delivered, Cons(payload, rest)) == Whole(delivered + [payload], rest)
  {
    assert delivered + ([payload] + rest.delivered) == (delivered + [payload]) + rest.delivered;
  }

  method NextTurn(l: Limits, s: Bytes, pos: nat) returns (turn: Turn)
    requires pos <= |s|
    ensures turn == TurnAt(l, s, pos)
  {
    if |s| - pos < 8 {
      return Stop(CutOff);
    }
    var length := FromLittleEndian(s[pos..pos + 8]);
    if length == 0 {
      return Skip(pos + 8);
    }
    if length > l.max {
      return Stop(TooLong);
    }
    var n := CopyLength(length);
    if |s| - (pos + 8) < n {
      return Stop(CutOff);
    }
    var payload := s[pos + 8..pos + 8 + n];
    if !l.valid(payload) {
      return Stop(Malformed);
    }
    return Message(payload, pos + 8 + n);
  }

  /** The loop over a buffered connection, from the position reached so far. */
  method ReadLoop(l: Limits, s: Bytes) returns (t: Transcript)
    ensures t == Decode(l, s)
  {
    var pos := 0;
    var delivered := [];
    assert s[0..] == s;
    while true
      invariant 0 <= pos <= |s|
      invariant Decode(l, s) == Whole(delivered, Decode(l, s[pos..]))
      decreases |s| - pos
    {
      var turn := NextTurn(l, s, pos);
      TurnAdvances(l, s, pos);
      DecodeTurn(l, s, pos);
      if turn.Stop? {
        return Transcript(delivered, turn.end);
      }
      if turn.Message? {
        WholeNext(delivered, turn.payload, Decode(l, s[turn.next..]));
        delivered := delivered + [turn.payload];
      }
      pos := turn.next;
    }
  }

  function Encode(p: Bytes): Bytes {
    LittleEndian(|p|, 8) + p
  }

  function EncodeAll(ps: seq<Bytes>): Bytes {
    if ps == [] then [] else Encode(ps[0]) + EncodeAll(ps[1..])
  }

  /** The messages that could be marshalled, in order. */
  function Marshalled(ms: seq<Option<Bytes>>): seq<Bytes> {
    if ms == [] then [] else (if ms[0].Some? then [ms[0].value] else []) + Marshalled(ms[1..])
  }

  lemma NextFrame(ms: seq<Option<Bytes>>, i: nat)
    requires i < |ms|
    ensures EncodeAll(Marshalled(ms[i..])) ==
        (if ms[i].Some? then Encode(ms[i].value) else []) + EncodeAll(Marshalled(ms[i + 1..]))
  {
    var later := Marshalled(ms[i + 1..]);
    assert ms[i..][0] == ms[i] && ms[i..][1..] == ms[i + 1..];
    if ms[i].Some? {
      assert ([ms[i].value] + later)[1..] == later;
    } else {
      assert [] + later == later;
    }
  }

  /** What a transport that takes `room` bytes and then fails lets through. */
  function Taken(bytes: Bytes, room: nat): Bytes {
    if |bytes| <= room then bytes else bytes[..room]
  }

  /** The write loop, message by message; one that does not marshal is skipped, and a
      failing write ends the loop. */
  method WriteLoop(ms: seq<Option<Bytes>>, room: nat) returns (out: Bytes, failed: bool)
    ensures out == Taken(EncodeAll(Marshalled(ms)), room)
    ensures failed <==> room < |EncodeAll(Marshalled(ms))|
  {
    out := [];
    for i := 0 to |ms|
      invariant |out| <= room && out + EncodeAll(Marshalled(ms[i..])) == EncodeAll(Marshalled(ms))
    {
      ghost var later := EncodeAll(Marshalled(ms[i + 1..]));
      NextFrame(ms, i);
      if ms[i].Some? {
        var b := ms[i].value;
        var flushed := out + (LittleEndian(|b|, 8) + b);
        assert out + (Encode(b) + later) == flushed + later;
        if |flushed| > room {
          assert (flushed + later)[..room] == flushed[..room];
          return flushed[..room], true;
        }
        out := flushed;
      } else {
        assert [] + later == later;
      }
    }
    assert ms[|ms|..] == [];
    return out, false;
  }

  /** What a reader should see of the payloads `ps`, told without bytes: empty ones
      are passed over, a too long or malformed one ends the stream, and after the
      last one comes whatever `next` is. */
  function Expect(l: Limits, ps: seq<Bytes>, next: Transcript): Transcript {
    if ps == [] then next
    else if ps[0] == [] then Expect(l, ps[1..], next)
    else if |ps[0]| > l.max then Transcript([], TooLong)
    else if !l.valid(ps[0]) then Transcript([], Malformed)
    else Cons(ps[0], Expect(l, ps[1..], next))
  }

  predicate Sendable(ps: seq<Bytes>) {
    forall i :: 0 <= i < |ps| ==> |ps[i]| < TWO_63
  }

  lemma DecodeOne(l: Limits, p: Bytes, tail: Bytes)
    requires |p| < TWO_63
    ensures Decode(l, Encode(p) + tail) ==
      if p == [] then Decode(l, tail)
      else if |p| > l.max then Transcript([], TooLong)
      else if !l.valid(p) then Transcript([], Malformed)
      else Cons(p, Decode(l, tail))
  {
    var s := Encode(p) + tail;
    Widths();
    LittleEndianRoundTrip(|p|, 8);
    assert s[..8] == LittleEndian(|p|, 8) && s[8..] == p + tail;
    assert (p + tail)[..|p|] == p && (p + tail)[|p|..] == tail;
  }

  /** Reading back frames that were written, with anything behind them, gives
      exactly the payloads, in order, up to the first one the reader refuses. */
  lemma {:induction false} RoundTrip(l: Limits, ps: seq<Bytes>, tail: Bytes)
    requires Sendable(ps)
    ensures Decode(l, EncodeAll(ps) + tail) == Expect(l, ps, Decode(l, tail))
  {
    if ps == [] {
      assert EncodeAll(ps) + tail == tail;
    } else {
      RoundTrip(l, ps[1..], tail);
      assert EncodeAll(ps) + tail == Encode(ps[0]) + (EncodeAll(ps[1..]) + tail);
      DecodeOne(l, ps[0], EncodeAll(ps[1..]) + tail);
    }
  }

  /** How many of the frames lie wholly within the first `k` bytes. */
  function WholeFrames(ps: seq<Bytes>, k: nat): (n: nat)
    ensures n <= |ps|
  {
    if ps == [] || k < 8 + |ps[0]| then 0 else 1 + WholeFrames(ps[1..], k - (8 + |ps[0]|))
  }

  /** Why reading ends in the frame that a cut after `k` bytes falls in: a length that is
      there and too large is refused before the missing bytes are noticed. */
  function EndAtCut(l: Limits, ps: seq<Bytes>, k: nat): End {
    if ps == [] then CutOff
    else if k >= 8 + |ps[0]| then EndAtCut(l, ps[1..], k - (8 + |ps[0]|))
    else if k >= 8 && |ps[0]| > l.max then TooLong
    else CutOff
  }

  lemma CutFrame(l: Limits, p: Bytes, k: nat)
    requires |p| < TWO_63 && k < 8 + |p|
    ensures Decode(l, Encode(p)[..k]) == Transcript([], if k >= 8 && |p| > l.max then TooLong else CutOff)
  {
    var s := Encode(p)[..k];
    if k >= 8 {
      Widths();
      LittleEndianRoundTrip(|p|, 8);
      assert s[..8] == LittleEndian(|p|, 8);
    }
  }

  /** A stream of any frames cut at any byte, empty, too long and malformed ones
      included, yields what the whole frames before the cut yield, and then an error. */
  lemma {:induction false} CutAnywhere(l: Limits, ps: seq<Bytes>, k: nat)
    requires Sendable(ps) && k <= |EncodeAll(ps)|
    ensures Decode(l, EncodeAll(ps)[..k]) == Expect(l, ps[..WholeFrames(ps, k)], Transcript([], EndAtCut(l, ps, k)))
  {
    if ps == [] {
    } else {
      var p, more := ps[0], EncodeAll(ps[1..]);
      if k < 8 + |p| {
        assert EncodeAll(ps)[..k] == Encode(p)[..k];
        CutFrame(l, p, k);
      } else {
        var k' := k - (8 + |p|);
        var n := WholeFrames(ps[1..], k');
        assert EncodeAll(ps)[..k] == Encode(p) + more[..k'];
        CutAnywhere(l, ps[1..], k');
        DecodeOne(l, p, more[..k']);
        assert ps[..1 + n][0] == p && ps[..1 + n][1..] == ps[1..][..n];
      }
    }
  }

  predicate Acceptable(l: Limits, p: Bytes) {
    0 < |p| <= l.max && l.valid(p) && |p| < TWO_63
  }

  lemma {:induction false} ExpectAcceptable(l: Limits, ps: seq<Bytes>, next: Transcript)
    requires forall i :: 0 <= i < |ps| ==> Acceptable(l, ps[i])
    ensures Expect(l, ps, next) == Transcript(ps + next.delivered, next.end)
  {
    if ps == [] {
    } else {
      ExpectAcceptable(l, ps[1..], next);
      assert [ps[0]] + (ps[1..] + next.delivered) == ps + next.delivered;
    }
  }

  lemma {:induction false} CutEndsInError(l: Limits, ps: seq<Bytes>, k: nat)
    requires forall i :: 0 <= i < |ps| ==> Acceptable(l, ps[i])
    ensures EndAtCut(l, ps, k) == CutOff
  {
    if ps == [] || k < 8 + |ps[0]| {
    } else {
      CutEndsInError(l, ps[1..], k - (8 + |ps[0]|));
    }
  }

  /** In particular, of frames the reader accepts exactly the whole ones are delivered,
      however many bytes the writer got through before it failed. */
  lemma WrittenThenCut(l: Limits, ms: seq<Option<Bytes>>, room: nat)
    requires forall i :: 0 <= i < |Marshalled(ms)| ==> Acceptable(l, Marshalled(ms)[i])
    ensures var ps := Marshalled(ms);
      Decode(l, Taken(EncodeAll(ps), room)) == Transcript(ps[..WholeFrames(ps, |Taken(EncodeAll(ps), room)|)], CutOff)
  {
    var ps := Marshalled(ms);
    var k := |Taken(EncodeAll(ps), room)|;
    assert Taken(EncodeAll(ps), room) == EncodeAll(ps)[..k];
    CutAnywhere(l, ps, k);
    CutEndsInError(l, ps, k);
    ExpectAcceptable(l, ps[..WholeFrames(ps, k)], Transcript([], CutOff));
  }

  // ------------------------------------------------------------------- QUIC

  const MAX_FRAME := 8 * 1024 * 1024

  /** The length is converted to 32 bits before it is written. */
  function WriteFrame(data: Bytes): Bytes {
    BigEndian(|data| % TWO_32, 4) + data
  }

  function ReadFrame(s: Bytes): Result<(Bytes, Bytes), End> {
    if |s| < 4 then Err(CutOff)
    else
      var length := FromBigEndian(s[..4]);
      if length > MAX_FRAME then Err(TooLong)
      else if |s| - 4 < length then Err(CutOff)
      else Ok((s[4..4 + length], s[4 + length..]))
  }

  /** A frame is read back as it was written exactly when it is at most 8 MiB: above
      that the reader refuses it, and from 4 GiB on the written length is truncated
      and what is read back, if anything, is not what was sent. */
  lemma FrameRoundTrip(data: Bytes, tail: Bytes)
    ensures ReadFrame(WriteFrame(data) + tail) == Ok((data, tail)) <==> |data| <= MAX_FRAME
    ensures MAX_FRAME < |data| < TWO_32 ==> ReadFrame(WriteFrame(data) + tail) == Err(TooLong)
  {
    var s := WriteFrame(data) + tail;
    var n := |data| % TWO_32;
    Widths();
    BigEndianRoundTrip(n, 4);
    assert s[..4] == BigEndian(n, 4);
    if n <= MAX_FRAME {
      assert |s[4..4 + n]| == n;
      if n == |data| {
        assert s[4..4 + n] == data && s[4 + n..] == tail;
      }
    }
  }

  function WriteAll(ds: seq<Bytes>): Bytes {
    if ds == [] then [] else WriteFrame(ds[0]) + WriteAll(ds[1..])
  }

  /** Reading frames until one cannot be read. */
  function ReadAll(s: Bytes): Transcript
    decreases |s|
  {
    match ReadFrame(s)
    case Err(end) => Transcript([], end)
    case Ok((data, rest)) => Cons(data, ReadAll(rest))
  }

  /** What a reader should see of the frames `ds`, told without bytes. */
  function ExpectFrames(ds: seq<Bytes>, next: Transcript): Transcript {
    if ds == [] then next
    else if |ds[0]| > MAX_FRAME then Transcript([], TooLong)
    else Cons(ds[0], ExpectFrames(ds[1..], next))
  }

  ghost predicate AllFit(ds: seq<Bytes>) {
    forall i :: 0 <= i < |ds| ==> |ds[i]| <= MAX_FRAME
  }

  /** No length is truncated to 32 bits. */
  ghost predicate Unwrapped(ds: seq<Bytes>) {
    forall i :: 0 <= i < |ds| ==> |ds[i]| < TWO_32
  }

  /** Reading any number of frames written, with anything behind them, gives exactly
      their data, in order, and stops at the first frame that is too long. */
  lemma {:induction false} FramesRoundTrip(ds: seq<Bytes>, tail: Bytes)
    requires Unwrapped(ds)
    ensures ReadAll(WriteAll(ds) + tail) == ExpectFrames(ds, ReadAll(tail))
  {
    if ds == [] {
      assert WriteAll(ds) + tail == tail;
    } else {
      FramesRoundTrip(ds[1..], tail);
      FrameRoundTrip(ds[0], WriteAll(ds[1..]) + tail);
      assert WriteAll(ds) + tail == WriteFrame(ds[0]) + (WriteAll(ds[1..]) + tail);
    }
  }

  lemma {:induction false} ExpectFitting(ds: seq<Bytes>, next: Transcript)
    requires AllFit(ds)
    ensures ExpectFrames(ds, next) == Transcript(ds + next.delivered, next.end)
  {
    if ds == [] {
    } else {
      ExpectFitting(ds[1..], next);
      assert [ds[0]] + (ds[1..] + next.delivered) == ds + next.delivered;
    }
  }

  /** A frame read with the right data was read whole, and is not too long. */
  lemma FrameRest(data: Bytes, tail: Bytes)
    ensures var r := ReadFrame(WriteFrame(data) + tail);
      r.Ok? && r.value.0 == data ==> r.value.1 == tail && |data| <= MAX_FRAME
  {
    Widths();
    BigEndianRoundTrip(|data| % TWO_32, 4);
    var s := WriteFrame(data) + tail;
    assert s[..4] == BigEndian(|data| % TWO_32, 4);
    assert s[4 + |data|..] == tail;
  }

  /** Any frames whatever, of 4 GiB and more too, come out as they went in exactly when
      each is at most 8 MiB. */
  lemma {:induction false} FramesArrive(ds: seq<Bytes>, tail: Bytes)
    ensures ds <= ReadAll(WriteAll(ds) + tail).delivered <==> AllFit(ds)
  {
    var got := ReadAll(WriteAll(ds) + tail).delivered;
    if AllFit(ds) {
      FramesRoundTrip(ds, tail);
      ExpectFitting(ds, ReadAll(tail));
    }
    if ds == [] || !(ds <= got) {
    } else {
      var more := WriteAll(ds[1..]) + tail;
      assert WriteAll(ds) + tail == WriteFrame(ds[0]) + more;
      assert got[0] == ds[0];
      FrameRest(ds[0], more);
      FramesArrive(ds[1..], tail);
      assert got == [ds[0]] + ReadAll(more).delivered;
      assert ds[1..] <= ReadAll(more).delivered by { assert got[1..] == ReadAll(more).delivered; }
    }
  }

  /** How many frames lie wholly within the first `k` bytes, and why reading ends in the
      one the cut falls in. */
  function FramesBefore(ds: seq<Bytes>, k: nat): (n: nat)
    ensures n <= |ds|
  {
    if ds == [] || k < 4 + |ds[0]| then 0 else 1 + FramesBefore(ds[1..], k - (4 + |ds[0]|))
  }

  function FrameEnd(ds: seq<Bytes>, k: nat): End {
    if ds == [] then CutOff
    else if k >= 4 + |ds[0]| then FrameEnd(ds[1..], k - (4 + |ds[0]|))
    else if k >= 4 && |ds[0]| > MAX_FRAME then TooLong
    else CutOff
  }

  lemma FrameCut(data: Bytes, k: nat)
    requires |data| < TWO_32 && k < |WriteFrame(data)|
    ensures ReadFrame(WriteFrame(data)[..k]) == Err(if k >= 4 && |data| > MAX_FRAME then TooLong else CutOff)
  {
    Widths();
    BigEndianRoundTrip(|data|, 4);
    assert |data| % TWO_32 == |data|;
    if k >= 4 { HeadOf(BigEndian(|data|, 4), data, k); }
  }

  lemma HeadOf(a: Bytes, b: Bytes, k: nat)
    requires |a| <= k <= |a + b|
    ensures (a + b)[..k][..|a|] == a
  {}

  /** Any frames cut at any byte yield what the whole ones before the cut yield, and then
      an error. */
  lemma {:induction false} FramesCutAnywhere(ds: seq<Bytes>, k: nat)
    requires Unwrapped(ds) && k <= |WriteAll(ds)|
    ensures ReadAll(WriteAll(ds)[..k]) == ExpectFrames(ds[..FramesBefore(ds, k)], Transcript([], FrameEnd(ds, k)))
  {
    if ds == [] {
    } else {
      var d, more := ds[0], WriteAll(ds[1..]);
      if k < 4 + |d| {
        assert WriteAll(ds)[..k] == WriteFrame(d)[..k];
        FrameCut(d, k);
      } else {
        var k' := k - (4 + |d|);
        var n := FramesBefore(ds[1..], k');
        assert WriteAll(ds)[..k] == WriteFrame(d) + more[..k'];
        FramesCutAnywhere(ds[1..], k');
        FrameRoundTrip(d, more[..k']);
        assert ds[..1 + n][0] == d && ds[..1 + n][1..] == ds[1..][..n];
      }
    }
  }

  lemma {:induction false} FittingEnd(ds: seq<Bytes>, k: nat)
    requires AllFit(ds)
    ensures FrameEnd(ds, k) == CutOff
  {
    if ds == [] || k < 4 + |ds[0]| {
    } else {
      FittingEnd(ds[1..], k - (4 + |ds[0]|));
    }
  }

  /** Of frames within the limit exactly the whole ones before the cut are read. */
  lemma FittingCutAnywhere(ds: seq<Bytes>, k: nat)
    requires AllFit(ds) && k <= |WriteAll(ds)|
    ensures ReadAll(WriteAll(ds)[..k]) == Transcript(ds[..FramesBefore(ds, k)], CutOff)
  {
    FramesCutAnywhere(ds, k);
    FittingEnd(ds, k);
    ExpectFitting(ds[..FramesBefore(ds, k)], Transcript([], CutOff));
  }

  // ---------------------------------------------------------------- uploads

  /** A command and the chunk that follows it. */
  datatype Upload = Upload(command: Bytes, chunk: Bytes)

  function Frames(us: seq<Upload>): (fs: seq<Bytes>)
    ensures |fs| == 2 * |us|
  {
    if us == [] then [] else [us[0].command, us[0].chunk] + Frames(us[1..])
  }

  /** The server takes frames two at a time; a command without its chunk waits. */
  function Paired(fs: seq<Bytes>): seq<Upload> {
    if |fs| < 2 then [] else [Upload(fs[0], fs[1])] + Paired(fs[2..])
  }

  lemma {:induction false} PairedPrefix(us: seq<Upload>, n: nat)
    requires n <= 2 * |us|
    ensures Paired(Frames(us)[..n]) == us[..n / 2]
  {
    if n < 2 {
    } else {
      PairedPrefix(us[1..], n - 2);
      assert Frames(us)[..n][2..] == Frames(us[1..])[..n - 2];
      assert us[..n / 2] == [us[0]] + us[1..][..(n - 2) / 2];
    }
  }

  lemma {:induction false} PairedExtends(us: seq<Upload>, fs: seq<Bytes>)
    requires Paired(fs) == us
    ensures Frames(us) <= fs
  {
    if |fs| < 2 {
    } else {
      assert us[0] == Upload(fs[0], fs[1]) && us[1..] == Paired(fs[2..]);
      PairedExtends(us[1..], fs[2..]);
      assert fs == [fs[0], fs[1]] + fs[2..];
    }
  }

  /** After any number of uploads the server, reading two frames at a time, has got
      exactly the commands with their chunks, if and only if no frame is too long. */
  lemma UploadsArrive(us: seq<Upload>)
    ensures Paired(ReadAll(WriteAll(Frames(us))).delivered) == us <==> AllFit(Frames(us))
  {
    var fs := Frames(us);
    assert WriteAll(fs) + [] == WriteAll(fs);
    FramesArrive(fs, []);
    if AllFit(fs) {
      FramesRoundTrip(fs, []);
      ExpectFitting(fs, ReadAll([]));
      PairedPrefix(us, |fs|);
      assert fs[..|fs|] == fs && us[..|fs| / 2] == us && fs + [] == fs;
    }
    if Paired(ReadAll(WriteAll(fs)).delivered) == us {
      PairedExtends(us, ReadAll(WriteAll(fs)).delivered);
    }
  }

  /** When the stream breaks in the middle, the server has got exactly the uploads whose
      two frames were written whole. */
  lemma BrokenStreamArrives(us: seq<Upload>, k: nat)
    requires AllFit(Frames(us)) && k <= |WriteAll(Frames(us))|
    ensures Paired(ReadAll(WriteAll(Frames(us))[..k]).delivered) == us[..FramesBefore(Frames(us), k) / 2]
  {
    FittingCutAnywhere(Frames(us), k);
    PairedPrefix(us, FramesBefore(Frames(us), k));
  }

  lemma {:induction false} WriteAllSnoc(ds: seq<Bytes>, d: Bytes)
    ensures WriteAll(ds + [d]) == WriteAll(ds) + WriteFrame(d)
  {
    if ds == [] {
      assert [d][1..] == [];
      assert WriteFrame(d) + [] == WriteFrame(d);
    } else {
      WriteAllSnoc(ds[1..], d);
      assert (ds + [d])[1..] == ds[1..] + [d];
      assert WriteFrame(ds[0]) + (WriteAll(ds[1..]) + WriteFrame(d)) == WriteAll(ds) + WriteFrame(d);
    }
  }

  lemma {:induction false} FramesSnoc(us: seq<Upload>, u: Upload)
    ensures Frames(us + [u]) == Frames(us) + [u.command] + [u.chunk]
  {
    if us == [] {
      assert [u][1..] == [];
    } else {
      FramesSnoc(us[1..], u);
      assert (us + [u])[1..] == us[1..] + [u];
    }
  }

  lemma UploadBytes(us: seq<Upload>, u: Upload)
    ensures WriteAll(Frames(us + [u])) == WriteAll(Frames(us)) + (WriteFrame(u.command) + WriteFrame(u.chunk))
  {
    FramesSnoc(us, u);
    WriteAllSnoc(Frames(us), u.command);
    WriteAllSnoc(Frames(us) + [u.command], u.chunk);
  }

  lemma TakenInParts(sent: Bytes, a: Bytes, b: Bytes, room: nat)
    ensures |a| <= room ==> sent + Taken(a, room) + Taken(b, room - |a|) == sent + Taken(a + b, room)
    ensures |a| > room ==> sent + Taken(a, room) == sent + Taken(a + b, room)
    ensures sent + Taken(a + b, room) <= sent + (a + b)
  {}

  datatype Status = Success | Completed | Refusal

  /** Why an upload failed: not sent whole, no answer, one that does not parse, or a
      refusal by the server. */
  datatype Failure = NotSent | NoAnswer(end: End) | BadAnswer | ServerError

  /** One stream, used under its lock: bytes sent so far, and bytes of the answers still
      to be read.  `uploads` are the uploads tried so far; the stream is whole as long
      as no write has failed. */
  class Stream {
    var sent: Bytes
    var incoming: Bytes
    ghost var uploads: seq<Upload>
    ghost var whole: bool

    ghost predicate Valid()
      reads this
    {
      whole ==> sent == WriteAll(Frames(uploads))
    }

    constructor (incoming: Bytes)
      ensures Valid() && whole && uploads == [] && sent == [] && this.incoming == incoming
    {
      sent, this.incoming := [], incoming;
      uploads, whole := [], true;
    }

    /** The transport takes `room` bytes more before it fails. */
    method Write(data: Bytes, room: nat) returns (ok: bool)
      modifies this`sent
      ensures sent == old(sent) + Taken(WriteFrame(data), room)
      ensures ok <==> |WriteFrame(data)| <= room
    {
      var length := BigEndian(|data| % TWO_32, 4);
      if room < 4 {
        sent := sent + length[..room];
        assert WriteFrame(data)[..room] == length[..room];
        return false;
      }
      sent := sent + length;
      var taken := if |data| <= room - 4 then data else data[..room - 4];
      sent := sent + taken;
      assert old(sent) + length + taken == old(sent) + Taken(WriteFrame(data), room);
      return |data| <= room - 4;
    }

    method Read() returns (r: Result<Bytes, End>)
      modifies this`incoming
      ensures match ReadFrame(old(incoming))
              case Ok((data, rest)) => r == Ok(data) && incoming == rest
              case Err(e) => r == Err(e)
    {
      if |incoming| < 4 {
        return Err(CutOff);
      }
      var length := FromBigEndian(incoming[..4]);
      if length > MAX_FRAME {
        return Err(TooLong);
      }
      if |incoming| - 4 < length {
        return Err(CutOff);
      }
      r := Ok(incoming[4..4 + length]);
      incoming := incoming[4 + length..];
    }

    /** Both frames of an upload. */
    method SendFrames(u: Upload, room: nat) returns (ok: bool)
      requires Valid()
      modifies this`sent, this`uploads, this`whole
      ensures Valid() && uploads == old(uploads) + [u] && whole == (old(whole) && ok)
      ensures sent == old(sent) + Taken(WriteFrame(u.command) + WriteFrame(u.chunk), room)
      ensures ok <==> |WriteFrame(u.command) + WriteFrame(u.chunk)| <= room
      ensures old(whole) ==> sent <= WriteAll(Frames(uploads))
    {
      UploadBytes(uploads, u);
      TakenInParts(sent, WriteFrame(u.command), WriteFrame(u.chunk), room);
      ok := Write(u.command, room);
      if ok {
        ok := Write(u.chunk, room - (4 + |u.command|));
      }
      uploads, whole := uploads + [u], whole && ok;
    }

    /** Send the command and the chunk, then read one answer and see what it says. */
    method SendChunk(u: Upload, room: nat, parse: Bytes -> Option<Status>) returns (r: Result<Status, Failure>)
      requires Valid()
      modifies this
      ensures Valid() && uploads == old(uploads) + [u] && whole == (old(whole) && r != Err(NotSent))
      ensures sent == old(sent) + Taken(WriteFrame(u.command) + WriteFrame(u.chunk), room)
      ensures r == Err(NotSent) <==> room < |WriteFrame(u.command) + WriteFrame(u.chunk)|
      ensures old(whole) ==> sent <= WriteAll(Frames(uploads))
      ensures r != Err(NotSent) ==>
        match ReadFrame(old(incoming))
        case Err(e) => r == Err(NoAnswer(e))
        case Ok((data, rest)) =>
          incoming == rest &&
          match parse(data)
          case None => r == Err(BadAnswer)
          case Some(status) => r == if status.Refusal? then Err(ServerError) else Ok(status)
    {
      var ok := SendFrames(u, room);
      if !ok {
        return Err(NotSent);
      }
      var answer := Read();
      if answer.Err? {
        return Err(NoAnswer(answer.error));
      }
      var status := parse(answer.value);
      if status.None? {
        return Err(BadAnswer);
      }
      if status.value != Success && status.value != Completed {
        return Err(ServerError);
      }
      return Ok(status.value);
    }
  }

  /** So whatever was uploaded on a stream, in any number of calls, the server has got
      exactly those commands with their chunks as long as no write failed and exactly
      when no frame was too long. */
  lemma StreamDecodes(s: Stream)
    requires s.Valid() && s.whole
    ensures Paired(ReadAll(s.sent).delivered) == s.uploads <==> AllFit(Frames(s.uploads))
  {
    UploadsArrive(s.uploads);
  }
}
