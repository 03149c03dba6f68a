/**
 Reassembly of length-prefixed packets from a stream that arrives in chunks.

 `Intended` is what the receive loop is for: cut off every complete frame, keep the tail. `Written`
 is what its compaction step, with source and destination the other way round, really does: it
 delivers the first frame over and over. The two agree exactly on streams that repeat their first frame.
 */
module Framing {
  import opened Common
  import opened Packets

  const CHUNK_LIMIT: nat := 4096
  const FIRST_CAPACITY: nat := 8192
  const LAST_CAPACITY: nat := 131072
  /** The first capacity, doubled no, one, two, three or four times. */
  predicate IsCapacity(n: nat) {
    n in {FIRST_CAPACITY, 16384, 32768, 65536, LAST_CAPACITY}
  }

  const POSITION_LIMIT: nat := 65534

  // ---------------------------------------------------------------------------------------------
  // Frames
  // ---------------------------------------------------------------------------------------------

  /** The length field at offset i, which counts its own two bytes. */
  function SizeAt(s: seq<byte>, i: nat): nat
    requires i + 2 <= |s|
  {
    s[i] + Times256(s[i + 1])
  }

  predicate Complete(s: seq<byte>, i: nat) {
    i + 2 <= |s| && SizeAt(s, i) >= 2 && i + SizeAt(s, i) <= |s|
  }

  function Payload(s: seq<byte>, i: nat): seq<byte>
    requires Complete(s, i)
  {
    Window(s, i + 2, SizeAt(s, i) - 2)
  }

  /** The payloads of the complete frames from offset i on. */
  function FramesFrom(s: seq<byte>, i: nat): seq<seq<byte>>
    decreases |s| - i
  {
    if Complete(s, i) then [Payload(s, i)] + FramesFrom(s, i + SizeAt(s, i)) else []
  }

  /** Where the incomplete tail starts. */
  function TailFrom(s: seq<byte>, i: nat): (e: nat)
    requires i <= |s|
    ensures i <= e <= |s| && !Complete(s, e)
    decreases |s| - i
  {
    if Complete(s, i) then TailFrom(s, i + SizeAt(s, i)) else i
  }

  /** No length field below 2 is ever met. */
  predicate WellFormed(s: seq<byte>) {
    var e := TailFrom(s, 0);
    e + 2 <= |s| ==> SizeAt(s, e) >= 2
  }

  /** What one delivery hands on, and what it keeps. */
  datatype Call = Call(frames: seq<seq<byte>>, rest: seq<byte>)

  function Intended(s: seq<byte>): Call {
    Call(FramesFrom(s, 0), s[TailFrom(s, 0)..])
  }

  /** The data of the packet made for a payload: the constructor's two zero bytes stay behind a short one. */
  function Delivered(payload: seq<byte>): seq<byte> {
    Patched([0, 0], 0, payload)
  }

  function DeliveredAll(frames: seq<seq<byte>>): seq<seq<byte>> {
    seq(|frames|, i requires 0 <= i < |frames| => Delivered(frames[i]))
  }

  lemma DeliveredPads(payload: seq<byte>)
    ensures Delivered(payload) == payload + Zeroes(Max(2 - |payload|, 0))
  {
  }

  // ---------------------------------------------------------------------------------------------
  // Chunking does not matter
  // ---------------------------------------------------------------------------------------------

  lemma FramesUnfold(s: seq<byte>, i: nat)
    requires Complete(s, i)
    ensures FramesFrom(s, i) == [Payload(s, i)] + FramesFrom(s, i + SizeAt(s, i))
  {
  }

  lemma TailUnfolds(s: seq<byte>, i: nat)
    requires Complete(s, i)
    ensures TailFrom(s, i) == TailFrom(s, i + SizeAt(s, i))
  {
  }

  /** `u` is `part` at offset `e`, possibly with more bytes behind it. */
  ghost predicate Carries(u: seq<byte>, e: nat, part: seq<byte>) {
    e + |part| <= |u| && forall k: nat :: k < |part| ==> u[e + k] == part[k]
  }

  /** A frame of the part is the same frame of the whole, and at the end of the whole also conversely. */
  lemma SameFrame(u: seq<byte>, e: nat, part: seq<byte>, i: nat)
    requires Carries(u, e, part) && i <= |part|
    ensures Complete(part, i) ==> Complete(u, e + i)
    ensures Complete(part, i) ==> SizeAt(u, e + i) == SizeAt(part, i) && Payload(u, e + i) == Payload(part, i)
    ensures e + |part| == |u| && Complete(u, e + i) ==> Complete(part, i)
  {
    if i + 2 <= |part| {
      assert u[e + i] == part[i] && u[e + (i + 1)] == part[i + 1];
      assert SizeAt(u, e + i) == SizeAt(part, i);
    }
    if Complete(part, i) {
      forall k: nat | k < SizeAt(part, i) - 2 ensures Payload(u, e + i)[k] == Payload(part, i)[k] {
        assert u[e + (i + 2 + k)] == part[i + 2 + k];
      }
    }
  }

  /** Every frame of the part is a frame of the whole. */
  ghost predicate KeepsFrames(u: seq<byte>, e: nat, part: seq<byte>) {
    forall i: nat {:trigger Complete(part, i)} :: i <= |part| && Complete(part, i) ==>
      Complete(u, e + i) && SizeAt(u, e + i) == SizeAt(part, i) && Payload(u, e + i) == Payload(part, i)
  }

  /** And no other frame starts within the part. */
  ghost predicate AddsNoFrames(u: seq<byte>, e: nat, part: seq<byte>) {
    forall i: nat {:trigger Complete(part, i)} :: i <= |part| && Complete(u, e + i) ==> Complete(part, i)
  }

  lemma CarriedFrames(u: seq<byte>, e: nat, part: seq<byte>)
    requires Carries(u, e, part)
    ensures KeepsFrames(u, e, part)
    ensures e + |part| == |u| ==> AddsNoFrames(u, e, part)
  {
    forall i: nat | i <= |part|
      ensures Complete(part, i) ==>
        Complete(u, e + i) && SizeAt(u, e + i) == SizeAt(part, i) && Payload(u, e + i) == Payload(part, i)
      ensures e + |part| == |u| && Complete(u, e + i) ==> Complete(part, i)
    {
      SameFrame(u, e, part, i);
    }
  }

  lemma {:induction false} TailGrow(s: seq<byte>, u: seq<byte>, i: nat)
    requires i <= |s| <= |u| && KeepsFrames(u, 0, s)
    ensures TailFrom(u, i) == TailFrom(u, TailFrom(s, i))
    decreases |s| - i
  {
    if Complete(s, i) {
      TailGrow(s, u, i + SizeAt(s, i));
    }
  }

  /** More bytes behind the stream change none of the frames already complete. */
  lemma {:induction false} FramesGrow(s: seq<byte>, u: seq<byte>, i: nat)
    requires i <= |s| <= |u| && KeepsFrames(u, 0, s)
    ensures FramesFrom(u, i) == FramesFrom(s, i) + FramesFrom(u, TailFrom(s, i))
    decreases |s| - i
  {
    if Complete(s, i) {
      var next := i + SizeAt(s, i);
      FramesGrow(s, u, next);
      FramesUnfold(s, i);
      FramesUnfold(u, i);
      TailUnfolds(s, i);
      Regroup([Payload(s, i)], FramesFrom(s, next), FramesFrom(u, TailFrom(s, next)));
    }
  }

  /** Frames do not depend on what was in front of them. */
  lemma {:induction false} FramesShift(s: seq<byte>, u: seq<byte>, e: nat, i: nat, j: nat)
    requires j == e + i && i <= |u| && KeepsFrames(s, e, u) && AddsNoFrames(s, e, u)
    ensures FramesFrom(u, i) == FramesFrom(s, j)
    decreases |u| - i
  {
    if Complete(u, i) {
      var n := SizeAt(u, i);
      FramesShift(s, u, e, i + n, j + n);
    }
  }

  lemma {:induction false} TailShift(s: seq<byte>, u: seq<byte>, e: nat, i: nat, j: nat)
    requires j == e + i && i <= |u| && j <= |s| && KeepsFrames(s, e, u) && AddsNoFrames(s, e, u)
    ensures TailFrom(u, i) + e == TailFrom(s, j)
    decreases |u| - i
  {
    if Complete(u, i) {
      var n := SizeAt(u, i);
      TailShift(s, u, e, i + n, j + n);
    }
  }

  /** What is kept of `u`, the end of `s` from offset e on, is what is kept of `s` from there. */
  lemma RestShift(s: seq<byte>, u: seq<byte>, e: nat)
    requires Carries(s, e, u) && e + |u| == |s|
    ensures Intended(u) == Call(FramesFrom(s, e), s[TailFrom(s, e)..])
  {
    CarriedFrames(s, e, u);
    FramesShift(s, u, e, 0, e);
    TailShift(s, u, e, 0, e);
    SameEnds(s, u, e, TailFrom(u, 0));
  }

  lemma SameEnds(s: seq<byte>, u: seq<byte>, e: nat, i: nat)
    requires Carries(s, e, u) && e + |u| == |s| && i <= |u|
    ensures u[i..] == s[e + i..]
  {
    var a, b := u[i..], s[e + i..];
    forall k: nat | k < |a| ensures a[k] == b[k] {
      assert s[e + (i + k)] == u[i + k];
    }
  }

  function Joined(chunks: seq<seq<byte>>, i: nat): seq<byte>
    requires i <= |chunks|
    decreases |chunks| - i
  {
    if i == |chunks| then [] else chunks[i] + Joined(chunks, i + 1)
  }

  /** Any number of deliveries, one chunk each, from the i-th on. */
  function Received(stored: seq<byte>, chunks: seq<seq<byte>>, i: nat): Call
    requires i <= |chunks|
    decreases |chunks| - i
  {
    if i == |chunks| then Call([], stored)
    else
      var c := Intended(stored + chunks[i]);
      var later := Received(c.rest, chunks, i + 1);
      Call(c.frames + later.frames, later.rest)
  }

  /** Parsing the kept tail with more bytes behind it continues the parse of the whole. */
  lemma IntendedContinues(s: seq<byte>, t: seq<byte>)
    ensures var c := Intended(s);
      var later := Intended(c.rest + t);
      Intended(s + t) == Call(c.frames + later.frames, later.rest)
  {
    var e, u := TailFrom(s, 0), s + t;
    var v := s[e..] + t;
    CarriedFrames(u, 0, s);
    FramesGrow(s, u, 0);
    TailGrow(s, u, 0);
    RestShift(u, v, e);
  }

  lemma RestIncomplete(s: seq<byte>)
    ensures !Complete(Intended(s).rest, 0)
  {
    SameFrame(s, TailFrom(s, 0), Intended(s).rest, 0);
  }

  /** However the stream is split, what is handed on and what is kept depend only on its bytes. */
  lemma {:induction false} ChunkingIrrelevant(stored: seq<byte>, chunks: seq<seq<byte>>, i: nat)
    requires i <= |chunks| && !Complete(stored, 0)
    ensures Received(stored, chunks, i) == Intended(stored + Joined(chunks, i))
    decreases |chunks| - i
  {
    if i == |chunks| {
      assert stored + [] == stored;
    } else {
      var s, t := stored + chunks[i], Joined(chunks, i + 1);
      var c := Intended(s);
      RestIncomplete(s);
      ChunkingIrrelevant(c.rest, chunks, i + 1);
      IntendedContinues(s, t);
      Regroup(stored, chunks[i], t);
    }
  }

  lemma TwoChunkingsAgree(chunks: seq<seq<byte>>, others: seq<seq<byte>>)
    requires Joined(chunks, 0) == Joined(others, 0)
    ensures Received([], chunks, 0) == Received([], others, 0)
  {
    ChunkingIrrelevant([], chunks, 0);
    ChunkingIrrelevant([], others, 0);
  }

  /** No delivery meets a length field below 2. */
  ghost predicate EveryCallWellFormed(stored: seq<byte>, chunks: seq<seq<byte>>, i: nat)
    requires i <= |chunks|
    decreases |chunks| - i
  {
    i < |chunks| ==>
      && WellFormed(stored + chunks[i])
      && EveryCallWellFormed(Intended(stored + chunks[i]).rest, chunks, i + 1)
  }

  /** More bytes do not mend a bad length field. */
  lemma WellFormedStart(s: seq<byte>, t: seq<byte>)
    requires WellFormed(s + t)
    ensures WellFormed(s)
  {
    var e, u := TailFrom(s, 0), s + t;
    CarriedFrames(u, 0, s);
    TailGrow(s, u, 0);
    if e + 2 <= |s| {
      assert u[e] == s[e] && u[e + 1] == s[e + 1];
    }
  }

  lemma WellFormedShift(u: seq<byte>, v: seq<byte>, e: nat)
    requires Carries(u, e, v) && e + |v| == |u| && TailFrom(u, 0) == TailFrom(v, 0) + e
    ensures WellFormed(u) <==> WellFormed(v)
  {
    var f := TailFrom(v, 0);
    if f + 2 <= |v| {
      assert u[e + f] == v[f] && u[e + (f + 1)] == v[f + 1];
    }
  }

  /** The kept tail and what follows are as good or bad as the whole. */
  lemma WellFormedRest(s: seq<byte>, t: seq<byte>)
    ensures WellFormed(s + t) <==> WellFormed(Intended(s).rest + t)
  {
    var e, u := TailFrom(s, 0), s + t;
    var v := s[e..] + t;
    CarriedFrames(u, 0, s);
    TailGrow(s, u, 0);
    CarriedFrames(u, e, v);
    TailShift(u, v, e, 0, e);
    WellFormedShift(u, v, e);
  }

  /** However the stream is split, some delivery meets a bad length field if and only if the stream has
      one where a frame should start. */
  lemma {:induction false} WellFormedIffEveryCall(stored: seq<byte>, chunks: seq<seq<byte>>, i: nat)
    requires i <= |chunks| && WellFormed(stored)
    ensures EveryCallWellFormed(stored, chunks, i) <==> WellFormed(stored + Joined(chunks, i))
    decreases |chunks| - i
  {
    if i == |chunks| {
      assert stored + [] == stored;
    } else {
      var s, t := stored + chunks[i], Joined(chunks, i + 1);
      Regroup(stored, chunks[i], t);
      WellFormedRest(s, t);
      if WellFormed(s) {
        KeptTail(s);
        WellFormedIffEveryCall(Intended(s).rest, chunks, i + 1);
      } else if WellFormed(s + t) {
        WellFormedStart(s, t);
      }
    }
  }

  function EncodedFrame(payload: seq<byte>): seq<byte> {
    var n := |payload| + 2;
    [n % 256, n / 256 % 256] + payload
  }

  function Stream(payloads: seq<seq<byte>>, k: nat): seq<byte>
    requires k <= |payloads|
    decreases |payloads| - k
  {
    if k == |payloads| then [] else EncodedFrame(payloads[k]) + Stream(payloads, k + 1)
  }

  lemma FirstFrame(payload: seq<byte>, more: seq<byte>)
    requires |payload| + 2 < 0x1_0000
    ensures var s := EncodedFrame(payload) + more;
      && Complete(s, 0) && SizeAt(s, 0) == |payload| + 2 && Payload(s, 0) == payload
      && Carries(s, |payload| + 2, more)
  {
    var n := |payload| + 2;
    var s := EncodedFrame(payload) + more;
    assert s[0] == n % 256 && s[1] == n / 256;
    Times256Value(s[1]);
    assert Payload(s, 0) == payload;
  }

  lemma FirstFrameThenRest(s: seq<byte>, payload: seq<byte>, more: seq<byte>, later: Call)
    requires Complete(s, 0) && SizeAt(s, 0) == |payload| + 2 && Payload(s, 0) == payload
    requires |payload| + 2 + |more| == |s| && Carries(s, |payload| + 2, more)
    requires Intended(more) == later
    ensures Intended(s) == Call([payload] + later.frames, later.rest)
  {
    RestShift(s, more, |payload| + 2);
  }

  lemma EncodedThenRest(payload: seq<byte>, more: seq<byte>)
    requires |payload| + 2 < 0x1_0000
    ensures Intended(EncodedFrame(payload) + more) == Call([payload] + Intended(more).frames, Intended(more).rest)
  {
    FirstFrame(payload, more);
    FirstFrameThenRest(EncodedFrame(payload) + more, payload, more, Intended(more));
  }

  /** A sender's frames are exactly what is cut out of its stream, and nothing is left. */
  lemma {:induction false} StreamRoundTrip(payloads: seq<seq<byte>>, k: nat)
    requires k <= |payloads| && forall j :: 0 <= j < |payloads| ==> |payloads[j]| + 2 < 0x1_0000
    ensures Intended(Stream(payloads, k)) == Call(payloads[k..], [])
    decreases |payloads| - k
  {
    if k < |payloads| {
      StreamRoundTrip(payloads, k + 1);
      EncodedThenRest(payloads[k], Stream(payloads, k + 1));
      assert payloads[k..] == [payloads[k]] + payloads[k + 1..];
    }
  }

  // ---------------------------------------------------------------------------------------------
  // The compaction step as written
  // ---------------------------------------------------------------------------------------------

  function LeftOver(p: nat, n: nat): (r: nat)
    requires n > 0
    ensures r < n && r <= p
  {
    if p < n then p else LeftOver(p - n, n)
  }

  /** The first frame again and again, while the position is at least its size. */
  function Repeated(s: seq<byte>, p: nat): seq<seq<byte>>
    requires Complete(s, 0)
    decreases p
  {
    if p < SizeAt(s, 0) then [] else [Payload(s, 0)] + Repeated(s, p - SizeAt(s, 0))
  }

  function Written(s: seq<byte>): Call {
    if Complete(s, 0) then Call(Repeated(s, |s|), s[..LeftOver(|s|, SizeAt(s, 0))]) else Call([], s)
  }

  /** From offset j on, every byte comes again n bytes later. */
  ghost predicate Periodic(s: seq<byte>, n: nat, j: nat) {
    forall k: nat :: j <= k && k + n < |s| ==> s[k] == s[k + n]
  }

  /** Nothing complete has arrived, or the stream is its first frame repeated, the last time cut short. */
  ghost predicate RepeatsFirstFrame(s: seq<byte>) {
    Complete(s, 0) ==> Periodic(s, SizeAt(s, 0), 0)
  }

  /** Offset j starts one copy of the first n bytes. */
  ghost predicate CopyAt(s: seq<byte>, n: nat, j: nat)
    requires j + n <= |s|
  {
    forall k: nat :: k < n ==> s[j + k] == s[k]
  }

  /** Offset i starts copies of the first n bytes that run to the end of s. */
  ghost predicate Copies(s: seq<byte>, n: nat, i: nat)
    requires 0 < n <= |s| && i <= |s|
    decreases |s| - i
  {
    if |s| - i < n then forall k: nat :: k < |s| - i ==> s[i + k] == s[k]
    else CopyAt(s, n, i) && Copies(s, n, i + n)
  }

  lemma CopiesStep(s: seq<byte>, n: nat, i: nat)
    requires 0 < n && i + n <= |s|
    ensures Copies(s, n, i) <==> CopyAt(s, n, i) && Copies(s, n, i + n)
  {
  }

  lemma {:induction false} CopiesArePeriodic(s: seq<byte>, n: nat, j: nat)
    requires 0 < n && j + n <= |s| && CopyAt(s, n, j) && Copies(s, n, j + n)
    ensures Periodic(s, n, j)
    decreases |s| - j
  {
    var i := j + n;
    if |s| - i >= n {
      CopiesArePeriodic(s, n, i);
    }
    forall k: nat | j <= k && k + n < |s| ensures s[k] == s[k + n] {
      if k < i {
        var m: nat := k - j;
        assert s[j + m] == s[m] == s[i + m];
      }
    }
  }

  lemma {:induction false} PeriodicIsCopies(s: seq<byte>, n: nat, j: nat)
    requires 0 < n && j + n <= |s| && CopyAt(s, n, j) && Periodic(s, n, j)
    ensures Copies(s, n, j + n)
    decreases |s| - j
  {
    var i := j + n;
    forall k: nat | k < n && i + k < |s| ensures s[i + k] == s[k] {
      var m := j + k;
      assert s[m] == s[m + n];
    }
    if |s| - i >= n {
      assert CopyAt(s, n, i);
      PeriodicIsCopies(s, n, i);
    }
  }

  lemma SameSizeSameBytes(s: seq<byte>, i: nat, j: nat)
    requires i + 2 <= |s| && j + 2 <= |s| && SizeAt(s, i) == SizeAt(s, j)
    ensures s[i] == s[j] && s[i + 1] == s[j + 1]
  {
    Times256Value(s[i + 1]);
    Times256Value(s[j + 1]);
  }

  /** A complete frame at offset i is the first one if and only if all its bytes are the same. */
  lemma SameFrameIff(s: seq<byte>, i: nat)
    requires Complete(s, 0) && Complete(s, i)
    ensures Payload(s, i) == Payload(s, 0) <==> i + SizeAt(s, 0) <= |s| && CopyAt(s, SizeAt(s, 0), i)
  {
    var n := SizeAt(s, 0);
    if Payload(s, i) == Payload(s, 0) {
      assert SizeAt(s, i) == |Payload(s, i)| + 2 == n;
      SameSizeSameBytes(s, i, 0);
      forall k: nat | k < n ensures s[i + k] == s[k] {
        if k >= 2 { assert Payload(s, i)[k - 2] == Payload(s, 0)[k - 2]; }
      }
    }
    if i + n <= |s| && CopyAt(s, n, i) {
      assert s[i + 0] == s[0] && s[i + 1] == s[1];
      assert SizeAt(s, i) == n;
      assert Payload(s, i) == Payload(s, 0);
    }
  }

  /** The bytes of s from offset e on are its first `count` bytes. */
  ghost predicate TailIsStart(s: seq<byte>, e: nat, count: nat) {
    e + count == |s| && forall k: nat :: k < count ==> s[e + k] == s[k]
  }

  lemma TailIsStartIff(s: seq<byte>, e: nat, count: nat)
    requires e <= |s| && count <= |s|
    ensures s[e..] == s[..count] <==> TailIsStart(s, e, count)
  {
    var u, v := s[e..], s[..count];
    if u == v {
      forall k: nat | k < count ensures s[e + k] == s[k] {
        assert u[k] == v[k];
      }
    }
  }

  /** The statement of `RepeatedIffCopies` for what is left from offset i. */
  ghost predicate RepeatsFrom(s: seq<byte>, i: nat)
    requires Complete(s, 0) && i <= |s|
  {
    FramesFrom(s, i) == Repeated(s, |s| - i) && TailIsStart(s, TailFrom(s, i), LeftOver(|s| - i, SizeAt(s, 0)))
  }

  /** Fewer bytes left than the first frame has. */
  lemma ShortRestIff(s: seq<byte>, i: nat)
    requires Complete(s, 0) && i <= |s| < i + SizeAt(s, 0)
    ensures RepeatsFrom(s, i) <==> Copies(s, SizeAt(s, 0), i)
  {
    var n := SizeAt(s, 0);
    var p := |s| - i;
    if Complete(s, i) {
      assert |FramesFrom(s, i)| > 0 == |Repeated(s, p)|;
      assert SizeAt(s, i) != n;
      assert s[i + 0] != s[0] || s[i + 1] != s[1];
    }
  }

  /** A first frame's worth of bytes left, but no complete frame at their start. */
  lemma BrokenRestIff(s: seq<byte>, i: nat)
    requires Complete(s, 0) && i + SizeAt(s, 0) <= |s| && !Complete(s, i)
    ensures !RepeatsFrom(s, i) && !Copies(s, SizeAt(s, 0), i)
  {
    assert |FramesFrom(s, i)| == 0 < |Repeated(s, |s| - i)|;
    assert SizeAt(s, i) != SizeAt(s, 0);
    assert s[i + 0] != s[0] || s[i + 1] != s[1];
  }

  lemma RepeatedUnfold(s: seq<byte>, p: nat)
    requires Complete(s, 0) && SizeAt(s, 0) <= p
    ensures Repeated(s, p) == [Payload(s, 0)] + Repeated(s, p - SizeAt(s, 0))
    ensures LeftOver(p, SizeAt(s, 0)) == LeftOver(p - SizeAt(s, 0), SizeAt(s, 0))
  {
  }

  /** A first frame's worth of bytes left, and a complete frame like the first at their start. */
  lemma SameNextFrame(s: seq<byte>, i: nat, n: nat)
    requires Complete(s, 0) && n == SizeAt(s, 0) && i + n <= |s|
    requires Complete(s, i) && SizeAt(s, i) == n && Payload(s, i) == Payload(s, 0)
    ensures RepeatsFrom(s, i) <==> RepeatsFrom(s, i + n)
  {
    FramesUnfold(s, i);
    TailUnfolds(s, i);
    RepeatedUnfold(s, |s| - i);
    ConsIff(Payload(s, i), FramesFrom(s, i + n), Payload(s, 0), Repeated(s, |s| - (i + n)));
  }

  /** The same with a different frame. */
  lemma DifferentNextFrame(s: seq<byte>, i: nat, n: nat)
    requires Complete(s, 0) && n == SizeAt(s, 0) && i + n <= |s|
    requires Complete(s, i) && Payload(s, i) != Payload(s, 0)
    ensures !RepeatsFrom(s, i)
  {
    ConsIff(Payload(s, i), FramesFrom(s, i + SizeAt(s, i)), Payload(s, 0), Repeated(s, |s| - i - n));
  }

  /** A first frame's worth of bytes left, and a complete frame at their start. */
  lemma NextFrameIff(s: seq<byte>, i: nat, n: nat)
    requires Complete(s, 0) && n == SizeAt(s, 0) && i + n <= |s| && Complete(s, i)
    requires RepeatsFrom(s, i + n) <==> Copies(s, n, i + n)
    ensures RepeatsFrom(s, i) <==> Copies(s, n, i)
  {
    SameFrameIff(s, i);
    CopiesStep(s, n, i);
    if Payload(s, i) == Payload(s, 0) {
      assert SizeAt(s, i) == |Payload(s, i)| + 2 == n;
      SameNextFrame(s, i, n);
    } else {
      DifferentNextFrame(s, i, n);
    }
  }

  lemma {:induction false} RepeatedIffCopies(s: seq<byte>, i: nat)
    requires Complete(s, 0) && i <= |s|
    ensures RepeatsFrom(s, i) <==> Copies(s, SizeAt(s, 0), i)
    decreases |s| - i
  {
    var n := SizeAt(s, 0);
    if |s| - i < n {
      ShortRestIff(s, i);
    } else if !Complete(s, i) {
      BrokenRestIff(s, i);
    } else {
      RepeatedIffCopies(s, i + n);
      NextFrameIff(s, i, n);
    }
  }

  /** Where the compaction as written stays inside the buffer, it hands on and keeps what is intended if
      and only if the stored stream repeats its first frame. */
  lemma SameCallIff(s: seq<byte>)
    ensures Written(s) == Intended(s) <==> RepeatsFirstFrame(s)
  {
    if Complete(s, 0) {
      var n := SizeAt(s, 0);
      RepeatedIffCopies(s, 0);
      assert CopyAt(s, n, 0);
      TailIsStartIff(s, TailFrom(s, 0), LeftOver(|s|, n));
      if Copies(s, n, n) { CopiesArePeriodic(s, n, 0); }
      if Periodic(s, n, 0) { PeriodicIsCopies(s, n, 0); }
    } else {
      assert s[0..] == s;
    }
  }

  /** Two frames, 05 00 61 62 63 and 04 00 64 65, in one chunk: the first one alone comes out, and
      its first four bytes are taken for the start of the next. */
  lemma WrittenDropsSecondFrame()
    ensures Written(TWO_FRAMES) == Call([[97, 98, 99]], [5, 0, 97, 98])
    ensures Intended(TWO_FRAMES) == Call([[97, 98, 99], [100, 101]], [])
  {
    WrittenOfTwo(TWO_FRAMES);
    IntendedOfTwo(TWO_FRAMES);
  }

  const TWO_FRAMES: seq<byte> := [5, 0, 97, 98, 99, 4, 0, 100, 101]

  lemma WrittenOfTwo(s: seq<byte>)
    requires s == TWO_FRAMES
    ensures Written(s) == Call([[97, 98, 99]], [5, 0, 97, 98])
  {
    assert Payload(s, 0) == [97, 98, 99];
    assert Repeated(s, 9) == [Payload(s, 0)] + Repeated(s, 4);
    assert LeftOver(9, 5) == LeftOver(4, 5) == 4;
    assert s[..4] == [5, 0, 97, 98];
  }

  lemma IntendedOfTwo(s: seq<byte>)
    requires s == TWO_FRAMES
    ensures Intended(s) == Call([[97, 98, 99], [100, 101]], [])
  {
    assert Payload(s, 0) == [97, 98, 99] && Payload(s, 5) == [100, 101];
    assert FramesFrom(s, 0) == [Payload(s, 0)] + FramesFrom(s, 5);
    assert FramesFrom(s, 5) == [Payload(s, 5)] + FramesFrom(s, 9);
    assert TailFrom(s, 0) == TailFrom(s, 5) == TailFrom(s, 9) == 9;
  }

  /** The capacity after one doubling at most. */
  function NextCapacity(capacity: nat, needed: nat): nat {
    if needed > capacity then 2 * capacity else capacity
  }

  /** The first length field does not even count itself: the size of the payload is negative. */
  predicate BadField(s: seq<byte>) {
    |s| >= 2 && SizeAt(s, 0) < 2
  }

  /** A delivery writes past the end of the buffer: the chunk does not fit after one doubling, or the
      move as written, which reaches two bytes behind what is stored, does not. */
  predicate Overruns(s: seq<byte>, capacity: nat) {
    var room := NextCapacity(capacity, |s|);
    |s| > room || (Complete(s, 0) && SizeAt(s, 0) < |s| && |s| + 2 > room)
  }

  /** One delivery as written; no value stands for undefined behaviour. */
  function Performed(s: seq<byte>, capacity: nat): Option<Call> {
    if BadField(s) || Overruns(s, capacity) then None else Some(Written(s))
  }

  /** What a delivery must be for the code as written to do what is intended. */
  ghost predicate Harmless(s: seq<byte>, capacity: nat) {
    RepeatsFirstFrame(s) && !BadField(s) && !Overruns(s, capacity)
  }

  /** One delivery as written does what is intended if and only if the stored stream repeats its first
      frame, starts with a length field of at least two, and leaves the move two bytes of room. */
  lemma WrittenIff(s: seq<byte>, capacity: nat)
    ensures Performed(s, capacity) == Some(Intended(s)) <==> Harmless(s, capacity)
  {
    SameCallIff(s);
  }

  /** What every delivery should do. */
  function IntendedCalls(stored: seq<byte>, chunks: seq<seq<byte>>, i: nat): seq<Option<Call>>
    requires i <= |chunks|
    decreases |chunks| - i
  {
    if i == |chunks| then []
    else
      var c := Intended(stored + chunks[i]);
      [Some(c)] + IntendedCalls(c.rest, chunks, i + 1)
  }

  /** What every delivery does as written, up to the first one that is undefined. */
  function WrittenCalls(stored: seq<byte>, capacity: nat, chunks: seq<seq<byte>>, i: nat): seq<Option<Call>>
    requires i <= |chunks|
    decreases |chunks| - i
  {
    if i == |chunks| then []
    else
      var s := stored + chunks[i];
      match Performed(s, capacity)
      case None => [None]
      case Some(c) => [Some(c)] + WrittenCalls(c.rest, NextCapacity(capacity, |s|), chunks, i + 1)
  }

  ghost predicate EveryCallHarmless(stored: seq<byte>, capacity: nat, chunks: seq<seq<byte>>, i: nat)
    requires i <= |chunks|
    decreases |chunks| - i
  {
    i < |chunks| ==>
      var s := stored + chunks[i];
      Harmless(s, capacity) && EveryCallHarmless(Intended(s).rest, NextCapacity(capacity, |s|), chunks, i + 1)
  }

  /** Over a whole connection: the code as written does at every delivery what is intended if and
      only if every delivery is harmless. */
  lemma {:induction false} WrittenRunIff(stored: seq<byte>, capacity: nat, chunks: seq<seq<byte>>, i: nat)
    requires i <= |chunks|
    ensures WrittenCalls(stored, capacity, chunks, i) == IntendedCalls(stored, chunks, i)
      <==> EveryCallHarmless(stored, capacity, chunks, i)
    decreases |chunks| - i
  {
    if i < |chunks| {
      var s := stored + chunks[i];
      var c, room := Intended(s), NextCapacity(capacity, |s|);
      WrittenIff(s, capacity);
      if Performed(s, capacity) == None {
        assert WrittenCalls(stored, capacity, chunks, i)[0] != IntendedCalls(stored, chunks, i)[0];
      } else {
        ConsIff(Some(Written(s)), WrittenCalls(Written(s).rest, room, chunks, i + 1),
                Some(c), IntendedCalls(c.rest, chunks, i + 1));
        if Written(s) == c { WrittenRunIff(c.rest, room, chunks, i + 1); }
      }
    }
  }

  /** A frame of 5000 bytes and the start of the same frame again, up to a total of 8192. */
  function LongStream(n: nat): seq<byte> {
    seq(n, i => if i == 0 || i == 5000 then 136 else if i == 1 || i == 5001 then 19 else 0)
  }

  /** The stream repeats its first frame and arrives in two chunks of 4096 bytes: the first buffer holds it,
      but the move ends two bytes behind it. */
  lemma OverrunExample()
    ensures LongStream(8192) == LongStream(8192)[..4096] + LongStream(8192)[4096..]
    ensures RepeatsFirstFrame(LongStream(8192)) && Written(LongStream(8192)) == Intended(LongStream(8192))
    ensures WrittenCalls([], 8192, [LongStream(8192)[..4096], LongStream(8192)[4096..]], 0)
      == [Some(Call([], LongStream(8192)[..4096])), None]
  {
    var s := LongStream(8192);
    var c, d := s[..4096], s[4096..];
    LongFrame(s);
    LongFrame(c);
    assert [] + c == c && c + d == s;
    assert Performed(c, 8192) == Some(Call([], c));
    assert Overruns(s, 8192);
    assert WrittenCalls(c, 8192, [c, d], 1) == [None];
    forall k: nat | k + 5000 < |s| ensures s[k] == s[k + 5000] {}
    SameCallIff(s);
  }

  lemma LongFrame(s: seq<byte>)
    requires |s| >= 2 && s[0] == 136 && s[1] == 19
    ensures SizeAt(s, 0) == 5000
  {
    Times256Value(s[1]);
  }

  /** A delivery that ends with the frame it completes, or completes none, is handled as intended. */
  lemma ExactDeliveryAgrees(s: seq<byte>)
    requires Complete(s, 0) ==> |s| == SizeAt(s, 0)
    ensures Written(s) == Intended(s)
  {
    SameCallIff(s);
  }

  /** It also never moves anything, so only a bad field or a chunk that does not fit can go wrong. */
  lemma ExactDeliveryIsPerformed(s: seq<byte>, capacity: nat)
    requires Complete(s, 0) ==> |s| == SizeAt(s, 0)
    ensures Performed(s, capacity) == Some(Intended(s)) <==> !BadField(s) && |s| <= NextCapacity(capacity, |s|)
  {
    ExactDeliveryAgrees(s);
  }

  // ---------------------------------------------------------------------------------------------
  // The connection
  // ---------------------------------------------------------------------------------------------

  class TCPConnection {
    var isOpen: bool
    var receiveBuffer: array<byte>
    var position: nat

    /** What is stored between calls is an incomplete tail. */
    ghost predicate Valid()
      reads this, receiveBuffer
    {
      && IsCapacity(receiveBuffer.Length)
      && position <= POSITION_LIMIT && position <= receiveBuffer.Length
      && !Complete(Stored(), 0) && WellFormed(Stored())
    }

    ghost function Stored(): seq<byte>
      requires position <= receiveBuffer.Length
      reads this, receiveBuffer
    {
      receiveBuffer[..position]
    }

    /** OnConnect. */
    constructor ()
      ensures Valid() && isOpen && Stored() == [] && receiveBuffer.Length == FIRST_CAPACITY
      ensures fresh(receiveBuffer)
    {
      isOpen := true;
      receiveBuffer := new byte[FIRST_CAPACITY];
      position := 0;
    }

    /** The buffer is doubled once if the bytes do not fit. */
    method MakeRoom(count: nat)
      requires position <= receiveBuffer.Length
      modifies this`receiveBuffer
      ensures receiveBuffer == old(receiveBuffer) || fresh(receiveBuffer)
      ensures receiveBuffer.Length == NextCapacity(old(receiveBuffer.Length), position + count)
      ensures Stored() == old(Stored())
    {
      if position + count > receiveBuffer.Length {
        var larger := new byte[receiveBuffer.Length * 2];
        forall k | 0 <= k < receiveBuffer.Length {
          larger[k] := receiveBuffer[k];
        }
        receiveBuffer := larger;
      }
    }

    /** Stores a chunk behind what is kept; one doubling always makes enough room. */
    method Append(chunk: seq<byte>)
      requires Valid() && |chunk| <= CHUNK_LIMIT
      modifies this, receiveBuffer
      ensures receiveBuffer == old(receiveBuffer) || fresh(receiveBuffer)
      ensures IsCapacity(receiveBuffer.Length)
      ensures receiveBuffer.Length == NextCapacity(old(receiveBuffer.Length), |old(Stored()) + chunk|)
      ensures isOpen == old(isOpen) && position == |old(Stored()) + chunk| <= receiveBuffer.Length
      ensures Stored() == old(Stored()) + chunk
    {
      ghost var kept := Stored();
      MakeRoom(|chunk|);
      forall k | 0 <= k < |chunk| {
        receiveBuffer[position + k] := chunk[k];
      }
      position := position + |chunk|;
      assert Stored() == kept + chunk;
    }

    /** memmove inside the receive buffer. */
    method Move(to: nat, from: nat, count: nat)
      requires to + count <= receiveBuffer.Length && from + count <= receiveBuffer.Length
      modifies receiveBuffer
      ensures Window(receiveBuffer[..], to, count) == old(Window(receiveBuffer[..], from, count))
      ensures forall k | 0 <= k < receiveBuffer.Length && !(to <= k < to + count) ::
        receiveBuffer[k] == old(receiveBuffer[k])
    {
      forall k | 0 <= k < count {
        receiveBuffer[to + k] := receiveBuffer[from + k];
      }
    }

    /** The data of the packet built from the frame at the start of the buffer. */
    method MakePacket(size: nat) returns (data: seq<byte>)
      requires 2 <= size <= receiveBuffer.Length && size < 0x1_0000
      ensures data == Delivered(Window(receiveBuffer[..], 2, size - 2))
    {
      var p := new Packet();
      p.SetPosition(0);
      p.WriteBytes(Window(receiveBuffer[..], 2, size - 2));
      data := p.data;
    }

    method LengthField() returns (size: nat)
      requires 2 <= position <= receiveBuffer.Length
      ensures size == SizeAt(Stored(), 0) == SizeAt(receiveBuffer[..], 0) < 0x1_0000
    {
      size := receiveBuffer[0] as nat + 256 * receiveBuffer[1] as nat;
      Times256Value(receiveBuffer[1]);
    }

    /** Takes the first frame off the stored bytes, moving the bytes behind it to the start. */
    method DropFrame(size: nat)
      requires 0 < size <= position <= receiveBuffer.Length
      modifies this`position, receiveBuffer
      ensures position == old(position) - size && Stored() == old(Stored()[size..])
    {
      ghost var kept := Stored()[size..];
      var delta := position - size;
      if delta > 0 {
        Move(0, size, delta);
        position := delta;
        forall k | 0 <= k < delta ensures Stored()[k] == kept[k] {
          assert Window(receiveBuffer[..], 0, delta)[k] == receiveBuffer[k];
        }
      } else {
        position := 0;
      }
    }

    /** The receive loop with the compaction its comment describes. No value: a length field below 2. */
    method DrainIntended() returns (delivered: Option<seq<seq<byte>>>)
      requires position <= receiveBuffer.Length
      modifies this`position, receiveBuffer
      ensures position <= receiveBuffer.Length
      ensures delivered.Some? <==> WellFormed(old(Stored()))
      ensures delivered.Some? ==>
        delivered.value == DeliveredAll(Intended(old(Stored())).frames) && Stored() == Intended(old(Stored())).rest
    {
      var packets := [];
      ghost var s, done := Stored(), [];
      while true
        invariant position <= receiveBuffer.Length
        invariant WellFormed(s) <==> WellFormed(Stored())
        invariant packets == DeliveredAll(done)
        invariant Intended(s) == Call(done + Intended(Stored()).frames, Intended(Stored()).rest)
        decreases position
      {
        if position < 2 { break; }
        var size := LengthField();
        if size < 2 { return None; }
        if position < size { break; }
        ghost var t := Stored();
        var data := MakePacket(size);
        assert Window(receiveBuffer[..], 2, size - 2) == Payload(t, 0);
        IntendedStep(t, done);
        DeliveredAllAppends(done, Payload(t, 0));
        packets, done := packets + [data], done + [Payload(t, 0)];
        DropFrame(size);
      }
      NothingComplete(Stored());
      return Some(packets);
    }

    /** OnBytesReceived with that loop. */
    method ReceiveIntended(chunk: seq<byte>) returns (delivered: Option<seq<seq<byte>>>)
      requires Valid() && |chunk| <= CHUNK_LIMIT
      modifies this, receiveBuffer
      ensures (receiveBuffer == old(receiveBuffer) || fresh(receiveBuffer)) && isOpen == old(isOpen)
      ensures delivered.Some? <==> !isOpen || WellFormed(old(Stored()) + chunk)
      ensures delivered.Some? ==> Valid()
      ensures isOpen && delivered.Some? ==>
        var c := Intended(old(Stored()) + chunk);
        delivered.value == DeliveredAll(c.frames) && Stored() == c.rest
      ensures !isOpen ==> delivered == Some([]) && Stored() == old(Stored())
    {
      if !isOpen { return Some([]); }
      Append(chunk);
      ghost var s := Stored();
      delivered := DrainIntended();
      if delivered.Some? { KeptTail(s); }
    }

    /** The step as written: the start of the buffer stays as it is. */
    method DropAsWritten(size: nat)
      requires 0 < size <= position <= receiveBuffer.Length
      requires size < position ==> position + 2 <= receiveBuffer.Length
      modifies this`position, receiveBuffer
      ensures position == old(position) - size
      ensures forall k :: 0 <= k < size ==> receiveBuffer[k] == old(receiveBuffer[k])
    {
      var delta := position - size;
      if delta > 0 {
        Move(size + 2, 0, delta);
        position := delta;
      } else {
        position := 0;
      }
    }

    /** One turn of the loop as written: the packet made, and whether the move stays inside the buffer. */
    method TakeAsWritten(size: nat) returns (data: seq<byte>, fits: bool)
      requires 2 <= size <= position <= receiveBuffer.Length && size < 0x1_0000
      modifies this`position, receiveBuffer
      ensures data == Delivered(Window(old(receiveBuffer[..]), 2, size - 2))
      ensures fits <==> size == old(position) || old(position) + 2 <= receiveBuffer.Length
      ensures position == if fits then old(position) - size else old(position)
      ensures fits ==>
        forall k :: 0 <= k < size ==> receiveBuffer[k] == old(receiveBuffer[k])
    {
      data := MakePacket(size);
      fits := size == position || position + 2 <= receiveBuffer.Length;
      if fits { DropAsWritten(size); }
    }

    /** The receive loop as written: source and destination of the move are exchanged. No value: a length
        field below 2, or a move past the end of the buffer. */
    method DrainAsWritten() returns (delivered: Option<seq<seq<byte>>>)
      requires position <= receiveBuffer.Length
      modifies this`position, receiveBuffer
      ensures position <= receiveBuffer.Length
      ensures delivered.None? <==>
        var s := old(Stored());
        BadField(s) || (Complete(s, 0) && SizeAt(s, 0) < |s| && |s| + 2 > receiveBuffer.Length)
      ensures delivered.Some? ==>
        delivered.value == DeliveredAll(Written(old(Stored())).frames) && Stored() == Written(old(Stored())).rest
    {
      var packets := [];
      ghost var s, done := Stored(), [];
      ghost var first := if Complete(s, 0) then SizeAt(s, 0) else |s|;
      while true
        invariant first <= |s| <= receiveBuffer.Length && AtTurn(s, position, done)
        invariant position == |s| || (Complete(s, 0) && (first < |s| ==> |s| + 2 <= receiveBuffer.Length))
        invariant SameStart(receiveBuffer[..], s, first)
        invariant packets == DeliveredAll(done)
        decreases position
      {
        if position < 2 { break; }
        var size := LengthField();
        SameField(receiveBuffer[..], s, first);
        if size < 2 { return None; }
        if position < size { break; }
        FirstPayload(receiveBuffer[..], s, first);
        NextTurn(s, position, done);
        DeliveredAllAppends(done, Payload(s, 0));
        ghost var left := position;
        var data, fits := TakeAsWritten(size);
        if !fits {
          assert left == |s| && size < |s| && |s| + 2 > receiveBuffer.Length;
          return None;
        }
        packets, done := packets + [data], done + [Payload(s, 0)];
      }
      LastTurn(s, position, done, receiveBuffer[..], first);
      return Some(packets);
    }

    /** OnBytesReceived as written. */
    method ReceiveAsWritten(chunk: seq<byte>) returns (delivered: Option<seq<seq<byte>>>)
      requires Valid() && |chunk| <= CHUNK_LIMIT
      modifies this, receiveBuffer
      ensures (receiveBuffer == old(receiveBuffer) || fresh(receiveBuffer)) && isOpen == old(isOpen)
      ensures isOpen ==>
        match Performed(old(Stored()) + chunk, old(receiveBuffer.Length)) {
          case None => delivered == None
          case Some(c) =>
            && Valid() && delivered == Some(DeliveredAll(c.frames)) && Stored() == c.rest
            && receiveBuffer.Length == NextCapacity(old(receiveBuffer.Length), |old(Stored()) + chunk|)
        }
      ensures !isOpen ==> Valid() && delivered == Some([]) && Stored() == old(Stored())
    {
      if !isOpen { return Some([]); }
      Append(chunk);
      ghost var s := Stored();
      delivered := DrainAsWritten();
      if delivered.Some? { KeptStart(s); }
    }
  }

  /** The loop as written, with `position` bytes left and the payloads `done` handed on. */
  ghost predicate AtTurn(s: seq<byte>, position: nat, done: seq<seq<byte>>) {
    position <= |s| &&
    if Complete(s, 0) then
      && done + Repeated(s, position) == Repeated(s, |s|)
      && LeftOver(position, SizeAt(s, 0)) == LeftOver(|s|, SizeAt(s, 0))
    else done == [] && position == |s|
  }

  /** The first `count` bytes are the same. */
  ghost predicate SameStart(b: seq<byte>, s: seq<byte>, count: nat) {
    count <= |b| && count <= |s| && forall k :: 0 <= k < count ==> b[k] == s[k]
  }

  lemma SameField(b: seq<byte>, s: seq<byte>, count: nat)
    requires SameStart(b, s, count) && count >= 2
    ensures SizeAt(b, 0) == SizeAt(s, 0)
  {
  }

  lemma FirstPayload(b: seq<byte>, s: seq<byte>, n: nat)
    requires Complete(s, 0) && n == SizeAt(s, 0) && SameStart(b, s, n)
    ensures Window(b, 2, n - 2) == Payload(s, 0)
  {
  }

  lemma NextTurn(s: seq<byte>, position: nat, done: seq<seq<byte>>)
    requires AtTurn(s, position, done) && Complete(s, 0) && SizeAt(s, 0) <= position
    ensures AtTurn(s, position - SizeAt(s, 0), done + [Payload(s, 0)])
  {
    RepeatedUnfold(s, position);
    Regroup(done, [Payload(s, 0)], Repeated(s, position - SizeAt(s, 0)));
  }

  lemma LastTurn(s: seq<byte>, position: nat, done: seq<seq<byte>>, b: seq<byte>, count: nat)
    requires AtTurn(s, position, done) && (Complete(s, 0) ==> position < SizeAt(s, 0))
    requires position <= count && SameStart(b, s, count)
    ensures Written(s) == Call(done, b[..position])
  {
    assert b[..position] == s[..position];
    if Complete(s, 0) {
      assert Repeated(s, position) == [] && done + [] == done;
    } else {
      assert s[..|s|] == s;
    }
  }

  /** Taking one frame off leaves the rest of the work. */
  lemma IntendedStep(t: seq<byte>, done: seq<seq<byte>>)
    requires Complete(t, 0)
    ensures var u := t[SizeAt(t, 0)..];
      && (WellFormed(t) <==> WellFormed(u))
      && Intended(t).rest == Intended(u).rest
      && done + Intended(t).frames == (done + [Payload(t, 0)]) + Intended(u).frames
  {
    var n := SizeAt(t, 0);
    var u := t[n..];
    RestShift(t, u, n);
    assert Intended(t).frames == [Payload(t, 0)] + Intended(u).frames;
    assert TailFrom(u, 0) + n == TailFrom(t, 0) by {
      CarriedFrames(t, n, u);
      TailShift(t, u, n, 0, n);
    }
  }

  lemma NothingComplete(t: seq<byte>)
    requires !Complete(t, 0)
    ensures Intended(t) == Call([], t)
  {
    assert t[0..] == t;
  }

  lemma DeliveredAllAppends(done: seq<seq<byte>>, payload: seq<byte>)
    ensures DeliveredAll(done + [payload]) == DeliveredAll(done) + [Delivered(payload)]
  {
  }

  /** What is kept is short, and its length field is a good one. */
  lemma KeptTail(s: seq<byte>)
    requires WellFormed(s)
    ensures var rest := Intended(s).rest;
      !Complete(rest, 0) && WellFormed(rest) && |rest| <= POSITION_LIMIT
  {
    var rest := Intended(s).rest;
    RestIncomplete(s);
    if |rest| >= 2 {
      Times256Value(rest[1]);
    }
  }

  lemma KeptStart(s: seq<byte>)
    requires !BadField(s)
    ensures var rest := Written(s).rest;
      !Complete(rest, 0) && WellFormed(rest) && |rest| <= POSITION_LIMIT
  {
    var rest := Written(s).rest;
    if |rest| >= 2 {
      assert SizeAt(rest, 0) == SizeAt(s, 0);
      Times256Value(rest[1]);
    }
  }
}
