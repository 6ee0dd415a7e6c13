// The reassembly of frames from read chunks in readLoop of pkg/qmi/client.go.

module StreamReassembly {
  import opened Bytes
  import opened QmiFrame
  import opened Wrappers

  predicate IsMarker(b: Byte) {
    b == QMUX_MARKER || b == QRTR_MARKER
  }

  // The number of leading octets that are not a marker.
  function JunkLength(p: seq<Byte>): (n: nat)
    ensures n <= |p|
    ensures forall i | 0 <= i < n :: !IsMarker(p[i])
    ensures n < |p| ==> IsMarker(p[n])
  {
    if p == [] || IsMarker(p[0]) then 0 else 1 + JunkLength(p[1..])
  }

  function SkipJunk(p: seq<Byte>): seq<Byte> {
    var n := JunkLength(p);
    if n == 0 then p else p[n..]
  }

  function FrameLength(p: seq<Byte>): nat
    requires |p| >= 3
  {
    1 + GetU16(p[1], p[2])
  }

  // What the inner loop does next: wait for more octets, drop n octets, or cut off a frame of n.
  datatype Next = Stop(leftover: seq<Byte>) | Skip(n: nat) | Frame(n: nat)

  function NextStep(p: seq<Byte>): (next: Next)
    ensures next.Stop? ==> next.leftover == p || (next.leftover == [] && IsJunk(p))
    ensures next.Skip? ==> 0 < next.n <= |p|
    ensures next.Frame? ==> QMUX_HEADER_SIZE <= next.n <= |p|
  {
    if |p| < 3 then Stop(p)
    else if !IsMarker(p[0]) then
      if JunkLength(p) == |p| then Stop([]) else Skip(JunkLength(p))
    else if |p| < QMUX_HEADER_SIZE then Stop(p)
    else if FrameLength(p) < QMUX_HEADER_SIZE then Skip(1)
    else if |p| < FrameLength(p) then Stop(p)
    else Frame(FrameLength(p))
  }

  predicate IsJunk(p: seq<Byte>) {
    forall i | 0 <= i < |p| :: !IsMarker(p[i])
  }

  datatype Drained = Drained(frames: seq<seq<Byte>>, leftover: seq<Byte>)

  // The inner loop: cut all complete frames off the pending octets.
  function Drain(p: seq<Byte>): Drained
    decreases |p|
  {
    match NextStep(p)
    case Stop(leftover) => Drained([], leftover)
    case Skip(n) => Drain(p[n..])
    case Frame(n) =>
      var rest := Drain(p[n..]);
      Drained([p[..n]] + rest.frames, rest.leftover)
  }

  // Feeding one chunk after another.
  function FeedAll(pending: seq<Byte>, chunks: seq<seq<Byte>>): Drained
    decreases |chunks|
  {
    if chunks == [] then Drained([], pending)
    else
      var first := Drain(pending + chunks[0]);
      var rest := FeedAll(first.leftover, chunks[1..]);
      Drained(first.frames + rest.frames, rest.leftover)
  }

  lemma FeedAllStep(frames: seq<seq<Byte>>, pending: seq<Byte>, chunks: seq<seq<Byte>>)
    requires chunks != []
    ensures var first := Drain(pending + chunks[0]);
            frames + FeedAll(pending, chunks).frames ==
            frames + first.frames + FeedAll(first.leftover, chunks[1..]).frames
  {
    hide Drain;
  }

  lemma FeedAllEnd(pending: seq<Byte>)
    ensures FeedAll(pending, []) == Drained([], pending)
  {
  }

  function Concat(chunks: seq<seq<Byte>>): seq<Byte> {
    if chunks == [] then [] else chunks[0] + Concat(chunks[1..])
  }

  method FindMarker(p: seq<Byte>) returns (i: nat)
    ensures i == JunkLength(p)
  {
    i := 0;
    while i < |p| && !IsMarker(p[i])
      invariant i <= |p|
      invariant JunkLength(p) == i + JunkLength(p[i..])
    {
      i := i + 1;
    }
  }

  // The state of readLoop; `frames` lists what was handed to UnmarshalPacket.
  class Reader {
    var pending: seq<Byte>
    var frames: seq<seq<Byte>>

    constructor ()
      ensures pending == [] && frames == []
    {
      pending, frames := [], [];
    }

    method Feed(chunk: seq<Byte>)
      modifies this
      ensures frames == old(frames) + Drain(old(pending) + chunk).frames
      ensures pending == Drain(old(pending) + chunk).leftover
    {
      hide Drain, JunkLength;
      pending := pending + chunk;
      ghost var all := Drain(pending);
      while |pending| >= 3
        invariant frames + Drain(pending).frames == old(frames) + all.frames
        invariant Drain(pending).leftover == all.leftover
        decreases |pending|
      {
        DrainByStep(pending);
        if !IsMarker(pending[0]) {
          var i := FindMarker(pending);
          if i == |pending| {
            pending := [];
            break;
          }
          pending := pending[i..];
          continue;
        }
        if |pending| < QMUX_HEADER_SIZE {
          break;
        }
        var frameLen := 1 + GetU16(pending[1], pending[2]);
        if frameLen < QMUX_HEADER_SIZE {
          pending := pending[1..];
          continue;
        }
        if |pending| < frameLen {
          break;
        }
        frames := frames + [pending[..frameLen]];
        pending := pending[frameLen..];
      }
      DrainByStep(pending);
    }
  }

  // The outer loop, over the chunks that successive reads return.
  method ReadLoop(chunks: seq<seq<Byte>>) returns (frames: seq<seq<Byte>>)
    ensures frames == FeedAll([], chunks).frames
  {
    hide FeedAll, Drain;
    var reader := new Reader();
    var rest := chunks;
    while rest != []
      invariant reader.frames + FeedAll(reader.pending, rest).frames == FeedAll([], chunks).frames
      decreases |rest|
    {
      FeedAllStep(reader.frames, reader.pending, rest);
      reader.Feed(rest[0]);
      rest := rest[1..];
    }
    FeedAllEnd(reader.pending);
    frames := reader.frames;
  }

  // ------------------------------------------------------------------ chunk independence

  lemma {:induction false} SkipJunkAppend(p: seq<Byte>, q: seq<Byte>)
    ensures SkipJunk(p + q) == if SkipJunk(p) == [] then SkipJunk(q) else SkipJunk(p) + q
  {
    if p == [] {
      assert p + q == q;
    } else if !IsMarker(p[0]) {
      assert (p + q)[1..] == p[1..] + q;
      SkipJunkAppend(p[1..], q);
      assert SkipJunk(p) == SkipJunk(p[1..]);
      assert SkipJunk(p + q) == SkipJunk(p[1..] + q);
    }
  }

  lemma {:induction false} JunkIsSkipped(p: seq<Byte>)
    requires IsJunk(p)
    ensures SkipJunk(p) == SkipJunk([]) == []
  {
  }

  lemma {:induction false} SkipJunkTwice(p: seq<Byte>)
    ensures SkipJunk(SkipJunk(p)) == SkipJunk(p)
  {
  }

  // Leading junk does not change the frames, and changes the leftover by junk only.
  lemma {:induction false} DrainIgnoresJunk(p: seq<Byte>)
    ensures Drain(p).frames == Drain(SkipJunk(p)).frames
    ensures SkipJunk(Drain(p).leftover) == SkipJunk(Drain(SkipJunk(p)).leftover)
  {
    hide Drain, JunkLength;
    if JunkLength(p) == 0 {
    } else if |p| < 3 {
      DrainByStep(p);
      DrainByStep(SkipJunk(p));
      SkipJunkTwice(p);
    } else {
      DrainByStep(p);
      if JunkLength(p) == |p| {
        assert SkipJunk(p) == [];
        DrainByStep([]);
      }
    }
  }

  // One unfolding of Drain.
  lemma {:induction false} DrainByStep(p: seq<Byte>)
    ensures NextStep(p).Stop? ==> Drain(p) == Drained([], NextStep(p).leftover)
    ensures NextStep(p).Skip? ==> Drain(p) == Drain(p[NextStep(p).n..])
    ensures NextStep(p).Frame? ==>
              && Drain(p).frames == [p[..NextStep(p).n]] + Drain(p[NextStep(p).n..]).frames
              && Drain(p).leftover == Drain(p[NextStep(p).n..]).leftover
  {
    hide NextStep;
  }

  // Two pending buffers that differ by leading junk behave alike, whatever arrives next.
  lemma {:induction false} DrainUpToJunk(p: seq<Byte>, q: seq<Byte>, more: seq<Byte>)
    requires SkipJunk(p) == SkipJunk(q)
    ensures Drain(p + more).frames == Drain(q + more).frames
    ensures SkipJunk(Drain(p + more).leftover) == SkipJunk(Drain(q + more).leftover)
  {
    SkipJunkAppend(p, more);
    SkipJunkAppend(q, more);
    DrainIgnoresJunk(p + more);
    DrainIgnoresJunk(q + more);
  }

  // A step that does not wait is not influenced by octets that arrive later.
  lemma {:induction false} NextStepIsStable(p: seq<Byte>, more: seq<Byte>)
    requires !NextStep(p).Stop?
    ensures NextStep(p + more) == NextStep(p)
  {
    hide JunkLength;
    if JunkLength(p) < |p| {
      FirstMarkerIsStable(p, more);
    }
  }

  lemma {:induction false} FirstMarkerIsStable(p: seq<Byte>, more: seq<Byte>)
    requires JunkLength(p) < |p|
    ensures JunkLength(p + more) == JunkLength(p)
  {
    hide JunkLength;
    assert (p + more)[JunkLength(p)] == p[JunkLength(p)];
  }

  // Draining early loses nothing: drain p, then the leftover together with what arrives later.
  lemma {:induction false} DrainAppend(p: seq<Byte>, more: seq<Byte>)
    ensures var first := Drain(p);
            var second := Drain(first.leftover + more);
            && Drain(p + more).frames == first.frames + second.frames
            && SkipJunk(Drain(p + more).leftover) == SkipJunk(second.leftover)
    decreases |p|
  {
    hide Drain, NextStep, SkipJunk, IsJunk;
    DrainByStep(p);
    DrainByStep(p + more);
    match NextStep(p)
    case Stop(leftover) =>
      if leftover != p {
        JunkIsSkipped(p);
        DrainUpToJunk(p, [], more);
      }
    case Skip(n) =>
      NextStepIsStable(p, more);
      DrainAppend(p[n..], more);
      assert (p + more)[n..] == p[n..] + more;
    case Frame(n) =>
      NextStepIsStable(p, more);
      DrainAppend(p[n..], more);
      assert (p + more)[n..] == p[n..] + more && (p + more)[..n] == p[..n];
  }

  // The frames depend only on the octets received, not on how reads split them; the octets left
  // pending depend on the split by leading junk at most.
  lemma {:induction false} ChunkIndependence(pending: seq<Byte>, chunks: seq<seq<Byte>>)
    ensures FeedAll(Drain(pending).leftover, chunks).frames
         == Drain(Drain(pending).leftover + Concat(chunks)).frames
    ensures Drain(pending).frames + FeedAll(Drain(pending).leftover, chunks).frames
         == Drain(pending + Concat(chunks)).frames
    ensures SkipJunk(FeedAll(Drain(pending).leftover, chunks).leftover)
         == SkipJunk(Drain(pending + Concat(chunks)).leftover)
    decreases |chunks|
  {
    hide Drain, SkipJunk;
    var left := Drain(pending).leftover;
    DrainAppend(pending, Concat(chunks));
    if chunks == [] {
      assert pending + [] == pending && left + [] == left;
    } else {
      var next := left + chunks[0];
      ChunkIndependence(next, chunks[1..]);
      assert next + Concat(chunks[1..]) == left + Concat(chunks);
    }
  }

  // Starting from an empty buffer: any two ways to cut the same octets yield the same frames.
  lemma {:induction false} SameOctetsSameFrames(xs: seq<seq<Byte>>, ys: seq<seq<Byte>>)
    requires Concat(xs) == Concat(ys)
    ensures FeedAll([], xs).frames == FeedAll([], ys).frames == Drain(Concat(xs)).frames
    ensures SkipJunk(FeedAll([], xs).leftover) == SkipJunk(FeedAll([], ys).leftover)
  {
    ChunkIndependence([], xs);
    ChunkIndependence([], ys);
    assert [] + Concat(xs) == Concat(xs) && [] + Concat(ys) == Concat(ys);
  }

  // ------------------------------------------------------------------ stream recovery

  // A marshalled packet that fits is a frame for the reader.
  lemma {:induction false} MarshalIsAFrame(p: Packet)
    requires Fits(p)
    ensures var m := Marshal(p);
            |m| >= QMUX_HEADER_SIZE && IsMarker(m[0]) && FrameLength(m) == |m|
  {
    var m, body := Marshal(p), MarshalBody(p);
    hide MarshalBody;
    assert m[1] == PutU16(|body| + 5)[0] && m[2] == PutU16(|body| + 5)[1];
  }

  lemma {:induction false} MarshalledPacketIsCut(p: Packet, rest: seq<Byte>)
    requires Fits(p)
    ensures Drain(Marshal(p) + rest) == Drained([Marshal(p)] + Drain(rest).frames, Drain(rest).leftover)
  {
    hide Marshal, Drain, JunkLength;
    var m := Marshal(p);
    MarshalIsAFrame(p);
    assert (m + rest)[..|m|] == m && (m + rest)[|m|..] == rest;
    DrainByStep(m + rest);
  }

  // Packets with junk after each of them.
  function Stream(packets: seq<Packet>, junks: seq<seq<Byte>>): seq<Byte>
    requires |junks| == |packets|
  {
    if packets == [] then [] else Marshal(packets[0]) + (junks[0] + Stream(packets[1..], junks[1..]))
  }

  function DecodeAll(frames: seq<seq<Byte>>): seq<Result<Packet>> {
    if frames == [] then [] else [Unmarshal(frames[0])] + DecodeAll(frames[1..])
  }

  function Expected(packets: seq<Packet>): seq<Result<Packet>> {
    if packets == [] then [] else [Ok(OnTheWire(packets[0]))] + Expected(packets[1..])
  }

  lemma {:induction false} StreamDrains(packets: seq<Packet>, junks: seq<seq<Byte>>)
    requires |junks| == |packets|
    requires forall i | 0 <= i < |packets| :: Fits(packets[i]) && IsJunk(junks[i])
    ensures DecodeAll(Drain(Stream(packets, junks)).frames) == Expected(packets)
    ensures SkipJunk(Drain(Stream(packets, junks)).leftover) == []
    decreases |packets|
  {
    hide Marshal, Unmarshal, Drain, SkipJunk, IsJunk, Fits;
    DrainByStep([]);
    JunkIsSkipped([]);
    if packets != [] {
      var tail := Stream(packets[1..], junks[1..]);
      StreamDrains(packets[1..], junks[1..]);
      MarshalledPacketIsCut(packets[0], junks[0] + tail);
      JunkIsSkipped(junks[0]);
      DrainUpToJunk(junks[0], [], tail);
      assert [] + tail == tail;
      RoundTripIffFits(packets[0]);
      assert Drain(Stream(packets, junks)).frames[1..] == Drain(junks[0] + tail).frames;
    }
  }

  // However the reads cut it, a stream of packets that fit, with junk before, between and after
  // them, decodes to exactly those packets.
  lemma {:induction false} StreamRecovery(lead: seq<Byte>, packets: seq<Packet>, junks: seq<seq<Byte>>,
      chunks: seq<seq<Byte>>)
    requires |junks| == |packets| && IsJunk(lead)
    requires forall i | 0 <= i < |packets| :: Fits(packets[i]) && IsJunk(junks[i])
    requires Concat(chunks) == lead + Stream(packets, junks)
    ensures DecodeAll(FeedAll([], chunks).frames) == Expected(packets)
    ensures SkipJunk(FeedAll([], chunks).leftover) == []
  {
    SameOctetsSameFrames(chunks, chunks);
    ChunkIndependence([], chunks);
    assert [] + Concat(chunks) == Concat(chunks);
    StreamDrains(packets, junks);
    SkipJunkAppend(lead, Stream(packets, junks));
    JunkIsSkipped(lead);
    DrainUpToJunk(lead, [], Stream(packets, junks));
    assert [] + Stream(packets, junks) == Stream(packets, junks);
  }
}
