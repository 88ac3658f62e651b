/**
 The playback queue of a call (PlaybackBuffer in voicebot/calls.py): segments of
 audio go in, fixed-size packets come out, and an interrupt drops what is left.
 */
module Playback {
  import opened Common
  import opened Strings

  type Sample = real

  /** What a segment answers; an empty dictionary is Meta(None, None). */
  datatype Meta = Meta(responseTo: Option<int>, kind: Option<string>)

  const NO_META := Meta(None, None)

  datatype Segment = Segment(samples: seq<Sample>, data: Meta)

  /** Audio still to be sent; `unstarted` until its first packet. */
  datatype Piece = Piece(samples: seq<Sample>, unstarted: bool, data: Meta)

  /** A packet before padding, with the flags and metadata it is sent with. */
  datatype Packet = Packet(payload: seq<Sample>, started: bool, finished: bool, data: Meta)

  function Zeros(n: nat): seq<Sample> {
    seq(n, _ => 0.0)
  }

  function Padded(samples: seq<Sample>, n: nat): seq<Sample>
    requires |samples| <= n
  {
    samples + Zeros(n - |samples|)
  }

  function Whole(s: Segment): Piece {
    Piece(s.samples, true, s.data)
  }

  function Wholes(segments: seq<Segment>): seq<Piece> {
    seq(|segments|, i requires 0 <= i < |segments| => Whole(segments[i]))
  }

  function Head(p: Piece, n: nat): Packet
    requires 1 <= n
  {
    Packet(p.samples[..Min(n, |p.samples|)], p.unstarted, |p.samples| <= n, p.data)
  }

  function Tail(p: Piece, n: nat): seq<Piece>
    requires 1 <= n
  {
    if |p.samples| <= n then [] else [Piece(p.samples[n..], false, p.data)]
  }

  function Flat(pieces: seq<Piece>): seq<Sample> {
    if pieces == [] then [] else pieces[0].samples + Flat(pieces[1..])
  }

  lemma {:induction false} FlatConcat(a: seq<Piece>, b: seq<Piece>)
    ensures Flat(a + b) == Flat(a) + Flat(b)
  {
    if a == [] {
      assert a + b == b;
    } else {
      assert (a + b)[1..] == a[1..] + b;
      FlatConcat(a[1..], b);
    }
  }

  lemma FlatHead(pieces: seq<Piece>, n: nat)
    requires 1 <= n && pieces != []
    ensures Flat(pieces) == Head(pieces[0], n).payload + Flat(Tail(pieces[0], n) + pieces[1..])
  {
    var p, rest := pieces[0], pieces[1..];
    var tail := if |p.samples| <= n then [] else p.samples[n..];
    assert Flat(Tail(p, n)) == tail by {
      if |p.samples| > n { FlatOne(Piece(p.samples[n..], false, p.data)); }
    }
    FlatConcat(Tail(p, n), rest);
    SplitBefore(p.samples, n, Flat(rest));
  }

  lemma SplitBefore(s: seq<Sample>, n: nat, rest: seq<Sample>)
    ensures s + rest == s[..Min(n, |s|)] + ((if |s| <= n then [] else s[n..]) + rest)
  {
  }

  lemma FlatOne(p: Piece)
    ensures Flat([p]) == p.samples
  {
    assert [p][1..] == [];
  }

  predicate IsPersistentKind(kind: string) {
    kind == "call_control_ack" || kind == "colleague_result"
  }

  /** The stripped kind under which a piece counts as active, if it has one. */
  function ActiveKind(m: Meta): string {
    if m.kind.Some? then Strip(m.kind.value) else ""
  }

  /** The kinds other than the empty one under which the pieces count as active. */
  function Kinds(pieces: seq<Piece>): set<string> {
    set p | p in pieces && ActiveKind(p.data) != "" :: ActiveKind(p.data)
  }

  lemma OneMoreKind(started: seq<Piece>, queue: seq<Segment>, i: nat)
    requires i < |queue|
    ensures Kinds(started + Wholes(queue[..i + 1])) ==
            var kind := ActiveKind(queue[i].data);
            Kinds(started + Wholes(queue[..i])) + if kind != "" then {kind} else {}
  {
    var before, p := started + Wholes(queue[..i]), Wholes(queue)[i];
    assert started + Wholes(queue[..i + 1]) == before + [p];
    assert forall q :: q in before + [p] <==> q in before || q == p;
  }

  lemma FirstKind(pieces: seq<Piece>, m: Meta)
    requires if pieces == [] then m == NO_META else |pieces| == 1 && pieces[0].data == m
    ensures Kinds(pieces) == if ActiveKind(m) != "" then {ActiveKind(m)} else {}
  {
    if pieces != [] {
      assert pieces[0] in pieces;
    }
  }

  lemma OfferOne(handled: seq<Sample>, before: seq<Piece>, offered: seq<Sample>, p: Piece)
    requires handled + Flat(before) == offered
    ensures handled + Flat(before + [p]) == offered + p.samples
  {
    FlatConcat(before, [p]);
    FlatOne(p);
    ConcatAssociates(handled, Flat(before), p.samples);
  }

  lemma SendHead(handled: seq<Sample>, pending: seq<Piece>, offered: seq<Sample>, n: nat)
    requires 1 <= n && pending != [] && handled + Flat(pending) == offered
    ensures handled + Head(pending[0], n).payload + Flat(Tail(pending[0], n) + pending[1..]) == offered
  {
    FlatHead(pending, n);
    ConcatAssociates(handled, Head(pending[0], n).payload, Flat(Tail(pending[0], n) + pending[1..]));
  }

  class PlaybackBuffer {
    var queue: seq<Segment>
    var current: Option<seq<Sample>>
    var currentData: Meta
    var position: nat
    var generation: nat
    var playing: bool
    /** All audio ever enqueued, and all audio sent or discarded, each in order. */
    ghost var offered: seq<Sample>
    ghost var handled: seq<Sample>

    function Pending(): seq<Piece>
      reads this
      requires current.Some? ==> position <= |current.value|
    {
      (if current.Some? then [Piece(current.value[position..], false, currentData)] else []) + Wholes(queue)
    }

    /** Between calls a current segment is one that has been started and not finished. */
    ghost predicate Valid()
      reads this
    {
      && (current.Some? ==> 0 < position < |current.value|)
      && (current.None? ==> position == 0 && currentData == NO_META)
      && playing == current.Some?
      && handled + Flat(Pending()) == offered
    }

    constructor ()
      ensures Valid() && Pending() == [] && generation == 0 && offered == []
    {
      queue, current, currentData := [], None, NO_META;
      position, generation, playing := 0, 0, false;
      offered, handled := [], [];
    }

    /** An interrupt discards exactly the undelivered remainder. */
    method Interrupt() returns (wasPlaying: bool)
      requires Valid()
      modifies this
      ensures Valid() && Pending() == [] && generation == old(generation) + 1
      ensures wasPlaying <==> old(Pending()) != []
      ensures offered == old(offered) && handled == old(handled) + Flat(old(Pending()))
    {
      wasPlaying := playing || current.Some? || queue != [];
      handled := handled + Flat(Pending());
      queue := [];
      current, currentData, position := None, NO_META, 0;
      generation := generation + 1;
      playing := false;
    }

    method Enqueue(audio: seq<Sample>, data: Meta) returns (g: nat)
      requires Valid()
      modifies this
      ensures Valid() && Pending() == old(Pending()) + [Piece(audio, true, data)]
      ensures g == generation == old(generation) + 1
      ensures offered == old(offered) + audio && handled == old(handled)
    {
      ghost var before, piece := Pending(), Piece(audio, true, data);
      OfferOne(handled, before, offered, piece);
      assert Wholes(queue + [Segment(audio, data)]) == Wholes(queue) + [piece];
      queue := queue + [Segment(audio, data)];
      offered := offered + audio;
      assert Pending() == before + [piece];
      generation := generation + 1;
      g := generation;
    }

    method IsActive() returns (active: bool)
      requires Valid()
      ensures active <==> Pending() != []
    {
      active := playing || current.Some? || queue != [];
    }

    method ActiveResponseEventIds() returns (ids: set<int>)
      requires Valid()
      ensures forall id :: id in ids <==> exists p :: p in Pending() && p.data.responseTo == Some(id)
    {
      ids := if currentData.responseTo.Some? then {currentData.responseTo.value} else {};
      ghost var pending := Pending();
      ghost var k := |pending| - |queue|;
      for i := 0 to |queue|
        invariant forall id :: id in ids <==> exists j :: 0 <= j < k + i && pending[j].data.responseTo == Some(id)
      {
        assert pending[k + i].data == queue[i].data;
        if queue[i].data.responseTo.Some? {
          ids := ids + {queue[i].data.responseTo.value};
        }
      }
    }

    method ActiveResponseKinds() returns (kinds: set<string>)
      requires Valid()
      ensures kinds == Kinds(Pending())
    {
      var kind := ActiveKind(currentData);
      kinds := if kind != "" then {kind} else {};
      ghost var started := Pending()[..|Pending()| - |queue|];
      assert Pending() == started + Wholes(queue);
      FirstKind(started, currentData);
      for i := 0 to |queue|
        invariant kinds == Kinds(started + Wholes(queue[..i]))
      {
        OneMoreKind(started, queue, i);
        kind := ActiveKind(queue[i].data);
        if kind != "" {
          kinds := kinds + {kind};
        }
      }
      assert queue[..|queue|] == queue;
    }

    /** Silence when nothing is pending, otherwise the head of the first piece, padded. */
    method NextPacketWithMetadata(packetSamples: nat)
      returns (packet: seq<Sample>, started: bool, finished: bool, data: Meta)
      requires Valid() && 1 <= packetSamples
      modifies this
      ensures Valid() && |packet| == packetSamples && generation == old(generation) && offered == old(offered)
      ensures old(Pending()) == [] ==>
                packet == Zeros(packetSamples) && !started && !finished && data == NO_META &&
                Pending() == [] && handled == old(handled)
      ensures old(Pending()) != [] ==>
                var h := Head(old(Pending())[0], packetSamples);
                && packet == Padded(h.payload, packetSamples)
                && (started, finished, data) == (h.started, h.finished, h.data)
                && Pending() == Tail(old(Pending())[0], packetSamples) + old(Pending())[1..]
                && handled == old(handled) + h.payload
    {
      ghost var pending := Pending();
      started, finished := false, false;
      if current.None? && queue != [] {
        current, currentData := Some(queue[0].samples), queue[0].data;
        queue := queue[1..];
        position, playing, started := 0, true, true;
      }
      if current.None? {
        return Zeros(packetSamples), started, finished, NO_META;
      }
      ghost var piece := Piece(current.value[position..], started, currentData);
      assert pending == [piece] + Wholes(queue);
      SendHead(handled, pending, offered, packetSamples);
      data := currentData;
      packet, finished := TakeFromCurrent(packetSamples, pending);
    }

    method TakeFromCurrent(n: nat, ghost pending: seq<Piece>) returns (packet: seq<Sample>, finished: bool)
      requires 1 <= n && pending != []
      requires current.Some? && playing && (position < |current.value| || (position == 0 && current.value == []))
      requires pending[0].samples == current.value[position..] && pending[0].data == currentData
      requires pending[1..] == Wholes(queue)
      requires handled + Head(pending[0], n).payload + Flat(Tail(pending[0], n) + pending[1..]) == offered
      modifies this`current, this`currentData, this`position, this`playing, this`handled
      ensures Valid() && finished == Head(pending[0], n).finished
      ensures packet == Padded(Head(pending[0], n).payload, n)
      ensures handled == old(handled) + Head(pending[0], n).payload
      ensures Pending() == Tail(pending[0], n) + pending[1..]
    {
      finished := false;
      packet := current.value[position..Min(position + n, |current.value|)];
      SliceOfSlice(current.value, position, n);
      assert packet == Head(pending[0], n).payload;
      handled := handled + packet;
      position := position + |packet|;
      if |packet| < n {
        packet := packet + Zeros(n - |packet|);
        current, currentData, position, playing, finished := None, NO_META, 0, false, true;
      } else if position >= |current.value| {
        current, currentData, position, playing, finished := None, NO_META, 0, false, true;
      }
      assert Pending() == Tail(pending[0], n) + pending[1..];
    }
  }

  lemma SliceOfSlice(s: seq<Sample>, from: nat, n: nat)
    requires from <= |s|
    ensures s[from..Min(from + n, |s|)] == s[from..][..Min(n, |s| - from)]
    ensures from + n <= |s| ==> s[from..][n..] == s[from + n..]
  {
  }

  // ----------------------------------------------- packets refine the queue

  /** The packets one piece is cut into. */
  function Cut(p: Piece, n: nat): seq<Packet>
    requires 1 <= n
    decreases |p.samples|
  {
    [Head(p, n)] + if |p.samples| <= n then [] else Cut(Piece(p.samples[n..], false, p.data), n)
  }

  function CutAll(pieces: seq<Piece>, n: nat): seq<Packet>
    requires 1 <= n
  {
    if pieces == [] then [] else Cut(pieces[0], n) + CutAll(pieces[1..], n)
  }

  /** `count` is max(1, ceil(length / n)). */
  ghost predicate IsPacketCount(count: nat, length: nat, n: nat) {
    1 <= count && length <= count * n && (count == 1 || (count - 1) * n < length)
  }

  ghost predicate PacketAt(p: Piece, n: nat, k: nat, packet: Packet, count: nat) {
    && k * n <= |p.samples|
    && packet.payload == p.samples[k * n..Min(k * n + n, |p.samples|)]
    && packet.started == (p.unstarted && k == 0)
    && packet.finished == (k == count - 1)
    && packet.data == p.data
  }

  lemma {:induction false} CutCount(p: Piece, n: nat)
    requires 1 <= n
    ensures IsPacketCount(|Cut(p, n)|, |p.samples|, n)
    decreases |p.samples|
  {
    if |p.samples| > n {
      var rest := Piece(p.samples[n..], false, p.data);
      CutCount(rest, n);
      var c := |Cut(rest, n)|;
      assert (c + 1) * n == c * n + n && c * n == (c - 1) * n + n;
    }
  }

  /**
   A segment of length l takes exactly max(1, ceil(l / n)) packets.  The k-th
   carries samples k*n to (k+1)*n, only the first says started, only the last
   says finished, and all carry the segment's metadata.
   */
  lemma {:induction false} CutShape(p: Piece, n: nat, k: nat)
    requires 1 <= n && k < |Cut(p, n)|
    ensures IsPacketCount(|Cut(p, n)|, |p.samples|, n)
    ensures PacketAt(p, n, k, Cut(p, n)[k], |Cut(p, n)|)
    decreases |p.samples|
  {
    CutCount(p, n);
    if k > 0 {
      var rest := Piece(p.samples[n..], false, p.data);
      CutShape(rest, n, k - 1);
      assert Cut(p, n)[k] == Cut(rest, n)[k - 1];
      ShiftedPacket(p, rest, n, k - 1, Cut(p, n)[k], |Cut(rest, n)|);
    }
  }

  lemma ShiftedPacket(p: Piece, rest: Piece, n: nat, k: nat, packet: Packet, count: nat)
    requires n < |p.samples| && rest == Piece(p.samples[n..], false, p.data)
    requires PacketAt(rest, n, k, packet, count)
    ensures PacketAt(p, n, k + 1, packet, count + 1)
  {
    var from := k * n;
    assert (k + 1) * n == from + n;
    assert rest.samples[from..Min(from + n, |rest.samples|)] == p.samples[from + n..Min(from + n + n, |p.samples|)];
  }

  /** The payloads of the packets, put together again. */
  function Payloads(packets: seq<Packet>): seq<Sample> {
    if packets == [] then [] else packets[0].payload + Payloads(packets[1..])
  }

  lemma {:induction false} PayloadsConcat(a: seq<Packet>, b: seq<Packet>)
    ensures Payloads(a + b) == Payloads(a) + Payloads(b)
  {
    if a == [] {
      assert a + b == b;
    } else {
      assert (a + b)[1..] == a[1..] + b;
      PayloadsConcat(a[1..], b);
    }
  }

  lemma {:induction false} CutKeepsSamples(p: Piece, n: nat)
    requires 1 <= n
    ensures Payloads(Cut(p, n)) == p.samples
    decreases |p.samples|
  {
    if |p.samples| <= n {
      assert Cut(p, n)[1..] == [];
    } else {
      var rest := Piece(p.samples[n..], false, p.data);
      CutKeepsSamples(rest, n);
      assert Cut(p, n)[1..] == Cut(rest, n);
    }
  }

  lemma {:induction false} CutAllKeepsSamples(pieces: seq<Piece>, n: nat)
    requires 1 <= n
    ensures Payloads(CutAll(pieces, n)) == Flat(pieces)
  {
    if pieces != [] {
      CutKeepsSamples(pieces[0], n);
      CutAllKeepsSamples(pieces[1..], n);
      PayloadsConcat(Cut(pieces[0], n), CutAll(pieces[1..], n));
    }
  }

  lemma {:induction false} CutAllConcat(a: seq<Piece>, b: seq<Piece>, n: nat)
    requires 1 <= n
    ensures CutAll(a + b, n) == CutAll(a, n) + CutAll(b, n)
  {
    if a == [] {
      assert a + b == b;
    } else {
      assert (a + b)[1..] == a[1..] + b;
      CutAllConcat(a[1..], b, n);
    }
  }

  /** Taking a packet takes the first packet of the plan and leaves the rest of it. */
  lemma TakePacket(pieces: seq<Piece>, n: nat)
    requires 1 <= n && pieces != []
    ensures CutAll(pieces, n) == [Head(pieces[0], n)] + CutAll(Tail(pieces[0], n) + pieces[1..], n)
  {
    var p := pieces[0];
    CutAllConcat(Tail(p, n), pieces[1..], n);
    if |p.samples| > n {
      assert Tail(p, n)[1..] == [];
    }
  }

  datatype Act = Offer(segment: Segment) | Take

  /** Packets sent so far, and pieces still pending. */
  datatype Line = Line(sent: seq<Packet>, pending: seq<Piece>)

  function Do(l: Line, a: Act, n: nat): Line
    requires 1 <= n
  {
    match a
    case Offer(s) => l.(pending := l.pending + [Whole(s)])
    case Take =>
      if l.pending == [] then l
      else Line(l.sent + [Head(l.pending[0], n)], Tail(l.pending[0], n) + l.pending[1..])
  }

  function DoAll(acts: seq<Act>, n: nat): Line
    requires 1 <= n
  {
    if acts == [] then Line([], []) else Do(DoAll(acts[..|acts| - 1], n), acts[|acts| - 1], n)
  }

  function Offered(acts: seq<Act>): seq<Segment> {
    if acts == [] then []
    else
      var front, last := Offered(acts[..|acts| - 1]), acts[|acts| - 1];
      if last.Offer? then front + [last.segment] else front
  }

  /**
   However offers and packet requests interleave, the packets sent so far
   followed by the packets of what is pending are the packets of all segments
   offered, in order.
   */
  lemma {:induction false} PacketsRefineQueue(acts: seq<Act>, n: nat)
    requires 1 <= n
    ensures DoAll(acts, n).sent + CutAll(DoAll(acts, n).pending, n) == CutAll(Wholes(Offered(acts)), n)
  {
    if acts != [] {
      var front, last := acts[..|acts| - 1], acts[|acts| - 1];
      PacketsRefineQueue(front, n);
      if last.Offer? {
        OfferRefines(DoAll(front, n), last.segment, Offered(front), n);
      } else if DoAll(front, n).pending != [] {
        TakePacket(DoAll(front, n).pending, n);
      }
    }
  }

  lemma OfferRefines(l: Line, s: Segment, offered: seq<Segment>, n: nat)
    requires 1 <= n && l.sent + CutAll(l.pending, n) == CutAll(Wholes(offered), n)
    ensures l.sent + CutAll(l.pending + [Whole(s)], n) == CutAll(Wholes(offered + [s]), n)
  {
    CutAllConcat(l.pending, [Whole(s)], n);
    CutAllConcat(Wholes(offered), [Whole(s)], n);
    ConcatAssociates(l.sent, CutAll(l.pending, n), CutAll([Whole(s)], n));
    assert Wholes(offered + [s]) == Wholes(offered) + [Whole(s)];
  }

  /** Once everything has been sent, the unpadded packets are the audio offered, in order. */
  lemma DrainedAudio(acts: seq<Act>, n: nat)
    requires 1 <= n && DoAll(acts, n).pending == []
    ensures Payloads(DoAll(acts, n).sent) == Flat(Wholes(Offered(acts)))
  {
    PacketsRefineQueue(acts, n);
    assert DoAll(acts, n).sent + [] == DoAll(acts, n).sent;
    CutAllKeepsSamples(Wholes(Offered(acts)), n);
  }
}
