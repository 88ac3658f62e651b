/**
 AudioSocket framing over a stream socket (voicebot/audio.py): one type byte, a
 two-byte big-endian length, and the payload.  The socket may deliver the bytes
 in fragments of any size.
 */
module AudioSocket {
  import opened Common

  type Byte = b: int | 0 <= b < 256

  const MAX_PAYLOAD := 65535

  datatype Message = Message(kind: Byte, payload: seq<Byte>)

  predicate Sendable(m: Message) {
    |m.payload| <= MAX_PAYLOAD
  }

  function Encode(m: Message): seq<Byte>
    requires Sendable(m)
  {
    [m.kind, |m.payload| / 256, |m.payload| % 256] + m.payload
  }

  function EncodeAll(messages: seq<Message>): seq<Byte>
    requires forall m :: m in messages ==> Sendable(m)
  {
    if messages == [] then [] else Encode(messages[0]) + EncodeAll(messages[1..])
  }

  /** The stream is what writing these messages one after another leaves on the wire. */
  ghost predicate Carries(stream: seq<Byte>, messages: seq<Message>) {
    (forall m :: m in messages ==> Sendable(m)) && stream == EncodeAll(messages)
  }

  function PayloadLength(stream: seq<Byte>): nat
    requires 3 <= |stream|
  {
    (stream[1] as int) * 256 + stream[2] as int
  }

  /** The bytes of a message and then the rest: its kind, the high and the low byte of its length, its payload. */
  predicate OnWire(stream: seq<Byte>, m: Message, rest: seq<Byte>) {
    && |stream| == 3 + |m.payload| + |rest| && |m.payload| <= 65535
    && stream[0] == m.kind && |m.payload| == 256 * (stream[1] as int) + stream[2] as int
    && stream[3..3 + |m.payload|] == m.payload && stream[3 + |m.payload|..] == rest
  }

  /** Is there a whole message at the front of the stream? */
  predicate Complete(stream: seq<Byte>) {
    3 <= |stream| && 3 + PayloadLength(stream) <= |stream|
  }

  function FrontMessage(stream: seq<Byte>): Message
    requires Complete(stream)
  {
    Message(stream[0], stream[3..3 + PayloadLength(stream)])
  }

  function Remainder(stream: seq<Byte>): seq<Byte>
    requires Complete(stream)
  {
    stream[3 + PayloadLength(stream)..]
  }

  function DecodeAll(stream: seq<Byte>): seq<Message>
    decreases |stream|
  {
    if Complete(stream) then [FrontMessage(stream)] + DecodeAll(Remainder(stream)) else []
  }

  // ---------------------------------------------------------------- the socket

  class Socket {
    /** Bytes the peer has sent and will send before it closes. */
    var incoming: seq<Byte>
    /** How the network will cut them up: the size of each delivery to come. */
    var fragments: seq<nat>
    var sent: seq<Byte>

    constructor (incoming: seq<Byte>, fragments: seq<nat>)
      ensures this.incoming == incoming && this.fragments == fragments && sent == []
    {
      this.incoming, this.fragments, sent := incoming, fragments, [];
    }

    /** At least one byte while the stream lasts, at most `size`; nothing once it is closed. */
    method Recv(size: nat) returns (chunk: seq<Byte>)
      requires 1 <= size
      modifies this`incoming, this`fragments
      ensures |chunk| <= size && old(incoming) == chunk + incoming
      ensures chunk == [] <==> old(incoming) == []
    {
      var available := Min(size, |incoming|);
      var n := if fragments == [] then available else Min(Max(fragments[0], Min(1, available)), available);
      fragments := if fragments == [] then [] else fragments[1..];
      chunk := incoming[..n];
      incoming := incoming[n..];
    }

    method SendAll(bytes: seq<Byte>)
      modifies this`sent
      ensures sent == old(sent) + bytes
    {
      sent := sent + bytes;
    }
  }

  /** Exactly `size` bytes, however they are fragmented, or an error at the end of the stream. */
  method RecvExact(sock: Socket, size: nat) returns (r: Result<seq<Byte>>)
    modifies sock`incoming, sock`fragments
    ensures r.Ok? <==> size <= |old(sock.incoming)|
    ensures r.Ok? ==> r.value == old(sock.incoming)[..size] && sock.incoming == old(sock.incoming)[size..]
    ensures r.Err? ==> sock.incoming == []
  {
    var received: seq<Byte> := [];
    var remaining := size;
    while remaining > 0
      invariant 0 <= remaining && |received| + remaining == size
      invariant old(sock.incoming) == received + sock.incoming
    {
      var chunk := sock.Recv(remaining);
      if chunk == [] {
        return Err("socket closed");
      }
      received := received + chunk;
      remaining := remaining - |chunk|;
    }
    assert old(sock.incoming)[..size] == received;
    return Ok(received);
  }

  method ReadMessage(sock: Socket) returns (r: Result<Message>)
    modifies sock`incoming, sock`fragments
    ensures r.Ok? <==> Complete(old(sock.incoming))
    ensures r.Ok? ==> OnWire(old(sock.incoming), r.value, sock.incoming)
    ensures r.Ok? ==> r.value == FrontMessage(old(sock.incoming)) && sock.incoming == Remainder(old(sock.incoming))
    ensures r.Err? ==> sock.incoming == []
  {
    ghost var stream := sock.incoming;
    var header := RecvExact(sock, 3);
    if header.Err? {
      return Err(header.message);
    }
    var length := (header.value[1] as int) * 256 + header.value[2] as int;
    assert length == PayloadLength(stream);
    var payload: Result<seq<Byte>> := Ok([]);
    if length > 0 {
      payload := RecvExact(sock, length);
    }
    if payload.Err? {
      return Err(payload.message);
    }
    return Ok(Message(header.value[0], payload.value));
  }

  /** The length field has two bytes and the type one; anything wider is refused. */
  method WriteMessage(sock: Socket, kind: int, payload: seq<Byte>) returns (ok: bool)
    modifies sock`sent
    ensures ok <==> 0 <= kind < 256 && |payload| <= 65535
    ensures sock.sent == old(sock.sent) + if ok then Encode(Message(kind, payload)) else []
    ensures forall ms: seq<Message> :: ok && Carries(old(sock.sent), ms) ==>
              Carries(sock.sent, ms + [Message(kind, payload)])
  {
    if kind < 0 || kind >= 256 || |payload| > MAX_PAYLOAD {
      return false;
    }
    ghost var before := sock.sent;
    sock.SendAll([kind] + [|payload| / 256, |payload| % 256] + payload);
    forall ms: seq<Message> | Carries(before, ms) ensures Carries(sock.sent, ms + [Message(kind, payload)]) {
      EncodeAllAppends(ms, Message(kind, payload));
    }
    return true;
  }

  /** Reading until the end of the stream: what a peer wrote comes out as it went in. */
  method ReadAll(sock: Socket) returns (messages: seq<Message>)
    modifies sock`incoming, sock`fragments
    ensures messages == DecodeAll(old(sock.incoming)) && sock.incoming == []
    ensures forall ms :: Carries(old(sock.incoming), ms) ==> messages == ms
  {
    messages := [];
    var reading := true;
    ghost var stream := sock.incoming;
    while reading
      invariant reading ==> messages + DecodeAll(sock.incoming) == DecodeAll(stream)
      invariant !reading ==> messages == DecodeAll(stream) && sock.incoming == []
      decreases reading, |sock.incoming|
    {
      var r := ReadMessage(sock);
      if r.Ok? {
        messages := messages + [r.value];
      } else {
        reading := false;
      }
    }
    forall ms | Carries(stream, ms) ensures messages == ms {
      RoundTrip(ms);
    }
  }

  // ------------------------------------------------------------- the round trip

  lemma EncodedFront(m: Message, rest: seq<Byte>)
    requires Sendable(m)
    ensures Complete(Encode(m) + rest)
    ensures FrontMessage(Encode(m) + rest) == m && Remainder(Encode(m) + rest) == rest
  {
    var stream := Encode(m) + rest;
    assert PayloadLength(stream) == |m.payload|;
    assert stream[3..3 + |m.payload|] == m.payload;
  }

  /** Encoding puts exactly these bytes on the wire, and a message is whole exactly if they are all there. */
  lemma EncodedExactly(m: Message, rest: seq<Byte>, stream: seq<Byte>)
    requires |m.payload| <= 65535
    ensures stream == Encode(m) + rest <==> OnWire(stream, m, rest)
    ensures OnWire(stream, m, rest) ==> Complete(stream) && FrontMessage(stream) == m && Remainder(stream) == rest
    ensures Complete(stream) ==> OnWire(stream, FrontMessage(stream), Remainder(stream))
  {
    if stream == Encode(m) + rest {
      EncodedFront(m, rest);
    }
    if OnWire(stream, m, rest) {
      assert |m.payload| / 256 == stream[1] && |m.payload| % 256 == stream[2];
      assert stream == stream[..3] + stream[3..3 + |m.payload|] + stream[3 + |m.payload|..];
      assert stream[..3] == [m.kind, |m.payload| / 256, |m.payload| % 256];
    }
  }

  /**
   Whatever messages were written, reading the stream yields exactly them and
   then its end.  With ReadAll's contract this holds for every fragmentation.
   */
  lemma {:induction false} RoundTrip(messages: seq<Message>)
    requires forall m :: m in messages ==> Sendable(m)
    ensures DecodeAll(EncodeAll(messages)) == messages
  {
    if messages != [] {
      EncodedFront(messages[0], EncodeAll(messages[1..]));
      RoundTrip(messages[1..]);
    }
  }

  /** Encoding messages one after another is writing them one after another. */
  lemma {:induction false} EncodeAllAppends(messages: seq<Message>, last: Message)
    requires (forall m :: m in messages ==> Sendable(m)) && Sendable(last)
    ensures forall m :: m in messages + [last] ==> Sendable(m)
    ensures EncodeAll(messages + [last]) == EncodeAll(messages) + Encode(last)
  {
    if messages == [] {
      assert [last][1..] == [] && messages + [last] == [last];
    } else {
      assert (messages + [last])[1..] == messages[1..] + [last];
      EncodeAllAppends(messages[1..], last);
    }
  }

  lemma PartIsIncomplete(m: Message, rest: seq<Byte>, cut: nat)
    requires Sendable(m) && cut < |Encode(m)|
    ensures DecodeAll((Encode(m) + rest)[..cut]) == []
  {
    var stream := (Encode(m) + rest)[..cut];
    assert forall i :: 0 <= i < cut ==> stream[i] == Encode(m)[i];
    assert 3 <= cut ==> PayloadLength(stream) == |m.payload|;
  }

  /**
   A stream cut off anywhere still yields the messages that arrived whole: `j` of
   them, and the next one did not fit.
   */
  lemma {:induction false} CutStreamYieldsWholeMessages(messages: seq<Message>, cut: nat) returns (j: nat)
    requires (forall m :: m in messages ==> Sendable(m)) && cut <= |EncodeAll(messages)|
    ensures j <= |messages| && DecodeAll(EncodeAll(messages)[..cut]) == messages[..j]
    ensures |EncodeAll(messages[..j])| <= cut
    ensures j < |messages| ==> cut < |EncodeAll(messages[..j + 1])|
  {
    if messages == [] {
      j := 0;
    } else if cut < |Encode(messages[0])| {
      j := 0;
      PartIsIncomplete(messages[0], EncodeAll(messages[1..]), cut);
      EncodesFirst(messages, 0);
    } else {
      var k := CutStreamYieldsWholeMessages(messages[1..], cut - |Encode(messages[0])|);
      j := k + 1;
      FirstIsWhole(messages, cut, k);
      EncodesFirst(messages, k);
      if j < |messages| {
        EncodesFirst(messages, k + 1);
      }
    }
  }

  lemma FirstIsWhole(messages: seq<Message>, cut: nat, k: nat)
    requires (forall m :: m in messages ==> Sendable(m)) && k < |messages|
    requires |Encode(messages[0])| <= cut <= |EncodeAll(messages)|
    requires DecodeAll(EncodeAll(messages[1..])[..cut - |Encode(messages[0])|]) == messages[1..][..k]
    ensures DecodeAll(EncodeAll(messages)[..cut]) == messages[..k + 1]
  {
    var first, rest := Encode(messages[0]), EncodeAll(messages[1..]);
    var part := rest[..cut - |first|];
    assert EncodeAll(messages)[..cut] == first + part;
    EncodedFront(messages[0], part);
    assert messages[..k + 1] == [messages[0]] + messages[1..][..k];
  }

  lemma EncodesFirst(messages: seq<Message>, k: nat)
    requires k < |messages| && forall m :: m in messages ==> Sendable(m)
    ensures |EncodeAll(messages[..k + 1])| == |Encode(messages[0])| + |EncodeAll(messages[1..][..k])|
    ensures k == 0 ==> EncodeAll(messages[1..][..k]) == []
  {
    assert messages[..k + 1][1..] == messages[1..][..k];
    assert messages[..k + 1][0] == messages[0];
  }
}
