/** From one end of the multiplexer to the other: what the manager puts on the
    serial wire as a client reads it, and what a client sends as the manager
    receives it. */
module EndToEnd {
  import opened Bytes
  import opened MuxMessage
  import opened MuxParser
  import opened Subscription
  import opened FilterBits
  import opened Manager
  import opened Picard
  import opened Session
  import Hdlc
  import Runs

  // ---------------------------------------------------------------
  // Towards the client.

  /** The bytes on a client's socket after these writes. */
  function Stream(written: seq<Output>): ByteVector {
    if |written| == 0 then [] else Serialize(AsMessage(written[0])) + Stream(written[1..])
  }

  function AsMessages(written: seq<Output>): (ms: seq<Message>)
    ensures |ms| == |written|
  {
    seq(|written|, i requires 0 <= i < |written| => AsMessage(written[i]))
  }

  /** Nothing too long for the 16-bit length was written. */
  ghost predicate Short(written: seq<Output>) {
    forall o :: o in written ==> |o.payload| < MAX_DATA
  }

  lemma {:induction false} StreamReads(written: seq<Output>)
    requires Short(written)
    ensures ParseAll(Stream(written)) == Parsed(AsMessages(written), [])
  {
    hide ParseAll, Serialize;
    if |written| == 0 {
      StuckWithoutToken([]);
    } else {
      var m, rest := AsMessage(written[0]), Stream(written[1..]);
      StreamReads(written[1..]);
      OneMessage([], m, rest);
      assert [] + (Serialize(m) + rest) == Stream(written);
      assert AsMessages(written) == [m] + AsMessages(written[1..]);
    }
  }

  /** However the socket cuts it up, a client that parses what was written to it
      reads one message for each write. */
  lemma ClientReads(written: seq<Output>, chunks: seq<ByteVector>)
    requires Short(written) && Concat(chunks) == Stream(written)
    ensures ReadAll(Zeros(COMMAND_SIZE), chunks).messages == AsMessages(written)
  {
    ChunkIndependence(chunks);
    StreamReads(written);
    hide ReadAll, ParseAll;
  }

  lemma MessagesAppend(written: seq<Output>, o: Output)
    ensures AsMessages(written + [o]) == AsMessages(written) + [AsMessage(o)]
  {
  }

  /** The last frame out of a decoder. */
  function Last(frames: seq<ByteVector>): Option<ByteVector> {
    if |frames| == 0 then None else Some(frames[|frames| - 1])
  }

  lemma LastFrame(d: Hdlc.Decoder, p: ByteVector)
    requires d.mode != Hdlc.Escape && |p| > 0
    ensures Last(Hdlc.Feed(d, Hdlc.Encode(p)).frames) == Some(p)
  {
    hide Hdlc.Feed, Hdlc.Encode, Hdlc.Delivered;
    Hdlc.FrameDelivered(d, p);
  }

  /** A response on the wire that answers the command in progress reaches its
      client, whatever the decoder held and however the socket cuts the stream,
      as one more message: its type, id 0, and the code before the payload. */
  lemma ResponseEndToEnd<C>(d: Hdlc.Decoder, m: Manager<C>, c: C, seqNo: byte, code: byte,
                            payload: ByteVector, chunks: seq<ByteVector>)
    requires d.mode != Hdlc.Escape && |payload| < 255
    requires m.current.client == Some(c) && c in m.peers && Short(m.peers[c].written)
    requires m.current.message.typ > NOTIFICATION && seqNo == m.current.seqNo
    ensures var typ := m.current.message.typ;
            var last := Last(Hdlc.Feed(d, Hdlc.Encode(ResponseFrame(typ, seqNo, code, payload))).frames);
            && last.Some? && IsResponse(last.value)
            && var f := last.value;
            && var n := CommandComplete(m, f[1], f[2], f[4], f[5..]);
            && c in n.peers && Short(n.peers[c].written)
            && (Concat(chunks) == Stream(n.peers[c].written) ==>
                  ReadAll(Zeros(COMMAND_SIZE), chunks).messages
                  == AsMessages(m.peers[c].written) + [Message(0, typ, [code] + payload)])
  {
    hide Hdlc.Feed, Hdlc.Encode, ReadAll, Stream, Concat;
    var typ := m.current.message.typ;
    var f := ResponseFrame(typ, seqNo, code, payload);
    LastFrame(d, f);
    ResponseRecognised(typ, seqNo, code, payload);
    var n := CommandComplete(m, typ, seqNo, code, payload);
    var o := Output(typ, code, payload);
    assert n.peers[c].written == m.peers[c].written + [o];
    MessagesAppend(m.peers[c].written, o);
    if Concat(chunks) == Stream(n.peers[c].written) {
      ClientReads(n.peers[c].written, chunks);
    }
  }

  /** A notification of type t on the wire, reliable or not and whatever number
      came before it, reaches every connected client as one more message, its own
      type before the payload, if bit t % 8 of byte 3 - t / 8 is set in the
      payload `asked` that the client's committed filters come from. The others,
      connected or not, read nothing new. */
  lemma NotificationEndToEnd<C>(d: Hdlc.Decoder, m: Manager<C>, c: C, reliable: bool, seqNo: byte, mgrSeqNo: byte,
                                typ: byte, payload: ByteVector, asked: ByteVector, chunks: seq<ByteVector>)
    requires |asked| >= 8 && (c in m.peers ==> m.peers[c].params == VectorToFilter(asked))
    requires d.mode != Hdlc.Escape && 0 < |payload| < 255 && typ < 31
    requires c in m.peers && Short(m.peers[c].written)
    ensures var last := Last(Hdlc.Feed(d, Hdlc.Encode(NotificationFrame(reliable, seqNo, typ, payload))).frames);
            && last.Some? && IsNotification(last.value)
            && NotificationCallback(last.value, true, mgrSeqNo) == Notify(typ, payload)
            && var n := HandleNotif(m, typ, payload);
            && c in n.peers
            && (Concat(chunks) == Stream(n.peers[c].written) ==>
                  ReadAll(Zeros(COMMAND_SIZE), chunks).messages
                  == AsMessages(m.peers[c].written)
                     + if c in m.clients && BitSet(asked[3 - typ / 8], typ % 8) then [Message(0, 20, [typ] + payload)] else [])
  {
    MatchPayloadBit(asked, typ);
    hide BitSet, VectorToFilter;
    hide Hdlc.Feed, Hdlc.Encode, ReadAll, Stream, Concat, FilterMatch;
    var f := NotificationFrame(reliable, seqNo, typ, payload);
    LastFrame(d, f);
    NotificationRecognised(reliable, seqNo, typ, payload);
    DuplicatesPassOn(f, mgrSeqNo);
    var n := HandleNotif(m, typ, payload);
    var o := Output(NOTIFICATION, typ, payload);
    MessagesAppend(m.peers[c].written, o);
    if Concat(chunks) == Stream(n.peers[c].written) {
      ClientReads(n.peers[c].written, chunks);
    }
  }

  // ---------------------------------------------------------------
  // Towards the manager.

  /** A client that says a good hello and then sends messages, with token-free
      noise anywhere between them, contributes exactly those messages. */
  lemma MessagesBecomeCommands(x: Expected, hello: Message, ms: seq<Message>, garbage: seq<ByteVector>,
                               last: ByteVector, chunks: seq<ByteVector>)
    requires hello.typ == 1 && |x.auth| == 8 && hello.data == [x.version] + x.auth
    requires |garbage| == |ms| + 1 && TokenFree(last)
    requires forall i :: 0 <= i < |garbage| ==> TokenFree(garbage[i])
    requires forall i :: 0 <= i < |ms| ==> |ms[i].data| <= MAX_DATA
    requires Concat(chunks) == Noisy(garbage, [hello] + ms, last)
    ensures ReadChunks(x, Zeros(COMMAND_SIZE), NewSession(), chunks).commands == ms
  {
    hide ParseAll, ReadChunks, Noisy, Concat, TokenFree;
    var all := [hello] + ms;
    RoundTripThroughNoise(garbage, all, last);
    SessionRefinement(x, chunks);
    assert FirstHello(all) == 0 && all[0] == hello;
    assert all[1..] == ms;
  }

  /** What the link makes of a command: the request it hands to the port. */
  function OnWire(cmd: Message, seqNo: byte): ByteVector {
    Hdlc.Encode(RequestFrame(cmd.typ, seqNo, cmd.data[..|cmd.data| % 256]))
  }

  /** A connected client's command for the serial link arrives at the manager as
      a request of the same type and length, and with the same data. Only the
      two filters of a SUBSCRIBE are replaced, by the union. */
  lemma RequestEndToEnd<C>(d: Hdlc.Decoder, m: Manager<C>, seqNo: byte)
    requires d.mode != Hdlc.Escape
    requires WellFormed(m) && m.loop.Idle? && |m.queue| > 0 && m.retries > 0
    requires m.queue[0].client.Some? && m.queue[0].client.value in m.clients && Forwarded(m.queue[0].message)
    ensures var q := m.queue[0].message;
            var n := Begin(m);
            && n.loop.Sending? && n.loop.cmd.client == m.queue[0].client
            && var f := Last(Hdlc.Feed(d, OnWire(n.loop.cmd.message, seqNo)).frames);
            && f.Some? && |f.value| == 4 + |q.data|
            && f.value[..4] == [2, q.typ, seqNo, |q.data|]
            && (q.typ != SUBSCRIBE ==> f.value[4..] == q.data)
            && (q.typ == SUBSCRIBE ==>
                  && VectorToFilter(f.value[4..]) == n.filterUnion
                  && n.filterUnion == Union(Pending(n.peers, n.clients))
                  && f.value[12..] == q.data[8..])
  {
    hide Hdlc.Feed, Hdlc.Encode, Union, VectorToFilter, FilterToVector, NoDuplicates;
    var head := m.queue[0];
    assert head in m.queue;
    var n := Begin(m);
    Runs.BeginFrame(m);
    var cmd := n.loop.cmd.message;
    var data := head.message.data;
    if cmd.typ == SUBSCRIBE {
      FilterRoundTrip(n.filterUnion, data);
      assert n.filterUnion == Union(Pending(n.peers, n.clients));
      assert cmd.data == FilterToVector(n.filterUnion, data);
    }
    RequestNotCut(cmd, seqNo);
    var f := RequestFrame(cmd.typ, seqNo, cmd.data);
    LastFrame(d, f);
    assert f[4..] == cmd.data;
    assert cmd.typ == SUBSCRIBE ==> f[12..] == cmd.data[8..];
  }
}
