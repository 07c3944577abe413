/** Messages on the data channel, and strings sent as binary chunks closed by a text delimiter. */
module Framing {
  import opened Basics
  import opened Chunking

  datatype Message = Message(isString: bool, data: bytes)

  function Text(data: bytes): Message { Message(true, data) }

  function Binary(data: bytes): Message { Message(false, data) }

  // The one-octet text "0"; empty messages do not reach the other peer.
  const DELIMITER: Message := Text([48])

  predicate IsDelimiter(msg: Message) {
    msg.isString && |msg.data| <= 1
  }

  function Binaries(chunks: seq<bytes>): (msgs: seq<Message>)
    ensures |msgs| == |chunks|
    ensures forall i :: 0 <= i < |chunks| ==> msgs[i] == Binary(chunks[i])
  {
    seq(|chunks|, i requires 0 <= i < |chunks| => Binary(chunks[i]))
  }

  /** The messages that carry one chunked string. */
  function Framed(payload: bytes): seq<Message> {
    Binaries(Split(payload, CHUNK_SIZE)) + [DELIMITER]
  }

  function AsBinary(chunk: bytes): Message { Binary(chunk) }

  lemma BinariesWrapped(chunks: seq<bytes>)
    ensures Wrapped(AsBinary, chunks) == Binaries(chunks)
  {
    assert forall i :: 0 <= i < |chunks| ==> Wrapped(AsBinary, chunks)[i] == Binary(chunks[i]);
  }

  /** Sends a string in chunks and closes it. */
  method SendStringInChunks(payload: bytes, tx: Sender<Message>)
    requires tx.limit.None?
    modifies tx
    ensures tx.sent == old(tx.sent) + Framed(payload)
  {
    var ok := ProcessInChunks([payload], tx, AsBinary);
    assert Concat([payload]) == payload + Concat<byte>([]) == payload;
    BinariesWrapped(Split(payload, CHUNK_SIZE));
    ok := tx.Send(DELIMITER);
  }

  /** The octets collected from the front of `msgs` up to the first text message, and what follows it. */
  function TakeString(msgs: seq<Message>): (bytes, seq<Message>) {
    if msgs == [] then ([], [])
    else if msgs[0].isString then ([], msgs[1..])
    else
      var (payload, rest) := TakeString(msgs[1..]);
      (msgs[0].data + payload, rest)
  }

  /** Reads binary messages until a text message or the end of the channel. */
  method ReceiveStringFromChunks(rx: Receiver<Message>) returns (payload: bytes)
    modifies rx
    ensures (payload, rx.items) == TakeString(old(rx.items))
  {
    ghost var whole := TakeString(rx.items);
    var buffer: bytes := [];
    assert buffer + TakeString(rx.items).0 == whole.0;
    while true
      invariant buffer + TakeString(rx.items).0 == whole.0 && TakeString(rx.items).1 == whole.1
      decreases |rx.items|
    {
      ghost var before := rx.items;
      var msg := rx.Recv();
      if msg.None? {
        break;
      }
      if msg.value.isString {
        break;
      }
      assert buffer + (msg.value.data + TakeString(rx.items).0) == (buffer + msg.value.data) + TakeString(rx.items).0;
      buffer := buffer + msg.value.data;
    }
    assert buffer + [] == buffer;
    payload := buffer;
  }

  /** `msgs` is exactly what is still under way of a string of which `buffer` was already read. */
  ghost predicate Rest(buffer: bytes, msgs: seq<Message>, payload: bytes)
    decreases |msgs|
  {
    && msgs != []
    && if msgs[0].isString then msgs == [DELIMITER] && buffer == payload
       else Rest(buffer + msgs[0].data, msgs[1..], payload)
  }

  lemma {:induction false} RestOfBinaries(buffer: bytes, chunks: seq<bytes>)
    ensures Rest(buffer, Binaries(chunks) + [DELIMITER], buffer + Concat(chunks))
    decreases |chunks|
  {
    var msgs := Binaries(chunks) + [DELIMITER];
    if chunks == [] {
      assert msgs == [DELIMITER] && buffer + Concat(chunks) == buffer;
    } else {
      RestOfBinaries(buffer + chunks[0], chunks[1..]);
      assert msgs[1..] == Binaries(chunks[1..]) + [DELIMITER];
      assert buffer + chunks[0] + Concat(chunks[1..]) == buffer + Concat(chunks);
    }
  }

  /** A freshly sent string is wholly under way. */
  lemma FramedIsRest(payload: bytes)
    ensures Rest([], Framed(payload), payload)
  {
    SplitIsCut(payload, CHUNK_SIZE);
    RestOfBinaries([], Split(payload, CHUNK_SIZE));
    assert [] + payload == payload;
  }

  /** It is sent in binary messages of 16 KiB, the last one possibly shorter, and then the text "0". */
  lemma FramedLayout(payload: bytes)
    ensures exists chunks :: IsCut(chunks, payload, 16_384) && Framed(payload) == Binaries(chunks) + [Message(true, [48])]
  {
    SplitIsCut(payload, CHUNK_SIZE);
  }

  lemma {:induction false} RestIsTaken(buffer: bytes, msgs: seq<Message>, payload: bytes, suffix: seq<Message>)
    requires Rest(buffer, msgs, payload)
    ensures TakeString(msgs + suffix).1 == suffix && buffer + TakeString(msgs + suffix).0 == payload
    decreases |msgs|
  {
    var all := msgs + suffix;
    if msgs[0].isString {
      assert all[1..] == suffix && buffer + [] == buffer;
    } else {
      RestIsTaken(buffer + msgs[0].data, msgs[1..], payload, suffix);
      assert all[1..] == msgs[1..] + suffix;
      var payload' := TakeString(msgs[1..] + suffix).0;
      assert buffer + msgs[0].data + payload' == buffer + (msgs[0].data + payload');
    }
  }

  function FramedAll(payloads: seq<bytes>): seq<Message> {
    if payloads == [] then [] else Framed(payloads[0]) + FramedAll(payloads[1..])
  }

  function TakeStrings(n: nat, msgs: seq<Message>): (seq<bytes>, seq<Message>) {
    if n == 0 then ([], msgs)
    else
      var (payload, rest) := TakeString(msgs);
      var (payloads, rest') := TakeStrings(n - 1, rest);
      ([payload] + payloads, rest')
  }

  /** Chunked strings sent back to back are read back one by one, and nothing beyond them is consumed. */
  lemma {:induction false} FramingRoundTrip(payloads: seq<bytes>, suffix: seq<Message>)
    ensures TakeStrings(|payloads|, FramedAll(payloads) + suffix) == (payloads, suffix)
    decreases |payloads|
  {
    if payloads == [] {
      assert [] + suffix == suffix;
    } else {
      var rest := FramedAll(payloads[1..]) + suffix;
      assert FramedAll(payloads) + suffix == Framed(payloads[0]) + rest;
      FramedIsRest(payloads[0]);
      RestIsTaken([], Framed(payloads[0]), payloads[0], rest);
      assert [] + TakeString(Framed(payloads[0]) + rest).0 == TakeString(Framed(payloads[0]) + rest).0;
      FramingRoundTrip(payloads[1..], suffix);
      assert [payloads[0]] + payloads[1..] == payloads;
    }
  }
}
