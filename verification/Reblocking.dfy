/** The second cut on the receiving device: chunks are collected into blocks of one mebibyte. */
module Reblocking {
  import opened Basics
  import opened Chunking

  /** What a collector holding `buffer` passes on when the chunks `parts` arrive and the stream closes. */
  function Reblock(parts: seq<bytes>, buffer: bytes): seq<bytes>
    decreases |parts|
  {
    if parts == [] then
      if buffer == [] then [] else [buffer]
    else
      var filled := buffer + parts[0];
      if |filled| >= BUFFER_SIZE then [filled] + Reblock(parts[1..], [])
      else Reblock(parts[1..], filled)
  }

  /** Collects the chunks `parts`, taken from a queue this method owns, and passes them to `tx` whenever a block is
      full and once the queue is closed. */
  method BufferReceiver(parts: seq<bytes>, tx: Sender<bytes>) returns (ok: bool)
    requires tx.limit.None?
    modifies tx
    ensures ok
    ensures tx.sent == old(tx.sent) + Reblock(parts, [])
  {
    var buffer: bytes := [];
    var rx := parts;
    while rx != []
      invariant tx.sent + Reblock(rx, buffer) == old(tx.sent) + Reblock(parts, [])
    {
      buffer := buffer + rx[0];
      rx := rx[1..];
      if |buffer| >= BUFFER_SIZE {
        var data := buffer;
        buffer := [];
        ok := tx.Send(data);
        if !ok {
          return;
        }
      }
    }
    ok := true;
    if buffer != [] {
      ok := tx.Send(buffer);
    }
  }

  /** No octet is lost, duplicated or moved, whatever the sizes of the arriving parts. */
  lemma {:induction false} ReblockConserves(parts: seq<bytes>, buffer: bytes)
    ensures Concat(Reblock(parts, buffer)) == buffer + Concat(parts)
    decreases |parts|
  {
    if parts == [] {
      if buffer != [] {
        ConcatSnoc([], buffer);
        assert [] + [buffer] == [buffer];
      }
    } else {
      var filled := buffer + parts[0];
      assert filled + Concat(parts[1..]) == buffer + Concat(parts);
      if |filled| >= BUFFER_SIZE {
        ReblockConserves(parts[1..], []);
        var blocks := Reblock(parts[1..], []);
        assert ([filled] + blocks)[0] == filled && ([filled] + blocks)[1..] == blocks;
        assert [] + Concat(parts[1..]) == Concat(parts[1..]);
      } else {
        ReblockConserves(parts[1..], filled);
      }
    }
  }

  /** Chunks of 16 KiB meet the block boundary exactly: 64 of them fill a block with nothing left over. */
  lemma {:induction false} ReblockChunks(data: bytes, buffer: bytes, held: nat)
    requires |buffer| == held * CHUNK_SIZE && held < BUFFER_SIZE / CHUNK_SIZE
    ensures Reblock(Split(data, CHUNK_SIZE), buffer) == Split(buffer + data, BUFFER_SIZE)
    decreases |data|
  {
    if data == [] {
      assert buffer + data == buffer;
    } else if |data| <= CHUNK_SIZE {
      var filled := buffer + data;
      assert Split(data, CHUNK_SIZE) == [data] && [data][1..] == [];
      assert |filled| <= BUFFER_SIZE;
      assert Reblock([], []) == [];
    } else {
      var chunk, tail := data[..CHUNK_SIZE], data[CHUNK_SIZE..];
      var chunks := Split(data, CHUNK_SIZE);
      assert chunks[0] == chunk && chunks[1..] == Split(tail, CHUNK_SIZE);
      var filled := buffer + chunk;
      assert filled + tail == buffer + data;
      if |filled| >= BUFFER_SIZE {
        assert |filled| == BUFFER_SIZE;
        ReblockChunks(tail, [], 0);
        assert [] + tail == tail;
        assert (buffer + data)[..BUFFER_SIZE] == filled && (buffer + data)[BUFFER_SIZE..] == tail;
      } else {
        ReblockChunks(tail, filled, held + 1);
      }
    }
  }

  /** End to end: however the sending application partitions the octets, the blocks that reach the receiving
      application concatenate to them, are all one mebibyte except possibly the last, and none is empty. */
  lemma TwoStages(parts: seq<bytes>)
    ensures var blocks := Reblock(Split(Concat(parts), 16_384), []);
            IsCut(blocks, Concat(parts), 1_048_576)
  {
    ReblockChunks(Concat(parts), [], 0);
    assert [] + Concat(parts) == Concat(parts);
    SplitIsCut(Concat(parts), BUFFER_SIZE);
  }

  /** One file on its way to the receiving application, whose chunks can be taken once. */
  class RTCFileReceiver {
    var binaryRx: Option<seq<bytes>>

    constructor (chunks: seq<bytes>)
      ensures binaryRx == Some(chunks)
    {
      binaryRx := Some(chunks);
    }

    /** The first call hands over the whole file in blocks, any further call nothing. */
    method Receive(sink: Sender<bytes>) returns (ok: bool)
      requires sink.limit.None?
      modifies this, sink
      ensures ok == old(binaryRx).Some? && binaryRx == None
      ensures !ok ==> sink.sent == old(sink.sent)
      ensures ok ==> sink.sent == old(sink.sent) + Reblock(old(binaryRx).value, [])
      ensures ok ==> Concat(Reblock(old(binaryRx).value, [])) == Concat(old(binaryRx).value)
      ensures ok ==> forall data :: old(binaryRx).value == Split(data, CHUNK_SIZE) ==>
                       IsCut(Reblock(old(binaryRx).value, []), data, BUFFER_SIZE)
    {
      match binaryRx
      case None => return false;
      case Some(chunks) =>
        binaryRx := None;
        ok := BufferReceiver(chunks, sink);
        ReblockConserves(chunks, []);
        assert [] + Concat(chunks) == Concat(chunks);
        forall data | chunks == Split(data, CHUNK_SIZE) ensures IsCut(Reblock(chunks, []), data, BUFFER_SIZE) {
          TwoStages([data]);
          assert Concat([data]) == data + Concat<byte>([]) == data;
        }
    }
  }

  /** The exactness rests on the first stage: parts that miss the block boundary give an oversized block. */
  lemma UnalignedPartsOverfill(part: bytes)
    requires BUFFER_SIZE / 2 < |part| < BUFFER_SIZE
    ensures Reblock([part, part], []) == [part + part]
    ensures !IsCut(Reblock([part, part], []), Concat([part, part]), BUFFER_SIZE)
  {
    var parts := [part, part];
    assert parts[1..] == [part] && [part][1..] == [];
    assert [] + part == part;
    assert Reblock([part], part) == [part + part] + Reblock([], []);
    assert Reblock(parts, []) == Reblock([part], part) == [part + part];
    assert |part + part| > BUFFER_SIZE;
    assert Reblock(parts, [])[0] == part + part;
  }
}
