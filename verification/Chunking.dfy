/** Cutting byte streams into blocks: the 16 KiB chunks put on the data channel and the
    1 MiB blocks handed to the receiving application. */
module Chunking {
  import opened Basics

  const CHUNK_SIZE: nat := 16 * 1024

  const BUFFER_SIZE: nat := 1024 * 1024

  /** The canonical cut of `data` into blocks of `size` octets. */
  function Split(data: bytes, size: nat): (blocks: seq<bytes>)
    requires size > 0
    decreases |data|
  {
    if data == [] then []
    else if |data| <= size then [data]
    else [data[..size]] + Split(data[size..], size)
  }

  /** What it means for `blocks` to be a cut of `data`, without saying how it is computed. */
  ghost predicate IsCut(blocks: seq<bytes>, data: bytes, size: nat) {
    && Concat(blocks) == data
    && (forall i :: 0 <= i < |blocks| ==> 0 < |blocks[i]| <= size)
    && (forall i :: 0 <= i < |blocks| - 1 ==> |blocks[i]| == size)
  }

  /** The canonical cut is a cut, and has ceil(|data| / size) blocks. */
  lemma {:induction false} SplitIsCut(data: bytes, size: nat)
    requires size > 0
    ensures IsCut(Split(data, size), data, size)
    ensures data != [] ==> (|Split(data, size)| - 1) * size < |data| <= |Split(data, size)| * size
    ensures data == [] ==> Split(data, size) == []
    decreases |data|
  {
    if |data| > size {
      var tail := data[size..];
      SplitIsCut(tail, size);
      var k := |Split(tail, size)|;
      assert (k - 1) * size + size == k * size && k * size + size == (k + 1) * size;
    } else if data != [] {
      assert Concat([data]) == data + Concat<byte>([]);
    }
  }

  /** A cut is unique, so the emitted chunks depend on nothing but the octets. */
  lemma {:induction false} CutIsCanonical(blocks: seq<bytes>, data: bytes, size: nat)
    requires size > 0
    requires IsCut(blocks, data, size)
    ensures blocks == Split(data, size)
    decreases |blocks|
  {
    if blocks != [] {
      var tail := blocks[1..];
      assert data == blocks[0] + Concat(tail);
      if tail == [] {
        assert data == blocks[0];
      } else {
        assert forall i :: 0 <= i < |tail| ==> tail[i] == blocks[i + 1];
        assert |blocks[0]| == size;
        assert Concat(tail) == tail[0] + Concat(tail[1..]);
        assert data[..size] == blocks[0] && data[size..] == Concat(tail);
        CutIsCanonical(tail, data[size..], size);
      }
    }
  }

  /** Taking one full chunk off the front is the head of the canonical cut. */
  lemma SplitHead(data: bytes, size: nat)
    requires 0 < size <= |data|
    ensures Split(data, size) == [data[..size]] + Split(data[size..], size)
  {
    if |data| == size {
      assert data[..size] == data && data[size..] == [];
    }
  }

  ghost predicate AllFull(chunks: seq<bytes>) {
    forall i :: 0 <= i < |chunks| ==> |chunks[i]| == CHUNK_SIZE
  }

  /** `emitted` went out of `data`, and `rest` is still to come. */
  ghost predicate Emitting(emitted: seq<bytes>, rest: bytes, data: bytes) {
    AllFull(emitted) && Concat(emitted) + rest == data
  }

  /** The full chunks at the front of `data`, and what is left over. */
  function Drain(data: bytes): (seq<bytes>, bytes)
    decreases |data|
  {
    if |data| < CHUNK_SIZE then ([], data)
    else
      var (full, rest) := Drain(data[CHUNK_SIZE..]);
      ([data[..CHUNK_SIZE]] + full, rest)
  }

  lemma {:induction false} DrainEmits(data: bytes)
    ensures Emitting(Drain(data).0, Drain(data).1, data) && |Drain(data).1| < CHUNK_SIZE
    decreases |data|
  {
    if |data| >= CHUNK_SIZE {
      var tail := data[CHUNK_SIZE..];
      DrainEmits(tail);
      assert data == data[..CHUNK_SIZE] + (Concat(Drain(tail).0) + Drain(tail).1);
    }
  }

  lemma EmitChunk(emitted: seq<bytes>, chunk: bytes, rest: bytes, data: bytes)
    requires Emitting(emitted, chunk + rest, data) && |chunk| == CHUNK_SIZE
    ensures Emitting(emitted + [chunk], rest, data)
  {
    ConcatSnoc(emitted, chunk);
    assert Concat(emitted) + (chunk + rest) == Concat(emitted) + chunk + rest;
  }

  /** Full chunks lead the cut of what they begin, so at any time the emitted ones are a prefix of the whole cut. */
  lemma {:induction false} EmittedLeads(emitted: seq<bytes>, rest: bytes, data: bytes)
    requires Emitting(emitted, rest, data)
    ensures Split(data, CHUNK_SIZE) == emitted + Split(rest, CHUNK_SIZE)
  {
    if emitted == [] {
      assert data == rest;
    } else {
      var tail := Concat(emitted[1..]) + rest;
      assert data == emitted[0] + tail;
      assert Emitting(emitted[1..], rest, tail);
      EmittedLeads(emitted[1..], rest, tail);
      SplitHead(data, CHUNK_SIZE);
      assert data[..CHUNK_SIZE] == emitted[0] && data[CHUNK_SIZE..] == tail;
    }
  }

  /** The messages that the callback makes of chunks. */
  function Wrapped<T>(wrap: bytes -> T, chunks: seq<bytes>): (msgs: seq<T>)
    ensures |msgs| == |chunks|
    ensures forall i :: 0 <= i < |chunks| ==> msgs[i] == wrap(chunks[i])
  {
    seq(|chunks|, i requires 0 <= i < |chunks| => wrap(chunks[i]))
  }

  lemma WrappedSnoc<T>(wrap: bytes -> T, chunks: seq<bytes>, chunk: bytes)
    ensures Wrapped(wrap, chunks + [chunk]) == Wrapped(wrap, chunks) + [wrap(chunk)]
  {
  }

  lemma WrappedAppend<T>(wrap: bytes -> T, a: seq<bytes>, b: seq<bytes>)
    ensures Wrapped(wrap, a + b) == Wrapped(wrap, a) + Wrapped(wrap, b)
  {
  }

  /** `sent` extends `start` by some of `chunks`, in order and from the first on, but not by all of them. */
  ghost predicate StoppedShort<T>(start: seq<T>, sent: seq<T>, chunks: seq<T>) {
    exists n :: 0 <= n < |chunks| && sent == start + chunks[..n]
  }

  lemma NothingEmitted(data: bytes)
    ensures Emitting([], data, data)
  {
    assert Concat<byte>([]) + data == data;
  }

  lemma EmittedIsPrefix<T>(wrap: bytes -> T, start: seq<T>, emitted: seq<bytes>, rest: bytes, data: bytes)
    requires Emitting(emitted, rest, data) && rest != []
    ensures StoppedShort(start, start + Wrapped(wrap, emitted), Wrapped(wrap, Split(data, CHUNK_SIZE)))
    ensures |emitted| < |Split(data, CHUNK_SIZE)|
  {
    EmittedLeads(emitted, rest, data);
    WrappedAppend(wrap, emitted, Split(rest, CHUNK_SIZE));
    assert Wrapped(wrap, Split(data, CHUNK_SIZE))[..|emitted|] == Wrapped(wrap, emitted);
  }

  /** What is left when the input ends is at most one short chunk. */
  lemma EmitLast<T>(wrap: bytes -> T, start: seq<T>, emitted: seq<bytes>, rest: bytes, data: bytes)
    requires Emitting(emitted, rest, data) && |rest| < CHUNK_SIZE
    ensures Split(data, CHUNK_SIZE) == if rest == [] then emitted else emitted + [rest]
    ensures rest != [] ==> StoppedShort(start, start + Wrapped(wrap, emitted), Wrapped(wrap, Split(data, CHUNK_SIZE)))
  {
    EmittedLeads(emitted, rest, data);
    if rest != [] {
      EmittedIsPrefix(wrap, start, emitted, rest, data);
    }
  }

  /** The inner loop of `ProcessInChunks`: emits full chunks until fewer than `CHUNK_SIZE` octets are left. */
  method EmitFullChunks<T>(buffer: bytes, tx: Sender<T>, wrap: bytes -> T, ghost emitted: seq<bytes>,
                           ghost later: bytes, ghost data: bytes) returns (ok: bool, rest: bytes, ghost more: seq<bytes>)
    requires Emitting(emitted, buffer + later, data)
    modifies tx
    ensures tx.sent == old(tx.sent) + Wrapped(wrap, more)
    ensures more != [] ==> tx.Accepts(|tx.sent|)
    ensures Emitting(emitted + more, rest + later, data)
    ensures if ok then |rest| < CHUNK_SIZE else |rest| >= CHUNK_SIZE && !tx.Accepts(|tx.sent| + 1)
  {
    rest, more := buffer, [];
    assert emitted + [] == emitted;
    while |rest| >= CHUNK_SIZE
      invariant tx.sent == old(tx.sent) + Wrapped(wrap, more)
      invariant more != [] ==> tx.Accepts(|tx.sent|)
      invariant Emitting(emitted + more, rest + later, data)
    {
      var chunk := rest[..CHUNK_SIZE];
      ok := tx.Send(wrap(chunk));
      if !ok {
        return;
      }
      WrappedSnoc(wrap, more, chunk);
      assert rest + later == chunk + (rest[CHUNK_SIZE..] + later);
      EmitChunk(emitted + more, chunk, rest[CHUNK_SIZE..] + later, data);
      assert emitted + (more + [chunk]) == emitted + more + [chunk];
      more := more + [chunk];
      rest := rest[CHUNK_SIZE..];
    }
    ok := true;
  }

  /** Feeds the buffers `parts`, taken from a queue this method owns, to `tx` in chunks, each made into a message by
      `wrap`. It stops at the first chunk `tx` refuses, and what was accepted until then is a prefix of the canonical
      cut. */
  method ProcessInChunks<T>(parts: seq<bytes>, tx: Sender<T>, wrap: bytes -> T) returns (ok: bool)
    modifies tx
    ensures var chunks := Split(Concat(parts), CHUNK_SIZE);
            ok == (chunks == [] || tx.Accepts(|old(tx.sent)| + |chunks|))
    ensures ok ==> tx.sent == old(tx.sent) + Wrapped(wrap, Split(Concat(parts), CHUNK_SIZE))
    ensures !ok ==> StoppedShort(old(tx.sent), tx.sent, Wrapped(wrap, Split(Concat(parts), CHUNK_SIZE)))
    ensures !ok ==> !tx.Accepts(|tx.sent| + 1)
  {
    hide Split, Wrapped, Emitting;
    ghost var start, data := tx.sent, Concat(parts);
    ghost var emitted: seq<bytes> := [];
    var buffer: bytes := [];
    var rx := parts;
    NothingEmitted(data);
    assert start + Wrapped(wrap, []) == start && [] + Concat(parts) == Concat(parts);
    while rx != []
      invariant |buffer| < CHUNK_SIZE
      invariant tx.sent == start + Wrapped(wrap, emitted)
      invariant emitted != [] ==> tx.Accepts(|tx.sent|)
      invariant Emitting(emitted, buffer + Concat(rx), data)
    {
      ghost var more;
      ghost var later := Concat(rx[1..]);
      assert buffer + (rx[0] + later) == (buffer + rx[0]) + later;
      ok, buffer, more := EmitFullChunks(buffer + rx[0], tx, wrap, emitted, later, data);
      WrappedAppend(wrap, emitted, more);
      emitted := emitted + more;
      if !ok {
        EmittedIsPrefix(wrap, start, emitted, buffer + later, data);
        return;
      }
      rx := rx[1..];
    }
    assert buffer + Concat<byte>([]) == buffer;
    EmitLast(wrap, start, emitted, buffer, data);
    ok := true;
    if buffer != [] {
      ok := tx.Send(wrap(buffer));
      WrappedSnoc(wrap, emitted, buffer);
    }
  }
}
