/** What the sending task has put on the channel for each queued file, whatever its peer does. */
module SenderRecord {
  import opened Basics
  import opened Chunking
  import opened FileLoop
  import opened Handshake
  import opened Model
  import opened Sending
  import opened Framing

  /** The files with a token, each cut into chunks. */
  function Chunked(tokens: map<string, string>, queued: seq<Queued>): seq<Delivery>
    decreases |queued|
  {
    if queued == [] then []
    else
      var n := |queued| - 1;
      Chunked(tokens, queued[..n])
      + (if queued[n].id in tokens then [Delivery(queued[n].id, Split(queued[n].data, CHUNK_SIZE))] else [])
  }

  /** Everything announced was cut canonically; of the file being streamed only a short rest is held back. */
  ghost predicate Recorded(t: Task) {
    match t.stage
    case Streaming(buffer) =>
      var m, n := |t.queued| - 1, |t.sent| - 1;
      && m >= 0 && n >= 0
      && t.queued[m].id in t.tokens && t.sent[n].id == t.queued[m].id
      && t.sent[..n] == Chunked(t.tokens, t.queued[..m])
      && |buffer| < CHUNK_SIZE && Emitting(t.sent[n].parts, buffer, t.queued[m].data)
    case _ =>
      && t.sent == Chunked(t.tokens, t.queued)
      && (t.stage.NextFile? || t.stage.AwaitLast? || t.stage.Ended? || t.queued == [])
  }

  lemma MessageKeepsRecord(c: Config, files: seq<FileDto>, t: Task, msg: Message)
    requires Listening(t) && Recorded(t)
    ensures Recorded(OnMessage(c, files, t, msg).task)
  {
  }

  lemma QueueKeepsRecord(c: Config, t: Task, id: string)
    requires t.stage.NextFile? && Recorded(t)
    ensures Recorded(OnAction(c, t, Queue(id)).task)
  {
    hide Split, Drain;
    var queued, sent := t.queued + [Queued(id, [])], t.sent + [Delivery(id, [])];
    assert queued[..|t.queued|] == t.queued && sent[..|t.sent|] == t.sent;
    if id in t.tokens {
      assert Emitting([], [], []) by {
        assert Concat<byte>([]) == [];
      }
    } else {
      assert Chunked(t.tokens, queued) == Chunked(t.tokens, t.queued) + [];
    }
  }

  lemma ActionKeepsRecord(c: Config, t: Task, a: Action)
    requires CanAct(t, a) && Recorded(t)
    ensures Recorded(OnAction(c, t, a).task)
  {
    match a
    case Enter(_) =>
    case Close =>
    case Queue(id) =>
      hide OnAction, Recorded;
      QueueKeepsRecord(c, t, id);
    case Data(part) =>
      hide OnAction, Recorded;
      DataKeepsRecord(c, t, part);
    case Eof =>
      hide OnAction, Recorded;
      EofKeepsRecord(c, t);
  }

  lemma EmitMore(parts: seq<bytes>, buffer: bytes, data: bytes, part: bytes)
    requires Emitting(parts, buffer, data)
    ensures var (full, rest) := Drain(buffer + part);
            Emitting(parts + full, rest, data + part) && |rest| < CHUNK_SIZE
  {
    hide Drain, Concat;
    var (full, rest) := Drain(buffer + part);
    DrainEmits(buffer + part);
    ConcatAppend(parts, full);
    assert data + part == Concat(parts) + (buffer + part);
    assert Concat(parts) + (Concat(full) + rest) == Concat(parts) + Concat(full) + rest;
  }

  lemma DataKeepsRecord(c: Config, t: Task, part: bytes)
    requires t.stage.Streaming? && Recorded(t)
    ensures Recorded(OnAction(c, t, Data(part)).task)
  {
    hide Chunked, Emitting, Drain, Binaries;
    var m, n := |t.queued| - 1, |t.sent| - 1;
    var (full, rest) := Drain(t.stage.buffer + part);
    EmitMore(t.sent[n].parts, t.stage.buffer, t.queued[m].data, part);
    assert Supply(t.queued, part)[..m] == t.queued[..m];
    assert Extend(t.sent, full)[..n] == t.sent[..n];
  }

  lemma EofKeepsRecord(c: Config, t: Task)
    requires t.stage.Streaming? && Recorded(t)
    ensures Recorded(OnAction(c, t, Eof).task)
  {
    var m, n := |t.queued| - 1, |t.sent| - 1;
    var buffer := t.stage.buffer;
    EmittedLeads(t.sent[n].parts, buffer, t.queued[m].data);
    var chunks := if buffer == [] then [] else [buffer];
    assert Split(buffer, CHUNK_SIZE) == chunks;
    assert t.sent[n].parts + [] == t.sent[n].parts;
    assert t.sent == t.sent[..n] + [t.sent[n]];
    var file := Delivery(t.queued[m].id, Split(t.queued[m].data, CHUNK_SIZE));
    assert Chunked(t.tokens, t.queued) == t.sent[..n] + [file];
    assert Extend(t.sent, [buffer])[..n] == t.sent[..n];
  }

  // ---- Seen by the receiving application ---------------------------------------------------------

  /** The queued files with a token: name and contents. */
  function Selected(tokens: map<string, string>, queued: seq<Queued>): seq<Queued>
    decreases |queued|
  {
    if queued == [] then []
    else
      var n := |queued| - 1;
      Selected(tokens, queued[..n]) + (if queued[n].id in tokens then [queued[n]] else [])
  }

  /** A delivered file once its chunks are put back together. */
  function Joined(delivered: seq<Delivery>): seq<Queued> {
    seq(|delivered|, i requires 0 <= i < |delivered| => Queued(delivered[i].id, Concat(delivered[i].parts)))
  }

  lemma {:induction false} JoinedChunks(tokens: map<string, string>, queued: seq<Queued>)
    ensures Joined(Chunked(tokens, queued)) == Selected(tokens, queued)
    decreases |queued|
  {
    if queued != [] {
      var n := |queued| - 1;
      JoinedChunks(tokens, queued[..n]);
      SplitIsCut(queued[n].data, CHUNK_SIZE);
    }
  }
}
